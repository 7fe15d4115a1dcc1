/**
 * The HTTP face of the invoice cache: the status code each handler picks from the
 * service's answer, the error shape with its `details` defaulting to null, the XML
 * download and its file name, and the page arithmetic of the plain invoice listing.
 */
module NfeController {
  import opened Wrappers
  import opened Js
  import opened HttpRetry
  import opened Persistence
  import opened SefazMonitor
  import opened NfeService

  /** An `nfes` row as the listing selects it: no rejection columns and no XML. */
  datatype NfeListed = NfeListed(
    id: nat,
    chave: Value,
    numero: Value,
    serie: Value,
    dataEmissao: DateValue,
    valorTotal: Amount,
    emitenteCnpj: Value,
    emitenteNome: Value,
    destinatarioCnpj: Value,
    destinatarioNome: Value,
    status: Value,
    dataConsulta: int)

  function Listed(r: NfeRow): NfeListed {
    NfeListed(r.id, r.chave, r.numero, r.serie, r.dataEmissao, r.valorTotal, r.emitenteCnpj,
      r.emitenteNome, r.destinatarioCnpj, r.destinatarioNome, r.status, r.dataConsulta)
  }

  /** The listed columns of each row of `w`, in order. */
  function ListedRows(w: seq<NfeRow>): (rows: seq<NfeListed>)
    ensures |rows| == |w| && forall i :: 0 <= i < |w| ==> rows[i] == Listed(w[i])
  {
    seq(|w|, i requires 0 <= i < |w| => Listed(w[i]))
  }

  /** `{ page, limit, total, pages }` of the listing. */
  datatype PageInfo = PageInfo(page: Number, limit: Number, total: nat, pages: Number)

  /** What a handler sends. */
  datatype Body =
    | Looked(result: Consulta)                        // the service's `consultarNfe` object as it is
    | Details(data: NfeSummary)                       // { success: true, data }
    | Page(rows: seq<NfeListed>, pagination: PageInfo) // { success: true, data, pagination }
    | ErrorBody(error: string, details: Value)        // { success: false, error, details }

  datatype Sent =
    | Json(status: nat, body: Body)
    | XmlFile(contentType: string, disposition: string, content: Value)

  /** `enviarRespostaErro(res, status, message, details = null)` */
  function EnviarRespostaErro(status: nat, message: string, details: Option<string>): (s: Sent)
    ensures s.Json? && s.status == status && s.body.ErrorBody? && s.body.error == message
    ensures details.None? ==> s.body.details == Null
    ensures details.Some? ==> s.body.details == Str(details.value)
  {
    Json(status, ErrorBody(message, if details.Some? then Str(details.value) else Null))
  }

  /** `enviarArquivoXml(res, chaveAcesso, xmlContent)`: the download is named after the requested key. */
  function EnviarArquivoXml(chaveAcesso: string, xmlContent: Value): (s: Sent)
    ensures s.XmlFile? && s.contentType == "application/xml" && s.content == xmlContent
    ensures s.disposition == "attachment; filename=\"" + XmlFileName(chaveAcesso) + "\""
  {
    XmlFile("application/xml", "attachment; filename=\"nfe-" + chaveAcesso + ".xml\"", xmlContent)
  }

  /** `nfe-<chave>.xml` */
  function XmlFileName(chaveAcesso: string): (name: string)
    ensures |name| == |chaveAcesso| + 8
    ensures name[..4] == "nfe-" && name[4..4 + |chaveAcesso|] == chaveAcesso && name[4 + |chaveAcesso|..] == ".xml"
  {
    "nfe-" + chaveAcesso + ".xml"
  }

  /**
   * `consultarNfe(req, res)`: 400 for an empty key before the service is asked, then
   * 200 with the service's object when it succeeded and 400 with it otherwise.
   */
  method ConsultarNfe(s: Service, chaveAcesso: string, read: Store, reply: nat -> Reply, statusWrite: Store,
                      parse: Value -> Result<Value>, save: Store, elapsed: nat, now: int)
    returns (r: Sent)
    requires s.Valid()
    modifies s.monitor, s.db
    ensures s.Valid()
    ensures chaveAcesso == "" ==>
      && r == EnviarRespostaErro(400, "Chave de acesso não fornecida", None)
      && s.db.nfes == old(s.db.nfes) && s.db.statusRows == old(s.db.statusRows)
    ensures chaveAcesso != "" ==> r.Json? && r.body.Looked? && (r.status == 200 <==> !r.body.result.Failed?)
    ensures r.Json? && r.status != 200 ==> r.status == 400
    ensures chaveAcesso != "" && !ValidarChaveAcesso(chaveAcesso) ==> r == Json(400, Looked(Failed(InvalidKey, NoDetails)))
    ensures chaveAcesso != "" && ValidarChaveAcesso(chaveAcesso) && read.Up? && Str(chaveAcesso) in old(s.db.nfes) ==>
      r == Json(200, Looked(FromDatabase(Converter(old(s.db.nfes)[Str(chaveAcesso)]))))
  {
    if chaveAcesso == "" {
      return EnviarRespostaErro(400, "Chave de acesso não fornecida", None);
    }
    var resultado := s.ConsultarNfe(chaveAcesso, read, reply, statusWrite, parse, save, elapsed, now);
    if !resultado.Failed? {
      r := Json(200, Looked(resultado));
    } else {
      r := Json(400, Looked(resultado));
    }
  }

  /** `obterDetalhesNfe(req, res)`: 404 for a missing row, otherwise the row without `xml_conteudo`. */
  method ObterDetalhesNfe(s: Service, chaveAcesso: string, read: Store) returns (r: Sent)
    requires s.Valid()
    ensures read.Down? ==> r == EnviarRespostaErro(500, "Erro ao obter detalhes", Some("Erro na consulta ao banco: " + QueryFailure(read.message)))
    ensures read.Up? && Str(chaveAcesso) !in s.db.nfes ==> r == EnviarRespostaErro(404, "NFe não encontrada no banco de dados", None)
    ensures read.Up? && Str(chaveAcesso) in s.db.nfes ==> var row := s.db.nfes[Str(chaveAcesso)];
      && r.Json? && r.status == 200 && r.body.Details?
      && WithXml(r.body.data, row.xmlConteudo) == row
      && r.body.data.chave == Str(chaveAcesso)
  {
    var nfe := s.BuscarNfePorChave(chaveAcesso, read);
    if nfe.Err? {
      return EnviarRespostaErro(500, "Erro ao obter detalhes", Some(nfe.error));
    }
    if nfe.value.None? {
      return EnviarRespostaErro(404, "NFe não encontrada no banco de dados", None);
    }
    SummaryKeepsAllButXml(nfe.value.value);
    r := Json(200, Details(Summary(nfe.value.value)));
  }

  /**
   * `obterXmlNfe(req, res)`: a thrown export is a 500, a falsy XML a 404, and any
   * other XML is sent as the attachment `nfe-<chave>.xml`.
   */
  method ObterXmlNfe(s: Service, chaveAcesso: string, read: Store, consultRead: Store, reply: nat -> Reply, statusWrite: Store,
                     parse: Value -> Result<Value>, save: Store, elapsed: nat, now: int)
    returns (r: Sent)
    requires s.Valid()
    modifies s.monitor, s.db
    ensures s.Valid()
    ensures r.XmlFile? ==> Truthy(r.content) && r == EnviarArquivoXml(chaveAcesso, r.content)
    ensures r.Json? ==> r.body.ErrorBody? && (r.status == 404 || r.status == 500)
    ensures r.Json? && r.status == 500 ==> r.body.details.Str? && StartsWith(r.body.details.s, "Falha ao gerar XML: ")
    ensures read.Down? ==> r == EnviarRespostaErro(500, "Erro ao obter o XML", Some("Falha ao gerar XML: " + ("Erro na consulta ao banco: " + QueryFailure(read.message))))
    ensures read.Up? && Str(chaveAcesso) in old(s.db.nfes) && Truthy(old(s.db.nfes)[Str(chaveAcesso)].xmlConteudo) ==>
      r == EnviarArquivoXml(chaveAcesso, old(s.db.nfes)[Str(chaveAcesso)].xmlConteudo)
    ensures (&& read.Up? && Str(chaveAcesso) in old(s.db.nfes) && !Truthy(old(s.db.nfes)[Str(chaveAcesso)].xmlConteudo)
             && ValidarChaveAcesso(chaveAcesso) && consultRead.Up?) ==>
      r == EnviarRespostaErro(404, "XML da NFe não encontrado", None)
    ensures read.Up? && (Str(chaveAcesso) !in old(s.db.nfes) || !Truthy(old(s.db.nfes)[Str(chaveAcesso)].xmlConteudo)) ==>
      && (!ValidarChaveAcesso(chaveAcesso) ==> r == EnviarRespostaErro(500, "Erro ao obter o XML", Some(ConsultFailed(InvalidKey))))
      && (ValidarChaveAcesso(chaveAcesso) && consultRead.Down? ==>
            r == EnviarRespostaErro(500, "Erro ao obter o XML", Some(ConsultFailed("Erro na consulta ao banco: " + QueryFailure(consultRead.message)))))
    ensures read.Up? && ValidarChaveAcesso(chaveAcesso) && consultRead.Up? && Str(chaveAcesso) !in old(s.db.nfes) ==>
      var f := RemoteResult(FinalOutcome(DefaultPolicy, reply), parse, save, now);
      && (f.Ok? && Truthy(f.value.1) ==> r == EnviarArquivoXml(chaveAcesso, f.value.1))
      && (f.Ok? && !Truthy(f.value.1) ==> r == EnviarRespostaErro(404, "XML da NFe não encontrado", None))
      && (f.Err? ==> r == EnviarRespostaErro(500, "Erro ao obter o XML", Some(ConsultFailed(FormatarRespostaErro(f.error, None).error))))
  {
    var xmlContent := s.GerarArquivoXml(chaveAcesso, read, consultRead, reply, statusWrite, parse, save, elapsed, now);
    if xmlContent.Err? {
      return EnviarRespostaErro(500, "Erro ao obter o XML", Some(xmlContent.error));
    }
    if !Truthy(xmlContent.value) {
      return EnviarRespostaErro(404, "XML da NFe não encontrado", None);
    }
    r := EnviarArquivoXml(chaveAcesso, xmlContent.value);
  }

  /** `(a - 1) * b` over numbers that may be NaN. */
  function OffsetOf(page: Number, limit: Number): Number {
    if page.Finite? && limit.Finite? then Finite((page.v - 1) * limit.v) else NaN
  }

  /**
   * `listarNfes(req, res)` over `obterNfesPaginadas(page, limit)`: the newest rows from
   * `offset = (page - 1) * limit`, `page` echoed back and `pages = ceil(total / limit)`
   * with no fallback. A LIMIT or OFFSET that is NaN or negative makes the statement
   * fail; `read` and `count` are the two statements, whose failures `executeQuery`
   * rethrows prefixed.
   */
  method ListarNfes(db: Database, page: Option<string>, limit: Option<string>, read: Store, count: Store)
    returns (r: Sent, ghost all: seq<NfeRow>)
    requires db.Valid()
    ensures var p := ParseIntOr(page, 1); var l := ParseIntOr(limit, 10); var o := OffsetOf(p, l);
      && (read.Up? && l.Finite? && l.v >= 0 && o.Finite? && o.v >= 0 && count.Up? ==> (
            && r.Json? && r.status == 200 && r.body.Page?
            && r.body.pagination == PageInfo(p, l, |db.nfes|, CeilDiv(|db.nfes|, l.v))
            && |r.body.rows| == (if o.v >= |db.nfes| then 0 else Min(l.v, |db.nfes| - o.v))
            && (forall i :: 0 <= i < |r.body.rows| ==> r.body.rows[i].chave in db.nfes && Listed(db.nfes[r.body.rows[i].chave]) == r.body.rows[i])
            && (forall i, j :: 0 <= i < j < |r.body.rows| ==> r.body.rows[i].dataConsulta >= r.body.rows[j].dataConsulta)
            && (forall i, j :: 0 <= i < j < |r.body.rows| ==> r.body.rows[i].chave != r.body.rows[j].chave)
            && NewestFirstOf(db.nfes, false, all)
            && r.body.rows == ListedRows(Window(all, o.v, l.v))))
      && (read.Down? ==> r == EnviarRespostaErro(500, "Erro ao listar NFes", Some(QueryFailure(read.message))))
      && (read.Up? && (!l.Finite? || l.v < 0 || !o.Finite? || o.v < 0) ==>
            r == EnviarRespostaErro(500, "Erro ao listar NFes", Some(QueryFailure(BadLimitArguments))))
    ensures r.Json? && r.status == 200 && r.body.Page? ==> r.body.pagination.limit.Finite?
  {
    var p := ParseIntOr(page, 1);
    var l := ParseIntOr(limit, 10);
    var o := OffsetOf(p, l);
    all := [];
    if read.Down? {
      r := EnviarRespostaErro(500, "Erro ao listar NFes", Some(QueryFailure(read.message)));
      return;
    }
    if !l.Finite? || l.v < 0 || !o.Finite? || o.v < 0 {
      r := EnviarRespostaErro(500, "Erro ao listar NFes", Some(QueryFailure(BadLimitArguments)));
      return;
    }
    var listed;
    listed, all := SelectPage(db, o.v, l.v);
    if count.Down? {
      r := EnviarRespostaErro(500, "Erro ao listar NFes", Some(QueryFailure(count.message)));
      return;
    }
    var total := |db.nfes|;
    r := Json(200, Page(listed, PageInfo(p, l, total, CeilDiv(total, l.v))));
  }

  /** `SELECT ... FROM nfes ORDER BY data_consulta DESC LIMIT ? OFFSET ?` with both arguments valid. */
  method SelectPage(db: Database, offset: nat, limit: nat) returns (rows: seq<NfeListed>, ghost all: seq<NfeRow>)
    requires db.Valid()
    ensures |rows| == (if offset >= |db.nfes| then 0 else Min(limit, |db.nfes| - offset))
    ensures forall i :: 0 <= i < |rows| ==> rows[i].chave in db.nfes && Listed(db.nfes[rows[i].chave]) == rows[i]
    ensures forall i, j :: 0 <= i < j < |rows| ==> rows[i].dataConsulta >= rows[j].dataConsulta
    ensures forall i, j :: 0 <= i < j < |rows| ==> rows[i].chave != rows[j].chave
    ensures NewestFirstOf(db.nfes, false, all) && rows == ListedRows(Window(all, offset, limit))
  {
    var selected := db.SelectNewestFirst(false);
    all := selected;
    AllRowsSelected(db.nfes);
    rows := ListedRows(Window(selected, offset, limit));
  }

  /** With a positive limit, `ceil(total / limit)` pages hold the rows and none is empty; no rows give 0 pages. */
  lemma PageCount(total: nat, limit: int)
    requires limit > 0
    ensures var pages := CeilDiv(total, limit);
      && pages.Finite? && pages.v >= 0
      && pages.v * limit - limit < total <= pages.v * limit
      && (total == 0 <==> pages == Finite(0))
  {
    CeilDivBounds(total, limit);
    var q := CeilDiv(total, limit).v;
    if q < 0 {
      MulMono(q, -1, limit);
    } else if total == 0 && q >= 1 {
      MulMono(1, q, limit);
    }
  }

  /** Without the rejected filter every row is selected. */
  lemma AllRowsSelected(t: map<Value, NfeRow>)
    ensures |SelectedKeys(t, false)| == |t|
  {
    assert SelectedKeys(t, false) == t.Keys;
  }
}
