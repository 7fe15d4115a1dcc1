/**
 * The NF-e invoice service: access-key validation, the cache-then-remote lookup over
 * the `nfes` table, field extraction from a JSON payload or from the parsed tree of
 * an NF-e document (layout 4.00: `infNFe` with its `Id` attribute and the groups
 * `ide`, `emit`, `dest` and `total/ICMSTot`), the upsert, and the XML export fallback.
 *
 * The XML parser is a parameter `parse`; the remote call goes through the status
 * monitor's `RequisitarSefaz`.
 */
module NfeService {
  import opened Wrappers
  import opened Js
  import opened HttpRetry
  import opened Persistence
  import opened SefazMonitor

  const InvalidKey := "Chave de acesso inválida. Deve conter exatamente 44 dígitos numéricos."
  const NoDetails := Str("Sem detalhes adicionais")
  const XmlPrefix := "Falha ao processar XML: "
  const InvalidStructure := "Estrutura de XML inválida: não foi possível encontrar os dados da NFe"

  predicate StartsWith(s: string, p: string) {
    |p| <= |s| && s[..|p|] == p
  }

  lemma StartsWithConcat(p: string, rest: string)
    ensures StartsWith(p + rest, p)
  {
    assert (p + rest)[..|p|] == p;
  }

  /** `/^\d{44}$/.test(chaveAcesso)` */
  function ValidarChaveAcesso(chaveAcesso: string): (ok: bool)
    ensures ok <==> |chaveAcesso| == 44 && forall i :: 0 <= i < |chaveAcesso| ==> IsDigit(chaveAcesso[i])
  {
    Matches44Digits(chaveAcesso)
  }

  // ---------------------------------------------------------------- rows as the service returns them

  /** `converterNfeBancoDadosParaObjeto`'s result: every column but `id` and `xml_conteudo`. */
  datatype NfeRecord = NfeRecord(
    chave: Value,
    numero: Value,
    serie: Value,
    dataEmissao: DateValue,
    valorTotal: Amount,
    emitenteCnpj: Value,
    emitenteNome: Value,
    destinatarioCnpj: Value,
    destinatarioNome: Value,
    status: Value,
    motivoRejeicao: Value,
    codigoRejeicao: Value,
    dataRejeicao: Value,
    dataConsulta: int)

  function Converter(r: NfeRow): NfeRecord {
    NfeRecord(r.chave, r.numero, r.serie, r.dataEmissao, r.valorTotal, r.emitenteCnpj, r.emitenteNome,
      r.destinatarioCnpj, r.destinatarioNome, r.status, r.motivoRejeicao, r.codigoRejeicao, r.dataRejeicao,
      r.dataConsulta)
  }

  /** A record put back into a row, given the two columns the conversion drops. */
  function RecordRow(rec: NfeRecord, id: nat, xml: Value): NfeRow {
    NfeRow(id, rec.chave, rec.numero, rec.serie, rec.dataEmissao, rec.valorTotal, rec.emitenteCnpj,
      rec.emitenteNome, rec.destinatarioCnpj, rec.destinatarioNome, rec.status, rec.motivoRejeicao,
      rec.codigoRejeicao, rec.dataRejeicao, xml, rec.dataConsulta)
  }

  /** The conversion maps column to field one for one and drops only `id` and `xml_conteudo`. */
  lemma ConverterDropsOnlyIdAndXml(r: NfeRow)
    ensures RecordRow(Converter(r), r.id, r.xmlConteudo) == r
  {
  }

  /** What `consultarNfe` resolves to. */
  datatype Consulta =
    | FromDatabase(record: NfeRecord)      // { success: true, data, fromDatabase: true }
    | FromApi(data: NfeData, xml: Value)   // { success: true, data, xml }
    | Failed(error: string, details: Value)

  /** `formatarRespostaErro(error)` for an error with `message` and, when it came from axios, `response.data`. */
  function FormatarRespostaErro(message: string, responseData: Option<Value>): (r: Consulta)
    ensures r.Failed?
    ensures r.error == (if message == "" then "Erro na consulta" else message)
    ensures responseData.Some? && Truthy(responseData.value) ==> r.details == responseData.value
    ensures responseData.None? || !Truthy(responseData.value) ==> r.details == NoDetails
  {
    Failed(if message == "" then "Erro na consulta" else message,
      if responseData.Some? then Or(responseData.value, NoDetails) else NoDetails)
  }

  // ---------------------------------------------------------------- JSON payloads

  /** The position of the first alias in `names` whose field of `data` is truthy; `|names|` when there is none. */
  function AliasIndex(data: Value, names: seq<string>): (i: nat)
    ensures i <= |names|
    ensures forall k :: 0 <= k < i ==> !Truthy(Prop(data, names[k]))
    ensures i < |names| ==> Truthy(Prop(data, names[i]))
  {
    if names == [] then 0
    else if Truthy(Prop(data, names[0])) then 0
    else
      var i := AliasIndex(data, names[1..]);
      assert forall k :: 1 <= k < |names| ==> names[k] == names[1..][k - 1];
      i + 1
  }

  /** `data.a || data.b || … || fallback`: the first truthy alias wins. */
  function FirstTruthy(data: Value, names: seq<string>, fallback: Value): (v: Value)
    ensures Truthy(v) || v == fallback
  {
    var i := AliasIndex(data, names);
    if i < |names| then Prop(data, names[i]) else fallback
  }

  /** `a || b || fallback` takes `a` when truthy, else `b` when truthy, else `fallback`. */
  lemma FirstTruthyOfTwo(data: Value, a: string, b: string, fallback: Value)
    ensures FirstTruthy(data, [a, b], fallback) == Or(Prop(data, a), Or(Prop(data, b), fallback))
  {
    var names := [a, b];
    var i := AliasIndex(data, names);
    assert names[0] == a && names[1] == b;
    if Truthy(Prop(data, a)) {
      assert i == 0;
    } else if Truthy(Prop(data, b)) {
      assert i == 1;
    } else {
      assert i == 2;
    }
  }

  /** `jsonData.nfe || jsonData.dados || jsonData` */
  function JsonRoot(json: Value): (root: Value)
    requires !Nullish(json)
    ensures Truthy(Prop(json, "nfe")) ==> root == Prop(json, "nfe")
    ensures !Truthy(Prop(json, "nfe")) && Truthy(Prop(json, "dados")) ==> root == Prop(json, "dados")
    ensures !Truthy(Prop(json, "nfe")) && !Truthy(Prop(json, "dados")) ==> root == json
  {
    Or(Or(Prop(json, "nfe"), Prop(json, "dados")), json)
  }

  /** `extrairDadosNfeDoJson(jsonData)`: each field from its aliases, in order, else its default. */
  function ExtrairDadosNfeDoJson(json: Value, now: int): (r: Result<NfeData>)
    ensures r.Err? <==> Nullish(json)
    ensures r.Ok? ==> var root := JsonRoot(json);
      && r.value.status == (if Truthy(Prop(root, "status")) then Prop(root, "status") else Str("PROCESSADA"))
      && (Truthy(Prop(root, "dataEmissao")) ==> r.value.dataEmissao == DateOf(Prop(root, "dataEmissao")))
      && (!Truthy(Prop(root, "dataEmissao")) ==> r.value.dataEmissao == CurrentDate(now))
      && r.value.valorTotal == FloatOf(Or(Prop(root, "valorTotal"), Num(0)))
  {
    var _ :- Get(json, "nfe");
    var root := JsonRoot(json);
    var d := NfeData(
      FirstTruthy(root, ["chaveAcesso", "chave"], Str("")),
      FirstTruthy(root, ["numero"], Str("")),
      FirstTruthy(root, ["serie"], Str("")),
      if Truthy(Prop(root, "dataEmissao")) then DateOf(Prop(root, "dataEmissao")) else CurrentDate(now),
      FloatOf(Or(Prop(root, "valorTotal"), Num(0))),
      FirstTruthy(root, ["emitenteCnpj", "cnpjEmitente"], Str("")),
      FirstTruthy(root, ["emitenteNome", "nomeEmitente"], Str("")),
      FirstTruthy(root, ["destinatarioCnpj", "cnpjDestinatario"], Str("")),
      FirstTruthy(root, ["destinatarioNome", "nomeDestinatario"], Str("")),
      Or(Prop(root, "status"), Str("PROCESSADA")));
    Ok(d)
  }

  /** `a || fallback` takes `a` when truthy, else `fallback`. */
  lemma FirstTruthyOfOne(data: Value, a: string, fallback: Value)
    ensures FirstTruthy(data, [a], fallback) == Or(Prop(data, a), fallback)
  {
    var names := [a];
    assert names[0] == a;
    if Truthy(Prop(data, a)) {
      assert AliasIndex(data, names) == 0;
    } else {
      assert AliasIndex(data, names) == 1;
    }
  }

  /** Each aliased field is the first truthy of its names, in the order written, else ''. */
  lemma JsonAliases(json: Value, now: int)
    requires !Nullish(json)
    ensures var d := ExtrairDadosNfeDoJson(json, now).value; var root := JsonRoot(json);
      && d.numero == Or(Prop(root, "numero"), Str(""))
      && d.serie == Or(Prop(root, "serie"), Str(""))
      && d.chave == Or(Prop(root, "chaveAcesso"), Or(Prop(root, "chave"), Str("")))
      && d.emitenteCnpj == Or(Prop(root, "emitenteCnpj"), Or(Prop(root, "cnpjEmitente"), Str("")))
      && d.emitenteNome == Or(Prop(root, "emitenteNome"), Or(Prop(root, "nomeEmitente"), Str("")))
      && d.destinatarioCnpj == Or(Prop(root, "destinatarioCnpj"), Or(Prop(root, "cnpjDestinatario"), Str("")))
      && d.destinatarioNome == Or(Prop(root, "destinatarioNome"), Or(Prop(root, "nomeDestinatario"), Str("")))
  {
    var root := JsonRoot(json);
    FirstTruthyOfOne(root, "numero", Str(""));
    FirstTruthyOfOne(root, "serie", Str(""));
    FirstTruthyOfTwo(root, "chaveAcesso", "chave", Str(""));
    FirstTruthyOfTwo(root, "emitenteCnpj", "cnpjEmitente", Str(""));
    FirstTruthyOfTwo(root, "emitenteNome", "nomeEmitente", Str(""));
    FirstTruthyOfTwo(root, "destinatarioCnpj", "cnpjDestinatario", Str(""));
    FirstTruthyOfTwo(root, "destinatarioNome", "nomeDestinatario", Str(""));
  }

  /** Data extracted from JSON never binds null or undefined, so its upsert fails only when the store does. */
  lemma JsonDataBindsNoNull(json: Value, now: int)
    requires !Nullish(json)
    ensures UpsertError(ExtrairDadosNfeDoJson(json, now).value, Up).None?
  {
    var d := ExtrairDadosNfeDoJson(json, now).value;
    assert BindsNoNullish(d);
  }

  // ---------------------------------------------------------------- parsed NF-e documents

  predicate OccursAt(s: string, pat: string, j: nat) {
    j + |pat| <= |s| && forall t :: 0 <= t < |pat| ==> s[j + t] == pat[t]
  }

  /** The first index at which `pat` occurs in `s`. */
  function IndexOf(s: string, pat: string): (i: Option<nat>)
    ensures i.Some? ==> OccursAt(s, pat, i.value)
    ensures i.Some? ==> forall j: nat :: j < i.value ==> !OccursAt(s, pat, j)
    ensures i.None? ==> forall j: nat :: !OccursAt(s, pat, j)
    decreases |s|
  {
    if |s| < |pat| then None
    else if OccursAt(s, pat, 0) then Some(0)
    else
      var rest := IndexOf(s[1..], pat);
      assert forall j: nat :: 1 <= j ==> (OccursAt(s, pat, j) <==> OccursAt(s[1..], pat, j - 1));
      match rest
      case None => None
      case Some(k) => Some(k + 1)
  }

  /** `s.replace(pat, rep)` with a string pattern: only the first occurrence is replaced. */
  function ReplaceFirst(s: string, pat: string, rep: string): string {
    match IndexOf(s, pat)
    case None => s
    case Some(i) => s[..i] + rep + s[i + |pat|..]
  }

  /** An `Id` laid out as `NFe` followed by the key gives the key back. */
  lemma KeyOfId(key: string)
    ensures ReplaceFirst("NFe" + key, "NFe", "") == key
  {
    var s := "NFe" + key;
    assert OccursAt(s, "NFe", 0);
    assert s[3..] == key;
  }

  /** `result.nfeProc?.NFe || result.NFe`, for a parse result that is not null. */
  function NfeNode(result: Value): Value {
    Or(OptGet(Prop(result, "nfeProc"), "NFe"), Prop(result, "NFe"))
  }

  /** `nfeObj?.infNFe` */
  function InfNFe(result: Value): Value {
    OptGet(NfeNode(result), "infNFe")
  }

  /** `infNFe.$.Id ? infNFe.$.Id.replace('NFe', '') : ''`, which throws when `$` is missing or `Id` is no string. */
  function KeyFromId(inf: Value): Result<Value> {
    var id :- Get(Prop(inf, "$"), "Id");
    if !Truthy(id) then Ok(Str(""))
    else if id.Str? then Ok(Str(ReplaceFirst(id.s, "NFe", "")))
    else Err("infNFe.$.Id.replace is not a function")
  }

  /** The fields of `processarXmlNfe`, read in the order the object literal reads them. */
  function ReadInfNFe(inf: Value, now: int): Result<NfeData> {
    var ide := Prop(inf, "ide");
    var emit := Prop(inf, "emit");
    var dest := Prop(inf, "dest");
    var total := OptGet(Prop(inf, "total"), "ICMSTot");
    var chave :- KeyFromId(inf);
    var numero :- Get(ide, "nNF");
    var serie :- Get(ide, "serie");
    var dhEmi :- Get(ide, "dhEmi");
    var emitenteCnpj :- Get(emit, "CNPJ");
    var emitenteNome :- Get(emit, "xNome");
    var destCnpj :- Get(dest, "CNPJ");
    var destinatarioNome :- Get(dest, "xNome");
    Ok(NfeData(
      chave, numero, serie,
      if Truthy(dhEmi) then DateOf(dhEmi) else CurrentDate(now),
      AmountOf(Or(OptGet(total, "vNF"), Num(0))),
      emitenteCnpj, emitenteNome,
      Or(destCnpj, Or(Prop(dest, "CPF"), Str(""))),
      destinatarioNome,
      Str("PROCESSADA")))
  }

  /**
   * `processarXmlNfe` after parsing: `parsed` is what the parser produced or the error
   * it raised; every failure is reported under the same prefix.
   */
  function ProcessarXmlNfe(parsed: Result<Value>, now: int): (r: Result<NfeData>)
    ensures parsed.Err? ==> r == Err(XmlPrefix + parsed.error)
    ensures r.Err? ==> StartsWith(r.error, XmlPrefix)
    ensures parsed.Ok? && !Nullish(parsed.value) && !Truthy(InfNFe(parsed.value)) ==> r == Err(XmlPrefix + InvalidStructure)
    ensures r.Ok? ==> parsed.Ok? && Truthy(InfNFe(parsed.value))
    ensures r.Ok? ==> var inf := InfNFe(parsed.value); var dest := Prop(inf, "dest"); var id := Prop(Prop(inf, "$"), "Id");
      && r.value.status == Str("PROCESSADA")
      && r.value.destinatarioCnpj == Or(Prop(dest, "CNPJ"), Or(Prop(dest, "CPF"), Str("")))
      && r.value.valorTotal == AmountOf(Or(OptGet(OptGet(Prop(inf, "total"), "ICMSTot"), "vNF"), Num(0)))
      && (Truthy(id) ==> id.Str? && r.value.chave == Str(ReplaceFirst(id.s, "NFe", "")))
      && (!Truthy(id) ==> r.value.chave == Str(""))
  {
    var read :=
      if parsed.Err? then Err(parsed.error)
      else if Nullish(parsed.value) then Err(ReadError(parsed.value, "nfeProc"))
      else if !Truthy(InfNFe(parsed.value)) then Err(InvalidStructure)
      else ReadInfNFe(InfNFe(parsed.value), now);
    match read
    case Ok(d) => Ok(d)
    case Err(e) => Err(XmlPrefix + e)
  }

  // ---------------------------------------------------------------- the remote branch

  /**
   * `consultarNfeNaApi` after the request succeeded with payload `data`: the XML when
   * there is one, else the JSON fields; the XML content it keeps is `data.xml || ''`.
   */
  function FromPayload(data: Value, parse: Value -> Result<Value>, now: int): (r: Result<(NfeData, Value)>)
    ensures Nullish(data) ==> r == Err(ReadError(data, "xml"))
    ensures r.Ok? ==> r.value.1 == Or(Prop(data, "xml"), Str(""))
    ensures !Nullish(data) && Truthy(Prop(data, "xml")) ==>
      (r.Ok? <==> ProcessarXmlNfe(parse(Prop(data, "xml")), now).Ok?)
      && (r.Ok? ==> r.value.0 == ProcessarXmlNfe(parse(Prop(data, "xml")), now).value)
    ensures !Nullish(data) && !Truthy(Prop(data, "xml")) ==> r == Ok((ExtrairDadosNfeDoJson(data, now).value, Str("")))
  {
    var xml :- Get(data, "xml");
    var xmlContent := Or(xml, Str(""));
    var d :- if Truthy(xmlContent) then ProcessarXmlNfe(parse(xmlContent), now) else ExtrairDadosNfeDoJson(data, now);
    Ok((d, xmlContent))
  }

  /**
   * What `consultarNfeNaApi` returns or throws once the request settled with `o`: the
   * request's message (or a default), the extraction's error, the upsert's error, or
   * the extracted data with the XML content kept.
   */
  function RemoteResult(o: Outcome, parse: Value -> Result<Value>, save: Store, now: int): Result<(NfeData, Value)> {
    if o.Rejected? then Err(if o.message == "" then "Erro na consulta à API da SEFAZ" else o.message)
    else match FromPayload(o.data, parse, now)
      case Err(e) => Err(e)
      case Ok(v) =>
        if UpsertError(v.0, save).Some? then Err("Erro ao salvar dados: " + QueryFailure(UpsertError(v.0, save).value))
        else Ok(v)
  }

  /** The error `gerarArquivoXml` throws when its `consultarNfe` answered `{ success: false, error }`. */
  function ConsultFailed(error: string): (e: string)
    ensures StartsWith(e, "Falha ao gerar XML: ")
  {
    StartsWithConcat("Falha ao gerar XML: ", "Não foi possível consultar a NFe: " + error);
    "Falha ao gerar XML: " + ("Não foi possível consultar a NFe: " + error)
  }

  /** The query body `consultarNfeNaApi` posts. */
  function ConsultaBody(chaveAcesso: string): Value {
    Obj(map["chaveAcesso" := Str(chaveAcesso)])
  }

  // ---------------------------------------------------------------- the service

  class Service {
    const db: Database
    const monitor: Monitor

    ghost predicate Valid()
      reads this, monitor, monitor.db
    {
      monitor.Valid() && monitor.db == db
    }

    constructor (monitor: Monitor)
      requires monitor.Valid()
      ensures Valid() && this.monitor == monitor && db == monitor.db
    {
      this.monitor := monitor;
      db := monitor.db;
    }

    /** `buscarNfePorChave(chaveAcesso)`: the row stored under the key, if any. */
    method BuscarNfePorChave(chaveAcesso: string, read: Store) returns (r: Result<Option<NfeRow>>)
      requires Valid()
      ensures read.Down? ==> r == Err("Erro na consulta ao banco: " + QueryFailure(read.message))
      ensures read.Up? ==> r.Ok?
      ensures r.Ok? && r.value.Some? ==>
        Str(chaveAcesso) in db.nfes && r.value.value == db.nfes[Str(chaveAcesso)] && r.value.value.chave == Str(chaveAcesso)
      ensures r.Ok? && r.value.None? ==> Str(chaveAcesso) !in db.nfes
    {
      if read.Down? {
        return Err("Erro na consulta ao banco: " + QueryFailure(read.message));
      }
      var key := Str(chaveAcesso);
      if key in db.nfes {
        r := Ok(Some(db.nfes[key]));
      } else {
        r := Ok(None);
      }
    }

    /**
     * `salvarNfeNoBanco(nfeData, xmlContent)`: the upsert keyed by the data's own
     * `chave`; a failure is rethrown with a prefix.
     */
    method SalvarNfeNoBanco(d: NfeData, xmlContent: Value, store: Store, elapsed: nat) returns (r: Result<()>)
      requires Valid()
      modifies db
      ensures Valid()
      ensures r.Ok? <==> UpsertError(d, store).None?
      ensures r.Err? ==> r.error == "Erro ao salvar dados: " + QueryFailure(UpsertError(d, store).value) && db.nfes == old(db.nfes)
      ensures r.Ok? ==> db.nfes == Upserted(old(db.nfes), d, xmlContent, old(db.nextNfeId), db.clock)
      ensures db.statusRows == old(db.statusRows)
    {
      var saved := db.UpsertNfe(d, xmlContent, store, elapsed);
      if saved.Err? {
        return Err("Erro ao salvar dados: " + QueryFailure(saved.error));
      }
      r := Ok(());
    }

    /**
     * `consultarNfeNaApi(chaveAcesso)`: one protocol query, then the extraction and one
     * upsert. A failure becomes an error for `consultarNfe` to format.
     */
    method ConsultarNfeNaApi(chaveAcesso: string, reply: nat -> Reply, statusWrite: Store,
                             parse: Value -> Result<Value>, save: Store, elapsed: nat, now: int)
      returns (r: Result<(NfeData, Value)>)
      requires Valid()
      modifies monitor, db
      ensures Valid()
      ensures var o := FinalOutcome(DefaultPolicy, reply);
        && (o.Rejected? ==> r == Err(if o.message == "" then "Erro na consulta à API da SEFAZ" else o.message) && db.nfes == old(db.nfes))
        && (o.Resolved? && FromPayload(o.data, parse, now).Err? ==> r == Err(FromPayload(o.data, parse, now).error) && db.nfes == old(db.nfes))
        && (o.Resolved? && FromPayload(o.data, parse, now).Ok? ==>
              var (d, xml) := FromPayload(o.data, parse, now).value;
              && (UpsertError(d, save).Some? ==> r == Err("Erro ao salvar dados: " + QueryFailure(UpsertError(d, save).value)) && db.nfes == old(db.nfes))
              && (UpsertError(d, save).None? ==> r == Ok((d, xml)) && db.nfes == Upserted(old(db.nfes), d, xml, old(db.nextNfeId), db.clock)))
      ensures monitor.statusUrl != "nfeConsultaProtocolo" ==>
        db.statusRows == old(db.statusRows) && monitor.lastStatus == old(monitor.lastStatus)
      ensures monitor.intervalId == old(monitor.intervalId) && monitor.simulatedStatus == old(monitor.simulatedStatus)
        && monitor.timers == old(monitor.timers) && monitor.nextHandle == old(monitor.nextHandle)
    {
      var _, resultado := monitor.RequisitarSefaz("nfeConsultaProtocolo", ConsultaBody(chaveAcesso), "post", reply, statusWrite, elapsed, now);
      if resultado.Failure? {
        return Err(if resultado.error == "" then "Erro na consulta à API da SEFAZ" else resultado.error);
      }
      var extracted := FromPayload(resultado.data, parse, now);
      if extracted.Err? {
        return Err(extracted.error);
      }
      var (d, xml) := extracted.value;
      var saved := SalvarNfeNoBanco(d, xml, save, elapsed);
      if saved.Err? {
        return Err(saved.error);
      }
      r := Ok((d, xml));
    }

    /**
     * `consultarNfe(chaveAcesso)`: an invalid key fails before anything is read; a
     * cached row is returned as it is; otherwise the remote branch runs.
     */
    method ConsultarNfe(chaveAcesso: string, read: Store, reply: nat -> Reply, statusWrite: Store,
                        parse: Value -> Result<Value>, save: Store, elapsed: nat, now: int)
      returns (r: Consulta)
      requires Valid()
      modifies monitor, db
      ensures Valid()
      ensures !ValidarChaveAcesso(chaveAcesso) ==> r == Failed(InvalidKey, NoDetails)
      ensures ValidarChaveAcesso(chaveAcesso) && read.Down? ==> r == Failed("Erro na consulta ao banco: " + QueryFailure(read.message), NoDetails)
      ensures !ValidarChaveAcesso(chaveAcesso) || read.Down? || Str(chaveAcesso) in old(db.nfes) ==>
        db.nfes == old(db.nfes) && db.statusRows == old(db.statusRows) && monitor.lastStatus == old(monitor.lastStatus)
      ensures ValidarChaveAcesso(chaveAcesso) && read.Up? && Str(chaveAcesso) in old(db.nfes) ==>
        r == FromDatabase(Converter(old(db.nfes)[Str(chaveAcesso)]))
      ensures ValidarChaveAcesso(chaveAcesso) && read.Up? && Str(chaveAcesso) !in old(db.nfes) ==>
        var o := FinalOutcome(DefaultPolicy, reply); var f := RemoteResult(o, parse, save, now);
        && (f.Ok? ==> r == FromApi(f.value.0, f.value.1) && db.nfes == Upserted(old(db.nfes), f.value.0, f.value.1, old(db.nextNfeId), db.clock))
        && (f.Err? ==> r == FormatarRespostaErro(f.error, None) && db.nfes == old(db.nfes))
        && (o.Rejected? ==> r.Failed?)
        && (r.FromApi? ==> o.Resolved? && FromPayload(o.data, parse, now) == Ok((r.data, r.xml)))
      ensures r.Failed? ==> r.details == NoDetails && r.error != ""
      ensures r.FromDatabase? ==> ValidarChaveAcesso(chaveAcesso) && read.Up? && Str(chaveAcesso) in old(db.nfes)
    {
      if !ValidarChaveAcesso(chaveAcesso) {
        return FormatarRespostaErro(InvalidKey, None);
      }
      var existente := BuscarNfePorChave(chaveAcesso, read);
      if existente.Err? {
        return FormatarRespostaErro(existente.error, None);
      }
      if existente.value.Some? {
        return FromDatabase(Converter(existente.value.value));
      }
      var fetched := ConsultarNfeNaApi(chaveAcesso, reply, statusWrite, parse, save, elapsed, now);
      if fetched.Err? {
        return FormatarRespostaErro(fetched.error, None);
      }
      r := FromApi(fetched.value.0, fetched.value.1);
    }

    /** The fallback of `gerarArquivoXml`: the XML that a fresh `consultarNfe` carries, if any. */
    method XmlFromConsulta(chaveAcesso: string, consultRead: Store, reply: nat -> Reply, statusWrite: Store,
                           parse: Value -> Result<Value>, save: Store, elapsed: nat, now: int)
      returns (r: Result<Value>)
      requires Valid()
      modifies monitor, db
      ensures Valid()
      ensures r.Err? ==> StartsWith(r.error, "Falha ao gerar XML: ")
      ensures !ValidarChaveAcesso(chaveAcesso) ==> r == Err(ConsultFailed(InvalidKey))
      ensures ValidarChaveAcesso(chaveAcesso) && consultRead.Down? ==>
        r == Err(ConsultFailed("Erro na consulta ao banco: " + QueryFailure(consultRead.message))) && db.nfes == old(db.nfes)
      ensures ValidarChaveAcesso(chaveAcesso) && consultRead.Up? && Str(chaveAcesso) in old(db.nfes) ==>
        r == Ok(Undefined) && db.nfes == old(db.nfes)
      ensures ValidarChaveAcesso(chaveAcesso) && consultRead.Up? && Str(chaveAcesso) !in old(db.nfes) ==>
        var f := RemoteResult(FinalOutcome(DefaultPolicy, reply), parse, save, now);
        && (f.Ok? ==> r == Ok(f.value.1) && db.nfes == Upserted(old(db.nfes), f.value.0, f.value.1, old(db.nextNfeId), db.clock))
        && (f.Err? ==> r == Err(ConsultFailed(FormatarRespostaErro(f.error, None).error)) && db.nfes == old(db.nfes))
    {
      var resultado := ConsultarNfe(chaveAcesso, consultRead, reply, statusWrite, parse, save, elapsed, now);
      match resultado
      case Failed(error, _) =>
        StartsWithConcat("Falha ao gerar XML: ", "Não foi possível consultar a NFe: " + error);
        r := Err(ConsultFailed(error));
      case FromDatabase(_) =>
        r := Ok(Undefined);
      case FromApi(_, xml) =>
        r := Ok(xml);
    }

    /**
     * `gerarArquivoXml(chaveAcesso)`: the stored XML, else the XML of a fresh
     * `consultarNfe`. When the row exists without XML that lookup is a cache hit, which
     * carries no XML, so the export is `undefined`.
     */
    method GerarArquivoXml(chaveAcesso: string, read: Store, consultRead: Store, reply: nat -> Reply, statusWrite: Store,
                           parse: Value -> Result<Value>, save: Store, elapsed: nat, now: int)
      returns (r: Result<Value>)
      requires Valid()
      modifies monitor, db
      ensures Valid()
      ensures read.Down? ==> r == Err("Falha ao gerar XML: " + ("Erro na consulta ao banco: " + QueryFailure(read.message)))
      ensures read.Up? && Str(chaveAcesso) in old(db.nfes) && Truthy(old(db.nfes)[Str(chaveAcesso)].xmlConteudo) ==>
        r == Ok(old(db.nfes)[Str(chaveAcesso)].xmlConteudo) && db.nfes == old(db.nfes)
      ensures (&& read.Up? && Str(chaveAcesso) in old(db.nfes) && !Truthy(old(db.nfes)[Str(chaveAcesso)].xmlConteudo)
               && ValidarChaveAcesso(chaveAcesso) && consultRead.Up?) ==> r == Ok(Undefined) && db.nfes == old(db.nfes)
      ensures read.Up? && !ValidarChaveAcesso(chaveAcesso) && (Str(chaveAcesso) !in old(db.nfes) || !Truthy(old(db.nfes)[Str(chaveAcesso)].xmlConteudo)) ==>
        r == Err(ConsultFailed(InvalidKey))
      ensures read.Up? && ValidarChaveAcesso(chaveAcesso) && consultRead.Down? && (Str(chaveAcesso) !in old(db.nfes) || !Truthy(old(db.nfes)[Str(chaveAcesso)].xmlConteudo)) ==>
        r == Err(ConsultFailed("Erro na consulta ao banco: " + QueryFailure(consultRead.message))) && db.nfes == old(db.nfes)
      ensures read.Up? && ValidarChaveAcesso(chaveAcesso) && consultRead.Up? && Str(chaveAcesso) !in old(db.nfes) ==>
        var f := RemoteResult(FinalOutcome(DefaultPolicy, reply), parse, save, now);
        && (f.Ok? ==> r == Ok(f.value.1) && db.nfes == Upserted(old(db.nfes), f.value.0, f.value.1, old(db.nextNfeId), db.clock))
        && (f.Err? ==> r == Err(ConsultFailed(FormatarRespostaErro(f.error, None).error)) && db.nfes == old(db.nfes))
      ensures r.Err? ==> StartsWith(r.error, "Falha ao gerar XML: ")
    {
      var nfeData := BuscarNfePorChave(chaveAcesso, read);
      if nfeData.Err? {
        StartsWithConcat("Falha ao gerar XML: ", nfeData.error);
        return Err("Falha ao gerar XML: " + nfeData.error);
      }
      if nfeData.value.None? || !Truthy(nfeData.value.value.xmlConteudo) {
        r := XmlFromConsulta(chaveAcesso, consultRead, reply, statusWrite, parse, save, elapsed, now);
        return;
      }
      r := Ok(nfeData.value.value.xmlConteudo);
    }
  }
}
