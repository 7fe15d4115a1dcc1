/**
 * The two tables of the MySQL store (`sefaz_status` and `nfes`), held as a status log
 * and a map keyed by the unique `chave` column, with the store's own clock for
 * `DEFAULT CURRENT_TIMESTAMP` and its AUTO_INCREMENT counters. Every statement is
 * given a `Store` outcome: the store answers or it raises an error.
 */
module Persistence {
  import opened Wrappers
  import opened Js

  /** The outcome of one statement: the store answers, or it raises `message`. */
  datatype Store = Up | Down(message: string)

  /**
   * A `sefaz_status.detalhes` cell. The text is a serialization; the model keeps the
   * value it was serialized from.
   */
  datatype Detail =
    | ProbeData(payload: Value)                          // JSON.stringify(data) of an object payload
    | ProbeText(payload: Value)                          // String(data || '') of any other payload
    | ProbeFailure(text: string)                         // `Erro ao verificar: <message>`
    | Change(simulado: bool, mensagem: string, at: int)  // JSON.stringify({ simulado, mensagem, timestamp })

  /** A `sefaz_status` row; `online` is the value bound to the column. */
  datatype StatusRow = StatusRow(id: nat, online: Value, timestamp: int, detalhes: Detail)

  /** `new Date(source)`, or `new Date()` read at `at`. */
  datatype DateValue = DateOf(source: Value) | CurrentDate(at: int)

  /** A total as bound to `valor_total`: the payload value itself, or `parseFloat` of it. */
  datatype Amount = AmountOf(raw: Value) | FloatOf(source: Value)

  /** An `nfes` row, column by column. */
  datatype NfeRow = NfeRow(
    id: nat,
    chave: Value,
    numero: Value,
    serie: Value,
    dataEmissao: DateValue,
    valorTotal: Amount,
    emitenteCnpj: Value,
    emitenteNome: Value,
    destinatarioCnpj: Value,
    destinatarioNome: Value,
    status: Value,
    motivoRejeicao: Value,
    codigoRejeicao: Value,
    dataRejeicao: Value,
    xmlConteudo: Value,
    dataConsulta: int)

  /** An `nfes` row without `xml_conteudo`. */
  datatype NfeSummary = NfeSummary(
    id: nat,
    chave: Value,
    numero: Value,
    serie: Value,
    dataEmissao: DateValue,
    valorTotal: Amount,
    emitenteCnpj: Value,
    emitenteNome: Value,
    destinatarioCnpj: Value,
    destinatarioNome: Value,
    status: Value,
    motivoRejeicao: Value,
    codigoRejeicao: Value,
    dataRejeicao: Value,
    dataConsulta: int)

  function Summary(r: NfeRow): NfeSummary {
    NfeSummary(r.id, r.chave, r.numero, r.serie, r.dataEmissao, r.valorTotal, r.emitenteCnpj,
      r.emitenteNome, r.destinatarioCnpj, r.destinatarioNome, r.status, r.motivoRejeicao,
      r.codigoRejeicao, r.dataRejeicao, r.dataConsulta)
  }

  function Summaries(rows: seq<NfeRow>): (r: seq<NfeSummary>)
    ensures |r| == |rows| && forall i :: 0 <= i < |rows| ==> r[i] == Summary(rows[i])
  {
    if rows == [] then [] else [Summary(rows[0])] + Summaries(rows[1..])
  }

  /** Putting `xml` back into a summary. */
  function WithXml(s: NfeSummary, xml: Value): NfeRow {
    NfeRow(s.id, s.chave, s.numero, s.serie, s.dataEmissao, s.valorTotal, s.emitenteCnpj,
      s.emitenteNome, s.destinatarioCnpj, s.destinatarioNome, s.status, s.motivoRejeicao,
      s.codigoRejeicao, s.dataRejeicao, xml, s.dataConsulta)
  }

  /** Dropping `xml_conteudo` loses that column and nothing else. */
  lemma SummaryKeepsAllButXml(r: NfeRow)
    ensures WithXml(Summary(r), r.xmlConteudo) == r
    ensures forall x :: WithXml(Summary(r), x).xmlConteudo == x
  {
  }

  /** mysql2's refusal of an undefined parameter. */
  const UndefinedBind := "Bind parameters must not contain undefined. To pass SQL NULL specify JS null"

  /** MySQL's refusal of null in a NOT NULL column. */
  function NullRefused(column: string): string {
    "Column '" + column + "' cannot be null"
  }

  /** mysql2 refuses to bind undefined, and a NOT NULL column refuses null. */
  function BindError(v: Value, column: string): Option<string> {
    if v.Undefined? then Some(UndefinedBind)
    else if v.Null? then Some(NullRefused(column))
    else None
  }

  /** The error an `INSERT` of `online` into `sefaz_status` raises, if any. */
  function InsertError(online: Value, store: Store): Option<string> {
    if store.Down? then Some(store.message) else BindError(online, "online")
  }

  /** The message `executeQuery` rethrows a failed statement's `message` with. */
  function QueryFailure(message: string): string {
    "Falha na consulta SQL: " + message
  }

  /** MySQL refuses a negative LIMIT or OFFSET bound to a prepared statement. */
  const BadLimitArguments := "Incorrect arguments to mysqld_stmt_execute"

  /** The ten values `salvarNfeNoBanco` binds ahead of `xml_conteudo`, as the service builds them. */
  datatype NfeData = NfeData(
    chave: Value,
    numero: Value,
    serie: Value,
    dataEmissao: DateValue,
    valorTotal: Amount,
    emitenteCnpj: Value,
    emitenteNome: Value,
    destinatarioCnpj: Value,
    destinatarioNome: Value,
    status: Value)

  /** None of the eight NOT NULL text values the upsert binds is null or undefined. */
  predicate BindsNoNullish(d: NfeData) {
    && !Nullish(d.chave) && !Nullish(d.numero) && !Nullish(d.serie) && !Nullish(d.emitenteCnpj)
    && !Nullish(d.emitenteNome) && !Nullish(d.destinatarioCnpj) && !Nullish(d.destinatarioNome) && !Nullish(d.status)
  }

  predicate BindsUndefined(d: NfeData) {
    || d.chave.Undefined? || d.numero.Undefined? || d.serie.Undefined? || d.emitenteCnpj.Undefined?
    || d.emitenteNome.Undefined? || d.destinatarioCnpj.Undefined? || d.destinatarioNome.Undefined? || d.status.Undefined?
  }

  /** The first NOT NULL column, in statement order, bound to null. */
  function NullColumn(d: NfeData): Option<string> {
    if d.chave.Null? then Some(NullRefused("chave"))
    else if d.numero.Null? then Some(NullRefused("numero"))
    else if d.serie.Null? then Some(NullRefused("serie"))
    else if d.emitenteCnpj.Null? then Some(NullRefused("emitente_cnpj"))
    else if d.emitenteNome.Null? then Some(NullRefused("emitente_nome"))
    else if d.destinatarioCnpj.Null? then Some(NullRefused("destinatario_cnpj"))
    else if d.destinatarioNome.Null? then Some(NullRefused("destinatario_nome"))
    else if d.status.Null? then Some(NullRefused("status"))
    else None
  }

  /**
   * The error the upsert raises, if any: the store's own, then mysql2 refusing an
   * undefined parameter, then MySQL refusing null in a NOT NULL column.
   */
  function UpsertError(d: NfeData, store: Store): (e: Option<string>)
    ensures e.None? <==> store.Up? && BindsNoNullish(d)
    ensures store.Up? && BindsUndefined(d) ==> e == Some(UndefinedBind)
    ensures store.Up? && !BindsUndefined(d) && d.chave.Null? ==> e == Some(NullRefused("chave"))
  {
    if store.Down? then Some(store.message)
    else if BindsUndefined(d) then Some(UndefinedBind)
    else NullColumn(d)
  }

  /**
   * The table after `INSERT ... ON DUPLICATE KEY UPDATE` keyed by `d.chave`, with
   * `xml_conteudo` bound to `xmlContent || null`, at store time `at`; a new row gets id `id`.
   */
  function Upserted(t: map<Value, NfeRow>, d: NfeData, xmlContent: Value, id: nat, at: int): map<Value, NfeRow> {
    var xml := Or(xmlContent, Null);
    if d.chave in t then
      var old_ := t[d.chave];
      t[d.chave := NfeRow(old_.id, d.chave, d.numero, d.serie, d.dataEmissao, d.valorTotal, d.emitenteCnpj,
        d.emitenteNome, d.destinatarioCnpj, d.destinatarioNome, d.status, old_.motivoRejeicao,
        old_.codigoRejeicao, old_.dataRejeicao, xml, at)]
    else
      t[d.chave := NfeRow(id, d.chave, d.numero, d.serie, d.dataEmissao, d.valorTotal, d.emitenteCnpj,
        d.emitenteNome, d.destinatarioCnpj, d.destinatarioNome, d.status, Null, Null, Null, xml, at)]
  }

  /**
   * The upsert touches the row under the payload's key only: an existing row keeps its
   * id and its rejection columns, every bound column is replaced, `data_consulta` is
   * refreshed, and empty XML is stored as null.
   */
  lemma UpsertedSpec(t: map<Value, NfeRow>, d: NfeData, xmlContent: Value, id: nat, at: int)
    ensures var u := Upserted(t, d, xmlContent, id, at);
      && u.Keys == t.Keys + {d.chave}
      && (forall k :: k in t && k != d.chave ==> u[k] == t[k])
      && var r := u[d.chave];
      && r.chave == d.chave && r.numero == d.numero && r.serie == d.serie && r.dataEmissao == d.dataEmissao
      && r.valorTotal == d.valorTotal && r.emitenteCnpj == d.emitenteCnpj && r.emitenteNome == d.emitenteNome
      && r.destinatarioCnpj == d.destinatarioCnpj && r.destinatarioNome == d.destinatarioNome && r.status == d.status
      && r.dataConsulta == at
      && (Truthy(xmlContent) ==> r.xmlConteudo == xmlContent)
      && (!Truthy(xmlContent) ==> r.xmlConteudo == Null)
      && (d.chave in t ==>
            && r.id == t[d.chave].id
            && r.motivoRejeicao == t[d.chave].motivoRejeicao
            && r.codigoRejeicao == t[d.chave].codigoRejeicao
            && r.dataRejeicao == t[d.chave].dataRejeicao)
      && (d.chave !in t ==> r.id == id && r.motivoRejeicao == Null && r.codigoRejeicao == Null && r.dataRejeicao == Null)
  {
  }

  /** Upserting the same data twice leaves the table as one upsert does, at the later time. */
  lemma UpsertedTwice(t: map<Value, NfeRow>, d: NfeData, xmlContent: Value, id: nat, id2: nat, at: int, at2: int)
    ensures Upserted(Upserted(t, d, xmlContent, id, at), d, xmlContent, id2, at2) == Upserted(t, d, xmlContent, id, at2)
  {
  }

  /** Ids and timestamps grow along the log; nothing is newer than the store clock. */
  predicate StatusLogValid(rows: seq<StatusRow>, nextId: nat, clock: int) {
    && (forall i, j :: 0 <= i < j < |rows| ==> rows[i].id < rows[j].id && rows[i].timestamp <= rows[j].timestamp)
    && (forall i :: 0 <= i < |rows| ==> rows[i].id < nextId && rows[i].timestamp <= clock)
  }

  /** Each row sits under its own `chave`; ids are unique and below the counter. */
  predicate NfeTableValid(t: map<Value, NfeRow>, nextId: nat, clock: int) {
    && (forall k :: k in t ==> t[k].chave == k && t[k].id < nextId && t[k].dataConsulta <= clock)
    && (forall k1, k2 :: k1 in t && k2 in t && k1 != k2 ==> t[k1].id != t[k2].id)
  }

  class Database {
    var statusRows: seq<StatusRow>
    var nfes: map<Value, NfeRow>
    var clock: int
    var nextStatusId: nat
    var nextNfeId: nat

    ghost predicate Valid()
      reads this
    {
      StatusLogValid(statusRows, nextStatusId, clock) && NfeTableValid(nfes, nextNfeId, clock)
    }

    constructor (start: int)
      ensures Valid()
      ensures statusRows == [] && nfes == map[] && clock == start
    {
      statusRows := [];
      nfes := map[];
      clock := start;
      nextStatusId := 1;
      nextNfeId := 1;
    }

    /**
     * `INSERT INTO sefaz_status (online, detalhes) VALUES (?, ?)` after `elapsed` time
     * units of the store clock.
     */
    method InsertStatus(online: Value, detalhes: Detail, store: Store, elapsed: nat) returns (r: Result<StatusRow>)
      requires Valid()
      modifies this
      ensures Valid()
      ensures r.Ok? <==> InsertError(online, store).None?
      ensures r.Err? ==> r.error == InsertError(online, store).value
      ensures r.Ok? ==> r.value.online == online && r.value.detalhes == detalhes && statusRows == old(statusRows) + [r.value]
      ensures r.Err? ==> statusRows == old(statusRows)
      ensures nfes == old(nfes) && nextNfeId == old(nextNfeId)
    {
      if store.Down? {
        return Err(store.message);
      }
      var refused := BindError(online, "online");
      if refused.Some? {
        return Err(refused.value);
      }
      clock := clock + elapsed;
      var row := StatusRow(nextStatusId, online, clock, detalhes);
      statusRows := statusRows + [row];
      nextStatusId := nextStatusId + 1;
      r := Ok(row);
    }

    /**
     * `salvarNfeNoBanco`'s statement after `elapsed` time units of the store clock; a
     * failure leaves the table as it was.
     */
    method UpsertNfe(d: NfeData, xmlContent: Value, store: Store, elapsed: nat) returns (r: Result<()>)
      requires Valid()
      modifies this
      ensures Valid()
      ensures r.Ok? <==> UpsertError(d, store).None?
      ensures r.Err? ==> r.error == UpsertError(d, store).value && nfes == old(nfes)
      ensures r.Ok? ==> clock == old(clock) + elapsed && nfes == Upserted(old(nfes), d, xmlContent, old(nextNfeId), clock)
      ensures statusRows == old(statusRows)
    {
      var refused := UpsertError(d, store);
      if refused.Some? {
        return Err(refused.value);
      }
      clock := clock + elapsed;
      UpsertedSpec(nfes, d, xmlContent, nextNfeId, clock);
      nfes := Upserted(nfes, d, xmlContent, nextNfeId, clock);
      nextNfeId := nextNfeId + 1;
      r := Ok(());
    }

    /**
     * The rows an `ORDER BY data_consulta DESC` query sees, restricted to
     * `status = 'REJEITADA'` when `onlyRejected`; rows with equal `data_consulta`
     * come in no particular order.
     */
    method SelectNewestFirst(onlyRejected: bool) returns (rows: seq<NfeRow>)
      requires Valid()
      ensures ConsultaDesc(rows)
      ensures forall i :: 0 <= i < |rows| ==> rows[i].chave in nfes && nfes[rows[i].chave] == rows[i] && Selected(rows[i], onlyRejected)
      ensures forall k :: k in nfes && Selected(nfes[k], onlyRejected) ==> nfes[k] in rows
      ensures forall i, j :: 0 <= i < j < |rows| ==> rows[i].chave != rows[j].chave
      ensures |rows| == |SelectedKeys(nfes, onlyRejected)|
    {
      var keys := nfes.Keys;
      rows := [];
      while keys != {}
        invariant keys <= nfes.Keys
        invariant Gathered(nfes, onlyRejected, keys, rows)
        decreases keys
      {
        var k :| k in keys;
        if Selected(nfes[k], onlyRejected) {
          GatherSelected(nfes, onlyRejected, keys, rows, k);
          rows := InsertByConsulta(rows, nfes[k]);
        } else {
          GatherSkipped(nfes, onlyRejected, keys, rows, k);
        }
        keys := keys - {k};
      }
    }
  }

  /**
   * `rows` is the newest-first list of the selected rows of `t` whose keys are no longer
   * in `pending`.
   */
  ghost predicate Gathered(t: map<Value, NfeRow>, onlyRejected: bool, pending: set<Value>, rows: seq<NfeRow>) {
    && ConsultaDesc(rows)
    && (forall i :: 0 <= i < |rows| ==> rows[i].chave in t && rows[i].chave !in pending && t[rows[i].chave] == rows[i] && Selected(rows[i], onlyRejected))
    && (forall k :: k in t && k !in pending && Selected(t[k], onlyRejected) ==> t[k] in rows)
    && (forall i, j :: 0 <= i < j < |rows| ==> rows[i].chave != rows[j].chave)
    && |rows| == |SelectedKeys(t, onlyRejected) - pending|
  }

  lemma GatherSelected(t: map<Value, NfeRow>, onlyRejected: bool, pending: set<Value>, rows: seq<NfeRow>, k: Value)
    requires forall x :: x in t ==> t[x].chave == x
    requires pending <= t.Keys && k in pending && Selected(t[k], onlyRejected)
    requires Gathered(t, onlyRejected, pending, rows)
    ensures Gathered(t, onlyRejected, pending - {k}, InsertByConsulta(rows, t[k]))
  {
    var r := t[k];
    var u := InsertByConsulta(rows, r);
    var rest := pending - {k};
    var before := SelectedKeys(t, onlyRejected) - pending;
    InsertByConsultaSpec(rows, r);
    InsertKeepsKeysDistinct(rows, r);
    forall i | 0 <= i < |u|
      ensures u[i].chave in t && u[i].chave !in rest && t[u[i].chave] == u[i] && Selected(u[i], onlyRejected)
    {
      assert u[i] in rows || u[i] == r;
    }
    assert k !in before;
    assert SelectedKeys(t, onlyRejected) - rest == before + {k};
  }

  lemma GatherSkipped(t: map<Value, NfeRow>, onlyRejected: bool, pending: set<Value>, rows: seq<NfeRow>, k: Value)
    requires pending <= t.Keys && k in pending && !Selected(t[k], onlyRejected)
    requires Gathered(t, onlyRejected, pending, rows)
    ensures Gathered(t, onlyRejected, pending - {k}, rows)
  {
    assert SelectedKeys(t, onlyRejected) - (pending - {k}) == SelectedKeys(t, onlyRejected) - pending;
  }

  lemma InsertKeepsKeysDistinct(rows: seq<NfeRow>, r: NfeRow)
    requires forall i, j :: 0 <= i < j < |rows| ==> rows[i].chave != rows[j].chave
    requires forall i :: 0 <= i < |rows| ==> rows[i].chave != r.chave
    ensures var u := InsertByConsulta(rows, r);
      forall i, j :: 0 <= i < j < |u| ==> u[i].chave != u[j].chave
  {
    var p := InsertPosition(rows, r.dataConsulta);
    var u := InsertByConsulta(rows, r);
    assert forall i :: 0 <= i < p ==> u[i] == rows[i];
    assert u[p] == r;
    assert forall i :: p < i < |u| ==> u[i] == rows[i - 1];
  }

  predicate Selected(r: NfeRow, onlyRejected: bool) {
    !onlyRejected || StrictEquals(r.status, Str("REJEITADA"))
  }

  function SelectedKeys(t: map<Value, NfeRow>, onlyRejected: bool): set<Value> {
    set k | k in t && Selected(t[k], onlyRejected)
  }

  predicate ConsultaDesc(s: seq<NfeRow>) {
    forall i, j :: 0 <= i < j < |s| ==> s[i].dataConsulta >= s[j].dataConsulta
  }

  /**
   * `rows` is what `SELECT ... ORDER BY data_consulta DESC` returns from `t`: every
   * selected row exactly once, newest query first, rows with equal `data_consulta` in
   * some order.
   */
  predicate NewestFirstOf(t: map<Value, NfeRow>, onlyRejected: bool, rows: seq<NfeRow>) {
    && ConsultaDesc(rows)
    && (forall i :: 0 <= i < |rows| ==> rows[i].chave in t && t[rows[i].chave] == rows[i] && Selected(rows[i], onlyRejected))
    && (forall k :: k in t && Selected(t[k], onlyRejected) ==> t[k] in rows)
    && (forall i, j :: 0 <= i < j < |rows| ==> rows[i].chave != rows[j].chave)
    && |rows| == |SelectedKeys(t, onlyRejected)|
  }

  /** Where a row queried at `t` goes in a newest-first list: after every strictly newer row. */
  function InsertPosition(s: seq<NfeRow>, t: int): (p: nat)
    ensures p <= |s|
    ensures forall i :: 0 <= i < p ==> s[i].dataConsulta > t
    ensures p < |s| ==> s[p].dataConsulta <= t
  {
    if s == [] || s[0].dataConsulta <= t then 0 else 1 + InsertPosition(s[1..], t)
  }

  function InsertByConsulta(s: seq<NfeRow>, r: NfeRow): seq<NfeRow> {
    var p := InsertPosition(s, r.dataConsulta);
    s[..p] + [r] + s[p..]
  }

  lemma InsertByConsultaSpec(s: seq<NfeRow>, r: NfeRow)
    requires ConsultaDesc(s)
    ensures ConsultaDesc(InsertByConsulta(s, r))
    ensures |InsertByConsulta(s, r)| == |s| + 1
    ensures forall x :: x in InsertByConsulta(s, r) <==> x in s || x == r
  {
    var p := InsertPosition(s, r.dataConsulta);
    var u := InsertByConsulta(s, r);
    assert forall i :: 0 <= i < p ==> u[i] == s[i];
    assert u[p] == r;
    assert forall i :: p < i < |u| ==> u[i] == s[i - 1];
    assert forall i :: p <= i < |s| ==> s[i].dataConsulta <= r.dataConsulta;
  }
}
