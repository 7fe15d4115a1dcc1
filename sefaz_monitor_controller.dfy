/**
 * The HTTP face of the status monitor for history and rejected invoices: query
 * parameters parsed with `parseInt` and `||` fallbacks, the page options handed to the
 * service, and the response shapes, including the listing that answers 200 with an
 * empty page when the service throws.
 */
module MonitorController {
  import opened Wrappers
  import opened Js
  import opened Persistence
  import opened SefazMonitor

  /** `{ limit, offset }` as handed to the service. */
  datatype Pagination = Pagination(limit: int, offset: int)

  /** The body of a rejected-invoice listing, after `{ success: true, ... }`. */
  datatype Listing = Listing(data: seq<NfeSummary>, page: Number, limit: Number, total: nat, pages: Number, error: Option<string>)

  /** What a handler sends. */
  datatype Body =
    | RejectedList(listing: Listing)
    | History(rows: seq<StatusRow>)
    | ErrorBody(error: string, details: Value)

  /** A JSON response: its status, its `success` flag and the rest of its body. */
  datatype Answer = Answer(status: nat, success: bool, body: Body)

  /** `enviarRespostaSucesso(res, data)` */
  function EnviarRespostaSucesso(body: Body): (a: Answer)
    ensures a.status == 200 && a.success && a.body == body
  {
    Answer(200, true, body)
  }

  /** `enviarRespostaErro(res, mensagem, detalhes)` */
  function EnviarRespostaErro(mensagem: string, detalhes: string): (a: Answer)
    ensures a.status == 500 && !a.success && a.body == ErrorBody(mensagem, Str(detalhes))
  {
    Answer(500, false, ErrorBody(mensagem, Str(detalhes)))
  }

  /** `enviarRespostaStatusSeguro(res, data)`: the success shape, whatever the data says. */
  function EnviarRespostaStatusSeguro(body: Body): (a: Answer)
    ensures a == EnviarRespostaSucesso(body)
  {
    Answer(200, true, body)
  }

  /** `parseInt(v) || d`: a parsed number, or `d` when parsing gives NaN or 0. */
  function IntOr(n: Number, d: int): (v: int)
    requires !n.Infinity?
    ensures n.Finite? && n.v != 0 ==> v == n.v
    ensures n.NaN? || n == Finite(0) ==> v == d
  {
    if n.Finite? && n.v != 0 then n.v else d
  }

  /** `criarOpcoesPaginacao(page, limit)`, where `page` and `limit` are the query values after their defaults 1 and 10. */
  function CriarOpcoesPaginacao(page: Option<string>, limit: Option<string>): (o: Pagination)
    ensures var p := IntOr(ParseIntOr(page, 1), 1);
      && o.limit == IntOr(ParseIntOr(limit, 10), 10)
      && o.limit != 0
      && o.offset == (p - 1) * o.limit
      && (p >= 1 && o.limit > 0 ==> o.offset >= 0 && AddOne(FloorDiv(o.offset, o.limit)) == Finite(p))
    ensures page.None? && limit.None? ==> o == Pagination(10, 0)
  {
    var p := IntOr(ParseIntOr(page, 1), 1);
    var l := IntOr(ParseIntOr(limit, 10), 10);
    var o := Pagination(l, (p - 1) * l);
    if p >= 1 && l > 0 then PageOfOffset(p, l); o else o
  }

  /** The service's `floor(offset / limit) + 1` gives back the page an offset was made from. */
  lemma PageOfOffset(p: int, l: int)
    requires p >= 1 && l > 0
    ensures (p - 1) * l >= 0
    ensures AddOne(FloorDiv((p - 1) * l, l)) == Finite(p)
  {
    var q := p - 1;
    MulMono(0, q, l);
    DivOfMul(q, l);
  }

  /** With a positive limit and an offset that is not negative, the reported page and page count are at least 1. */
  lemma PageNumbers(offset: int, limit: int, total: nat)
    requires limit > 0 && offset >= 0
    ensures NumberOr(AddOne(FloorDiv(offset, limit)), 1) == Finite(offset / limit + 1) && offset / limit >= 0
    ensures var pages := NumberOr(CeilDiv(total, limit), 1);
      pages.Finite? && pages.v >= 1 && (total == 0 ==> pages == Finite(1))
  {
    CeilDivBounds(total, limit);
    FloorDivBounds(offset, limit);
  }

  /** A page and a limit written as decimals come back as they were written. */
  lemma DecimalPageOptions(p: nat, l: nat)
    requires p >= 1 && l >= 1
    ensures var o := CriarOpcoesPaginacao(Some(NatToString(p)), Some(NatToString(l)));
      o == Pagination(l, (p - 1) * l) && AddOne(FloorDiv(o.offset, o.limit)) == Finite(p)
  {
    ParseIntOfNatToString(p);
    ParseIntOfNatToString(l);
  }

  /** `validarLimite(limit)`: the parsed integer, or 20 when parsing fails. */
  function ValidarLimite(limit: Option<string>): (n: int)
    ensures limit.None? ==> n == 20
    ensures limit.Some? && ParseInt(limit.value).Some? ==> n == ParseInt(limit.value).value
    ensures limit.Some? && ParseInt(limit.value).None? ==> n == 20
  {
    var parsed := ParseIntOr(limit, 20);
    if parsed.NaN? then 20 else parsed.v
  }

  /** The listing a thrown service error is answered with; `limit` is `parseInt(req.query.limit || 10)`. */
  function SafeListing(rawLimit: Option<string>): (l: Listing)
    ensures l.data == [] && l.page == Finite(1) && l.total == 0 && l.pages == Finite(1) && l.error.Some?
    ensures rawLimit.None? || rawLimit == Some("") ==> l.limit == Finite(10)
  {
    var limit := if rawLimit.Some? && rawLimit.value != "" then ParseIntNumber(rawLimit.value) else Finite(10);
    Listing([], Finite(1), limit, 0, Finite(1), Some("Erro ao carregar dados. Por favor, tente novamente."))
  }

  /** The body the session-history endpoint sends for `limit` (default 20). */
  method ObterHistoricoStatus(m: Monitor, limit: Option<string>, read: Store) returns (a: Answer)
    requires m.Valid()
    ensures var n := ValidarLimite(limit); var rows := m.db.statusRows;
      && (read.Up? && n >= 0 ==> (
            && a.status == 200 && a.success && a.body.History?
            && |a.body.rows| == Min(n, |rows|)
            && forall i :: 0 <= i < |a.body.rows| ==> a.body.rows[i] == rows[|rows| - 1 - i]))
      && (read.Down? ==> a == EnviarRespostaErro("Erro ao obter o histórico de status", read.message))
      && (read.Up? && n < 0 ==> a == EnviarRespostaErro("Erro ao obter o histórico de status", BadLimitArguments))
  {
    var n := ValidarLimite(limit);
    var historico := m.ObterHistoricoStatus(n, read);
    if historico.Err? {
      return EnviarRespostaErro("Erro ao obter o histórico de status", historico.error);
    }
    a := EnviarRespostaSucesso(History(historico.value));
  }

  /**
   * `listarNfesRejeitadas(req, res)` for query values `page` and `limit`: always a 200
   * with `success: true`; `page` and `pages` never fall below 1.
   */
  method ListarNfesRejeitadas(m: Monitor, page: Option<string>, limit: Option<string>, read: Store, count: Store)
    returns (a: Answer, ghost selected: seq<NfeRow>)
    requires m.Valid()
    ensures a.status == 200 && a.success && a.body.RejectedList?
    ensures var l := a.body.listing;
      && l.page.Finite? && l.page.v >= 1
      && l.pages.Finite? && l.pages.v >= 1
    ensures var o := CriarOpcoesPaginacao(page, limit); var l := a.body.listing;
      && (l.error.None? <==> read.Up? && count.Up? && o.limit > 0 && o.offset >= 0)
      && (l.error.Some? ==> l == SafeListing(limit))
      && (l.error.None? ==> PageOfRejected(l, o, m.db.nfes, selected))
    ensures var p := IntOr(ParseIntOr(page, 1), 1); var l := a.body.listing;
      l.error.None? && p >= 1 ==> l.page == Finite(p)
  {
    var options := CriarOpcoesPaginacao(page, limit);
    a, selected := ListarPaginaRejeitadas(m, options, limit, read, count);
  }

  /** The answer for page options `o` already built from the query; `rawLimit` is the query's `limit`. */
  method ListarPaginaRejeitadas(m: Monitor, o: Pagination, rawLimit: Option<string>, read: Store, count: Store)
    returns (a: Answer, ghost selected: seq<NfeRow>)
    requires m.Valid() && o.limit != 0
    ensures a.status == 200 && a.success && a.body.RejectedList?
    ensures var l := a.body.listing;
      && l.page.Finite? && l.page.v >= 1
      && l.pages.Finite? && l.pages.v >= 1
      && (l.error.None? <==> read.Up? && count.Up? && o.limit > 0 && o.offset >= 0)
      && (l.error.Some? ==> l == SafeListing(rawLimit))
      && (l.error.None? ==> PageOfRejected(l, o, m.db.nfes, selected))
  {
    var resultado;
    resultado, selected := m.ObterNfesRejeitadas(o.limit, o.offset, read, count);
    if resultado.Err? {
      a := EnviarRespostaStatusSeguro(RejectedList(SafeListing(rawLimit)));
      return;
    }
    RejectedListingOfPage(o, resultado.value, m.db.nfes, selected);
    a := EnviarRespostaSucesso(RejectedList(RejectedListing(o, resultado.value)));
  }

  /**
   * `l` is the listing of page `o` of the rejected rows of `t`: `selected` is those rows
   * newest first, `l.data` the window the offset and limit cut from them, `l.total` their
   * number, and the page numbers those `Math.floor(offset / limit) + 1` and
   * `Math.ceil(total / limit)` give, or 1.
   */
  predicate PageOfRejected(l: Listing, o: Pagination, t: map<Value, NfeRow>, selected: seq<NfeRow>) {
    && o.limit > 0 && o.offset >= 0
    && l.limit == Finite(o.limit)
    && l.pages == NumberOr(CeilDiv(l.total, o.limit), 1)
    && (l.total == 0 ==> l.pages == Finite(1))
    && l.page == Finite(o.offset / o.limit + 1)
    && NewestFirstOf(t, true, selected)
    && l.data == Summaries(Window(selected, o.offset, o.limit))
    && l.total == |selected|
  }

  /** A page the service built from the selected rows, sent as a listing, is that page of the rejected rows. */
  lemma RejectedListingOfPage(o: Pagination, r: RejectedPage, t: map<Value, NfeRow>, selected: seq<NfeRow>)
    requires o.limit > 0 && o.offset >= 0
    requires r.pagina == AddOne(FloorDiv(o.offset, o.limit)) && r.totalPaginas == CeilDiv(r.total, o.limit)
    requires NewestFirstOf(t, true, selected)
    requires r.dados == Summaries(Window(selected, o.offset, o.limit)) && r.total == |selected|
    ensures PageOfRejected(RejectedListing(o, r), o, t, selected)
  {
  }

  /**
   * The listing sent for a page the service produced: `pagina || 1` and `totalPaginas || 1`;
   * at a positive limit these are the page the offset lies on and at least one page.
   */
  function RejectedListing(o: Pagination, r: RejectedPage): (l: Listing)
    requires o.limit > 0 && o.offset >= 0
    requires r.pagina == AddOne(FloorDiv(o.offset, o.limit)) && r.totalPaginas == CeilDiv(r.total, o.limit)
    ensures l.data == r.dados && l.limit == Finite(o.limit) && l.total == r.total && l.error.None?
    ensures l.page == Finite(o.offset / o.limit + 1) && l.page.v >= 1
    ensures l.pages == NumberOr(CeilDiv(r.total, o.limit), 1) && l.pages.Finite? && l.pages.v >= 1
    ensures r.total == 0 ==> l.pages == Finite(1)
  {
    PageNumbers(o.offset, o.limit, r.total);
    Listing(r.dados, NumberOr(r.pagina, 1), Finite(o.limit), r.total, NumberOr(r.totalPaginas, 1), None)
  }
}
