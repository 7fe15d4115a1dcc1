/**
 * The browser page's own logic: the sanitiser of the access-key input and the key
 * check of the query form, the display formats of access keys and CNPJs, the status
 * badge mapping, and the page's status history of at most twenty entries, which a
 * failed status check falls back on.
 */
module ClientApp {
  import opened Wrappers
  import opened Js

  /** The page keeps at most this many status entries. */
  const HistoryCap := 20

  /** The first `n` elements of `s`, or all of it: `s.slice(0, n)`. */
  function Take<T>(s: seq<T>, n: nat): (t: seq<T>)
    ensures |t| == (if |s| <= n then |s| else n)
    ensures t == s[..|t|]
  {
    if |s| <= n then s else s[..n]
  }

  // ---------------------------------------------------------------- the key input

  /** `s.replace(/\D/g, '')`: the ASCII digits of `s`, in order. */
  function KeepDigits(s: string): (d: string)
    ensures |d| <= |s|
    ensures forall i :: 0 <= i < |d| ==> IsDigit(d[i])
  {
    if s == [] then []
    else if IsDigit(s[0]) then [s[0]] + KeepDigits(s[1..])
    else KeepDigits(s[1..])
  }

  /** Dropping non-digits works piece by piece, so the digits keep their order. */
  lemma {:induction false} KeepDigitsAppend(a: string, b: string)
    ensures KeepDigits(a + b) == KeepDigits(a) + KeepDigits(b)
  {
    if a == [] {
      assert a + b == b;
    } else {
      assert a + b == [a[0]] + (a[1..] + b);
      KeepDigitsAppend(a[1..], b);
    }
  }

  /** A string of digits loses nothing. */
  lemma {:induction false} KeepDigitsOfDigits(s: string)
    requires forall i :: 0 <= i < |s| ==> IsDigit(s[i])
    ensures KeepDigits(s) == s
  {
    if s != [] {
      KeepDigitsOfDigits(s[1..]);
    }
  }

  /** The input handler: `value.replace(/\D/g, '').substring(0, 44)`. */
  function Sanitize(value: string): (r: string)
    ensures |r| <= 44
    ensures forall i :: 0 <= i < |r| ==> IsDigit(r[i])
    ensures |r| <= |KeepDigits(value)| && r == KeepDigits(value)[..|r|]
    ensures |r| == 44 || r == KeepDigits(value)
  {
    Take(KeepDigits(value), 44)
  }

  /** Sanitising a sanitised input changes nothing. */
  lemma SanitizeIdempotent(value: string)
    ensures Sanitize(Sanitize(value)) == Sanitize(value)
  {
    KeepDigitsOfDigits(Sanitize(value));
  }

  /** The query form's check: `/^\d{44}$/.test(value.trim())`. */
  function KeyAccepted(value: string): bool {
    Matches44Digits(Trim(value))
  }

  /** A sanitised input passes the form's check exactly when the typed text held at least 44 digits. */
  lemma SanitizedKeyAccepted(value: string)
    ensures KeyAccepted(Sanitize(value)) <==> |KeepDigits(value)| >= 44
  {
    var r := Sanitize(value);
    TrimKeepsClean(r);
  }

  // ---------------------------------------------------------------- access-key display

  /** `s.substring(from)` for a start that may be negative. */
  function SuffixFrom(s: string, from: int): string {
    if from <= 0 then s else if from >= |s| then [] else s[from..]
  }

  /** `chave.substring(0, 11) + '...' + chave.substring(chave.length - 11)` */
  function Abbreviated(chave: string): string {
    (if |chave| <= 11 then chave else chave[..11]) + "..." + SuffixFrom(chave, |chave| - 11)
  }

  /**
   * `s.replace(/(.{4})/g, '$1 ')`: from left to right, every run of four characters
   * none of which ends a line gets a space after it; characters where no such run
   * starts are copied.
   */
  function Group4(s: string): string {
    if |s| >= 4 && !IsLineTerminator(s[0]) && !IsLineTerminator(s[1]) && !IsLineTerminator(s[2]) && !IsLineTerminator(s[3]) then
      s[..4] + " " + Group4(s[4..])
    else if s == [] then []
    else [s[0]] + Group4(s[1..])
  }

  /** `formatarChaveNfe(chave, resumida)` */
  function FormatarChaveNfe(chave: string, resumida: bool): string {
    if resumida then Abbreviated(chave) else Trim(Group4(chave))
  }

  /** The intended grouping: blocks of four characters with one space between blocks. */
  function Spaced(s: string): string {
    if |s| <= 4 then s else s[..4] + " " + Spaced(s[4..])
  }

  /** `s` without its ' ' characters. */
  function Unspace(s: string): string {
    if s == [] then []
    else if s[0] == ' ' then Unspace(s[1..])
    else [s[0]] + Unspace(s[1..])
  }

  predicate NoWhiteSpace(s: string) {
    forall i :: 0 <= i < |s| ==> !IsWhiteSpace(s[i])
  }

  lemma {:induction false} Group4Short(s: string)
    requires |s| < 4
    ensures Group4(s) == s
    decreases |s|
  {
    if s != [] {
      Group4Short(s[1..]);
    }
  }

  /** On text without white space the regular expression leaves one trailing space exactly when the length is a positive multiple of four. */
  lemma {:induction false} Group4IsSpaced(s: string)
    requires NoWhiteSpace(s)
    ensures Group4(s) == Spaced(s) + (if |s| > 0 && |s| % 4 == 0 then " " else "")
    decreases |s|
  {
    if |s| < 4 {
      Group4Short(s);
    } else if |s| == 4 {
      assert Group4(s[4..]) == [];
    } else {
      Group4IsSpaced(s[4..]);
    }
  }

  lemma {:induction false} SpacedEnds(s: string)
    requires s != []
    ensures Spaced(s) != [] && Spaced(s)[0] == s[0] && Spaced(s)[|Spaced(s)| - 1] == s[|s| - 1]
    decreases |s|
  {
    if |s| > 4 {
      SpacedEnds(s[4..]);
    }
  }

  /** The full format of a key without white space is the key in blocks of four, separated by single spaces. */
  lemma FullFormatIsSpaced(chave: string)
    requires NoWhiteSpace(chave)
    ensures FormatarChaveNfe(chave, false) == Spaced(chave)
  {
    Group4IsSpaced(chave);
    if chave != [] {
      SpacedEnds(chave);
      var x := Spaced(chave);
      var g := Group4(chave);
      assert TrimStart(g) == g;
      if |chave| % 4 == 0 {
        assert g[..|g| - 1] == x;
        assert TrimEnd(g) == TrimEnd(x);
      }
      assert TrimEnd(x) == x;
    }
  }

  lemma {:induction false} UnspaceAppend(a: string, b: string)
    ensures Unspace(a + b) == Unspace(a) + Unspace(b)
  {
    if a == [] {
      assert a + b == b;
    } else {
      assert a + b == [a[0]] + (a[1..] + b);
      UnspaceAppend(a[1..], b);
    }
  }

  /** Text without white space has no ' ' to remove. */
  lemma {:induction false} UnspaceOfNoWhiteSpace(s: string)
    requires NoWhiteSpace(s)
    ensures Unspace(s) == s
  {
    if s != [] {
      assert !IsWhiteSpace(s[0]);
      assert NoWhiteSpace(s[1..]) by {
        forall i | 0 <= i < |s[1..]|
          ensures !IsWhiteSpace(s[1..][i])
        {
          assert s[1..][i] == s[i + 1];
        }
      }
      UnspaceOfNoWhiteSpace(s[1..]);
    }
  }

  /** Removing the spaces from the grouped text gives the text back. */
  lemma {:induction false} SpacedRoundTrip(s: string)
    requires NoWhiteSpace(s)
    ensures Unspace(Spaced(s)) == s
    ensures |Spaced(s)| == (if s == [] then 0 else |s| + (|s| - 1) / 4)
    decreases |s|
  {
    if |s| <= 4 {
      UnspaceOfNoWhiteSpace(s);
    } else {
      var head, tail := s[..4], s[4..];
      assert NoWhiteSpace(head) by {
        forall i | 0 <= i < |head|
          ensures !IsWhiteSpace(head[i])
        {
          assert head[i] == s[i];
        }
      }
      assert NoWhiteSpace(tail) by {
        forall i | 0 <= i < |tail|
          ensures !IsWhiteSpace(tail[i])
        {
          assert tail[i] == s[i + 4];
        }
      }
      SpacedRoundTrip(tail);
      UnspaceOfNoWhiteSpace(head);
      UnspaceAppend(head + " ", Spaced(tail));
      UnspaceAppend(head, " ");
      assert Spaced(s) == head + " " + Spaced(tail);
      assert head + tail == s;
    }
  }

  /** An access key shows as eleven blocks of four (54 characters) in full, and as 11 + '...' + 11 abbreviated. */
  lemma AccessKeyFormats(chave: string)
    requires Matches44Digits(chave)
    ensures var full := FormatarChaveNfe(chave, false);
      |full| == 54 && Unspace(full) == chave && full == Spaced(chave)
    ensures var short := FormatarChaveNfe(chave, true);
      |short| == 25 && short[..11] == chave[..11] && short[11..14] == "..." && short[14..] == chave[33..]
  {
    assert NoWhiteSpace(chave);
    FullFormatIsSpaced(chave);
    SpacedRoundTrip(chave);
    AbbreviatedLayout(chave);
  }

  /** A 44-character key abbreviates to its first eleven characters, '...' and its last eleven. */
  lemma AbbreviatedLayout(chave: string)
    requires |chave| == 44
    ensures var short := Abbreviated(chave);
      |short| == 25 && short[..11] == chave[..11] && short[11..14] == "..." && short[14..] == chave[33..]
  {
    var short := Abbreviated(chave);
    assert short == chave[..11] + "..." + chave[33..];
  }

  // ---------------------------------------------------------------- CNPJ display

  /** `cnpj.replace(/^(\d{2})(\d{3})(\d{3})(\d{4})(\d{2})$/, '$1.$2.$3/$4-$5')` on a string. */
  function CnpjMask(s: string): string {
    if Matches14Digits(s) then s[..2] + "." + s[2..5] + "." + s[5..8] + "/" + s[8..12] + "-" + s[12..] else s
  }

  function Matches14Digits(s: string): (ok: bool)
    ensures ok <==> |s| == 14 && forall i :: 0 <= i < |s| ==> IsDigit(s[i])
  {
    AllDigitsMeans(s);
    |s| == 14 && AllDigits(s)
  }

  /**
   * `formatarCnpj(cnpj)`: 'N/A' for a falsy value, the mask applied to a string, and the
   * TypeError of calling `replace` on any other truthy value.
   */
  function FormatarCnpj(cnpj: Value): (r: Result<string>)
    ensures r.Ok? <==> !Truthy(cnpj) || cnpj.Str?
    ensures !Truthy(cnpj) ==> r == Ok("N/A")
    ensures Truthy(cnpj) && cnpj.Str? && !Matches14Digits(cnpj.s) ==> r == Ok(cnpj.s)
  {
    if !Truthy(cnpj) then Ok("N/A")
    else if cnpj.Str? then Ok(CnpjMask(cnpj.s))
    else Err("cnpj.replace is not a function")
  }

  /** The mask's punctuation. */
  predicate IsCnpjPunctuation(c: char) {
    c == '.' || c == '/' || c == '-'
  }

  function Unmask(s: string): string {
    if s == [] then []
    else if IsCnpjPunctuation(s[0]) then Unmask(s[1..])
    else [s[0]] + Unmask(s[1..])
  }

  lemma {:induction false} UnmaskAppend(a: string, b: string)
    ensures Unmask(a + b) == Unmask(a) + Unmask(b)
  {
    if a == [] {
      assert a + b == b;
    } else {
      assert a + b == [a[0]] + (a[1..] + b);
      UnmaskAppend(a[1..], b);
    }
  }

  lemma {:induction false} UnmaskOfDigits(s: string)
    requires forall i :: 0 <= i < |s| ==> IsDigit(s[i])
    ensures Unmask(s) == s
  {
    if s != [] {
      UnmaskOfDigits(s[1..]);
    }
  }

  lemma UnmaskJoin(x: string, p: char, y: string)
    requires IsCnpjPunctuation(p)
    ensures Unmask(x + [p] + y) == Unmask(x) + Unmask(y)
  {
    UnmaskAppend(x + [p], y);
    UnmaskAppend(x, [p]);
    assert Unmask([p]) == [];
  }

  /** Any slice of an all-digit string loses nothing to `Unmask`. */
  lemma UnmaskOfDigitSlice(s: string, i: nat, j: nat)
    requires forall k :: 0 <= k < |s| ==> IsDigit(s[k])
    requires i <= j <= |s|
    ensures Unmask(s[i..j]) == s[i..j]
  {
    UnmaskOfDigits(s[i..j]);
  }

  /** The masked CNPJ is 18 characters with its punctuation at positions 2, 6, 10 and 15. */
  lemma CnpjLayout(s: string)
    requires Matches14Digits(s)
    ensures var m := CnpjMask(s);
      |m| == 18 && m[2] == '.' && m[6] == '.' && m[10] == '/' && m[15] == '-'
  {
  }

  /** Dropping the punctuation between five groups that `Unmask` leaves alone joins the groups. */
  lemma UnmaskGroups(a: string, b: string, c: string, d: string, e: string)
    requires Unmask(a) == a && Unmask(b) == b && Unmask(c) == c && Unmask(d) == d && Unmask(e) == e
    ensures Unmask(a + "." + b + "." + c + "/" + d + "-" + e) == a + b + c + d + e
  {
    var m1 := a + "." + b;
    var m2 := m1 + "." + c;
    var m3 := m2 + "/" + d;
    UnmaskJoin(a, '.', b);
    UnmaskJoin(m1, '.', c);
    UnmaskJoin(m2, '/', d);
    UnmaskJoin(m3, '-', e);
  }

  /** Dropping the mask's punctuation gives the 14 digits back. */
  lemma CnpjUnmask(s: string)
    requires |s| == 14 && forall k :: 0 <= k < |s| ==> IsDigit(s[k])
    ensures Unmask(s[..2] + "." + s[2..5] + "." + s[5..8] + "/" + s[8..12] + "-" + s[12..]) == s
  {
    var a, b, c, d, e := s[..2], s[2..5], s[5..8], s[8..12], s[12..];
    UnmaskOfDigitSlice(s, 0, 2);
    UnmaskOfDigitSlice(s, 2, 5);
    UnmaskOfDigitSlice(s, 5, 8);
    UnmaskOfDigitSlice(s, 8, 12);
    UnmaskOfDigitSlice(s, 12, 14);
    assert a == s[0..2] && e == s[12..14];
    UnmaskGroups(a, b, c, d, e);
    assert a + b == s[..5];
    assert a + b + c == s[..8];
    assert a + b + c + d == s[..12];
  }

  /** A 14-digit CNPJ shows as XX.XXX.XXX/XXXX-XX, and dropping the punctuation gives it back. */
  lemma CnpjRoundTrip(s: string)
    requires Matches14Digits(s)
    ensures var m := FormatarCnpj(Str(s)).value;
      && |m| == 18 && m[2] == '.' && m[6] == '.' && m[10] == '/' && m[15] == '-'
      && Unmask(m) == s
  {
    CnpjLayout(s);
    CnpjUnmask(s);
  }

  // ---------------------------------------------------------------- status badges

  /** The badge text is its class name capitalised. */
  function Capitalized(s: string): string {
    if s != [] && 'a' <= s[0] <= 'z' then [(s[0] as int - 32) as char] + s[1..] else s
  }

  /** `getStatusClass(status)`: a `switch`, so the cases compare strictly. */
  function StatusClass(status: Value): (c: string)
    ensures c == "aprovada" <==> StrictEquals(status, Str("PROCESSADA")) || StrictEquals(status, Str("AUTORIZADA"))
    ensures c == "rejeitada" <==> StrictEquals(status, Str("REJEITADA"))
    ensures c == "aprovada" || c == "rejeitada" || c == "processando"
  {
    if status == Str("PROCESSADA") || status == Str("AUTORIZADA") then "aprovada"
    else if status == Str("REJEITADA") then "rejeitada"
    else "processando"
  }

  /** `getStatusLabel(status)` */
  function StatusLabel(status: Value): (l: string)
    ensures l == Capitalized(StatusClass(status))
  {
    BadgeLabels();
    if status == Str("PROCESSADA") || status == Str("AUTORIZADA") then "Aprovada"
    else if status == Str("REJEITADA") then "Rejeitada"
    else "Processando"
  }

  /** Each badge class, capitalised, is its label. */
  lemma BadgeLabels()
    ensures Capitalized("aprovada") == "Aprovada"
    ensures Capitalized("rejeitada") == "Rejeitada"
    ensures Capitalized("processando") == "Processando"
  {
    CapitalizedAprovada();
    CapitalizedRejeitada();
    CapitalizedProcessando();
  }

  lemma CapitalizedAprovada()
    ensures Capitalized("aprovada") == "Aprovada"
  {
    assert "aprovada"[1..] == "provada";
  }

  lemma CapitalizedRejeitada()
    ensures Capitalized("rejeitada") == "Rejeitada"
  {
    assert "rejeitada"[1..] == "ejeitada";
  }

  lemma CapitalizedProcessando()
    ensures Capitalized("processando") == "Processando"
  {
    assert "processando"[1..] == "rocessando";
  }

  // ---------------------------------------------------------------- the status history

  /** One history entry: `{ status, timestamp }`. */
  datatype Entry = Entry(status: string, timestamp: int)

  /** What a `fetch` gives the page: a response whose body may fail to parse, or a rejection. */
  datatype Fetched = Response(ok: bool, httpStatus: nat, body: Option<Value>) | FetchFailed(message: string)

  /**
   * The `online` a status check reads from `/status-sefaz-mg/verificar`, or None when
   * the check throws: a rejected fetch, a non-2xx or unparsable response, a null body,
   * or a body with neither `online` nor a truthy `success`.
   */
  function CheckedOnline(f: Fetched): (r: Option<bool>)
    ensures r.Some? <==>
      && f.Response? && f.ok && f.body.Some? && !Nullish(f.body.value)
      && (Prop(f.body.value, "online") != Undefined || Truthy(Prop(f.body.value, "success")))
    ensures r.Some? ==> r.value == Truthy(Prop(f.body.value, "online"))
  {
    if f.FetchFailed? || !f.ok || f.body.None? || Nullish(f.body.value) then None
    else
      var data := f.body.value;
      if Prop(data, "online") == Undefined && !Truthy(Prop(data, "success")) then None
      else Some(Truthy(Prop(data, "online")))
  }

  /** A server row as an entry; `time` is `new Date(v).getTime()`. */
  function ServerEntry(item: Value, time: Value -> int): Entry {
    Entry(if Truthy(Prop(item, "online")) then "online" else "offline", time(Prop(item, "timestamp")))
  }

  /**
   * The entries `/status-sefaz-mg/historico` yields, or None when the page keeps its
   * own history: the request or its body fails, `success` is falsy, `data` is not a
   * non-empty array, or one of its rows is null (reading `online` of it throws).
   */
  function ServerHistory(f: Fetched, time: Value -> int): (r: Option<seq<Entry>>)
    ensures r.Some? <==>
      && f.Response? && f.ok && f.body.Some? && !Nullish(f.body.value)
      && Truthy(Prop(f.body.value, "success"))
      && Prop(f.body.value, "data").Arr? && |Prop(f.body.value, "data").items| > 0
      && forall i :: 0 <= i < |Prop(f.body.value, "data").items| ==> !Nullish(Prop(f.body.value, "data").items[i])
    ensures r.Some? ==> var rows := Prop(f.body.value, "data");
      && rows.Arr? && |r.value| == |rows.items| > 0
      && forall i :: 0 <= i < |rows.items| ==> !Nullish(rows.items[i]) && r.value[i] == ServerEntry(rows.items[i], time)
  {
    if f.FetchFailed? || !f.ok || f.body.None? || Nullish(f.body.value) then None
    else
      var data := f.body.value;
      var rows := Prop(data, "data");
      if !Truthy(Prop(data, "success")) || !rows.Arr? || |rows.items| == 0 then None
      else if exists i :: 0 <= i < |rows.items| && Nullish(rows.items[i]) then None
      else Some(seq(|rows.items|, i requires 0 <= i < |rows.items| => ServerEntry(rows.items[i], time)))
  }

  /** The page's `statusHistory`. */
  class StatusPanel {
    var history: seq<Entry>

    /** `carregarHistoricoLocal()`: the page starts from what local storage held, or from nothing. */
    constructor (saved: seq<Entry>)
      ensures history == saved
    {
      history := saved;
    }

    /** The status a failed check reports: the newest entry's, or online when there is none. */
    function LastKnownStatus(): (online: bool)
      reads this
      ensures |history| == 0 ==> online
      ensures |history| > 0 ==> (online <==> history[0].status == "online")
    {
      if |history| > 0 then history[0].status == "online" else true
    }

    /** `adicionarEntradaHistorico(status, date)`: the entry goes first and the list is cut to twenty. */
    method AdicionarEntradaHistorico(status: string, at: int)
      modifies this
      ensures history == Take([Entry(status, at)] + old(history), HistoryCap)
      ensures |history| == (if |old(history)| < HistoryCap then |old(history)| + 1 else HistoryCap)
      ensures history[0] == Entry(status, at)
      ensures forall i :: 1 <= i < |history| ==> history[i] == old(history)[i - 1]
      ensures LastKnownStatus() == (status == "online")
    {
      history := [Entry(status, at)] + history;
      if |history| > HistoryCap {
        history := history[..HistoryCap];
      }
    }

    /**
     * `atualizarHistoricoStatus()`: a server history replaces the page's in server
     * order, cut to twenty; otherwise the page's history stays. Nothing is raised.
     */
    method AtualizarHistoricoStatus(f: Fetched, time: Value -> int)
      modifies this
      ensures ServerHistory(f, time).None? ==> history == old(history)
      ensures ServerHistory(f, time).Some? ==> history == Take(ServerHistory(f, time).value, HistoryCap)
      ensures |old(history)| <= HistoryCap ==> |history| <= HistoryCap
    {
      var fromServer := ServerHistory(f, time);
      if fromServer.Some? {
        history := fromServer.value;
        if |history| > HistoryCap {
          history := history[..HistoryCap];
        }
      }
    }

    /**
     * The page's `verificarStatusSefaz()`: a good answer is logged and followed by a
     * history refresh; a failed check changes nothing and reports the last known status.
     */
    method VerificarStatusSefaz(f: Fetched, refresh: Fetched, time: Value -> int, at: int) returns (online: bool)
      modifies this
      ensures CheckedOnline(f).None? ==> online == old(LastKnownStatus()) && history == old(history)
      ensures CheckedOnline(f).Some? ==> online == CheckedOnline(f).value
      ensures CheckedOnline(f).Some? && ServerHistory(refresh, time).None? ==>
        history == Take([Entry(if online then "online" else "offline", at)] + old(history), HistoryCap)
      ensures CheckedOnline(f).Some? && ServerHistory(refresh, time).Some? ==>
        history == Take(ServerHistory(refresh, time).value, HistoryCap)
      ensures CheckedOnline(f).Some? ==> (LastKnownStatus() ==
        if ServerHistory(refresh, time).Some? then ServerHistory(refresh, time).value[0].status == "online" else online)
    {
      var checked := CheckedOnline(f);
      if checked.None? {
        return LastKnownStatus();
      }
      online := checked.value;
      AdicionarEntradaHistorico(if online then "online" else "offline", at);
      ghost var logged := history;
      var fromServer := ServerHistory(refresh, time);
      AtualizarHistoricoStatus(refresh, time);
      if fromServer.Some? {
        assert history[0] == fromServer.value[0];
      } else {
        assert history == logged;
      }
    }
  }

  /** A failed check right after a good one reports the good one's result when the refresh kept the page's history. */
  method CheckThenFail(p: StatusPanel, good: Fetched, bad: Fetched, refresh: Fetched, time: Value -> int, at: int)
    returns (first: bool, second: bool)
    requires CheckedOnline(good).Some? && CheckedOnline(bad).None? && ServerHistory(refresh, time).None?
    modifies p
    ensures first == second == CheckedOnline(good).value
  {
    first := p.VerificarStatusSefaz(good, refresh, time, at);
    second := p.VerificarStatusSefaz(bad, refresh, time, at);
  }
}
