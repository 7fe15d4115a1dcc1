/**
 * The SEFAZ-MG status monitor: the service singleton's fields (`lastStatus`,
 * `simulatedStatus`, `intervalId`), the probe that decides whether the authority is
 * online and logs each change to `sefaz_status`, the simulated status used in
 * development, and the read queries over the two tables.
 *
 * Each operation is atomic: the probe's reply, the outcome of every statement and
 * the clocks are parameters.
 */
module SefazMonitor {
  import opened Wrappers
  import opened Js
  import opened HttpRetry
  import opened Persistence

  /** The service names of the SEFAZ-MG web services and their URLs. */
  const Endpoints: map<string, string> := map[
    "nfeInutilizacao" := "https://nfe.fazenda.mg.gov.br/nfe2/services/NFeInutilizacao4",
    "nfeConsultaProtocolo" := "https://nfe.fazenda.mg.gov.br/nfe2/services/NFeConsultaProtocolo4",
    "nfeStatusServico" := "https://nfe.fazenda.mg.gov.br/nfe2/services/NFeStatusServico4",
    "nfeConsultaCadastro" := "https://nfe.fazenda.mg.gov.br/nfe2/services/CadConsultaCadastro4",
    "recepcaoEvento" := "https://nfe.fazenda.mg.gov.br/nfe2/services/NFeRecepcaoEvento4",
    "nfeAutorizacao" := "https://nfe.fazenda.mg.gov.br/nfe2/services/NFeAutorizacao4",
    "nfeRetAutorizacao" := "https://nfe.fazenda.mg.gov.br/nfe2/services/NFeRetAutorizacao4"
  ]

  const DefaultCheckInterval := 5 * 60 * 1000

  /** `env || fallback` for an environment variable (None when unset). */
  function EnvOr(env: Option<string>, fallback: string): string {
    if env.Some? && env.value != "" then env.value else fallback
  }

  /** The probed URL: the local simulation in development, else `SEFAZ_MG_STATUS_URL` or the status service. */
  function StatusUrl(nodeEnv: Option<string>, port: Option<string>, statusUrlEnv: Option<string>): (url: string)
    ensures nodeEnv == Some("development") ==> url == "http://localhost:" + EnvOr(port, "3000") + "/api/simular-status-sefaz-mg"
    ensures nodeEnv != Some("development") && EnvOr(statusUrlEnv, "") == "" ==> url == Endpoints["nfeStatusServico"]
    ensures nodeEnv != Some("development") && EnvOr(statusUrlEnv, "") != "" ==> url == statusUrlEnv.value
  {
    if nodeEnv == Some("development") then "http://localhost:" + EnvOr(port, "3000") + "/api/simular-status-sefaz-mg"
    else EnvOr(statusUrlEnv, Endpoints["nfeStatusServico"])
  }

  /** `parseInt(STATUS_CHECK_INTERVAL) || 5 * 60 * 1000` */
  function CheckInterval(env: Option<string>): (ms: int)
    ensures ms != 0
    ensures env.Some? && ParseInt(env.value).Some? && ParseInt(env.value).value != 0 ==> ms == ParseInt(env.value).value
    ensures env.None? || ParseInt(env.value) == None || ParseInt(env.value) == Some(0) ==> ms == DefaultCheckInterval
  {
    if env.Some? && ParseInt(env.value).Some? && ParseInt(env.value).value != 0 then ParseInt(env.value).value
    else DefaultCheckInterval
  }

  /** A positive interval written in decimal is the interval used. */
  lemma CheckIntervalOfDecimal(n: nat)
    requires n > 0
    ensures CheckInterval(Some(NatToString(n))) == n
  {
    ParseIntOfNatToString(n);
  }

  // ---------------------------------------------------------------- the probe

  /** `response.status === 200 && response.data && (response.data.online || response.data.status === 'online')` */
  function OnlineValue(status: nat, data: Value): Value {
    if status != 200 then Bool(false)
    else if !Truthy(data) then data
    else Or(Prop(data, "online"), Bool(StrictEquals(Prop(data, "status"), Str("online"))))
  }

  /** A reply counts as online exactly when it is a 200 whose payload says so in either of its two ways. */
  lemma OnlineValueMeans(status: nat, data: Value)
    ensures Truthy(OnlineValue(status, data)) <==>
      status == 200 && Truthy(data) && (Truthy(Prop(data, "online")) || Prop(data, "status") == Str("online"))
  {
  }

  /** What `detalhes` is serialized from. */
  function ProbeDetail(data: Value): Detail {
    if Truthy(data) && (data.Obj? || data.Arr?) then ProbeData(data) else ProbeText(data)
  }

  /** `lastStatus === null || lastStatus !== online` */
  predicate Changed(last: Value, online: Value) {
    last.Null? || !StrictEquals(last, online)
  }

  /** The value `verificarStatusSefaz` resolves to: `{ online, timestamp, detalhes }` or `{ online: false, timestamp, error }`. */
  datatype ProbeResult = Checked(online: Value, timestamp: int, detalhes: Value) | CheckFailed(timestamp: int, error: string)

  /** One probe's effect: the row it logs (its `online` and `detalhes`), the new `lastStatus`, the error it caught. */
  datatype Step = Step(row: Option<(Value, Detail)>, last: Value, caught: Option<string>)

  /** The error thrown inside the `try` of `verificarStatusSefaz`, if any. */
  function Thrown(last: Value, o: Outcome, write: Store): Option<string> {
    if o.Rejected? then Some(o.message)
    else if Changed(last, OnlineValue(o.status, o.data)) then InsertError(OnlineValue(o.status, o.data), write)
    else None
  }

  /**
   * `verificarStatusSefaz` from `lastStatus == last`, when the request settles as `o`,
   * the change insert meets `write` and the error-path insert meets `fallbackWrite`.
   */
  function ProbeStep(last: Value, o: Outcome, write: Store, fallbackWrite: Store): Step {
    var thrown := Thrown(last, o, write);
    if thrown.None? then
      if o.Resolved? && Changed(last, OnlineValue(o.status, o.data)) then
        Step(Some((OnlineValue(o.status, o.data), ProbeDetail(o.data))), OnlineValue(o.status, o.data), None)
      else Step(None, last, None)
    else if StrictEquals(last, Bool(false)) || InsertError(Bool(false), fallbackWrite).Some? then
      Step(None, last, thrown)
    else
      Step(Some((Bool(false), ProbeFailure("Erro ao verificar: " + thrown.value))), Bool(false), thrown)
  }

  /** A logged row always differs from the status held before, and `lastStatus` becomes the row just logged. */
  lemma ProbeStepLogsChangesOnly(last: Value, o: Outcome, write: Store, fallbackWrite: Store)
    ensures var s := ProbeStep(last, o, write, fallbackWrite);
      && (s.row.Some? ==> s.last == s.row.value.0 && !Nullish(s.last) && (last.Null? || !StrictEquals(last, s.last)))
      && (s.row.None? ==> s.last == last)
  {
  }

  /** A failed request never escapes: it is caught, reported with its message, and logged as offline at most once. */
  lemma ProbeStepCatchesFailures(last: Value, o: Outcome, write: Store, fallbackWrite: Store)
    requires o.Rejected?
    ensures var s := ProbeStep(last, o, write, fallbackWrite);
      && s.caught == Some(o.message)
      && (s.row.Some? <==> !StrictEquals(last, Bool(false)) && fallbackWrite.Up?)
      && (fallbackWrite.Down? ==> s.last == last)
  {
  }

  /** What a run of probes that follow each other records. */
  datatype Probe = Probe(outcome: Outcome, write: Store, fallbackWrite: Store)

  /** The `online` values a run of probes logs, in order, starting from `lastStatus == last`. */
  function Logged(last: Value, probes: seq<Probe>): seq<Value>
    decreases |probes|
  {
    if probes == [] then []
    else
      var s := ProbeStep(last, probes[0].outcome, probes[0].write, probes[0].fallbackWrite);
      (if s.row.Some? then [s.row.value.0] else []) + Logged(s.last, probes[1..])
  }

  /** The status after a run of probes. */
  function LastAfter(last: Value, probes: seq<Probe>): Value
    decreases |probes|
  {
    if probes == [] then last
    else
      var s := ProbeStep(last, probes[0].outcome, probes[0].write, probes[0].fallbackWrite);
      LastAfter(s.last, probes[1..])
  }

  /** The rows one probe contributes to a run. */
  function RowOf(s: Step): seq<Value> {
    if s.row.Some? then [s.row.value.0] else []
  }

  lemma LoggedUnfold(last: Value, probes: seq<Probe>)
    requires probes != []
    ensures var s := ProbeStep(last, probes[0].outcome, probes[0].write, probes[0].fallbackWrite);
      && Logged(last, probes) == RowOf(s) + Logged(s.last, probes[1..])
      && LastAfter(last, probes) == LastAfter(s.last, probes[1..])
  {
  }

  /**
   * Probes alone never log the same status twice in a row: consecutive rows differ, the
   * first differs from the status held at the start, and none is null or undefined.
   */
  lemma {:induction false} LoggedIsCoalesced(last: Value, probes: seq<Probe>)
    ensures var r := Logged(last, probes);
      && (forall i :: 0 < i < |r| ==> !StrictEquals(r[i - 1], r[i]))
      && (|r| > 0 && !last.Null? ==> !StrictEquals(last, r[0]))
      && (forall i :: 0 <= i < |r| ==> !Nullish(r[i]))
    decreases |probes|
  {
    if probes != [] {
      var p := probes[0];
      var s := ProbeStep(last, p.outcome, p.write, p.fallbackWrite);
      ProbeStepLogsChangesOnly(last, p.outcome, p.write, p.fallbackWrite);
      LoggedUnfold(last, probes);
      LoggedIsCoalesced(s.last, probes[1..]);
      var rest := Logged(s.last, probes[1..]);
      if s.row.Some? {
        var r := RowOf(s) + rest;
        assert forall i :: 0 < i < |r| ==> r[i] == rest[i - 1];
      }
    }
  }

  /** After a run of probes `lastStatus` is the last row logged, or the status held at the start when none was. */
  lemma {:induction false} LastAfterIsLastLogged(last: Value, probes: seq<Probe>)
    ensures var r := Logged(last, probes);
      && (|r| > 0 ==> LastAfter(last, probes) == r[|r| - 1])
      && (|r| == 0 ==> LastAfter(last, probes) == last)
    decreases |probes|
  {
    if probes != [] {
      var p := probes[0];
      var s := ProbeStep(last, p.outcome, p.write, p.fallbackWrite);
      ProbeStepLogsChangesOnly(last, p.outcome, p.write, p.fallbackWrite);
      LoggedUnfold(last, probes);
      LastAfterIsLastLogged(s.last, probes[1..]);
    }
  }

  // ---------------------------------------------------------------- requests

  /** An outbound request as the monitor builds it. */
  datatype Request = Request(verb: string, url: string, body: Option<Value>)

  /** `url = endpoints[endpoint] || endpoint`, and the body only when `data` is truthy. */
  function BuildRequest(endpoint: string, data: Value, verb: string): (q: Request)
    ensures endpoint in Endpoints ==> q.url == Endpoints[endpoint]
    ensures endpoint !in Endpoints ==> q.url == endpoint
    ensures q.body.Some? <==> Truthy(data)
    ensures q.body.Some? ==> q.body.value == data
    ensures q.verb == verb
  {
    Request(verb, if endpoint in Endpoints then Endpoints[endpoint] else endpoint, if Truthy(data) then Some(data) else None)
  }

  /** What `requisitarSefaz` resolves to. */
  datatype SefazResponse = Success(data: Value, status: nat) | Failure(error: string, response: Option<(nat, Value)>)

  // ---------------------------------------------------------------- simulation

  function Mensagem(online: bool): string {
    if online then "Sistema em operação normal" else "Sistema indisponível"
  }

  /** `getSimulatedStatus()`: the status the development endpoint serves. */
  datatype SimulatedStatus = SimulatedStatus(online: bool, timestamp: int, ambiente: Option<string>, mensagem: string)

  /** The JSON body `res.json` sends for a simulated status; an unset `ambiente` is dropped. */
  function SimulatedBody(s: SimulatedStatus, iso: string): Value {
    var detalhes := map["simulado" := Bool(true), "mensagem" := Str(s.mensagem)];
    Obj(map[
      "online" := Bool(s.online),
      "timestamp" := Str(iso),
      "detalhes" := Obj(if s.ambiente.Some? then detalhes["ambiente" := Str(s.ambiente.value)] else detalhes)])
  }

  /** In development the probe of the simulated endpoint reads back exactly the simulated status. */
  lemma ProbeOfSimulatedStatus(s: SimulatedStatus, iso: string)
    ensures OnlineValue(200, SimulatedBody(s, iso)) == Bool(s.online)
    ensures ProbeDetail(SimulatedBody(s, iso)) == ProbeData(SimulatedBody(s, iso))
  {
  }

  // ---------------------------------------------------------------- queries

  function Reverse<T>(s: seq<T>): (r: seq<T>)
    ensures |r| == |s|
  {
    if s == [] then [] else Reverse(s[1..]) + [s[0]]
  }

  lemma {:induction false} ReverseAt<T>(s: seq<T>, i: nat)
    requires i < |s|
    ensures Reverse(s)[i] == s[|s| - 1 - i]
  {
    if i < |s| - 1 {
      ReverseAt(s[1..], i);
    }
  }

  function Min(a: int, b: int): int {
    if a <= b then a else b
  }

  /** `ORDER BY timestamp DESC LIMIT limit` over a log kept in insertion order. */
  function NewestStatus(rows: seq<StatusRow>, limit: nat): seq<StatusRow> {
    Reverse(rows)[..Min(limit, |rows|)]
  }

  /** The history holds the `limit` most recent rows, newest first; every row left out is no newer than those kept. */
  lemma NewestStatusSpec(rows: seq<StatusRow>, limit: nat)
    requires forall i, j :: 0 <= i < j < |rows| ==> rows[i].timestamp <= rows[j].timestamp
    ensures var h := NewestStatus(rows, limit);
      && |h| == Min(limit, |rows|)
      && (forall i :: 0 <= i < |h| ==> h[i] == rows[|rows| - 1 - i])
      && (forall i, j :: 0 <= i < j < |h| ==> h[i].timestamp >= h[j].timestamp)
      && (forall i, j :: 0 <= i < |rows| - |h| && 0 <= j < |h| ==> rows[i].timestamp <= h[j].timestamp)
  {
    var h := NewestStatus(rows, limit);
    forall i | 0 <= i < |h|
      ensures h[i] == rows[|rows| - 1 - i]
    {
      ReverseAt(rows, i);
    }
  }

  /** `LIMIT limit OFFSET offset` */
  function Window<T>(s: seq<T>, offset: nat, limit: nat): (w: seq<T>)
    ensures |w| == (if offset >= |s| then 0 else Min(limit, |s| - offset))
    ensures forall i :: 0 <= i < |w| ==> w[i] == s[offset + i]
  {
    if offset >= |s| then [] else s[offset..offset + Min(limit, |s| - offset)]
  }

  /**
   * A `LIMIT limit OFFSET offset` page of a newest-first selection keeps what the
   * selection promises: selected rows of the table, each at most once, newest query
   * first, and as many as lie in the window over the selected count.
   */
  lemma NewestFirstWindow(t: map<Value, NfeRow>, onlyRejected: bool, all: seq<NfeRow>, offset: nat, limit: nat)
    requires NewestFirstOf(t, onlyRejected, all)
    ensures var w := Window(all, offset, limit); var n := |SelectedKeys(t, onlyRejected)|;
      && |w| == (if offset >= n then 0 else Min(limit, n - offset))
      && (forall i :: 0 <= i < |w| ==> w[i].chave in t && t[w[i].chave] == w[i] && Selected(w[i], onlyRejected))
      && ConsultaDesc(w)
      && (forall i, j :: 0 <= i < j < |w| ==> w[i].chave != w[j].chave)
  {
  }

  /** `after` is `before` with one more row, which carries `online` and `detalhes`. */
  predicate Appended(before: seq<StatusRow>, after: seq<StatusRow>, online: Value, detalhes: Detail) {
    && |after| == |before| + 1
    && after[..|before|] == before
    && after[|before|].online == online
    && after[|before|].detalhes == detalhes
  }

  /** One page of `obterNfesRejeitadas`. */
  datatype RejectedPage = RejectedPage(dados: seq<NfeSummary>, total: nat, pagina: Number, totalPaginas: Number)

  /** `obterStatusAtual`: the newest logged row, or a fresh probe when the log is empty. */
  datatype CurrentStatus = FromLog(online: bool, timestamp: int, detalhes: Detail) | FromProbe(probe: ProbeResult)

  // ---------------------------------------------------------------- the service

  class Monitor {
    const db: Database
    const statusUrl: string
    const checkInterval: int
    var intervalId: Option<nat>
    var lastStatus: Value
    var simulatedStatus: bool
    /** The interval timers the runtime is running for this service, by handle. */
    var timers: set<nat>
    var nextHandle: nat

    ghost predicate Valid()
      reads this, db
    {
      && db.Valid()
      && (intervalId.Some? ==> intervalId.value in timers)
      && (forall h :: h in timers ==> h < nextHandle)
    }

    /** `lastStatus` is null or the `online` of the newest logged row. */
    ghost predicate Tracks()
      reads this, db
    {
      lastStatus.Null? || (|db.statusRows| > 0 && db.statusRows[|db.statusRows| - 1].online == lastStatus)
    }

    constructor (db: Database, nodeEnv: Option<string>, port: Option<string>, statusUrlEnv: Option<string>, intervalEnv: Option<string>)
      requires db.Valid()
      ensures Valid() && Tracks()
      ensures this.db == db
      ensures statusUrl == StatusUrl(nodeEnv, port, statusUrlEnv) && checkInterval == CheckInterval(intervalEnv)
      ensures intervalId == None && lastStatus == Null && simulatedStatus && timers == {}
    {
      this.db := db;
      statusUrl := StatusUrl(nodeEnv, port, statusUrlEnv);
      checkInterval := CheckInterval(intervalEnv);
      intervalId := None;
      lastStatus := Null;
      simulatedStatus := true;
      timers := {};
      nextHandle := 1;
    }

    /**
     * `verificarStatusSefaz()`: try `k` of the request gets `reply(k)`, the change
     * insert meets `write`, the error-path insert meets `fallbackWrite`; `now` is the
     * service clock and `elapsed` the store clock's advance.
     */
    method VerificarStatusSefaz(reply: nat -> Reply, write: Store, fallbackWrite: Store, elapsed: nat, now: int)
      returns (r: ProbeResult)
      requires Valid()
      modifies this, db
      ensures Valid()
      ensures var o := FinalOutcome(DefaultPolicy, reply);
        var s := ProbeStep(old(lastStatus), o, write, fallbackWrite);
        && lastStatus == s.last
        && (s.row.None? ==> db.statusRows == old(db.statusRows))
        && (s.row.Some? ==> Appended(old(db.statusRows), db.statusRows, s.row.value.0, s.row.value.1))
        && (s.caught.None? ==> r == Checked(OnlineValue(o.status, o.data), now, o.data))
        && (s.caught.Some? ==> r == CheckFailed(now, s.caught.value))
      ensures old(Tracks()) ==> Tracks()
      ensures db.nfes == old(db.nfes) && db.nextNfeId == old(db.nextNfeId)
      ensures intervalId == old(intervalId) && simulatedStatus == old(simulatedStatus) && timers == old(timers) && nextHandle == old(nextHandle)
    {
      var outcome, _ := Send(DefaultPolicy, reply);
      r := ProbeSettled(outcome, write, fallbackWrite, elapsed, now);
    }

    /** The part of `verificarStatusSefaz()` after the request has settled as `outcome`: its `try` and its `catch`. */
    method ProbeSettled(outcome: Outcome, write: Store, fallbackWrite: Store, elapsed: nat, now: int)
      returns (r: ProbeResult)
      requires Valid()
      modifies this, db
      ensures Valid()
      ensures var s := ProbeStep(old(lastStatus), outcome, write, fallbackWrite);
        && lastStatus == s.last
        && (s.row.None? ==> db.statusRows == old(db.statusRows))
        && (s.row.Some? ==> Appended(old(db.statusRows), db.statusRows, s.row.value.0, s.row.value.1))
        && (s.caught.None? ==> r == Checked(OnlineValue(outcome.status, outcome.data), now, outcome.data))
        && (s.caught.Some? ==> r == CheckFailed(now, s.caught.value))
      ensures old(Tracks()) ==> Tracks()
      ensures db.nfes == old(db.nfes) && db.nextNfeId == old(db.nextNfeId)
      ensures intervalId == old(intervalId) && simulatedStatus == old(simulatedStatus) && timers == old(timers) && nextHandle == old(nextHandle)
    {
      var thrown: Option<string>;
      if outcome.Resolved? {
        var online := OnlineValue(outcome.status, outcome.data);
        thrown := LogIfChanged(online, ProbeDetail(outcome.data), write, elapsed);
        if thrown.None? {
          return Checked(online, now, outcome.data);
        }
      } else {
        thrown := Some(outcome.message);
      }
      LogOffline(thrown.value, fallbackWrite, elapsed);
      r := CheckFailed(now, thrown.value);
    }

    /** The `try` of `verificarStatusSefaz()` once the request resolved: a row and a new `lastStatus` only when the status changed. */
    method LogIfChanged(online: Value, detalhes: Detail, write: Store, elapsed: nat) returns (thrown: Option<string>)
      requires Valid()
      modifies this, db
      ensures Valid()
      ensures thrown == (if Changed(old(lastStatus), online) then InsertError(online, write) else None)
      ensures Changed(old(lastStatus), online) && thrown.None? ==>
        lastStatus == online && Appended(old(db.statusRows), db.statusRows, online, detalhes) && Tracks()
      ensures !Changed(old(lastStatus), online) || thrown.Some? ==> lastStatus == old(lastStatus) && db.statusRows == old(db.statusRows)
      ensures db.nfes == old(db.nfes) && db.nextNfeId == old(db.nextNfeId)
      ensures intervalId == old(intervalId) && simulatedStatus == old(simulatedStatus) && timers == old(timers) && nextHandle == old(nextHandle)
    {
      thrown := None;
      if lastStatus.Null? || !StrictEquals(lastStatus, online) {
        thrown := LogStatus(online, detalhes, write, elapsed);
      }
    }

    /** The `catch` of `verificarStatusSefaz()`: an offline row unless the status is already false; a failed insert is swallowed. */
    method LogOffline(message: string, fallbackWrite: Store, elapsed: nat)
      requires Valid()
      modifies this, db
      ensures Valid()
      ensures !StrictEquals(old(lastStatus), Bool(false)) && fallbackWrite.Up? ==>
        && lastStatus == Bool(false) && Tracks()
        && Appended(old(db.statusRows), db.statusRows, Bool(false), ProbeFailure("Erro ao verificar: " + message))
      ensures StrictEquals(old(lastStatus), Bool(false)) || fallbackWrite.Down? ==>
        lastStatus == old(lastStatus) && db.statusRows == old(db.statusRows)
      ensures db.nfes == old(db.nfes) && db.nextNfeId == old(db.nextNfeId)
      ensures intervalId == old(intervalId) && simulatedStatus == old(simulatedStatus) && timers == old(timers) && nextHandle == old(nextHandle)
    {
      if !StrictEquals(lastStatus, Bool(false)) {
        var _ := LogStatus(Bool(false), ProbeFailure("Erro ao verificar: " + message), fallbackWrite, elapsed);
      }
    }

    /** An `INSERT INTO sefaz_status` followed by `this.lastStatus = online`; the insert's error when it fails. */
    method LogStatus(online: Value, detalhes: Detail, store: Store, elapsed: nat) returns (err: Option<string>)
      requires Valid()
      modifies this, db
      ensures Valid()
      ensures err == InsertError(online, store)
      ensures err.None? ==> lastStatus == online && Appended(old(db.statusRows), db.statusRows, online, detalhes) && Tracks()
      ensures err.Some? ==> lastStatus == old(lastStatus) && db.statusRows == old(db.statusRows)
      ensures db.nfes == old(db.nfes) && db.nextNfeId == old(db.nextNfeId)
      ensures intervalId == old(intervalId) && simulatedStatus == old(simulatedStatus) && timers == old(timers) && nextHandle == old(nextHandle)
    {
      var inserted := db.InsertStatus(online, detalhes, store, elapsed);
      if inserted.Ok? {
        lastStatus := online;
        err := None;
      } else {
        err := Some(inserted.error);
      }
    }

    /** `iniciarMonitoramento()`: one probe, then a new interval timer whose handle is kept. */
    method IniciarMonitoramento(reply: nat -> Reply, write: Store, fallbackWrite: Store, elapsed: nat, now: int)
      returns (ok: bool)
      requires Valid()
      modifies this, db
      ensures Valid() && ok
      ensures intervalId == Some(old(nextHandle)) && timers == old(timers) + {old(nextHandle)}
      ensures old(nextHandle) !in old(timers)
      ensures nextHandle == old(nextHandle) + 1 && simulatedStatus == old(simulatedStatus)
      ensures var s := ProbeStep(old(lastStatus), FinalOutcome(DefaultPolicy, reply), write, fallbackWrite);
        && lastStatus == s.last
        && (s.row.None? ==> db.statusRows == old(db.statusRows))
        && (s.row.Some? ==> Appended(old(db.statusRows), db.statusRows, s.row.value.0, s.row.value.1))
      ensures old(Tracks()) ==> Tracks()
      ensures db.nfes == old(db.nfes) && db.nextNfeId == old(db.nextNfeId)
    {
      var _ := VerificarStatusSefaz(reply, write, fallbackWrite, elapsed, now);
      intervalId := Some(nextHandle);
      timers := timers + {nextHandle};
      nextHandle := nextHandle + 1;
      ok := true;
    }

    /** `pararMonitoramento()`: clears the timer it holds, if any; always true. */
    method PararMonitoramento() returns (ok: bool)
      requires Valid()
      modifies this
      ensures Valid() && ok && intervalId == None
      ensures old(intervalId).Some? ==> timers == old(timers) - {old(intervalId).value}
      ensures old(intervalId).None? ==> timers == old(timers)
      ensures lastStatus == old(lastStatus) && simulatedStatus == old(simulatedStatus)
    {
      if intervalId.Some? {
        timers := timers - {intervalId.value};
        intervalId := None;
      }
      ok := true;
    }

    /**
     * `registrarMudancaStatus(online, simulado)`: logs the status with no change
     * check; true when the insert succeeds. `now` stamps the `detalhes`.
     */
    method RegistrarMudancaStatus(online: bool, simulado: bool, write: Store, elapsed: nat, now: int) returns (ok: bool)
      requires Valid()
      modifies this, db
      ensures Valid()
      ensures ok <==> write.Up?
      ensures ok ==> (
        && lastStatus == Bool(online)
        && |db.statusRows| == |old(db.statusRows)| + 1
        && db.statusRows[..|old(db.statusRows)|] == old(db.statusRows)
        && db.statusRows[|db.statusRows| - 1].online == Bool(online)
        && db.statusRows[|db.statusRows| - 1].detalhes == Change(simulado, Mensagem(online), now))
      ensures ok ==> Tracks()
      ensures !ok ==> lastStatus == old(lastStatus) && db.statusRows == old(db.statusRows)
      ensures db.nfes == old(db.nfes) && db.nextNfeId == old(db.nextNfeId)
      ensures intervalId == old(intervalId) && simulatedStatus == old(simulatedStatus) && timers == old(timers) && nextHandle == old(nextHandle)
    {
      var inserted := db.InsertStatus(Bool(online), Change(simulado, Mensagem(online), now), write, elapsed);
      if inserted.Ok? {
        lastStatus := Bool(online);
        ok := true;
      } else {
        ok := false;
      }
    }

    /** `toggleSimulatedStatus()`: flips the simulated status, logs it as simulated, returns the new value. */
    method ToggleSimulatedStatus(write: Store, elapsed: nat, now: int) returns (online: bool)
      requires Valid()
      modifies this, db
      ensures Valid()
      ensures online == !old(simulatedStatus) && simulatedStatus == online
      ensures write.Up? ==> (
        && lastStatus == Bool(online)
        && |db.statusRows| == |old(db.statusRows)| + 1
        && db.statusRows[..|old(db.statusRows)|] == old(db.statusRows)
        && db.statusRows[|db.statusRows| - 1].online == Bool(online)
        && db.statusRows[|db.statusRows| - 1].detalhes == Change(true, Mensagem(online), now))
      ensures write.Up? ==> Tracks()
      ensures write.Down? ==> lastStatus == old(lastStatus) && db.statusRows == old(db.statusRows)
      ensures db.nfes == old(db.nfes) && db.nextNfeId == old(db.nextNfeId)
      ensures intervalId == old(intervalId) && timers == old(timers) && nextHandle == old(nextHandle)
    {
      simulatedStatus := !simulatedStatus;
      var _ := RegistrarMudancaStatus(simulatedStatus, true, write, elapsed, now);
      online := simulatedStatus;
    }

    /** `getSimulatedStatus()` with `NODE_ENV` as `ambiente`. */
    function GetSimulatedStatus(ambiente: Option<string>, now: int): (s: SimulatedStatus)
      reads this
      ensures s.online == simulatedStatus
      ensures s.mensagem == Mensagem(simulatedStatus)
    {
      SimulatedStatus(simulatedStatus, now, ambiente, Mensagem(simulatedStatus))
    }

    /**
     * `requisitarSefaz(endpoint, data, method)` with `verb` as the HTTP method. When a request for the status
     * endpoint fails, `lastStatus` is set to false before the offline row is written,
     * so a failed write leaves `lastStatus` ahead of the log.
     */
    method RequisitarSefaz(endpoint: string, data: Value, verb: string, reply: nat -> Reply, write: Store, elapsed: nat, now: int)
      returns (sent: Request, r: SefazResponse)
      requires Valid()
      modifies this, db
      ensures Valid()
      ensures sent == BuildRequest(endpoint, data, verb)
      ensures var o := FinalOutcome(DefaultPolicy, reply);
        && (o.Resolved? ==> r == Success(o.data, o.status))
        && (o.Rejected? ==> r == Failure(o.message, o.response))
      ensures var statusEndpoint := endpoint == "nfeStatusServico" || endpoint == statusUrl;
        && (FinalOutcome(DefaultPolicy, reply).Rejected? && statusEndpoint ==> lastStatus == Bool(false))
        && (FinalOutcome(DefaultPolicy, reply).Rejected? && statusEndpoint && write.Up? ==>
              |db.statusRows| == |old(db.statusRows)| + 1 && db.statusRows[..|old(db.statusRows)|] == old(db.statusRows)
              && db.statusRows[|db.statusRows| - 1].online == Bool(false)
              && db.statusRows[|db.statusRows| - 1].detalhes == Change(false, Mensagem(false), now))
        && (FinalOutcome(DefaultPolicy, reply).Rejected? && statusEndpoint && write.Down? ==> db.statusRows == old(db.statusRows))
        && (FinalOutcome(DefaultPolicy, reply).Resolved? || !statusEndpoint ==> lastStatus == old(lastStatus) && db.statusRows == old(db.statusRows))
      ensures db.nfes == old(db.nfes) && db.nextNfeId == old(db.nextNfeId)
      ensures intervalId == old(intervalId) && simulatedStatus == old(simulatedStatus) && timers == old(timers) && nextHandle == old(nextHandle)
    {
      sent := BuildRequest(endpoint, data, verb);
      var outcome, _ := Send(DefaultPolicy, reply);
      if outcome.Resolved? {
        return sent, Success(outcome.data, outcome.status);
      }
      if endpoint == "nfeStatusServico" || endpoint == statusUrl {
        lastStatus := Bool(false);
        var _ := RegistrarMudancaStatus(false, false, write, elapsed, now);
      }
      r := Failure(outcome.message, outcome.response);
    }

    /** `obterHistoricoStatus(limit)`; a failed read is rethrown. */
    method ObterHistoricoStatus(limit: int, read: Store) returns (r: Result<seq<StatusRow>>)
      requires Valid()
      ensures read.Down? ==> r == Err(read.message)
      ensures read.Up? && limit < 0 ==> r == Err(BadLimitArguments)
      ensures read.Up? && limit >= 0 ==> r.Ok?
      ensures r.Ok? ==> var rows := db.statusRows; var h := r.value;
        && |h| == Min(limit, |rows|)
        && (forall i :: 0 <= i < |h| ==> h[i] == rows[|rows| - 1 - i])
        && (forall i, j :: 0 <= i < j < |h| ==> h[i].timestamp >= h[j].timestamp)
        && (forall i, j :: 0 <= i < |rows| - |h| && 0 <= j < |h| ==> rows[i].timestamp <= h[j].timestamp)
    {
      if read.Down? {
        return Err(read.message);
      }
      if limit < 0 {
        return Err(BadLimitArguments);
      }
      NewestStatusSpec(db.statusRows, limit);
      r := Ok(NewestStatus(db.statusRows, limit));
    }

    /** `obterStatusAtual()`: the newest row as `Boolean(online)`, or a probe when there is none. */
    method ObterStatusAtual(read: Store, reply: nat -> Reply, write: Store, fallbackWrite: Store, elapsed: nat, now: int)
      returns (r: Result<CurrentStatus>)
      requires Valid()
      modifies this, db
      ensures Valid()
      ensures old(Tracks()) ==> Tracks()
      ensures read.Down? ==> r == Err(read.message) && db.statusRows == old(db.statusRows) && lastStatus == old(lastStatus)
      ensures read.Up? && |old(db.statusRows)| > 0 ==> var newest := old(db.statusRows)[|old(db.statusRows)| - 1];
        && r == Ok(FromLog(Truthy(newest.online), newest.timestamp, newest.detalhes))
        && (forall i :: 0 <= i < |old(db.statusRows)| ==> old(db.statusRows)[i].timestamp <= newest.timestamp)
        && db.statusRows == old(db.statusRows) && lastStatus == old(lastStatus)
      ensures read.Up? && |old(db.statusRows)| == 0 ==>
        var o := FinalOutcome(DefaultPolicy, reply); var s := ProbeStep(old(lastStatus), o, write, fallbackWrite);
        && lastStatus == s.last
        && (s.row.None? ==> db.statusRows == old(db.statusRows))
        && (s.row.Some? ==> Appended(old(db.statusRows), db.statusRows, s.row.value.0, s.row.value.1))
        && (s.caught.None? ==> r == Ok(FromProbe(Checked(OnlineValue(o.status, o.data), now, o.data))))
        && (s.caught.Some? ==> r == Ok(FromProbe(CheckFailed(now, s.caught.value))))
      ensures db.nfes == old(db.nfes) && db.nextNfeId == old(db.nextNfeId)
      ensures intervalId == old(intervalId) && simulatedStatus == old(simulatedStatus) && timers == old(timers) && nextHandle == old(nextHandle)
    {
      if read.Down? {
        return Err(read.message);
      }
      if |db.statusRows| == 0 {
        var probe := VerificarStatusSefaz(reply, write, fallbackWrite, elapsed, now);
        return Ok(FromProbe(probe));
      }
      var newest := db.statusRows[|db.statusRows| - 1];
      r := Ok(FromLog(Truthy(newest.online), newest.timestamp, newest.detalhes));
    }

    /**
     * `obterNfesRejeitadas({ limit, offset })`: a page of the `REJEITADA` rows, newest
     * query first, their count, and the page arithmetic; `read` and `count` are the two
     * statements, and a failure of either is rethrown.
     */
    method ObterNfesRejeitadas(limit: int, offset: int, read: Store, count: Store)
      returns (r: Result<RejectedPage>, ghost selected: seq<NfeRow>)
      requires Valid()
      ensures read.Down? ==> r == Err(read.message)
      ensures read.Up? && (limit < 0 || offset < 0) ==> r == Err(BadLimitArguments)
      ensures read.Up? && limit >= 0 && offset >= 0 && count.Down? ==> r == Err(count.message)
      ensures r.Ok? <==> read.Up? && count.Up? && limit >= 0 && offset >= 0
      ensures r.Ok? ==> var p := r.value;
        && p.total == |SelectedKeys(db.nfes, true)|
        && |p.dados| == (if offset >= p.total then 0 else Min(limit, p.total - offset))
        && (forall i :: 0 <= i < |p.dados| ==> p.dados[i].chave in db.nfes && Summary(db.nfes[p.dados[i].chave]) == p.dados[i])
        && (forall i :: 0 <= i < |p.dados| ==> StrictEquals(p.dados[i].status, Str("REJEITADA")))
        && (forall i, j :: 0 <= i < j < |p.dados| ==> p.dados[i].dataConsulta >= p.dados[j].dataConsulta && p.dados[i].chave != p.dados[j].chave)
        && p.pagina == AddOne(FloorDiv(offset, limit))
        && p.totalPaginas == CeilDiv(p.total, limit)
      ensures r.Ok? ==>
        && limit >= 0 && offset >= 0
        && NewestFirstOf(db.nfes, true, selected)
        && r.value.dados == Summaries(Window(selected, offset, limit))
        && r.value.total == |selected|
    {
      selected := [];
      if read.Down? {
        r := Err(read.message);
        return;
      }
      if limit < 0 || offset < 0 {
        r := Err(BadLimitArguments);
        return;
      }
      var rows := db.SelectNewestFirst(true);
      selected := rows;
      var page := Window(rows, offset, limit);
      if count.Down? {
        r := Err(count.message);
        return;
      }
      var dados := Summaries(page);
      r := Ok(RejectedPage(dados, |rows|, AddOne(FloorDiv(offset, limit)), CeilDiv(|rows|, limit)));
    }
  }

  /** Toggling twice gives the simulated status back and, when both writes succeed, logs two rows. */
  method ToggleTwice(m: Monitor, elapsed: nat, now: int) returns (first: bool, second: bool)
    requires m.Valid()
    modifies m, m.db
    ensures m.Valid()
    ensures first == !old(m.simulatedStatus) && second == old(m.simulatedStatus) && m.simulatedStatus == old(m.simulatedStatus)
    ensures |m.db.statusRows| == |old(m.db.statusRows)| + 2
    ensures m.db.statusRows[|m.db.statusRows| - 2].online == Bool(first)
    ensures m.db.statusRows[|m.db.statusRows| - 1].online == Bool(second)
    ensures m.lastStatus == Bool(second) && m.Tracks()
  {
    first := m.ToggleSimulatedStatus(Up, elapsed, now);
    second := m.ToggleSimulatedStatus(Up, elapsed, now);
  }

  /** Starting the monitor twice keeps the first timer running: stopping clears only the second. */
  method RestartLeaksTimer(m: Monitor, reply: nat -> Reply, now: int)
    requires m.Valid() && m.intervalId.None?
    modifies m, m.db
    ensures m.Valid() && m.intervalId.None?
    ensures |m.timers| == |old(m.timers)| + 1
  {
    var _ := m.IniciarMonitoramento(reply, Up, Up, 0, now);
    ghost var firstTimer := m.intervalId.value;
    var _ := m.IniciarMonitoramento(reply, Up, Up, 0, now);
    var _ := m.PararMonitoramento();
    assert m.timers == old(m.timers) + {firstTimer};
  }
}
