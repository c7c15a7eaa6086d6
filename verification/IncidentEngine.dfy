/** M-of-N incident correlation, the incident lifecycle and crash recovery
    (edge/agent/incident/engine.go, edge/agent/storage/sqlite.go:1149-1638).
    The engine's mutex makes every call one atomic step. */
module IncidentEngine {
  import opened Common
  import opened ObservationWindow

  datatype Severity = Low | Medium | High | Critical

  datatype Status = Normal | AnomalyDetected | Mitigating | Recovered | Escalated

  /** A correlation stream. */
  datatype Key = Key(node: string, metric: string)

  datatype Incident = Incident(id: string, key: Key, severity: Severity, status: Status, triggerValue: real,
                               threshold: real, triggeredAt: Time, updatedAt: Time, resolvedAt: Option<Time>)

  /** `wellFormed` is the outcome of the field-by-field AnomalySignal.Validate. */
  datatype Signal = Signal(id: string, key: Key, at: Time, observed: real, expected: real, score: real,
                           wellFormed: bool)
  {
    function Observation(): Obs { Obs(id, at) }
  }

  /** In-memory state of one stream; `active` may hold an incident that has already RECOVERED. */
  datatype Stream = Stream(observations: seq<Obs>, seen: map<string, Time>, active: Option<Incident>)

  datatype StoredObs = StoredObs(key: Key, at: Time)

  /** The incident_records and incident_observations tables. */
  datatype Db = Db(incidents: map<string, Incident>, observations: map<string, StoredObs>)

  datatype World = World(streams: map<Key, Stream>, db: Db)

  datatype Config = Config(m: nat, n: nat, window: Time, overrides: map<string, Severity>, hasStore: bool) {
    predicate Valid() { 1 <= m <= n && 0 < window }
  }

  /** What a call takes from outside: the generated id (None: the generator failed) and which store
      operations fail. */
  datatype Env = Env(newId: Option<string>, hasFails: bool, persistFails: bool)

  datatype Error = InvalidSignal | StoreFailed | StaleSignal | IdFailed | InvalidIncident
                 | NoActiveIncident | InvalidTransition | IncidentNotFound

  type Reply = Result<Option<Incident>, Error>

  /** How a stream remembers its observations: the engine keeps a window; the reference keeps the full
      history since the last clear and counts over it. */
  datatype Memory = Windowed | FullHistory

  /** NewLocalEngine's defaults; None when M exceeds N. */
  function Configured(m: int, n: int, window: Time, overrides: map<string, Severity>,
          hasStore: bool): (r: Option<Config>)
    ensures r.Some? ==> r.value.Valid()
    ensures r.None? <==> (if m <= 0 then 2 else m) > (if n <= 0 then 3 else n)
    ensures r.Some? ==>
      && (m > 0 ==> r.value.m == m) && (m <= 0 ==> r.value.m == 2) && (n > 0 ==> r.value.n == n) && (n <= 0 ==> r.value.n == 3)
      && (window > 0 ==> r.value.window == window) && (window <= 0 ==> r.value.window == 300_000_000_000)
      && r.value.overrides == overrides && r.value.hasStore == hasStore
  {
    var m', n' := if m <= 0 then 2 else m, if n <= 0 then 3 else n;
    if m' > n' then None
    else Some(Config(m', n', if window <= 0 then 300_000_000_000 else window, overrides, hasStore))
  }

  predicate IsActive(s: Status) {
    s == AnomalyDetected || s == Mitigating || s == Escalated
  }

  predicate CanTransition(s: Status, next: Status) {
    match s
    case Normal => next == AnomalyDetected
    case AnomalyDetected => next == Mitigating || next == Escalated
    case Mitigating => next == Recovered || next == Escalated
    case Recovered => next == Normal
    case Escalated => next == Recovered || next == Normal
  }

  function TransitionTo(inc: Incident, next: Status, now: Time): Incident {
    inc.(status := next, updatedAt := now,
         resolvedAt := if next == Recovered || next == Normal then Some(now) else inc.resolvedAt)
  }

  function MapSeverity(score: real): Severity {
    if score >= 0.85 then Critical else if score >= 0.60 then High else if score >= 0.30 then Medium else Low
  }

  function SeverityOf(cfg: Config, sig: Signal): Severity {
    if sig.key.metric in cfg.overrides then cfg.overrides[sig.key.metric] else MapSeverity(sig.score)
  }

  function SeverityRank(s: Severity): int {
    match s case Low => 0 case Medium => 1 case High => 2 case Critical => 3
  }

  /** An override decides the severity of its metric whatever the score; otherwise a higher score never lowers it. */
  lemma SeverityFollowsScore(cfg: Config, a: Signal, b: Signal)
    requires a.key.metric == b.key.metric && a.score <= b.score
    ensures SeverityRank(SeverityOf(cfg, a)) <= SeverityRank(SeverityOf(cfg, b))
    ensures a.key.metric in cfg.overrides ==> SeverityOf(cfg, a) == SeverityOf(cfg, b) == cfg.overrides[a.key.metric]
  {
  }

  /** The parts of Incident.Validate that a generated incident can fail. */
  predicate ValidIncident(inc: Incident) {
    !Blank(inc.id) && (inc.resolvedAt.Some? ==> inc.resolvedAt.value >= inc.triggeredAt)
  }

  function StreamIn(streams: map<Key, Stream>, key: Key): Stream {
    if key in streams then streams[key] else Stream([], map[], None)
  }

  // ---- Store ---------------------------------------------------------------

  /** Insert, or update of the mutable columns of the row that holds the id. */
  function Upsert(rows: map<string, Incident>, inc: Incident): map<string, Incident> {
    rows[inc.id :=
      if inc.id in rows then
        rows[inc.id].(severity := inc.severity, status := inc.status, triggerValue := inc.triggerValue,
                      threshold := inc.threshold, updatedAt := inc.updatedAt, resolvedAt := inc.resolvedAt)
      else inc]
  }

  /** PersistIncidentEvaluation: one transaction. None: it failed and nothing was written. */
  function Persist(db: Db, sig: Signal, inc: Option<Incident>, fails: bool): Option<Db> {
    if fails || (inc.Some? && !ValidIncident(inc.value)) then None
    else Some(Db(if inc.Some? then Upsert(db.incidents, inc.value) else db.incidents,
                 db.observations[sig.id := StoredObs(sig.key, sig.at)]))
  }

  /** UpdateIncidentStatus */
  function UpdateStatus(db: Db, inc: Incident, fails: bool): Result<Db, Error> {
    if fails then Err(StoreFailed)
    else if inc.id !in db.incidents then Err(IncidentNotFound)
    else Ok(db.(incidents := db.incidents[inc.id := db.incidents[inc.id].(
              status := inc.status, updatedAt := inc.updatedAt, resolvedAt := inc.resolvedAt)]))
  }

  // ---- Specification of the calls -------------------------------------------

  predicate TooOld(mem: Memory, cfg: Config, s: seq<Obs>, o: Obs) {
    match mem
    case FullHistory => Stale(s, o, cfg.window)
    case Windowed => s != [] && o.at < Last(s).at - cfg.window
  }

  predicate Enough(mem: Memory, cfg: Config, s: seq<Obs>, o: Obs) {
    match mem
    case FullHistory => Correlated(s + [o], cfg.window) >= cfg.m
    case Windowed => Candidates(s, o, cfg.window) >= cfg.m
  }

  function Remember(mem: Memory, cfg: Config, s: seq<Obs>, o: Obs): seq<Obs> {
    match mem
    case FullHistory => s + [o]
    case Windowed => Insert(s, o, cfg.n, cfg.window)
  }

  /** A repeated breach correlates to the incident that is already active. */
  function Refreshed(inc: Incident, sig: Signal): Incident {
    inc.(updatedAt := sig.at, triggerValue := sig.observed)
  }

  function Created(cfg: Config, sig: Signal, id: string): Incident {
    Incident(id, sig.key, SeverityOf(cfg, sig), AnomalyDetected, sig.observed, sig.expected, sig.at, sig.at, None)
  }

  function Process(mem: Memory, cfg: Config, w: World, sig: Signal, env: Env): (World, Reply) {
    if !sig.wellFormed then (w, Err(InvalidSignal)) else
    var st := StreamIn(w.streams, sig.key);
    Correlate(mem, cfg, w.(streams := w.streams[sig.key := st]), st, sig, env)
  }

  /** Process once the stream exists. */
  function Correlate(mem: Memory, cfg: Config, w: World, st: Stream, sig: Signal, env: Env): (World, Reply) {
    if sig.id in st.seen then (w, Ok(st.active))
    else if cfg.hasStore && env.hasFails then (w, Err(StoreFailed))
    else if cfg.hasStore && sig.id in w.db.observations then
      (w.(streams := w.streams[sig.key := st.(seen := st.seen[sig.id := sig.at])]), Ok(st.active))
    else if TooOld(mem, cfg, st.observations, sig.Observation()) then (w, Err(StaleSignal))
    else if st.active.Some? && IsActive(st.active.value.status) then
      Accept(mem, cfg, w, st, sig, Some(Refreshed(st.active.value, sig)), env)
    else if !Enough(mem, cfg, st.observations, sig.Observation()) then Accept(mem, cfg, w, st, sig, None, env)
    else if env.newId.None? then (w, Err(IdFailed))
    else if !ValidIncident(Created(cfg, sig, env.newId.value)) then (w, Err(InvalidIncident))
    else Accept(mem, cfg, w, st, sig, Some(Created(cfg, sig, env.newId.value)), env)
  }

  /** Persists the observation with its incident, if any; only then does memory change. */
  function Accept(mem: Memory, cfg: Config, w: World, st: Stream, sig: Signal, inc: Option<Incident>,
          env: Env): (World, Reply) {
    var db := if cfg.hasStore then Persist(w.db, sig, inc, env.persistFails) else Some(w.db);
    if db.None? then (w, Err(StoreFailed))
    else
      var st' := Stream(Remember(mem, cfg, st.observations, sig.Observation()), st.seen[sig.id := sig.at],
                        if inc.Some? then inc else st.active);
      (World(w.streams[sig.key := st'], db.value), Ok(inc))
  }

  /** TransitionActiveIncident; ResolveIncident is the call with target RECOVERED. */
  function Transition(cfg: Config, w: World, key: Key, target: Status, now: Time, fails: bool): (World, Reply) {
    var st := StreamIn(w.streams, key);
    if st.active.None? then (w, Err(NoActiveIncident))
    else if !CanTransition(st.active.value.status, target) then (w, Err(InvalidTransition))
    else
      var inc := TransitionTo(st.active.value, target, now);
      var db := if cfg.hasStore then UpdateStatus(w.db, inc, fails) else Ok(w.db);
      if db.Err? then (w, Err(db.error))
      else
        var st' := st.(active := if target == Normal then None else Some(inc),
                       observations := if target == Normal || target == Recovered then [] else st.observations);
        (World(w.streams[key := st'], db.value), Ok(Some(inc)))
  }

  /** CloseActiveIncident: the incident in memory changes before the store is written. */
  function Close(cfg: Config, w: World, key: Key, now: Time, fails: bool): (World, Reply) {
    var st := StreamIn(w.streams, key);
    if st.active.None? then (w, Err(NoActiveIncident))
    else
      var canonical := CanTransition(st.active.value.status, Recovered);
      var inc := if canonical then TransitionTo(st.active.value, Recovered, now) else st.active.value.(updatedAt := now);
      var db := if canonical && cfg.hasStore then UpdateStatus(w.db, inc, fails) else Ok(w.db);
      if db.Err? then (w.(streams := w.streams[key := st.(active := Some(inc))]), Err(db.error))
      else (World(w.streams[key := st.(active := None, observations := [])], db.value), Ok(Some(inc)))
  }

  /** The incidents a query lists, restored in order. */
  function Restore(streams: map<Key, Stream>, listed: seq<Incident>): map<Key, Stream> {
    if listed == [] then streams
    else
      var s, inc := Restore(streams, listed[..|listed| - 1]), listed[|listed| - 1];
      s[inc.key := StreamIn(s, inc.key).(active := Some(inc))]
  }

  /** One row of ListAllRecentObservations. */
  datatype ObsRow = ObsRow(id: string, key: Key, at: Time)

  function Replay(cfg: Config, streams: map<Key, Stream>, rows: seq<ObsRow>): map<Key, Stream> {
    if rows == [] then streams
    else
      var s, r := Replay(cfg, streams, rows[..|rows| - 1]), rows[|rows| - 1];
      var st := StreamIn(s, r.key);
      s[r.key := st.(seen := st.seen[r.id := r.at],
                     observations := Insert(st.observations, Obs(r.id, r.at), cfg.n, cfg.window))]
  }

  /** RecoverFromStoreAt, given the rows its two queries return (None: the query failed). */
  function Recover(cfg: Config, w: World, listed: Option<seq<Incident>>, recent: Option<seq<ObsRow>>): World {
    if !cfg.hasStore || listed.None? then w
    else
      var s := Restore(w.streams, listed.value);
      w.(streams := if recent.None? then s else Replay(cfg, s, recent.value))
  }

  // ---- The engine agrees with the full history ------------------------------

  function ShrinkStream(cfg: Config, st: Stream): Stream {
    st.(observations := Window(st.observations, cfg.n, cfg.window))
  }

  /** The engine state that stands for a state of the reference. */
  function Shrink(cfg: Config, w: World): World {
    w.(streams := map k | k in w.streams :: ShrinkStream(cfg, w.streams[k]))
  }

  lemma ShrinkPut(cfg: Config, w: World, key: Key, st: Stream)
    requires cfg.Valid()
    ensures Shrink(cfg, w.(streams := w.streams[key := st])).streams
         == Shrink(cfg, w).streams[key := ShrinkStream(cfg, st)]
  {
  }

  lemma ShrinkIn(cfg: Config, w: World, key: Key)
    requires cfg.Valid()
    ensures StreamIn(Shrink(cfg, w).streams, key) == ShrinkStream(cfg, StreamIn(w.streams, key))
  {
  }

  lemma {:induction false} AcceptAgrees(cfg: Config, w: World, st: Stream, sig: Signal, inc: Option<Incident>, env: Env)
    requires cfg.Valid()
    ensures var (w', r) := Accept(FullHistory, cfg, w, st, sig, inc, env);
      Accept(Windowed, cfg, Shrink(cfg, w), ShrinkStream(cfg, st), sig, inc, env) == (Shrink(cfg, w'), r)
  {
    hide Window, Insert, Persist;
    var st' := Stream(st.observations + [sig.Observation()], st.seen[sig.id := sig.at], if inc.Some? then inc else st.active);
    WindowStep(st.observations, sig.Observation(), cfg.n, cfg.window);
    ShrinkPut(cfg, w, sig.key, st');
  }

  /** One Process call on the pruned and capped windows does exactly what it would do counting over the
      full history: same reply, and the new windows are the windows of the new history. */
  lemma {:induction false} ProcessAgrees(cfg: Config, w: World, sig: Signal, env: Env)
    requires cfg.Valid()
    ensures var (w', r) := Process(FullHistory, cfg, w, sig, env);
      Process(Windowed, cfg, Shrink(cfg, w), sig, env) == (Shrink(cfg, w'), r)
  {
    hide Window, Insert, Accept, Stale, Correlated, Candidates;
    var st := StreamIn(w.streams, sig.key);
    var w1 := w.(streams := w.streams[sig.key := st]);
    ShrinkIn(cfg, w, sig.key);
    ShrinkPut(cfg, w, sig.key, st);
    ShrinkPut(cfg, w1, sig.key, st.(seen := st.seen[sig.id := sig.at]));
    StalenessAgrees(st.observations, sig.Observation(), cfg.n, cfg.window);
    assert TooOld(FullHistory, cfg, st.observations, sig.Observation())
      <==> TooOld(Windowed, cfg, ShrinkStream(cfg, st).observations, sig.Observation());
    if !Stale(st.observations, sig.Observation(), cfg.window) {
      VerdictAgrees(st.observations, sig.Observation(), cfg.m, cfg.n, cfg.window);
      assert Enough(FullHistory, cfg, st.observations, sig.Observation())
        <==> Enough(Windowed, cfg, ShrinkStream(cfg, st).observations, sig.Observation());
    }
    if st.active.Some? { AcceptAgrees(cfg, w1, st, sig, Some(Refreshed(st.active.value, sig)), env); }
    AcceptAgrees(cfg, w1, st, sig, None, env);
    if env.newId.Some? { AcceptAgrees(cfg, w1, st, sig, Some(Created(cfg, sig, env.newId.value)), env); }
  }

  /** A call, with what it takes from outside. A restart is a fresh engine recovering from the store. */
  datatype Event =
    | SignalArrives(sig: Signal, env: Env)
    | TransitionAsked(key: Key, target: Status, now: Time, fails: bool)
    | CloseAsked(key: Key, now: Time, fails: bool)
    | Restart(listed: Option<seq<Incident>>, recent: Option<seq<ObsRow>>)

  function Step(mem: Memory, cfg: Config, w: World, e: Event): (World, Reply) {
    match e
    case SignalArrives(sig, env) => Process(mem, cfg, w, sig, env)
    case TransitionAsked(key, target, now, fails) => Transition(cfg, w, key, target, now, fails)
    case CloseAsked(key, now, fails) => Close(cfg, w, key, now, fails)
    case Restart(listed, recent) => (Recover(cfg, World(map[], w.db), listed, recent), Ok(None))
  }

  function Run(mem: Memory, cfg: Config, w: World, es: seq<Event>): (World, seq<Reply>) {
    if es == [] then (w, [])
    else
      var (w', rs) := Run(mem, cfg, w, es[..|es| - 1]);
      var (w'', r) := Step(mem, cfg, w', es[|es| - 1]);
      (w'', rs + [r])
  }

  lemma LifecycleAgrees(cfg: Config, w: World, e: Event)
    requires cfg.Valid() && (e.TransitionAsked? || e.CloseAsked?)
    ensures var (w', r) := Step(FullHistory, cfg, w, e);
      Step(Windowed, cfg, Shrink(cfg, w), e) == (Shrink(cfg, w'), r)
  {
    hide Window, UpdateStatus;
    var st := StreamIn(w.streams, e.key);
    ShrinkIn(cfg, w, e.key);
    assert Window([], cfg.n, cfg.window) == [] by { WindowOfNothing(cfg); }
    if st.active.Some? {
      if e.TransitionAsked? {
        var inc := TransitionTo(st.active.value, e.target, e.now);
        ShrinkPut(cfg, w, e.key, st.(active := if e.target == Normal then None else Some(inc),
          observations := if e.target == Normal || e.target == Recovered then [] else st.observations));
      } else {
        ShrinkPut(cfg, w, e.key, st.(active := None, observations := []));
        ShrinkPut(cfg, w, e.key, st.(active := Some(TransitionTo(st.active.value, Recovered, e.now))));
      }
    }
  }

  lemma WindowOfNothing(cfg: Config)
    ensures Window([], cfg.n, cfg.window) == []
  {
  }

  predicate NoRestart(es: seq<Event>) {
    forall i :: 0 <= i < |es| ==> !es[i].Restart?
  }

  /** In every run of a process, faults included, the engine gives the replies of the reference that keeps
      the full history of each stream, and its windows are the windows of that history. */
  lemma {:induction false} RunAgrees(cfg: Config, w: World, es: seq<Event>)
    requires cfg.Valid() && NoRestart(es)
    ensures var (w', rs) := Run(FullHistory, cfg, w, es);
      Run(Windowed, cfg, Shrink(cfg, w), es) == (Shrink(cfg, w'), rs)
  {
    if es != [] {
      hide Process, Transition, Close, Shrink;
      var e := es[|es| - 1];
      RunAgrees(cfg, w, es[..|es| - 1]);
      var w' := Run(FullHistory, cfg, w, es[..|es| - 1]).0;
      if e.SignalArrives? {
        ProcessAgrees(cfg, w', e.sig, e.env);
      } else {
        LifecycleAgrees(cfg, w', e);
      }
    }
  }

  /** In the reference, every remembered observation has its own id and is known as seen. */
  predicate DistinctHistory(st: Stream) {
    && (forall i :: 0 <= i < |st.observations| ==> st.observations[i].id in st.seen)
    && (forall i, j :: 0 <= i < j < |st.observations| ==> st.observations[i].id != st.observations[j].id)
  }

  predicate DistinctHistories(w: World) {
    forall k :: k in w.streams ==> DistinctHistory(w.streams[k])
  }

  lemma {:induction false} StepKeepsDistinct(cfg: Config, w: World, e: Event)
    requires DistinctHistories(w) && !e.Restart?
    ensures DistinctHistories(Step(FullHistory, cfg, w, e).0)
  {
    hide Persist, UpdateStatus, Correlated, Stale, Insert;
    if e.SignalArrives? {
      var st := StreamIn(w.streams, e.sig.key);
      assert DistinctHistory(st);
      if e.sig.id !in st.seen {
        AppendKeepsDistinct(st, e.sig, st.active);
        if st.active.Some? { AppendKeepsDistinct(st, e.sig, Some(Refreshed(st.active.value, e.sig))); }
        if e.env.newId.Some? { AppendKeepsDistinct(st, e.sig, Some(Created(cfg, e.sig, e.env.newId.value))); }
      }
    } else {
      assert DistinctHistory(StreamIn(w.streams, e.key));
    }
  }

  lemma AppendKeepsDistinct(st: Stream, sig: Signal, a: Option<Incident>)
    requires DistinctHistory(st) && sig.id !in st.seen
    ensures DistinctHistory(Stream(st.observations + [sig.Observation()], st.seen[sig.id := sig.at], a))
  {
  }

  lemma {:induction false} RunKeepsDistinct(cfg: Config, w: World, es: seq<Event>)
    requires DistinctHistories(w) && NoRestart(es)
    ensures DistinctHistories(Run(FullHistory, cfg, w, es).0)
  {
    if es != [] {
      RunKeepsDistinct(cfg, w, es[..|es| - 1]);
      StepKeepsDistinct(cfg, Run(FullHistory, cfg, w, es[..|es| - 1]).0, es[|es| - 1]);
    }
  }

  /** Nothing outside the correlation rule stands in the way of a new signal. */
  predicate Unimpeded(cfg: Config, w: World, sig: Signal, env: Env) {
    && sig.wellFormed && sig.id !in StreamIn(w.streams, sig.key).seen
    && (cfg.hasStore ==> sig.id !in w.db.observations && !env.hasFails && !env.persistFails)
    && env.newId.Some? && !Blank(env.newId.value)
  }

  /** The streams of a run of a new process over a store. */
  function Started(db: Db): World { World(map[], db) }

  /** `inc` is what the signal reports: the severity configured for its metric or else the one its score calls for,
      and the values and instants of the signal. */
  predicate Reports(cfg: Config, sig: Signal, id: string, inc: Incident) {
    && inc.id == id && inc.key == sig.key && inc.status == AnomalyDetected
    && inc.triggerValue == sig.observed && inc.threshold == sig.expected
    && inc.triggeredAt == sig.at && inc.updatedAt == sig.at && inc.resolvedAt == None
    && (sig.key.metric in cfg.overrides ==> inc.severity == cfg.overrides[sig.key.metric])
    && (sig.key.metric !in cfg.overrides ==>
         && (sig.score >= 0.85 ==> inc.severity == Critical)
         && (0.60 <= sig.score < 0.85 ==> inc.severity == High)
         && (0.30 <= sig.score < 0.60 ==> inc.severity == Medium)
         && (sig.score < 0.30 ==> inc.severity == Low))
  }

  /** The observation is known in memory and, with a store, in the store; so is the incident, if there is one. */
  predicate Kept(cfg: Config, before: World, after: World, sig: Signal, inc: Option<Incident>) {
    && StreamIn(after.streams, sig.key).seen == StreamIn(before.streams, sig.key).seen[sig.id := sig.at]
    && (!cfg.hasStore ==> after.db == before.db)
    && (cfg.hasStore ==> after.db.observations == before.db.observations[sig.id := StoredObs(sig.key, sig.at)])
    && (cfg.hasStore && inc.None? ==> after.db.incidents == before.db.incidents)
    && (cfg.hasStore && inc.Some? ==>
         && after.db.incidents.Keys == before.db.incidents.Keys + {inc.value.id}
         && (inc.value.id !in before.db.incidents ==> after.db.incidents[inc.value.id] == inc.value)
         && forall i :: i in before.db.incidents && i != inc.value.id ==> after.db.incidents[i] == before.db.incidents[i])
  }

  /** What the correlation rule demands of a call, in terms of the full history `h` of the stream: the signal
      is rejected as stale exactly when it predates the window of the latest of `h`; otherwise it is accepted and kept,
      and it creates an incident, with what the signal reports, exactly when at least M observations of `h`, itself
      included, lie within the window of the latest of them. */
  predicate Decides(cfg: Config, h: seq<Obs>, sig: Signal, id: string, before: World, w: World, r: Reply) {
    if Stale(h, sig.Observation(), cfg.window) then r == Err(StaleSignal)
    else
      && r.Ok? && (r.value.Some? <==> Correlated(h + [sig.Observation()], cfg.window) >= cfg.m)
      && (r.value.Some? ==> Reports(cfg, sig, id, r.value.value))
      && StreamIn(w.streams, sig.key).observations == Window(h + [sig.Observation()], cfg.n, cfg.window)
      && StreamIn(w.streams, sig.key).active == (if r.value.Some? then r.value else StreamIn(before.streams, sig.key).active)
      && Kept(cfg, before, w, sig, r.value)
  }

  predicate Idle(w: World, key: Key) {
    var a := StreamIn(w.streams, key).active;
    a.Some? ==> !IsActive(a.value.status)
  }

  lemma {:induction false} ReferenceDecides(cfg: Config, f: World, sig: Signal, env: Env)
    requires Unimpeded(cfg, f, sig, env) && Idle(f, sig.key)
    ensures var h := StreamIn(f.streams, sig.key).observations;
      var (w, r) := Process(FullHistory, cfg, f, sig, env);
      if Stale(h, sig.Observation(), cfg.window) then r == Err(StaleSignal)
      else
        && r.Ok? && (r.value.Some? <==> Correlated(h + [sig.Observation()], cfg.window) >= cfg.m)
        && (r.value.Some? ==> Reports(cfg, sig, env.newId.value, r.value.value))
        && StreamIn(w.streams, sig.key).observations == h + [sig.Observation()]
        && StreamIn(w.streams, sig.key).active == (if r.value.Some? then r.value else StreamIn(f.streams, sig.key).active)
        && Kept(cfg, f, w, sig, r.value)
  {
    hide Correlated, Stale;
  }

  /** What is kept does not depend on how the observations are remembered. */
  lemma ShrinkKeeps(cfg: Config, f: World, w: World, sig: Signal, inc: Option<Incident>)
    requires cfg.Valid() && Kept(cfg, f, w, sig, inc)
    ensures Kept(cfg, Shrink(cfg, f), Shrink(cfg, w), sig, inc)
  {
    hide Window;
    ShrinkIn(cfg, f, sig.key);
    ShrinkIn(cfg, w, sig.key);
  }

  lemma {:induction false} CallDecides(cfg: Config, f: World, sig: Signal, env: Env)
    requires cfg.Valid() && Unimpeded(cfg, f, sig, env) && Idle(f, sig.key)
    ensures var (w, r) := Process(Windowed, cfg, Shrink(cfg, f), sig, env);
      Decides(cfg, StreamIn(f.streams, sig.key).observations, sig, env.newId.value, Shrink(cfg, f), w, r)
  {
    hide Window, Correlated, Stale, Shrink, Process, StreamIn, Kept, Reports;
    var (w, r) := Process(FullHistory, cfg, f, sig, env);
    ProcessAgrees(cfg, f, sig, env);
    ReferenceDecides(cfg, f, sig, env);
    ShrinkIn(cfg, w, sig.key);
    ShrinkIn(cfg, f, sig.key);
    if r.Ok? { ShrinkKeeps(cfg, f, w, sig, r.value); }
  }

  /** After any run of a process, with `w` its state and `f` the state of the reference: a new signal on a stream
      without an active incident is decided by the distinct observations accepted since the stream's last clear,
      whatever the order they arrived in. */
  lemma {:induction false} CreatesIncidentIffCorrelated(cfg: Config, db: Db, es: seq<Event>, sig: Signal, env: Env,
                                                        f: World, w: World)
    requires cfg.Valid() && NoRestart(es)
    requires f == Run(FullHistory, cfg, Started(db), es).0 && w == Run(Windowed, cfg, Started(db), es).0
    requires Unimpeded(cfg, w, sig, env) && Idle(w, sig.key)
    ensures DistinctHistory(StreamIn(f.streams, sig.key))
    ensures Decides(cfg, StreamIn(f.streams, sig.key).observations, sig, env.newId.value, w,
                    Process(Windowed, cfg, w, sig, env).0, Process(Windowed, cfg, w, sig, env).1)
  {
    hide Run, Process, Decides, Window;
    assert Shrink(cfg, Started(db)) == Started(db);
    RunAgrees(cfg, Started(db), es);
    RunKeepsDistinct(cfg, Started(db), es);
    ShrinkIn(cfg, f, sig.key);
    CallDecides(cfg, f, sig, env);
  }

  /** The observations, by index, that no observation has left behind by more than the window. */
  function InWindow(h: seq<Obs>, window: Time): set<int> {
    set i | 0 <= i < |h| && (forall j :: 0 <= j < |h| ==> h[j].at - window <= h[i].at)
  }

  function IndicesSince(h: seq<Obs>, cutoff: Time): set<int> {
    set i | 0 <= i < |h| && h[i].at >= cutoff
  }

  /** The correlation rule counts the observations within the window of all of the history. */
  lemma {:induction false} CorrelatedIs(h: seq<Obs>, window: Time)
    requires h != []
    ensures Correlated(h, window) == |InWindow(h, window)|
  {
    CountIsIndices(h, LatestAt(h) - window);
    LatestIsLast(h);
    assert InWindow(h, window) == IndicesSince(h, LatestAt(h) - window);
  }

  lemma {:induction false} CountIsIndices(h: seq<Obs>, cutoff: Time)
    ensures CountSince(h, cutoff) == |IndicesSince(h, cutoff)|
  {
    if h == [] {
      assert IndicesSince(h, cutoff) == {};
    } else {
      CountIsIndices(Front(h), cutoff);
      assert IndicesSince(h, cutoff) == IndicesSince(Front(h), cutoff) + if Last(h).at >= cutoff then {|h| - 1} else {};
    }
  }

  lemma {:induction false} LatestIsLast(h: seq<Obs>)
    requires h != []
    ensures forall i :: 0 <= i < |h| ==> h[i].at <= LatestAt(h)
    ensures exists i :: 0 <= i < |h| && h[i].at == LatestAt(h)
  {
    if |h| == 1 {
      assert h[0].at == LatestAt(h);
    } else {
      LatestIsLast(Front(h));
      var i :| 0 <= i < |Front(h)| && Front(h)[i].at == LatestAt(Front(h));
      assert h[i] == Front(h)[i];
      assert h[|h| - 1] == Last(h);
    }
  }

  /** A signal is stale exactly when it predates the window of some observation. */
  lemma StaleIff(h: seq<Obs>, o: Obs, window: Time)
    ensures Stale(h, o, window) <==> exists i :: 0 <= i < |h| && o.at < h[i].at - window
  {
    if h != [] { LatestIsLast(h); }
  }

  // ---- What the other calls decide ------------------------------------------------

  /** The stream as it was before a call created it. */
  ghost predicate SameStreams(w: World, w': World) {
    forall k :: StreamIn(w'.streams, k) == StreamIn(w.streams, k)
  }

  /** A signal that is not well formed, a fault, a stale signal and an id that cannot be used change nothing. */
  lemma {:induction false} RefusedChangesNothing(mem: Memory, cfg: Config, w: World, sig: Signal, env: Env)
    requires Process(mem, cfg, w, sig, env).1.Err?
    ensures var (w', r) := Process(mem, cfg, w, sig, env);
      && w'.db == w.db && SameStreams(w, w')
      && (r == Err(InvalidSignal) <==> !sig.wellFormed)
      && (r == Err(StaleSignal) ==> TooOld(mem, cfg, StreamIn(w.streams, sig.key).observations, sig.Observation()))
      && (r == Err(IdFailed) ==> env.newId.None?)
      && (r == Err(InvalidIncident) ==> env.newId.Some? && Blank(env.newId.value))
      && (r == Err(StoreFailed) ==> cfg.hasStore)
      && r.error in {InvalidSignal, StaleSignal, IdFailed, InvalidIncident, StoreFailed}
  {
    hide TooOld, Enough, Remember;
  }

  /** A known signal is answered with the stream's incident and not counted again; one known only to the store is
      remembered. */
  lemma KnownIsNotCounted(mem: Memory, cfg: Config, w: World, sig: Signal, env: Env)
    requires sig.wellFormed
    requires sig.id in StreamIn(w.streams, sig.key).seen || (cfg.hasStore && !env.hasFails && sig.id in w.db.observations)
    ensures var st := StreamIn(w.streams, sig.key);
      var (w', r) := Process(mem, cfg, w, sig, env);
      && r == Ok(st.active) && w'.db == w.db
      && StreamIn(w'.streams, sig.key) == st.(seen := if sig.id in st.seen then st.seen else st.seen[sig.id := sig.at])
  {
    hide TooOld, Enough, Remember;
  }

  /** A fault of the idempotency check, and one of the transaction, are reported. */
  lemma FaultsAreReported(mem: Memory, cfg: Config, w: World, sig: Signal, env: Env)
    requires cfg.hasStore && sig.wellFormed && sig.id !in StreamIn(w.streams, sig.key).seen
    ensures env.hasFails ==> Process(mem, cfg, w, sig, env).1 == Err(StoreFailed)
    ensures !env.hasFails && sig.id !in w.db.observations && env.persistFails ==> Process(mem, cfg, w, sig, env).1.Err?
  {
    hide TooOld, Enough, Remember, ValidIncident;
  }

  /** On a stream with an active incident a new signal in time correlates to it: the incident takes the signal's instant
      and value and nothing else, in memory and in its row, and no other incident changes. */
  lemma {:induction false} ActiveCorrelates(mem: Memory, cfg: Config, w: World, sig: Signal, env: Env, a: Incident)
    requires Unimpeded(cfg, w, sig, env) && StreamIn(w.streams, sig.key).active == Some(a)
    requires a.status == AnomalyDetected || a.status == Mitigating || a.status == Escalated
    requires !TooOld(mem, cfg, StreamIn(w.streams, sig.key).observations, sig.Observation())
    requires !Blank(a.id) && (a.resolvedAt.Some? ==> a.resolvedAt.value >= a.triggeredAt)
    ensures var (w', r) := Process(mem, cfg, w, sig, env);
      var b := a.(updatedAt := sig.at, triggerValue := sig.observed);
      && r == Ok(Some(b)) && StreamIn(w'.streams, sig.key).active == Some(b) && Kept(cfg, w, w', sig, Some(b))
      && (cfg.hasStore && a.id in w.db.incidents && w.db.incidents[a.id] == a ==> w'.db.incidents[a.id] == b)
      && StreamIn(w'.streams, sig.key).observations
         == Remember(mem, cfg, StreamIn(w.streams, sig.key).observations, sig.Observation())
  {
    hide TooOld, Enough, Remember;
  }

  /** The lifecycle: from detection to mitigation or escalation, from mitigation to recovery or escalation, from
      escalation to recovery or back to normal, and from recovery back to normal. */
  const LIFECYCLE: set<(Status, Status)> :=
    {(Normal, AnomalyDetected), (AnomalyDetected, Mitigating), (AnomalyDetected, Escalated), (Mitigating, Recovered),
     (Mitigating, Escalated), (Recovered, Normal), (Escalated, Recovered), (Escalated, Normal)}

  /** The incident after a change of status at `now`: recovered and normal ones are resolved. */
  predicate Moved(a: Incident, b: Incident, target: Status, now: Time) {
    && b.status == target && b.updatedAt == now
    && b.resolvedAt == (if target == Recovered || target == Normal then Some(now) else a.resolvedAt)
    && b == a.(status := b.status, updatedAt := b.updatedAt, resolvedAt := b.resolvedAt)
  }

  /** The store's row of the incident, and no other, takes its status and instants. */
  predicate RowFollows(before: Db, after: Db, inc: Incident) {
    && after.observations == before.observations && inc.id in before.incidents
    && after.incidents == before.incidents[inc.id := before.incidents[inc.id].(
         status := inc.status, updatedAt := inc.updatedAt, resolvedAt := inc.resolvedAt)]
  }

  /** A transition succeeds exactly on an incident of the stream, along the lifecycle, when its row is there and can be
      written; recovery clears the observations, and a return to normal also drops the incident. */
  lemma {:induction false} TransitionDecides(cfg: Config, w: World, key: Key, target: Status, now: Time, fails: bool)
    ensures var st := StreamIn(w.streams, key);
      var (w', r) := Transition(cfg, w, key, target, now, fails);
      && (r == Err(NoActiveIncident) <==> st.active.None?)
      && (r == Err(InvalidTransition) <==> st.active.Some? && (st.active.value.status, target) !in LIFECYCLE)
      && (r.Ok? <==> st.active.Some? && (st.active.value.status, target) in LIFECYCLE
                     && (cfg.hasStore ==> !fails && st.active.value.id in w.db.incidents))
      && (r.Err? ==> w' == w)
      && (r.Ok? ==>
           && r.value.Some? && Moved(st.active.value, r.value.value, target, now)
           && (if cfg.hasStore then RowFollows(w.db, w'.db, r.value.value) else w'.db == w.db)
           && w'.streams == w.streams[key := st.(active := if target == Normal then None else r.value,
                observations := if target == Normal || target == Recovered then [] else st.observations)])
  {
  }

  /** A close recovers an incident that may recover and drops it from memory with its observations; any other incident
      is only dropped. When the row cannot be written the incident stays in memory, already RECOVERED. */
  lemma {:induction false} CloseDecides(cfg: Config, w: World, key: Key, now: Time, fails: bool)
    ensures var st := StreamIn(w.streams, key);
      var (w', r) := Close(cfg, w, key, now, fails);
      && (st.active.None? ==> r == Err(NoActiveIncident) && w' == w)
      && (st.active.Some? ==>
           var a := st.active.value;
           var recovers := a.status == Mitigating || a.status == Escalated;
           && (r.Ok? <==> !recovers || (cfg.hasStore ==> !fails && a.id in w.db.incidents))
           && (r.Ok? ==>
                && r.value.Some? && w'.streams == w.streams[key := st.(active := None, observations := [])]
                && (if recovers then Moved(a, r.value.value, Recovered, now) else r.value.value == a.(updatedAt := now))
                && (if recovers && cfg.hasStore then RowFollows(w.db, w'.db, r.value.value) else w'.db == w.db))
           && (r.Err? ==>
                && w'.db == w.db
                && exists b :: Moved(a, b, Recovered, now) && w'.streams == w.streams[key := st.(active := Some(b))]))
  {
    var st := StreamIn(w.streams, key);
    if st.active.Some? { assert Moved(st.active.value, TransitionTo(st.active.value, Recovered, now), Recovered, now); }
  }

  /** The observations a query lists for one stream, oldest first or not. */
  function RowsOf(rows: seq<ObsRow>, key: Key): seq<Obs> {
    if rows == [] then []
    else
      var r := rows[|rows| - 1];
      RowsOf(rows[..|rows| - 1], key) + if r.key == key then [Obs(r.id, r.at)] else []
  }

  /** A recovery rebuilds, on a stream that had no observations, the window of the listed ones, and knows them all
      again. */
  lemma {:induction false} ReplayRebuilds(cfg: Config, streams: map<Key, Stream>, rows: seq<ObsRow>, key: Key)
    requires cfg.Valid() && StreamIn(streams, key).observations == []
    ensures var st := StreamIn(Replay(cfg, streams, rows), key);
      && st.observations == Window(RowsOf(rows, key), cfg.n, cfg.window)
      && st.active == StreamIn(streams, key).active
      && forall i :: 0 <= i < |rows| && rows[i].key == key ==> rows[i].id in st.seen
  {
    hide Window, Insert;
    if rows == [] {
      WindowOfNothing(cfg);
    } else {
      var front, r := rows[..|rows| - 1], rows[|rows| - 1];
      ReplayRebuilds(cfg, streams, front, key);
      if r.key == key {
        WindowStep(RowsOf(front, key), Obs(r.id, r.at), cfg.n, cfg.window);
      } else {
        assert RowsOf(rows, key) == RowsOf(front, key);
      }
    }
  }

  // ---- Idempotence, isolation, persistence of an incident -------------------------

  /** Processing a signal that was accepted, or one seen before, changes nothing and creates nothing. */
  lemma {:induction false} RedeliveryChangesNothing(cfg: Config, w: World, sig: Signal, env: Env, again: Env)
    requires Process(Windowed, cfg, w, sig, env).1.Ok?
    ensures var w' := Process(Windowed, cfg, w, sig, env).0;
      Process(Windowed, cfg, w', sig, again) == (w', Ok(StreamIn(w'.streams, sig.key).active))
  {
    hide Insert, Persist, Candidates, ValidIncident;
    var w' := Process(Windowed, cfg, w, sig, env).0;
    assert sig.key in w'.streams && sig.id in w'.streams[sig.key].seen;
    assert w'.streams == w'.streams[sig.key := w'.streams[sig.key]];
  }

  function KeyOf(e: Event): Option<Key> {
    match e
    case SignalArrives(sig, _) => Some(sig.key)
    case TransitionAsked(key, _, _, _) => Some(key)
    case CloseAsked(key, _, _) => Some(key)
    case Restart(_, _) => None
  }

  /** A call touches no stream but its own. */
  lemma StreamsAreIsolated(mem: Memory, cfg: Config, w: World, e: Event, k: Key)
    requires !e.Restart? && KeyOf(e) != Some(k)
    ensures StreamIn(Step(mem, cfg, w, e).0.streams, k) == StreamIn(w.streams, k)
  {
    hide Remember, Persist, UpdateStatus, TooOld, Enough, ValidIncident;
  }

  /** The same incident, whatever was observed since. */
  predicate SameIncident(a: Incident, b: Incident) {
    b == a.(updatedAt := b.updatedAt, triggerValue := b.triggerValue)
  }

  predicate NoLifecycle(es: seq<Event>, k: Key) {
    forall i :: 0 <= i < |es| ==> !es[i].Restart? && (es[i].TransitionAsked? || es[i].CloseAsked? ==> es[i].key != k)
  }

  /** While a stream has an active incident, signals never replace it: without a lifecycle call on the stream
      every run keeps its id, severity, status, threshold and trigger time. */
  lemma {:induction false} ActiveIncidentPersists(mem: Memory, cfg: Config, w: World, es: seq<Event>, k: Key)
    requires ActiveOn(w, k).Some? && NoLifecycle(es, k)
    ensures var a := ActiveOn(Run(mem, cfg, w, es).0, k);
      a.Some? && SameIncident(ActiveOn(w, k).value, a.value)
  {
    if es != [] {
      var front, e := es[..|es| - 1], es[|es| - 1];
      ActiveIncidentPersists(mem, cfg, w, front, k);
      var w' := Run(mem, cfg, w, front).0;
      if KeyOf(e) != Some(k) {
        StreamsAreIsolated(mem, cfg, w', e, k);
      } else {
        SignalKeepsIncident(mem, cfg, w', e.sig, e.env);
      }
      hide Step;
    }
  }

  lemma SignalKeepsIncident(mem: Memory, cfg: Config, w: World, sig: Signal, env: Env)
    requires ActiveOn(w, sig.key).Some?
    ensures var a := ActiveOn(Process(mem, cfg, w, sig, env).0, sig.key);
      a.Some? && SameIncident(ActiveOn(w, sig.key).value, a.value)
  {
    hide Remember, Persist, TooOld, Enough, ValidIncident;
  }

  // ---- Crash recovery -------------------------------------------------------

  predicate ActiveRow(db: Db, inc: Incident) {
    inc.id in db.incidents && db.incidents[inc.id] == inc && IsActive(inc.status)
  }

  /** Rows carry their primary key. */
  predicate Keyed(db: Db) {
    forall id :: id in db.incidents ==> db.incidents[id].id == id
  }

  /** Every incident in memory is the stored row of that stream. */
  predicate MemoryStored(w: World) {
    forall k :: k in w.streams && w.streams[k].active.Some? ==>
      var inc := w.streams[k].active.value;
      inc.key == k && inc.id in w.db.incidents && w.db.incidents[inc.id] == inc
  }

  /** Every active stored row is in memory on its stream. */
  predicate ActiveRemembered(w: World) {
    forall id :: id in w.db.incidents && IsActive(w.db.incidents[id].status) ==>
      StreamIn(w.streams, w.db.incidents[id].key).active == Some(w.db.incidents[id])
  }

  predicate Synced(w: World) {
    Keyed(w.db) && MemoryStored(w) && ActiveRemembered(w)
  }

  /** GetActiveIncident */
  function ActiveOn(w: World, k: Key): Option<Incident> {
    var a := StreamIn(w.streams, k).active;
    if a.Some? && IsActive(a.value.status) then a else None
  }

  /** What ListActiveIncidents may return: the active rows, in any order. */
  ghost predicate ListsActive(db: Db, listed: seq<Incident>) {
    forall inc :: inc in listed <==> ActiveRow(db, inc)
  }

  /** Ids the generator may return: the engine relies on UUIDs not repeating. */
  predicate FreshId(w: World, e: Event) {
    e.SignalArrives? && e.env.newId.Some? ==> e.env.newId.value !in w.db.incidents
  }

  /** The closes that leave memory and store in step: neither one that drops an incident from memory only,
      nor one whose write fails after memory changed. */
  predicate CloseStores(w: World, key: Key, fails: bool) {
    var a := StreamIn(w.streams, key).active;
    a.Some? ==> a.value.status != AnomalyDetected && (a.value.status in {Mitigating, Escalated} ==> !fails)
  }

  ghost predicate Orderly(w: World, e: Event) {
    && FreshId(w, e)
    && (e.CloseAsked? ==> CloseStores(w, e.key, e.fails))
    && (e.Restart? ==> e.listed.Some? && ListsActive(w.db, e.listed.value))
  }

  lemma AcceptKeepsSynced(mem: Memory, cfg: Config, w: World, st: Stream, sig: Signal, inc: Option<Incident>, env: Env)
    requires Synced(w) && cfg.hasStore && sig.key in w.streams && w.streams[sig.key] == st
    requires inc.Some? ==> inc.value.key == sig.key
    requires inc.Some? ==>
      if st.active.Some? && IsActive(st.active.value.status) then inc == Some(Refreshed(st.active.value, sig))
      else inc.value.id !in w.db.incidents
    ensures Synced(Accept(mem, cfg, w, st, sig, inc, env).0)
  {
    hide Remember, ValidIncident;
  }

  lemma {:induction false} ProcessKeepsSynced(mem: Memory, cfg: Config, w: World, sig: Signal, env: Env)
    requires Synced(w) && cfg.hasStore && FreshId(w, SignalArrives(sig, env))
    ensures Synced(Process(mem, cfg, w, sig, env).0)
  {
    hide Accept, ValidIncident, TooOld, Enough;
    var st := StreamIn(w.streams, sig.key);
    var w1 := w.(streams := w.streams[sig.key := st]);
    assert Synced(w1);
    assert Synced(w1.(streams := w1.streams[sig.key := st.(seen := st.seen[sig.id := sig.at])]));
    if st.active.Some? && IsActive(st.active.value.status) {
      AcceptKeepsSynced(mem, cfg, w1, st, sig, Some(Refreshed(st.active.value, sig)), env);
    } else {
      AcceptKeepsSynced(mem, cfg, w1, st, sig, None, env);
      if env.newId.Some? { AcceptKeepsSynced(mem, cfg, w1, st, sig, Some(Created(cfg, sig, env.newId.value)), env); }
    }
  }

  lemma TransitionKeepsSynced(cfg: Config, w: World, key: Key, target: Status, now: Time, fails: bool)
    requires Synced(w) && cfg.hasStore
    ensures Synced(Transition(cfg, w, key, target, now, fails).0)
  {
  }

  /** Closing keeps memory and store in step exactly when it does not drop an unresolved incident from
      memory alone and no store write fails half way. */
  lemma CloseKeepsSyncedIff(cfg: Config, w: World, key: Key, now: Time, fails: bool)
    requires Synced(w) && cfg.hasStore
    ensures Synced(Close(cfg, w, key, now, fails).0) <==> CloseStores(w, key, fails)
  {
    var st := StreamIn(w.streams, key);
    if st.active.Some? {
      var inc := st.active.value;
      assert inc.id in w.db.incidents && w.db.incidents[inc.id] == inc;
      assert inc.id in Close(cfg, w, key, now, fails).0.db.incidents;
    }
  }

  /** One ANOMALY_DETECTED incident, in memory and in the store, is closed: the call succeeds, memory forgets it,
      and a fresh engine that recovers from the store has it active again. */
  lemma {:induction false} ClosedAnomalyComesBack(cfg: Config, now: Time)
    requires cfg.hasStore
    ensures var k := Key("n", "cpu");
      var inc := Incident("i", k, High, AnomalyDetected, 1.0, 0.5, 0, 0, None);
      var w := World(map[k := Stream([], map[], Some(inc))], Db(map["i" := inc], map[]));
      var (w', r) := Close(cfg, w, k, now, false);
      && Synced(w) && r == Ok(Some(inc.(updatedAt := now))) && !Synced(w') && ListsActive(w'.db, [inc])
      && ActiveOn(w', k) == None && ActiveOn(Recover(cfg, Started(w'.db), Some([inc]), None), k) == Some(inc)
  {
    var k := Key("n", "cpu");
    var inc := Incident("i", k, High, AnomalyDetected, 1.0, 0.5, 0, 0, None);
    var w := World(map[k := Stream([], map[], Some(inc))], Db(map["i" := inc], map[]));
    assert Synced(w);
    CloseKeepsSyncedIff(cfg, w, k, now, false);
    assert [inc][..0] == [];
    assert Restore(map[], [inc][..0]) == map[];
    assert Restore(map[], [inc]) == map[k := Stream([], map[], Some(inc))];
  }

  lemma {:induction false} RestoreActive(streams: map<Key, Stream>, listed: seq<Incident>, k: Key)
    requires forall i, j :: 0 <= i < |listed| && 0 <= j < |listed| && listed[i].key == listed[j].key ==> listed[i] == listed[j]
    ensures forall inc :: inc in listed && inc.key == k ==> StreamIn(Restore(streams, listed), k).active == Some(inc)
    ensures (forall inc :: inc in listed ==> inc.key != k) ==>
      StreamIn(Restore(streams, listed), k) == StreamIn(streams, k)
  {
    if listed != [] {
      var front, inc := listed[..|listed| - 1], listed[|listed| - 1];
      RestoreActive(streams, front, k);
      assert listed == front + [inc];
    }
  }

  lemma {:induction false} ReplayKeepsActive(cfg: Config, streams: map<Key, Stream>, rows: seq<ObsRow>, k: Key)
    ensures StreamIn(Replay(cfg, streams, rows), k).active == StreamIn(streams, k).active
  {
    if rows != [] {
      hide Insert;
      ReplayKeepsActive(cfg, streams, rows[..|rows| - 1], k);
      ReplayKeepsActive(cfg, streams, rows[..|rows| - 1], rows[|rows| - 1].key);
    }
  }

  /** The store never holds two active incidents for one stream. */
  lemma OneActiveRow(w: World, a: Incident, b: Incident)
    requires Synced(w) && ActiveRow(w.db, a) && ActiveRow(w.db, b) && a.key == b.key
    ensures a == b
  {
  }

  /** A fresh engine that recovers from the store has, on every stream, exactly the active incident the old
      engine had. */
  lemma {:induction false} RecoveryAgrees(cfg: Config, w: World, listed: seq<Incident>, recent: Option<seq<ObsRow>>)
    requires Synced(w) && cfg.hasStore && ListsActive(w.db, listed)
    ensures var w' := Recover(cfg, Started(w.db), Some(listed), recent);
      w'.db == w.db && Synced(w') && forall k :: ActiveOn(w', k) == ActiveOn(w, k)
  {
    hide Restore, Replay;
    var w' := Recover(cfg, Started(w.db), Some(listed), recent);
    forall i, j | 0 <= i < |listed| && 0 <= j < |listed| && listed[i].key == listed[j].key
      ensures listed[i] == listed[j]
    {
      assert listed[i] in listed && listed[j] in listed;
      OneActiveRow(w, listed[i], listed[j]);
    }
    forall k ensures StreamIn(w'.streams, k).active == ActiveOn(w, k) {
      RestoreActive(map[], listed, k);
      if recent.Some? { ReplayKeepsActive(cfg, Restore(map[], listed), recent.value, k); }
      var a := ActiveOn(w, k);
      if a.Some? {
        assert ActiveRow(w.db, a.value);
      } else {
        forall inc | inc in listed ensures inc.key != k { assert ActiveRow(w.db, inc); }
      }
    }
    forall id | id in w.db.incidents && IsActive(w.db.incidents[id].status)
      ensures StreamIn(w'.streams, w.db.incidents[id].key).active == Some(w.db.incidents[id])
    {
      assert ActiveOn(w, w.db.incidents[id].key) == Some(w.db.incidents[id]);
    }
    forall k | k in w'.streams && w'.streams[k].active.Some?
      ensures var inc := w'.streams[k].active.value;
        inc.key == k && inc.id in w.db.incidents && w.db.incidents[inc.id] == inc
    {
      assert StreamIn(w'.streams, k).active == ActiveOn(w, k);
    }
  }

  ghost predicate OrderlyRun(mem: Memory, cfg: Config, w: World, es: seq<Event>) {
    forall i :: 0 <= i < |es| ==> Orderly(Run(mem, cfg, w, es[..i]).0, es[i])
  }

  lemma {:induction false} StepKeepsSynced(mem: Memory, cfg: Config, w: World, e: Event)
    requires Synced(w) && cfg.hasStore && Orderly(w, e)
    ensures Synced(Step(mem, cfg, w, e).0)
  {
    hide Process, Transition, Close, Recover, Synced, FreshId;
    match e
    case SignalArrives(sig, env) => ProcessKeepsSynced(mem, cfg, w, sig, env);
    case TransitionAsked(key, target, now, fails) => TransitionKeepsSynced(cfg, w, key, target, now, fails);
    case CloseAsked(key, now, fails) => CloseKeepsSyncedIff(cfg, w, key, now, fails);
    case Restart(listed, recent) => RecoveryAgrees(cfg, w, listed.value, recent);
  }

  /** In every orderly run, store faults and restarts included, memory and store stay in step; so at any
      point a crash and recovery would lose and invent no active incident. */
  lemma {:induction false} RunKeepsSynced(mem: Memory, cfg: Config, w: World, es: seq<Event>)
    requires Synced(w) && cfg.hasStore && OrderlyRun(mem, cfg, w, es)
    ensures Synced(Run(mem, cfg, w, es).0)
  {
    hide Synced, Step, Orderly;
    if es != [] {
      var front := es[..|es| - 1];
      forall i | 0 <= i < |front| ensures Orderly(Run(mem, cfg, w, front[..i]).0, front[i]) {
        assert front[..i] == es[..i];
      }
      RunKeepsSynced(mem, cfg, w, front);
      StepKeepsSynced(mem, cfg, Run(mem, cfg, w, front).0, es[|es| - 1]);
    }
  }

  /** After any orderly run from an empty store, recovery agrees with memory. */
  lemma {:induction false} RecoveryAfterRunAgrees(cfg: Config, es: seq<Event>, listed: seq<Incident>,
          recent: Option<seq<ObsRow>>)
    requires cfg.hasStore && OrderlyRun(Windowed, cfg, Started(Db(map[], map[])), es)
    requires ListsActive(Run(Windowed, cfg, Started(Db(map[], map[])), es).0.db, listed)
    ensures var w := Run(Windowed, cfg, Started(Db(map[], map[])), es).0;
      var w' := Recover(cfg, Started(w.db), Some(listed), recent);
      && (forall k :: ActiveOn(w', k) == ActiveOn(w, k))
      && (forall a, b :: ActiveRow(w.db, a) && ActiveRow(w.db, b) && a.key == b.key ==> a == b)
  {
    var w := Run(Windowed, cfg, Started(Db(map[], map[])), es).0;
    RunKeepsSynced(Windowed, cfg, Started(Db(map[], map[])), es);
    RecoveryAgrees(cfg, w, listed, recent);
  }
}
