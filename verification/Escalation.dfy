/** The escalation engine: failure window, retry budget, cooldown and circuit breaker
    (edge/agent/escalation/engine.go). The engine's mutex makes every call one atomic step. */
module Escalation {
  import opened Common

  datatype Class =
    | MitigationFailed | VerificationTimedOut | VerificationRejected | UnknownReconciliation
    | CooldownActive | RetryBudgetExhausted | CircuitBreakerOpen | Unrecognized(name: string)

  datatype EscalationStatus = Pending | Escalated | Resolved

  datatype Key = Key(node: string, incident: string)

  datatype Request = Request(incident: string, node: string, action: string, class_: Class) {
    function Scope(): Key { Key(node, incident) }
  }

  datatype Policy = Policy(maxRetries: int, cooldown: Time, window: Time, threshold: int) {
    predicate Valid() {
      0 <= maxRetries && 0 <= cooldown && 0 < window && 0 < threshold
    }

    /** The most RETRY decisions one failure window may hold. */
    function Budget(): int { Min(maxRetries, threshold - 1) }
  }

  datatype IdInput = IdInput(incident: string, node: string, action: string, class_: Class, attempt: int)

  /** The stored names of the classes. */
  function ClassName(c: Class): string {
    match c
    case MitigationFailed => "MITIGATION_FAILED"
    case VerificationTimedOut => "VERIFICATION_TIMED_OUT"
    case VerificationRejected => "VERIFICATION_REJECTED"
    case UnknownReconciliation => "UNKNOWN_RECONCILIATION_REQUIRED"
    case CooldownActive => "COOLDOWN_ACTIVE"
    case RetryBudgetExhausted => "RETRY_BUDGET_EXHAUSTED"
    case CircuitBreakerOpen => "CIRCUIT_BREAKER_OPEN"
    case Unrecognized(name) => name
  }

  /** What ComputeEscalationID hashes: the trimmed fields, joined with bars (edge/agent/escalation/id.go:16-27). */
  function Joined(i: IdInput, version: string): string {
    Join2(Trim(i.incident), Join2(Trim(i.node), Join2(Trim(i.action), Join2(Trim(ClassName(i.class_)),
      Join2(Trim(version), Signed(i.attempt))))))
  }

  /** `version` is the policy's; `hash` any function, with no injectivity assumed unless a theorem says so. */
  datatype Config = Config(policy: Policy, version: string, hash: string -> string) {
    /** ComputeEscalationID */
    function IdOf(i: IdInput): string { "esc-" + hash(Joined(i, version)) }
  }

  datatype Escalation = Escalation(id: string, key: Key, action: string, class_: Class,
                                   status: EscalationStatus, attempt: int, maxAttempts: int, createdAt: Time)

  datatype Circuit = Circuit(open: bool, failureCount: int, trippedAt: Option<Time>,
                             resetAt: Option<Time>, resetBy: string, updatedAt: Time)

  datatype State = State(records: seq<Escalation>, circuits: map<Key, Circuit>)

  datatype Action = Retry | Escalate | NoAction

  datatype Decision = Decision(action: Action, class_: Class, attempt: int, nextRetryAt: Option<Time>,
                               circuitOpen: bool, escalateIncident: bool)

  datatype Error = EmptyIncidentID | EmptyNodeID | EmptyActionID | InvalidClassification | EmptyResetBy
                 | NilRecord | UnrecognizedStatus | StoreFailed

  /** Which store operations of a call fail. */
  datatype Faults = Faults(getCircuit: bool, getLatest: bool, count: bool, setCircuit: bool, record: bool)

  // ---- Store queries -------------------------------------------------------

  predicate HasId(records: seq<Escalation>, id: string) {
    exists i :: 0 <= i < |records| && records[i].id == id
  }

  /** INSERT of a record: ignored when the write fails or the primary key is taken. */
  function Insert(records: seq<Escalation>, e: Escalation, fails: bool): seq<Escalation> {
    if fails || HasId(records, e.id) then records else records + [e]
  }

  function CountSince(records: seq<Escalation>, key: Key, since: Time): nat {
    if records == [] then 0 else
      var r := records[|records| - 1];
      CountSince(records[..|records| - 1], key, since) + if r.key == key && r.createdAt >= since then 1 else 0
  }

  /** The record with the latest creation time; SQL leaves ties open, here the newest row wins. */
  function Latest(records: seq<Escalation>, key: Key): Option<Escalation> {
    if records == [] then None else
      var r := records[|records| - 1];
      var rest := Latest(records[..|records| - 1], key);
      if r.key == key && (rest.None? || rest.value.createdAt <= r.createdAt) then Some(r) else rest
  }

  // ---- The decision table --------------------------------------------------

  predicate IsOpen(s: State, key: Key) {
    key in s.circuits && s.circuits[key].open
  }

  predicate Cooling(p: Policy, s: State, key: Key, now: Time) {
    var latest := Latest(s.records, key);
    latest.Some? && now < latest.value.createdAt + p.cooldown
  }

  function Attempt(p: Policy, s: State, key: Key, now: Time): nat {
    CountSince(s.records, key, now - p.window) + 1
  }

  datatype Verdict = AlreadyOpen | Inquiry | CoolingDown | Immediate | Trip | Exhausted | RetryLater

  function Judge(p: Policy, s: State, req: Request, now: Time): Verdict {
    if IsOpen(s, req.Scope()) then AlreadyOpen
    else if req.class_ == CooldownActive then Inquiry
    else if Cooling(p, s, req.Scope(), now) then CoolingDown
    else if req.class_ == UnknownReconciliation || req.class_ == VerificationRejected then Immediate
    else if Attempt(p, s, req.Scope(), now) >= p.threshold then Trip
    else if Attempt(p, s, req.Scope(), now) > p.maxRetries then Exhausted
    else RetryLater
  }

  function Rejection(req: Request): Option<Error> {
    if Blank(req.incident) then Some(EmptyIncidentID)
    else if Blank(req.node) then Some(EmptyNodeID)
    else if Blank(req.action) then Some(EmptyActionID)
    else if req.class_.Unrecognized? then Some(InvalidClassification)
    else None
  }

  /** The class a verdict is reported and stored under. */
  function Reported(v: Verdict, req: Request): Class {
    match v
    case AlreadyOpen => CircuitBreakerOpen
    case Trip => CircuitBreakerOpen
    case Exhausted => RetryBudgetExhausted
    case _ => req.class_
  }

  function RecordFor(c: Config, req: Request, v: Verdict, attempt: int, now: Time): Escalation {
    var class_ := Reported(v, req);
    Escalation(c.IdOf(IdInput(req.incident, req.node, req.action, class_, attempt)), req.Scope(), req.action, class_,
               if v == RetryLater then Pending else Escalated, attempt, c.policy.maxRetries, now)
  }

  datatype Outcome = Outcome(state: State, reply: Result<Decision, Error>)

  function Recorded(s: State, e: Escalation, f: Faults): State {
    s.(records := Insert(s.records, e, f.record))
  }

  function Tripped(s: State, key: Key, attempt: int, now: Time): State {
    s.(circuits := s.circuits[key := Circuit(true, attempt, Some(now), None, "", now)])
  }

  function EscalateWith(v: Verdict, req: Request, attempt: int): Decision {
    Decision(Escalate, Reported(v, req), attempt, None, v != Immediate, true)
  }

  /** Specification of EvaluateFailure: one verdict, one effect. */
  function Evaluate(c: Config, s: State, req: Request, now: Time, f: Faults): Outcome {
    var p, key := c.policy, req.Scope();
    var v := Judge(p, s, req, now);
    if Rejection(req).Some? then Outcome(s, Err(Rejection(req).value))
    else if f.getCircuit then Outcome(s, Err(StoreFailed))
    else if v == AlreadyOpen then
      var attempt := s.circuits[key].failureCount + 1;
      Outcome(Recorded(s, RecordFor(c, req, v, attempt, now), f), Ok(EscalateWith(v, req, attempt)))
    else if v == Inquiry then
      Outcome(s, Ok(Decision(NoAction, CooldownActive, 0, None, false, false)))
    else if f.getLatest then Outcome(s, Err(StoreFailed))
    else if v == CoolingDown then
      var latest := Latest(s.records, key).value;
      Outcome(s, Ok(Decision(NoAction, CooldownActive, latest.attempt, Some(latest.createdAt + p.cooldown), false, false)))
    else if f.count then Outcome(s, Err(StoreFailed))
    else
      var attempt := Attempt(p, s, key, now);
      var e := RecordFor(c, req, v, attempt, now);
      match v
      case Immediate => Outcome(Recorded(s, e, f), Ok(EscalateWith(v, req, attempt)))
      case RetryLater =>
        if f.record then Outcome(s, Err(StoreFailed))
        else Outcome(Recorded(s, e, f), Ok(Decision(Retry, req.class_, attempt, Some(now + p.cooldown), false, false)))
      case _ =>
        if f.setCircuit then Outcome(s, Err(StoreFailed))
        else Outcome(Recorded(Tripped(s, key, attempt, now), e, f), Ok(EscalateWith(v, req, attempt)))
  }

  /** Specification of ResetCircuitBreaker. */
  function Reset(s: State, key: Key, operator: string, now: Time, f: Faults): (State, Option<Error>) {
    if Blank(operator) then (s, Some(EmptyResetBy))
    else if f.getCircuit then (s, Some(StoreFailed))
    else if key !in s.circuits then (s, None)
    else if f.setCircuit || Blank(key.node) || Blank(key.incident) then (s, Some(StoreFailed))
    else (s.(circuits := s.circuits[key := Circuit(false, 0, None, Some(now), operator, now)]), None)
  }

  // ---- The engine ----------------------------------------------------------

  datatype Write = Stored | Duplicate | WriteFailed

  datatype MitigationStatus = MPending | Executing | Executed | Failed | Skipped | UnknownReconciliationRequired | OtherMitigation
  datatype VerificationStatus = VPending | Recovered | NotRecovered | TimedOut | Cancelled | OtherVerification

  datatype Mitigation = Mitigation(incident: string, action: string, status: MitigationStatus)
  datatype Verification = Verification(incident: string, node: string, action: string, status: VerificationStatus)

  const NONE := Decision(NoAction, Unrecognized(""), 0, None, false, false)

  class Engine {
    const config: Config
    var records: seq<Escalation>
    var circuits: map<Key, Circuit>

    constructor (config: Config)
      requires config.policy.Valid()
      ensures this.config == config && View() == State([], map[])
    {
      this.config := config;
      records, circuits := [], map[];
    }

    function View(): State
      reads this
    {
      State(records, circuits)
    }

    method RecordEscalation(e: Escalation, fails: bool) returns (w: Write)
      modifies this`records
      ensures records == Insert(old(records), e, fails)
      ensures w == if fails then WriteFailed else if HasId(old(records), e.id) then Duplicate else Stored
      ensures w != Stored ==> records == old(records)
    {
      if fails { return WriteFailed; }
      if HasId(records, e.id) { return Duplicate; }
      records := records + [e];
      return Stored;
    }

    method EvaluateFailure(req: Request, now: Time, f: Faults) returns (r: Result<Decision, Error>)
      modifies this
      ensures Outcome(View(), r) == Evaluate(config, old(View()), req, now, f)
    {
      hide Insert, HasId, Latest, CountSince, Blank, RecordFor;
      if Blank(req.incident) { return Err(EmptyIncidentID); }
      if Blank(req.node) { return Err(EmptyNodeID); }
      if Blank(req.action) { return Err(EmptyActionID); }
      if req.class_.Unrecognized? { return Err(InvalidClassification); }

      var key, p := req.Scope(), config.policy;

      // 1. Existing circuit
      if f.getCircuit { return Err(StoreFailed); }
      if key in circuits && circuits[key].open {
        var attempt := circuits[key].failureCount + 1;
        var _ := RecordEscalation(RecordFor(config, req, AlreadyOpen, attempt, now), f.record);
        return Ok(Decision(Escalate, CircuitBreakerOpen, attempt, None, true, true));
      }

      // 2. Cooldown
      if req.class_ == CooldownActive {
        return Ok(Decision(NoAction, CooldownActive, 0, None, false, false));
      }
      if f.getLatest { return Err(StoreFailed); }
      var latest := Latest(records, key);
      if latest.Some? {
        var cooldownEnd := latest.value.createdAt + p.cooldown;
        if now < cooldownEnd {
          return Ok(Decision(NoAction, CooldownActive, latest.value.attempt, Some(cooldownEnd), false, false));
        }
      }

      // 3. Failures in the sliding window
      if f.count { return Err(StoreFailed); }
      var failures := CountSince(records, key, now - p.window);
      var attempt := failures + 1;

      if req.class_ == UnknownReconciliation || req.class_ == VerificationRejected {
        var _ := RecordEscalation(RecordFor(config, req, Immediate, attempt, now), f.record);
        return Ok(Decision(Escalate, req.class_, attempt, None, false, true));
      }

      // 4. Trip the breaker
      if attempt >= p.threshold {
        if f.setCircuit { return Err(StoreFailed); }
        circuits := circuits[key := Circuit(true, attempt, Some(now), None, "", now)];
        var _ := RecordEscalation(RecordFor(config, req, Trip, attempt, now), f.record);
        return Ok(Decision(Escalate, CircuitBreakerOpen, attempt, None, true, true));
      }

      // 5. Retry budget
      if attempt > p.maxRetries {
        if f.setCircuit { return Err(StoreFailed); }
        circuits := circuits[key := Circuit(true, attempt, Some(now), None, "", now)];
        var _ := RecordEscalation(RecordFor(config, req, Exhausted, attempt, now), f.record);
        return Ok(Decision(Escalate, RetryBudgetExhausted, attempt, None, true, true));
      }

      // 6. Retry after cooldown
      var w := RecordEscalation(RecordFor(config, req, RetryLater, attempt, now), f.record);
      if w == WriteFailed { return Err(StoreFailed); }
      return Ok(Decision(Retry, req.class_, attempt, Some(now + p.cooldown), false, false));
    }

    method CanRetry(node: string, incident: string, now: Time, f: Faults)
        returns (r: Result<bool, Error>, next: Option<Time>)
      ensures f.getCircuit ==> r == Err(StoreFailed)
      ensures !f.getCircuit && f.getLatest ==>
        r == if IsOpen(View(), Key(node, incident)) then Ok(false) else Err(StoreFailed)
      ensures !f.getCircuit && !f.getLatest ==> r == Ok(Permits(config.policy, View(), Key(node, incident), now))
      ensures next.Some? ==> r == Ok(false) && now < next.value && !IsOpen(View(), Key(node, incident))
    {
      var key := Key(node, incident);
      next := None;
      if f.getCircuit { return Err(StoreFailed), None; }
      if key in circuits && circuits[key].open { return Ok(false), None; }
      if f.getLatest { return Err(StoreFailed), None; }
      var latest := Latest(records, key);
      if latest.Some? {
        var cooldownEnd := latest.value.createdAt + config.policy.cooldown;
        if now < cooldownEnd { return Ok(false), Some(cooldownEnd); }
      }
      return Ok(true), None;
    }

    method ResetCircuitBreaker(node: string, incident: string, operator: string, now: Time, f: Faults)
        returns (e: Option<Error>)
      modifies this`circuits
      ensures (View(), e) == Reset(old(View()), Key(node, incident), operator, now, f)
    {
      if Blank(operator) { return Some(EmptyResetBy); }
      var key := Key(node, incident);
      if f.getCircuit { return Some(StoreFailed); }
      if key !in circuits { return None; }
      if f.setCircuit || Blank(node) || Blank(incident) { return Some(StoreFailed); }
      circuits := circuits[key := Circuit(false, 0, None, Some(now), operator, now)];
      return None;
    }

    /** Only FAILED and UNKNOWN_RECONCILIATION_REQUIRED mitigations reach the failure evaluation. */
    method EvaluateMitigationResult(node: string, m: Option<Mitigation>, now: Time, f: Faults)
        returns (r: Result<Decision, Error>)
      modifies this
      ensures m.Some? && !Blank(node) && m.value.status in {Failed, UnknownReconciliationRequired} ==>
        Outcome(View(), r) == Evaluate(config, old(View()), Request(m.value.incident, node, m.value.action,
          if m.value.status == Failed then MitigationFailed else UnknownReconciliation), now, f)
      ensures !(m.Some? && !Blank(node) && m.value.status in {Failed, UnknownReconciliationRequired}) ==>
        View() == old(View()) && (r == Ok(NONE) <==> m.Some? && !Blank(node) && m.value.status != OtherMitigation)
    {
      if m.None? { return Err(NilRecord); }
      if Blank(node) { return Err(EmptyNodeID); }
      match m.value.status
      case Executed => return Ok(NONE);
      case MPending => return Ok(NONE);
      case Executing => return Ok(NONE);
      case Skipped => return Ok(NONE);
      case Failed =>
        r := EvaluateFailure(Request(m.value.incident, node, m.value.action, MitigationFailed), now, f);
      case UnknownReconciliationRequired =>
        r := EvaluateFailure(Request(m.value.incident, node, m.value.action, UnknownReconciliation), now, f);
      case OtherMitigation => return Err(UnrecognizedStatus);
    }

    /** Only TIMED_OUT and NOT_RECOVERED verifications reach the failure evaluation. */
    method EvaluateVerificationResult(v: Option<Verification>, now: Time, f: Faults)
        returns (r: Result<Decision, Error>)
      modifies this
      ensures v.Some? && v.value.status in {TimedOut, NotRecovered} ==>
        Outcome(View(), r) == Evaluate(config, old(View()), Request(v.value.incident, v.value.node, v.value.action,
          if v.value.status == TimedOut then VerificationTimedOut else VerificationRejected), now, f)
      ensures !(v.Some? && v.value.status in {TimedOut, NotRecovered}) ==>
        View() == old(View()) && (r == Ok(NONE) <==> v.Some? && v.value.status != OtherVerification)
    {
      if v.None? { return Err(NilRecord); }
      match v.value.status
      case Recovered => return Ok(NONE);
      case VPending => return Ok(NONE);
      case Cancelled => return Ok(NONE);
      case TimedOut =>
        r := EvaluateFailure(Request(v.value.incident, v.value.node, v.value.action, VerificationTimedOut), now, f);
      case NotRecovered =>
        r := EvaluateFailure(Request(v.value.incident, v.value.node, v.value.action, VerificationRejected), now, f);
      case OtherVerification => return Err(UnrecognizedStatus);
    }
  }

  predicate Permits(p: Policy, s: State, key: Key, now: Time) {
    !IsOpen(s, key) && !Cooling(p, s, key, now)
  }

  // ---- Runs ----------------------------------------------------------------

  datatype Event =
    | Failure(req: Request, now: Time, faults: Faults)
    | Resetting(key: Key, operator: string, now: Time, faults: Faults)

  function Apply(c: Config, s: State, e: Event): State {
    match e
    case Failure(req, now, f) => Evaluate(c, s, req, now, f).state
    case Resetting(key, operator, now, f) => Reset(s, key, operator, now, f).0
  }

  function Run(c: Config, s: State, es: seq<Event>): State {
    if es == [] then s else Apply(c, Run(c, s, es[..|es| - 1]), es[|es| - 1])
  }

  /** Event `e`, taken in state `s`, answers RETRY for `key`. */
  predicate Retries(c: Config, s: State, e: Event, key: Key) {
    e.Failure? && e.req.Scope() == key &&
    var r := Evaluate(c, s, e.req, e.now, e.faults).reply; r.Ok? && r.value.action == Retry
  }

  /** How many RETRY decisions for `key` a run makes at instants in [lo, hi]. */
  function RetryCount(c: Config, s: State, es: seq<Event>, key: Key, lo: Time, hi: Time): nat {
    if es == [] then 0 else
      var front, e := es[..|es| - 1], es[|es| - 1];
      RetryCount(c, s, front, key, lo, hi) +
      if Retries(c, Run(c, s, front), e, key) && lo <= e.now <= hi then 1 else 0
  }

  function RetryId(c: Config, s: State, e: Event): string
    requires e.Failure?
  {
    RecordFor(c, e.req, RetryLater, Attempt(c.policy, s, e.req.Scope(), e.now), e.now).id
  }

  /** No RETRY for `key` is answered under an escalation id that is already stored. */
  predicate FreshRetries(c: Config, s: State, es: seq<Event>, key: Key) {
    es == [] ||
    var front, e := es[..|es| - 1], es[|es| - 1];
    FreshRetries(c, s, front, key) &&
    (Retries(c, Run(c, s, front), e, key) ==> !HasId(Run(c, s, front).records, RetryId(c, Run(c, s, front), e)))
  }

  const ALL_WORKS := Faults(false, false, false, false, false)

  // ---- What an evaluation decides --------------------------------------------

  /** Incident, node and action are named, and the class is one the engine knows. */
  predicate WellFormed(req: Request) {
    !Blank(req.incident) && !Blank(req.node) && !Blank(req.action) && !req.class_.Unrecognized?
  }

  /** The recorded failures of the scope from `since` on, by index. */
  function FailuresSince(records: seq<Escalation>, key: Key, since: Time): set<int> {
    set i | 0 <= i < |records| && records[i].key == key && records[i].createdAt >= since
  }

  lemma {:induction false} CountIsFailures(records: seq<Escalation>, key: Key, since: Time)
    ensures CountSince(records, key, since) == |FailuresSince(records, key, since)|
  {
    if records == [] {
      assert FailuresSince(records, key, since) == {};
    } else {
      var front, r := records[..|records| - 1], records[|records| - 1];
      CountIsFailures(front, key, since);
      assert FailuresSince(records, key, since)
        == FailuresSince(front, key, since) + if r.key == key && r.createdAt >= since then {|front|} else {};
    }
  }

  /** Every failure of the scope is a cooldown ago. */
  predicate CooledDown(p: Policy, s: State, key: Key, now: Time) {
    forall i :: 0 <= i < |s.records| && s.records[i].key == key ==> s.records[i].createdAt + p.cooldown <= now
  }

  lemma {:induction false} LatestIsOfScope(records: seq<Escalation>, key: Key) returns (i: int)
    ensures Latest(records, key).Some? ==> 0 <= i < |records| && records[i] == Latest(records, key).value && records[i].key == key
  {
    i := |records| - 1;
    if records != [] {
      var j := LatestIsOfScope(records[..|records| - 1], key);
      if Latest(records, key) != Some(records[i]) { i := j; }
    }
  }

  lemma {:induction false} CoolingIff(p: Policy, s: State, key: Key, now: Time)
    ensures Cooling(p, s, key, now) <==> !CooledDown(p, s, key, now)
  {
    var i := LatestIsOfScope(s.records, key);
    forall j | 0 <= j < |s.records| && s.records[j].key == key
      ensures Latest(s.records, key).Some? && s.records[j].createdAt <= Latest(s.records, key).value.createdAt
    {
      LatestIsNewest(s.records, key, j);
    }
  }

  /** A retry is permitted exactly when the circuit is closed and every failure of the scope is a cooldown ago. */
  lemma {:induction false} PermitsIff(p: Policy, s: State, key: Key, now: Time)
    ensures Permits(p, s, key, now) <==> !(key in s.circuits && s.circuits[key].open) && CooledDown(p, s, key, now)
  {
    CoolingIff(p, s, key, now);
  }

  /** The record is appended, unless its id is taken. */
  predicate Filed(before: seq<Escalation>, after: seq<Escalation>, e: Escalation) {
    after == if exists i :: 0 <= i < |before| && before[i].id == e.id then before else before + [e]
  }

  /** What is stored for a failure of the request. */
  function FailureRecord(c: Config, req: Request, class_: Class, status: EscalationStatus, attempt: int, now: Time): Escalation {
    Escalation(c.IdOf(IdInput(req.incident, req.node, req.action, class_, attempt)), Key(req.node, req.incident), req.action,
               class_, status, attempt, c.policy.maxRetries, now)
  }

  /** The circuit after it tripped on attempt `n`. */
  predicate Opened(before: map<Key, Circuit>, after: map<Key, Circuit>, key: Key, n: int, now: Time) {
    after == before[key := Circuit(true, n, Some(now), None, "", now)]
  }

  /** The decision table. With a closed circuit, no failure within the cooldown and a working store, and `n` the
      failures in the window, this one included: a rejected verification or an unknown reconciliation escalates at
      once and leaves the circuit; any other failure opens the circuit when `n` reaches the threshold or exceeds the
      retry budget, and is answered RETRY otherwise. */
  lemma {:induction false} EvaluationDecides(c: Config, s: State, req: Request, now: Time, n: int)
    requires WellFormed(req) && req.class_ != CooldownActive
    requires !(req.Scope() in s.circuits && s.circuits[req.Scope()].open) && CooledDown(c.policy, s, req.Scope(), now)
    requires n == |FailuresSince(s.records, req.Scope(), now - c.policy.window)| + 1
    ensures var key, p := Key(req.node, req.incident), c.policy;
      var Outcome(s', r) := Evaluate(c, s, req, now, ALL_WORKS);
      if req.class_ == UnknownReconciliation || req.class_ == VerificationRejected then
        && r == Ok(Decision(Escalate, req.class_, n, None, false, true)) && s'.circuits == s.circuits
        && Filed(s.records, s'.records, FailureRecord(c, req, req.class_, Escalated, n, now))
      else if n >= p.threshold then
        && r == Ok(Decision(Escalate, CircuitBreakerOpen, n, None, true, true)) && Opened(s.circuits, s'.circuits, key, n, now)
        && Filed(s.records, s'.records, FailureRecord(c, req, CircuitBreakerOpen, Escalated, n, now))
      else if n > p.maxRetries then
        && r == Ok(Decision(Escalate, RetryBudgetExhausted, n, None, true, true)) && Opened(s.circuits, s'.circuits, key, n, now)
        && Filed(s.records, s'.records, FailureRecord(c, req, RetryBudgetExhausted, Escalated, n, now))
      else
        && r == Ok(Decision(Retry, req.class_, n, Some(now + p.cooldown), false, false)) && s'.circuits == s.circuits
        && Filed(s.records, s'.records, FailureRecord(c, req, req.class_, Pending, n, now))
  {
    CoolingIff(c.policy, s, req.Scope(), now);
    CountIsFailures(s.records, req.Scope(), now - c.policy.window);
    hide Cooling, CooledDown, FailuresSince, CountSince, Blank, Config.IdOf;
  }

  /** A failure within the cooldown is refused: nothing changes, and the answer names the newest failure. */
  lemma {:induction false} CooldownAnswers(c: Config, s: State, req: Request, now: Time, f: Faults) returns (i: int)
    requires WellFormed(req) && req.class_ != CooldownActive && !f.getCircuit && !f.getLatest
    requires !(req.Scope() in s.circuits && s.circuits[req.Scope()].open) && !CooledDown(c.policy, s, req.Scope(), now)
    ensures 0 <= i < |s.records| && s.records[i].key == req.Scope()
    ensures forall j :: 0 <= j < |s.records| && s.records[j].key == req.Scope() ==> s.records[j].createdAt <= s.records[i].createdAt
    ensures Evaluate(c, s, req, now, f) == Outcome(s, Ok(Decision(NoAction, CooldownActive, s.records[i].attempt,
                                                                  Some(s.records[i].createdAt + c.policy.cooldown), false, false)))
  {
    CoolingIff(c.policy, s, req.Scope(), now);
    i := LatestIsOfScope(s.records, req.Scope());
    forall j | 0 <= j < |s.records| && s.records[j].key == req.Scope() ensures s.records[j].createdAt <= s.records[i].createdAt {
      LatestIsNewest(s.records, req.Scope(), j);
    }
    hide CountSince, Blank, RecordFor, CooledDown;
  }

  /** An inquiry under COOLDOWN_ACTIVE, and a request that is not well formed, change nothing. */
  lemma InquiriesChangeNothing(c: Config, s: State, req: Request, now: Time, f: Faults)
    ensures !WellFormed(req) ==>
      Evaluate(c, s, req, now, f) == Outcome(s, Err(
        if Blank(req.incident) then EmptyIncidentID else if Blank(req.node) then EmptyNodeID
        else if Blank(req.action) then EmptyActionID else InvalidClassification))
    ensures WellFormed(req) && req.class_ == CooldownActive && !f.getCircuit ==>
      (req.Scope() in s.circuits && s.circuits[req.Scope()].open) ||
      Evaluate(c, s, req, now, f) == Outcome(s, Ok(Decision(NoAction, CooldownActive, 0, None, false, false)))
  {
    hide CountSince, Latest, Blank, RecordFor;
  }

  /** An open circuit escalates, files the failure one further, and stays as it is. */
  lemma OpenCircuitFiles(c: Config, s: State, req: Request, now: Time, f: Faults)
    requires WellFormed(req) && !f.getCircuit && req.Scope() in s.circuits && s.circuits[req.Scope()].open
    ensures var n := s.circuits[req.Scope()].failureCount + 1;
      var Outcome(s', r) := Evaluate(c, s, req, now, f);
      && r == Ok(Decision(Escalate, CircuitBreakerOpen, n, None, true, true)) && s'.circuits == s.circuits
      && if f.record then s'.records == s.records
         else Filed(s.records, s'.records, FailureRecord(c, req, CircuitBreakerOpen, Escalated, n, now))
  {
    hide CountSince, Latest, Blank, Config.IdOf;
  }

  /** The store faults that an evaluation meets: reading the circuit, then the latest failure, then the count; then
      opening the circuit, or recording the RETRY. A record that cannot be written does not stop an escalation. */
  predicate MeetsFault(c: Config, s: State, req: Request, now: Time, f: Faults) {
    var key, p := req.Scope(), c.policy;
    var n := |FailuresSince(s.records, key, now - p.window)| + 1;
    f.getCircuit ||
    (!(key in s.circuits && s.circuits[key].open) && req.class_ != CooldownActive &&
     (f.getLatest ||
      (CooledDown(p, s, key, now) &&
       (f.count ||
        (req.class_ != UnknownReconciliation && req.class_ != VerificationRejected &&
         if n >= p.threshold || n > p.maxRetries then f.setCircuit else f.record)))))
  }

  /** An evaluation fails exactly on a fault that it meets, and then changes nothing; otherwise faults change no answer
      and no circuit, and only a failed write keeps the record out. */
  lemma {:induction false} FaultsDecide(c: Config, s: State, req: Request, now: Time, f: Faults)
    requires WellFormed(req)
    ensures MeetsFault(c, s, req, now, f) ==> Evaluate(c, s, req, now, f) == Outcome(s, Err(StoreFailed))
    ensures !MeetsFault(c, s, req, now, f) ==>
      var calm := Evaluate(c, s, req, now, ALL_WORKS);
      && calm.reply.Ok?
      && Evaluate(c, s, req, now, f) == calm.(state := calm.state.(records := if f.record then s.records else calm.state.records))
  {
    CoolingIff(c.policy, s, req.Scope(), now);
    CountIsFailures(s.records, req.Scope(), now - c.policy.window);
    hide Cooling, CooledDown, FailuresSince, CountSince, Latest, Blank, RecordFor, HasId;
  }

  /** RETRY is answered exactly for a well-formed failure of a retryable class on a closed circuit, outside the cooldown,
      below the threshold and within the budget, when the store works. */
  lemma {:induction false} RetriesIff(c: Config, s: State, e: Event, key: Key)
    requires e.Failure? && e.req.Scope() == key
    ensures Retries(c, s, e, key) <==>
      && WellFormed(e.req) && e.req.class_ != CooldownActive
      && e.req.class_ != UnknownReconciliation && e.req.class_ != VerificationRejected
      && !(key in s.circuits && s.circuits[key].open) && CooledDown(c.policy, s, key, e.now)
      && |FailuresSince(s.records, key, e.now - c.policy.window)| + 1 < c.policy.threshold
      && |FailuresSince(s.records, key, e.now - c.policy.window)| + 1 <= c.policy.maxRetries
      && !e.faults.getCircuit && !e.faults.getLatest && !e.faults.count && !e.faults.record
  {
    CoolingIff(c.policy, s, key, e.now);
    CountIsFailures(s.records, key, e.now - c.policy.window);
    hide Cooling, CooledDown, FailuresSince, CountSince, Latest, Blank, RecordFor, HasId;
  }

  /** A reset with a named operator and a working store closes an existing circuit, counts from zero, names the operator,
      and touches neither the failures nor another circuit. */
  lemma ResetDecides(s: State, key: Key, operator: string, now: Time, f: Faults)
    ensures var (s', e) := Reset(s, key, operator, now, f);
      && s'.records == s.records && (e.Some? ==> s' == s)
      && (e == Some(EmptyResetBy) <==> Blank(operator))
      && (e == None && key !in s.circuits ==> s' == s)
      && (e == None && key in s.circuits ==> s'.circuits == s.circuits[key := Circuit(false, 0, None, Some(now), operator, now)])
      && (e == Some(StoreFailed) <==>
           !Blank(operator) && (f.getCircuit || (key in s.circuits && (f.setCircuit || Blank(key.node) || Blank(key.incident)))))
      && (e.Some? ==> e.value == EmptyResetBy || e.value == StoreFailed)
  {
  }

  // ---- The retry budget ------------------------------------------------------

  lemma CountAppend(records: seq<Escalation>, e: Escalation, key: Key, since: Time)
    ensures CountSince(records + [e], key, since) ==
            CountSince(records, key, since) + if e.key == key && e.createdAt >= since then 1 else 0
  {
    assert (records + [e])[..|records|] == records;
  }

  lemma {:induction false} CountAntitone(records: seq<Escalation>, key: Key, t: Time, since: Time)
    requires t <= since
    ensures CountSince(records, key, since) <= CountSince(records, key, t)
  {
    if records != [] { CountAntitone(records[..|records| - 1], key, t, since); }
  }

  /** A step never removes a record, so a reset does not erase counted failures. */
  lemma StepKeepsFailures(c: Config, s: State, e: Event, key: Key, since: Time)
    ensures s.records <= Apply(c, s, e).records
    ensures CountSince(s.records, key, since) <= CountSince(Apply(c, s, e).records, key, since)
  {
    var s' := Apply(c, s, e);
    if s'.records != s.records {
      var r := s'.records[|s'.records| - 1];
      assert s'.records == s.records + [r];
      CountAppend(s.records, r, key, since);
    }
  }

  /** What a RETRY decision implies about the state it was taken in. */
  lemma RetryStep(c: Config, s: State, e: Event, key: Key)
    requires Retries(c, s, e, key)
    ensures e.Failure? && e.req.Scope() == key
    ensures !IsOpen(s, key) && !Cooling(c.policy, s, key, e.now)
    ensures Attempt(c.policy, s, key, e.now) <= c.policy.Budget()
    ensures Apply(c, s, e) == s.(records :=
      Insert(s.records, RecordFor(c, e.req, RetryLater, Attempt(c.policy, s, key, e.now), e.now), false))
  {
  }

  /** A RETRY enters the failure window exactly when its id is new. */
  lemma {:induction false} RetryIsCountedIffFresh(c: Config, s: State, e: Event, key: Key, since: Time)
    requires Retries(c, s, e, key) && since <= e.now
    ensures !HasId(s.records, RetryId(c, s, e)) <==>
            CountSince(Apply(c, s, e).records, key, since) == CountSince(s.records, key, since) + 1
    ensures HasId(s.records, RetryId(c, s, e)) ==> Apply(c, s, e) == s
  {
    hide Evaluate, Apply, Retries;
    RetryStep(c, s, e, key);
    var r := RecordFor(c, e.req, RetryLater, Attempt(c.policy, s, key, e.now), e.now);
    CountAppend(s.records, r, key, since);
  }

  lemma {:induction false} RetriesAreCounted(c: Config, s: State, es: seq<Event>, key: Key, lo: Time, hi: Time)
    requires FreshRetries(c, s, es, key)
    ensures RetryCount(c, s, es, key, lo, hi) <= CountSince(Run(c, s, es).records, key, lo)
  {
    if es != [] {
      var front, e := es[..|es| - 1], es[|es| - 1];
      RetriesAreCounted(c, s, front, key, lo, hi);
      var s1 := Run(c, s, front);
      if Retries(c, s1, e, key) && lo <= e.now {
        RetryIsCountedIffFresh(c, s1, e, key, lo);
      } else {
        StepKeepsFailures(c, s1, e, key, lo);
      }
    }
  }

  /** Every closed interval of one failure window holds at most the budget of RETRY decisions for a
      (node, incident), in every run, whatever store operations fail and however often the circuit is reset. */
  lemma {:induction false} RetryBound(c: Config, s: State, es: seq<Event>, key: Key, lo: Time)
    requires c.policy.Valid() && FreshRetries(c, s, es, key)
    ensures Bounded(c, s, es, key, lo)
  {
    hide Evaluate, Apply, Retries;
    if es != [] {
      var front, e := es[..|es| - 1], es[|es| - 1];
      var s1, hi := Run(c, s, front), lo + c.policy.window;
      RetryBound(c, s, front, key, lo);
      if Retries(c, s1, e, key) && lo <= e.now <= hi {
        RetryStep(c, s1, e, key);
        RetriesAreCounted(c, s, front, key, lo, hi);
        CountAntitone(s1.records, key, e.now - c.policy.window, lo);
      }
    }
  }

  function Repeated(e: Event, n: nat): seq<Event> {
    seq(n, _ => e)
  }

  /** A RETRY under a stored id changes nothing, so the same call answers RETRY as often as it is made. */
  lemma {:induction false} DuplicateRetryRepeats(c: Config, s: State, es: seq<Event>, e: Event, key: Key, n: nat)
    requires c.policy.Valid()
    requires var s1 := Run(c, s, es); Retries(c, s1, e, key) && HasId(s1.records, RetryId(c, s1, e))
    ensures Run(c, s, es + Repeated(e, n)) == Run(c, s, es)
    ensures RetryCount(c, s, es + Repeated(e, n), key, e.now, e.now + c.policy.window) >= n
  {
    hide Evaluate, Apply, Retries;
    if n == 0 {
      assert es + Repeated(e, 0) == es;
    } else {
      DuplicateRetryRepeats(c, s, es, e, key, n - 1);
      var all := es + Repeated(e, n);
      assert all[..|all| - 1] == es + Repeated(e, n - 1);
      RetryIsCountedIffFresh(c, Run(c, s, es), e, key, e.now);
    }
  }

  /** The bound for the window that starts at `lo`. */
  predicate Bounded(c: Config, s: State, es: seq<Event>, key: Key, lo: Time) {
    RetryCount(c, s, es, key, lo, lo + c.policy.window) <= c.policy.Budget()
  }

  ghost predicate AlwaysBounded(c: Config, s: State, key: Key) {
    forall es, lo :: Bounded(c, s, es, key, lo)
  }

  /** The bound on every run whose clock starts at `from` and never goes back. */
  ghost predicate ForwardBounded(c: Config, s: State, key: Key, from: Time) {
    forall es, lo :: Forward(es, from) ==> Bounded(c, s, es, key, lo)
  }

  predicate Forward(es: seq<Event>, from: Time) {
    forall i :: 0 <= i < |es| ==> from <= es[i].now && (i > 0 ==> es[i - 1].now <= es[i].now)
  }

  /** A run that reuses a stored id for a RETRY extends, without turning the clock back, to one over the budget. */
  lemma {:induction false} StaleRetryExceeds(c: Config, s: State, es: seq<Event>, key: Key, from: Time)
    returns (over: seq<Event>, lo: Time)
    requires c.policy.Valid() && !FreshRetries(c, s, es, key) && Forward(es, from)
    ensures Forward(over, from) && !Bounded(c, s, over, key, lo)
  {
    hide Evaluate, Apply, Retries;
    var front, e := es[..|es| - 1], es[|es| - 1];
    if !FreshRetries(c, s, front, key) {
      over, lo := StaleRetryExceeds(c, s, front, key, from);
    } else {
      var n := c.policy.Budget() + 1;
      DuplicateRetryRepeats(c, s, front, e, key, n);
      over, lo := front + Repeated(e, n), e.now;
    }
  }

  /** The policy never answers RETRY for the scope: it allows none, or refuses the scope's blank names. */
  predicate NeverRetries(p: Policy, key: Key) {
    p.Budget() == 0 || Blank(key.node) || Blank(key.incident)
  }

  lemma {:induction false} NoRetryIsBounded(c: Config, s: State, es: seq<Event>, key: Key, lo: Time, hi: Time)
    requires c.policy.Valid() && NeverRetries(c.policy, key)
    ensures RetryCount(c, s, es, key, lo, hi) == 0
  {
    if es != [] {
      NoRetryIsBounded(c, s, es[..|es| - 1], key, lo, hi);
      var s1, e := Run(c, s, es[..|es| - 1]), es[|es| - 1];
      hide Run;
      if Retries(c, s1, e, key) { RetryStep(c, s1, e, key); }
    }
  }

  /** An instant by which every record has left the failure window and the cooldown. */
  function Later(p: Policy, records: seq<Escalation>, from: Time): Time {
    if records == [] then from
    else Max(Later(p, records[..|records| - 1], from), records[|records| - 1].createdAt + p.window + p.cooldown + 1)
  }

  lemma {:induction false} QuietLater(p: Policy, records: seq<Escalation>, from: Time, key: Key, now: Time)
    requires p.Valid() && now >= Later(p, records, from)
    ensures now >= from && CountSince(records, key, now - p.window) == 0
    ensures Latest(records, key).Some? ==> Latest(records, key).value.createdAt + p.cooldown <= now
  {
    if records != [] { QuietLater(p, records[..|records| - 1], from, key, now); }
  }

  /** Once the circuit is closed and past failures are old, a failure is answered RETRY as attempt 1. */
  lemma QuietFailureRetries(c: Config, s: State, key: Key, now: Time)
    requires c.policy.Valid() && !NeverRetries(c.policy, key) && !IsOpen(s, key)
    requires now >= Later(c.policy, s.records, now)
    ensures var e := Failure(Request(key.incident, key.node, "a", MitigationFailed), now, ALL_WORKS);
      && Retries(c, s, e, key) && Attempt(c.policy, s, key, now) == 1
      && Apply(c, s, e) == s.(records := Insert(s.records, RecordFor(c, e.req, RetryLater, 1, now), false))
  {
    hide Config.IdOf;
    QuietLater(c.policy, s.records, now, key, now);
    assert !IsSpace("a"[0]);
  }

  /** From every state, whatever its records and circuit, a reset and two failures of one action, the second when
      the first has left the window, reuse an id. */
  lemma {:induction false} IdsRepeat(c: Config, s: State, key: Key, from: Time) returns (es: seq<Event>)
    requires c.policy.Valid() && !NeverRetries(c.policy, key)
    ensures Forward(es, from) && !FreshRetries(c, s, es, key)
  {
    hide Evaluate, Retries, Later;
    var p, req := c.policy, Request(key.incident, key.node, "a", MitigationFailed);
    var t := Later(p, s.records, from);
    LaterGrows(p, s.records, from);
    var reset := Resetting(key, "op", from, ALL_WORKS);
    var first := Failure(req, t, ALL_WORKS);
    var s1 := Apply(c, s, reset);
    ResetCloses(c, s, key, from);
    QuietFailureRetries(c, s1, key, t);
    var s2 := Apply(c, s1, first);
    var r := RecordFor(c, req, RetryLater, 1, t);
    var t2 := Later(p, s2.records, t);
    LaterGrows(p, s2.records, t);
    var again := Failure(req, t2, ALL_WORKS);
    QuietFailureRetries(c, s2, key, t2);
    InsertedIsStored(s1.records, r);
    es := [reset, first, again];
    ThreeSteps(c, s, reset, first, again, key);
  }

  lemma LaterGrows(p: Policy, records: seq<Escalation>, from: Time)
    requires p.Valid()
    ensures var t := Later(p, records, from); from <= t && Later(p, records, t) == t
  {
    LaterIsMax(p, records, from, Later(p, records, from));
  }

  lemma {:induction false} LaterIsMax(p: Policy, records: seq<Escalation>, from: Time, t: Time)
    ensures from <= Later(p, records, from)
    ensures t >= Later(p, records, from) ==> Later(p, records, t) == t
  {
    if records != [] { LaterIsMax(p, records[..|records| - 1], from, t); }
  }

  lemma ResetCloses(c: Config, s: State, key: Key, now: Time)
    requires !Blank(key.node) && !Blank(key.incident)
    ensures var s1 := Apply(c, s, Resetting(key, "op", now, ALL_WORKS)); !IsOpen(s1, key) && s1.records == s.records
  {
    assert !IsSpace("op"[0]);
  }

  lemma InsertedIsStored(records: seq<Escalation>, r: Escalation)
    ensures HasId(Insert(records, r, false), r.id)
  {
    if !HasId(records, r.id) { assert (records + [r])[|records|].id == r.id; }
  }

  lemma ThreeSteps(c: Config, s: State, a: Event, b: Event, d: Event, key: Key)
    ensures var s2 := Apply(c, Apply(c, s, a), b);
      Retries(c, s2, d, key) && HasId(s2.records, RetryId(c, s2, d)) ==> !FreshRetries(c, s, [a, b, d], key)
  {
    hide Evaluate, Retries, Apply, HasId;
    assert [a, b, d][..2] == [a, b] && [a, b][..1] == [a] && [a][..0] == [];
    assert Run(c, s, []) == s;
    assert Run(c, s, [a]) == Apply(c, s, a);
    assert Run(c, s, [a, b]) == Apply(c, Apply(c, s, a), b);
  }

  /** Without an assumption on ids the bound holds on all runs from a state exactly when the policy never retries
      the scope; it makes no difference whether the clock may go back. */
  lemma {:induction false} BoundedIffNeverRetries(c: Config, s: State, key: Key, from: Time)
    requires c.policy.Valid()
    ensures AlwaysBounded(c, s, key) <==> NeverRetries(c.policy, key)
    ensures ForwardBounded(c, s, key, from) <==> NeverRetries(c.policy, key)
  {
    if NeverRetries(c.policy, key) {
      forall es, lo ensures Bounded(c, s, es, key, lo) {
        NoRetryIsBounded(c, s, es, key, lo, lo + c.policy.window);
      }
    } else {
      var es := IdsRepeat(c, s, key, from);
      var over, lo := StaleRetryExceeds(c, s, es, key, from);
    }
  }

  // ---- A guard for callers -----------------------------------------------------

  ghost predicate Injective(hash: string -> string) {
    forall x, y :: hash(x) == hash(y) ==> x == y
  }

  /** The names an id is computed from. */
  datatype Names = Names(incident: string, node: string, action: string)

  function NamesOf(incident: string, node: string, action: string): Names {
    Names(Trim(incident), Trim(node), Trim(action))
  }

  predicate SameClass(a: Class, b: Class) { Trim(ClassName(a)) == Trim(ClassName(b)) }

  predicate BarFree(n: Names) { '|' !in n.incident && '|' !in n.node && '|' !in n.action }

  lemma BarsOfJoined(i: IdInput, version: string)
    ensures Bars(Joined(i, version)) ==
      Bars(Trim(i.incident)) + Bars(Trim(i.node)) + Bars(Trim(i.action)) + Bars(Trim(ClassName(i.class_)))
      + Bars(Trim(version)) + 5
  {
    hide Bars, Join2, Trim, ClassName, Signed;
    var v := Join2(Trim(version), Signed(i.attempt));
    var c := Join2(Trim(ClassName(i.class_)), v);
    BarsOfJoin(Trim(i.incident), Join2(Trim(i.node), Join2(Trim(i.action), c)));
    BarsOfJoin(Trim(i.node), Join2(Trim(i.action), c));
    BarsOfJoin(Trim(i.action), c);
    BarsOfJoin(Trim(ClassName(i.class_)), v);
    BarsOfJoin(Trim(version), Signed(i.attempt));
    NumeralsHaveNoBars(i.attempt);
  }

  lemma NumeralsHaveNoBars(n: int)
    ensures Bars(Signed(n)) == 0
  {
    DecimalDigits(if n < 0 then -n else n, '|');
    NoBarsIff(Signed(n));
  }

  /** If one input's fields have no bars, neither have those of an input with the same joined text. */
  lemma BarsAgree(i: IdInput, j: IdInput, version: string)
    requires Joined(i, version) == Joined(j, version)
    requires BarFree(NamesOf(j.incident, j.node, j.action)) && '|' !in Trim(ClassName(j.class_))
    ensures BarFree(NamesOf(i.incident, i.node, i.action)) && '|' !in Trim(ClassName(i.class_))
  {
    hide Joined, Bars, Trim, ClassName;
    BarsOfJoined(i, version);
    BarsOfJoined(j, version);
    NoBarsIff(Trim(i.incident));
    NoBarsIff(Trim(i.node));
    NoBarsIff(Trim(i.action));
    NoBarsIff(Trim(ClassName(i.class_)));
    NoBarsIff(Trim(j.incident));
    NoBarsIff(Trim(j.node));
    NoBarsIff(Trim(j.action));
    NoBarsIff(Trim(ClassName(j.class_)));
  }

  lemma ClassHasNoBar(class_: Class)
    requires !class_.Unrecognized?
    ensures '|' !in Trim(ClassName(class_))
  {
    hide Trim;
    var name := ClassName(class_);
    assert '|' !in name;
    hide ClassName;
    TrimKeeps(name, '|');
  }

  lemma JoinedTellsFields(i: IdInput, j: IdInput, version: string)
    requires Joined(i, version) == Joined(j, version)
    requires BarFree(NamesOf(j.incident, j.node, j.action)) && '|' !in Trim(ClassName(j.class_))
    ensures NamesOf(i.incident, i.node, i.action) == NamesOf(j.incident, j.node, j.action)
    ensures SameClass(i.class_, j.class_) && i.attempt == j.attempt
  {
    BarsAgree(i, j, version);
    hide Trim, ClassName, Signed, Join2;
    var vi, vj := Join2(Trim(version), Signed(i.attempt)), Join2(Trim(version), Signed(j.attempt));
    var ci, cj := Join2(Trim(ClassName(i.class_)), vi), Join2(Trim(ClassName(j.class_)), vj);
    var ai, aj := Join2(Trim(i.action), ci), Join2(Trim(j.action), cj);
    FirstField(Trim(i.incident), Join2(Trim(i.node), ai), Trim(j.incident), Join2(Trim(j.node), aj));
    FirstField(Trim(i.node), ai, Trim(j.node), aj);
    FirstField(Trim(i.action), ci, Trim(j.action), cj);
    FirstField(Trim(ClassName(i.class_)), vi, Trim(ClassName(j.class_)), vj);
    SameTail(Trim(version), Signed(i.attempt), Signed(j.attempt));
    SignedInjective(i.attempt, j.attempt);
  }

  lemma SameTail(v: string, x: string, y: string)
    requires Join2(v, x) == Join2(v, y)
    ensures x == y
  {
    assert Join2(v, x)[|v| + 1..] == x && Join2(v, y)[|v| + 1..] == y;
  }

  /** Under a collision-free hash, names without bars and a recognized class share an id exactly with the inputs that
      are equal after trimming. */
  lemma {:induction false} SameIdIff(c: Config, i: IdInput, j: IdInput)
    requires Injective(c.hash) && BarFree(NamesOf(j.incident, j.node, j.action)) && !j.class_.Unrecognized?
    ensures c.IdOf(i) == c.IdOf(j) <==>
      NamesOf(i.incident, i.node, i.action) == NamesOf(j.incident, j.node, j.action)
      && SameClass(i.class_, j.class_) && i.attempt == j.attempt
  {
    ClassHasNoBar(j.class_);
    hide Trim, ClassName, Signed, Join2;
    if c.IdOf(i) == c.IdOf(j) {
      assert c.IdOf(i)[4..] == c.hash(Joined(i, c.version)) && c.IdOf(j)[4..] == c.hash(Joined(j, c.version));
      JoinedTellsFields(i, j, c.version);
    }
  }

  /** A padded name is the same name to an id: reporting an action under " a" does not make it another one. */
  lemma PaddingKeepsId(c: Config, i: IdInput, pad: char)
    requires IsSpace(pad)
    ensures c.IdOf(i.(action := [pad] + i.action)) == c.IdOf(i)
  {
    assert ([pad] + i.action)[1..] == i.action;
  }

  /** Each record carries the id computed from its own fields. */
  predicate IdsComputed(c: Config, records: seq<Escalation>) {
    forall i :: 0 <= i < |records| ==>
      var r := records[i];
      r.id == c.IdOf(IdInput(r.key.incident, r.key.node, r.action, r.class_, r.attempt))
  }

  /** A failure stored for `a`, under its own class or one of the two the engine substitutes, could carry the id of
      a retry of `b`. */
  predicate Clashes(a: Request, b: Request) {
    && NamesOf(a.incident, a.node, a.action) == NamesOf(b.incident, b.node, b.action)
    && (SameClass(a.class_, b.class_) || SameClass(CircuitBreakerOpen, b.class_) || SameClass(RetryBudgetExhausted, b.class_))
  }

  /** No action of the scope, read without surrounding spaces, fails after a failure of the same names with its class,
      or with a class the engine substitutes, and none that does is already stored. */
  predicate NoRepeats(records: seq<Escalation>, es: seq<Event>, key: Key) {
    forall j :: 0 <= j < |es| && OfScope(es[j], key) ==>
      (forall i :: 0 <= i < j && es[i].Failure? ==> !Clashes(es[i].req, es[j].req)) && NotStored(records, es[j].req)
  }

  /** The names reported for the scope contain no bar. */
  predicate NoBars(es: seq<Event>, key: Key) {
    forall j :: 0 <= j < |es| && OfScope(es[j], key) ==>
      BarFree(NamesOf(es[j].req.incident, es[j].req.node, es[j].req.action))
  }

  predicate OfScope(e: Event, key: Key) {
    e.Failure? && e.req.Scope() == key
  }

  predicate NotStored(records: seq<Escalation>, req: Request) {
    forall k :: 0 <= k < |records| ==> !Bears(records[k], req)
  }

  predicate Bears(r: Escalation, req: Request) {
    NamesOf(r.key.incident, r.key.node, r.action) == NamesOf(req.incident, req.node, req.action)
    && SameClass(r.class_, req.class_)
  }

  /** The records of a run: the old ones, and one of some failure of its scope each. */
  predicate Explained(c: Config, old_: seq<Escalation>, es: seq<Event>, r: Escalation) {
    || (exists k :: 0 <= k < |old_| && old_[k] == r)
    || (exists i :: 0 <= i < |es| && OfScope(es[i], r.key) && Stores(es[i].req, r))
  }

  predicate Stores(req: Request, r: Escalation) {
    r.action == req.action && (r.class_ == req.class_ || r.class_ == CircuitBreakerOpen || r.class_ == RetryBudgetExhausted)
  }

  predicate AllExplained(c: Config, s: State, es: seq<Event>, records: seq<Escalation>) {
    IdsComputed(c, records) && forall k :: 0 <= k < |records| ==> Explained(c, s.records, es, records[k])
  }

  /** A step stores at most one record, for the failure it evaluates. */
  lemma StepStores(c: Config, s: State, e: Event)
    ensures var t := Apply(c, s, e).records;
      || t == s.records
      || (e.Failure? && |t| == |s.records| + 1 && t[..|s.records|] == s.records
          && var r := t[|s.records|];
             && r.key == e.req.Scope() && Stores(e.req, r)
             && r.id == c.IdOf(IdInput(r.key.incident, r.key.node, r.action, r.class_, r.attempt)))
  {
    hide Judge, HasId, Config.IdOf;
  }

  lemma {:induction false} RunIsExplained(c: Config, s: State, es: seq<Event>)
    requires IdsComputed(c, s.records)
    ensures AllExplained(c, s, es, Run(c, s, es).records)
  {
    hide Config.IdOf;
    if es == [] {
      forall k | 0 <= k < |s.records| ensures Explained(c, s.records, es, s.records[k]) {}
    } else {
      var front, e := es[..|es| - 1], es[|es| - 1];
      RunIsExplained(c, s, front);
      var s1 := Run(c, s, front);
      hide Run, Apply;
      StepStores(c, s1, e);
      StepIsExplained(c, s, front, e, s1.records, Apply(c, s1, e).records);
      assert es == front + [e];
    }
  }

  /** The records after a step that stores at most one. */
  lemma StepIsExplained(c: Config, s: State, front: seq<Event>, e: Event, before: seq<Escalation>, after: seq<Escalation>)
    requires AllExplained(c, s, front, before)
    requires after == before
      || (e.Failure? && |after| == |before| + 1 && after[..|before|] == before
          && var r := after[|before|];
             && r.key == e.req.Scope() && Stores(e.req, r)
             && r.id == c.IdOf(IdInput(r.key.incident, r.key.node, r.action, r.class_, r.attempt)))
    ensures AllExplained(c, s, front + [e], after)
  {
    hide Config.IdOf, Stores;
    forall k | 0 <= k < |after| ensures Explained(c, s.records, front + [e], after[k]) {
      if k < |before| {
        assert after[k] == before[k];
        ExplainedGrows(c, s.records, front, e, after[k]);
      } else {
        assert OfScope((front + [e])[|front|], after[k].key);
      }
    }
    forall k | 0 <= k < |after|
      ensures after[k].id == c.IdOf(IdInput(after[k].key.incident, after[k].key.node, after[k].action, after[k].class_, after[k].attempt))
    {
      if k < |before| { assert after[k] == before[k]; }
    }
  }

  lemma ExplainedGrows(c: Config, old_: seq<Escalation>, front: seq<Event>, e: Event, r: Escalation)
    requires Explained(c, old_, front, r)
    ensures Explained(c, old_, front + [e], r)
  {
    if i :| 0 <= i < |front| && OfScope(front[i], r.key) && Stores(front[i].req, r) { assert (front + [e])[i] == front[i]; }
  }

  /** A retry whose names and class the run and the store have not seen gets a new id. */
  lemma UnseenIsFresh(c: Config, s: State, front: seq<Event>, records: seq<Escalation>, req: Request, attempt: nat)
    requires Injective(c.hash) && AllExplained(c, s, front, records) && NotStored(s.records, req)
    requires BarFree(NamesOf(req.incident, req.node, req.action)) && !req.class_.Unrecognized?
    requires forall i :: 0 <= i < |front| && front[i].Failure? ==> !Clashes(front[i].req, req)
    ensures !HasId(records, c.IdOf(IdInput(req.incident, req.node, req.action, req.class_, attempt)))
  {
    hide Trim, ClassName, Config.IdOf, Injective, BarFree;
    forall k | 0 <= k < |records|
      ensures records[k].id != c.IdOf(IdInput(req.incident, req.node, req.action, req.class_, attempt))
    {
      var r := records[k];
      assert Explained(c, s.records, front, r);
      UnseenDiffers(c, s, front, r, req);
      SameIdIff(c, IdInput(r.key.incident, r.key.node, r.action, r.class_, r.attempt),
                IdInput(req.incident, req.node, req.action, req.class_, attempt));
    }
  }

  lemma UnseenDiffers(c: Config, s: State, front: seq<Event>, r: Escalation, req: Request)
    requires Explained(c, s.records, front, r) && NotStored(s.records, req)
    requires forall i :: 0 <= i < |front| && front[i].Failure? ==> !Clashes(front[i].req, req)
    ensures !Bears(r, req)
  {
    hide Trim, ClassName;
    if i :| 0 <= i < |front| && OfScope(front[i], r.key) && Stores(front[i].req, r) {
      assert !Clashes(front[i].req, req);
    }
  }

  /** What a caller can rely on: with a collision-free hash and names without bars, if no action of the scope fails
      twice with one class after trimming, in the run or before it, then every RETRY gets a new id and the bound
      holds. */
  lemma {:induction false} NoRepeatsIsBounded(c: Config, s: State, es: seq<Event>, key: Key, lo: Time)
    requires c.policy.Valid() && Injective(c.hash) && IdsComputed(c, s.records)
    requires NoRepeats(s.records, es, key) && NoBars(es, key)
    ensures FreshRetries(c, s, es, key) && Bounded(c, s, es, key, lo)
  {
    NoRepeatsIsFresh(c, s, es, key);
    RetryBound(c, s, es, key, lo);
  }

  lemma {:induction false} NoRepeatsIsFresh(c: Config, s: State, es: seq<Event>, key: Key)
    requires Injective(c.hash) && IdsComputed(c, s.records) && NoRepeats(s.records, es, key) && NoBars(es, key)
    ensures FreshRetries(c, s, es, key)
  {
    if es != [] {
      hide Evaluate, Apply, Retries, HasId, Clashes, NotStored, AllExplained, IdsComputed, Injective, BarFree, NamesOf,
        Config.IdOf;
      var front, e := es[..|es| - 1], es[|es| - 1];
      NoRepeatsIsFresh(c, s, front, key);
      var s1 := Run(c, s, front);
      RunIsExplained(c, s, front);
      if Retries(c, s1, e, key) {
        RetryStep(c, s1, e, key);
        RetriedIsRecognized(c, s1, e, key);
        UnseenIsFresh(c, s, front, s1.records, e.req, Attempt(c.policy, s1, key, e.now));
      }
    }
  }

  lemma RetriedIsRecognized(c: Config, s: State, e: Event, key: Key)
    requires Retries(c, s, e, key)
    ensures e.Failure? && !e.req.class_.Unrecognized?
  {
  }

  /** The bound does fail: one failing action, retried once the first record has left the window,
      computes the first record's id again. */
  lemma BoundFailsOnRepeatedAction(version: string, hash: string -> string)
    ensures !AlwaysBounded(Config(Policy(3, 1, 10, 3), version, hash), State([], map[]), Key("n", "i"))
  {
    hide Config.IdOf;
    var c, s, key := Config(Policy(3, 1, 10, 3), version, hash), State([], map[]), Key("n", "i");
    var req, ok := Request("i", "n", "a", MitigationFailed), Faults(false, false, false, false, false);
    var first, again := Failure(req, 0, ok), Failure(req, 20, ok);
    var r := RecordFor(c, req, RetryLater, 1, 0);
    assert Run(c, s, []) == s;
    assert [first][..0] == [];
    assert Rejection(req).None? by {
      assert !IsSpace("i"[0]) && !IsSpace("n"[0]) && !IsSpace("a"[0]);
    }
    var s1 := Run(c, s, [first]);
    assert s1 == Apply(c, s, first) == State([r], map[]) by {
      assert CountSince(s.records, key, -10) == 0;
    }
    assert CountSince([r], key, 10) == 0 by {
      assert [r][..0] == [];
    }
    assert Latest([r], key) == Some(r) by {
      assert [r][..0] == [];
    }
    assert [r][0].id == r.id;
    assert [first, again][..1] == [first];
    assert !FreshRetries(c, s, [first, again], key);
    var over, lo := StaleRetryExceeds(c, s, [first, again], key, 0);
  }

  // ---- The breaker and the cooldown ----------------------------------------

  /** An operator with a non-blank identity resets the circuit of `key`. */
  predicate OperatorReset(e: Event, key: Key) {
    e.Resetting? && e.key == key && !Blank(e.operator)
  }

  /** Only an operator reset closes an open circuit. */
  lemma OnlyOperatorCloses(c: Config, s: State, e: Event, key: Key)
    requires IsOpen(s, key) && !OperatorReset(e, key)
    ensures IsOpen(Apply(c, s, e), key)
  {
  }

  lemma {:induction false} StaysOpen(c: Config, s: State, es: seq<Event>, key: Key)
    requires IsOpen(s, key) && forall i :: 0 <= i < |es| ==> !OperatorReset(es[i], key)
    ensures IsOpen(Run(c, s, es), key)
  {
    hide Apply;
    if es != [] {
      StaysOpen(c, s, es[..|es| - 1], key);
      OnlyOperatorCloses(c, Run(c, s, es[..|es| - 1]), es[|es| - 1], key);
    }
  }

  /** From a trip until an operator reset, every evaluation that reaches the store escalates with the
      circuit OPEN, every CanRetry says no, and neither depends on the instant. */
  lemma {:induction false} OpenCircuitEscalates(c: Config, s: State, es: seq<Event>, key: Key, req: Request,
          now: Time, f: Faults)
    requires IsOpen(s, key) && forall i :: 0 <= i < |es| ==> !OperatorReset(es[i], key)
    requires req.Scope() == key && Rejection(req).None? && !f.getCircuit
    ensures var s1 := Run(c, s, es);
            IsOpen(s1, key) && !Permits(c.policy, s1, key, now) &&
            Evaluate(c, s1, req, now, f).reply ==
            Ok(Decision(Escalate, CircuitBreakerOpen, s1.circuits[key].failureCount + 1, None, true, true))
  {
    hide Run;
    StaysOpen(c, s, es, key);
  }

  /** CanRetry and EvaluateFailure apply the same two tests at the same instant. */
  lemma CanRetryAgrees(p: Policy, s: State, req: Request, now: Time)
    requires req.class_ != CooldownActive
    ensures Permits(p, s, req.Scope(), now) <==> Judge(p, s, req, now) !in {AlreadyOpen, CoolingDown}
  {
  }

  lemma {:induction false} LatestIsNewest(records: seq<Escalation>, key: Key, i: nat)
    requires i < |records| && records[i].key == key
    ensures Latest(records, key).Some? && records[i].createdAt <= Latest(records, key).value.createdAt
  {
    if i < |records| - 1 { LatestIsNewest(records[..|records| - 1], key, i); }
  }

  /** After a RETRY under a new id, CanRetry says no until the cooldown is over; after one under a stored id it says
      yes at once. */
  lemma {:induction false} RetryCoolsDownIffFresh(c: Config, s: State, e: Event, key: Key, now: Time)
    requires Retries(c, s, e, key) && c.policy.Valid()
    ensures !HasId(s.records, RetryId(c, s, e)) ==>
      (Permits(c.policy, Apply(c, s, e), key, now) <==> now >= e.now + c.policy.cooldown)
    ensures HasId(s.records, RetryId(c, s, e)) ==> Permits(c.policy, Apply(c, s, e), key, e.now)
  {
    hide Evaluate, Retries, Apply, HasId;
    RetryStep(c, s, e, key);
    var r := RecordFor(c, e.req, RetryLater, Attempt(c.policy, s, key, e.now), e.now);
    if !HasId(s.records, RetryId(c, s, e)) {
      LatestOfAppend(s.records, r, key);
    }
  }

  lemma LatestOfAppend(records: seq<Escalation>, r: Escalation, key: Key)
    requires r.key == key
    ensures var l := Latest(records, key);
      Latest(records + [r], key) == if l.None? || l.value.createdAt <= r.createdAt then Some(r) else l
  {
    assert (records + [r])[..|records|] == records;
  }

  /** Every record of `key` from index `from` on was created at least one cooldown after all before it. */
  predicate Spaced(p: Policy, records: seq<Escalation>, key: Key, from: nat) {
    forall i, j :: 0 <= i < j < |records| && from <= j && records[i].key == key && records[j].key == key ==>
      records[i].createdAt + p.cooldown <= records[j].createdAt
  }

  predicate ClosedThroughout(c: Config, s: State, es: seq<Event>, key: Key) {
    es == [] || (ClosedThroughout(c, s, es[..|es| - 1], key) && !IsOpen(Run(c, s, es[..|es| - 1]), key))
  }

  lemma ClosedStepSpaces(c: Config, s: State, e: Event, key: Key, from: nat)
    requires !IsOpen(s, key) && Spaced(c.policy, s.records, key, from)
    ensures Spaced(c.policy, Apply(c, s, e).records, key, from)
  {
    hide Config.IdOf;
    var s' := Apply(c, s, e);
    if s'.records != s.records && e.Failure? && e.req.Scope() == key {
      assert !Cooling(c.policy, s, key, e.now);
      forall i | 0 <= i < |s.records| && s.records[i].key == key
        ensures s.records[i].createdAt + c.policy.cooldown <= e.now
      {
        LatestIsNewest(s.records, key, i);
      }
    }
  }

  /** While its circuit is closed, the recorded failures of a (node, incident) are a cooldown apart. */
  lemma {:induction false} ClosedFailuresAreSpaced(c: Config, s: State, es: seq<Event>, key: Key)
    requires ClosedThroughout(c, s, es, key)
    ensures |s.records| <= |Run(c, s, es).records|
    ensures Spaced(c.policy, Run(c, s, es).records, key, |s.records|)
  {
    if es != [] {
      hide Apply, Spaced;
      ClosedFailuresAreSpaced(c, s, es[..|es| - 1], key);
      ClosedStepSpaces(c, Run(c, s, es[..|es| - 1]), es[|es| - 1], key, |s.records|);
      StepKeepsFailures(c, Run(c, s, es[..|es| - 1]), es[|es| - 1], key, 0);
    }
  }
}
