/** The bounded remediation loop around the single-flight gate, over any number of cycles, crashes and
    restarts (edge/agent/orchestrator/orchestrator.go:435-1262, edge/agent/storage/sqlite.go:1723-1830, 1904-1960). */
module Orchestrator {
  import opened Common
  import opened SingleFlight

  datatype OState = WaitingApproval | Verifying | Escalated | Recovered | Failed | Cancelled

  predicate IsTerminal(s: OState) {
    s == Escalated || s == Recovered || s == Failed || s == Cancelled
  }

  datatype MitigationStatus = Pending | Executing | Executed | Broken | Skipped | Unknown

  datatype Mitigation = Mitigation(action: string, decision: string, incident: string, status: MitigationStatus)

  /** One call of the executor: the ids of the record made for it, and the decision id passed, which never carries
      the attempt's suffix. */
  datatype ExecCall = ExecCall(action: string, decision: string, incident: string, passed: string)

  type Result = Outcome<OState, string>

  /** Where the cycle of a flight stands: before its loop, at the top of an attempt, between the stored
      record and the executor call, or about to return. */
  datatype Phase = Preparing | Top(attempt: int) | Recorded(attempt: int, m: Mitigation, passed: string) | Stopped(o: Result)

  datatype Circuit = CircuitError | CircuitOpen | CircuitClosed

  /** What the checks before the loop find. */
  datatype Pre = Pre(listFails: bool, recovered: bool, circuit: Circuit, canRetry: Option<bool>)

  /** What one attempt meets: cancellation; a stop by policy, approval or safety validation; the decision
      "dec-<tail>"; a store fault; and whether execution or verification ended in an authorised retry. */
  datatype Round = Round(cancelled: bool, refusal: Option<OState>, tail: string, recordFails: bool, retry: bool, result: OState)

  /** `table` holds the mitigation rows by start time; `calls` logs the executor calls; both outlive a crash. */
  datatype Sys = Sys(table: seq<Mitigation>, calls: seq<ExecCall>, gate: Gate<OState, string>, cycles: map<nat, Phase>)

  datatype Step =
    | Orchestrate(incident: string, caller: nat)
    | Prepare(f: nat, pre: Pre)
    | TryRecord(f: nat, round: Round)
    | Execute(f: nat, round: Round)
    | Publish(f: nat)
    | OtherInsert(m: Mitigation)
    | OtherUpdate(i: nat, status: MitigationStatus)
    | Restart

  const LIST_LIMIT := 100

  /** Config.Validate's default. */
  function Ceiling(configured: int): (c: int)
    ensures c > 0 && (configured > 0 ==> c == configured) && (configured <= 0 ==> c == 4)
  {
    if configured <= 0 then 4 else configured
  }

  // ---- Store ---------------------------------------------------------------

  function RowsOf(table: seq<Mitigation>, incident: string): seq<Mitigation> {
    if table == [] then []
    else RowsOf(table[..|table| - 1], incident) + if table[|table| - 1].incident == incident then [table[|table| - 1]] else []
  }

  /** ListMitigations(incident, 100) */
  function Listed(table: seq<Mitigation>, incident: string): seq<Mitigation> {
    var rows := RowsOf(table, incident);
    if |rows| > LIST_LIMIT then rows[..LIST_LIMIT] else rows
  }

  predicate Taken(table: seq<Mitigation>, action: string, decision: string) {
    exists i :: 0 <= i < |table| && (table[i].action == action || table[i].decision == decision)
  }

  /** RecordMitigation: None on a fault or when either id is taken. */
  function Inserted(table: seq<Mitigation>, m: Mitigation, fails: bool): Option<seq<Mitigation>> {
    if fails || Taken(table, m.action, m.decision) then None else Some(table + [m])
  }

  function Suffix(attempt: int): string {
    if attempt > 1 then "-r" + Decimal(attempt) else ""
  }

  function RecordFor(incident: string, tail: string, attempt: int): Mitigation {
    Mitigation("act-" + tail + Suffix(attempt), "dec-" + tail + Suffix(attempt), incident, Executing)
  }

  // ---- One cycle -----------------------------------------------------------

  /** The checks before the loop, ending in a result or at the first attempt. */
  function Prepared(table: seq<Mitigation>, incident: string, pre: Pre): Phase {
    var prev := Listed(table, incident);
    if pre.listFails then Stopped(Outcome(Some(Failed), Some("persistence failed")))
    else if pre.recovered then Stopped(Outcome(Some(Recovered), None))
    else if exists i :: 0 <= i < |prev| && prev[i].status == Unknown then
      Stopped(Outcome(Some(Failed), Some("unknown reconciliation")))
    else if pre.circuit == CircuitError then Stopped(Outcome(Some(Failed), Some("circuit status")))
    else if pre.circuit == CircuitOpen then Stopped(Outcome(Some(Escalated), Some("circuit open")))
    else if |prev| > 0 && pre.canRetry != Some(true) then Stopped(Outcome(Some(Failed), Some("cooldown")))
    else Top(|prev| + 1)
  }

  /** The top of an attempt up to the stored record; nothing is executed without it. */
  function TopOfAttempt(ceiling: int, table: seq<Mitigation>, incident: string, attempt: int,
          r: Round): (seq<Mitigation>, Phase) {
    if r.cancelled then (table, Stopped(Outcome(Some(Cancelled), Some("cancelled"))))
    else if attempt > ceiling then (table, Stopped(Outcome(Some(Failed), Some("max attempts exceeded"))))
    else if r.refusal.Some? then (table, Stopped(Outcome(r.refusal, None)))
    else
      var m := RecordFor(incident, r.tail, attempt);
      var t := Inserted(table, m, r.recordFails);
      if t.None? then (table, Stopped(Outcome(Some(Failed), Some("persistence failed"))))
      else (t.value, Recorded(attempt, m, "dec-" + r.tail))
  }

  function AfterExecution(attempt: int, r: Round): Phase {
    if r.retry then Top(attempt + 1) else Stopped(Outcome(Some(r.result), None))
  }

  function Next(ceiling: int, s: Sys, step: Step): Sys {
    match step
    case Orchestrate(incident, caller) =>
      var (g, e) := Enter(s.gate, incident, caller);
      s.(gate := g, cycles := if e.Lead? then s.cycles[e.flight := Preparing] else s.cycles)
    case OtherInsert(m) => var t := Inserted(s.table, m, false); if t.None? then s else s.(table := t.value)
    case OtherUpdate(i, status) =>
      if i < |s.table| then s.(table := s.table[i := s.table[i].(status := status)]) else s
    case Restart => Sys(s.table, s.calls, Gate(map[], map[], []), map[])
    case _ =>
      if step.f !in s.cycles || !Running(s.gate, step.f) then s
      else CycleStep(ceiling, s, step.f, s.gate.flights[step.f].id, s.cycles[step.f], step)
  }

  function CycleStep(ceiling: int, s: Sys, f: nat, incident: string, phase: Phase, step: Step): Sys
    requires Running(s.gate, f)
  {
    match phase
    case Preparing => if step.Prepare? then s.(cycles := s.cycles[f := Prepared(s.table, incident, step.pre)]) else s
    case Top(attempt) =>
      if !step.TryRecord? then s
      else
        var (t, p) := TopOfAttempt(ceiling, s.table, incident, attempt, step.round);
        s.(table := t, cycles := s.cycles[f := p])
    case Recorded(attempt, m, passed) =>
      if !step.Execute? then s
      else s.(calls := s.calls + [ExecCall(m.action, m.decision, incident, passed)],
              cycles := s.cycles[f := AfterExecution(attempt, step.round)])
    case Stopped(o) =>
      if !step.Publish? then s
      else s.(gate := Finish(s.gate, f, o, o.res.Some? && IsTerminal(o.res.value)), cycles := s.cycles - {f})
  }

  function Run(ceiling: int, s: Sys, steps: seq<Step>): Sys {
    if steps == [] then s else Next(ceiling, Run(ceiling, s, steps[..|steps| - 1]), steps[|steps| - 1])
  }

  function Start(table: seq<Mitigation>): Sys {
    Sys(table, [], Gate(map[], map[], []), map[])
  }

  // ---- The bound -----------------------------------------------------------

  function Rows(table: seq<Mitigation>, incident: string): nat {
    |RowsOf(table, incident)|
  }

  function Calls(calls: seq<ExecCall>, incident: string): nat {
    if calls == [] then 0
    else Calls(calls[..|calls| - 1], incident) + if calls[|calls| - 1].incident == incident then 1 else 0
  }

  /** The calls made so far are covered by the attempt number, as far as the query limit lets it see. */
  predicate AttemptCovers(attempt: int, calls: nat) {
    attempt - 1 >= Min(calls, LIST_LIMIT)
  }

  predicate PhaseOk(ceiling: int, s: Sys, incident: string, phase: Phase) {
    match phase
    case Top(attempt) => AttemptCovers(attempt, Calls(s.calls, incident))
    case Recorded(attempt, m, passed) =>
      && AttemptCovers(attempt, Calls(s.calls, incident)) && attempt <= ceiling
      && m.incident == incident && Rows(s.table, incident) > Calls(s.calls, incident)
    case _ => true
  }

  predicate BoundOk(ceiling: int, s: Sys, incident: string) {
    && (ceiling <= LIST_LIMIT ==> Calls(s.calls, incident) <= ceiling)
    && Calls(s.calls, incident) <= Rows(s.table, incident)
    && (forall f :: f in s.cycles && Running(s.gate, f) && s.gate.flights[f].id == incident ==>
          PhaseOk(ceiling, s, incident, s.cycles[f]))
  }

  lemma RowsAppend(table: seq<Mitigation>, m: Mitigation, incident: string)
    ensures Rows(table + [m], incident) == Rows(table, incident) + if m.incident == incident then 1 else 0
  {
    assert (table + [m])[..|table|] == table;
  }

  lemma CallsAppend(calls: seq<ExecCall>, c: ExecCall, incident: string)
    ensures Calls(calls + [c], incident) == Calls(calls, incident) + if c.incident == incident then 1 else 0
  {
    assert (calls + [c])[..|calls|] == calls;
  }

  lemma {:induction false} RowsUpdate(table: seq<Mitigation>, i: nat, status: MitigationStatus, incident: string)
    requires i < |table|
    ensures Rows(table[i := table[i].(status := status)], incident) == Rows(table, incident)
  {
    var t := table[i := table[i].(status := status)];
    if i < |table| - 1 {
      RowsUpdate(table[..|table| - 1], i, status, incident);
      assert t[..|t| - 1] == table[..|table| - 1][i := table[i].(status := status)];
    } else {
      assert t[..|t| - 1] == table[..|table| - 1];
    }
  }

  lemma CycleStepKeepsBound(ceiling: int, s: Sys, f: nat, step: Step, incident: string)
    requires 0 < ceiling && GateOk(s.gate) && BoundOk(ceiling, s, incident)
    requires Running(s.gate, f) && f in s.cycles
    ensures BoundOk(ceiling, CycleStep(ceiling, s, f, s.gate.flights[f].id, s.cycles[f], step), incident)
  {
    hide Calls, RowsOf, RecordFor;
    var id, phase := s.gate.flights[f].id, s.cycles[f];
    if phase.Top? && step.TryRecord? {
      RowsAppend(s.table, RecordFor(id, step.round.tail, phase.attempt), incident);
      RecordForIncident(id, step.round.tail, phase.attempt);
    }
    if phase.Recorded? && step.Execute? { 
      CallsAppend(s.calls, ExecCall(phase.m.action, phase.m.decision, id, phase.passed), incident);
    }
  }

  lemma RecordForIncident(incident: string, tail: string, attempt: int)
    ensures RecordFor(incident, tail, attempt).incident == incident
    ensures RecordFor(incident, tail, attempt).decision == "dec-" + tail + Suffix(attempt)
  {
  }

  lemma {:induction false} StepKeepsBound(ceiling: int, s: Sys, step: Step, incident: string)
    requires 0 < ceiling && GateOk(s.gate) && BoundOk(ceiling, s, incident)
    ensures BoundOk(ceiling, Next(ceiling, s, step), incident)
  {
    hide Calls, RowsOf;
    match step
    case Orchestrate(i, caller) =>
    case OtherInsert(m) => RowsAppend(s.table, m, incident);
    case OtherUpdate(i, status) => if i < |s.table| { RowsUpdate(s.table, i, status, incident); }
    case Restart =>
    case _ => if step.f in s.cycles && Running(s.gate, step.f) { CycleStepKeepsBound(ceiling, s, step.f, step, incident); }
  }

  lemma StepKeepsGate(ceiling: int, s: Sys, step: Step)
    requires GateOk(s.gate)
    ensures GateOk(Next(ceiling, s, step).gate)
  {
    match step
    case Orchestrate(i, caller) => EnterKeepsGate(s.gate, i, caller);
    case Publish(f) =>
      if f in s.cycles && Running(s.gate, f) && s.cycles[f].Stopped? {
        var o := s.cycles[f].o;
        FinishKeepsGate(s.gate, f, o, o.res.Some? && IsTerminal(o.res.value));
      }
    case _ =>
  }

  lemma {:induction false} RunKeepsBound(ceiling: int, s: Sys, steps: seq<Step>, incident: string)
    requires 0 < ceiling && GateOk(s.gate) && BoundOk(ceiling, s, incident)
    ensures GateOk(Run(ceiling, s, steps).gate) && BoundOk(ceiling, Run(ceiling, s, steps), incident)
  {
    hide GateOk, BoundOk, Next;
    if steps != [] {
      var front := steps[..|steps| - 1];
      RunKeepsBound(ceiling, s, front, incident);
      StepKeepsGate(ceiling, Run(ceiling, s, front), steps[|steps| - 1]);
      StepKeepsBound(ceiling, Run(ceiling, s, front), steps[|steps| - 1], incident);
    }
  }

  /** Over any number of cycles, concurrent callers, crashes and restarts, and whatever other components
      write to the table, the executor is called at most MaxExecutionCeiling times for an incident, when the
      ceiling does not exceed the query limit. */
  lemma {:induction false} ExecutionsAreBounded(configured: int, table: seq<Mitigation>, steps: seq<Step>,
          incident: string)
    requires Ceiling(configured) <= LIST_LIMIT
    ensures Calls(Run(Ceiling(configured), Start(table), steps).calls, incident) <= Ceiling(configured)
  {
    RunKeepsBound(Ceiling(configured), Start(table), steps, incident);
  }

  // ---- Records precede calls -------------------------------------------------

  predicate HasRow(table: seq<Mitigation>, action: string, decision: string, incident: string) {
    exists i :: 0 <= i < |table| && table[i].action == action && table[i].decision == decision && table[i].incident == incident
  }

  predicate Called(calls: seq<ExecCall>, action: string, decision: string) {
    exists i :: 0 <= i < |calls| && (calls[i].action == action || calls[i].decision == decision)
  }

  predicate CallsRecorded(s: Sys) {
    forall i :: 0 <= i < |s.calls| ==> HasRow(s.table, s.calls[i].action, s.calls[i].decision, s.calls[i].incident)
  }

  predicate CallsDistinct(calls: seq<ExecCall>) {
    forall i, j :: 0 <= i < j < |calls| ==> calls[i].action != calls[j].action && calls[i].decision != calls[j].decision
  }

  /** A cycle between its record and its call owns ids nobody has called with. */
  predicate Owned(s: Sys, f: nat)
    requires f in s.cycles && s.cycles[f].Recorded?
  {
    var m := s.cycles[f].m;
    && HasRow(s.table, m.action, m.decision, m.incident) && !Called(s.calls, m.action, m.decision)
    && (Running(s.gate, f) ==> s.gate.flights[f].id == m.incident)
    && m.decision == s.cycles[f].passed + Suffix(s.cycles[f].attempt)
  }

  predicate CyclesOwn(s: Sys) {
    forall f :: f in s.cycles && s.cycles[f].Recorded? ==> Owned(s, f)
  }

  predicate OwnersDiffer(s: Sys) {
    forall f, h :: f in s.cycles && h in s.cycles && f != h && s.cycles[f].Recorded? && s.cycles[h].Recorded? ==>
      s.cycles[f].m.action != s.cycles[h].m.action && s.cycles[f].m.decision != s.cycles[h].m.decision
  }

  predicate RecordsOk(s: Sys) {
    CallsRecorded(s) && CallsDistinct(s.calls) && CyclesOwn(s) && OwnersDiffer(s)
  }

  /** More rows, or rows whose status changed, keep every row's ids. */
  predicate Grows(t: seq<Mitigation>, t': seq<Mitigation>) {
    |t| <= |t'| && forall i :: 0 <= i < |t| ==>
      t'[i].action == t[i].action && t'[i].decision == t[i].decision && t'[i].incident == t[i].incident
  }

  lemma GrowingKeepsRecords(s: Sys, t: seq<Mitigation>)
    requires RecordsOk(s) && Grows(s.table, t)
    ensures RecordsOk(s.(table := t))
  {
    forall a, d, i | HasRow(s.table, a, d, i) ensures HasRow(t, a, d, i) {
      var k :| 0 <= k < |s.table| && s.table[k].action == a && s.table[k].decision == d && s.table[k].incident == i;
      assert t[k].action == a;
    }
    hide HasRow, Called;
    var s' := s.(table := t);
    forall f | f in s'.cycles && s'.cycles[f].Recorded? ensures Owned(s', f) { assert Owned(s, f); }
  }

  /** A cycle moves to a phase that owns no ids. */
  lemma ReleasingKeepsRecords(s: Sys, f: nat, p: Phase)
    requires RecordsOk(s) && !p.Recorded?
    ensures RecordsOk(s.(cycles := s.cycles[f := p]))
  {
    hide HasRow, Called;
    var s' := s.(cycles := s.cycles[f := p]);
    forall h | h in s'.cycles && s'.cycles[h].Recorded? ensures Owned(s', h) { assert Owned(s, h); }
  }

  lemma CalledIsTaken(s: Sys, action: string, decision: string)
    requires CallsRecorded(s)
    ensures Called(s.calls, action, decision) ==> Taken(s.table, action, decision)
  {
    if Called(s.calls, action, decision) {
      var i :| 0 <= i < |s.calls| && (s.calls[i].action == action || s.calls[i].decision == decision);
      assert HasRow(s.table, s.calls[i].action, s.calls[i].decision, s.calls[i].incident);
    }
  }

  lemma RecordingKeepsRecords(s: Sys, f: nat, attempt: int, m: Mitigation, passed: string)
    requires RecordsOk(s) && Running(s.gate, f) && s.gate.flights[f].id == m.incident
    requires f in s.cycles && !s.cycles[f].Recorded?
    requires !Taken(s.table, m.action, m.decision) && m.decision == passed + Suffix(attempt)
    ensures RecordsOk(s.(table := s.table + [m], cycles := s.cycles[f := Recorded(attempt, m, passed)]))
  {
    var t := s.table + [m];
    assert Grows(s.table, t);
    GrowingKeepsRecords(s, t);
    assert t[|s.table|] == m;
    assert HasRow(t, m.action, m.decision, m.incident);
    CalledIsTaken(s, m.action, m.decision);
    var s' := s.(table := t, cycles := s.cycles[f := Recorded(attempt, m, passed)]);
    forall h | h in s'.cycles && s'.cycles[h].Recorded?
      ensures Owned(s', h) && (h != f ==> s'.cycles[h].m.action != m.action && s'.cycles[h].m.decision != m.decision)
    {
      if h != f { assert Owned(s, h) && Owned(s.(table := t), h); }
    }
  }

  lemma CallingKeepsRecords(s: Sys, f: nat, p: Phase)
    requires RecordsOk(s) && f in s.cycles && s.cycles[f].Recorded? && !p.Recorded?
    ensures var m := s.cycles[f].m;
      RecordsOk(s.(calls := s.calls + [ExecCall(m.action, m.decision, m.incident, s.cycles[f].passed)],
                   cycles := s.cycles[f := p]))
  {
    assert Owned(s, f);
    var m := s.cycles[f].m;
    var s' := s.(calls := s.calls + [ExecCall(m.action, m.decision, m.incident, s.cycles[f].passed)],
                 cycles := s.cycles[f := p]);
    forall i | 0 <= i < |s.calls| ensures s.calls[i].action != m.action && s.calls[i].decision != m.decision {}
    forall h | h in s'.cycles && s'.cycles[h].Recorded? ensures Owned(s', h) {
      assert Owned(s, h) && s.cycles[h].m.action != m.action;
    }
  }

  lemma PublishingKeepsRecords(s: Sys, f: nat, o: Result, keep: bool)
    requires RecordsOk(s) && Running(s.gate, f)
    ensures RecordsOk(s.(gate := Finish(s.gate, f, o, keep), cycles := s.cycles - {f}))
  {
    hide HasRow, Called;
    var s' := s.(gate := Finish(s.gate, f, o, keep), cycles := s.cycles - {f});
    forall h | h in s'.cycles && s'.cycles[h].Recorded? ensures Owned(s', h) { assert Owned(s, h); }
  }

  lemma EnteringKeepsRecords(s: Sys, incident: string, caller: nat)
    requires RecordsOk(s) && forall f :: f in s.cycles ==> f < |s.gate.flights|
    ensures RecordsOk(s.(gate := Enter(s.gate, incident, caller).0))
  {
    hide HasRow, Called;
    var s' := s.(gate := Enter(s.gate, incident, caller).0);
    forall h | h in s'.cycles && s'.cycles[h].Recorded? ensures Owned(s', h) { assert Owned(s, h); }
  }

  predicate CyclesHaveFlights(s: Sys) {
    forall f :: f in s.cycles ==> f < |s.gate.flights|
  }

  lemma CycleStepKeepsRecords(ceiling: int, s: Sys, f: nat, step: Step)
    requires RecordsOk(s) && f in s.cycles && Running(s.gate, f)
    ensures RecordsOk(CycleStep(ceiling, s, f, s.gate.flights[f].id, s.cycles[f], step))
  {
    var id, phase := s.gate.flights[f].id, s.cycles[f];
    if phase.Recorded? { assert Owned(s, f); }
    hide RecordsOk, Taken, Prepared, RecordFor, Suffix;
    match phase
    case Preparing =>
      if step.Prepare? {
        PreparedOwnsNothing(s.table, id, step.pre);
        ReleasingKeepsRecords(s, f, Prepared(s.table, id, step.pre));
      }
    case Top(attempt) =>
      if step.TryRecord? {
        var m := RecordFor(id, step.round.tail, attempt);
        RecordForIncident(id, step.round.tail, attempt);
        var (t, p) := TopOfAttempt(ceiling, s.table, id, attempt, step.round);
        if p.Recorded? { RecordingKeepsRecords(s, f, attempt, m, "dec-" + step.round.tail); } else { ReleasingKeepsRecords(s, f, p); }
      }
    case Recorded(attempt, m, passed) => if step.Execute? { CallingKeepsRecords(s, f, AfterExecution(attempt, step.round)); }
    case Stopped(o) => if step.Publish? { PublishingKeepsRecords(s, f, o, o.res.Some? && IsTerminal(o.res.value)); }
  }

  lemma PreparedOwnsNothing(table: seq<Mitigation>, incident: string, pre: Pre)
    ensures !Prepared(table, incident, pre).Recorded?
  {
  }

  lemma {:induction false} StepKeepsRecords(ceiling: int, s: Sys, step: Step)
    requires RecordsOk(s) && CyclesHaveFlights(s)
    ensures RecordsOk(Next(ceiling, s, step)) && CyclesHaveFlights(Next(ceiling, s, step))
  {
    StepKeepsFlights(ceiling, s, step);
    match step
    case Orchestrate(i, caller) =>
      EnteringKeepsRecords(s, i, caller);
      ReleasingKeepsRecords(s.(gate := Enter(s.gate, i, caller).0), |s.gate.flights|, Preparing);
    case OtherInsert(m) => GrowingKeepsRecords(s, s.table + [m]);
    case OtherUpdate(i, status) => if i < |s.table| { GrowingKeepsRecords(s, s.table[i := s.table[i].(status := status)]); }
    case Restart =>
    case _ => if step.f in s.cycles && Running(s.gate, step.f) { CycleStepKeepsRecords(ceiling, s, step.f, step); }
  }

  lemma StepKeepsFlights(ceiling: int, s: Sys, step: Step)
    requires CyclesHaveFlights(s)
    ensures CyclesHaveFlights(Next(ceiling, s, step))
  {
  }

  lemma {:induction false} RunKeepsRecords(ceiling: int, s: Sys, steps: seq<Step>)
    requires RecordsOk(s) && CyclesHaveFlights(s)
    ensures RecordsOk(Run(ceiling, s, steps)) && CyclesHaveFlights(Run(ceiling, s, steps))
  {
    hide RecordsOk, CyclesHaveFlights, Next;
    if steps != [] {
      RunKeepsRecords(ceiling, s, steps[..|steps| - 1]);
      StepKeepsRecords(ceiling, Run(ceiling, s, steps[..|steps| - 1]), steps[|steps| - 1]);
    }
  }

  /** Whenever the executor is called, the mitigation record of the call is already stored, and no earlier call had a
      record with its action id or its decision id. The decision id passed is the record's without the attempt
      suffix, so a retry of one decision passes the same id again. */
  lemma {:induction false} RecordPrecedesCall(ceiling: int, table: seq<Mitigation>, steps: seq<Step>, step: Step)
    ensures var s := Run(ceiling, Start(table), steps);
      var s' := Next(ceiling, s, step);
      s'.calls != s.calls ==>
        && |s'.calls| == |s.calls| + 1 && s.calls == s'.calls[..|s.calls|]
        && var c := s'.calls[|s.calls|];
           && HasRow(s.table, c.action, c.decision, c.incident) && !Called(s.calls, c.action, c.decision)
           && step.Execute? && step.f in s.cycles && s.cycles[step.f].Recorded?
           && c.decision == c.passed + Suffix(s.cycles[step.f].attempt)
  {
    RunKeepsRecords(ceiling, Start(table), steps);
    var s := Run(ceiling, Start(table), steps);
    hide Run, HasRow, Called, Suffix;
    if Next(ceiling, s, step).calls != s.calls { assert Owned(s, step.f); }
  }

  // ---- Attempts do not collide --------------------------------------------------

  /** Two attempts of one decision never share an action id or a decision id, so the record of a retry is not
      refused because of the record of an earlier attempt. */
  lemma {:induction false} AttemptsHaveOwnIds(incident: string, tail: string, a: nat, b: nat)
    requires 1 <= a < b
    ensures RecordFor(incident, tail, a).action != RecordFor(incident, tail, b).action
    ensures RecordFor(incident, tail, a).decision != RecordFor(incident, tail, b).decision
  {
    if Suffix(a) == Suffix(b) {
      assert Suffix(b)[2..] == Decimal(b);
      if a > 1 {
        assert Suffix(a)[2..] == Decimal(a);
        DecimalInjective(a, b);
      }
    }
    PrefixCancels("act-" + tail, Suffix(a), Suffix(b));
    PrefixCancels("dec-" + tail, Suffix(a), Suffix(b));
  }

  lemma PrefixCancels(p: string, a: string, b: string)
    ensures p + a == p + b ==> a == b
  {
    assert (p + a)[|p|..] == a && (p + b)[|p|..] == b;
  }

  // ---- A terminal result is final ---------------------------------------------

  predicate SettledIn(s: Sys, incident: string) {
    incident in s.gate.history && incident !in s.gate.inFlight
  }

  predicate HistoryOk(s: Sys) {
    forall i :: i in s.gate.history ==> i !in s.gate.inFlight
  }

  lemma {:induction false} RunKeepsHistory(ceiling: int, s: Sys, steps: seq<Step>)
    requires GateOk(s.gate) && HistoryOk(s)
    ensures GateOk(Run(ceiling, s, steps).gate) && HistoryOk(Run(ceiling, s, steps))
  {
    hide Next, GateOk, HistoryOk;
    if steps != [] {
      RunKeepsHistory(ceiling, s, steps[..|steps| - 1]);
      StepKeepsGate(ceiling, Run(ceiling, s, steps[..|steps| - 1]), steps[|steps| - 1]);
      StepKeepsHistory(ceiling, Run(ceiling, s, steps[..|steps| - 1]), steps[|steps| - 1]);
    }
  }

  lemma StepKeepsHistory(ceiling: int, s: Sys, step: Step)
    requires GateOk(s.gate) && HistoryOk(s)
    ensures HistoryOk(Next(ceiling, s, step))
  {
  }

  lemma SettledStaysSettled(ceiling: int, s: Sys, step: Step, incident: string)
    requires GateOk(s.gate) && SettledIn(s, incident) && !step.Restart?
    ensures var s' := Next(ceiling, s, step);
      SettledIn(s', incident) && s'.gate.history[incident] == s.gate.history[incident]
      && Calls(s'.calls, incident) == Calls(s.calls, incident)
  {
    hide Calls;
    if step.Execute? && step.f in s.cycles && Running(s.gate, step.f) && s.cycles[step.f].Recorded? {
      var m := s.cycles[step.f].m;
      CallsAppend(s.calls, ExecCall(m.action, m.decision, s.gate.flights[step.f].id, s.cycles[step.f].passed), incident);
    }
  }

  predicate NoRestart(steps: seq<Step>) {
    forall i :: 0 <= i < |steps| ==> !steps[i].Restart?
  }

  /** Once a cycle of an incident has returned a terminal result, the process never calls the executor for it
      again, and every later caller gets that result. */
  lemma {:induction false} TerminalResultIsFinal(ceiling: int, table: seq<Mitigation>, steps: seq<Step>,
          more: seq<Step>, incident: string, caller: nat)
    requires NoRestart(more) && incident in Run(ceiling, Start(table), steps).gate.history
    ensures var s := Run(ceiling, Start(table), steps);
      var s' := Run(ceiling, s, more);
      && Calls(s'.calls, incident) == Calls(s.calls, incident)
      && Enter(s'.gate, incident, caller) == (s'.gate, Hit(s.gate.history[incident]))
  {
    RunKeepsHistory(ceiling, Start(table), steps);
    RunStaysSettled(ceiling, Run(ceiling, Start(table), steps), more, incident);
  }

  lemma {:induction false} RunStaysSettled(ceiling: int, s: Sys, steps: seq<Step>, incident: string)
    requires GateOk(s.gate) && SettledIn(s, incident) && NoRestart(steps)
    ensures var s' := Run(ceiling, s, steps);
      && GateOk(s'.gate) && SettledIn(s', incident) && s'.gate.history[incident] == s.gate.history[incident]
      && Calls(s'.calls, incident) == Calls(s.calls, incident)
  {
    hide Calls, Next, GateOk;
    if steps != [] {
      var front := steps[..|steps| - 1];
      RunStaysSettled(ceiling, s, front, incident);
      StepKeepsGate(ceiling, Run(ceiling, s, front), steps[|steps| - 1]);
      SettledStaysSettled(ceiling, Run(ceiling, s, front), steps[|steps| - 1], incident);
    }
  }

  // ---- When a cycle may act --------------------------------------------------------

  /** The rows of the incident, by index. */
  function IndicesOf(table: seq<Mitigation>, incident: string): set<int> {
    set i | 0 <= i < |table| && table[i].incident == incident
  }

  /** A row that the limited query shows: one of the first 100 of the incident. */
  predicate Shows(table: seq<Mitigation>, incident: string, i: int) {
    0 <= i < |table| && table[i].incident == incident && |IndicesOf(table[..i], incident)| < 100
  }

  lemma IndicesAppend(table: seq<Mitigation>, incident: string)
    requires table != []
    ensures var front := table[..|table| - 1];
      IndicesOf(table, incident) == IndicesOf(front, incident) + (if table[|front|].incident == incident then {|front|} else {})
      && |front| !in IndicesOf(front, incident)
  {
  }

  lemma {:induction false} RowsAreCounted(table: seq<Mitigation>, incident: string)
    ensures |RowsOf(table, incident)| == |IndicesOf(table, incident)|
  {
    if table == [] {
      assert IndicesOf(table, incident) == {};
    } else {
      RowsAreCounted(table[..|table| - 1], incident);
      IndicesAppend(table, incident);
      hide IndicesOf;
    }
  }

  /** Row `i` of the table stands in the incident's rows after those before it. */
  lemma {:induction false} RowAt(table: seq<Mitigation>, incident: string, i: nat)
    requires i < |table| && table[i].incident == incident
    ensures var k := |IndicesOf(table[..i], incident)|; k < |RowsOf(table, incident)| && RowsOf(table, incident)[k] == table[i]
  {
    var front := table[..|table| - 1];
    hide IndicesOf;
    if i < |front| {
      RowAt(front, incident, i);
      assert front[..i] == table[..i];
    } else {
      RowsAreCounted(front, incident);
    }
  }

  lemma {:induction false} RowFrom(table: seq<Mitigation>, incident: string, k: nat) returns (i: nat)
    requires k < |RowsOf(table, incident)|
    ensures i < |table| && table[i].incident == incident && |IndicesOf(table[..i], incident)| == k
  {
    var front := table[..|table| - 1];
    hide IndicesOf;
    RowsAreCounted(front, incident);
    if k < |RowsOf(front, incident)| {
      i := RowFrom(front, incident, k);
      assert front[..i] == table[..i];
    } else {
      i := |front|;
    }
  }

  lemma {:induction false} ListedAreShown(table: seq<Mitigation>, incident: string)
    ensures |Listed(table, incident)| == Min(|IndicesOf(table, incident)|, 100)
    ensures (exists k :: 0 <= k < |Listed(table, incident)| && Listed(table, incident)[k].status == Unknown)
       <==> (exists i :: Shows(table, incident, i) && table[i].status == Unknown)
  {
    RowsAreCounted(table, incident);
    var rows := RowsOf(table, incident);
    hide RowsOf, IndicesOf;
    if k :| 0 <= k < |Listed(table, incident)| && Listed(table, incident)[k].status == Unknown {
      var i := RowFrom(table, incident, k);
      RowAt(table, incident, i);
      assert Shows(table, incident, i);
    }
    if i :| Shows(table, incident, i) && table[i].status == Unknown {
      RowAt(table, incident, i);
      assert Listed(table, incident)[|IndicesOf(table[..i], incident)|] == table[i];
    }
  }

  /** The query works, recovery is unconfirmed, no row shown is UNKNOWN, the circuit is closed, and there is no prior row
      or the escalation engine permits a retry. */
  predicate MayAttempt(table: seq<Mitigation>, incident: string, pre: Pre) {
    && !pre.listFails && !pre.recovered && !(exists i :: 0 <= i < |table| && Shows(table, incident, i) && table[i].status == Unknown)
    && pre.circuit == CircuitClosed && (IndicesOf(table, incident) == {} || pre.canRetry == Some(true))
  }

  /** How a cycle that may not attempt anything ends: Failed, but Recovered when recovery is confirmed and Escalated on an
      open circuit; the first obstacle in the order of the checks decides. */
  predicate EndsAs(table: seq<Mitigation>, incident: string, pre: Pre, o: Result) {
    if pre.listFails then o == Outcome(Some(Failed), Some("persistence failed"))
    else if pre.recovered then o == Outcome(Some(Recovered), None)
    else if exists i :: 0 <= i < |table| && Shows(table, incident, i) && table[i].status == Unknown then
      o == Outcome(Some(Failed), Some("unknown reconciliation"))
    else if pre.circuit == CircuitError then o == Outcome(Some(Failed), Some("circuit status"))
    else if pre.circuit == CircuitOpen then o == Outcome(Some(Escalated), Some("circuit open"))
    else o == Outcome(Some(Failed), Some("cooldown"))
  }

  /** A cycle reaches its first attempt, numbered after the prior rows it can see, exactly when it may attempt
      something. */
  lemma {:induction false} ReachesAttemptIff(table: seq<Mitigation>, incident: string, pre: Pre)
    ensures Prepared(table, incident, pre).Top? <==> MayAttempt(table, incident, pre)
    ensures Prepared(table, incident, pre).Top? ==>
      Prepared(table, incident, pre).attempt == Min(|IndicesOf(table, incident)|, 100) + 1
    ensures !MayAttempt(table, incident, pre) ==>
      Prepared(table, incident, pre).Stopped? && EndsAs(table, incident, pre, Prepared(table, incident, pre).o)
  {
    ListedAreShown(table, incident);
    hide Listed, RowsOf, IndicesOf;
    assert (exists i :: Shows(table, incident, i) && table[i].status == Unknown)
      <==> (exists i :: 0 <= i < |table| && Shows(table, incident, i) && table[i].status == Unknown);
    assert IndicesOf(table, incident) == {} <==> |IndicesOf(table, incident)| == 0;
  }

  /** "act-" or "dec-", the decision's digest, and from the second attempt on the attempt. */
  function RecordId(prefix: string, tail: string, attempt: int): string {
    prefix + tail + if attempt <= 1 then "" else "-r" + Decimal(attempt)
  }

  /** An attempt goes on to its record: it is not cancelled, within the ceiling, not refused by policy, approval or safety,
      and its record, whose ids are free, can be written. */
  predicate MayRecord(ceiling: int, table: seq<Mitigation>, attempt: int, r: Round) {
    && !r.cancelled && attempt <= ceiling && r.refusal == None && !r.recordFails
    && forall i :: 0 <= i < |table| ==>
         table[i].action != RecordId("act-", r.tail, attempt) && table[i].decision != RecordId("dec-", r.tail, attempt)
  }

  /** An attempt that may not record ends the cycle with nothing written; one that may adds exactly its EXECUTING row. */
  lemma {:induction false} RecordsIff(ceiling: int, table: seq<Mitigation>, incident: string, attempt: int, r: Round)
    ensures var (t, p) := TopOfAttempt(ceiling, table, incident, attempt, r);
      var m := Mitigation(RecordId("act-", r.tail, attempt), RecordId("dec-", r.tail, attempt), incident, Executing);
      && (MayRecord(ceiling, table, attempt, r) ==> t == table + [m] && p == Recorded(attempt, m, "dec-" + r.tail))
      && (!MayRecord(ceiling, table, attempt, r) ==>
           t == table && p == Stopped(
             if r.cancelled then Outcome(Some(Cancelled), Some("cancelled"))
             else if attempt > ceiling then Outcome(Some(Failed), Some("max attempts exceeded"))
             else if r.refusal.Some? then Outcome(r.refusal, None)
             else Outcome(Some(Failed), Some("persistence failed"))))
  {
    assert RecordFor(incident, r.tail, attempt).action == RecordId("act-", r.tail, attempt);
    assert RecordFor(incident, r.tail, attempt).decision == RecordId("dec-", r.tail, attempt);
    hide Decimal, Suffix, RecordId;
  }

  /** After its one call a cycle goes on to the next attempt if a retry is authorised, and otherwise ends with the result
      of execution and verification. */
  lemma ExecuteDecides(ceiling: int, s: Sys, f: nat, r: Round)
    requires Running(s.gate, f) && f in s.cycles && s.cycles[f].Recorded?
    ensures var p := s.cycles[f];
      var s' := Next(ceiling, s, Execute(f, r));
      && s'.table == s.table && s'.gate == s.gate
      && s'.calls == s.calls + [ExecCall(p.m.action, p.m.decision, s.gate.flights[f].id, p.passed)]
      && s'.cycles == s.cycles[f := if r.retry then Top(p.attempt + 1) else Stopped(Outcome(Some(r.result), None))]
  {
  }

  /** A published result reaches the flight, ends it, and is cached exactly when it is Escalated, Recovered, Failed or
      Cancelled; while no result is cached and no flight runs, the next caller starts a new cycle. */
  lemma {:induction false} PublishDecides(ceiling: int, s: Sys, f: nat, o: Result, caller: nat)
    requires GateOk(s.gate) && Running(s.gate, f) && f in s.cycles && s.cycles[f] == Stopped(o)
    ensures var id := s.gate.flights[f].id;
      var s' := Next(ceiling, s, Publish(f));
      && s'.table == s.table && s'.calls == s.calls && f !in s'.cycles
      && s'.gate.flights == s.gate.flights[f := s.gate.flights[f].(outcome := Some(o))] && id !in s'.gate.inFlight
      && s'.gate.history == (if o.res in {Some(Escalated), Some(Recovered), Some(Failed), Some(Cancelled)}
                             then s.gate.history[id := o.res.value] else s.gate.history)
      && (id !in s'.gate.history ==>
           var s'' := Next(ceiling, s', Orchestrate(id, caller));
           |s.gate.flights| in s''.cycles && s''.cycles[|s.gate.flights|] == Preparing)
  {
  }

  // ---- The orchestrator --------------------------------------------------------

  /** The steps of one cycle that meets `rounds`, attempt by attempt; steps after the cycle stopped do nothing. */
  function CycleSteps(f: nat, pre: Pre, rounds: seq<Round>): seq<Step> {
    if rounds == [] then [Prepare(f, pre)]
    else
      var r := rounds[|rounds| - 1];
      CycleSteps(f, pre, rounds[..|rounds| - 1]) + [TryRecord(f, r), Execute(f, r)]
  }

  lemma {:induction false} StoppedStaysStopped(ceiling: int, s: Sys, f: nat, pre: Pre, rounds: seq<Round>, k: nat)
    requires k <= |rounds|
    requires var t := Run(ceiling, s, CycleSteps(f, pre, rounds[..k])); f in t.cycles && t.cycles[f].Stopped?
    ensures Run(ceiling, s, CycleSteps(f, pre, rounds)) == Run(ceiling, s, CycleSteps(f, pre, rounds[..k]))
  {
    hide Run, Next;
    if k == |rounds| {
      assert rounds[..k] == rounds;
    } else {
      StoppedIgnores(ceiling, Run(ceiling, s, CycleSteps(f, pre, rounds[..k])), f, rounds[|rounds| - 1]);
      var front := rounds[..|rounds| - 1];
      assert front[..k] == rounds[..k];
      StoppedStaysStopped(ceiling, s, f, pre, front, k);
      RunPair(ceiling, s, CycleSteps(f, pre, front), TryRecord(f, rounds[|rounds| - 1]), Execute(f, rounds[|rounds| - 1]));
    }
  }

  lemma StoppedIgnores(ceiling: int, s: Sys, f: nat, r: Round)
    requires f in s.cycles && s.cycles[f].Stopped?
    ensures Next(ceiling, Next(ceiling, s, TryRecord(f, r)), Execute(f, r)) == s
  {
  }

  lemma RunPair(ceiling: int, s: Sys, steps: seq<Step>, a: Step, b: Step)
    ensures Run(ceiling, s, steps + [a, b]) == Next(ceiling, Next(ceiling, Run(ceiling, s, steps), a), b)
  {
    assert (steps + [a, b])[..|steps| + 1] == steps + [a];
    assert (steps + [a])[..|steps|] == steps;
  }

  class DefaultOrchestrator {
    const ceiling: int
    var table: seq<Mitigation>
    var calls: seq<ExecCall>
    var gate: Gate<OState, string>
    var cycles: map<nat, Phase>

    function View(): Sys
      reads this
    {
      Sys(table, calls, gate, cycles)
    }

    constructor (configured: int, table: seq<Mitigation>)
      ensures ceiling == Ceiling(configured) && View() == Start(table)
    {
      ceiling := if configured <= 0 then 4 else configured;
      this.table, calls, gate, cycles := table, [], Gate(map[], map[], []), map[];
    }

    /** The gate of OrchestrateIncident. */
    method EnterGate(incident: string, caller: nat) returns (e: Entry<OState>)
      modifies this
      ensures View() == Next(ceiling, old(View()), Orchestrate(incident, caller))
      ensures e == Enter(old(gate), incident, caller).1
    {
      if incident in gate.history { return Hit(gate.history[incident]); }
      if incident in gate.inFlight { return Follow(gate.inFlight[incident]); }
      var f := |gate.flights|;
      gate := Gate(gate.history, gate.inFlight[incident := f], gate.flights + [Flight(incident, caller, None)]);
      cycles := cycles[f := Preparing];
      e := Lead(f);
    }

    /** executeCycle: the loop over the attempts of flight `f`; when `rounds` is used up the context is
        cancelled. The cycle makes no more executor calls than attempts remain below the ceiling. */
    method ExecuteCycle(f: nat, pre: Pre, rounds: seq<Round>) returns (o: Result)
      requires Running(gate, f) && f in cycles && cycles[f] == Preparing
      requires |rounds| > 0 && rounds[|rounds| - 1].cancelled
      modifies this
      ensures View() == Run(ceiling, old(View()), CycleSteps(f, pre, rounds))
      ensures f in cycles && cycles[f] == Stopped(o)
      ensures |calls| - |old(calls)| <= Max(0, ceiling - |Listed(old(table), old(gate.flights[f].id))|)
      ensures !MayAttempt(old(table), old(gate.flights[f].id), pre) ==>
        calls == old(calls) && table == old(table) && EndsAs(old(table), old(gate.flights[f].id), pre, o)
    {
      ReachesAttemptIff(table, gate.flights[f].id, pre);
      hide MayAttempt, EndsAs;
      ghost var s0 := View();
      var incident := gate.flights[f].id;
      cycles := cycles[f := Prepared(table, incident, pre)];
      assert View() == Next(ceiling, s0, Prepare(f, pre));
      var i := 0;
      assert View() == Run(ceiling, s0, CycleSteps(f, pre, rounds[..i])) by { RunOne(ceiling, s0, Prepare(f, pre)); }
      while i < |rounds| && !cycles[f].Stopped?
        invariant i <= |rounds|
        invariant gate == old(gate) && f in cycles && (cycles[f].Top? || cycles[f].Stopped?)
        invariant i == |rounds| ==> cycles[f].Stopped?
        invariant View() == Run(ceiling, s0, CycleSteps(f, pre, rounds[..i]))
        invariant cycles[f].Top? ==> |calls| - |old(calls)| == cycles[f].attempt - 1 - |Listed(old(table), incident)|
        invariant |calls| - |old(calls)| <= Max(0, ceiling - |Listed(old(table), incident)|)
        invariant !MayAttempt(old(table), incident, pre) ==>
          cycles[f].Stopped? && calls == old(calls) && table == old(table) && EndsAs(old(table), incident, pre, cycles[f].o)
      {
        ghost var s := View();
        Attempt(f, incident, rounds[i]);
        RunPair(ceiling, s0, CycleSteps(f, pre, rounds[..i]), TryRecord(f, rounds[i]), Execute(f, rounds[i]));
        assert rounds[..i + 1][..i] == rounds[..i];
        i := i + 1;
      }
      assert rounds[..|rounds|] == rounds;
      StoppedStaysStopped(ceiling, s0, f, pre, rounds, i);
      o := cycles[f].o;
    }

    /** One attempt: no executor call without a stored record. */
    method Attempt(f: nat, incident: string, r: Round)
      requires Running(gate, f) && gate.flights[f].id == incident && f in cycles && cycles[f].Top?
      modifies this
      ensures View() == Next(ceiling, Next(ceiling, old(View()), TryRecord(f, r)), Execute(f, r))
      ensures gate == old(gate) && f in cycles && (cycles[f].Top? || cycles[f].Stopped?) && (r.cancelled ==> cycles[f].Stopped?)
      ensures |calls| == |old(calls)| || (|calls| == |old(calls)| + 1 && old(cycles[f].attempt) <= ceiling)
      ensures cycles[f].Top? ==> cycles[f].attempt == old(cycles[f].attempt) + 1 && |calls| == |old(calls)| + 1
      ensures !old(MayRecord(ceiling, table, cycles[f].attempt, r)) ==>
        table == old(table) && calls == old(calls) && cycles[f].Stopped?
      ensures old(MayRecord(ceiling, table, cycles[f].attempt, r)) ==> |table| == |old(table)| + 1 && |calls| == |old(calls)| + 1
    {
      RecordsIff(ceiling, table, incident, cycles[f].attempt, r);
      hide RecordFor, Taken, MayRecord;
      var attempt := cycles[f].attempt;
      if r.cancelled {
        cycles := cycles[f := Stopped(Outcome(Some(Cancelled), Some("cancelled")))];
        return;
      }
      if attempt > ceiling {
        cycles := cycles[f := Stopped(Outcome(Some(Failed), Some("max attempts exceeded")))];
        return;
      }
      if r.refusal.Some? {
        cycles := cycles[f := Stopped(Outcome(r.refusal, None))];
        return;
      }
      var m := RecordFor(incident, r.tail, attempt);
      if r.recordFails || Taken(table, m.action, m.decision) {
        cycles := cycles[f := Stopped(Outcome(Some(Failed), Some("persistence failed")))];
        return;
      }
      table := table + [m];
      cycles := cycles[f := Recorded(attempt, m, "dec-" + r.tail)];
      assert View() == Next(ceiling, old(View()), TryRecord(f, r));
      calls := calls + [ExecCall(m.action, m.decision, incident, "dec-" + r.tail)];
      cycles := cycles[f := AfterExecution(attempt, r)];
    }

    /** The leader's deferred function; only a terminal result is cached. */
    method PublishResult(f: nat)
      requires Running(gate, f) && f in cycles && cycles[f].Stopped?
      modifies this
      ensures View() == Next(ceiling, old(View()), Publish(f))
    {
      var o, fl := cycles[f].o, gate.flights[f];
      var history := gate.history;
      if o.res.Some? && IsTerminal(o.res.value) { history := history[fl.id := o.res.value]; }
      gate := Gate(history, gate.inFlight - {fl.id}, gate.flights[f := fl.(outcome := Some(o))]);
      cycles := cycles - {f};
    }
  }

  lemma RunOne(ceiling: int, s: Sys, step: Step)
    ensures Run(ceiling, s, [step]) == Next(ceiling, s, step)
  {
    assert [step][..0] == [];
    assert Run(ceiling, s, []) == s;
  }
}
