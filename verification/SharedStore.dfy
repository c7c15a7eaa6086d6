/** The orchestrator and an executor built over the same mitigation table (orchestrator.go:837-915,
    response/executor.go:138-146, 425-440, storage/sqlite.go:1723-1830): when does a cycle simulate anything at all? */
module SharedStore {
  import opened Common
  import opened SingleFlight
  import Orchestrator
  import opened Executor
  import opened ExecutorAgreement

  // ---- One table, two readers -------------------------------------------------------

  /** storedToExecutionResult */
  function StatusOf(status: Orchestrator.MitigationStatus): Status {
    match status
    case Pending => Pending
    case Executing => Executing
    case Executed => Executed
    case Broken => Failed
    case Skipped => Skipped
    case Unknown => Unknown
  }

  /** What GetMitigationByDecisionID finds in the orchestrator's table. */
  function View(table: seq<Orchestrator.Mitigation>): map<string, ExecResult> {
    if table == [] then map[]
    else
      var m := table[|table| - 1];
      View(table[..|table| - 1])[m.decision := ExecResult(m.decision, StatusOf(m.status), "")]
  }

  predicate Named(table: seq<Orchestrator.Mitigation>, d: string) {
    exists i :: 0 <= i < |table| && table[i].decision == d
  }

  lemma {:induction false} ViewKeys(table: seq<Orchestrator.Mitigation>, d: string)
    ensures d in View(table) <==> Named(table, d)
  {
    if table != [] {
      var front := table[..|table| - 1];
      ViewKeys(front, d);
      if Named(table, d) {
        var i :| 0 <= i < |table| && table[i].decision == d;
        if i < |front| { assert front[i].decision == d; }
      }
      if Named(front, d) {
        var i :| 0 <= i < |front| && front[i].decision == d;
        assert table[i].decision == d;
      }
    }
  }

  /** A step of the executor's callers, or any other component inserting or changing a row. */
  datatype SharedStep = Of(step: Step) | Other(r: ExecResult)

  function SharedNext(s: Sys, step: SharedStep): Sys {
    match step
    case Of(e) => Next(s, e)
    case Other(r) => if s.store.None? then s else s.(store := Some(s.store.value[r.decision := r]))
  }

  function SharedRun(s: Sys, steps: seq<SharedStep>): Sys {
    if steps == [] then s else SharedNext(SharedRun(s, steps[..|steps| - 1]), steps[|steps| - 1])
  }

  predicate Healthy(steps: seq<SharedStep>) {
    forall i :: 0 <= i < |steps| ==> steps[i].Of? ==> Reliable(steps[i].step)
  }

  predicate OneProcess(steps: seq<SharedStep>) {
    forall i :: 0 <= i < |steps| ==> steps[i] != Of(Restart)
  }

  // ---- A stored decision is not simulated ---------------------------------------------

  /** Nobody leads `d` or can come to lead it: it is stored or cached, and whoever is at the gate will hit the cache. */
  predicate Quiet(s: Sys, d: string) {
    && s.store.Some? && (d in s.store.value || d in s.gate.history)
    && forall c :: c in s.callers && s.callers[c].call.decision == d ==>
         !s.callers[c].pc.Leading? && (s.callers[c].pc.AtGate? ==> d in s.gate.history)
  }

  /** What a step leaves alone while `d` is quiet. */
  predicate Kept(s: Sys, s': Sys, d: string) {
    && Quiet(s', d) && Runs(s'.sims, d) == Runs(s.sims, d)
    && (s.store.Some? && d in s.store.value ==> d in s'.store.value)
  }

  lemma LeaderOfAnother(s: Sys, c: nat, f: nat, stage: Stage, step: Step, d: string)
    requires c in s.callers && s.callers[c].pc == Leading(f, stage) && Quiet(s, d)
    requires PcOk(s.gate, c, s.callers[c].call, s.callers[c].pc)
    ensures Kept(s, LeaderStep(s, c, s.callers[c].call, f, stage, step), d)
  {
    var call := s.callers[c].call;
    var s' := LeaderStep(s, c, call, f, stage, step);
    RunsAppend(s.sims, Sim(call.decision, call.allowlisted), d);
    hide Runs, Simulated;
  }

  /** A caller at the gate, or before it, or done. */
  lemma BystanderStaysQuiet(s: Sys, c: nat, step: Step, d: string)
    requires c in s.callers && !s.callers[c].pc.Leading? && Quiet(s, d) && Reliable(step)
    requires !step.Arrive? && !step.Restart?
    ensures Kept(s, CallerStep(s, c, s.callers[c].call, s.callers[c].pc, step), d)
  {
    hide Runs, LeaderStep;
  }

  lemma OutsideStaysQuiet(s: Sys, step: Step, d: string)
    requires Quiet(s, d) && (step.Arrive? || (step.Restart? && d in s.store.value))
    ensures Kept(s, Next(s, step), d)
  {
    hide Runs;
  }

  lemma UnchangedIsKept(s: Sys, d: string)
    requires Quiet(s, d)
    ensures Kept(s, s, d)
  {
  }

  lemma {:induction false} StepStaysQuiet(s: Sys, step: Step, d: string)
    requires ProtocolOk(s) && Quiet(s, d) && Reliable(step) && (step.Restart? ==> s.store.Some? && d in s.store.value)
    ensures Kept(s, Next(s, step), d)
  {
    hide Quiet, Kept, LeaderStep, Reliable;
    if step.Arrive? || step.Restart? {
      hide Next;
      OutsideStaysQuiet(s, step, d);
    } else if step.c !in s.callers {
      UnchangedIsKept(s, d);
    } else {
      var c, pc := step.c, s.callers[step.c].pc;
      assert PcOk(s.gate, c, s.callers[c].call, pc);
      hide ProtocolOk;
      if pc.Leading? {
        CallerLeads(s, step, pc);
        hide CallerStep;
        LeaderOfAnother(s, c, pc.flight, pc.stage, step, d);
      } else {
        hide CallerStep;
        BystanderStaysQuiet(s, c, step, d);
      }
    }
  }

  lemma {:induction false} RunStaysQuiet(s: Sys, steps: seq<SharedStep>, d: string)
    requires ProtocolOk(s) && Quiet(s, d) && Healthy(steps) && (d in s.store.value || OneProcess(steps))
    ensures ProtocolOk(SharedRun(s, steps)) && Kept(s, SharedRun(s, steps), d)
  {
    hide Runs, Next, ProtocolOk, Reliable;
    if steps != [] {
      var front, last := steps[..|steps| - 1], steps[|steps| - 1];
      RunStaysQuiet(s, front, d);
      var t := SharedRun(s, front);
      if last.Of? {
        StepKeepsProtocol(t, last.step);
        StepStaysQuiet(t, last.step, d);
      } else {
        StoreIsApart(t, SharedNext(t, last).store, t.sims);
      }
    }
  }

  /** Once a decision is stored and nobody is past the store lookup, it is never simulated: whatever callers, other
      components and crashes do, as long as lookups succeed. */
  lemma {:induction false} StoredNeverSimulates(s: Sys, steps: seq<SharedStep>, d: string)
    requires ProtocolOk(s) && NobodyPastTheStore(s, d) && s.store.Some? && d in s.store.value && Healthy(steps)
    ensures Runs(SharedRun(s, steps).sims, d) == Runs(s.sims, d)
  {
    RunStaysQuiet(s, steps, d);
  }

  // ---- Exactly when a call can simulate --------------------------------------------------

  /** Some healthy run of the process simulates the decision. */
  ghost predicate CanSimulate(s: Sys, d: string) {
    exists steps :: Healthy(steps) && OneProcess(steps) && Runs(SharedRun(s, steps).sims, d) > Runs(s.sims, d)
  }

  function Lift(steps: seq<Step>): seq<SharedStep> {
    if steps == [] then [] else Lift(steps[..|steps| - 1]) + [Of(steps[|steps| - 1])]
  }

  lemma {:induction false} LiftRuns(s: Sys, steps: seq<Step>)
    requires AllReliable(steps) && NoRestart(steps)
    ensures SharedRun(s, Lift(steps)) == Run(s, steps) && Healthy(Lift(steps)) && OneProcess(Lift(steps))
  {
    hide Next, Reliable;
    if steps != [] {
      var front := steps[..|steps| - 1];
      LiftRuns(s, front);
      assert Lift(steps)[..|Lift(steps)| - 1] == Lift(front);
    }
  }

  lemma UnusedCaller(used: set<nat>) returns (c: nat)
    ensures c !in used
  {
    c := 0;
    var left := used;
    while c in left
      invariant left <= used && forall x :: x in used && x >= c ==> x in left
      decreases left
    {
      left := left - {c};
      c := c + 1;
    }
  }

  lemma FlightHasLeader(s: Sys, d: string) returns (l: nat)
    requires ProtocolOk(s) && d in s.gate.inFlight
    ensures l in s.callers && s.callers[l].pc.Leading? && s.callers[l].call.decision == d
  {
    var f := s.gate.inFlight[d];
    assert LeaderOk(s, f);
    l := s.gate.flights[f].leader;
    assert PcOk(s.gate, l, s.callers[l].call, s.callers[l].pc);
  }

  lemma NobodyFlies(s: Sys, d: string)
    requires ProtocolOk(s) && NobodyPastTheStore(s, d)
    ensures d !in s.gate.inFlight
  {
    if d in s.gate.inFlight {
      var l := FlightHasLeader(s, d);
    }
  }

  function Solo(c: nat, d: string): seq<Step> {
    [Arrive(c, Asks(d)), LookInCache(c), LookInStore(c, false)] + [EnterGate(c), Record(c, false), Simulate(c, false)]
  }

  lemma SoloIsHealthy(c: nat, d: string)
    ensures AllReliable(Solo(c, d)) && NoRestart(Solo(c, d))
  {
  }

  lemma SoloSimulates(s: Sys, c: nat, d: string)
    requires c !in s.callers && s.store.Some? && d !in s.store.value && d !in s.gate.history && d !in s.gate.inFlight
    ensures Run(s, Solo(c, d)).sims == s.sims + [Sim(d, true)]
  {
    hide Run, Next, Stored;
    ReachGate(s, c, d, false);
    LeadAndSimulate(s.(callers := s.callers[c := Caller(Asks(d), AtGate)]), c, d, false);
    RunConcat(s, [Arrive(c, Asks(d)), LookInCache(c), LookInStore(c, false)],
              [EnterGate(c), Record(c, false), Simulate(c, false)]);
  }

  /** With nobody past the store lookup, the decision can be simulated exactly when it is neither stored nor cached. */
  lemma {:induction false} CanSimulateIffNew(s: Sys, d: string)
    requires ProtocolOk(s) && NobodyPastTheStore(s, d) && s.store.Some?
    ensures CanSimulate(s, d) <==> d !in s.store.value && d !in s.gate.history
  {
    if d !in s.store.value && d !in s.gate.history {
      NobodyFlies(s, d);
      var c := UnusedCaller(s.callers.Keys);
      hide Run, Runs, SharedRun, Solo, Lift, Healthy, OneProcess, ProtocolOk, NobodyPastTheStore;
      SoloIsHealthy(c, d);
      SoloSimulates(s, c, d);
      LiftRuns(s, Solo(c, d));
      RunsAppend(s.sims, Sim(d, true), d);
      assert Runs(SharedRun(s, Lift(Solo(c, d))).sims, d) > Runs(s.sims, d);
    } else {
      assert Quiet(s, d);
      forall steps | Healthy(steps) && OneProcess(steps) ensures Runs(SharedRun(s, steps).sims, d) == Runs(s.sims, d) {
        RunStaysQuiet(s, steps, d);
      }
    }
  }

  // ---- The two together ----------------------------------------------------------------------

  lemma RecordedRow(ceiling: int, table: seq<Orchestrator.Mitigation>, incident: string, attempt: int,
          r: Orchestrator.Round)
    requires Orchestrator.TopOfAttempt(ceiling, table, incident, attempt, r).1.Recorded?
    ensures var (t, p) := Orchestrator.TopOfAttempt(ceiling, table, incident, attempt, r);
      && |t| == |table| + 1 && t[..|table|] == table && t[|table|] == p.m && p.m.status == Orchestrator.Executing
      && (p.m.decision == p.passed <==> attempt <= 1)
  {
    hide Orchestrator.Taken, Decimal;
    var passed := "dec-" + r.tail;
    if attempt > 1 { assert |passed + Orchestrator.Suffix(attempt)| > |passed|; }
    else { assert passed + Orchestrator.Suffix(attempt) == passed; }
  }

  lemma NamedAppend(table: seq<Orchestrator.Mitigation>, m: Orchestrator.Mitigation, d: string)
    ensures Named(table + [m], d) <==> Named(table, d) || m.decision == d
  {
    var t := table + [m];
    if Named(table, d) {
      var i :| 0 <= i < |table| && table[i].decision == d;
      assert t[i].decision == d;
    }
    assert t[|table|] == m;
  }

  /** A cycle that has just recorded its attempt in the executor's own store can simulate exactly when this is not the
      first attempt, and no earlier row or cached result bears the unsuffixed decision id it passes. */
  lemma {:induction false} CycleSimulatesIff(ceiling: int, table: seq<Orchestrator.Mitigation>, incident: string,
          attempt: int, r: Orchestrator.Round, s: Sys)
    requires Orchestrator.TopOfAttempt(ceiling, table, incident, attempt, r).1.Recorded?
    requires ProtocolOk(s) && s.store == Some(View(Orchestrator.TopOfAttempt(ceiling, table, incident, attempt, r).0))
    requires NobodyPastTheStore(s, Orchestrator.TopOfAttempt(ceiling, table, incident, attempt, r).1.passed)
    ensures var passed := Orchestrator.TopOfAttempt(ceiling, table, incident, attempt, r).1.passed;
      CanSimulate(s, passed) <==> attempt > 1 && !Named(table, passed) && passed !in s.gate.history
  {
    hide ProtocolOk, NobodyPastTheStore, CanSimulate, Named, View;
    RecordedRow(ceiling, table, incident, attempt, r);
    var (t, p) := Orchestrator.TopOfAttempt(ceiling, table, incident, attempt, r);
    hide Orchestrator.TopOfAttempt;
    assert t == table + [p.m];
    ViewKeys(t, p.passed);
    NamedAppend(table, p.m, p.passed);
    CanSimulateIffNew(s, p.passed);
  }

  /** In every run of the orchestrator, a call made on a first attempt is never simulated by an executor that shares the
      table, whatever happens afterwards. */
  lemma {:induction false} FirstAttemptNeverSimulates(ceiling: int, table: seq<Orchestrator.Mitigation>,
          before: seq<Orchestrator.Step>, step: Orchestrator.Step, s: Sys, after: seq<SharedStep>)
    requires var o := Orchestrator.Run(ceiling, Orchestrator.Start(table), before);
      && s.store == Some(View(o.table)) && |Orchestrator.Next(ceiling, o, step).calls| > |o.calls|
      && var c := Orchestrator.Next(ceiling, o, step).calls[|o.calls|];
         c.passed == c.decision && ProtocolOk(s) && NobodyPastTheStore(s, c.passed) && Healthy(after)
    ensures var o := Orchestrator.Run(ceiling, Orchestrator.Start(table), before);
      var c := Orchestrator.Next(ceiling, o, step).calls[|o.calls|];
      Runs(SharedRun(s, after).sims, c.passed) == Runs(s.sims, c.passed)
  {
    var o := Orchestrator.Run(ceiling, Orchestrator.Start(table), before);
    var c := Orchestrator.Next(ceiling, o, step).calls[|o.calls|];
    Orchestrator.RecordPrecedesCall(ceiling, table, before, step);
    hide Orchestrator.Run, Orchestrator.Next, ProtocolOk, NobodyPastTheStore, Healthy, View, Runs, SharedRun;
    assert Named(o.table, c.decision);
    ViewKeys(o.table, c.passed);
    StoredNeverSimulates(s, after, c.passed);
  }

  /** Instead, such a call gets the EXECUTING record the cycle has just made, which the cycle counts as a failed
      execution. */
  lemma {:induction false} FirstAttemptGetsItsOwnRecord(ceiling: int, table: seq<Orchestrator.Mitigation>,
          incident: string, attempt: int, r: Orchestrator.Round, s: Sys, c: nat)
    requires attempt <= 1 && Orchestrator.TopOfAttempt(ceiling, table, incident, attempt, r).1.Recorded?
    requires s.store == Some(View(Orchestrator.TopOfAttempt(ceiling, table, incident, attempt, r).0))
    requires c !in s.callers
    requires Orchestrator.TopOfAttempt(ceiling, table, incident, attempt, r).1.passed !in s.gate.history
    ensures var d := Orchestrator.TopOfAttempt(ceiling, table, incident, attempt, r).1.passed;
      var s' := Run(s, [Arrive(c, Asks(d)), LookInCache(c), LookInStore(c, false)] + [KeepFound(c)]);
      && c in s'.callers && s'.callers[c].pc == Returned(Outcome(Some(Snapshot(d)), None), Cached)
      && s'.sims == s.sims
  {
    RecordedRow(ceiling, table, incident, attempt, r);
    var (t, p) := Orchestrator.TopOfAttempt(ceiling, table, incident, attempt, r);
    hide Orchestrator.TopOfAttempt, Run;
    var d := p.passed;
    assert t[..|t| - 1] == table && View(t)[d] == Snapshot(d);
    hide View;
    var look := [Arrive(c, Asks(d)), LookInCache(c), LookInStore(c, false)];
    ReachFound(s, c, d);
    RunConcat(s, look, [KeepFound(c)]);
    RunSteps(Run(s, look), KeepFound(c), Restart, Restart);
  }
}
