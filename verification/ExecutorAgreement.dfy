/** When do all callers of a decision get the leader's result? (edge/agent/response/executor.go:189-303)
    Exactly when the executor has no mitigation store; and what its store must do to keep one simulation per
    decision across restarts. */
module ExecutorAgreement {
  import opened Common
  import opened SingleFlight
  import opened Executor

  // ---- The documented agreement ---------------------------------------------------

  /** Some flight of the decision published `o`. */
  predicate HasOutcome(g: Gate<ExecResult, Error>, d: string, o: Executor.Result) {
    exists f :: 0 <= f < |g.flights| && g.flights[f].id == d && g.flights[f].outcome == Some(o)
  }

  /** Every caller of the decision that did not give up returned what some leader of the decision returned. */
  predicate EveryReturnIsALeaders(s: Sys, d: string) {
    forall c :: c in s.callers && s.callers[c].call.decision == d && s.callers[c].pc.Returned? && !s.callers[c].pc.via.GaveUp? ==>
      HasOutcome(s.gate, d, s.callers[c].pc.o)
  }

  ghost predicate AlwaysAgrees(store: Option<map<string, ExecResult>>, d: string) {
    forall steps :: NoRestart(steps) ==> EveryReturnIsALeaders(Run(Start(store), steps), d)
  }

  // ---- Without a store --------------------------------------------------------------

  predicate CachedOk(g: Gate<ExecResult, Error>) {
    forall d :: d in g.history ==> HasOutcome(g, d, Outcome(Some(g.history[d]), None))
  }

  predicate CleanStage(stage: Stage) {
    Past(stage) && IsExecuted(stage.o) ==> stage.o.err.None?
  }

  /** A caller that never met a store. */
  predicate CallerClean(g: Gate<ExecResult, Error>, caller: Caller) {
    match caller.pc
    case Found(_) => false
    case Leading(_, stage) => CleanStage(stage)
    case Returned(o, via) => !via.GaveUp? ==> HasOutcome(g, caller.call.decision, o)
    case _ => true
  }

  predicate Storeless(s: Sys) {
    s.store.None? && CachedOk(s.gate) && forall c :: c in s.callers ==> CallerClean(s.gate, s.callers[c])
  }

  /** Flights are only added, and outcomes only set once. */
  predicate FlightsGrow(g: Gate<ExecResult, Error>, g': Gate<ExecResult, Error>) {
    |g.flights| <= |g'.flights| && forall f :: 0 <= f < |g.flights| ==>
      g'.flights[f].id == g.flights[f].id && (g.flights[f].outcome.Some? ==> g'.flights[f].outcome == g.flights[f].outcome)
  }

  lemma OutcomesStay(g: Gate<ExecResult, Error>, g': Gate<ExecResult, Error>, d: string, o: Executor.Result)
    requires FlightsGrow(g, g') && HasOutcome(g, d, o)
    ensures HasOutcome(g', d, o)
  {
    var f :| 0 <= f < |g.flights| && g.flights[f].id == d && g.flights[f].outcome == Some(o);
    assert g'.flights[f].outcome == Some(o);
  }

  lemma CallersStayClean(s: Sys, g': Gate<ExecResult, Error>, c: nat, caller: Caller, sims: seq<Sim>)
    requires Storeless(s) && FlightsGrow(s.gate, g') && CachedOk(g') && CallerClean(g', caller)
    ensures Storeless(Sys(g', s.callers[c := caller], None, sims))
  {
    forall b | b in s.callers ensures CallerClean(g', s.callers[b]) {
      assert CallerClean(s.gate, s.callers[b]);
      hide HasOutcome;
      if s.callers[b].pc.Returned? && !s.callers[b].pc.via.GaveUp? {
        OutcomesStay(s.gate, g', s.callers[b].call.decision, s.callers[b].pc.o);
      }
    }
  }

  lemma SameGateGrows(g: Gate<ExecResult, Error>)
    ensures FlightsGrow(g, g)
  {
  }

  lemma EnterStaysClean(s: Sys, c: nat)
    requires ProtocolOk(s) && Storeless(s) && c in s.callers && s.callers[c].pc == AtGate
    ensures Storeless(Next(s, EnterGate(c)))
  {
    var d := s.callers[c].call.decision;
    var g' := Enter(s.gate, d, c).0;
    var s' := Next(s, EnterGate(c));
    assert FlightsGrow(s.gate, g');
    forall e | e in g'.history ensures HasOutcome(g', e, Outcome(Some(g'.history[e]), None)) {
      OutcomesStay(s.gate, g', e, Outcome(Some(g'.history[e]), None));
    }
    assert CallerClean(g', s'.callers[c]);
    hide HasOutcome, CallerClean, CachedOk, FlightsGrow, Storeless, ProtocolOk;
    CallersStayClean(s, g', c, s'.callers[c], s.sims);
    StoreOfStoreless(s);
    assert s' == Sys(g', s.callers[c := s'.callers[c]], None, s.sims);
  }

  lemma StoreOfStoreless(s: Sys)
    requires Storeless(s)
    ensures s.store == None
  {
  }

  lemma FinishStaysClean(s: Sys, c: nat, f: nat, o: Executor.Result)
    requires ProtocolOk(s) && Storeless(s) && c in s.callers && s.callers[c].pc == Leading(f, Finishing(o))
    ensures Storeless(Next(s, FinishFlight(c)))
  {
    var d := s.callers[c].call.decision;
    assert PcOk(s.gate, c, s.callers[c].call, s.callers[c].pc) && CallerClean(s.gate, s.callers[c]);
    var g' := Finish(s.gate, f, o, IsExecuted(o));
    var s' := Next(s, FinishFlight(c));
    assert FlightsGrow(s.gate, g');
    assert g'.flights[f].id == d && g'.flights[f].outcome == Some(o);
    assert HasOutcome(g', d, o);
    forall e | e in g'.history ensures HasOutcome(g', e, Outcome(Some(g'.history[e]), None)) {
      if !(IsExecuted(o) && e == d) { OutcomesStay(s.gate, g', e, Outcome(Some(g'.history[e]), None)); }
    }
    hide HasOutcome, CachedOk, FlightsGrow, Storeless, ProtocolOk;
    CallersStayClean(s, g', c, s'.callers[c], s.sims);
    StoreOfStoreless(s);
    assert s' == Sys(g', s.callers[c := s'.callers[c]], None, s.sims);
  }

  /** A caller's step that leaves gate and store alone. */
  lemma QuietStepStaysClean(s: Sys, step: Step)
    requires ProtocolOk(s) && Storeless(s) && !step.Restart? && !step.Arrive? && step.c in s.callers
    requires !(s.callers[step.c].pc.AtGate? && step.EnterGate?)
    requires !(s.callers[step.c].pc.Leading? && s.callers[step.c].pc.stage.Finishing?)
    ensures Storeless(Next(s, step))
  {
    var c, s' := step.c, Next(s, step);
    assert PcOk(s.gate, c, s.callers[c].call, s.callers[c].pc) && CallerClean(s.gate, s.callers[c]);
    if s' != s {
      assert s' == Sys(s.gate, s.callers[c := s'.callers[c]], None, s'.sims);
      assert CallerClean(s.gate, s'.callers[c]);
      SameGateGrows(s.gate);
      hide HasOutcome, CallerClean, CachedOk, FlightsGrow, ProtocolOk;
      CallersStayClean(s, s.gate, c, s'.callers[c], s'.sims);
    }
  }

  lemma {:induction false} StepStaysClean(s: Sys, step: Step)
    requires ProtocolOk(s) && Storeless(s) && !step.Restart?
    ensures Storeless(Next(s, step))
  {
    hide ProtocolOk, Storeless;
    if step.Arrive? {
      if step.c !in s.callers { ArriveStaysClean(s, step.c, step.call); }
    } else if step.c in s.callers {
      var pc := s.callers[step.c].pc;
      if pc.AtGate? && step.EnterGate? {
        EnterStaysClean(s, step.c);
      } else if pc.Leading? && pc.stage.Finishing? {
        if step.FinishFlight? { FinishStaysClean(s, step.c, pc.flight, pc.stage.o); }
      } else {
        QuietStepStaysClean(s, step);
      }
    }
  }

  lemma ArriveStaysClean(s: Sys, c: nat, call: Call)
    requires Storeless(s)
    ensures Storeless(s.(callers := s.callers[c := Caller(call, AtCache)]))
  {
    hide HasOutcome;
  }

  lemma {:induction false} RunStaysClean(steps: seq<Step>)
    requires NoRestart(steps)
    ensures Storeless(Run(Start(None), steps))
  {
    if steps != [] {
      RunStaysClean(steps[..|steps| - 1]);
      StartIsOk(None, []);
      RunKeepsProtocol(Start(None), steps[..|steps| - 1]);
      hide Storeless, ProtocolOk, Next;
      StepStaysClean(Run(Start(None), steps[..|steps| - 1]), steps[|steps| - 1]);
    }
  }

  lemma StorelessAgrees(s: Sys, d: string)
    requires Storeless(s)
    ensures EveryReturnIsALeaders(s, d)
  {
    forall c | c in s.callers && s.callers[c].call.decision == d && s.callers[c].pc.Returned? && !s.callers[c].pc.via.GaveUp?
      ensures HasOutcome(s.gate, d, s.callers[c].pc.o)
    {
      assert CallerClean(s.gate, s.callers[c]);
    }
  }

  // ---- Pieces of runs ----------------------------------------------------------------

  lemma {:induction false} RunConcat(s: Sys, a: seq<Step>, b: seq<Step>)
    ensures Run(s, a + b) == Run(Run(s, a), b)
  {
    if b == [] {
      assert a + b == a;
    } else {
      RunConcat(s, a, b[..|b| - 1]);
      assert (a + b)[..|a + b| - 1] == a + b[..|b| - 1];
    }
  }

  lemma RunSteps(s: Sys, a: Step, b: Step, c: Step)
    ensures Run(s, [a]) == Next(s, a) && Run(s, [a, b]) == Next(Next(s, a), b)
    ensures Run(s, [a, b, c]) == Next(Next(Next(s, a), b), c)
  {
    assert [a, b, c][..2] == [a, b] && [a, b][..1] == [a] && [a][..0] == [];
    assert Run(s, []) == s;
    hide Next;
  }

  function Snapshot(d: string): ExecResult { ExecResult(d, Executing, "") }

  function Success(d: string): Executor.Result { Outcome(Some(ExecResult(d, Executed, "")), None) }

  function Asks(d: string): Call { Call(Validated, d, true, false) }

  /** A caller arrives and gets past cache and store: nothing cached, and nothing stored or the lookup fails. */
  lemma ReachGate(s: Sys, c: nat, d: string, lookFails: bool)
    requires c !in s.callers && s.store.Some? && d !in s.gate.history && (lookFails || d !in s.store.value)
    ensures Run(s, [Arrive(c, Asks(d)), LookInCache(c), LookInStore(c, lookFails)])
         == s.(callers := s.callers[c := Caller(Asks(d), AtGate)])
  {
    var s1 := s.(callers := s.callers[c := Caller(Asks(d), AtCache)]);
    var s2 := s.(callers := s.callers[c := Caller(Asks(d), AtStore)]);
    var s3 := s.(callers := s.callers[c := Caller(Asks(d), AtGate)]);
    assert Next(s, Arrive(c, Asks(d))) == s1;
    assert Next(s1, LookInCache(c)) == s2 by { assert Next(s1, LookInCache(c)).callers == s2.callers; }
    assert Next(s2, LookInStore(c, lookFails)) == s3 by { assert Next(s2, LookInStore(c, lookFails)).callers == s3.callers; }
    hide Next;
    RunSteps(s, Arrive(c, Asks(d)), LookInCache(c), LookInStore(c, lookFails));
  }

  /** A caller arrives and finds the decision in the store. */
  lemma ReachFound(s: Sys, c: nat, d: string)
    requires c !in s.callers && s.store.Some? && d !in s.gate.history && d in s.store.value
    ensures Run(s, [Arrive(c, Asks(d)), LookInCache(c), LookInStore(c, false)])
         == s.(callers := s.callers[c := Caller(Asks(d), Found(s.store.value[d]))])
  {
    var s1 := s.(callers := s.callers[c := Caller(Asks(d), AtCache)]);
    var s2 := s.(callers := s.callers[c := Caller(Asks(d), AtStore)]);
    var s3 := s.(callers := s.callers[c := Caller(Asks(d), Found(s.store.value[d]))]);
    assert Next(s, Arrive(c, Asks(d))) == s1;
    assert Next(s1, LookInCache(c)) == s2 by { assert Next(s1, LookInCache(c)).callers == s2.callers; }
    assert Next(s2, LookInStore(c, false)) == s3 by { assert Next(s2, LookInStore(c, false)).callers == s3.callers; }
    hide Next;
    RunSteps(s, Arrive(c, Asks(d)), LookInCache(c), LookInStore(c, false));
  }

  /** A state in which caller `c` leads a new flight of `d`. */
  function Leads(s: Sys, c: nat, d: string, stage: Stage): Sys {
    s.(gate := Gate(s.gate.history, s.gate.inFlight[d := |s.gate.flights|], s.gate.flights + [Flight(d, c, None)]),
       callers := s.callers[c := Caller(Asks(d), Leading(|s.gate.flights|, stage))])
  }

  /** At the gate, with no flight of the decision: lead, record, simulate. */
  lemma LeadAndSimulate(s: Sys, c: nat, d: string, recordFails: bool)
    requires c in s.callers && s.callers[c] == Caller(Asks(d), AtGate) && d !in s.gate.history && d !in s.gate.inFlight
    ensures Run(s, [EnterGate(c), Record(c, recordFails)])
         == Leads(s, c, d, Simulating).(store := Stored(s.store, Snapshot(d), recordFails))
    ensures Run(s, [EnterGate(c), Record(c, recordFails), Simulate(c, false)])
         == Leads(s, c, d, Marking(Success(d))).(store := Stored(s.store, Snapshot(d), recordFails),
                                                  sims := s.sims + [Sim(d, true)])
  {
    var s1 := Leads(s, c, d, Recording);
    var s2 := Leads(s, c, d, Simulating).(store := Stored(s.store, Snapshot(d), recordFails));
    var s3 := Leads(s, c, d, Marking(Success(d))).(store := Stored(s.store, Snapshot(d), recordFails), sims := s.sims + [Sim(d, true)]);
    assert Next(s, EnterGate(c)) == s1;
    assert Next(s1, Record(c, recordFails)) == s2 by { assert Next(s1, Record(c, recordFails)).callers == s2.callers; }
    assert Next(s2, Simulate(c, false)) == s3 by { assert Next(s2, Simulate(c, false)).callers == s3.callers; }
    hide Next, Leads, Stored;
    RunSteps(s, EnterGate(c), Record(c, recordFails), Simulate(c, false));
  }

  /** A leader that simulated marks its record and publishes. */
  lemma Publish(s: Sys, c: nat, d: string, f: nat)
    requires c in s.callers && s.callers[c] == Caller(Asks(d), Leading(f, Marking(Success(d)))) && f < |s.gate.flights|
    ensures Run(s, [Mark(c, false), FinishFlight(c)])
         == s.(gate := Finish(s.gate, f, Success(d), true), store := Marked(s.store, Success(d), false),
               callers := s.callers[c := Caller(Asks(d), Returned(Success(d), Led(f)))])
  {
    hide Marked, Finish;
    var s1 := s.(store := Marked(s.store, Success(d), false),
                 callers := s.callers[c := Caller(Asks(d), Leading(f, Finishing(Success(d))))]);
    assert Next(s, Mark(c, false)) == s1;
    assert Next(s1, FinishFlight(c)).callers == s.callers[c := Caller(Asks(d), Returned(Success(d), Led(f)))];
    RunSteps(s, Mark(c, false), FinishFlight(c), Restart);
  }

  // ---- With a store ------------------------------------------------------------------

  /** A decision that is stored before the process starts: a reader returns the record, and no flight exists. */
  lemma StoredIsReturned(m: map<string, ExecResult>, d: string) returns (steps: seq<Step>)
    requires d in m
    ensures NoRestart(steps) && !EveryReturnIsALeaders(Run(Start(Some(m)), steps), d)
  {
    var s := Start(Some(m));
    var look := [Arrive(0, Asks(d)), LookInCache(0), LookInStore(0, false)];
    ReachFound(s, 0, d);
    RunConcat(s, look, [KeepFound(0)]);
    steps := look + [KeepFound(0)];
    var t := Run(s, look);
    RunSteps(t, KeepFound(0), Restart, Restart);
    hide Run;
    var u := Next(t, KeepFound(0));
    assert u.gate.flights == [] && u.callers[0].pc == Returned(Outcome(Some(m[d]), None), Cached);
    assert !HasOutcome(u.gate, d, u.callers[0].pc.o);
  }

  /** The leader of `d` is simulating, a second caller has read its EXECUTING record. */
  function Overtaken(m: map<string, ExecResult>, d: string): Sys {
    var s := Start(Some(m));
    Leads(s, 0, d, Simulating).(store := Some(m[d := Snapshot(d)]),
      callers := map[0 := Caller(Asks(d), Leading(0, Simulating)), 1 := Caller(Asks(d), Found(Snapshot(d)))])
  }

  /** The leader of `d` is simulating, alone. */
  function Underway(m: map<string, ExecResult>, d: string): Sys {
    var s := Start(Some(m));
    Leads(s, 0, d, Simulating).(store := Some(m[d := Snapshot(d)]))
  }

  lemma LedIsUnderway(m: map<string, ExecResult>, d: string, t: Sys)
    requires d !in m && t == Start(Some(m)).(callers := map[][0 := Caller(Asks(d), AtGate)])
    ensures Leads(t, 0, d, Simulating).(store := Stored(t.store, Snapshot(d), false)) == Underway(m, d)
    ensures 0 in t.callers && t.callers[0] == Caller(Asks(d), AtGate) && d !in t.gate.history && d !in t.gate.inFlight
    ensures var s := Start(Some(m)); 0 !in s.callers && s.store == Some(m) && d !in s.gate.history
    ensures t == Start(Some(m)).(callers := Start(Some(m)).callers[0 := Caller(Asks(d), AtGate)])
  {
    assert Leads(t, 0, d, Simulating).callers == Underway(m, d).callers;
  }

  lemma ReachUnderway(m: map<string, ExecResult>, d: string) returns (steps: seq<Step>)
    requires d !in m
    ensures NoRestart(steps) && Run(Start(Some(m)), steps) == Underway(m, d)
  {
    var s := Start(Some(m));
    var t := s.(callers := map[][0 := Caller(Asks(d), AtGate)]);
    LedIsUnderway(m, d, t);
    hide *;
    var up := [Arrive(0, Asks(d)), LookInCache(0), LookInStore(0, false)];
    var lead := [EnterGate(0), Record(0, false)];
    ReachGate(s, 0, d, false);
    LeadAndSimulate(t, 0, d, false);
    RunConcat(s, up, lead);
    steps := up + lead;
    NeverRestarts(Arrive(0, Asks(d)), LookInCache(0), LookInStore(0, false), EnterGate(0), Record(0, false));
  }

  lemma NeverRestarts(a: Step, b: Step, c: Step, x: Step, y: Step)
    requires !a.Restart? && !b.Restart? && !c.Restart? && !x.Restart? && !y.Restart?
    ensures NoRestart([a, b, c] + [x, y])
  {
  }

  lemma ReachOvertaken(m: map<string, ExecResult>, d: string) returns (steps: seq<Step>)
    requires d !in m
    ensures NoRestart(steps) && Run(Start(Some(m)), steps) == Overtaken(m, d)
  {
    var u := Underway(m, d);
    assert u.callers[1 := Caller(Asks(d), Found(Snapshot(d)))] == Overtaken(m, d).callers;
    assert u.(callers := Overtaken(m, d).callers) == Overtaken(m, d);
    assert u.store == Some(m[d := Snapshot(d)]) && d !in u.gate.history && 1 !in u.callers;
    hide Run, Next, Underway, Overtaken;
    var lead := ReachUnderway(m, d);
    var read := [Arrive(1, Asks(d)), LookInCache(1), LookInStore(1, false)];
    ReachFound(u, 1, d);
    RunConcat(Start(Some(m)), lead, read);
    steps := lead + read;
  }

  /** A reader that finds the leader's EXECUTING record returns it, which no leader returned. */
  lemma ReaderReturnsSnapshot(m: map<string, ExecResult>, d: string) returns (steps: seq<Step>)
    requires d !in m
    ensures NoRestart(steps) && !EveryReturnIsALeaders(Run(Start(Some(m)), steps), d)
  {
    var before := ReachOvertaken(m, d);
    steps := before + [KeepFound(1)];
    RunConcat(Start(Some(m)), before, [KeepFound(1)]);
    var t := Overtaken(m, d);
    RunSteps(t, KeepFound(1), Restart, Restart);
    hide Run;
    var u := Next(t, KeepFound(1));
    assert u.gate.flights == [Flight(d, 0, None)] && u.callers[1].pc == Returned(Outcome(Some(Snapshot(d)), None), Cached);
    assert !HasOutcome(u.gate, d, u.callers[1].pc.o);
  }

  /** All callers of a decision get a leader's result, in every run of a process, exactly when the executor was
      built without a mitigation store. */
  lemma {:induction false} AgreesIffNoStore(store: Option<map<string, ExecResult>>, d: string)
    ensures AlwaysAgrees(store, d) <==> store.None?
  {
    if store.None? {
      forall steps | NoRestart(steps) ensures EveryReturnIsALeaders(Run(Start(store), steps), d) {
        RunStaysClean(steps);
        StorelessAgrees(Run(Start(store), steps), d);
      }
    } else if d in store.value {
      var steps := StoredIsReturned(store.value, d);
    } else {
      var steps := ReaderReturnsSnapshot(store.value, d);
    }
  }

  // ---- The cached result can go stale --------------------------------------------------

  /** No caller of `d` is under way, and later ones will hit the cached `r`; `done` had returned before. */
  predicate Stuck(s: Sys, d: string, r: ExecResult, done: set<nat>) {
    && d in s.gate.history && s.gate.history[d] == r
    && forall c :: c in s.callers && s.callers[c].call.decision == d ==> StuckCaller(c, s.callers[c].pc, r, done)
  }

  predicate StuckCaller(c: nat, pc: PC, r: ExecResult, done: set<nat>) {
    pc.AtCache? || (pc.Returned? && (c in done || pc == Returned(Outcome(Some(r), None), Cached)))
  }

  lemma {:induction false} StepStaysStuck(s: Sys, step: Step, d: string, r: ExecResult, done: set<nat>)
    requires ProtocolOk(s) && Stuck(s, d, r, done) && !step.Restart?
    ensures Stuck(Next(s, step), d, r, done)
  {
    if !step.Arrive? && step.c in s.callers {
      var c := step.c;
      assert PcOk(s.gate, c, s.callers[c].call, s.callers[c].pc);
      hide ProtocolOk, Stored, Marked, Simulated;
      if s.callers[c].call.decision == d {
        assert StuckCaller(c, s.callers[c].pc, r, done);
      } else {
        OthersLeaveHistory(s, step, d);
      }
    }
  }

  /** What a caller's step leaves of the cached result of `d`, and of the other callers. */
  predicate Leaves(s: Sys, s': Sys, c: nat, d: string) {
    && d in s.gate.history && d in s'.gate.history && s'.gate.history[d] == s.gate.history[d]
    && c in s'.callers && s'.callers == s.callers[c := s'.callers[c]] && s'.callers[c].call.decision != d
  }

  /** A caller of another decision does not touch the cached result of `d`. */
  lemma OthersLeaveHistory(s: Sys, step: Step, d: string)
    requires !step.Arrive? && !step.Restart? && step.c in s.callers && s.callers[step.c].call.decision != d
    requires PcOk(s.gate, step.c, s.callers[step.c].call, s.callers[step.c].pc) && d in s.gate.history
    ensures Leaves(s, Next(s, step), step.c, d)
  {
    var pc := s.callers[step.c].pc;
    if pc.Leading? {
      hide Stored, Marked, Simulated, CallerStep;
      LeadersLeaveHistory(s, step.c, pc.flight, pc.stage, step, d);
      assert Next(s, step) == CallerStep(s, step.c, s.callers[step.c].call, pc, step);
      CallerLeads(s, step, pc);
    } else {
      hide LeaderStep;
    }
  }

  lemma CallerLeads(s: Sys, step: Step, pc: PC)
    requires step.Arrive? == step.Restart? == false && step.c in s.callers && s.callers[step.c].pc == pc && pc.Leading?
    ensures CallerStep(s, step.c, s.callers[step.c].call, pc, step)
         == LeaderStep(s, step.c, s.callers[step.c].call, pc.flight, pc.stage, step)
  {
    hide LeaderStep;
  }

  lemma LeadersLeaveHistory(s: Sys, c: nat, f: nat, stage: Stage, step: Step, d: string)
    requires c in s.callers && s.callers[c].pc == Leading(f, stage) && s.callers[c].call.decision != d
    requires PcOk(s.gate, c, s.callers[c].call, s.callers[c].pc) && d in s.gate.history
    ensures Leaves(s, LeaderStep(s, c, s.callers[c].call, f, stage, step), c, d)
  {
    hide Stored, Marked, Simulated;
  }

  lemma {:induction false} RunStaysStuck(s: Sys, steps: seq<Step>, d: string, r: ExecResult, done: set<nat>)
    requires ProtocolOk(s) && Stuck(s, d, r, done) && NoRestart(steps)
    ensures Stuck(Run(s, steps), d, r, done)
  {
    hide ProtocolOk, Stuck, Next;
    if steps != [] {
      RunStaysStuck(s, steps[..|steps| - 1], d, r, done);
      RunKeepsProtocol(s, steps[..|steps| - 1]);
      StepStaysStuck(Run(s, steps[..|steps| - 1]), steps[|steps| - 1], d, r, done);
    }
  }

  /** The reader of a running simulation caches its EXECUTING record after the leader has cached EXECUTED. From then
      on, whatever happens in the process, every later caller of the decision that returns gets EXECUTING. */
  lemma {:induction false} StaleSnapshotSticks(m: map<string, ExecResult>, d: string) returns (steps: seq<Step>)
    requires d !in m
    ensures NoRestart(steps)
    ensures var s := Run(Start(Some(m)), steps);
      && 0 in s.callers && s.callers[0] == Caller(Asks(d), Returned(Success(d), Led(0))) && Runs(s.sims, d) == 1
      && forall more, c :: NoRestart(more) && c > 1 ==> ReturnsOnly(Run(s, more), c, d, Snapshot(d))
  {
    var before := ReachOvertaken(m, d);
    var home := [Simulate(0, false)] + [Mark(0, false), FinishFlight(0)];
    steps := before + home + [KeepFound(1)];
    var start := Start(Some(m));
    RunConcat(start, before, home);
    RunConcat(start, before + home, [KeepFound(1)]);
    hide Run, Stuck, ProtocolOk, ReturnsOnly, Runs;
    var s := OvertakenEnds(m, d, home);
    StartIsOk(Some(m), []);
    RunKeepsProtocol(start, steps);
    forall more, c | NoRestart(more) && c > 1 ensures ReturnsOnly(Run(s, more), c, d, Snapshot(d)) {
      RunStaysStuck(s, more, d, Snapshot(d), {0, 1});
      StuckReturnsOnly(Run(s, more), c, d, Snapshot(d));
    }
  }

  /** If caller `c` asks for `d` and has returned, it returned the cached `r`. */
  predicate ReturnsOnly(s: Sys, c: nat, d: string, r: ExecResult) {
    c in s.callers && s.callers[c].call.decision == d && s.callers[c].pc.Returned? ==>
      s.callers[c].pc == Returned(Outcome(Some(r), None), Cached)
  }

  lemma StuckReturnsOnly(s: Sys, c: nat, d: string, r: ExecResult)
    requires Stuck(s, d, r, {0, 1}) && c > 1
    ensures ReturnsOnly(s, c, d, r)
  {
  }

  lemma OvertakenEnds(m: map<string, ExecResult>, d: string, home: seq<Step>) returns (s: Sys)
    requires d !in m && home == [Simulate(0, false)] + [Mark(0, false), FinishFlight(0)]
    ensures s == Run(Run(Overtaken(m, d), home), [KeepFound(1)])
    ensures 0 in s.callers && s.callers[0] == Caller(Asks(d), Returned(Success(d), Led(0)))
    ensures Runs(s.sims, d) == 1 && Stuck(s, d, Snapshot(d), {0, 1})
  {
    var t := Overtaken(m, d);
    var t1 := t.(callers := t.callers[0 := Caller(Asks(d), Leading(0, Marking(Success(d))))], sims := [Sim(d, true)]);
    OvertakenSimulates(m, d, t1);
    hide Run, Next, Marked, Overtaken, Finish, Stuck, Runs;
    RunSteps(t, Simulate(0, false), Restart, Restart);
    RunConcat(t, [Simulate(0, false)], [Mark(0, false), FinishFlight(0)]);
    PublishOvertaken(t1, d);
    var t2 := Run(t1, [Mark(0, false), FinishFlight(0)]);
    RunSteps(t2, KeepFound(1), Restart, Restart);
    s := Next(t2, KeepFound(1));
    LateCacheWins(t2, d);
    OneRun(d);
  }

  lemma OneRun(d: string)
    ensures Runs([Sim(d, true)], d) == 1
  {
    RunsAppend([], Sim(d, true), d);
  }

  lemma OvertakenSimulates(m: map<string, ExecResult>, d: string, t1: Sys)
    requires var t := Overtaken(m, d);
      t1 == t.(callers := t.callers[0 := Caller(Asks(d), Leading(0, Marking(Success(d))))], sims := [Sim(d, true)])
    ensures Next(Overtaken(m, d), Simulate(0, false)) == t1
    ensures t1.callers == map[0 := Caller(Asks(d), Leading(0, Marking(Success(d)))), 1 := Caller(Asks(d), Found(Snapshot(d)))]
    ensures t1.gate.flights == [Flight(d, 0, None)]
  {
    assert [] + [Sim(d, true)] == [Sim(d, true)];
  }

  lemma PublishOvertaken(s: Sys, d: string)
    requires s.callers == map[0 := Caller(Asks(d), Leading(0, Marking(Success(d)))), 1 := Caller(Asks(d), Found(Snapshot(d)))]
    requires s.gate.flights == [Flight(d, 0, None)]
    ensures var t := Run(s, [Mark(0, false), FinishFlight(0)]);
      && t.callers.Keys == {0, 1} && t.callers[0] == Caller(Asks(d), Returned(Success(d), Led(0)))
      && t.callers[1] == Caller(Asks(d), Found(Snapshot(d))) && t.sims == s.sims
  {
    hide Run, Marked, Finish;
    Publish(s, 0, d, 0);
  }

  lemma LateCacheWins(s: Sys, d: string)
    requires s.callers.Keys == {0, 1} && s.callers[0] == Caller(Asks(d), Returned(Success(d), Led(0)))
    requires s.callers[1] == Caller(Asks(d), Found(Snapshot(d)))
    ensures var s' := Next(s, KeepFound(1));
      s'.callers[0] == s.callers[0] && s'.sims == s.sims && Stuck(s', d, Snapshot(d), {0, 1})
  {
  }

  // ---- What the store must do across restarts --------------------------------------------

  function LookUp(d: string, fails: bool): seq<Step> { [Arrive(0, Asks(d)), LookInCache(0), LookInStore(0, fails)] }

  function LeadOn(recordFails: bool): seq<Step> { [EnterGate(0), Record(0, recordFails), Simulate(0, false)] }

  /** A process over `store` that has just started simulates the decision, if it is not stored or not found. */
  lemma SimulatesFrom(s: Sys, d: string, lookFails: bool, recordFails: bool)
    requires s == Start(s.store).(sims := s.sims) && s.store.Some? && (lookFails || d !in s.store.value)
    ensures var t := Run(s, LookUp(d, lookFails) + LeadOn(recordFails));
      t.sims == s.sims + [Sim(d, true)] && t.store == Stored(s.store, Snapshot(d), recordFails)
  {
    var t := s.(callers := s.callers[0 := Caller(Asks(d), AtGate)]);
    hide Run, Stored;
    ReachGate(s, 0, d, lookFails);
    LeadAndSimulate(t, 0, d, recordFails);
    RunConcat(s, LookUp(d, lookFails), LeadOn(recordFails));
  }

  function TwiceScript(d: string, recordFails: bool): seq<Step> {
    LookUp(d, false) + LeadOn(recordFails) + [Restart] + (LookUp(d, !recordFails) + LeadOn(false))
  }

  lemma TwiceScriptFaults(d: string, recordFails: bool, i: nat)
    requires i < |TwiceScript(d, recordFails)|
    ensures |TwiceScript(d, recordFails)| == 13
    ensures !Reliable(TwiceScript(d, recordFails)[i]) <==> i == if recordFails then 4 else 9
    ensures i == 4 ==> TwiceScript(d, recordFails)[i] == Record(0, recordFails)
    ensures i == 9 ==> TwiceScript(d, recordFails)[i] == LookInStore(0, !recordFails)
  {
  }

  /** One store fault is enough for a second simulation after a crash: the record before the first simulation
      fails, or the lookup after the restart does. Step `k` is the only unreliable one. */
  lemma {:induction false} OneFaultSimulatesTwice(d: string, recordFails: bool) returns (steps: seq<Step>, k: nat)
    ensures forall i :: 0 <= i < |steps| ==> (!Reliable(steps[i]) <==> i == k)
    ensures k < |steps| && steps[k] == if recordFails then Record(0, true) else LookInStore(0, true)
    ensures Runs(Run(Start(Some(map[])), steps).sims, d) == 2
  {
    steps, k := TwiceScript(d, recordFails), if recordFails then 4 else 9;
    SimulatesTwice(d, recordFails);
    hide TwiceScript, Run, Runs;
    TwiceScriptLength(d, recordFails);
    forall i | 0 <= i < |steps| ensures !Reliable(steps[i]) <==> i == k { TwiceScriptFaults(d, recordFails, i); }
    TwiceScriptFaults(d, recordFails, k);
  }

  lemma TwiceScriptLength(d: string, recordFails: bool)
    ensures |TwiceScript(d, recordFails)| == 13
  {
  }

  lemma SimulatesTwice(d: string, recordFails: bool)
    ensures Runs(Run(Start(Some(map[])), TwiceScript(d, recordFails)).sims, d) == 2
  {
    var first, second := LookUp(d, false) + LeadOn(recordFails), LookUp(d, !recordFails) + LeadOn(false);
    var s := Start(Some(map[]));
    hide Run, LookUp, LeadOn;
    SimulatesFrom(s, d, false, recordFails);
    var t := Run(s, first);
    var u := Next(t, Restart);
    RunSteps(t, Restart, Restart, Restart);
    RunConcat(s, first, [Restart]);
    RunConcat(s, first + [Restart], second);
    assert u == Start(t.store).(sims := t.sims);
    assert t.store == if recordFails then Some(map[]) else Some(map[d := Snapshot(d)]);
    SimulatesFrom(u, d, !recordFails, false);
    hide Next;
    RunsAppend([], Sim(d, true), d);
    RunsAppend([] + [Sim(d, true)], Sim(d, true), d);
  }
}
