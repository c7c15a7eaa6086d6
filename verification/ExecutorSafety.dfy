/** Fail-closed execution (edge/agent/response/executor.go:189-405, 615-967): a decision that the checks before execution
    refuse is never simulated, and EXECUTED is never claimed without a simulation. */
module ExecutorSafety {
  import opened Common
  import opened SingleFlight
  import opened Executor
  import ExecutorAgreement

  // ---- A refused decision is not executed ---------------------------------------------

  /** No call of `d` comes validated from outside, and no check of a call of `d` allows it. */
  predicate Denies(s: Sys, step: Step, d: string) {
    && (step.Arrive? && step.call.decision == d ==> step.call.kind != Validated)
    && (step.Check? && step.c in s.callers && s.callers[step.c].call.decision == d ==> step.verdict != Allowed)
  }

  predicate DeniesThroughout(s: Sys, steps: seq<Step>, d: string) {
    steps == [] ||
    (DeniesThroughout(s, steps[..|steps| - 1], d) && Denies(Run(s, steps[..|steps| - 1]), steps[|steps| - 1], d))
  }

  predicate NeverRan(sims: seq<Sim>, d: string) {
    forall i :: 0 <= i < |sims| ==> sims[i].decision != d
  }

  /** No caller of `d` is beyond its checks. */
  predicate Denied(s: Sys, d: string) {
    && NeverRan(s.sims, d)
    && forall c :: c in s.callers && s.callers[c].call.decision == d ==>
         && s.callers[c].call.kind != Validated
         && (s.callers[c].pc.Leading? ==> s.callers[c].pc.stage.Checking? || s.callers[c].pc.stage.Finishing?)
  }

  lemma {:induction false} StepStaysDenied(s: Sys, step: Step, d: string)
    requires Denied(s, d) && Denies(s, step, d)
    ensures Denied(Next(s, step), d)
  {
    hide Stored, Marked, Simulated, Finish, Cache;
  }

  lemma {:induction false} RunStaysDenied(s: Sys, steps: seq<Step>, d: string)
    requires Denied(s, d) && DeniesThroughout(s, steps, d)
    ensures Denied(Run(s, steps), d)
  {
    hide Denied, Denies, Next;
    if steps != [] {
      RunStaysDenied(s, steps[..|steps| - 1], d);
      StepStaysDenied(Run(s, steps[..|steps| - 1]), steps[|steps| - 1], d);
    }
  }

  /** Over whole runs from any store, with any interleaving, fault and crash: a decision that no check allows, and that
      no caller brings validated, is never simulated. */
  lemma {:induction false} RefusedNeverSimulated(store: Option<map<string, ExecResult>>, steps: seq<Step>, d: string)
    requires DeniesThroughout(Start(store), steps, d)
    ensures forall i :: 0 <= i < |Run(Start(store), steps).sims| ==> Run(Start(store), steps).sims[i].decision != d
  {
    RunStaysDenied(Start(store), steps, d);
  }

  /** Caller `c` leads flight `f` to the result `o`, or has returned it. */
  predicate EndsWith(s: Sys, c: nat, d: string, f: nat, o: Executor.Result) {
    c in s.callers && s.callers[c].call.decision == d
    && (s.callers[c].pc == Leading(f, Finishing(o))
        || (s.callers[c].pc == Returned(o, Led(f)) && f < |s.gate.flights| && s.gate.flights[f].outcome == Some(o)))
  }

  /** A step of another caller leaves a caller and the flight it leads, or led, alone. */
  predicate Leaves(s: Sys, s': Sys, c: nat, f: nat) {
    c in s.callers && c in s'.callers && s'.callers[c] == s.callers[c]
    && f < |s.gate.flights| && f < |s'.gate.flights| && s'.gate.flights[f] == s.gate.flights[f]
  }

  lemma LeadersLeave(s: Sys, b: nat, h: nat, stage: Stage, step: Step, c: nat, f: nat)
    requires b in s.callers && c in s.callers && b != c && s.callers[b].pc == Leading(h, stage)
    requires h != f && h < |s.gate.flights| && f < |s.gate.flights|
    ensures Leaves(s, LeaderStep(s, b, s.callers[b].call, h, stage, step), c, f)
  {
    hide Stored, Marked, Simulated;
  }

  lemma OthersLeave(s: Sys, step: Step, c: nat, f: nat)
    requires ProtocolOk(s) && !step.Restart? && c in s.callers && step.c != c
    requires f < |s.gate.flights| && s.gate.flights[f].leader == c
    ensures Leaves(s, Next(s, step), c, f)
  {
    if !step.Arrive? && step.c in s.callers {
      var pc := s.callers[step.c].pc;
      assert PcOk(s.gate, step.c, s.callers[step.c].call, pc);
      hide ProtocolOk, LeaderStep, Cache;
      if pc.Leading? {
        ExecutorAgreement.CallerLeads(s, step, pc);
        LeadersLeave(s, step.c, pc.flight, pc.stage, step, c, f);
        hide CallerStep;
      }
    }
  }

  lemma OwnStepKeepsEnd(s: Sys, step: Step, c: nat, d: string, f: nat, o: Executor.Result)
    requires EndsWith(s, c, d, f, o) && PcOk(s.gate, c, s.callers[c].call, s.callers[c].pc)
    requires !step.Restart? && step.c == c
    ensures EndsWith(Next(s, step), c, d, f, o)
  {
    hide Stored, Marked, Simulated, Cache;
  }

  lemma StepKeepsEnd(s: Sys, step: Step, c: nat, d: string, f: nat, o: Executor.Result)
    requires ProtocolOk(s) && EndsWith(s, c, d, f, o) && !step.Restart?
    ensures EndsWith(Next(s, step), c, d, f, o)
  {
    assert PcOk(s.gate, c, s.callers[c].call, s.callers[c].pc);
    if step.c == c {
      hide Next, ProtocolOk, EndsWith;
      OwnStepKeepsEnd(s, step, c, d, f, o);
    } else {
      hide Next, ProtocolOk;
      OthersLeave(s, step, c, f);
    }
  }

  lemma {:induction false} RunKeepsEnd(s: Sys, steps: seq<Step>, c: nat, d: string, f: nat, o: Executor.Result)
    requires ProtocolOk(s) && EndsWith(s, c, d, f, o) && NoRestart(steps)
    ensures EndsWith(Run(s, steps), c, d, f, o)
  {
    hide ProtocolOk, EndsWith, Next;
    if steps != [] {
      RunKeepsEnd(s, steps[..|steps| - 1], c, d, f, o);
      RunKeepsProtocol(s, steps[..|steps| - 1]);
      StepKeepsEnd(Run(s, steps[..|steps| - 1]), steps[|steps| - 1], c, d, f, o);
    }
  }

  /** What a leader whose checks refuse the decision, or break, ends with. */
  function Refusal(d: string, verdict: Verdict): Executor.Result
    requires !verdict.Allowed?
  {
    match verdict
    case Broken(err) => Outcome(None, Some(err))
    case Refused(skipped, code, why, recorded) => Outcome(Some(ExecResult(d, if skipped then Skipped else Failed, code)), why)
  }

  /** A leader that is refused returns and publishes exactly the refusal, SKIPPED or FAILED under the code given, in every
      continuation of the process; nothing is simulated for it, and publishing does not cache the refusal. */
  lemma {:induction false} RefusalIsPublished(s: Sys, c: nat, f: nat, verdict: Verdict, fails: bool, more: seq<Step>)
    requires ProtocolOk(s) && c in s.callers && s.callers[c].pc == Leading(f, Checking) && !verdict.Allowed? && NoRestart(more)
    ensures var d := s.callers[c].call.decision;
      var s1 := Next(s, Check(c, verdict, fails));
      var s2 := Run(s1, more);
      && s1.sims == s.sims && s1.gate == s.gate && EndsWith(s2, c, d, f, Refusal(d, verdict))
      && (s2.callers[c].pc.Leading? ==>
           var s3 := Next(s2, FinishFlight(c));
           s3.gate.history == s2.gate.history && s3.callers[c].pc == Returned(Refusal(d, verdict), Led(f)))
  {
    var d := s.callers[c].call.decision;
    var s1 := Next(s, Check(c, verdict, fails));
    assert EndsWith(s1, c, d, f, Refusal(d, verdict)) && s1.sims == s.sims && s1.gate == s.gate by { hide Stored; }
    StepKeepsProtocol(s, Check(c, verdict, fails));
    RunKeepsEnd(s1, more, c, d, f, Refusal(d, verdict));
    RunKeepsProtocol(s1, more);
    var s2 := Run(s1, more);
    hide Run;
    if s2.callers[c].pc.Leading? { assert PcOk(s2.gate, c, s2.callers[c].call, s2.callers[c].pc); }
  }

  // ---- EXECUTED means simulated -----------------------------------------------------------

  /** The body ran for the decision with an allowlisted action, or the store said EXECUTED from the start. */
  predicate Earned(sims: seq<Sim>, before: set<string>, d: string) {
    d in before || exists i :: 0 <= i < |sims| && sims[i] == Sim(d, true)
  }

  predicate ClaimOk(sims: seq<Sim>, before: set<string>, d: string, status: Status) {
    status == Executed ==> Earned(sims, before, d)
  }

  predicate OutcomeOk(sims: seq<Sim>, before: set<string>, d: string, o: Executor.Result) {
    o.res.Some? ==> ClaimOk(sims, before, d, o.res.value.status)
  }

  predicate PcClaims(sims: seq<Sim>, before: set<string>, d: string, pc: PC) {
    match pc
    case Found(res) => ClaimOk(sims, before, d, res.status)
    case Leading(_, stage) => stage.Marking? || stage.Finishing? ==> OutcomeOk(sims, before, d, stage.o)
    case Returned(o, _) => OutcomeOk(sims, before, d, o)
    case _ => true
  }

  predicate StoreClaims(store: Option<map<string, ExecResult>>, sims: seq<Sim>, before: set<string>) {
    store.Some? ==> forall d :: d in store.value ==> ClaimOk(sims, before, d, store.value[d].status)
  }

  predicate HistoryClaims(g: Gate<ExecResult, Error>, sims: seq<Sim>, before: set<string>) {
    forall d :: d in g.history ==> ClaimOk(sims, before, d, g.history[d].status)
  }

  predicate FlightsClaim(g: Gate<ExecResult, Error>, sims: seq<Sim>, before: set<string>) {
    forall f :: 0 <= f < |g.flights| && g.flights[f].outcome.Some? ==>
      OutcomeOk(sims, before, g.flights[f].id, g.flights[f].outcome.value)
  }

  predicate CallersClaim(callers: map<nat, Caller>, sims: seq<Sim>, before: set<string>) {
    forall c :: c in callers ==> PcClaims(sims, before, callers[c].call.decision, callers[c].pc)
  }

  predicate Honest(s: Sys, before: set<string>) {
    && StoreClaims(s.store, s.sims, before) && HistoryClaims(s.gate, s.sims, before)
    && FlightsClaim(s.gate, s.sims, before) && CallersClaim(s.callers, s.sims, before)
  }

  lemma EarnedStays(sims: seq<Sim>, x: Sim, before: set<string>)
    ensures forall d :: Earned(sims, before, d) ==> Earned(sims + [x], before, d)
    ensures x.allowlisted ==> Earned(sims + [x], before, x.decision)
  {
    forall d | Earned(sims, before, d) ensures Earned(sims + [x], before, d) {
      if d !in before {
        var i :| 0 <= i < |sims| && sims[i] == Sim(d, true);
        assert (sims + [x])[i] == Sim(d, true);
      }
    }
    assert (sims + [x])[|sims|] == x;
  }

  lemma MoreSimsStayHonest(s: Sys, x: Sim, before: set<string>)
    requires Honest(s, before)
    ensures Honest(s.(sims := s.sims + [x]), before)
  {
    EarnedStays(s.sims, x, before);
    hide Earned;
    forall c | c in s.callers ensures PcClaims(s.sims + [x], before, s.callers[c].call.decision, s.callers[c].pc) {
      assert PcClaims(s.sims, before, s.callers[c].call.decision, s.callers[c].pc);
    }
  }

  lemma StoringStaysHonest(s: Sys, r: ExecResult, fails: bool, before: set<string>)
    requires StoreClaims(s.store, s.sims, before) && r.status != Executed
    ensures StoreClaims(Stored(s.store, r, fails), s.sims, before)
  {
  }

  lemma MarkingStaysHonest(s: Sys, d: string, o: Executor.Result, fails: bool, before: set<string>)
    requires StoreClaims(s.store, s.sims, before) && OutcomeOk(s.sims, before, d, o)
    requires o.res.Some? ==> o.res.value.decision == d
    ensures StoreClaims(Marked(s.store, o, fails), s.sims, before)
  {
    hide Earned;
  }

  /** A leader's step before it publishes. */
  lemma LeaderStaysHonest(s: Sys, c: nat, f: nat, stage: Stage, step: Step, before: set<string>)
    requires ProtocolOk(s) && Honest(s, before) && c in s.callers && s.callers[c].pc == Leading(f, stage) && !stage.Finishing?
    ensures Honest(LeaderStep(s, c, s.callers[c].call, f, stage, step), before)
  {
    var call := s.callers[c].call;
    assert PcOk(s.gate, c, call, s.callers[c].pc) && PcClaims(s.sims, before, call.decision, s.callers[c].pc);
    var x := Sim(call.decision, call.allowlisted);
    hide ProtocolOk, Earned, GateOk;
    match stage
    case Checking =>
      if step.Check? && step.verdict.Refused? {
        var r := ExecResult(call.decision, if step.verdict.skipped then Skipped else Failed, step.verdict.code);
        StoringStaysHonest(s, r, step.fails, before);
        hide Stored;
      }
    case Recording =>
      if step.Record? {
        StoringStaysHonest(s, ExecResult(call.decision, Executing, ""), step.fails, before);
        hide Stored;
      }
    case Simulating =>
      MoreSimsStayHonest(s, x, before);
      EarnedStays(s.sims, x, before);
    case Marking(o) =>
      if step.Mark? {
        MarkingStaysHonest(s, call.decision, o, step.fails, before);
        hide Marked;
      }
    case Finishing(o) =>
  }

  /** A caller that does not lead. */
  lemma BystanderStaysHonest(s: Sys, c: nat, step: Step, before: set<string>)
    requires Honest(s, before) && c in s.callers && !s.callers[c].pc.Leading? && !step.Arrive? && !step.Restart?
    requires PcOk(s.gate, c, s.callers[c].call, s.callers[c].pc)
    ensures Honest(CallerStep(s, c, s.callers[c].call, s.callers[c].pc, step), before)
  {
    assert PcClaims(s.sims, before, s.callers[c].call.decision, s.callers[c].pc);
    hide Earned, LeaderStep;
  }

  lemma {:induction false} StepStaysHonest(s: Sys, step: Step, before: set<string>)
    requires ProtocolOk(s) && Honest(s, before)
    ensures Honest(Next(s, step), before)
  {
    if !step.Arrive? && !step.Restart? && step.c in s.callers {
      var c, pc := step.c, s.callers[step.c].pc;
      assert PcOk(s.gate, c, s.callers[c].call, pc);
      hide Honest, LeaderStep, CallerStep;
      if pc.Leading? {
        ExecutorAgreement.CallerLeads(s, step, pc);
        if pc.stage.Finishing? {
          PublishingStaysHonest(s, c, pc.flight, pc.stage.o, step, before);
        } else {
          LeaderStaysHonest(s, c, pc.flight, pc.stage, step, before);
        }
      } else {
        BystanderStaysHonest(s, c, step, before);
      }
    }
  }

  lemma PublishingStaysHonest(s: Sys, c: nat, f: nat, o: Executor.Result, step: Step, before: set<string>)
    requires Honest(s, before) && c in s.callers && s.callers[c].pc == Leading(f, Finishing(o))
    requires PcOk(s.gate, c, s.callers[c].call, s.callers[c].pc)
    ensures Honest(LeaderStep(s, c, s.callers[c].call, f, Finishing(o), step), before)
  {
    assert PcClaims(s.sims, before, s.callers[c].call.decision, s.callers[c].pc);
    hide Earned;
  }

  lemma {:induction false} RunStaysHonest(s: Sys, steps: seq<Step>, before: set<string>)
    requires ProtocolOk(s) && Honest(s, before)
    ensures Honest(Run(s, steps), before)
  {
    hide ProtocolOk, Honest, Next;
    if steps != [] {
      RunStaysHonest(s, steps[..|steps| - 1], before);
      RunKeepsProtocol(s, steps[..|steps| - 1]);
      StepStaysHonest(Run(s, steps[..|steps| - 1]), steps[|steps| - 1], before);
    }
  }

  /** The decisions that a store holds as EXECUTED. */
  function ExecutedIn(store: Option<map<string, ExecResult>>): set<string> {
    if store.None? then {} else set d | d in store.value && store.value[d].status == Executed
  }

  /** In every run, crashes and faults included: whoever is told EXECUTED for a decision, and whatever the store then
      says, the body ran for it with an allowlisted action, unless the store held it as EXECUTED before. */
  lemma {:induction false} ExecutedMeansSimulated(store: Option<map<string, ExecResult>>, steps: seq<Step>, d: string)
    requires d !in ExecutedIn(store)
    requires var s := Run(Start(store), steps);
      || d in ExecutedIn(s.store)
      || exists c :: c in s.callers && s.callers[c].call.decision == d && s.callers[c].pc.Returned?
                     && IsExecuted(s.callers[c].pc.o)
    ensures exists i :: 0 <= i < |Run(Start(store), steps).sims| && Run(Start(store), steps).sims[i] == Sim(d, true)
  {
    StartIsOk(store, []);
    RunStaysHonest(Start(store), steps, ExecutedIn(store));
    var s := Run(Start(store), steps);
    hide Run;
    if c :| c in s.callers && s.callers[c].call.decision == d && s.callers[c].pc.Returned? && IsExecuted(s.callers[c].pc.o) {
      assert PcClaims(s.sims, ExecutedIn(store), s.callers[c].call.decision, s.callers[c].pc);
    }
  }

  // ---- What a leader does between its checks and its result -------------------------------------

  /** Once allowed, or validated, a leader first writes its EXECUTING record, then runs the body unless it is cancelled,
      then writes the result: EXECUTED for an allowlisted action, FAILED under its code otherwise. */
  lemma {:induction false} LeaderDecides(s: Sys, c: nat, f: nat, fails: bool, cancelled: bool)
    requires c in s.callers && s.callers[c].pc.Leading? && s.callers[c].pc.flight == f
    ensures var (call, stage, d) := (s.callers[c].call, s.callers[c].pc.stage, s.callers[c].call.decision);
      && (stage == Checking ==>
           var s' := Next(s, Check(c, Allowed, fails));
           s'.callers[c].pc == Leading(f, Recording) && s'.store == s.store && s'.sims == s.sims)
      && (stage == Recording ==>
           var s' := Next(s, Record(c, fails));
           && s'.callers[c].pc == Leading(f, Simulating) && s'.sims == s.sims
           && (s.store.Some? && !fails && d !in s.store.value ==>
                s'.store == Some(s.store.value[d := ExecResult(d, Executing, "")]))
           && (s.store.None? || fails || d in s.store.value ==> s'.store == s.store))
      && (stage == Simulating ==>
           var s' := Next(s, Simulate(c, cancelled));
           && s'.store == s.store
           && s'.sims == (if cancelled then s.sims else s.sims + [Sim(d, call.allowlisted)])
           && s'.callers[c].pc == Leading(f, Marking(
                if cancelled then Outcome(Some(ExecResult(d, Failed, "CONTEXT_CANCELLED")), Some(Cancelled))
                else if !call.allowlisted then Outcome(Some(ExecResult(d, Failed, "UNKNOWN_ACTION_TYPE")), Some(UnknownActionType))
                else Outcome(Some(ExecResult(d, Executed, "")), None))))
  {
  }

  /** A result is written over the record of its decision when that record is EXECUTING, already has the status, or is
      PENDING and the result FAILED; every other record stays. */
  lemma {:induction false} ResultIsMarkedIff(s: Sys, c: nat, f: nat, o: Executor.Result, fails: bool)
    requires c in s.callers && s.callers[c].pc == Leading(f, Marking(o))
    ensures var s' := Next(s, Mark(c, fails));
      && s'.callers[c].pc == Leading(f, Finishing(o)) && s'.sims == s.sims && s'.gate == s.gate
      && (s.store.None? || fails || o.res.None? ==> s'.store == s.store)
      && (s.store.Some? && !fails && o.res.Some? ==>
           var (m, r) := (s.store.value, o.res.value);
           if r.decision in m && (m[r.decision].status == Executing || m[r.decision].status == r.status
                                  || (m[r.decision].status == Pending && r.status == Failed))
           then s'.store == Some(m[r.decision := r]) else s'.store == s.store)
  {
  }

  /** A caller that waits returns what its flight published, or the cancellation if its context ends first. */
  lemma WaitingDecides(s: Sys, c: nat, f: nat)
    requires c in s.callers && s.callers[c].pc == Waiting(f)
    ensures Next(s, GiveUp(c)).callers[c].pc == Returned(Outcome(None, Some(Cancelled)), GaveUp)
    ensures f < |s.gate.flights| && s.gate.flights[f].outcome.Some? ==>
      Next(s, Await(c)).callers[c].pc == Returned(s.gate.flights[f].outcome.value, Followed(f))
    ensures f < |s.gate.flights| && s.gate.flights[f].outcome.None? ==> Next(s, Await(c)) == s
  {
  }

  /** Before the gate: a cached decision is returned as cached; a stored one is returned and cached; any other goes on to
      the gate, and so does one whose lookup fails. */
  lemma {:induction false} LookupDecides(s: Sys, c: nat, fails: bool)
    requires c in s.callers
    ensures var d := s.callers[c].call.decision;
      && (s.callers[c].pc == AtCache ==>
           Next(s, LookInCache(c)).callers[c].pc ==
             if d in s.gate.history then Returned(Outcome(Some(s.gate.history[d]), None), Cached)
             else if s.store.Some? then AtStore else AtGate)
      && (s.callers[c].pc == AtStore ==>
           Next(s, LookInStore(c, fails)).callers[c].pc ==
             if s.store.Some? && !fails && d in s.store.value then Found(s.store.value[d]) else AtGate)
      && (s.callers[c].pc.Found? ==>
           var s' := Next(s, KeepFound(c));
           && s'.callers[c].pc == Returned(Outcome(Some(s.callers[c].pc.res), None), Cached)
           && s'.gate.history == s.gate.history[d := s.callers[c].pc.res] && s'.sims == s.sims)
  {
  }
}
