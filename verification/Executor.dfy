/** The simulated executor: Execute, ExecuteValidated and ExecuteWithApproval under every interleaving of
    concurrent callers (edge/agent/response/executor.go). A step is one critical section, one store call or
    one simulation; between the steps of one caller any other caller may run. */
module Executor {
  import opened Common
  import opened SingleFlight

  datatype Status = Pending | Executing | Executed | Failed | Skipped | Unknown

  datatype Error = Cancelled | CheckFailed(what: string) | UnknownActionType

  datatype ExecResult = ExecResult(decision: string, status: Status, code: string)

  type Result = Outcome<ExecResult, Error>

  datatype Kind = Plain | Validated | WithApproval

  /** A call that passed its argument checks. `allowlisted`: its action type has a simulation handler. */
  datatype Call = Call(kind: Kind, decision: string, allowlisted: bool, approvalRequired: bool)

  /** How far the leader of a flight has come. */
  datatype Stage = Checking | Recording | Simulating | Marking(o: Result) | Finishing(o: Result)

  datatype Via = Cached | Followed(flight: nat) | Led(flight: nat) | GaveUp

  datatype PC =
    | AtCache | AtStore | Found(res: ExecResult) | AtGate
    | Waiting(flight: nat) | Leading(flight: nat, stage: Stage) | Returned(o: Result, via: Via)

  datatype Caller = Caller(call: Call, pc: PC)

  /** One run of the simulation body. */
  datatype Sim = Sim(decision: string, allowlisted: bool)

  /** `store` is the mitigation table by decision id (None: no store configured); `sims` logs every
      simulation body that ran, `simulationCount` being its length. */
  datatype Sys = Sys(gate: Gate<ExecResult, Error>, callers: map<nat, Caller>, store: Option<map<string, ExecResult>>,
                     sims: seq<Sim>)

  /** What the checks before execution (safety validation; for an approval also its loading, its binding
      checks and its consumption) may decide. */
  datatype Verdict = Allowed | Broken(err: Error) | Refused(skipped: bool, code: string, why: Option<Error>, recorded: bool)

  /** `fails` flags are store faults; `Restart` is a process crash: memory is lost, the store and the log stay. */
  datatype Step =
    | Arrive(c: nat, call: Call)
    | LookInCache(c: nat)
    | LookInStore(c: nat, fails: bool)
    | KeepFound(c: nat)
    | UseApproval(c: nat)
    | EnterGate(c: nat)
    | Await(c: nat)
    | GiveUp(c: nat)
    | Check(c: nat, verdict: Verdict, fails: bool)
    | Record(c: nat, fails: bool)
    | Simulate(c: nat, cancelled: bool)
    | Mark(c: nat, fails: bool)
    | FinishFlight(c: nat)
    | Restart

  function Start(store: Option<map<string, ExecResult>>): Sys {
    Sys(Gate(map[], map[], []), map[], store, [])
  }

  function Move(s: Sys, c: nat, pc: PC): Sys
    requires c in s.callers
  {
    s.(callers := s.callers[c := s.callers[c].(pc := pc)])
  }

  /** RecordMitigation: inserts unless the decision already has a record. */
  function Stored(store: Option<map<string, ExecResult>>, r: ExecResult, fails: bool): Option<map<string, ExecResult>> {
    if store.None? || fails || r.decision in store.value then store else Some(store.value[r.decision := r])
  }

  /** MarkMitigationExecuted / MarkMitigationFailed: only a record that is EXECUTING, or already has the
      status, changes. */
  function Marked(store: Option<map<string, ExecResult>>, o: Result, fails: bool): Option<map<string, ExecResult>> {
    if store.None? || fails || o.res.None? || o.res.value.decision !in store.value then store
    else
      var r := o.res.value;
      var was := store.value[r.decision].status;
      if was == Executing || was == r.status || (was == Pending && r.status == Failed)
      then Some(store.value[r.decision := r]) else store
  }

  predicate IsExecuted(o: Result) {
    o.res.Some? && o.res.value.status == Executed
  }

  /** executeSimulation, given whether the context was cancelled before dispatch. */
  function Simulated(call: Call, cancelled: bool): Result {
    if cancelled then Outcome(Some(ExecResult(call.decision, Failed, "CONTEXT_CANCELLED")), Some(Cancelled))
    else if call.allowlisted then Outcome(Some(ExecResult(call.decision, Executed, "")), None)
    else Outcome(Some(ExecResult(call.decision, Failed, "UNKNOWN_ACTION_TYPE")), Some(UnknownActionType))
  }

  function Next(s: Sys, step: Step): Sys {
    match step
    case Arrive(c, call) =>
      if c in s.callers then s else s.(callers := s.callers[c := Caller(call, AtCache)])
    case Restart => Start(s.store).(sims := s.sims)
    case _ =>
      if step.c !in s.callers then s else CallerStep(s, step.c, s.callers[step.c].call, s.callers[step.c].pc, step)
  }

  function CallerStep(s: Sys, c: nat, call: Call, pc: PC, step: Step): Sys
    requires c in s.callers && s.callers[c] == Caller(call, pc) && !step.Arrive? && !step.Restart?
  {
    match pc
    case AtCache =>
      if !step.LookInCache? then s
      else if call.decision in s.gate.history then
        Move(s, c, Returned(Outcome(Some(s.gate.history[call.decision]), None), Cached))
      else Move(s, c, if s.store.Some? then AtStore else AtGate)
    case AtStore =>
      if !step.LookInStore? then s
      else if !step.fails && s.store.Some? && call.decision in s.store.value then
        Move(s, c, Found(s.store.value[call.decision]))
      else Move(s, c, AtGate)
    case Found(res) =>
      if !step.KeepFound? then s
      else Move(s.(gate := Cache(s.gate, call.decision, res)), c, Returned(Outcome(Some(res), None), Cached))
    case AtGate =>
      if step.UseApproval? && call.kind == Plain && call.approvalRequired then
        s.(callers := s.callers[c := Caller(call.(kind := WithApproval), AtCache)])
      else if !step.EnterGate? then s
      else
        var (g, e) := Enter(s.gate, call.decision, c);
        Move(s.(gate := g), c, match e
          case Hit(res) => Returned(Outcome(Some(res), None), Cached)
          case Follow(f) => Waiting(f)
          case Lead(f) => Leading(f, if call.kind == Validated then Recording else Checking))
    case Waiting(f) =>
      if step.Await? && f < |s.gate.flights| && s.gate.flights[f].outcome.Some? then
        Move(s, c, Returned(s.gate.flights[f].outcome.value, Followed(f)))
      else if step.GiveUp? then Move(s, c, Returned(Outcome(None, Some(Cancelled)), GaveUp))
      else s
    case Leading(f, stage) => LeaderStep(s, c, call, f, stage, step)
    case Returned(_, _) => s
  }

  function LeaderStep(s: Sys, c: nat, call: Call, f: nat, stage: Stage, step: Step): Sys
    requires c in s.callers && s.callers[c] == Caller(call, Leading(f, stage))
  {
    match stage
    case Checking =>
      if !step.Check? then s else
      (match step.verdict
       case Allowed => Move(s, c, Leading(f, Recording))
       case Broken(err) => Move(s, c, Leading(f, Finishing(Outcome(None, Some(err)))))
       case Refused(skipped, code, why, recorded) =>
         var r := ExecResult(call.decision, if skipped then Skipped else Failed, code);
         Move(if recorded then s.(store := Stored(s.store, r, step.fails)) else s,
              c, Leading(f, Finishing(Outcome(Some(r), why)))))
    case Recording =>
      if !step.Record? then s
      else Move(s.(store := Stored(s.store, ExecResult(call.decision, Executing, ""), step.fails)), c, Leading(f, Simulating))
    case Simulating =>
      if !step.Simulate? then s
      else
        Move(if step.cancelled then s else s.(sims := s.sims + [Sim(call.decision, call.allowlisted)]),
             c, Leading(f, Marking(Simulated(call, step.cancelled))))
    case Marking(o) =>
      if !step.Mark? then s else Move(s.(store := Marked(s.store, o, step.fails)), c, Leading(f, Finishing(o)))
    case Finishing(o) =>
      if !step.FinishFlight? || f >= |s.gate.flights| then s
      else Move(s.(gate := Finish(s.gate, f, o, IsExecuted(o))), c, Returned(o, Led(f)))
  }

  function Run(s: Sys, steps: seq<Step>): Sys {
    if steps == [] then s else Next(Run(s, steps[..|steps| - 1]), steps[|steps| - 1])
  }

  // ---- What every step keeps -------------------------------------------------

  /** How often the body ran for an allowlisted action of the decision. */
  function Runs(sims: seq<Sim>, decision: string): nat {
    if sims == [] then 0
    else Runs(sims[..|sims| - 1], decision) + if sims[|sims| - 1] == Sim(decision, true) then 1 else 0
  }

  predicate PcOk(g: Gate<ExecResult, Error>, c: nat, call: Call, pc: PC) {
    match pc
    case Waiting(f) => f < |g.flights| && g.flights[f].id == call.decision
    case Leading(f, stage) =>
      && Running(g, f) && g.flights[f].id == call.decision && g.flights[f].leader == c
      && (stage.Marking? || stage.Finishing? ==> stage.o.res.Some? ==> stage.o.res.value.decision == call.decision)
    case Returned(o, Followed(f)) => f < |g.flights| && g.flights[f].outcome == Some(o)
    case Returned(o, Led(f)) => f < |g.flights| && g.flights[f].outcome == Some(o) && g.flights[f].leader == c
    case _ => true
  }

  predicate CallersOk(s: Sys) {
    forall c :: c in s.callers ==> PcOk(s.gate, c, s.callers[c].call, s.callers[c].pc)
  }

  /** Every running flight is led by the caller that registered it; every finished one has returned its
      outcome to that caller. */
  predicate LeadersOk(s: Sys) {
    forall f :: 0 <= f < |s.gate.flights| ==> LeaderOk(s, f)
  }

  predicate LeaderOk(s: Sys, f: nat)
    requires f < |s.gate.flights|
  {
    var fl := s.gate.flights[f];
    fl.leader in s.callers &&
    match fl.outcome
    case None => s.callers[fl.leader].pc.Leading? && s.callers[fl.leader].pc.flight == f
    case Some(o) => s.callers[fl.leader].pc == Returned(o, Led(f))
  }

  predicate ProtocolOk(s: Sys) {
    GateOk(s.gate) && CallersOk(s) && LeadersOk(s)
  }

  /** A caller moves; what it leads, it still leads. */
  lemma MoveKeepsProtocol(s: Sys, c: nat, pc: PC)
    requires ProtocolOk(s) && c in s.callers && PcOk(s.gate, c, s.callers[c].call, pc)
    requires !s.callers[c].pc.Returned?
    requires s.callers[c].pc.Leading? ==> pc.Leading? && pc.flight == s.callers[c].pc.flight
    ensures ProtocolOk(Move(s, c, pc))
  {
    hide GateOk, PcOk;
    var s' := Move(s, c, pc);
    forall f | 0 <= f < |s'.gate.flights| ensures LeaderOk(s', f) { assert LeaderOk(s, f); }
  }

  lemma EnterKeepsProtocol(s: Sys, c: nat)
    requires ProtocolOk(s) && c in s.callers && s.callers[c].pc == AtGate
    ensures ProtocolOk(Next(s, EnterGate(c)))
  {
    var call := s.callers[c].call;
    var (g, e) := Enter(s.gate, call.decision, c);
    EnterKeepsGate(s.gate, call.decision, c);
    var s' := Next(s, EnterGate(c));
    forall d | d in s'.callers ensures PcOk(s'.gate, d, s'.callers[d].call, s'.callers[d].pc) {
      assert PcOk(s.gate, d, s.callers[d].call, s.callers[d].pc);
    }
    forall f | 0 <= f < |s'.gate.flights| ensures LeaderOk(s', f) {
      if f < |s.gate.flights| { assert LeaderOk(s, f); }
    }
  }

  lemma FinishKeepsProtocol(s: Sys, c: nat, f: nat, o: Result)
    requires ProtocolOk(s) && c in s.callers && s.callers[c].pc == Leading(f, Finishing(o))
    ensures ProtocolOk(Next(s, FinishFlight(c)))
  {
    assert PcOk(s.gate, c, s.callers[c].call, s.callers[c].pc);
    FinishKeepsGate(s.gate, f, o, IsExecuted(o));
    var s' := Next(s, FinishFlight(c));
    forall d | d in s'.callers ensures PcOk(s'.gate, d, s'.callers[d].call, s'.callers[d].pc) {
      assert PcOk(s.gate, d, s.callers[d].call, s.callers[d].pc);
      if s.callers[d].pc.Leading? && s.callers[d].pc.flight == f {
        assert LeaderOk(s, f);
      }
    }
    forall h | 0 <= h < |s'.gate.flights| ensures LeaderOk(s', h) { assert LeaderOk(s, h); }
  }

  lemma LeaderStepKeepsProtocol(s: Sys, c: nat, f: nat, stage: Stage, step: Step)
    requires ProtocolOk(s) && c in s.callers && s.callers[c].pc == Leading(f, stage)
    ensures ProtocolOk(LeaderStep(s, c, s.callers[c].call, f, stage, step))
  {
    var call := s.callers[c].call;
    assert PcOk(s.gate, c, call, s.callers[c].pc);
    if stage.Finishing? {
      if step.FinishFlight? { FinishKeepsProtocol(s, c, f, stage.o); }
    } else {
      hide ProtocolOk, GateOk, Running;
      var s' := LeaderStep(s, c, call, f, stage, step);
      var t := s.(store := s'.store, sims := s'.sims);
      StoreIsApart(s, s'.store, s'.sims);
      if s' != s { MoveKeepsProtocol(t, c, s'.callers[c].pc); }
    }
  }

  lemma StoreIsApart(s: Sys, store: Option<map<string, ExecResult>>, sims: seq<Sim>)
    requires ProtocolOk(s)
    ensures ProtocolOk(s.(store := store, sims := sims))
  {
    var s' := s.(store := store, sims := sims);
    forall f | 0 <= f < |s'.gate.flights| ensures LeaderOk(s', f) { assert LeaderOk(s, f); }
  }

  /** Caching a result touches no flight. */
  lemma CacheKeepsProtocol(s: Sys, decision: string, res: ExecResult)
    requires ProtocolOk(s)
    ensures ProtocolOk(s.(gate := Cache(s.gate, decision, res)))
  {
    var s' := s.(gate := Cache(s.gate, decision, res));
    forall c | c in s'.callers ensures PcOk(s'.gate, c, s'.callers[c].call, s'.callers[c].pc) {
      assert PcOk(s.gate, c, s.callers[c].call, s.callers[c].pc);
    }
    forall f | 0 <= f < |s'.gate.flights| ensures LeaderOk(s', f) { assert LeaderOk(s, f); }
  }

  lemma DetourKeepsProtocol(s: Sys, c: nat, call: Call)
    requires ProtocolOk(s) && c in s.callers && s.callers[c].pc == AtGate
    ensures ProtocolOk(s.(callers := s.callers[c := Caller(call, AtCache)]))
  {
    hide GateOk;
    var s' := s.(callers := s.callers[c := Caller(call, AtCache)]);
    forall f | 0 <= f < |s'.gate.flights| ensures LeaderOk(s', f) { assert LeaderOk(s, f); }
  }

  lemma ArriveKeepsProtocol(s: Sys, c: nat, call: Call)
    requires ProtocolOk(s) && c !in s.callers
    ensures ProtocolOk(s.(callers := s.callers[c := Caller(call, AtCache)]))
  {
    hide GateOk;
    var s' := s.(callers := s.callers[c := Caller(call, AtCache)]);
    forall f | 0 <= f < |s'.gate.flights| ensures LeaderOk(s', f) { assert LeaderOk(s, f); }
  }

  lemma StartIsOk(store: Option<map<string, ExecResult>>, sims: seq<Sim>)
    ensures ProtocolOk(Start(store).(sims := sims))
  {
  }

  lemma {:induction false} StepKeepsProtocol(s: Sys, step: Step)
    requires ProtocolOk(s)
    ensures ProtocolOk(Next(s, step))
  {
    if step.Arrive? {
      if step.c !in s.callers { ArriveKeepsProtocol(s, step.c, step.call); }
    } else if step.Restart? {
      StartIsOk(s.store, s.sims);
    } else if step.c in s.callers {
      var c, call, pc := step.c, s.callers[step.c].call, s.callers[step.c].pc;
      if pc.Leading? {
        LeaderStepKeepsProtocol(s, c, pc.flight, pc.stage, step);
      } else if pc.AtGate? {
        if step.EnterGate? { EnterKeepsProtocol(s, c); }
        else if step.UseApproval? { DetourKeepsProtocol(s, c, call.(kind := WithApproval)); }
      } else if pc.Found? {
        CacheKeepsProtocol(s, call.decision, pc.res);
        if step.KeepFound? {
          MoveKeepsProtocol(s.(gate := Cache(s.gate, call.decision, pc.res)), c, Returned(Outcome(Some(pc.res), None), Cached));
        }
      } else {
        assert PcOk(s.gate, c, call, pc);
        hide ProtocolOk, GateOk, Running;
        var s' := Next(s, step);
        if s' != s { MoveKeepsProtocol(s, c, s'.callers[c].pc); }
      }
    }
  }

  lemma {:induction false} RunKeepsProtocol(s: Sys, steps: seq<Step>)
    requires ProtocolOk(s)
    ensures ProtocolOk(Run(s, steps))
  {
    hide ProtocolOk, Next;
    if steps != [] {
      RunKeepsProtocol(s, steps[..|steps| - 1]);
      StepKeepsProtocol(Run(s, steps[..|steps| - 1]), steps[|steps| - 1]);
    }
  }

  /** Under every interleaving, at most one caller leads a decision at a time. */
  lemma {:induction false} AtMostOneLeader(store: Option<map<string, ExecResult>>, steps: seq<Step>, c: nat, d: nat)
    requires var s := Run(Start(store), steps);
      c in s.callers && d in s.callers && s.callers[c].pc.Leading? && s.callers[d].pc.Leading?
      && s.callers[c].call.decision == s.callers[d].call.decision
    ensures c == d
  {
    var s := Run(Start(store), steps);
    StartIsOk(store, []);
    RunKeepsProtocol(Start(store), steps);
    hide Run;
    assert PcOk(s.gate, c, s.callers[c].call, s.callers[c].pc);
    assert PcOk(s.gate, d, s.callers[d].call, s.callers[d].pc);
    OneFlightPerId(s.gate, s.callers[c].pc.flight, s.callers[d].pc.flight);
  }

  /** A caller that waited to completion returned exactly what the leader of its flight returned, and no
      caller waits on a flight nobody leads. */
  lemma {:induction false} FollowersShareTheLeadersResult(store: Option<map<string, ExecResult>>, steps: seq<Step>,
          c: nat)
    requires c in Run(Start(store), steps).callers
    ensures var s := Run(Start(store), steps);
      var pc := s.callers[c].pc;
      && (pc.Returned? && pc.via.Followed? ==>
           var f := pc.via.flight;
           f < |s.gate.flights| && var l := s.gate.flights[f].leader;
           l in s.callers && s.callers[l].pc == Returned(pc.o, Led(f)))
      && (pc.Waiting? && Running(s.gate, pc.flight) ==>
           var l := s.gate.flights[pc.flight].leader;
           l in s.callers && s.callers[l].pc.Leading? && s.callers[l].pc.flight == pc.flight
           && s.gate.flights[pc.flight].id == s.callers[c].call.decision)
  {
    var s := Run(Start(store), steps);
    StartIsOk(store, []);
    RunKeepsProtocol(Start(store), steps);
    hide Run, GateOk;
    var pc := s.callers[c].pc;
    assert PcOk(s.gate, c, s.callers[c].call, pc);
    if pc.Returned? && pc.via.Followed? { assert LeaderOk(s, pc.via.flight); }
    if pc.Waiting? { assert LeaderOk(s, pc.flight); }
  }

  // ---- At most one simulation per decision -----------------------------------

  predicate Past(stage: Stage) {
    stage.Marking? || stage.Finishing?
  }

  /** The stage of the caller that leads the decision, if one does. */
  function StageOf(s: Sys, d: string): Option<Stage> {
    if d in s.gate.inFlight && s.gate.inFlight[d] < |s.gate.flights| then
      var l := s.gate.flights[s.gate.inFlight[d]].leader;
      if l in s.callers && s.callers[l].pc.Leading? then Some(s.callers[l].pc.stage) else None
    else None
  }

  /** The leader of a decision is found through its flight. */
  lemma StageOfLeader(s: Sys, c: nat)
    requires ProtocolOk(s) && c in s.callers && s.callers[c].pc.Leading?
    ensures StageOf(s, s.callers[c].call.decision) == Some(s.callers[c].pc.stage)
  {
    assert PcOk(s.gate, c, s.callers[c].call, s.callers[c].pc);
  }

  /** The body ran for `d` and its result is cached, or about to be. */
  predicate Settled(s: Sys, d: string) {
    d in s.gate.history || (StageOf(s, d).Some? && Past(StageOf(s, d).value) && IsExecuted(StageOf(s, d).value.o))
  }

  predicate OnceOk(s: Sys, d: string) {
    && Runs(s.sims, d) <= 1
    && (Runs(s.sims, d) == 1 ==> Settled(s, d))
    && (StageOf(s, d).Some? && !Past(StageOf(s, d).value) ==> Runs(s.sims, d) == 0)
  }

  /** A caller that leads nothing of `d` moves without touching gate or log. */
  lemma StageUnmoved(s: Sys, s': Sys, c: nat, d: string)
    requires ProtocolOk(s) && c in s.callers && s'.gate.inFlight == s.gate.inFlight && s'.gate.flights == s.gate.flights
    requires c in s'.callers && s'.callers == s.callers[c := s'.callers[c]]
    requires s.callers[c].pc.Leading? ==> s.callers[c].call.decision != d
    requires s'.callers[c].pc.Leading? <==> s.callers[c].pc.Leading?
    ensures StageOf(s', d) == StageOf(s, d)
  {
    if d in s.gate.inFlight {
      var f := s.gate.inFlight[d];
      assert LeaderOk(s, f);
      var l := s.gate.flights[f].leader;
      assert PcOk(s.gate, l, s.callers[l].call, s.callers[l].pc);
    }
  }

  lemma StageMoved(s: Sys, s': Sys, c: nat)
    requires ProtocolOk(s) && c in s.callers && s'.gate.inFlight == s.gate.inFlight && s'.gate.flights == s.gate.flights
    requires c in s'.callers && s.callers[c].pc.Leading? && s'.callers[c].pc.Leading?
    ensures StageOf(s', s.callers[c].call.decision) == Some(s'.callers[c].pc.stage)
  {
    assert PcOk(s.gate, c, s.callers[c].call, s.callers[c].pc);
  }

  lemma EnterKeepsOnce(s: Sys, c: nat, d: string)
    requires ProtocolOk(s) && OnceOk(s, d) && c in s.callers && s.callers[c].pc == AtGate
    ensures OnceOk(Next(s, EnterGate(c)), d)
  {
    var s' := Next(s, EnterGate(c));
    var id := s.callers[c].call.decision;
    EnterKeepsProtocol(s, c);
    hide Runs;
    if id in s.gate.history || id in s.gate.inFlight {
      StageUnmoved(s, s', c, d);
    } else if d == id {
      StageOfLeader(s', c);
    } else if d in s.gate.inFlight {
      assert LeaderOk(s, s.gate.inFlight[d]);
      assert StageOf(s', d) == StageOf(s, d);
    }
  }

  lemma FinishKeepsOnce(s: Sys, c: nat, f: nat, o: Result, d: string)
    requires ProtocolOk(s) && OnceOk(s, d) && c in s.callers && s.callers[c].pc == Leading(f, Finishing(o))
    ensures OnceOk(Next(s, FinishFlight(c)), d)
  {
    var s' := Next(s, FinishFlight(c));
    var id := s.callers[c].call.decision;
    assert PcOk(s.gate, c, s.callers[c].call, s.callers[c].pc);
    StageOfLeader(s, c);
    hide Runs;
    if d != id && d in s.gate.inFlight {
      var l := s.gate.flights[s.gate.inFlight[d]].leader;
      assert LeaderOk(s, s.gate.inFlight[d]);
      assert PcOk(s.gate, l, s.callers[l].call, s.callers[l].pc);
      assert StageOf(s', d) == StageOf(s, d);
    }
  }

  lemma RunsAppend(sims: seq<Sim>, x: Sim, d: string)
    ensures Runs(sims + [x], d) == Runs(sims, d) + if x == Sim(d, true) then 1 else 0
  {
    assert (sims + [x])[..|sims|] == sims;
  }

  /** What a leader's steps before the last one change. */
  predicate Advances(s: Sys, s': Sys, c: nat, f: nat, stage: Stage)
    requires c in s.callers
  {
    && s'.gate == s.gate && c in s'.callers && s'.callers == s.callers[c := s'.callers[c]]
    && s'.callers[c].call == s.callers[c].call && s'.callers[c].pc.Leading? && s'.callers[c].pc.flight == f
    && (s'.sims == s.sims || Ran(s, s', c, stage))
    && (Past(stage) ==> s'.sims == s.sims && Past(s'.callers[c].pc.stage) && s'.callers[c].pc.stage.o == stage.o)
  }

  predicate Ran(s: Sys, s': Sys, c: nat, stage: Stage)
    requires c in s.callers && c in s'.callers && s'.callers[c].pc.Leading?
  {
    var call := s.callers[c].call;
    && stage.Simulating? && s'.sims == s.sims + [Sim(call.decision, call.allowlisted)]
    && s'.callers[c].pc.stage == Marking(Simulated(call, false))
  }

  lemma LeaderAdvances(s: Sys, c: nat, f: nat, stage: Stage, step: Step)
    requires c in s.callers && s.callers[c].pc == Leading(f, stage) && !stage.Finishing?
    ensures var s' := LeaderStep(s, c, s.callers[c].call, f, stage, step);
      s' == s || Advances(s, s', c, f, stage)
  {
    hide Stored, Marked, Simulated;
  }

  lemma LeaderStores(s: Sys, c: nat, f: nat, stage: Stage, step: Step)
    requires c in s.callers && s.callers[c].pc == Leading(f, stage) && s.store.Some? && Reliable(step)
    ensures var s' := LeaderStep(s, c, s.callers[c].call, f, stage, step);
      && s'.store.Some? && s.store.value.Keys <= s'.store.value.Keys
      && (s'.callers[c].pc == Leading(f, Simulating) ==> stage == Simulating || s.callers[c].call.decision in s'.store.value)
  {
  }

  lemma AdvanceKeepsOnce(s: Sys, s': Sys, c: nat, f: nat, stage: Stage, d: string)
    requires ProtocolOk(s) && OnceOk(s, d) && c in s.callers && s.callers[c].pc == Leading(f, stage)
    requires Advances(s, s', c, f, stage)
    ensures OnceOk(s', d)
  {
    hide ProtocolOk, Runs, StageOf;
    var call := s.callers[c].call;
    StageOfLeader(s, c);
    if d == call.decision { StageMoved(s, s', c); } else { StageUnmoved(s, s', c, d); }
    RunsAppend(s.sims, Sim(call.decision, call.allowlisted), d);
  }

  lemma LeaderStepKeepsOnce(s: Sys, c: nat, f: nat, stage: Stage, step: Step, d: string)
    requires ProtocolOk(s) && OnceOk(s, d) && c in s.callers && s.callers[c].pc == Leading(f, stage)
    ensures OnceOk(LeaderStep(s, c, s.callers[c].call, f, stage, step), d)
  {
    var call := s.callers[c].call;
    var s' := LeaderStep(s, c, call, f, stage, step);
    if stage.Finishing? {
      if step.FinishFlight? { FinishKeepsOnce(s, c, f, stage.o, d); }
    } else {
      hide *;
      LeaderAdvances(s, c, f, stage, step);
      if s' != s { AdvanceKeepsOnce(s, s', c, f, stage, d); }
    }
  }

  lemma {:induction false} StepKeepsOnce(s: Sys, step: Step, d: string)
    requires ProtocolOk(s) && OnceOk(s, d) && !step.Restart?
    ensures OnceOk(Next(s, step), d)
  {
    if step.Arrive? {
      if step.c !in s.callers {
        var s' := Next(s, step);
        if d in s.gate.inFlight { assert LeaderOk(s, s.gate.inFlight[d]); }
        assert StageOf(s', d) == StageOf(s, d);
      }
    } else if step.c in s.callers {
      var c, pc := step.c, s.callers[step.c].pc;
      if pc.Leading? {
        LeaderStepKeepsOnce(s, c, pc.flight, pc.stage, step, d);
      } else if pc.AtGate? && step.EnterGate? {
        EnterKeepsOnce(s, c, d);
      } else {
        hide ProtocolOk, Runs;
        var s' := Next(s, step);
        if s' != s { StageUnmoved(s, s', c, d); }
      }
    }
  }

  predicate NoRestart(steps: seq<Step>) {
    forall i :: 0 <= i < |steps| ==> !steps[i].Restart?
  }

  lemma {:induction false} RunKeepsOnce(s: Sys, steps: seq<Step>, d: string)
    requires ProtocolOk(s) && OnceOk(s, d) && NoRestart(steps)
    ensures OnceOk(Run(s, steps), d)
  {
    hide ProtocolOk, OnceOk, Next;
    if steps != [] {
      RunKeepsProtocol(s, steps[..|steps| - 1]);
      RunKeepsOnce(s, steps[..|steps| - 1], d);
      StepKeepsOnce(Run(s, steps[..|steps| - 1]), steps[|steps| - 1], d);
    }
  }

  /** In one process, whatever the interleaving, the store contents and the store faults, the simulation
      body runs at most once per decision with an allowlisted action. */
  lemma {:induction false} SimulatedAtMostOnce(store: Option<map<string, ExecResult>>, steps: seq<Step>, d: string)
    requires NoRestart(steps)
    ensures Runs(Run(Start(store), steps).sims, d) <= 1
  {
    StartIsOk(store, []);
    RunKeepsOnce(Start(store), steps, d);
  }

  // ---- Across restarts -------------------------------------------------------

  /** No caller of `d` can still lead it without looking at history first. */
  predicate NobodyPastTheStore(s: Sys, d: string) {
    forall c :: c in s.callers && s.callers[c].call.decision == d ==> !s.callers[c].pc.AtGate? && !s.callers[c].pc.Leading?
  }

  predicate DurableOk(s: Sys, d: string) {
    && s.store.Some?
    && Runs(s.sims, d) <= 1
    && (Runs(s.sims, d) == 1 ==> d in s.store.value && (Settled(s, d) || NobodyPastTheStore(s, d)))
    && (StageOf(s, d).Some? && !Past(StageOf(s, d).value) ==> Runs(s.sims, d) == 0)
    && (StageOf(s, d) == Some(Simulating) ==> d in s.store.value)
  }

  /** The store answers lookups and accepts the record that precedes a simulation. */
  predicate Reliable(step: Step) {
    (step.LookInStore? || step.Record?) ==> !step.fails
  }

  lemma FinishKeepsDurable(s: Sys, c: nat, f: nat, o: Result, d: string)
    requires ProtocolOk(s) && DurableOk(s, d) && c in s.callers && s.callers[c].pc == Leading(f, Finishing(o))
    ensures DurableOk(Next(s, FinishFlight(c)), d)
  {
    var s' := Next(s, FinishFlight(c));
    var id := s.callers[c].call.decision;
    assert PcOk(s.gate, c, s.callers[c].call, s.callers[c].pc);
    StageOfLeader(s, c);
    hide Runs;
    if d != id && d in s.gate.inFlight {
      var l := s.gate.flights[s.gate.inFlight[d]].leader;
      assert LeaderOk(s, s.gate.inFlight[d]);
      assert PcOk(s.gate, l, s.callers[l].call, s.callers[l].pc);
      assert StageOf(s', d) == StageOf(s, d);
    }
  }

  lemma NobodyLeads(s: Sys, s': Sys, c: nat, d: string)
    requires c in s.callers && s.callers[c].pc.Leading?
    requires c in s'.callers && s'.callers == s.callers[c := s'.callers[c]] && s'.callers[c].call == s.callers[c].call
    requires s'.callers[c].pc.Leading? && NobodyPastTheStore(s, d)
    ensures NobodyPastTheStore(s', d)
  {
  }

  lemma LeaderStepKeepsDurable(s: Sys, c: nat, f: nat, stage: Stage, step: Step, d: string)
    requires ProtocolOk(s) && DurableOk(s, d) && Reliable(step) && c in s.callers && s.callers[c].pc == Leading(f, stage)
    ensures DurableOk(LeaderStep(s, c, s.callers[c].call, f, stage, step), d)
  {
    var call := s.callers[c].call;
    var s' := LeaderStep(s, c, call, f, stage, step);
    if stage.Finishing? {
      if step.FinishFlight? { FinishKeepsDurable(s, c, f, stage.o, d); }
    } else {
      hide *;
      LeaderAdvances(s, c, f, stage, step);
      DurableStores(s, d);
      LeaderStores(s, c, f, stage, step);
      if s' != s { AdvanceKeepsDurable(s, s', c, f, stage, d); }
    }
  }

  lemma DurableStores(s: Sys, d: string)
    requires DurableOk(s, d)
    ensures s.store.Some?
  {
  }

  lemma AdvanceKeepsDurable(s: Sys, s': Sys, c: nat, f: nat, stage: Stage, d: string)
    requires ProtocolOk(s) && DurableOk(s, d) && c in s.callers && s.callers[c].pc == Leading(f, stage)
    requires Advances(s, s', c, f, stage) && s'.store.Some? && s.store.value.Keys <= s'.store.value.Keys
    requires s'.callers[c].pc == Leading(f, Simulating) ==> stage == Simulating || s.callers[c].call.decision in s'.store.value
    ensures DurableOk(s', d)
  {
    hide ProtocolOk, Runs, StageOf, NobodyPastTheStore;
    var call := s.callers[c].call;
    StageOfLeader(s, c);
    if d == call.decision { StageMoved(s, s', c); } else { StageUnmoved(s, s', c, d); }
    if NobodyPastTheStore(s, d) { NobodyLeads(s, s', c, d); }
    RunsAppend(s.sims, Sim(call.decision, call.allowlisted), d);
  }

  lemma EnterKeepsDurable(s: Sys, c: nat, d: string)
    requires ProtocolOk(s) && DurableOk(s, d) && c in s.callers && s.callers[c].pc == AtGate
    ensures DurableOk(Next(s, EnterGate(c)), d)
  {
    var s' := Next(s, EnterGate(c));
    var id := s.callers[c].call.decision;
    EnterKeepsProtocol(s, c);
    hide Runs;
    if id in s.gate.history || id in s.gate.inFlight {
      StageUnmoved(s, s', c, d);
    } else if d == id {
      StageOfLeader(s', c);
    } else if d in s.gate.inFlight {
      assert LeaderOk(s, s.gate.inFlight[d]);
      assert StageOf(s', d) == StageOf(s, d);
    }
  }

  lemma ArriveKeepsDurable(s: Sys, c: nat, call: Call, d: string)
    requires ProtocolOk(s) && DurableOk(s, d) && c !in s.callers
    ensures DurableOk(Next(s, Arrive(c, call)), d)
  {
    var s' := Next(s, Arrive(c, call));
    if d in s.gate.inFlight { assert LeaderOk(s, s.gate.inFlight[d]); }
    assert StageOf(s', d) == StageOf(s, d);
    hide Runs, StageOf;
  }

  /** A caller that neither leads nor enters the gate. */
  lemma BystanderKeepsDurable(s: Sys, step: Step, d: string)
    requires ProtocolOk(s) && DurableOk(s, d) && Reliable(step) && !step.Arrive? && !step.Restart? && step.c in s.callers
    requires !s.callers[step.c].pc.Leading? && !(s.callers[step.c].pc.AtGate? && step.EnterGate?)
    ensures DurableOk(Next(s, step), d)
  {
    hide ProtocolOk, Runs;
    var s' := Next(s, step);
    if s' != s {
      StageUnmoved(s, s', step.c, d);
      hide StageOf;
    }
  }

  lemma RestartKeepsDurable(s: Sys, d: string)
    requires DurableOk(s, d)
    ensures DurableOk(Next(s, Restart), d)
  {
  }

  lemma {:induction false} StepKeepsDurable(s: Sys, step: Step, d: string)
    requires ProtocolOk(s) && DurableOk(s, d) && Reliable(step)
    ensures DurableOk(Next(s, step), d)
  {
    if step.Restart? {
      RestartKeepsDurable(s, d);
    } else if step.Arrive? {
      if step.c !in s.callers { ArriveKeepsDurable(s, step.c, step.call, d); }
    } else if step.c in s.callers {
      var c, pc := step.c, s.callers[step.c].pc;
      hide ProtocolOk, DurableOk;
      if pc.Leading? {
        LeaderStepKeepsDurable(s, c, pc.flight, pc.stage, step, d);
      } else if pc.AtGate? && step.EnterGate? {
        EnterKeepsDurable(s, c, d);
      } else {
        BystanderKeepsDurable(s, step, d);
      }
    }
  }

  predicate AllReliable(steps: seq<Step>) {
    forall i :: 0 <= i < |steps| ==> Reliable(steps[i])
  }

  lemma {:induction false} RunKeepsDurable(s: Sys, steps: seq<Step>, d: string)
    requires ProtocolOk(s) && DurableOk(s, d) && AllReliable(steps)
    ensures DurableOk(Run(s, steps), d)
  {
    hide ProtocolOk, DurableOk, Next, Reliable;
    if steps != [] {
      RunKeepsProtocol(s, steps[..|steps| - 1]);
      RunKeepsDurable(s, steps[..|steps| - 1], d);
      StepKeepsDurable(Run(s, steps[..|steps| - 1]), steps[|steps| - 1], d);
    }
  }

  /** With a store whose lookups and pre-execution records succeed, the bound holds across any number of
      crashes and restarts. */
  lemma {:induction false} SimulatedAtMostOnceAcrossRestarts(store: map<string, ExecResult>, steps: seq<Step>,
          d: string)
    requires AllReliable(steps)
    ensures Runs(Run(Start(Some(store)), steps).sims, d) <= 1
  {
    StartIsOk(Some(store), []);
    RunKeepsDurable(Start(Some(store)), steps, d);
  }

  /** The executor's shared state. Each method is one critical section under e.mu, or one simulation. */
  class SimulatedExecutor {
    var history: map<string, ExecResult>
    var inFlight: map<string, nat>
    var flights: seq<Flight<ExecResult, Error>>
    var simulationCount: nat

    function View(): Gate<ExecResult, Error>
      reads this
    {
      Gate(history, inFlight, flights)
    }

    constructor ()
      ensures View() == Gate(map[], map[], []) && GateOk(View()) && simulationCount == 0
    {
      history, inFlight, flights, simulationCount := map[], map[], [], 0;
    }

    method CacheStored(decision: string, res: ExecResult)
      requires GateOk(View())
      modifies this
      ensures View() == Cache(old(View()), decision, res) && GateOk(View()) && simulationCount == old(simulationCount)
    {
      history := history[decision := res];
    }

    /** The gate: a cached result, the flight to follow, or the flight this caller now leads. */
    method EnterGate(decision: string, caller: nat) returns (e: Entry<ExecResult>)
      requires GateOk(View())
      modifies this
      ensures (View(), e) == Enter(old(View()), decision, caller) && GateOk(View())
      ensures e.Lead? ==> decision !in old(inFlight) && Running(View(), e.flight) && flights[e.flight].leader == caller
      ensures simulationCount == old(simulationCount)
    {
      EnterKeepsGate(View(), decision, caller);
      if decision in history { return Hit(history[decision]); }
      if decision in inFlight { return Follow(inFlight[decision]); }
      e := Lead(|flights|);
      inFlight := inFlight[decision := |flights|];
      flights := flights + [Flight(decision, caller, None)];
    }

    /** The leader's deferred function; only an EXECUTED result is cached. */
    method FinishFlight(f: nat, o: Result)
      requires GateOk(View()) && Running(View(), f)
      modifies this
      ensures View() == Finish(old(View()), f, o, IsExecuted(o)) && GateOk(View())
      ensures simulationCount == old(simulationCount)
    {
      FinishKeepsGate(View(), f, o, IsExecuted(o));
      var id := flights[f].id;
      flights := flights[f := flights[f].(outcome := Some(o))];
      if o.res.Some? && o.res.value.status == Executed {
        history := history[id := o.res.value];
      }
      inFlight := inFlight - {id};
    }

    /** executeSimulation */
    method ExecuteSimulation(call: Call, cancelled: bool) returns (o: Result)
      modifies this`simulationCount
      ensures o == Simulated(call, cancelled)
      ensures simulationCount == old(simulationCount) + if cancelled then 0 else 1
    {
      if cancelled {
        return Outcome(Some(ExecResult(call.decision, Failed, "CONTEXT_CANCELLED")), Some(Cancelled));
      }
      simulationCount := simulationCount + 1;
      if !call.allowlisted {
        return Outcome(Some(ExecResult(call.decision, Failed, "UNKNOWN_ACTION_TYPE")), Some(UnknownActionType));
      }
      o := Outcome(Some(ExecResult(call.decision, Executed, "")), None);
    }
  }
}
