/** How many executor calls an incident can get, for every ceiling and every number of decisions its rules may yield
    (orchestrator.go:519-627, 837-915, response/decision.go:94-107, storage/sqlite.go:1749-1757). Prior attempts are
    counted with a query limited to 100 rows; past them the attempt number is 101 again, and a record is refused when
    its ids are taken. */
module ExecutionLimit {
  import opened Common
  import opened SingleFlight
  import opened Orchestrator
  import ResponsePolicy

  // ---- The decisions of an incident ---------------------------------------------------

  /** What follows "dec-" in a decision id: twelve bytes of a hash of incident, policy, action and target, in hex. */
  predicate IsDigest(t: string) {
    |t| == 24 && forall i :: 0 <= i < |t| ==> '0' <= t[i] <= '9' || 'a' <= t[i] <= 'f'
  }

  /** An attempt for the incident carries one of the decisions that the rules yield for it. */
  predicate Decides(s: Sys, step: Step, incident: string, tails: set<string>) {
    step.TryRecord? && Running(s.gate, step.f) && s.gate.flights[step.f].id == incident ==> step.round.tail in tails
  }

  predicate DecidesWithin(ceiling: int, s: Sys, steps: seq<Step>, incident: string, tails: set<string>) {
    steps == [] ||
    (DecidesWithin(ceiling, s, steps[..|steps| - 1], incident, tails)
     && Decides(Run(ceiling, s, steps[..|steps| - 1]), steps[|steps| - 1], incident, tails))
  }

  // ---- Calls beyond the query limit -----------------------------------------------------

  /** The record ids the decisions can have on one attempt. */
  function IdsOn(tails: set<string>, attempt: int): set<string> {
    set t | t in tails :: "dec-" + t + Suffix(attempt)
  }

  lemma {:induction false} IdsOnSize(tails: set<string>, attempt: int)
    ensures |IdsOn(tails, attempt)| <= |tails|
    decreases tails
  {
    hide Suffix;
    if tails == {} {
      assert IdsOn(tails, attempt) == {};
    } else {
      var t :| t in tails;
      IdsOnSize(tails - {t}, attempt);
      assert IdsOn(tails, attempt) == IdsOn(tails - {t}, attempt) + {"dec-" + t + Suffix(attempt)};
    }
  }

  /** The record ids of attempts 101 to 100 + n. */
  function LateIds(tails: set<string>, n: nat): set<string> {
    if n == 0 then {} else LateIds(tails, n - 1) + IdsOn(tails, LIST_LIMIT + n)
  }

  function Times(k: nat, n: nat): nat { k * n }

  lemma OnceMore(k: nat, n: nat)
    ensures Times(k, n + 1) == Times(k, n) + k && Times(k, 0) == 0
  {
  }

  lemma UnionSize<T>(a: set<T>, b: set<T>)
    ensures |a + b| <= |a| + |b|
  {
  }

  lemma LateIdsUnfold(tails: set<string>, n: nat)
    ensures LateIds(tails, 0) == {}
    ensures n > 0 ==> LateIds(tails, n) == LateIds(tails, n - 1) + IdsOn(tails, LIST_LIMIT + n)
  {
  }

  lemma {:induction false} LateIdsSize(tails: set<string>, n: nat)
    ensures |LateIds(tails, n)| <= Times(|tails|, n)
  {
    hide Times, LateIds, IdsOn;
    LateIdsUnfold(tails, n);
    if n == 0 {
      OnceMore(|tails|, 0);
    } else {
      OnceMore(|tails|, n - 1);
      LateIdsSize(tails, n - 1);
      IdsOnSize(tails, LIST_LIMIT + n);
      UnionSize(LateIds(tails, n - 1), IdsOn(tails, LIST_LIMIT + n));
    }
  }

  lemma {:induction false} LateIdsHave(tails: set<string>, n: nat, t: string, attempt: int)
    requires t in tails && LIST_LIMIT < attempt <= LIST_LIMIT + n
    ensures "dec-" + t + Suffix(attempt) in LateIds(tails, n)
  {
    hide Suffix;
    if attempt < LIST_LIMIT + n { LateIdsHave(tails, n - 1, t, attempt); }
  }

  /** The record ids of the incident's calls from the 101st on. */
  function LateCalls(calls: seq<ExecCall>, incident: string): set<string> {
    if calls == [] then {}
    else
      var front, c := calls[..|calls| - 1], calls[|calls| - 1];
      LateCalls(front, incident) + if c.incident == incident && Calls(front, incident) >= LIST_LIMIT then {c.decision} else {}
  }

  lemma LateCallsAppend(calls: seq<ExecCall>, c: ExecCall, incident: string)
    ensures LateCalls(calls + [c], incident)
         == LateCalls(calls, incident)
            + if c.incident == incident && Calls(calls, incident) >= LIST_LIMIT then {c.decision} else {}
  {
    assert (calls + [c])[..|calls|] == calls;
  }

  lemma {:induction false} LateCallsAreCalls(calls: seq<ExecCall>, incident: string, d: string) returns (i: nat)
    requires d in LateCalls(calls, incident)
    ensures i < |calls| && calls[i].decision == d
  {
    var front := calls[..|calls| - 1];
    if d in LateCalls(front, incident) {
      i := LateCallsAreCalls(front, incident, d);
    } else {
      i := |calls| - 1;
    }
  }

  lemma {:induction false} LateCallsCount(calls: seq<ExecCall>, incident: string)
    requires CallsDistinct(calls)
    ensures |LateCalls(calls, incident)| == Max(0, Calls(calls, incident) - LIST_LIMIT)
  {
    if calls != [] {
      var front, c := calls[..|calls| - 1], calls[|calls| - 1];
      LateCallsCount(front, incident);
      LastIsNew(calls, incident);
      hide CallsDistinct;
      OneMore(LateCalls(front, incident), c.decision);
    }
  }

  lemma LastIsNew(calls: seq<ExecCall>, incident: string)
    requires CallsDistinct(calls) && calls != []
    ensures calls[|calls| - 1].decision !in LateCalls(calls[..|calls| - 1], incident)
  {
    var front, d := calls[..|calls| - 1], calls[|calls| - 1].decision;
    hide LateCalls;
    if d in LateCalls(front, incident) { var i := LateCallsAreCalls(front, incident, d); }
  }

  lemma OneMore<T>(a: set<T>, x: T)
    requires x !in a
    ensures |a + {x}| == |a| + 1 && a + {} == a
  {
  }

  /** Calls beyond the query limit, and the records that lead to them, have ids of late attempts. */
  predicate LateOk(ceiling: int, s: Sys, incident: string, tails: set<string>)
    requires ceiling >= LIST_LIMIT
  {
    && LateCalls(s.calls, incident) <= LateIds(tails, ceiling - LIST_LIMIT)
    && forall f :: f in s.cycles && Running(s.gate, f) && s.gate.flights[f].id == incident ==>
         LatePhase(ceiling, s.cycles[f], tails)
  }

  predicate LatePhase(ceiling: int, p: Phase, tails: set<string>)
    requires ceiling >= LIST_LIMIT
  {
    p.Recorded? && p.attempt > LIST_LIMIT ==> p.m.decision in LateIds(tails, ceiling - LIST_LIMIT)
  }

  lemma RecordingIsLate(ceiling: int, table: seq<Mitigation>, incident: string, attempt: int, r: Round, tails: set<string>)
    requires ceiling >= LIST_LIMIT && r.tail in tails
    ensures LatePhase(ceiling, TopOfAttempt(ceiling, table, incident, attempt, r).1, tails)
  {
    hide Taken, Suffix, LateIds;
    if LIST_LIMIT < attempt <= ceiling { LateIdsHave(tails, ceiling - LIST_LIMIT, r.tail, attempt); }
  }

  lemma CallIsLate(ceiling: int, s: Sys, f: nat, step: Step, incident: string, tails: set<string>)
    requires ceiling >= LIST_LIMIT && BoundOk(ceiling, s, incident) && LateOk(ceiling, s, incident, tails)
    requires Running(s.gate, f) && f in s.cycles && s.cycles[f].Recorded? && step.Execute?
    ensures LateOk(ceiling, CycleStep(ceiling, s, f, s.gate.flights[f].id, s.cycles[f], step), incident, tails)
  {
    var id, p := s.gate.flights[f].id, s.cycles[f];
    LateCallsAppend(s.calls, ExecCall(p.m.action, p.m.decision, id, p.passed), incident);
    assert id == incident ==> LatePhase(ceiling, p, tails) && PhaseOk(ceiling, s, incident, p);
    hide LateIds, LateCalls, Calls, RowsOf;
  }

  lemma {:induction false} StepKeepsLate(ceiling: int, s: Sys, step: Step, incident: string, tails: set<string>)
    requires ceiling >= LIST_LIMIT && GateOk(s.gate) && BoundOk(ceiling, s, incident)
    requires LateOk(ceiling, s, incident, tails) && Decides(s, step, incident, tails)
    ensures LateOk(ceiling, Next(ceiling, s, step), incident, tails)
  {
    hide LateIds, LateCalls, BoundOk, RowsOf, Inserted, Prepared, TopOfAttempt;
    if (step.Prepare? || step.TryRecord? || step.Execute? || step.Publish?) && step.f in s.cycles && Running(s.gate, step.f) {
      var id, p := s.gate.flights[step.f].id, s.cycles[step.f];
      if p.Recorded? && step.Execute? {
        CallIsLate(ceiling, s, step.f, step, incident, tails);
      } else if p.Top? && step.TryRecord? {
        if id == incident { RecordingIsLate(ceiling, s.table, id, p.attempt, step.round, tails); }
      } else if p.Preparing? && step.Prepare? {
        PreparedOwnsNothing(s.table, id, step.pre);
      }
    }
  }

  lemma {:induction false} RunKeepsLate(ceiling: int, s: Sys, steps: seq<Step>, incident: string, tails: set<string>)
    requires ceiling >= LIST_LIMIT && GateOk(s.gate) && BoundOk(ceiling, s, incident)
    requires LateOk(ceiling, s, incident, tails) && DecidesWithin(ceiling, s, steps, incident, tails)
    ensures LateOk(ceiling, Run(ceiling, s, steps), incident, tails)
  {
    hide GateOk, BoundOk, LateOk, Next, Decides;
    if steps != [] {
      var front := steps[..|steps| - 1];
      RunKeepsLate(ceiling, s, front, incident, tails);
      RunKeepsBound(ceiling, s, front, incident);
      StepKeepsLate(ceiling, Run(ceiling, s, front), steps[|steps| - 1], incident, tails);
    }
  }

  /** 100 calls, and for each decision one per attempt number above 100. */
  function MostCalls(ceiling: int, decisions: nat): int {
    LIST_LIMIT + decisions * (ceiling - LIST_LIMIT)
  }

  lemma LateIdsFit(ceiling: int, tails: set<string>)
    requires ceiling >= LIST_LIMIT
    ensures LIST_LIMIT + |LateIds(tails, ceiling - LIST_LIMIT)| <= MostCalls(ceiling, |tails|)
  {
    hide LateIds;
    LateIdsSize(tails, ceiling - LIST_LIMIT);
  }

  /** From the query limit on, an incident gets at most 100 calls and, for each of its decisions, one call per attempt
      number above 100: over cycles, concurrency, crashes and foreign writes. */
  lemma {:induction false} CallsAreBoundedByDecisions(ceiling: int, table: seq<Mitigation>, steps: seq<Step>,
          incident: string, tails: set<string>)
    requires ceiling >= LIST_LIMIT && DecidesWithin(ceiling, Start(table), steps, incident, tails)
    ensures Calls(Run(ceiling, Start(table), steps).calls, incident) <= MostCalls(ceiling, |tails|)
  {
    var s := Run(ceiling, Start(table), steps);
    RunKeepsLate(ceiling, Start(table), steps, incident, tails);
    RunKeepsRecords(ceiling, Start(table), steps);
    hide Run, LateIds, LateCalls, Calls, CallsDistinct, MostCalls, DecidesWithin, CyclesOwn, CallsRecorded, OwnersDiffer;
    LateCallsFit(ceiling, s.calls, incident, tails);
  }

  lemma LateCallsFit(ceiling: int, calls: seq<ExecCall>, incident: string, tails: set<string>)
    requires ceiling >= LIST_LIMIT && CallsDistinct(calls)
    requires LateCalls(calls, incident) <= LateIds(tails, ceiling - LIST_LIMIT)
    ensures Calls(calls, incident) <= MostCalls(ceiling, |tails|)
  {
    hide LateIds, LateCalls, Calls, CallsDistinct, MostCalls;
    LateCallsCount(calls, incident);
    LateIdsFit(ceiling, tails);
    SubsetSize(LateCalls(calls, incident), LateIds(tails, ceiling - LIST_LIMIT));
  }

  lemma {:induction false} SubsetSize<T>(a: set<T>, b: set<T>)
    requires a <= b
    ensures |a| <= |b|
  {
    assert b == a + (b - a);
  }

  /** While an unchanged rule set gives the incident one decision, every ceiling bounds its calls. */
  lemma {:induction false} OneDecisionIsBounded(configured: int, table: seq<Mitigation>, steps: seq<Step>, incident: string,
          tail: string)
    requires DecidesWithin(Ceiling(configured), Start(table), steps, incident, {tail})
    ensures Calls(Run(Ceiling(configured), Start(table), steps).calls, incident) <= Ceiling(configured)
  {
    hide Run, Calls, DecidesWithin;
    if Ceiling(configured) <= LIST_LIMIT {
      ExecutionsAreBounded(configured, table, steps, incident);
    } else {
      CallsAreBoundedByDecisions(Ceiling(configured), table, steps, incident, {tail});
    }
  }

  // ---- The decisions of a rule set ----------------------------------------------------------

  /** What the rules and the fallback may order: pairs of an action and a target. */
  function Targets(rules: seq<ResponsePolicy.Rule>, fallback: Option<ResponsePolicy.Rule>): set<(string, string)> {
    (set r | r in rules :: (r.action, r.target))
    + if fallback.Some? then {(fallback.value.action, fallback.value.target)} else {}
  }

  /** What follows "dec-". */
  function TailOf(id: string): string { if |id| < 4 then "" else id[4..] }

  function Tails(cfg: ResponsePolicy.Config, incident: string, targets: set<(string, string)>): set<string> {
    set p | p in targets :: TailOf(cfg.idOf(incident, cfg.name, cfg.version, p.0, p.1))
  }

  lemma {:induction false} TailsSize(cfg: ResponsePolicy.Config, incident: string, targets: set<(string, string)>)
    ensures |Tails(cfg, incident, targets)| <= |targets|
    decreases targets
  {
    hide TailOf;
    if targets == {} {
      assert Tails(cfg, incident, targets) == {};
    } else {
      var p :| p in targets;
      TailsSize(cfg, incident, targets - {p});
      assert Tails(cfg, incident, targets) == Tails(cfg, incident, targets - {p})
                                              + {TailOf(cfg.idOf(incident, cfg.name, cfg.version, p.0, p.1))};
    }
  }

  /** Every decision the policy makes for an incident is one of those of its targets. */
  lemma EvaluationsAreTails(cfg: ResponsePolicy.Config, inc: ResponsePolicy.Incident, rules: seq<ResponsePolicy.Rule>,
          fallback: Option<ResponsePolicy.Rule>)
    ensures var d := ResponsePolicy.AfterEvaluate(cfg, inc, rules, fallback);
      d.Ok? ==> TailOf(d.value.id) in Tails(cfg, inc.id, Targets(rules, fallback))
  {
    hide TailOf, ResponsePolicy.Better, ResponsePolicy.IsCandidate;
    var cs := ResponsePolicy.Candidates(inc, rules);
    ResponsePolicy.CandidatesAre(inc, rules);
    if cs != [] { ResponsePolicy.BestIsUnbeaten(inc, cs); }
    var r := ResponsePolicy.Selected(inc, rules, fallback);
    assert r.Some? ==> r.value in rules || r == fallback;
    hide ResponsePolicy.Selected;
    assert r.Some? ==> (r.value.action, r.value.target) in Targets(rules, fallback);
  }

  /** An unchanged rule set whose rules order `n` different actions on targets gives an incident no more calls than `n`
      decisions allow. */
  lemma {:induction false} CallsAreBoundedByRules(ceiling: int, table: seq<Mitigation>, steps: seq<Step>, incident: string,
          cfg: ResponsePolicy.Config, rules: seq<ResponsePolicy.Rule>, fallback: Option<ResponsePolicy.Rule>)
    requires ceiling >= LIST_LIMIT
    requires DecidesWithin(ceiling, Start(table), steps, incident, Tails(cfg, incident, Targets(rules, fallback)))
    ensures Calls(Run(ceiling, Start(table), steps).calls, incident) <= MostCalls(ceiling, |Targets(rules, fallback)|)
  {
    hide Run, Calls, DecidesWithin, MostCalls, Targets, Tails;
    var targets := Targets(rules, fallback);
    CallsAreBoundedByDecisions(ceiling, table, steps, incident, Tails(cfg, incident, targets));
    TailsSize(cfg, incident, targets);
    MostCallsMonotone(ceiling, |Tails(cfg, incident, targets)|, |targets|);
  }

  lemma MostCallsMonotone(ceiling: int, n: nat, m: nat)
    requires ceiling >= LIST_LIMIT && n <= m
    ensures MostCalls(ceiling, n) <= MostCalls(ceiling, m)
  {
    assert (m - n) * (ceiling - LIST_LIMIT) >= 0;
  }

  // ---- The bound is reached ----------------------------------------------------------------

  /** A run of the process whose attempts carry the given decisions. */
  predicate Script(ceiling: int, s: Sys, steps: seq<Step>, incident: string, tails: set<string>, s': Sys) {
    Run(ceiling, s, steps) == s' && DecidesWithin(ceiling, s, steps, incident, tails) && NoRestart(steps)
  }

  lemma {:induction false} Join(ceiling: int, s: Sys, a: seq<Step>, incident: string, tails: set<string>, s': Sys,
          b: seq<Step>, s'': Sys)
    requires Script(ceiling, s, a, incident, tails, s') && Script(ceiling, s', b, incident, tails, s'')
    ensures Script(ceiling, s, a + b, incident, tails, s'')
  {
    hide Next, Decides;
    if b == [] {
      assert a + b == a;
    } else {
      var front := b[..|b| - 1];
      Join(ceiling, s, a, incident, tails, s', front, Run(ceiling, s', front));
      assert (a + b)[..|a + b| - 1] == a + front;
    }
  }

  lemma One(ceiling: int, s: Sys, step: Step, incident: string, tails: set<string>)
    requires Decides(s, step, incident, tails) && !step.Restart?
    ensures Script(ceiling, s, [step], incident, tails, Next(ceiling, s, step))
  {
    hide Next, Decides;
    assert [step][..|[step]| - 1] == [];
    assert Run(ceiling, s, []) == s && DecidesWithin(ceiling, s, [], incident, tails);
  }

  /** The decision and the attempt of a row. */
  type Origin = (string, int)

  function TableOf(incident: string, origin: seq<Origin>): seq<Mitigation> {
    seq(|origin|, i requires 0 <= i < |origin| => RecordFor(incident, origin[i].0, origin[i].1).(status := Executed))
  }

  predicate OriginsOk(origin: seq<Origin>) {
    forall i :: 0 <= i < |origin| ==> IsDigest(origin[i].0) && origin[i].1 >= 1
  }

  /** No row of the decision from this attempt on. */
  predicate Unused(origin: seq<Origin>, t: string, attempt: int) {
    forall i :: 0 <= i < |origin| ==> origin[i].0 != t || origin[i].1 < attempt
  }

  /** Between cycles: the table holds the rows of `origin`, all EXECUTED; nothing is cached or in flight. */
  predicate Between(s: Sys, incident: string, origin: seq<Origin>) {
    && incident !in s.gate.history && incident !in s.gate.inFlight && s.cycles == map[]
    && s.table == TableOf(incident, origin) && OriginsOk(origin)
  }

  lemma {:induction false} IdsDiffer(incident: string, t: string, a: int, u: string, b: int)
    requires |t| == |u| && a >= 1 && b >= 1 && (t != u || a != b)
    ensures RecordFor(incident, t, a).action != RecordFor(incident, u, b).action
    ensures RecordFor(incident, t, a).decision != RecordFor(incident, u, b).decision
  {
    hide RecordFor;
    if t != u {
      DigestsKeepApart(incident, t, a, u, b);
    } else if a < b {
      AttemptsHaveOwnIds(incident, t, a, b);
    } else {
      AttemptsHaveOwnIds(incident, t, b, a);
    }
  }

  lemma DigestsKeepApart(incident: string, t: string, a: int, u: string, b: int)
    requires |t| == |u| && t != u
    ensures RecordFor(incident, t, a).action != RecordFor(incident, u, b).action
    ensures RecordFor(incident, t, a).decision != RecordFor(incident, u, b).decision
  {
    hide Suffix;
    MiddleOf("act-", t, Suffix(a));
    MiddleOf("act-", u, Suffix(b));
    MiddleOf("dec-", t, Suffix(a));
    MiddleOf("dec-", u, Suffix(b));
  }

  lemma MiddleOf(p: string, t: string, q: string)
    ensures |p + t + q| >= |p| + |t| && (p + t + q)[|p|..|p| + |t|] == t
  {
  }

  lemma UnusedIsFree(incident: string, origin: seq<Origin>, t: string, attempt: int)
    requires OriginsOk(origin) && Unused(origin, t, attempt) && IsDigest(t) && attempt >= 1
    ensures var m := RecordFor(incident, t, attempt); !Taken(TableOf(incident, origin), m.action, m.decision)
  {
    hide RecordFor;
    forall i | 0 <= i < |origin|
      ensures RecordFor(incident, origin[i].0, origin[i].1).action != RecordFor(incident, t, attempt).action
      ensures RecordFor(incident, origin[i].0, origin[i].1).decision != RecordFor(incident, t, attempt).decision
    {
      IdsDiffer(incident, origin[i].0, origin[i].1, t, attempt);
    }
  }

  /** The cycle of the incident, under the newest flight, is in phase `p`. */
  function Led(s: Sys, incident: string, p: Phase): Sys {
    var f := |s.gate.flights|;
    s.(gate := Gate(s.gate.history, s.gate.inFlight[incident := f], s.gate.flights + [Flight(incident, 0, None)]),
       cycles := map[f := p])
  }

  /** The state after one more attempt that ends in a call and an EXECUTED row. */
  function WithCall(s: Sys, incident: string, origin: seq<Origin>, t: string, attempt: int): Sys {
    var m := RecordFor(incident, t, attempt);
    s.(table := TableOf(incident, origin + [(t, attempt)]),
       calls := s.calls + [ExecCall(m.action, m.decision, incident, "dec-" + t)])
  }

  /** Execution and verification of an attempt either end in a retry or, pending, leave the cycle without a terminal
      result. */
  function Attempted(t: string, retry: bool): Round {
    Round(false, None, t, false, retry, Verifying)
  }

  lemma RecordStep(ceiling: int, s: Sys, incident: string, origin: seq<Origin>, t: string, attempt: int, retry: bool)
    requires Between(s, incident, origin) && Unused(origin, t, attempt) && IsDigest(t) && 1 <= attempt <= ceiling
    ensures var m := RecordFor(incident, t, attempt);
      Next(ceiling, Led(s, incident, Top(attempt)), TryRecord(|s.gate.flights|, Attempted(t, retry)))
      == Led(s.(table := s.table + [m]), incident, Recorded(attempt, m, "dec-" + t))
  {
    UnusedIsFree(incident, origin, t, attempt);
    hide RecordFor, Taken, TableOf;
    var f, p := |s.gate.flights|, Recorded(attempt, RecordFor(incident, t, attempt), "dec-" + t);
    assert map[f := Top(attempt)][f := p] == map[f := p];
  }

  lemma CallStep(ceiling: int, s: Sys, incident: string, m: Mitigation, t: string, attempt: int, retry: bool)
    ensures Next(ceiling, Led(s, incident, Recorded(attempt, m, "dec-" + t)), Execute(|s.gate.flights|, Attempted(t, retry)))
         == Led(s.(calls := s.calls + [ExecCall(m.action, m.decision, incident, "dec-" + t)]), incident,
                AfterExecution(attempt, Attempted(t, retry)))
  {
    var f, p := |s.gate.flights|, AfterExecution(attempt, Attempted(t, retry));
    assert map[f := Recorded(attempt, m, "dec-" + t)][f := p] == map[f := p];
  }

  lemma DoneStep(ceiling: int, s: Sys, incident: string, origin: seq<Origin>, t: string, attempt: int, p: Phase)
    requires s.table == TableOf(incident, origin) + [RecordFor(incident, t, attempt)]
    ensures Next(ceiling, Led(s, incident, p), OtherUpdate(|origin|, Executed))
         == Led(s.(table := TableOf(incident, origin + [(t, attempt)])), incident, p)
  {
    hide RecordFor;
    assert s.table[|origin| := s.table[|origin|].(status := Executed)] == TableOf(incident, origin + [(t, attempt)]);
  }

  lemma WithCallIsBetween(s: Sys, incident: string, origin: seq<Origin>, t: string, attempt: int)
    requires Between(s, incident, origin) && IsDigest(t) && attempt >= 1
    ensures Between(WithCall(s, incident, origin, t, attempt), incident, origin + [(t, attempt)])
    ensures Calls(WithCall(s, incident, origin, t, attempt).calls, incident) == Calls(s.calls, incident) + 1
  {
    var m := RecordFor(incident, t, attempt);
    CallsAppend(s.calls, ExecCall(m.action, m.decision, incident, "dec-" + t), incident);
    hide RecordFor, TableOf, Calls;
  }

  /** One attempt with a free id: its record, the call, the row marked EXECUTED. */
  lemma {:induction false} OneAttempt(ceiling: int, s: Sys, incident: string, origin: seq<Origin>, t: string, attempt: int,
          retry: bool, tails: set<string>) returns (steps: seq<Step>)
    requires Between(s, incident, origin) && Unused(origin, t, attempt) && IsDigest(t) && 1 <= attempt <= ceiling
    requires t in tails
    ensures Script(ceiling, Led(s, incident, Top(attempt)), steps, incident, tails,
                   Led(WithCall(s, incident, origin, t, attempt), incident, AfterExecution(attempt, Attempted(t, retry))))
  {
    var f, m, r := |s.gate.flights|, RecordFor(incident, t, attempt), Attempted(t, retry);
    var s1, s2 := s.(table := s.table + [m]), WithCall(s, incident, origin, t, attempt).(table := s.table + [m]);
    var a, b := Led(s, incident, Top(attempt)), Led(s1, incident, Recorded(attempt, m, "dec-" + t));
    var s3, p := WithCall(s, incident, origin, t, attempt), AfterExecution(attempt, r);
    var c, d := Led(s2, incident, p), Led(s3, incident, p);
    assert s2.table == TableOf(incident, origin) + [m] && s2.(table := TableOf(incident, origin + [(t, attempt)])) == s3;
    assert s2 == s1.(calls := s1.calls + [ExecCall(m.action, m.decision, incident, "dec-" + t)]);
    RecordStep(ceiling, s, incident, origin, t, attempt, retry);
    CallStep(ceiling, s1, incident, m, t, attempt, retry);
    hide Between, TableOf, WithCall, RecordFor, Unused, IsDigest, Led, Next, Script, AfterExecution;
    DoneStep(ceiling, s2, incident, origin, t, attempt, p);
    One(ceiling, a, TryRecord(f, r), incident, tails);
    One(ceiling, b, Execute(f, r), incident, tails);
    One(ceiling, c, OtherUpdate(|origin|, Executed), incident, tails);
    Join(ceiling, a, [TryRecord(f, r)], incident, tails, b, [Execute(f, r)], c);
    Join(ceiling, a, [TryRecord(f, r)] + [Execute(f, r)], incident, tails, c, [OtherUpdate(|origin|, Executed)], d);
    steps := [TryRecord(f, r)] + [Execute(f, r)] + [OtherUpdate(|origin|, Executed)];
  }

  lemma UnusedGrows(origin: seq<Origin>, t: string, attempt: int)
    requires Unused(origin, t, attempt)
    ensures Unused(origin + [(t, attempt)], t, attempt + 1)
  {
  }

  const PENDING := Stopped(Outcome(Some(Verifying), None))

  /** Attempts of one decision up to the ceiling, in one cycle. */
  lemma {:induction false} Attempts(ceiling: int, s: Sys, incident: string, origin: seq<Origin>, t: string, attempt: int,
          tails: set<string>) returns (steps: seq<Step>, s': Sys, origin': seq<Origin>)
    requires Between(s, incident, origin) && Unused(origin, t, attempt) && IsDigest(t) && 1 <= attempt <= ceiling
    requires t in tails
    ensures Between(s', incident, origin') && |origin'| == |origin| + ceiling + 1 - attempt
    ensures Script(ceiling, Led(s, incident, Top(attempt)), steps, incident, tails, Led(s', incident, PENDING))
    ensures Calls(s'.calls, incident) == Calls(s.calls, incident) + ceiling + 1 - attempt
    ensures forall i :: 0 <= i < |origin'| ==> origin'[i].0 == t || (i < |origin| && origin'[i] == origin[i])
    decreases ceiling - attempt
  {
    var more := attempt < ceiling;
    steps := OneAttempt(ceiling, s, incident, origin, t, attempt, more, tails);
    WithCallIsBetween(s, incident, origin, t, attempt);
    UnusedGrows(origin, t, attempt);
    s', origin' := WithCall(s, incident, origin, t, attempt), origin + [(t, attempt)];
    hide Between, Unused, Script, WithCall, Led, Calls, IsDigest;
    if more {
      var rest, s'', origin'' := Attempts(ceiling, s', incident, origin', t, attempt + 1, tails);
      Join(ceiling, Led(s, incident, Top(attempt)), steps, incident, tails, Led(s', incident, Top(attempt + 1)), rest,
        Led(s'', incident, PENDING));
      steps, s', origin' := steps + rest, s'', origin'';
    }
  }

  const HEALTHY := Pre(false, false, CircuitClosed, Some(true))

  lemma {:induction false} RowsAreListed(table: seq<Mitigation>, incident: string)
    requires forall i :: 0 <= i < |table| ==> table[i].incident == incident
    ensures RowsOf(table, incident) == table
  {
    if table != [] { RowsAreListed(table[..|table| - 1], incident); }
  }

  /** How many prior attempts the limited query shows. */
  function Shown(origin: seq<Origin>): nat { Min(|origin|, LIST_LIMIT) }

  lemma PreparesAfterShown(incident: string, origin: seq<Origin>)
    ensures Prepared(TableOf(incident, origin), incident, HEALTHY) == Top(Shown(origin) + 1)
  {
    hide RowsOf, Suffix;
    RowsAreListed(TableOf(incident, origin), incident);
  }

  lemma StartsAfterShown(ceiling: int, s: Sys, incident: string, origin: seq<Origin>)
    requires Between(s, incident, origin)
    ensures Next(ceiling, s, Orchestrate(incident, 0)) == Led(s, incident, Preparing)
    ensures Next(ceiling, Led(s, incident, Preparing), Prepare(|s.gate.flights|, HEALTHY)) == Led(s, incident, Top(Shown(origin) + 1))
  {
    hide Prepared, TableOf, OriginsOk, Shown;
    var f, p := |s.gate.flights|, Top(Shown(origin) + 1);
    PreparesAfterShown(incident, origin);
    assert Next(ceiling, s, Orchestrate(incident, 0)).cycles == map[f := Preparing];
    assert map[f := Preparing][f := p] == map[f := p];
  }

  lemma EndsBetween(ceiling: int, s: Sys, incident: string, origin: seq<Origin>)
    requires Between(s, incident, origin)
    ensures var s' := Next(ceiling, Led(s, incident, PENDING), Publish(|s.gate.flights|));
      Between(s', incident, origin) && s'.calls == s.calls
  {
    hide TableOf, OriginsOk;
    var s' := Next(ceiling, Led(s, incident, PENDING), Publish(|s.gate.flights|));
    assert s'.cycles == map[];
  }

  /** A cycle with a decision that has no row yet calls the executor from the first attempt not shown up to the
      ceiling. */
  lemma {:induction false} OneCycle(ceiling: int, s: Sys, incident: string, origin: seq<Origin>, t: string, tails: set<string>)
    returns (steps: seq<Step>, s': Sys, origin': seq<Origin>)
    requires ceiling > LIST_LIMIT && Between(s, incident, origin) && Unused(origin, t, 1) && IsDigest(t) && t in tails
    ensures Between(s', incident, origin') && |origin'| == |origin| + ceiling - Shown(origin)
    ensures Script(ceiling, s, steps, incident, tails, s')
    ensures Calls(s'.calls, incident) == Calls(s.calls, incident) + ceiling - Shown(origin)
    ensures forall i :: 0 <= i < |origin'| ==> origin'[i].0 == t || (i < |origin| && origin'[i] == origin[i])
  {
    var f, attempt := |s.gate.flights|, Shown(origin) + 1;
    assert Unused(origin, t, attempt);
    StartsAfterShown(ceiling, s, incident, origin);
    hide Between, Unused, Script, Led, Calls, IsDigest, Next, Shown;
    assert 1 <= attempt <= ceiling by { ShownIsShort(origin); }
    var a, b := Led(s, incident, Preparing), Led(s, incident, Top(attempt));
    var core, s1, o1 := Attempts(ceiling, s, incident, origin, t, attempt, tails);
    var g := |s1.gate.flights|;
    EndsBetween(ceiling, s1, incident, o1);
    s', origin' := Next(ceiling, Led(s1, incident, PENDING), Publish(g)), o1;
    One(ceiling, s, Orchestrate(incident, 0), incident, tails);
    One(ceiling, a, Prepare(f, HEALTHY), incident, tails);
    One(ceiling, Led(s1, incident, PENDING), Publish(g), incident, tails);
    Join(ceiling, s, [Orchestrate(incident, 0)], incident, tails, a, [Prepare(f, HEALTHY)], b);
    var up := [Orchestrate(incident, 0)] + [Prepare(f, HEALTHY)];
    Join(ceiling, s, up, incident, tails, b, core, Led(s1, incident, PENDING));
    Join(ceiling, s, up + core, incident, tails, Led(s1, incident, PENDING), [Publish(g)], s');
    steps := up + core + [Publish(g)];
  }

  lemma ShownIsShort(origin: seq<Origin>)
    ensures 0 <= Shown(origin) <= LIST_LIMIT
  {
  }

  lemma MostCallsGrows(ceiling: int, n: nat)
    ensures MostCalls(ceiling, 0) == LIST_LIMIT && MostCalls(ceiling, 1) == ceiling
    ensures n > 0 ==> MostCalls(ceiling, n) == MostCalls(ceiling, n - 1) + ceiling - LIST_LIMIT
  {
  }

  predicate DistinctDigests(ts: seq<string>) {
    && (forall i :: 0 <= i < |ts| ==> IsDigest(ts[i]))
    && forall i, j :: 0 <= i < j < |ts| ==> ts[i] != ts[j]
  }

  /** Once 100 rows are stored, each further decision is good for the attempts 101 to the ceiling. */
  lemma {:induction false} MoreCycles(ceiling: int, s: Sys, incident: string, origin: seq<Origin>, ts: seq<string>,
          tails: set<string>) returns (steps: seq<Step>, s': Sys)
    requires ceiling > LIST_LIMIT && Between(s, incident, origin) && |origin| >= LIST_LIMIT && DistinctDigests(ts)
    requires forall i :: 0 <= i < |ts| ==> ts[i] in tails && Unused(origin, ts[i], 1)
    ensures Script(ceiling, s, steps, incident, tails, s')
    ensures Calls(s'.calls, incident) == Calls(s.calls, incident) + MostCalls(ceiling, |ts|) - LIST_LIMIT
    decreases |ts|
  {
    hide Between, Script, Calls, IsDigest, Next, MostCalls;
    MostCallsGrows(ceiling, |ts|);
    if ts == [] {
      steps, s' := [], s;
      assert Script(ceiling, s, steps, incident, tails, s') by { Empty(ceiling, s, incident, tails); }
    } else {
      var first, s1, o1 := OneCycle(ceiling, s, incident, origin, ts[0], tails);
      forall i | 0 <= i < |ts[1..]| ensures ts[1..][i] in tails && Unused(o1, ts[1..][i], 1) {
        assert Unused(origin, ts[i + 1], 1) && ts[0] != ts[i + 1];
      }
      var rest, s2 := MoreCycles(ceiling, s1, incident, o1, ts[1..], tails);
      Join(ceiling, s, first, incident, tails, s1, rest, s2);
      steps, s' := first + rest, s2;
    }
  }

  lemma Empty(ceiling: int, s: Sys, incident: string, tails: set<string>)
    ensures Script(ceiling, s, [], incident, tails, s)
  {
  }

  function SetOf(ts: seq<string>): set<string> { set t | t in ts }

  lemma OthersAreUnused(ts: seq<string>, origin: seq<Origin>, tails: set<string>)
    requires ts != [] && DistinctDigests(ts) && tails == SetOf(ts)
    requires forall i :: 0 <= i < |origin| ==> origin[i].0 == ts[0]
    ensures ts[0] in tails && DistinctDigests(ts[1..]) && IsDigest(ts[0]) && Unused([], ts[0], 1)
    ensures forall i :: 0 <= i < |ts[1..]| ==> ts[1..][i] in tails && Unused(origin, ts[1..][i], 1)
  {
    hide IsDigest;
    forall i | 0 <= i < |ts[1..]| ensures ts[1..][i] in tails && Unused(origin, ts[1..][i], 1) {
      assert ts[0] != ts[i + 1];
    }
  }

  /** The bound is reached: from an empty store, by the orchestrator's own cycles alone and without a restart, distinct
      decisions get exactly that many calls. */
  lemma {:induction false} BoundIsReached(ceiling: int, incident: string, ts: seq<string>) returns (steps: seq<Step>)
    requires ceiling > LIST_LIMIT && ts != [] && DistinctDigests(ts)
    ensures DecidesWithin(ceiling, Start([]), steps, incident, SetOf(ts)) && NoRestart(steps)
    ensures Calls(Run(ceiling, Start([]), steps).calls, incident) == MostCalls(ceiling, |ts|)
  {
    var s, tails := Start([]), SetOf(ts);
    assert Between(s, incident, []);
    OthersAreUnused(ts, [], tails);
    hide Between, Script, Calls, Next, IsDigest, Run, DecidesWithin, SetOf, DistinctDigests, Unused, NoRestart, MostCalls;
    var first, s1, o1 := OneCycle(ceiling, s, incident, [], ts[0], tails);
    OthersAreUnused(ts, o1, tails);
    var rest, s2 := MoreCycles(ceiling, s1, incident, o1, ts[1..], tails);
    Join(ceiling, s, first, incident, tails, s1, rest, s2);
    steps := first + rest;
    NoCallsYet(incident);
    ScriptSays(ceiling, s, steps, incident, tails, s2);
    MostCallsGrows(ceiling, |ts|);
  }

  lemma ScriptSays(ceiling: int, s: Sys, steps: seq<Step>, incident: string, tails: set<string>, s': Sys)
    requires Script(ceiling, s, steps, incident, tails, s')
    ensures Run(ceiling, s, steps) == s' && DecidesWithin(ceiling, s, steps, incident, tails) && NoRestart(steps)
  {
  }

  lemma NoCallsYet(incident: string)
    ensures Calls(Start([]).calls, incident) == 0
  {
  }

  /** Two decisions suffice to exceed a ceiling above the query limit: the first gets a call on every attempt up to
      the ceiling, the second one on every attempt from 101 on. */
  lemma {:induction false} TwoDecisionsExceed(ceiling: int, incident: string, a: string, b: string) returns (steps: seq<Step>)
    requires ceiling > LIST_LIMIT && IsDigest(a) && IsDigest(b) && a != b
    ensures DecidesWithin(ceiling, Start([]), steps, incident, {a, b}) && NoRestart(steps)
    ensures Calls(Run(ceiling, Start([]), steps).calls, incident) == ceiling + (ceiling - LIST_LIMIT)
  {
    hide IsDigest, Calls, Run, DecidesWithin;
    assert SetOf([a, b]) == {a, b} && MostCalls(ceiling, 2) == ceiling + (ceiling - LIST_LIMIT);
    steps := BoundIsReached(ceiling, incident, [a, b]);
  }

  ghost predicate AlwaysBounded(ceiling: int, incident: string, tails: set<string>) {
    forall table, steps :: DecidesWithin(ceiling, Start(table), steps, incident, tails) ==>
      Calls(Run(ceiling, Start(table), steps).calls, incident) <= ceiling
  }

  /** The ceiling bounds the executor calls of an incident in every run exactly when it is within the query limit, or
      the rules yield at most one decision for the incident. */
  lemma {:induction false} BoundedIffWithinLimitOrOneDecision(ceiling: int, incident: string, tails: set<string>)
    requires ceiling > 0 && forall t :: t in tails ==> IsDigest(t)
    ensures AlwaysBounded(ceiling, incident, tails) <==> ceiling <= LIST_LIMIT || |tails| <= 1
  {
    hide IsDigest, Calls, Run, DecidesWithin;
    if ceiling <= LIST_LIMIT {
      forall table, steps ensures Calls(Run(ceiling, Start(table), steps).calls, incident) <= ceiling {
        ExecutionsAreBounded(ceiling, table, steps, incident);
      }
    } else if |tails| <= 1 {
      assert MostCalls(ceiling, |tails|) <= ceiling;
      forall table, steps | DecidesWithin(ceiling, Start(table), steps, incident, tails)
        ensures Calls(Run(ceiling, Start(table), steps).calls, incident) <= ceiling
      {
        CallsAreBoundedByDecisions(ceiling, table, steps, incident, tails);
      }
    } else {
      var a, b := TwoOf(tails);
      var steps := TwoDecisionsExceed(ceiling, incident, a, b);
      MoreDecisionsAllow(ceiling, Start([]), steps, incident, {a, b}, tails);
    }
  }

  lemma TwoOf(tails: set<string>) returns (a: string, b: string)
    requires |tails| > 1
    ensures a in tails && b in tails && a != b
  {
    a :| a in tails;
    assert |tails - {a}| == |tails| - 1;
    b :| b in tails - {a};
  }

  lemma {:induction false} MoreDecisionsAllow(ceiling: int, s: Sys, steps: seq<Step>, incident: string, few: set<string>,
          many: set<string>)
    requires few <= many && DecidesWithin(ceiling, s, steps, incident, few)
    ensures DecidesWithin(ceiling, s, steps, incident, many)
  {
    hide Run, Next;
    if steps != [] { MoreDecisionsAllow(ceiling, s, steps[..|steps| - 1], incident, few, many); }
  }
}
