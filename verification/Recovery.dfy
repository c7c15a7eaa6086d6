/** Startup reconciliation after a crash (edge/agent/recovery/manager.go:98-345, edge/agent/recovery/state.go,
    edge/agent/storage/sqlite.go:1963-2111, 4148-4184, edge/agent/storage/store.go:285-301). */
module Recovery {
  import opened Common

  datatype MitigationStatus = Pending | Executing | Executed | Failed | Skipped | Unknown

  /** mitigation_records by action id. */
  type Table = map<string, MitigationStatus>

  datatype Phase = NotRequired | Loading | Reconciling | Blocked | Complete | RecoveryFailed

  datatype Error = LoadFailed | InFlightFailed | ListUnknownFailed | ListPendingFailed | SkipFailed | VerificationsFailed
                 | SaveFailed

  datatype Decision = Decision(phase: Phase, requiresIntervention: bool, inFlight: nat, reconciled: nat, timedOut: nat)

  /** What the calls to the store return: the latest checkpoint's state, the rows the pending query lists, the
      verifications timed out, and which calls fail. */
  datatype Env = Env(checkpoint: Result<Option<Phase>, ()>, inFlightFails: bool, listUnknownFails: bool,
                     pending: Option<seq<string>>, skipFails: string -> bool, timedOut: Option<nat>, saveFails: bool)

  /** `trace` is every state the tracker has been in, the current one last; `saved` the state of the last
      checkpoint written. */
  datatype Sys = Sys(table: Table, trace: seq<Phase>, saved: Option<Phase>)

  const LIST_LIMIT := 100

  /** CanMitigationTransition */
  predicate CanTransition(s: MitigationStatus, next: MitigationStatus) {
    s == next
    || (s == Pending && (next == Executing || next == Skipped || next == Failed))
    || (s == Executing && (next == Executed || next == Failed || next == Unknown))
  }

  /** IsValidTransition */
  predicate ValidPhaseChange(from: Phase, to: Phase) {
    match from
    case Loading => to == NotRequired || to == Reconciling || to == Blocked || to == RecoveryFailed
    case Reconciling => to == Complete || to == Blocked || to == RecoveryFailed
    case Blocked => to == Reconciling || to == RecoveryFailed
    case NotRequired => to == Loading
    case Complete => to == Loading
    case RecoveryFailed => to == Loading
  }

  // ---- Store -----------------------------------------------------------------

  /** RecoverInFlightMitigations */
  function Unconfirmed(t: Table): Table {
    map id | id in t :: if t[id] == Executing then Unknown else t[id]
  }

  function WithStatus(t: Table, s: MitigationStatus): set<string> {
    set id | id in t && t[id] == s
  }

  /** UpdateMitigationStatus; None: refused or failed. */
  function Update(t: Table, id: string, s: MitigationStatus, fails: bool): Option<Table> {
    if fails || id !in t || !CanTransition(t[id], s) then None else Some(t[id := s])
  }

  /** What ListMitigationsByStatus(status, 100) may return. */
  predicate Lists(t: Table, s: MitigationStatus, ids: seq<string>) {
    && (forall i, j :: 0 <= i < j < |ids| ==> ids[i] != ids[j])
    && (forall i :: 0 <= i < |ids| ==> ids[i] in WithStatus(t, s))
    && |ids| == Min(LIST_LIMIT, |WithStatus(t, s)|)
  }

  /** The loop over the listed pending rows; true: an update failed and the loop stopped there. */
  function SkipAll(t: Table, ids: seq<string>, fails: string -> bool): (Table, bool)
    decreases |ids|
  {
    if ids == [] then (t, false)
    else
      var u := Update(t, ids[0], Skipped, fails(ids[0]));
      if u.None? then (t, true) else SkipAll(u.value, ids[1..], fails)
  }

  // ---- Tracker ---------------------------------------------------------------

  function Current(trace: seq<Phase>): Phase
    requires trace != []
  {
    trace[|trace| - 1]
  }

  /** Tracker.Transition: refused changes leave the tracker as it is. */
  function Move(trace: seq<Phase>, to: Phase): (r: seq<Phase>)
    requires trace != []
    ensures r != []
  {
    if ValidPhaseChange(Current(trace), to) then trace + [to] else trace
  }

  /** The direct change, or through RECOVERY_RECONCILING when it is refused. */
  function MoveVia(trace: seq<Phase>, to: Phase): (r: seq<Phase>)
    requires trace != []
    ensures r != []
  {
    if ValidPhaseChange(Current(trace), to) then Move(trace, to) else Move(Move(trace, Reconciling), to)
  }

  function Failing(trace: seq<Phase>): (r: seq<Phase>)
    requires trace != []
    ensures r != []
  {
    if Current(trace) == Loading || Current(trace) == Reconciling then Move(trace, RecoveryFailed) else trace
  }

  predicate LegalTrace(trace: seq<Phase>) {
    forall i :: 0 <= i < |trace| - 1 ==> ValidPhaseChange(trace[i], trace[i + 1])
  }

  // ---- Specification of RunRecovery ----------------------------------------------

  /** The last section: no ambiguous mitigation, `reconciled` pending ones skipped. */
  function Conclude(s: Sys, env: Env, latest: Option<Phase>, inFlight: nat, reconciled: nat): (Sys, Result<Decision,
          Error>)
    requires s.trace != []
  {
    if env.timedOut.None? then (s.(trace := Failing(s.trace)), Err(VerificationsFailed))
    else
      var clean := inFlight == 0 && reconciled == 0 && env.timedOut.value == 0
                && (latest.None? || latest.value == NotRequired || latest.value == Complete);
      var final := if clean then NotRequired else Complete;
      var now := Current(s.trace);
      var final' := if now == Reconciling then Complete else final;
      var trace := if now == Loading then MoveVia(s.trace, final) else if now == Reconciling then Move(s.trace, Complete) else s.trace;
      if env.saveFails then (s.(trace := Failing(trace)), Err(SaveFailed))
      else (s.(trace := trace, saved := Some(final')),
            Ok(Decision(final', false, inFlight, reconciled, env.timedOut.value)))
  }

  function AfterRecovery(s: Sys, env: Env): (Sys, Result<Decision, Error>)
    requires s.trace != []
  {
    var failed := s.(trace := Failing(s.trace));
    if env.checkpoint.Err? then (failed, Err(LoadFailed))
    else if env.inFlightFails then (failed, Err(InFlightFailed))
    else
      var t := Unconfirmed(s.table);
      var inFlight := |WithStatus(s.table, Executing)|;
      if env.listUnknownFails then (failed.(table := t), Err(ListUnknownFailed))
      else if WithStatus(t, Unknown) != {} then
        (Sys(t, MoveVia(s.trace, Blocked), if env.saveFails then s.saved else Some(Blocked)),
         Ok(Decision(Blocked, true, inFlight, 0, 0)))
      else if env.pending.None? then (failed.(table := t), Err(ListPendingFailed))
      else
        var ids := env.pending.value;
        var trace := if ids == [] then s.trace else Move(s.trace, Reconciling);
        var (t', stopped) := SkipAll(t, ids, env.skipFails);
        if stopped then (Sys(t', Failing(trace), s.saved), Err(SkipFailed))
        else Conclude(Sys(t', trace, s.saved), env, env.checkpoint.value, inFlight, |ids|)
  }

  /** The pending query sees the table as the in-flight step left it. */
  predicate EnvOk(s: Sys, env: Env) {
    env.pending.Some? ==> Lists(Unconfirmed(s.table), Pending, env.pending.value)
  }

  // ---- Fail-closed reconciliation -------------------------------------------------

  /** Only EXECUTING to UNKNOWN and PENDING to SKIPPED. */
  predicate OnlyCloses(t: Table, t': Table) {
    t'.Keys == t.Keys && forall id :: id in t ==>
      t'[id] == t[id] || (t[id] == Executing && t'[id] == Unknown) || (t[id] == Pending && t'[id] == Skipped)
  }

  lemma {:induction false} SkipAllSkips(t: Table, ids: seq<string>, fails: string -> bool)
    requires forall i :: 0 <= i < |ids| ==> ids[i] in t && t[ids[i]] == Pending
    requires forall i, j :: 0 <= i < j < |ids| ==> ids[i] != ids[j]
    ensures var (t', stopped) := SkipAll(t, ids, fails);
      && t'.Keys == t.Keys
      && (forall id :: id in t ==> t'[id] == t[id] || (t[id] == Pending && t'[id] == Skipped && id in ids))
      && (!stopped ==> forall id :: id in t ==> t'[id] == if id in ids then Skipped else t[id])
      && (stopped <==> exists i :: 0 <= i < |ids| && fails(ids[i]))
    decreases |ids|
  {
    if ids != [] {
      var u := Update(t, ids[0], Skipped, fails(ids[0]));
      assert fails(ids[0]) ==> exists i :: 0 <= i < |ids| && fails(ids[i]);
      if u.Some? {
        SkipAllSkips(u.value, ids[1..], fails);
        assert forall i :: 1 <= i < |ids| ==> ids[i] == ids[1..][i - 1];
        assert forall i :: 0 <= i < |ids[1..]| ==> ids[1..][i] == ids[i + 1];
      }
    }
  }

  /** Whatever fails, a recovery changes mitigations only by EXECUTING to UNKNOWN and PENDING to SKIPPED; it
      never produces EXECUTING or EXECUTED. */
  lemma {:induction false} RecoveryOnlyCloses(s: Sys, env: Env)
    requires s.trace != [] && EnvOk(s, env)
    ensures OnlyCloses(s.table, AfterRecovery(s, env).0.table)
  {
    hide Conclude;
    var t := Unconfirmed(s.table);
    if env.pending.Some? && WithStatus(t, Unknown) == {} {
      SkipAllSkips(t, env.pending.value, env.skipFails);
      var trace := if env.pending.value == [] then s.trace else Move(s.trace, Reconciling);
      if env.checkpoint.Ok? {
        ConcludeKeepsTable(Sys(SkipAll(t, env.pending.value, env.skipFails).0, trace, s.saved), env, env.checkpoint.value,
          |WithStatus(s.table, Executing)|, |env.pending.value|);
      }
    }
  }

  lemma ConcludeKeepsTable(s: Sys, env: Env, latest: Option<Phase>, inFlight: nat, reconciled: nat)
    requires s.trace != []
    ensures Conclude(s, env, latest, inFlight, reconciled).0.table == s.table
  {
  }

  predicate Ambiguous(t: Table) {
    exists id :: id in t && (t[id] == Executing || t[id] == Unknown)
  }

  lemma AmbiguousIffUnknownAfter(t: Table)
    ensures WithStatus(Unconfirmed(t), Unknown) != {} <==> Ambiguous(t)
    ensures WithStatus(Unconfirmed(t), Executing) == {}
    ensures WithStatus(Unconfirmed(t), Pending) == WithStatus(t, Pending)
  {
    if id :| id in t && (t[id] == Executing || t[id] == Unknown) {
      assert id in WithStatus(Unconfirmed(t), Unknown);
    }
  }

  /** A recovery that returns a decision requires intervention exactly when some mitigation was EXECUTING or
      UNKNOWN before; then nothing pending was touched. */
  lemma {:induction false} BlocksIffAmbiguous(s: Sys, env: Env)
    requires s.trace != [] && EnvOk(s, env) && AfterRecovery(s, env).1.Ok?
    ensures var (s', d) := AfterRecovery(s, env);
      && (d.value.requiresIntervention <==> Ambiguous(s.table))
      && (d.value.requiresIntervention <==> d.value.phase == Blocked)
      && (d.value.requiresIntervention ==> Ambiguous(s'.table) && WithStatus(s'.table, Pending) == WithStatus(s.table, Pending))
  {
    AmbiguousIffUnknownAfter(s.table);
    var t := Unconfirmed(s.table);
    if WithStatus(t, Unknown) != {} {
      var id :| id in WithStatus(t, Unknown);
      assert t[id] == Unknown;
    }
  }

  lemma {:induction false} DistinctCovers(ids: seq<string>, all: set<string>)
    requires (forall i, j :: 0 <= i < j < |ids| ==> ids[i] != ids[j]) && forall i :: 0 <= i < |ids| ==> ids[i] in all
    ensures |ids| <= |all|
    ensures |ids| == |all| <==> forall id :: id in all ==> id in ids
  {
    if ids == [] {
      if all != {} { var id :| id in all; }
    } else {
      var last := ids[|ids| - 1];
      DistinctCovers(ids[..|ids| - 1], all - {last});
      assert forall id :: id in ids <==> id in ids[..|ids| - 1] || id == last;
    }
  }

  /** A recovery that does not block leaves no pending mitigation exactly when the pending query could list
      them all. */
  lemma {:induction false} AllPendingSkippedIff(s: Sys, env: Env)
    requires s.trace != [] && EnvOk(s, env) && AfterRecovery(s, env).1.Ok? && !AfterRecovery(s, env).1.value.requiresIntervention
    ensures WithStatus(AfterRecovery(s, env).0.table, Pending) == {} <==> |WithStatus(s.table, Pending)| <= LIST_LIMIT
  {
    AmbiguousIffUnknownAfter(s.table);
    BlocksIffAmbiguous(s, env);
    var t, ids := Unconfirmed(s.table), env.pending.value;
    SkipAllSkips(t, ids, env.skipFails);
    DistinctCovers(ids, WithStatus(t, Pending));
    var t' := AfterRecovery(s, env).0.table;
    assert t' == SkipAll(t, ids, env.skipFails).0;
    if id :| id in WithStatus(t, Pending) && id !in ids { assert id in WithStatus(t', Pending); }
  }

  // ---- Every later restart blocks too ---------------------------------------------

  /** Anything the agent does to the table between restarts. */
  datatype Event = Recorded(id: string, status: MitigationStatus) | Updated(id: string, status: MitigationStatus, fails: bool)
                 | Restarted(env: Env)

  function Step(t: Table, e: Event): Table {
    match e
    case Recorded(id, status) => if id in t then t else t[id := status]
    case Updated(id, status, fails) => var u := Update(t, id, status, fails); if u.None? then t else u.value
    case Restarted(env) => AfterRecovery(Sys(t, [Loading], None), env).0.table
  }

  function After(t: Table, es: seq<Event>): Table {
    if es == [] then t else Step(After(t, es[..|es| - 1]), es[|es| - 1])
  }

  predicate EventsOk(t: Table, es: seq<Event>) {
    forall i :: 0 <= i < |es| && es[i].Restarted? ==> EnvOk(Sys(After(t, es[..i]), [Loading], None), es[i].env)
  }

  /** UNKNOWN is never left, by any update, record or restart. */
  lemma {:induction false} UnknownStays(t: Table, es: seq<Event>, id: string)
    requires id in t && t[id] == Unknown && EventsOk(t, es)
    ensures id in After(t, es) && After(t, es)[id] == Unknown
  {
    if es != [] {
      var front, e := es[..|es| - 1], es[|es| - 1];
      assert EventsOk(t, front) by { forall i | 0 <= i < |front| ensures front[..i] == es[..i] {} }
      UnknownStays(t, front, id);
      if e.Restarted? { RecoveryOnlyCloses(Sys(After(t, front), [Loading], None), e.env); }
    }
  }

  /** Once a recovery requires intervention, so does every later one that returns a decision, whatever happens
      in between. */
  lemma {:induction false} BlockedStaysBlocked(s: Sys, env: Env, es: seq<Event>, later: Env)
    requires s.trace != [] && EnvOk(s, env) && AfterRecovery(s, env).1.Ok? && AfterRecovery(s, env).1.value.requiresIntervention
    requires EventsOk(AfterRecovery(s, env).0.table, es)
    requires EnvOk(Sys(After(AfterRecovery(s, env).0.table, es), [Loading], None), later)
    ensures var r := AfterRecovery(Sys(After(AfterRecovery(s, env).0.table, es), [Loading], None), later).1;
      r.Ok? ==> r.value.requiresIntervention && r.value.phase == Blocked
  {
    BlocksIffAmbiguous(s, env);
    AmbiguousIffUnknownAfter(s.table);
    var t := AfterRecovery(s, env).0.table;
    var id :| id in WithStatus(Unconfirmed(s.table), Unknown);
    assert t == Unconfirmed(s.table);
    UnknownStays(t, es, id);
    var s' := Sys(After(t, es), [Loading], None);
    hide AfterRecovery, After;
    assert Ambiguous(s'.table);
    if AfterRecovery(s', later).1.Ok? { BlocksIffAmbiguous(s', later); }
  }

  // ---- The tracker ------------------------------------------------------------------

  lemma MoveIsLegal(trace: seq<Phase>, to: Phase)
    requires trace != [] && LegalTrace(trace)
    ensures LegalTrace(Move(trace, to))
  {
  }

  lemma FailingIsLegal(trace: seq<Phase>)
    requires trace != [] && LegalTrace(trace)
    ensures LegalTrace(Failing(trace))
  {
    MoveIsLegal(trace, RecoveryFailed);
  }

  lemma MoveViaIsLegal(trace: seq<Phase>, to: Phase)
    requires trace != [] && LegalTrace(trace)
    ensures LegalTrace(MoveVia(trace, to))
  {
    hide LegalTrace;
    MoveIsLegal(trace, to);
    MoveIsLegal(trace, Reconciling);
    MoveIsLegal(Move(trace, Reconciling), to);
  }

  lemma ConcludeIsLegal(s: Sys, env: Env, latest: Option<Phase>, inFlight: nat, reconciled: nat)
    requires s.trace != [] && LegalTrace(s.trace)
    ensures LegalTrace(Conclude(s, env, latest, inFlight, reconciled).0.trace)
  {
    hide LegalTrace, Move, MoveVia, Failing;
    FailingIsLegal(s.trace);
    MoveIsLegal(s.trace, Complete);
    FailingIsLegal(Move(s.trace, Complete));
    MoveViaIsLegal(s.trace, Complete);
    FailingIsLegal(MoveVia(s.trace, Complete));
    MoveViaIsLegal(s.trace, NotRequired);
    FailingIsLegal(MoveVia(s.trace, NotRequired));
  }

  /** The tracker only ever makes legal transitions. */
  lemma {:induction false} TraceIsLegal(s: Sys, env: Env)
    requires s.trace != [] && LegalTrace(s.trace)
    ensures LegalTrace(AfterRecovery(s, env).0.trace)
  {
    hide LegalTrace, Move, MoveVia, Failing, Conclude, SkipAll;
    FailingIsLegal(s.trace);
    MoveViaIsLegal(s.trace, Blocked);
    if env.checkpoint.Ok? && env.pending.Some? {
      MoveIsLegal(s.trace, Reconciling);
      var trace := if env.pending.value == [] then s.trace else Move(s.trace, Reconciling);
      FailingIsLegal(trace);
      ConcludeIsLegal(Sys(SkipAll(Unconfirmed(s.table), env.pending.value, env.skipFails).0, trace, s.saved), env,
        env.checkpoint.value, |WithStatus(s.table, Executing)|, |env.pending.value|);
    }
  }

  /** Nothing to reconcile: no pending mitigation, no verification that timed out, and no checkpoint of an
      unfinished recovery. */
  predicate Clean(env: Env) {
    && env.pending == Some([]) && env.timedOut == Some(0) && env.checkpoint.Ok?
    && (env.checkpoint.value.None? || env.checkpoint.value.value == NotRequired || env.checkpoint.value.value == Complete)
  }

  /** The trackers that end in the state a recovery returns, from the state before it. */
  predicate TracksFrom(p: Phase, t: Table, env: Env) {
    || p == Loading || p == Reconciling
    || (p == Blocked && (Ambiguous(t) || env.pending != Some([])))
    || (!Ambiguous(t) && p == if Clean(env) then NotRequired else Complete)
  }

  /** A tracker in RECOVERY_LOADING (a fresh one) or RECOVERY_RECONCILING ends in the returned state; a used one
      does so only from RECOVERY_BLOCKED when there is something to block on or to skip, or if it was in the
      returned state already. */
  lemma {:induction false} TrackerEndsInReturnedStateIff(s: Sys, env: Env)
    requires s.trace != [] && AfterRecovery(s, env).1.Ok?
    ensures Current(AfterRecovery(s, env).0.trace) == AfterRecovery(s, env).1.value.phase
       <==> TracksFrom(Current(s.trace), s.table, env)
  {
    AmbiguousIffUnknownAfter(s.table);
    NoneInFlightUnlessAmbiguous(s.table);
    hide SkipAll, Unconfirmed, WithStatus, Ambiguous;
  }

  lemma NoneInFlightUnlessAmbiguous(t: Table)
    ensures !Ambiguous(t) ==> |WithStatus(t, Executing)| == 0
  {
    if !Ambiguous(t) { assert WithStatus(t, Executing) == {}; }
  }

  /** All calls succeed, `ids` are pending, nothing timed out and there is no checkpoint. */
  function Calm(ids: seq<string>): Env {
    Env(Ok(None), false, false, Some(ids), _ => false, Some(0), false)
  }

  /** A tracker still blocked from an earlier recovery stays blocked although this one, with nothing left to do,
      returns RECOVERY_NOT_REQUIRED. */
  lemma UsedTrackerDisagrees()
    ensures var (s', r) := AfterRecovery(Sys(map[], [Loading, Blocked], None), Calm([]));
      EnvOk(Sys(map[], [Loading, Blocked], None), Calm([])) &&
      r == Ok(Decision(NotRequired, false, 0, 0, 0)) && Current(s'.trace) == Blocked
  {
    assert Unconfirmed(map[]) == map[];
    assert WithStatus(map[], Executing) == {} && WithStatus(map[], Unknown) == {} && WithStatus(map[], Pending) == {};
  }

  /** Everything works up to the final checkpoint, which is not saved. */
  predicate OnlySaveFails(t: Table, env: Env) {
    && env.checkpoint.Ok? && !env.inFlightFails && !env.listUnknownFails && !Ambiguous(t)
    && env.pending.Some? && !SomeSkipFails(env)
    && env.timedOut.Some? && env.saveFails
  }

  predicate SomeSkipFails(env: Env)
    requires env.pending.Some?
  {
    exists i :: 0 <= i < |env.pending.value| && env.skipFails(env.pending.value[i])
  }

  lemma SkipStopsIff(t: Table, env: Env)
    requires env.pending.Some? && EnvOk(Sys(t, [Loading], None), env)
    ensures SkipAll(Unconfirmed(t), env.pending.value, env.skipFails).1 <==> SomeSkipFails(env)
  {
    SkipAllSkips(Unconfirmed(t), env.pending.value, env.skipFails);
  }

  /** When recovery returns an error, a fresh tracker misses RECOVERY_FAILED exactly when only the save of the final
      checkpoint fails: by then the tracker already reports completion. */
  lemma {:induction false} FreshTrackerFailsIff(t: Table, saved: Option<Phase>, env: Env)
    requires EnvOk(Sys(t, [Loading], saved), env) && AfterRecovery(Sys(t, [Loading], saved), env).1.Err?
    ensures var (s', r) := AfterRecovery(Sys(t, [Loading], saved), env);
      && (Current(s'.trace) == RecoveryFailed <==> !OnlySaveFails(t, env))
      && (OnlySaveFails(t, env) ==>
           r.error == SaveFailed && Current(s'.trace) == if Clean(env) then NotRequired else Complete)
  {
    AmbiguousIffUnknownAfter(t);
    NoneInFlightUnlessAmbiguous(t);
    if env.pending.Some? { SkipStopsIff(t, env); }
    hide SkipAll, Unconfirmed, WithStatus, Ambiguous, EnvOk, SomeSkipFails;
  }

  /** An empty store whose final checkpoint is not saved: an error, and a tracker that reports
      RECOVERY_NOT_REQUIRED. */
  lemma FailedSaveLooksComplete()
    ensures var (s', r) := AfterRecovery(Sys(map[], [Loading], None), Calm([]).(saveFails := true));
      r == Err(SaveFailed) && Current(s'.trace) == NotRequired
  {
    assert Unconfirmed(map[]) == map[];
    assert WithStatus(map[], Executing) == {} && WithStatus(map[], Unknown) == {};
  }

  // ---- What a recovery decides ---------------------------------------------------------

  /** The changes of a mitigation's status: PENDING starts, or is closed unstarted; EXECUTING ends, or becomes unknown;
      every other status is final. */
  const CHANGES: set<(MitigationStatus, MitigationStatus)> :=
    {(Pending, Executing), (Pending, Skipped), (Pending, Failed), (Executing, Executed), (Executing, Failed), (Executing, Unknown)}

  lemma UpdateDecides(t: Table, id: string, to: MitigationStatus, fails: bool)
    ensures Update(t, id, to, fails).Some? <==> !fails && id in t && (t[id] == to || (t[id], to) in CHANGES)
    ensures Update(t, id, to, fails).Some? ==> Update(t, id, to, fails).value == t[id := to]
  {
  }

  /** The moves of the tracker. */
  const MOVES: set<(Phase, Phase)> :=
    {(Loading, NotRequired), (Loading, Reconciling), (Loading, Blocked), (Loading, RecoveryFailed), (Reconciling, Complete),
     (Reconciling, Blocked), (Reconciling, RecoveryFailed), (Blocked, Reconciling), (Blocked, RecoveryFailed),
     (NotRequired, Loading), (Complete, Loading), (RecoveryFailed, Loading)}

  lemma MovesAre(from: Phase, to: Phase)
    ensures ValidPhaseChange(from, to) <==> (from, to) in MOVES
  {
  }

  /** The first failing call, in the order they are made, is the error; the save after a block is not one of them. */
  predicate FailsWith(t: Table, env: Env, e: Error) {
    match e
    case LoadFailed => env.checkpoint.Err?
    case InFlightFailed => env.checkpoint.Ok? && env.inFlightFails
    case ListUnknownFailed => env.checkpoint.Ok? && !env.inFlightFails && env.listUnknownFails
    case ListPendingFailed => Reconciles(t, env) && env.pending.None?
    case SkipFailed => Reconciles(t, env) && env.pending.Some? && SomeSkipFails(env)
    case VerificationsFailed => Reconciles(t, env) && env.pending.Some? && !SomeSkipFails(env) && env.timedOut.None?
    case SaveFailed =>
      Reconciles(t, env) && env.pending.Some? && !SomeSkipFails(env) && env.timedOut.Some? && env.saveFails
  }

  /** The first three calls work and nothing is ambiguous. */
  predicate Reconciles(t: Table, env: Env) {
    env.checkpoint.Ok? && !env.inFlightFails && !env.listUnknownFails && !Ambiguous(t)
  }

  lemma {:induction false} ErrorsDecide(s: Sys, env: Env, e: Error)
    requires s.trace != [] && EnvOk(s, env)
    ensures AfterRecovery(s, env).1 == Err(e) <==> FailsWith(s.table, env, e)
    ensures env.checkpoint.Err? || env.inFlightFails ==> AfterRecovery(s, env).0.table == s.table
  {
    AmbiguousIffUnknownAfter(s.table);
    if env.pending.Some? { SkipStopsIff(s.table, env); }
    hide SkipAll, Unconfirmed, WithStatus, Ambiguous, EnvOk, SomeSkipFails, Move, MoveVia, Failing;
  }

  /** A recovery that returns a decision says how many mitigations were EXECUTING, how many pending ones it skipped and
      how many verifications it timed out; it blocks on anything ambiguous, and otherwise was not required exactly when
      there was nothing to reconcile and the tracker was not reconciling. Every row EXECUTING is UNKNOWN after it, and
      unless it blocks every pending row listed is SKIPPED; no other row changes. */
  lemma {:induction false} RecoveryDecides(s: Sys, env: Env)
    requires s.trace != [] && EnvOk(s, env) && AfterRecovery(s, env).1.Ok?
    ensures var (s', r) := AfterRecovery(s, env);
      var d := r.value;
      && d.inFlight == |set id | id in s.table && s.table[id] == Executing|
      && (Ambiguous(s.table) ==> d.phase == Blocked && d.reconciled == 0 && d.timedOut == 0)
      && (!Ambiguous(s.table) ==>
           && env.pending.Some? && d.reconciled == |env.pending.value| && env.timedOut == Some(d.timedOut)
           && d.phase == if Clean(env) && Current(s.trace) != Reconciling then NotRequired else Complete)
      && s'.table.Keys == s.table.Keys
      && forall id :: id in s.table ==>
           s'.table[id] == if s.table[id] == Executing then Unknown
                           else if !Ambiguous(s.table) && id in env.pending.value then Skipped else s.table[id]
  {
    AmbiguousIffUnknownAfter(s.table);
    NoneInFlightUnlessAmbiguous(s.table);
    assert WithStatus(s.table, Executing) == set id | id in s.table && s.table[id] == Executing;
    if env.pending.Some? { SkipAllSkips(Unconfirmed(s.table), env.pending.value, env.skipFails); }
    hide SkipAll, WithStatus, Ambiguous, EnvOk, MoveVia;
  }

  /** The checkpoint written last holds the state returned; a failed recovery writes none, and neither does one that
      blocks while checkpoints cannot be saved. */
  lemma {:induction false} CheckpointDecides(s: Sys, env: Env)
    requires s.trace != []
    ensures var (s', r) := AfterRecovery(s, env);
      && (r.Err? ==> s'.saved == s.saved)
      && (r.Ok? && !env.saveFails ==> s'.saved == Some(r.value.phase))
      && (r.Ok? && env.saveFails ==> s'.saved == s.saved && r.value.phase == Blocked)
  {
    hide SkipAll, Unconfirmed, WithStatus, Move, MoveVia, Failing;
  }

  // ---- A backlog beyond the query limit ------------------------------------------------

  function Name(i: nat): string { seq(i, _ => 'm') }

  function Names(n: nat): seq<string> {
    if n == 0 then [] else Names(n - 1) + [Name(n - 1)]
  }

  function Backlog(n: nat): Table {
    if n == 0 then map[] else Backlog(n - 1)[Name(n - 1) := Pending]
  }

  lemma {:induction false} NamesAre(n: nat)
    ensures |Names(n)| == n && forall i :: 0 <= i < n ==> Names(n)[i] == Name(i)
  {
    if n > 0 { NamesAre(n - 1); }
  }

  lemma NamesDiffer(i: nat, j: nat)
    requires i != j
    ensures Name(i) != Name(j)
  {
    assert |Name(i)| == i && |Name(j)| == j;
  }

  lemma {:induction false} BacklogIs(n: nat)
    ensures forall id :: id in Backlog(n) ==> Backlog(n)[id] == Pending && exists i :: 0 <= i < n && id == Name(i)
    ensures forall i :: 0 <= i < n ==> Name(i) in Backlog(n)
    ensures |WithStatus(Backlog(n), Pending)| == n
  {
    if n == 0 {
      assert WithStatus(Backlog(0), Pending) == {};
    } else {
      BacklogIs(n - 1);
      hide Name;
      if Name(n - 1) in Backlog(n - 1) {
        var i :| 0 <= i < n - 1 && Name(n - 1) == Name(i);
        NamesDiffer(i, n - 1);
      }
      assert WithStatus(Backlog(n), Pending) == WithStatus(Backlog(n - 1), Pending) + {Name(n - 1)};
    }
  }

  /** With more pending mitigations than the query lists, the recovery completes and those beyond stay pending. */
  lemma {:induction false} BacklogIsMissed(n: nat, limit: nat, i: nat)
    requires limit == LIST_LIMIT <= i < n
    ensures var s := Sys(Backlog(n), [Loading], None);
      var (s', r) := AfterRecovery(s, Calm(Names(limit)));
      && EnvOk(s, Calm(Names(limit))) && r == Ok(Decision(Complete, false, 0, limit, 0))
      && Name(i) in s'.table && s'.table[Name(i)] == Pending
  {
    hide AfterRecovery, Backlog, Names, Name;
    BacklogListed(n, limit, i);
    NamesAre(limit);
    CalmRecovery(Backlog(n), Names(limit));
  }

  lemma {:induction false} BacklogListed(n: nat, limit: nat, i: nat)
    requires limit == LIST_LIMIT <= i < n
    ensures !Ambiguous(Backlog(n)) && Lists(Backlog(n), Pending, Names(limit))
    ensures Name(i) in Backlog(n) && Backlog(n)[Name(i)] == Pending && Name(i) !in Names(limit)
  {
    BacklogIs(n);
    NamesAre(limit);
    forall j, k | 0 <= j < k < limit ensures Name(j) != Name(k) { NamesDiffer(j, k); }
    forall j | 0 <= j < limit ensures Name(j) != Name(i) { NamesDiffer(j, i); }
    hide Backlog, Names, Name;
  }

  /** A recovery of a store without ambiguous mitigations in which nothing fails. */
  lemma {:induction false} CalmRecovery(t: Table, ids: seq<string>)
    requires !Ambiguous(t) && Lists(t, Pending, ids) && ids != []
    ensures var s := Sys(t, [Loading], None);
      var (s', r) := AfterRecovery(s, Calm(ids));
      && EnvOk(s, Calm(ids)) && r == Ok(Decision(Complete, false, 0, |ids|, 0)) && s'.table.Keys == t.Keys
      && forall id :: id in t ==> s'.table[id] == if id in ids then Skipped else t[id]
  {
    AmbiguousIffUnknownAfter(t);
    NoneInFlightUnlessAmbiguous(t);
    assert Unconfirmed(t) == t;
    SkipAllSkips(t, ids, Calm(ids).skipFails);
    hide SkipAll, Unconfirmed, WithStatus, Ambiguous;
  }

  class Tracker {
    var trace: seq<Phase>

    constructor ()
      ensures trace == [Loading]
    {
      trace := [Loading];
    }

    method Transition(to: Phase) returns (ok: bool)
      requires trace != []
      modifies this
      ensures trace == Move(old(trace), to) && trace != []
      ensures ok <==> ValidPhaseChange(Current(old(trace)), to)
    {
      ok := ValidPhaseChange(trace[|trace| - 1], to);
      if ok { trace := trace + [to]; }
    }
  }

  class Manager {
    const tracker: Tracker
    var table: Table
    var saved: Option<Phase>

    constructor (tracker: Tracker, table: Table)
      ensures this.tracker == tracker && this.table == table && saved == None
    {
      this.tracker, this.table, saved := tracker, table, None;
    }

    function View(): Sys
      reads this, tracker
    {
      Sys(table, tracker.trace, saved)
    }

    method RunRecovery(env: Env) returns (r: Result<Decision, Error>)
      requires tracker.trace != [] && EnvOk(View(), env)
      modifies this, tracker
      ensures tracker.trace != [] && (View(), r) == AfterRecovery(old(View()), env)
      ensures OnlyCloses(old(table), table)
    {
      RecoveryOnlyCloses(View(), env);
      hide Conclude, OnlyCloses, Unconfirmed, WithStatus;
      if env.checkpoint.Err? {
        FailRecovery();
        return Err(LoadFailed);
      }
      if env.inFlightFails {
        FailRecovery();
        return Err(InFlightFailed);
      }
      var inFlight := |WithStatus(table, Executing)|;
      table := Unconfirmed(table);
      if env.listUnknownFails {
        FailRecovery();
        return Err(ListUnknownFailed);
      }
      if WithStatus(table, Unknown) != {} {
        AdvanceVia(Blocked);
        if !env.saveFails { saved := Some(Blocked); }
        return Ok(Decision(Blocked, true, inFlight, 0, 0));
      }
      if env.pending.None? {
        FailRecovery();
        return Err(ListPendingFailed);
      }
      var ids := env.pending.value;
      if |ids| > 0 { var _ := tracker.Transition(Reconciling); }
      var stopped := SkipPending(ids, env.skipFails);
      if stopped {
        FailRecovery();
        return Err(SkipFailed);
      }
      r := ConcludeRecovery(env, inFlight, |ids|);
    }

    method FailRecovery()
      requires tracker.trace != []
      modifies tracker
      ensures tracker.trace != [] && tracker.trace == Failing(old(tracker.trace))
    {
      var now := tracker.trace[|tracker.trace| - 1];
      if now == Loading || now == Reconciling { var _ := tracker.Transition(RecoveryFailed); }
    }

    method AdvanceVia(to: Phase)
      requires tracker.trace != []
      modifies tracker
      ensures tracker.trace != [] && tracker.trace == MoveVia(old(tracker.trace), to)
    {
      var ok := tracker.Transition(to);
      if !ok {
        var _ := tracker.Transition(Reconciling);
        var _ := tracker.Transition(to);
      }
    }

    /** The loop that skips the listed mitigations, stopping at the first update that fails. */
    method SkipPending(ids: seq<string>, fails: string -> bool) returns (stopped: bool)
      modifies this`table
      ensures (table, stopped) == SkipAll(old(table), ids, fails)
    {
      var i := 0;
      while i < |ids|
        invariant i <= |ids|
        invariant SkipAll(old(table), ids, fails) == SkipAll(table, ids[i..], fails)
      {
        assert ids[i..][0] == ids[i] && ids[i..][1..] == ids[i + 1..];
        var u := Update(table, ids[i], Skipped, fails(ids[i]));
        if u.None? { return true; }
        table := u.value;
        i := i + 1;
      }
      return false;
    }

    method ConcludeRecovery(env: Env, inFlight: nat, reconciled: nat) returns (r: Result<Decision, Error>)
      requires tracker.trace != [] && env.checkpoint.Ok?
      modifies this, tracker
      ensures tracker.trace != [] && table == old(table)
      ensures (View(), r) == Conclude(old(View()), env, env.checkpoint.value, inFlight, reconciled)
    {
      if env.timedOut.None? {
        FailRecovery();
        return Err(VerificationsFailed);
      }
      var latest := env.checkpoint.value;
      var final := Complete;
      if inFlight == 0 && reconciled == 0 && env.timedOut.value == 0
         && (latest.None? || latest.value == NotRequired || latest.value == Complete) {
        final := NotRequired;
      }
      var now := tracker.trace[|tracker.trace| - 1];
      if now == Loading {
        AdvanceVia(final);
      } else if now == Reconciling {
        final := Complete;
        var _ := tracker.Transition(Complete);
      }
      if env.saveFails {
        FailRecovery();
        return Err(SaveFailed);
      }
      saved := Some(final);
      return Ok(Decision(final, false, inFlight, reconciled, env.timedOut.value));
    }
  }
}
