/** Activation, rollback and restart recovery of the serving model, over a two-slot model store
    (edge/agent/modelactivation/manager.go:171-657, edge/agent/modelstore/store.go:430-579). The activation
    mutex makes every call one atomic step. */
module ModelActivation {
  import opened Common

  /** Uninterpreted content; `statusActive` is Status == ACTIVE. */
  datatype Manifest = Manifest(id: string, version: string, checksum: string, statusActive: bool, body: int)

  datatype Metadata = Metadata(deployment: string, checksum: string, valid: bool)

  /** Outcomes of code outside this model: structural validation, the computed checksum (None: it failed),
      compatibility, the metadata derived from a manifest, and case folding. */
  datatype Config = Config(valid: Manifest -> bool, computed: Manifest -> Option<string>, compatible: Manifest -> bool,
                           derive: Manifest -> Metadata, fold: string -> string)

  datatype Stored = Stored(manifest: Manifest, metadata: Metadata)

  /** The active/ and previous/ directories. */
  datatype Disk = Disk(active: Option<Stored>, previous: Option<Stored>)

  datatype Snapshot = Snapshot(manifest: Manifest, metadata: Option<Metadata>)

  /** `detector` is the manifest the serving detector was built from. */
  datatype State = State(active: Option<Snapshot>, detector: Option<Manifest>, previous: Option<Snapshot>, disk: Disk)

  datatype Error = NoCandidate | CandidateMismatch | ActivationFailed | Conflict | NoPrevious | PreviousUnavailable
                 | PreviousInvalid | PreviousIncompatible

  /** Whether the call changed the serving model, or found it already in place. */
  datatype Done = Switched | AlreadyInPlace

  datatype Candidate = NoneStaged | Unreadable | Staged(manifest: Manifest, metadata: Option<Metadata>)

  /** How far SwapActiveAndPrevious gets: it rewrites active/ first, then previous/. */
  datatype SwapFault = NoFault | NothingWritten | ActiveOnly

  predicate EqualFold(cfg: Config, a: string, b: string) { cfg.fold(a) == cfg.fold(b) }

  // ---- Store ---------------------------------------------------------------

  function SaveActive(cfg: Config, d: Disk, m: Manifest, meta: Option<Metadata>, fails: bool): Disk {
    if fails then d else d.(active := Some(Stored(m, if meta.Some? then meta.value else cfg.derive(m))))
  }

  function RotateActiveToPrevious(d: Disk, fails: bool): Disk {
    if fails || d.active.None? then d else d.(previous := d.active)
  }

  function SwapActiveAndPrevious(d: Disk, fault: SwapFault): Disk {
    if d.active.None? || d.previous.None? || fault == NothingWritten then d
    else if fault == ActiveOnly then Disk(d.previous, d.previous)
    else Disk(d.previous, d.active)
  }

  // ---- Specification of the calls --------------------------------------------

  /** The checksum, structure, status, compatibility and metadata checks shared by both calls. */
  function Acceptable(cfg: Config, m: Manifest, meta: Option<Metadata>, invalid: Error,
          incompatible: Error): (err: Option<Error>)
    ensures err.None? ==> !Blank(m.checksum) && cfg.valid(m) && m.statusActive && cfg.compatible(m)
    ensures err.None? ==> cfg.computed(m).Some? && EqualFold(cfg, m.checksum, cfg.computed(m).value)
  {
    if Blank(m.checksum) then Some(invalid)
    else if cfg.computed(m).None? || !EqualFold(cfg, m.checksum, cfg.computed(m).value) then Some(invalid)
    else if !cfg.valid(m) then Some(invalid)
    else if !m.statusActive then Some(invalid)
    else if !cfg.compatible(m) then Some(incompatible)
    else if meta.Some? && (!meta.value.valid || !EqualFold(cfg, meta.value.checksum, m.checksum)) then Some(invalid)
    else None
  }

  predicate SameVersion(a: Manifest, b: Manifest) {
    a.id == b.id && a.version == b.version
  }

  /** `target` is the requested candidate id without surrounding blanks; empty asks for whatever is staged. */
  predicate Matches(target: string, c: Candidate)
    requires c.Staged?
  {
    target == "" || target == c.manifest.id || target == c.manifest.id + ":" + c.manifest.version
    || (c.metadata.Some? && target == c.metadata.value.deployment)
  }

  function AfterActivate(cfg: Config, s: State, target: string, c: Candidate, rotateFails: bool,
          saveFails: bool): (State, Result<Done, Error>) {
    match c
    case NoneStaged => (s, Err(NoCandidate))
    case Unreadable => (s, Err(ActivationFailed))
    case Staged(m, meta) =>
      if !Matches(target, c) then (s, Err(CandidateMismatch)) else
      var bad := Acceptable(cfg, m, meta, ActivationFailed, ActivationFailed);
      if bad.Some? then (s, Err(bad.value))
      else if s.active.Some? && SameVersion(s.active.value.manifest, m) then
        (s, if EqualFold(cfg, s.active.value.manifest.checksum, m.checksum) then Ok(AlreadyInPlace) else Err(Conflict))
      else
        var rotated := if s.active.Some? then RotateActiveToPrevious(s.disk, rotateFails) else s.disk;
        (State(Some(Snapshot(m, meta)), Some(m), if s.active.Some? then s.active else s.previous,
               SaveActive(cfg, rotated, m, meta, saveFails)),
         Ok(Switched))
  }

  /** What GetPrevious returns to Rollback: the stored model, or the one in memory when the slot is empty. */
  function PreviousToRestore(s: State, readFails: bool): Option<Snapshot> {
    if readFails then None
    else if s.disk.previous.None? then s.previous
    else Some(Snapshot(s.disk.previous.value.manifest, Some(s.disk.previous.value.metadata)))
  }

  function AfterRollback(cfg: Config, s: State, readFails: bool, swap: SwapFault): (State, Result<Done, Error>) {
    if s.previous.None? then (s, Err(NoPrevious))
    else
      var p := PreviousToRestore(s, readFails);
      if p.None? then (s, Err(PreviousUnavailable)) else
      var m := p.value.manifest;
      var bad := Acceptable(cfg, m, p.value.metadata, PreviousInvalid, PreviousIncompatible);
      if bad.Some? then (s, Err(bad.value))
      else if s.active.Some? && SameVersion(s.active.value.manifest, m)
           && EqualFold(cfg, s.active.value.manifest.checksum, m.checksum) then (s, Ok(AlreadyInPlace))
      else (State(p, Some(m), s.active, SwapActiveAndPrevious(s.disk, swap)), Ok(Switched))
  }

  /** NewManager without an initial manifest: recoverFromStore on an empty manager. */
  function Recover(cfg: Config, d: Disk, activeUnreadable: bool, previousUnreadable: bool): State {
    if activeUnreadable || d.active.None? || !cfg.valid(d.active.value.manifest) || !cfg.compatible(d.active.value.manifest)
    then State(None, None, None, d)
    else
      State(Some(Snapshot(d.active.value.manifest, Some(d.active.value.metadata))), Some(d.active.value.manifest),
            if previousUnreadable || d.previous.None? then None
            else Some(Snapshot(d.previous.value.manifest, Some(d.previous.value.metadata))), d)
  }

  /** NewManager with an initial manifest; None: the manager is not created. */
  function Initial(cfg: Config, d: Disk, m: Manifest, meta: Option<Metadata>, saveFails: bool): Option<State> {
    if !cfg.valid(m) || !cfg.compatible(m) then None
    else Some(State(Some(Snapshot(m, meta)), Some(m), None, SaveActive(cfg, d, m, meta, saveFails)))
  }

  // ---- What every step keeps ---------------------------------------------------

  function InMemory(s: Option<Snapshot>): Option<Manifest> { if s.Some? then Some(s.value.manifest) else None }

  function OnDisk(s: Option<Stored>): Option<Manifest> { if s.Some? then Some(s.value.manifest) else None }

  /** Memory and disk hold the same active and the same previous model. */
  predicate Agreed(s: State) {
    InMemory(s.active) == OnDisk(s.disk.active) && InMemory(s.previous) == OnDisk(s.disk.previous)
  }

  /** The serving detector runs the active model, which is valid and compatible; the previous model is another
      version. */
  predicate Sound(cfg: Config, s: State) {
    && s.detector == InMemory(s.active)
    && (s.active.Some? ==> cfg.valid(s.active.value.manifest) && cfg.compatible(s.active.value.manifest))
    && (s.active.Some? && s.previous.Some? ==> !SameVersion(s.active.value.manifest, s.previous.value.manifest))
    && (s.previous.Some? ==> s.active.Some?)
  }

  datatype Event =
    | ActivateAsked(target: string, c: Candidate, rotateFails: bool, saveFails: bool)
    | RollbackAsked(readFails: bool, swap: SwapFault)
    | Restarted(activeUnreadable: bool, previousUnreadable: bool)

  function Step(cfg: Config, s: State, e: Event): State {
    match e
    case ActivateAsked(target, c, r, w) => AfterActivate(cfg, s, target, c, r, w).0
    case RollbackAsked(r, w) => AfterRollback(cfg, s, r, w).0
    case Restarted(a, p) => Recover(cfg, s.disk, a, p)
  }

  function Run(cfg: Config, s: State, es: seq<Event>): State {
    if es == [] then s else Step(cfg, Run(cfg, s, es[..|es| - 1]), es[|es| - 1])
  }

  /** The store operations of the step succeed. */
  predicate StoreWorks(e: Event) {
    match e
    case ActivateAsked(_, _, r, w) => !r && !w
    case RollbackAsked(r, w) => !r && w == NoFault
    case Restarted(a, p) => !a && !p
  }

  /** Whatever the store does, the serving detector runs the active model and that model is valid, compatible
      and of another version than the previous one, as long as memory and disk agreed before the step. */
  lemma {:induction false} StepKeepsSound(cfg: Config, s: State, e: Event)
    requires Sound(cfg, s) && Agreed(s)
    ensures Sound(cfg, Step(cfg, s, e))
  {
  }

  /** The serving detector runs the active model, and that model is valid and compatible. */
  predicate Serving(cfg: Config, s: State) {
    && s.detector == InMemory(s.active)
    && (s.active.Some? ==> cfg.valid(s.active.value.manifest) && cfg.compatible(s.active.value.manifest))
  }

  /** No store fault, corrupt slot or restart ever makes the agent serve an invalid or incompatible model. */
  lemma {:induction false} AlwaysServesValidModel(cfg: Config, s: State, es: seq<Event>)
    requires Serving(cfg, s)
    ensures Serving(cfg, Run(cfg, s, es))
  {
    if es != [] { AlwaysServesValidModel(cfg, s, es[..|es| - 1]); }
  }

  /** An activation that switches keeps memory and disk in agreement exactly when its writes succeed. */
  lemma ActivationAgreesIff(cfg: Config, s: State, target: string, c: Candidate, rotateFails: bool, saveFails: bool)
    requires Sound(cfg, s) && Agreed(s) && AfterActivate(cfg, s, target, c, rotateFails, saveFails).1 == Ok(Switched)
    ensures Agreed(AfterActivate(cfg, s, target, c, rotateFails, saveFails).0)
       <==> !saveFails && (s.active.Some? ==> !rotateFails)
  {
  }

  /** A rollback that switches keeps memory and disk in agreement exactly when the swap completes. */
  lemma RollbackAgreesIff(cfg: Config, s: State, readFails: bool, swap: SwapFault)
    requires Sound(cfg, s) && Agreed(s) && AfterRollback(cfg, s, readFails, swap).1 == Ok(Switched)
    ensures Agreed(AfterRollback(cfg, s, readFails, swap).0) <==> swap == NoFault
  {
  }

  /** A failed or idempotent call changes neither memory nor disk. */
  lemma UnlessSwitchedUnchanged(cfg: Config, s: State, target: string, c: Candidate, f: bool, g: bool, swap: SwapFault)
    ensures AfterActivate(cfg, s, target, c, f, g).1 != Ok(Switched) ==> AfterActivate(cfg, s, target, c, f, g).0 == s
    ensures AfterRollback(cfg, s, f, swap).1 != Ok(Switched) ==> AfterRollback(cfg, s, f, swap).0 == s
  {
  }

  /** A restart serves exactly the model that was active before it, with the same previous model. */
  lemma RestartRestores(cfg: Config, s: State)
    requires Sound(cfg, s) && Agreed(s)
    ensures var r := Recover(cfg, s.disk, false, false);
      && r.disk == s.disk && r.detector == s.detector
      && InMemory(r.active) == InMemory(s.active) && InMemory(r.previous) == InMemory(s.previous)
  {
  }

  lemma {:induction false} RunKeepsAgreement(cfg: Config, s: State, es: seq<Event>)
    requires Sound(cfg, s) && Agreed(s) && forall i :: 0 <= i < |es| ==> StoreWorks(es[i])
    ensures Sound(cfg, Run(cfg, s, es)) && Agreed(Run(cfg, s, es))
  {
    if es != [] {
      RunKeepsAgreement(cfg, s, es[..|es| - 1]);
      var s', e := Run(cfg, s, es[..|es| - 1]), es[|es| - 1];
      StepKeepsSound(cfg, s', e);
      match e
      case ActivateAsked(target, c, r, w) =>
        if AfterActivate(cfg, s', target, c, r, w).1 == Ok(Switched) { ActivationAgreesIff(cfg, s', target, c, r, w); }
      case RollbackAsked(r, w) => if AfterRollback(cfg, s', r, w).1 == Ok(Switched) { RollbackAgreesIff(cfg, s', r, w); }
      case Restarted(a, p) => RestartRestores(cfg, s');
    }
  }

  /** In every state reachable from a fresh store whose operations succeed, restarts included and with or
      without an initial model. */
  lemma {:induction false} ReachableIsSound(cfg: Config, initial: Option<(Manifest, Option<Metadata>)>, es: seq<Event>)
    requires forall i :: 0 <= i < |es| ==> StoreWorks(es[i])
    ensures var empty := Disk(None, None);
      var s0 := if initial.Some? then Initial(cfg, empty, initial.value.0, initial.value.1, false)
                else Some(Recover(cfg, empty, false, false));
      s0.Some? ==> Sound(cfg, Run(cfg, s0.value, es)) && Agreed(Run(cfg, s0.value, es))
  {
    var empty := Disk(None, None);
    var s0 := if initial.Some? then Initial(cfg, empty, initial.value.0, initial.value.1, false)
              else Some(Recover(cfg, empty, false, false));
    if s0.Some? { RunKeepsAgreement(cfg, s0.value, es); }
  }

  /** Starting with an initial model on a store in use agrees exactly when the store holds no previous model:
      the manager forgets it, the store does not. */
  lemma InitialAgreesIff(cfg: Config, d: Disk, m: Manifest, meta: Option<Metadata>)
    requires Initial(cfg, d, m, meta, false).Some?
    ensures Agreed(Initial(cfg, d, m, meta, false).value) <==> d.previous.None?
  {
  }

  /** A store with an active and a previous model, started with a third as initial model: the manager has no previous
      model, so a rollback is refused, while the store still holds one. */
  lemma {:induction false} InitialForgetsPrevious(cfg: Config, a: Manifest, b: Manifest, m: Manifest)
    requires cfg.valid(m) && cfg.compatible(m)
    ensures var d := Disk(Some(Stored(a, cfg.derive(a))), Some(Stored(b, cfg.derive(b))));
      var s := Initial(cfg, d, m, None, false);
      && s.Some? && !Agreed(s.value) && s.value.previous == None && OnDisk(s.value.disk.previous) == Some(b)
      && AfterRollback(cfg, s.value, false, NoFault).1 == Err(NoPrevious)
  {
    InitialAgreesIff(cfg, Disk(Some(Stored(a, cfg.derive(a))), Some(Stored(b, cfg.derive(b)))), m, None);
  }

  /** Two consecutive rollbacks that switch restore the active and the previous model, in memory and on disk. */
  lemma {:induction false} TwoRollbacksRestore(cfg: Config, s: State)
    requires Sound(cfg, s) && Agreed(s)
    requires AfterRollback(cfg, s, false, NoFault).1 == Ok(Switched)
    requires AfterRollback(cfg, AfterRollback(cfg, s, false, NoFault).0, false, NoFault).1 == Ok(Switched)
    ensures var s'' := AfterRollback(cfg, AfterRollback(cfg, s, false, NoFault).0, false, NoFault).0;
      && s''.detector == s.detector && s''.disk == s.disk
      && InMemory(s''.active) == InMemory(s.active) && InMemory(s''.previous) == InMemory(s.previous)
  {
    RollbackAgreesIff(cfg, s, false, NoFault);
  }

  /** A rollback whose model passes the checks switches: with agreement the idempotent branch is never taken. */
  lemma RollbackSwitchesIffAcceptable(cfg: Config, s: State)
    requires Sound(cfg, s) && Agreed(s)
    ensures AfterRollback(cfg, s, false, NoFault).1 == Ok(Switched) <==>
      s.previous.Some? &&
      Acceptable(cfg, s.disk.previous.value.manifest, Some(s.disk.previous.value.metadata), PreviousInvalid, PreviousIncompatible).None?
  {
  }

  // ---- What the calls decide -------------------------------------------------------------

  /** The checksum is there and is the computed one, the manifest is valid and ACTIVE, and its metadata, if any, is valid
      and of the same checksum. */
  predicate Consistent(cfg: Config, m: Manifest, meta: Option<Metadata>) {
    && !Blank(m.checksum) && cfg.computed(m).Some? && cfg.fold(m.checksum) == cfg.fold(cfg.computed(m).value)
    && cfg.valid(m) && m.statusActive
    && (meta.Some? ==> meta.value.valid && cfg.fold(meta.value.checksum) == cfg.fold(m.checksum))
  }

  /** The staged model is the one asked for: by its id, its id and version, or its deployment; a blank target asks for
      whatever is staged. */
  predicate AskedFor(target: string, m: Manifest, meta: Option<Metadata>) {
    target == "" || target == m.id || target == m.id + ":" + m.version || (meta.Some? && target == meta.value.deployment)
  }

  /** An activation switches exactly to a staged model that was asked for, is consistent and compatible, and is of another
      version than the active one; then the detector runs it, the active model becomes the previous one, and the store
      follows as far as its writes succeed. */
  lemma {:induction false} ActivateDecides(cfg: Config, s: State, target: string, m: Manifest, meta: Option<Metadata>, rotateFails: bool,
          saveFails: bool)
    ensures var (s', r) := AfterActivate(cfg, s, target, Staged(m, meta), rotateFails, saveFails);
      var fits := AskedFor(target, m, meta) && Consistent(cfg, m, meta) && cfg.compatible(m);
      var same := s.active.Some? && s.active.value.manifest.id == m.id && s.active.value.manifest.version == m.version;
      && (r == Ok(Switched) <==> fits && !same)
      && (r == Ok(AlreadyInPlace) <==> fits && same && cfg.fold(s.active.value.manifest.checksum) == cfg.fold(m.checksum))
      && (r == Err(Conflict) <==> fits && same && cfg.fold(s.active.value.manifest.checksum) != cfg.fold(m.checksum))
      && (r == Err(CandidateMismatch) <==> !AskedFor(target, m, meta))
      && (r == Err(ActivationFailed) <==> AskedFor(target, m, meta) && !(Consistent(cfg, m, meta) && cfg.compatible(m)))
      && (r != Ok(Switched) ==> s' == s)
      && (r == Ok(Switched) ==>
           && s'.active == Some(Snapshot(m, meta)) && s'.detector == Some(m)
           && s'.previous == (if s.active.Some? then s.active else s.previous)
           && s'.disk.active == (if saveFails then s.disk.active
                                 else Some(Stored(m, if meta.Some? then meta.value else cfg.derive(m))))
           && s'.disk.previous == if s.active.Some? && !rotateFails && s.disk.active.Some? then s.disk.active else s.disk.previous)
  {
    hide Blank;
  }

  /** Without a readable staged model nothing happens. */
  lemma NothingStagedFails(cfg: Config, s: State, target: string, rotateFails: bool, saveFails: bool)
    ensures AfterActivate(cfg, s, target, NoneStaged, rotateFails, saveFails) == (s, Err(NoCandidate))
    ensures AfterActivate(cfg, s, target, Unreadable, rotateFails, saveFails) == (s, Err(ActivationFailed))
  {
  }

  /** A rollback needs a previous model in memory; it restores the stored one, or the one in memory when the store has
      none. It switches exactly when that model is consistent and compatible and not the active one already; then active
      and previous change places in memory, and in the store as far as the swap gets. */
  lemma {:induction false} RollbackDecides(cfg: Config, s: State, readFails: bool, swap: SwapFault)
    ensures var (s', r) := AfterRollback(cfg, s, readFails, swap);
      && (r == Err(NoPrevious) <==> s.previous.None?)
      && (r == Err(PreviousUnavailable) <==> s.previous.Some? && readFails)
      && (r != Ok(Switched) ==> s' == s)
      && (s.previous.Some? && !readFails ==>
           var p := if s.disk.previous.Some? then Snapshot(s.disk.previous.value.manifest, Some(s.disk.previous.value.metadata))
                    else s.previous.value;
           var sound := Consistent(cfg, p.manifest, p.metadata) && cfg.compatible(p.manifest);
           var inPlace := s.active.Some? && s.active.value.manifest.id == p.manifest.id
             && s.active.value.manifest.version == p.manifest.version
             && cfg.fold(s.active.value.manifest.checksum) == cfg.fold(p.manifest.checksum);
           && (r == Ok(Switched) <==> sound && !inPlace) && (r == Ok(AlreadyInPlace) <==> sound && inPlace)
           && (!sound ==> r == Err(PreviousInvalid) || (r == Err(PreviousIncompatible) && !cfg.compatible(p.manifest)))
           && (r == Ok(Switched) ==>
                && s'.active == Some(p) && s'.detector == Some(p.manifest) && s'.previous == s.active
                && s'.disk == if s.disk.active.None? || s.disk.previous.None? || swap == NothingWritten then s.disk
                              else Disk(s.disk.previous, if swap == ActiveOnly then s.disk.previous else s.disk.active)))
  {
    hide Blank;
  }

  /** A start on a store serves its active model, with the previous one if that can be read, exactly when the active one
      can be read and is valid and compatible; otherwise it serves none. The store stays as it is. */
  lemma {:induction false} StartDecides(cfg: Config, d: Disk, activeUnreadable: bool, previousUnreadable: bool)
    ensures var s := Recover(cfg, d, activeUnreadable, previousUnreadable);
      var serves := !activeUnreadable && d.active.Some? && cfg.valid(d.active.value.manifest) && cfg.compatible(d.active.value.manifest);
      && s.disk == d && (s.detector.Some? <==> serves)
      && (serves ==>
           && s.detector == Some(d.active.value.manifest)
           && s.active == Some(Snapshot(d.active.value.manifest, Some(d.active.value.metadata)))
           && (s.previous.Some? <==> !previousUnreadable && d.previous.Some?)
           && (s.previous.Some? ==> s.previous == Some(Snapshot(d.previous.value.manifest, Some(d.previous.value.metadata)))))
      && (!serves ==> s.active == None && s.previous == None)
  {
  }

  /** An initial model is accepted exactly when it is valid and compatible; it is served and saved, without a previous
      one. */
  lemma InitialDecides(cfg: Config, d: Disk, m: Manifest, meta: Option<Metadata>, saveFails: bool)
    ensures var s := Initial(cfg, d, m, meta, saveFails);
      && (s.Some? <==> cfg.valid(m) && cfg.compatible(m))
      && (s.Some? ==>
           && s.value.active == Some(Snapshot(m, meta)) && s.value.detector == Some(m) && s.value.previous == None
           && s.value.disk.previous == d.previous
           && s.value.disk.active == if saveFails then d.active else Some(Stored(m, if meta.Some? then meta.value else cfg.derive(m))))
  {
  }

  class DefaultManager {
    const cfg: Config
    var active: Option<Snapshot>
    var activeDetector: Option<Manifest>
    var previous: Option<Snapshot>
    var disk: Disk

    function View(): State
      reads this
    {
      State(active, activeDetector, previous, disk)
    }

    /** NewManager without an initial manifest. */
    constructor (cfg: Config, disk: Disk, activeUnreadable: bool, previousUnreadable: bool)
      ensures this.cfg == cfg && View() == Recover(cfg, disk, activeUnreadable, previousUnreadable)
    {
      this.cfg, this.disk := cfg, disk;
      active, activeDetector, previous := None, None, None;
      new;
      RecoverFromStore(activeUnreadable, previousUnreadable);
    }

    /** A manager around an accepted initial model; nothing is recovered. */
    constructor WithInitial(cfg: Config, disk: Disk, m: Manifest, meta: Option<Metadata>, saveFails: bool)
      requires cfg.valid(m) && cfg.compatible(m)
      ensures this.cfg == cfg && Some(View()) == Initial(cfg, disk, m, meta, saveFails)
    {
      this.cfg := cfg;
      active, activeDetector, previous := Some(Snapshot(m, meta)), Some(m), None;
      this.disk := SaveActive(cfg, disk, m, meta, saveFails);
    }

    /** NewManager: with an initial model, which it may refuse, or recovering from the store. */
    static method NewManager(cfg: Config, disk: Disk, initial: Option<(Manifest, Option<Metadata>)>, activeUnreadable: bool,
        previousUnreadable: bool, saveFails: bool) returns (m: Option<DefaultManager>)
      ensures m.Some? ==> fresh(m.value) && m.value.cfg == cfg
      ensures initial.None? ==> m.Some? && m.value.View() == Recover(cfg, disk, activeUnreadable, previousUnreadable)
      ensures initial.Some? ==>
        (if m.Some? then Some(m.value.View()) else None) == Initial(cfg, disk, initial.value.0, initial.value.1, saveFails)
    {
      if initial.None? {
        var recovered := new DefaultManager(cfg, disk, activeUnreadable, previousUnreadable);
        return Some(recovered);
      }
      var (manifest, meta) := initial.value;
      if !cfg.valid(manifest) || !cfg.compatible(manifest) { return None; }
      var started := new DefaultManager.WithInitial(cfg, disk, manifest, meta, saveFails);
      return Some(started);
    }

    method RecoverFromStore(activeUnreadable: bool, previousUnreadable: bool)
      requires active.None? && activeDetector.None? && previous.None?
      modifies this
      ensures View() == Recover(cfg, old(disk), activeUnreadable, previousUnreadable)
    {
      if activeUnreadable || disk.active.None? { return; }
      var stored := disk.active.value;
      if !cfg.valid(stored.manifest) || !cfg.compatible(stored.manifest) { return; }
      active := Some(Snapshot(stored.manifest, Some(stored.metadata)));
      activeDetector := Some(stored.manifest);
      if !previousUnreadable && disk.previous.Some? {
        previous := Some(Snapshot(disk.previous.value.manifest, Some(disk.previous.value.metadata)));
      }
    }

    method Activate(target: string, c: Candidate, rotateFails: bool, saveFails: bool) returns (r: Result<Done, Error>)
      modifies this
      ensures (View(), r) == AfterActivate(cfg, old(View()), target, c, rotateFails, saveFails)
      ensures old(Agreed(View())) && old(Sound(cfg, View())) ==> Sound(cfg, View())
    {
      if c.NoneStaged? { return Err(NoCandidate); }
      if c.Unreadable? { return Err(ActivationFailed); }
      if !Matches(target, c) { return Err(CandidateMismatch); }
      var bad := Acceptable(cfg, c.manifest, c.metadata, ActivationFailed, ActivationFailed);
      if bad.Some? { return Err(bad.value); }
      if active.Some? && SameVersion(active.value.manifest, c.manifest) {
        if EqualFold(cfg, active.value.manifest.checksum, c.manifest.checksum) { return Ok(AlreadyInPlace); }
        return Err(Conflict);
      }
      if active.Some? { disk := RotateActiveToPrevious(disk, rotateFails); }
      disk := SaveActive(cfg, disk, c.manifest, c.metadata, saveFails);
      if active.Some? { previous := active; }
      active := Some(Snapshot(c.manifest, c.metadata));
      activeDetector := Some(c.manifest);
      return Ok(Switched);
    }

    method Rollback(readFails: bool, swap: SwapFault) returns (r: Result<Done, Error>)
      modifies this
      ensures (View(), r) == AfterRollback(cfg, old(View()), readFails, swap)
      ensures old(Agreed(View())) && old(Sound(cfg, View())) ==> Sound(cfg, View())
    {
      if previous.None? { return Err(NoPrevious); }
      if readFails { return Err(PreviousUnavailable); }
      var restored := previous.value;
      if disk.previous.Some? {
        restored := Snapshot(disk.previous.value.manifest, Some(disk.previous.value.metadata));
      }
      var bad := Acceptable(cfg, restored.manifest, restored.metadata, PreviousInvalid, PreviousIncompatible);
      if bad.Some? { return Err(bad.value); }
      if active.Some? && SameVersion(active.value.manifest, restored.manifest)
         && EqualFold(cfg, active.value.manifest.checksum, restored.manifest.checksum) {
        return Ok(AlreadyInPlace);
      }
      disk := SwapActiveAndPrevious(disk, swap);
      active, activeDetector, previous := Some(restored), Some(restored.manifest), active;
      return Ok(Switched);
    }
  }
}
