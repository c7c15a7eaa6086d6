/** Operator approvals: single-use authorisation records (edge/agent/storage/sqlite.go:2340-2672,
    shared/types/types.go:249-303). Every operation is one transaction. */
module Approvals {
  import opened Common

  datatype Status = Pending | Approved | Consumed | Rejected | Expired | Cancelled

  datatype Approval = Approval(status: Status, expiresAt: Time, approvedBy: string, rejectedBy: string, reason: string,
                               consumedAt: Option<Time>, updatedAt: Time)

  type Table = map<string, Approval>

  datatype Error = EmptyID | EmptyActor | NotFound | InvalidTransition | ApprovalExpired | CannotRejectApproved
                 | AlreadyConsumed | StoreFailed

  /** Where the store fails, if it does. */
  datatype Fault = NoFault | BeforeCommit | AtCommit

  type Reply = Result<(), Error>

  predicate IsTerminal(s: Status) {
    s == Consumed || s == Rejected || s == Expired || s == Cancelled
  }

  predicate CanTransition(s: Status, next: Status) {
    s == next
    || (s == Pending && (next == Approved || next == Rejected || next == Expired || next == Cancelled))
    || (s == Approved && (next == Consumed || next == Expired))
  }

  // ---- Specification of the operations -------------------------------------------

  function Put(t: Table, id: string, a: Approval, fault: Fault): (Table, Reply) {
    if fault == AtCommit then (t, Err(StoreFailed)) else (t[id := a], Ok(()))
  }

  /** The side exit of approve and consume: expire the record, whether or not the commit succeeds. */
  function Expire(t: Table, id: string, now: Time, fault: Fault): (Table, Reply)
    requires id in t
  {
    (if fault == AtCommit then t else t[id := t[id].(status := Expired, updatedAt := now)], Err(ApprovalExpired))
  }

  function Approve(t: Table, id: string, approvedBy: string, now: Time, fault: Fault): (Table, Reply) {
    if Blank(id) then (t, Err(EmptyID))
    else if Blank(approvedBy) then (t, Err(EmptyActor))
    else if fault == BeforeCommit then (t, Err(StoreFailed))
    else if id !in t then (t, Err(NotFound))
    else if t[id].status == Approved then (t, Ok(()))
    else if IsTerminal(t[id].status) then (t, Err(InvalidTransition))
    else if now >= t[id].expiresAt then Expire(t, id, now, fault)
    else Put(t, id, t[id].(status := Approved, approvedBy := approvedBy, updatedAt := now), fault)
  }

  function Reject(t: Table, id: string, rejectedBy: string, reason: string, now: Time, fault: Fault): (Table, Reply) {
    if Blank(id) then (t, Err(EmptyID))
    else if Blank(rejectedBy) then (t, Err(EmptyActor))
    else if fault == BeforeCommit then (t, Err(StoreFailed))
    else if id !in t then (t, Err(NotFound))
    else if t[id].status == Rejected then (t, Ok(()))
    else if t[id].status == Approved then (t, Err(CannotRejectApproved))
    else if IsTerminal(t[id].status) then (t, Err(InvalidTransition))
    else Put(t, id, t[id].(status := Rejected, rejectedBy := rejectedBy, reason := reason, updatedAt := now), fault)
  }

  /** Accepts PENDING and APPROVED. */
  function Cancel(t: Table, id: string, reason: string, now: Time, fault: Fault): (Table, Reply) {
    if Blank(id) then (t, Err(EmptyID))
    else if fault == BeforeCommit then (t, Err(StoreFailed))
    else if id !in t then (t, Err(NotFound))
    else if t[id].status == Cancelled then (t, Ok(()))
    else if IsTerminal(t[id].status) then (t, Err(InvalidTransition))
    else Put(t, id, t[id].(status := Cancelled, reason := reason, updatedAt := now), fault)
  }

  function Consume(t: Table, id: string, now: Time, fault: Fault): (Table, Reply) {
    if Blank(id) then (t, Err(EmptyID))
    else if fault == BeforeCommit then (t, Err(StoreFailed))
    else if id in t && t[id].status == Approved && t[id].expiresAt > now then
      Put(t, id, t[id].(status := Consumed, consumedAt := Some(now), updatedAt := now), fault)
    else if id !in t then (t, Err(NotFound))
    else if t[id].status == Consumed then (t, Err(AlreadyConsumed))
    else if now >= t[id].expiresAt then Expire(t, id, now, fault)
    else (t, Err(InvalidTransition))
  }

  predicate Stale(a: Approval, now: Time) {
    (a.status == Pending || a.status == Approved) && a.expiresAt <= now
  }

  function ExpireStale(t: Table, now: Time, fault: Fault): (Table, Reply) {
    if fault != NoFault then (t, Err(StoreFailed))
    else (map id | id in t :: if Stale(t[id], now) then t[id].(status := Expired, updatedAt := now) else t[id], Ok(()))
  }

  // ---- Runs ---------------------------------------------------------------------

  datatype Op =
    | ApproveOp(id: string, approvedBy: string, now: Time, fault: Fault)
    | RejectOp(id: string, rejectedBy: string, reason: string, now: Time, fault: Fault)
    | CancelOp(id: string, reason: string, now: Time, fault: Fault)
    | ConsumeOp(id: string, now: Time, fault: Fault)
    | ExpireStaleOp(now: Time, fault: Fault)

  function Apply(t: Table, op: Op): (Table, Reply) {
    match op
    case ApproveOp(id, who, now, f) => Approve(t, id, who, now, f)
    case RejectOp(id, who, why, now, f) => Reject(t, id, who, why, now, f)
    case CancelOp(id, why, now, f) => Cancel(t, id, why, now, f)
    case ConsumeOp(id, now, f) => Consume(t, id, now, f)
    case ExpireStaleOp(now, f) => ExpireStale(t, now, f)
  }

  function Run(t: Table, ops: seq<Op>): Table {
    if ops == [] then t else Apply(Run(t, ops[..|ops| - 1]), ops[|ops| - 1]).0
  }

  /** Operation `i` of the run succeeds. */
  predicate Succeeds(t: Table, ops: seq<Op>, i: nat)
    requires i < |ops|
  {
    Apply(Run(t, ops[..i]), ops[i]).1.Ok?
  }

  predicate Consumes(t: Table, ops: seq<Op>, i: nat, id: string) {
    i < |ops| && ops[i].ConsumeOp? && ops[i].id == id && Succeeds(t, ops, i)
  }

  predicate Approves(t: Table, ops: seq<Op>, i: nat, id: string) {
    i < |ops| && ops[i].ApproveOp? && ops[i].id == id && Succeeds(t, ops, i)
  }

  lemma RunStep(t: Table, ops: seq<Op>, i: nat)
    requires i < |ops|
    ensures Run(t, ops[..i + 1]) == Apply(Run(t, ops[..i]), ops[i]).0
  {
    assert ops[..i + 1][..i] == ops[..i];
  }

  /** How one operation may change the record of `id`. */
  predicate Progress(a: Approval, b: Approval, op: Op, ok: bool, id: string) {
    && b.expiresAt == a.expiresAt
    && (a.status == Consumed ==> b == a)
    && (a.status != Approved && b.status == Approved ==> ApprovesIn(a, b, op, ok, id))
    && (a.status == Approved && b.status == Approved ==> b.approvedBy == a.approvedBy)
    && (a.status != Consumed && b.status == Consumed ==> ConsumesIn(a, b, op, ok, id))
    && (op.ConsumeOp? && op.id == id && ok ==> a.status == Approved && b.status == Consumed)
    && (b.status == Pending ==> a.status == Pending)
  }

  predicate ApprovesIn(a: Approval, b: Approval, op: Op, ok: bool, id: string) {
    && op.ApproveOp? && op.id == id && ok && a.status == Pending && op.now < a.expiresAt
    && b.approvedBy == op.approvedBy && !Blank(b.approvedBy)
  }

  predicate ConsumesIn(a: Approval, b: Approval, op: Op, ok: bool, id: string) {
    && op.ConsumeOp? && op.id == id && ok && a.status == Approved && op.now < a.expiresAt
    && b.consumedAt == Some(op.now) && b.approvedBy == a.approvedBy
  }

  lemma StepProgress(t: Table, op: Op, id: string)
    requires id in t
    ensures id in Apply(t, op).0 && Progress(t[id], Apply(t, op).0[id], op, Apply(t, op).1.Ok?, id)
  {
  }

  /** CONSUMED is never left, and the record never changes again. */
  lemma {:induction false} ConsumedIsFinal(t: Table, ops: seq<Op>, id: string)
    requires id in t && t[id].status == Consumed
    ensures id in Run(t, ops) && Run(t, ops)[id] == t[id]
  {
    if ops != [] {
      ConsumedIsFinal(t, ops[..|ops| - 1], id);
      StepProgress(Run(t, ops[..|ops| - 1]), ops[|ops| - 1], id);
    }
  }

  /** A record that has left PENDING and APPROVED never becomes APPROVED or CONSUMED again. */
  lemma {:induction false} ClosedStaysClosed(t: Table, ops: seq<Op>, id: string)
    requires id in t && t[id].status in {Rejected, Expired, Cancelled}
    ensures id in Run(t, ops) && Run(t, ops)[id].status in {Rejected, Expired, Cancelled}
  {
    if ops != [] {
      ClosedStaysClosed(t, ops[..|ops| - 1], id);
      StepProgress(Run(t, ops[..|ops| - 1]), ops[|ops| - 1], id);
    }
  }

  /** What the first `n` operations say about a record created PENDING. */
  ghost predicate Accounted(t: Table, ops: seq<Op>, n: nat, id: string)
    requires n <= |ops|
  {
    && id in t && id in Run(t, ops[..n]) && Run(t, ops[..n])[id].expiresAt == t[id].expiresAt
    && ApprovalHasCause(t, ops, n, id, Run(t, ops[..n])[id])
    && ConsumptionHasCause(t, ops, n, id, Run(t, ops[..n])[id])
    && NotYetConsumed(t, ops, n, id, Run(t, ops[..n])[id])
    && AtMostOneConsumes(t, ops, n, id)
  }

  ghost predicate ApprovalHasCause(t: Table, ops: seq<Op>, n: nat, id: string, r: Approval) {
    r.status == Approved ==> exists j :: ApprovedBy(t, ops, n, j, id, r.approvedBy)
  }

  ghost predicate ConsumptionHasCause(t: Table, ops: seq<Op>, n: nat, id: string, r: Approval) {
    r.status == Consumed ==> exists i :: ConsumedAfterApproval(t, ops, n, i, id, r.approvedBy, r.consumedAt)
  }

  predicate NotYetConsumed(t: Table, ops: seq<Op>, n: nat, id: string, r: Approval) {
    r.status != Consumed ==> forall i :: 0 <= i < n ==> !Consumes(t, ops, i, id)
  }

  predicate AtMostOneConsumes(t: Table, ops: seq<Op>, n: nat, id: string) {
    forall i, j :: 0 <= i < j < n ==> !(Consumes(t, ops, i, id) && Consumes(t, ops, j, id))
  }

  /** Operation `j`, before `n`, approved the record, in time, in the name of `who`. */
  predicate ApprovedBy(t: Table, ops: seq<Op>, n: nat, j: nat, id: string, who: string) {
    id in t && j < n <= |ops| && Approves(t, ops, j, id) && ops[j].now < t[id].expiresAt && ops[j].approvedBy == who && !Blank(who)
  }

  ghost predicate ConsumedAfterApproval(t: Table, ops: seq<Op>, n: nat, i: nat, id: string, who: string,
          at: Option<Time>) {
    && id in t && i < n <= |ops| && Consumes(t, ops, i, id) && ops[i].now < t[id].expiresAt && at == Some(ops[i].now)
    && exists j :: ApprovedBy(t, ops, i, j, id, who)
  }

  lemma ApprovedByGrows(t: Table, ops: seq<Op>, n: nat, j: nat, id: string, who: string)
    requires n < |ops| && ApprovedBy(t, ops, n, j, id, who)
    ensures ApprovedBy(t, ops, n + 1, j, id, who)
  {
  }

  lemma ApprovalStep(t: Table, ops: seq<Op>, n: nat, id: string, r: Approval, r': Approval)
    requires n < |ops| && id in t && r.expiresAt == t[id].expiresAt && ApprovalHasCause(t, ops, n, id, r)
    requires Progress(r, r', ops[n], Succeeds(t, ops, n), id)
    ensures ApprovalHasCause(t, ops, n + 1, id, r')
  {
    hide Succeeds;
    if r'.status == Approved {
      if r.status == Approved {
        var j :| ApprovedBy(t, ops, n, j, id, r.approvedBy);
        ApprovedByGrows(t, ops, n, j, id, r.approvedBy);
      } else {
        assert ApprovedBy(t, ops, n + 1, n, id, r'.approvedBy);
      }
    }
  }

  lemma ConsumptionStep(t: Table, ops: seq<Op>, n: nat, id: string, r: Approval, r': Approval)
    requires n < |ops| && id in t && r.expiresAt == t[id].expiresAt
    requires ApprovalHasCause(t, ops, n, id, r) && ConsumptionHasCause(t, ops, n, id, r)
    requires Progress(r, r', ops[n], Succeeds(t, ops, n), id)
    ensures ConsumptionHasCause(t, ops, n + 1, id, r')
  {
    hide Succeeds, ApprovedBy;
    if r'.status == Consumed {
      if r.status == Consumed {
        var i :| ConsumedAfterApproval(t, ops, n, i, id, r.approvedBy, r.consumedAt);
        assert ConsumedAfterApproval(t, ops, n + 1, i, id, r'.approvedBy, r'.consumedAt);
      } else {
        var j :| ApprovedBy(t, ops, n, j, id, r.approvedBy);
        assert ConsumedAfterApproval(t, ops, n + 1, n, id, r'.approvedBy, r'.consumedAt);
      }
    }
  }

  lemma CountStep(t: Table, ops: seq<Op>, n: nat, id: string, r: Approval, r': Approval)
    requires n < |ops| && NotYetConsumed(t, ops, n, id, r) && AtMostOneConsumes(t, ops, n, id)
    requires Progress(r, r', ops[n], Succeeds(t, ops, n), id)
    ensures NotYetConsumed(t, ops, n + 1, id, r') && AtMostOneConsumes(t, ops, n + 1, id)
  {
    hide Succeeds;
  }

  lemma {:induction false} RunIsAccounted(t: Table, ops: seq<Op>, n: nat, id: string)
    requires n <= |ops| && id in t && t[id].status == Pending
    ensures Accounted(t, ops, n, id)
  {
    if n == 0 {
      assert ops[..0] == [];
      assert Run(t, ops[..0]) == t;
      hide Run, Consumes, ApprovedBy;
    } else {
      RunIsAccounted(t, ops, n - 1, id);
      RunStep(t, ops, n - 1);
      var r := Run(t, ops[..n - 1]);
      StepProgress(r, ops[n - 1], id);
      var r' := Run(t, ops[..n])[id];
      assert Succeeds(t, ops, n - 1) == Apply(r, ops[n - 1]).1.Ok?;
      assert r'.expiresAt == r[id].expiresAt;
      hide Run, Apply, Progress, Succeeds, ApprovalHasCause, ConsumptionHasCause, NotYetConsumed, AtMostOneConsumes;
      ApprovalStep(t, ops, n - 1, id, r[id], r');
      ConsumptionStep(t, ops, n - 1, id, r[id], r');
      CountStep(t, ops, n - 1, id, r[id], r');
    }
  }

  /** Over any run of approval operations on a record created PENDING, consumption succeeds at most once, and
      only strictly before expiry and after a successful approval by a named operator. */
  lemma {:induction false} ConsumedAtMostOnce(t: Table, ops: seq<Op>, id: string, i: nat, j: nat)
    requires id in t && t[id].status == Pending && Consumes(t, ops, i, id)
    ensures Consumes(t, ops, j, id) ==> i == j
    ensures ops[i].now < t[id].expiresAt
    ensures exists k, who :: ApprovedBy(t, ops, i, k, id, who)
  {
    RunIsAccounted(t, ops, |ops|, id);
    RunIsAccounted(t, ops, i, id);
    StepProgress(Run(t, ops[..i]), ops[i], id);
    var k :| ApprovedBy(t, ops, i, k, id, Run(t, ops[..i])[id].approvedBy);
  }

  // ---- What each operation decides ---------------------------------------------------

  /** Only the record of `id` may differ. */
  predicate OthersStay(t: Table, t': Table, id: string) {
    t'.Keys == t.Keys && forall other :: other in t && other != id ==> t'[other] == t[other]
  }

  /** An approval succeeds exactly on a record APPROVED already, which it leaves as it is, or PENDING and unexpired, which
      it approves in the operator's name. A late one expires the record, and any other failure changes nothing. */
  lemma {:induction false} ApproveDecides(t: Table, id: string, approvedBy: string, now: Time, fault: Fault)
    ensures var (t', r) := Approve(t, id, approvedBy, now, fault);
      var asked := !Blank(id) && !Blank(approvedBy) && fault != BeforeCommit && id in t;
      var late := asked && t[id].status == Pending && now >= t[id].expiresAt;
      && OthersStay(t, t', id)
      && (r.Ok? <==> asked && (t[id].status == Approved || (t[id].status == Pending && now < t[id].expiresAt && fault == NoFault)))
      && (r.Ok? ==> t'[id] == if t[id].status == Approved then t[id]
                              else t[id].(status := Approved, approvedBy := approvedBy, updatedAt := now))
      && (r == Err(ApprovalExpired) <==> late)
      && (late ==> t'[id] == if fault == AtCommit then t[id] else t[id].(status := Expired, updatedAt := now))
      && (r.Err? && !late ==> t' == t)
  {
  }

  /** A rejection succeeds exactly on a record REJECTED already or PENDING, expired or not; an APPROVED one cannot be
      rejected. */
  lemma {:induction false} RejectDecides(t: Table, id: string, rejectedBy: string, reason: string, now: Time, fault: Fault)
    ensures var (t', r) := Reject(t, id, rejectedBy, reason, now, fault);
      var asked := !Blank(id) && !Blank(rejectedBy) && fault != BeforeCommit && id in t;
      && OthersStay(t, t', id)
      && (r.Ok? <==> asked && (t[id].status == Rejected || (t[id].status == Pending && fault == NoFault)))
      && (r.Ok? ==> t'[id] == if t[id].status == Rejected then t[id]
                              else t[id].(status := Rejected, rejectedBy := rejectedBy, reason := reason, updatedAt := now))
      && (r == Err(CannotRejectApproved) <==> asked && t[id].status == Approved)
      && (r.Err? ==> t' == t)
  {
  }

  /** A cancellation succeeds exactly on a record CANCELLED already, PENDING or APPROVED. */
  lemma {:induction false} CancelDecides(t: Table, id: string, reason: string, now: Time, fault: Fault)
    ensures var (t', r) := Cancel(t, id, reason, now, fault);
      var asked := !Blank(id) && fault != BeforeCommit && id in t;
      && OthersStay(t, t', id)
      && (r.Ok? <==> asked && (t[id].status == Cancelled
                               || ((t[id].status == Pending || t[id].status == Approved) && fault == NoFault)))
      && (r.Ok? ==> t'[id] == if t[id].status == Cancelled then t[id]
                              else t[id].(status := Cancelled, reason := reason, updatedAt := now))
      && (r.Err? ==> t' == t)
  {
  }

  /** A consumption succeeds exactly on an APPROVED, unexpired record. A consumed record answers so; on any other late one
      the attempt expires the record; else nothing changes. */
  lemma {:induction false} ConsumeDecides(t: Table, id: string, now: Time, fault: Fault)
    ensures var (t', r) := Consume(t, id, now, fault);
      var asked := !Blank(id) && fault != BeforeCommit && id in t;
      var late := asked && t[id].status != Consumed && now >= t[id].expiresAt;
      && OthersStay(t, t', id)
      && (r.Ok? <==> asked && t[id].status == Approved && now < t[id].expiresAt && fault == NoFault)
      && (r.Ok? ==> t'[id] == t[id].(status := Consumed, consumedAt := Some(now), updatedAt := now))
      && (r == Err(AlreadyConsumed) <==> asked && t[id].status == Consumed)
      && (r == Err(ApprovalExpired) <==> late)
      && (late ==> t'[id] == if fault == AtCommit then t[id] else t[id].(status := Expired, updatedAt := now))
      && (r.Err? && !late ==> t' == t)
  {
  }

  /** The errors that do not depend on the record's status. */
  lemma {:induction false} BadRequestsAreNamed(t: Table, id: string, who: string, why: string, now: Time, fault: Fault)
    ensures forall r :: r in [Approve(t, id, who, now, fault), Reject(t, id, who, why, now, fault), Cancel(t, id, why, now, fault),
                              Consume(t, id, now, fault)] ==>
      && (Blank(id) ==> r == (t, Err(EmptyID)))
      && (!Blank(id) && !Blank(who) && fault == BeforeCommit ==> r == (t, Err(StoreFailed)))
      && (!Blank(id) && !Blank(who) && fault != BeforeCommit && id !in t ==> r == (t, Err(NotFound)))
    ensures !Blank(id) && Blank(who) ==>
      Approve(t, id, who, now, fault) == (t, Err(EmptyActor)) && Reject(t, id, who, why, now, fault) == (t, Err(EmptyActor))
  {
    hide Blank, Expire, Put;
  }

  /** One sweep expires every PENDING or APPROVED record whose time is up, and leaves all others exactly as they are; when
      it fails it changes nothing. */
  lemma {:induction false} SweepDecides(t: Table, now: Time, fault: Fault, id: string)
    requires id in t
    ensures var (t', r) := ExpireStale(t, now, fault);
      && t'.Keys == t.Keys && (r.Ok? <==> fault == NoFault) && (r.Err? ==> t' == t && r == Err(StoreFailed))
      && (r.Ok? ==>
           if (t[id].status == Pending || t[id].status == Approved) && now >= t[id].expiresAt
           then t'[id] == t[id].(status := Expired, updatedAt := now) else t'[id] == t[id])
  {
  }

  // ---- Conformance to the transition table -----------------------------------------

  /** The two ways the code leaves its transition table: cancelling an approved record, and a consume attempt
      that expires a rejected or cancelled one. */
  predicate Deviates(t: Table, op: Op, id: string) {
    id in t && !op.ExpireStaleOp? && op.id == id && !Blank(id) && op.fault == NoFault &&
    ((op.CancelOp? && t[id].status == Approved)
     || (op.ConsumeOp? && (t[id].status == Rejected || t[id].status == Cancelled) && op.now >= t[id].expiresAt))
  }

  lemma ConformsIff(t: Table, op: Op, id: string)
    requires id in t
    ensures CanTransition(t[id].status, Apply(t, op).0[id].status) <==> !Deviates(t, op, id)
  {
  }

  /** A record created PENDING, approved, then cancelled: APPROVED to CANCELLED is not in the table. */
  lemma ApprovedCanBeCancelled()
    ensures var t := map["a" := Approval(Pending, 10, "", "", "", None, 0)];
      var t1, t2 := Run(t, [ApproveOp("a", "op", 1, NoFault)]), Run(t, [ApproveOp("a", "op", 1, NoFault), CancelOp("a", "", 2, NoFault)]);
      && "a" in t1 && t1["a"].status == Approved && "a" in t2 && t2["a"].status == Cancelled
      && !CanTransition(Approved, Cancelled)
  {
    TwoOps(map["a" := Approval(Pending, 10, "", "", "", None, 0)], ApproveOp("a", "op", 1, NoFault), CancelOp("a", "", 2, NoFault));
    assert !IsSpace("a"[0]) && !IsSpace("op"[0]);
  }

  /** A record created PENDING, rejected, then consumed at its expiry: the attempt fails, and turns the terminal
      REJECTED into EXPIRED. */
  lemma RejectedCanExpire()
    ensures var t := map["a" := Approval(Pending, 10, "", "", "", None, 0)];
      var t1 := Run(t, [RejectOp("a", "op", "", 1, NoFault)]);
      var t2 := Run(t, [RejectOp("a", "op", "", 1, NoFault), ConsumeOp("a", 10, NoFault)]);
      && "a" in t1 && t1["a"].status == Rejected && "a" in t2 && t2["a"].status == Expired
      && Apply(t1, ConsumeOp("a", 10, NoFault)).1 == Err(ApprovalExpired) && !CanTransition(Rejected, Expired)
  {
    TwoOps(map["a" := Approval(Pending, 10, "", "", "", None, 0)], RejectOp("a", "op", "", 1, NoFault), ConsumeOp("a", 10, NoFault));
    assert !IsSpace("a"[0]) && !IsSpace("op"[0]);
  }

  lemma TwoOps(t: Table, a: Op, b: Op)
    ensures Run(t, [a]) == Apply(t, a).0 && Run(t, [a, b]) == Apply(Apply(t, a).0, b).0
  {
    assert [a][..0] == [] && [a, b][..1] == [a];
    assert Run(t, []) == t;
  }

  class ApprovalStore {
    var table: Table

    constructor (table: Table)
      ensures this.table == table
    {
      this.table := table;
    }

    method ApproveApproval(id: string, approvedBy: string, now: Time, fault: Fault) returns (r: Reply)
      modifies this
      ensures (table, r) == Approve(old(table), id, approvedBy, now, fault)
      ensures r.Ok? ==> id in table && table[id].status == Approved
    {
      if Blank(id) { return Err(EmptyID); }
      if Blank(approvedBy) { return Err(EmptyActor); }
      if fault == BeforeCommit { return Err(StoreFailed); }
      if id !in table { return Err(NotFound); }
      var a := table[id];
      if a.status == Approved { return Ok(()); }
      if IsTerminal(a.status) { return Err(InvalidTransition); }
      if now >= a.expiresAt {
        if fault != AtCommit { table := table[id := a.(status := Expired, updatedAt := now)]; }
        return Err(ApprovalExpired);
      }
      if fault == AtCommit { return Err(StoreFailed); }
      table := table[id := a.(status := Approved, approvedBy := approvedBy, updatedAt := now)];
      return Ok(());
    }

    method RejectApproval(id: string, rejectedBy: string, reason: string, now: Time, fault: Fault) returns (r: Reply)
      modifies this
      ensures (table, r) == Reject(old(table), id, rejectedBy, reason, now, fault)
      ensures r.Ok? ==> id in table && table[id].status == Rejected
    {
      if Blank(id) { return Err(EmptyID); }
      if Blank(rejectedBy) { return Err(EmptyActor); }
      if fault == BeforeCommit { return Err(StoreFailed); }
      if id !in table { return Err(NotFound); }
      var a := table[id];
      if a.status == Rejected { return Ok(()); }
      if a.status == Approved { return Err(CannotRejectApproved); }
      if IsTerminal(a.status) { return Err(InvalidTransition); }
      if fault == AtCommit { return Err(StoreFailed); }
      table := table[id := a.(status := Rejected, rejectedBy := rejectedBy, reason := reason, updatedAt := now)];
      return Ok(());
    }

    method CancelApproval(id: string, reason: string, now: Time, fault: Fault) returns (r: Reply)
      modifies this
      ensures (table, r) == Cancel(old(table), id, reason, now, fault)
      ensures r.Ok? ==> id in table && table[id].status == Cancelled
    {
      if Blank(id) { return Err(EmptyID); }
      if fault == BeforeCommit { return Err(StoreFailed); }
      if id !in table { return Err(NotFound); }
      var a := table[id];
      if a.status == Cancelled { return Ok(()); }
      if IsTerminal(a.status) { return Err(InvalidTransition); }
      if fault == AtCommit { return Err(StoreFailed); }
      table := table[id := a.(status := Cancelled, reason := reason, updatedAt := now)];
      return Ok(());
    }

    /** The guarded update first; only when it touches no row is the cause diagnosed. */
    method ConsumeApproval(id: string, now: Time, fault: Fault) returns (r: Reply)
      modifies this
      ensures (table, r) == Consume(old(table), id, now, fault)
      ensures r.Ok? <==>
        !Blank(id) && fault == NoFault && id in old(table) && old(table)[id].status == Approved
        && now < old(table)[id].expiresAt
      ensures r.Ok? ==> table == old(table)[id := old(table)[id].(status := Consumed, consumedAt := Some(now), updatedAt := now)]
    {
      if Blank(id) { return Err(EmptyID); }
      if fault == BeforeCommit { return Err(StoreFailed); }
      if id in table && table[id].status == Approved && table[id].expiresAt > now {
        if fault == AtCommit { return Err(StoreFailed); }
        table := table[id := table[id].(status := Consumed, consumedAt := Some(now), updatedAt := now)];
        return Ok(());
      }
      if id !in table { return Err(NotFound); }
      if table[id].status == Consumed { return Err(AlreadyConsumed); }
      if now >= table[id].expiresAt {
        if fault != AtCommit { table := table[id := table[id].(status := Expired, updatedAt := now)]; }
        return Err(ApprovalExpired);
      }
      return Err(InvalidTransition);
    }

    /** One UPDATE over all rows. */
    method ExpireStaleApprovals(now: Time, fault: Fault) returns (r: Reply)
      modifies this
      ensures (table, r) == ExpireStale(old(table), now, fault)
      ensures r.Ok? ==> forall id :: id in table ==> !Stale(table[id], now)
    {
      if fault != NoFault { return Err(StoreFailed); }
      table := map id | id in table :: if Stale(table[id], now) then table[id].(status := Expired, updatedAt := now) else table[id];
      return Ok(());
    }
  }
}
