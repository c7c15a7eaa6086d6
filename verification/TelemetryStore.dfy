/** The telemetry_batches table and its operations (edge/agent/storage/sqlite.go:487-852, 910-1034). Each
    operation is one atomic step. */
module TelemetryStore {
  import opened Common

  datatype Status = Pending | Syncing | Synced | Failed | Published

  datatype Batch = Batch(node: string, seqNo: int, attempt: int, status: Status, sentAt: Option<Time>, publishedAt: Option<Time>)

  /** Keyed by batch id. */
  type Table = map<string, Batch>

  datatype Error = DuplicateBatch | InvalidBatch | BatchNotFound | InvalidTransition | StoreFailed

  // ---- Operations ------------------------------------------------------------

  /** PersistBatch; `valid` is the outcome of the field-by-field TelemetryBatch.Validate. */
  function Persist(t: Table, id: string, b: Batch, valid: bool, fails: bool): Result<Table, Error> {
    if !valid then Err(InvalidBatch)
    else if fails then Err(StoreFailed)
    else if id in t then Err(DuplicateBatch)
    else Ok(t[id := b.(status := Pending, publishedAt := None)])
  }

  function MarkSynced(t: Table, id: string, at: Time, fails: bool): Result<Table, Error> {
    if fails then Err(StoreFailed) else if id !in t then Err(BatchNotFound)
    else Ok(t[id := t[id].(status := Synced, sentAt := Some(at))])
  }

  function MarkPublished(t: Table, id: string, at: Time, fails: bool): Result<Table, Error> {
    if fails then Err(StoreFailed) else if id !in t then Err(BatchNotFound)
    else Ok(t[id := t[id].(status := Published, publishedAt := Some(at))])
  }

  function RecordAttempt(t: Table, id: string, at: Time, fails: bool): Result<Table, Error> {
    if fails then Err(StoreFailed) else if id !in t then Err(BatchNotFound)
    else Ok(t[id := t[id].(attempt := t[id].attempt + 1, sentAt := Some(at))])
  }

  /** MarkBatchQuarantined: only from PENDING. */
  function Quarantine(t: Table, id: string, fails: bool): Result<Table, Error> {
    if fails then Err(StoreFailed) else if id !in t then Err(BatchNotFound)
    else if t[id].status != Pending then Err(InvalidTransition)
    else Ok(t[id := t[id].(status := Failed)])
  }

  /** RequeueQuarantinedBatch: only from FAILED, with a fresh attempt counter. */
  function Requeue(t: Table, id: string, fails: bool): Result<Table, Error> {
    if fails then Err(StoreFailed) else if id !in t then Err(BatchNotFound)
    else if t[id].status != Failed then Err(InvalidTransition)
    else Ok(t[id := t[id].(status := Pending, attempt := 0)])
  }

  predicate HasLater(t: Table, id: string)
    requires id in t
  {
    exists m :: m in t && t[m].node == t[id].node && t[m].seqNo > t[id].seqNo
  }

  /** Completed before the cutoff, and not the latest of its node. */
  predicate Prunable(t: Table, id: string, cutoff: Time) {
    && id in t
    && ((t[id].status == Synced && t[id].sentAt.Some? && t[id].sentAt.value < cutoff)
        || (t[id].status == Published && t[id].publishedAt.Some? && t[id].publishedAt.value < cutoff))
    && HasLater(t, id)
  }

  function PrunableIds(t: Table, cutoff: Time): set<string> {
    set id | id in t && Prunable(t, id, cutoff)
  }

  /** What the DELETE's subquery may select: the prunable batches of lowest sequence number, up to the limit. */
  predicate SelectsForPrune(t: Table, cutoff: Time, limit: int, chosen: set<string>) {
    && chosen <= PrunableIds(t, cutoff)
    && |chosen| == Min(if limit <= 0 then 100 else limit, |PrunableIds(t, cutoff)|)
    && forall a, b :: a in chosen && b in PrunableIds(t, cutoff) - chosen ==> t[a].seqNo <= t[b].seqNo
  }

  function Prune(t: Table, chosen: set<string>): Table {
    t - chosen
  }

  /** GetLatestSequenceNumber: `latest` is the highest sequence number of the node, or -1. */
  predicate IsLatest(t: Table, node: string, latest: int) {
    if exists id :: id in t && t[id].node == node then
      (exists id :: id in t && t[id].node == node && t[id].seqNo == latest)
      && (forall id :: id in t && t[id].node == node ==> t[id].seqNo <= latest)
    else latest == -1
  }

  // ---- The sequence high-water mark --------------------------------------------

  datatype Op =
    | PersistOp(id: string, b: Batch, valid: bool, fails: bool)
    | MarkSyncedOp(id: string, at: Time, fails: bool)
    | MarkPublishedOp(id: string, at: Time, fails: bool)
    | RecordAttemptOp(id: string, at: Time, fails: bool)
    | QuarantineOp(id: string, fails: bool)
    | RequeueOp(id: string, fails: bool)
    | PruneOp(cutoff: Time, limit: int, chosen: set<string>)

  /** The table together with every (node, sequence number) ever persisted. */
  datatype History = History(table: Table, persisted: set<(string, int)>)

  function Keep(t: Table, r: Result<Table, Error>): Table {
    if r.Ok? then r.value else t
  }

  function Apply(h: History, op: Op): History {
    var t := h.table;
    match op
    case PersistOp(id, b, valid, fails) =>
      var r := Persist(t, id, b, valid, fails);
      History(Keep(t, r), if r.Ok? then h.persisted + {(b.node, b.seqNo)} else h.persisted)
    case MarkSyncedOp(id, at, fails) => h.(table := Keep(t, MarkSynced(t, id, at, fails)))
    case MarkPublishedOp(id, at, fails) => h.(table := Keep(t, MarkPublished(t, id, at, fails)))
    case RecordAttemptOp(id, at, fails) => h.(table := Keep(t, RecordAttempt(t, id, at, fails)))
    case QuarantineOp(id, fails) => h.(table := Keep(t, Quarantine(t, id, fails)))
    case RequeueOp(id, fails) => h.(table := Keep(t, Requeue(t, id, fails)))
    case PruneOp(cutoff, limit, chosen) =>
      if SelectsForPrune(t, cutoff, limit, chosen) then h.(table := Prune(t, chosen)) else h
  }

  function Run(h: History, ops: seq<Op>): History {
    if ops == [] then h else Apply(Run(h, ops[..|ops| - 1]), ops[|ops| - 1])
  }

  predicate CoveredBy(t: Table, node: string, seqNo: int) {
    exists id :: id in t && t[id].node == node && t[id].seqNo >= seqNo
  }

  predicate Covered(h: History) {
    forall p :: p in h.persisted ==> CoveredBy(h.table, p.0, p.1)
  }

  /** The same batches with the same nodes and sequence numbers, whatever else changed. */
  predicate SameBatches(t: Table, t': Table) {
    t.Keys == t'.Keys && forall id :: id in t ==> t'[id].node == t[id].node && t'[id].seqNo == t[id].seqNo
  }

  lemma SameBatchesCover(t: Table, t': Table, node: string, seqNo: int)
    requires SameBatches(t, t') && CoveredBy(t, node, seqNo)
    ensures CoveredBy(t', node, seqNo)
  {
    var id :| id in t && t[id].node == node && t[id].seqNo >= seqNo;
    assert t'[id].node == node;
  }

  /** Some batch of the highest sequence number among those from `seqNo` on. */
  lemma {:induction false} Highest(t: Table, ids: set<string>, node: string, seqNo: int) returns (top: string)
    requires forall id :: id in ids ==> id in t && t[id].node == node && t[id].seqNo >= seqNo
    requires ids != {} && forall id :: id in t && t[id].node == node && t[id].seqNo >= seqNo ==> id in ids
    ensures top in ids && forall id :: id in t && t[id].node == node ==> t[id].seqNo <= t[top].seqNo
    decreases ids
  {
    var x :| x in ids;
    if forall id :: id in ids ==> t[id].seqNo <= t[x].seqNo {
      top := x;
    } else {
      var later := set id | id in ids && t[id].seqNo > t[x].seqNo;
      assert later < ids by { assert x !in later; }
      var y :| y in ids && t[y].seqNo > t[x].seqNo;
      assert y in later;
      top := Highest(t, later, node, t[x].seqNo + 1);
    }
  }

  /** Pruning never deletes a node's latest batch. */
  lemma PruneCovers(t: Table, chosen: set<string>, cutoff: Time, node: string, seqNo: int)
    requires chosen <= PrunableIds(t, cutoff) && CoveredBy(t, node, seqNo)
    ensures CoveredBy(Prune(t, chosen), node, seqNo)
  {
    var some :| some in t && t[some].node == node && t[some].seqNo >= seqNo;
    var ids := set id | id in t && t[id].node == node && t[id].seqNo >= seqNo;
    assert some in ids;
    var top := Highest(t, ids, node, seqNo);
    assert !HasLater(t, top);
    assert top in Prune(t, chosen);
  }

  lemma {:induction false} StepKeepsCovered(h: History, op: Op)
    requires Covered(h)
    ensures Covered(Apply(h, op))
  {
    var h' := Apply(h, op);
    if op.PruneOp? {
      if SelectsForPrune(h.table, op.cutoff, op.limit, op.chosen) {
        forall p | p in h'.persisted ensures CoveredBy(h'.table, p.0, p.1) {
          PruneCovers(h.table, op.chosen, op.cutoff, p.0, p.1);
        }
      }
    } else if op.PersistOp? {
      PersistCovers(h, op);
    } else {
      assert SameBatches(h.table, h'.table);
      hide SameBatches, CoveredBy;
      forall p | p in h'.persisted ensures CoveredBy(h'.table, p.0, p.1) {
        SameBatchesCover(h.table, h'.table, p.0, p.1);
      }
    }
  }

  lemma PersistCovers(h: History, op: Op)
    requires Covered(h) && op.PersistOp?
    ensures Covered(Apply(h, op))
  {
    var h' := Apply(h, op);
    forall p | p in h'.persisted ensures CoveredBy(h'.table, p.0, p.1) {
      if p in h.persisted {
        var id :| id in h.table && h.table[id].node == p.0 && h.table[id].seqNo >= p.1;
        assert h'.table[id].node == p.0;
      } else {
        assert h'.table[op.id].node == p.0;
      }
    }
  }

  lemma {:induction false} RunKeepsCovered(h: History, ops: seq<Op>)
    requires Covered(h)
    ensures Covered(Run(h, ops))
  {
    hide Covered, Apply;
    if ops != [] {
      RunKeepsCovered(h, ops[..|ops| - 1]);
      StepKeepsCovered(Run(h, ops[..|ops| - 1]), ops[|ops| - 1]);
    }
  }

  /** After any interleaving of persisting, syncing, quarantining, requeueing and pruning, the sequence number
      a restarted agent starts from (latest + 1) exceeds every number ever persisted for the node. */
  lemma {:induction false} NextSequenceIsNew(ops: seq<Op>, node: string, latest: int, seqNo: int)
    requires var h := Run(History(map[], {}), ops);
      IsLatest(h.table, node, latest) && (node, seqNo) in h.persisted
    ensures seqNo < latest + 1
  {
    RunKeepsCovered(History(map[], {}), ops);
    var h := Run(History(map[], {}), ops);
    assert CoveredBy(h.table, node, seqNo);
  }

  /** Pruning deletes only completed batches, and no batch that awaits synchronisation or requeueing. */
  lemma PruneDeletesOnlyCompleted(t: Table, cutoff: Time, limit: int, chosen: set<string>, id: string)
    requires SelectsForPrune(t, cutoff, limit, chosen) && id in t && id !in Prune(t, chosen)
    ensures t[id].status == Synced || t[id].status == Published
    ensures exists m :: m in Prune(t, chosen) && t[m].node == t[id].node && t[m].seqNo > t[id].seqNo
  {
    var node := t[id].node;
    assert Prunable(t, id, cutoff);
    var m :| m in t && t[m].node == node && t[m].seqNo > t[id].seqNo;
    assert CoveredBy(t, node, t[m].seqNo);
    PruneCovers(t, chosen, cutoff, node, t[m].seqNo);
  }

  predicate CompletedBefore(b: Batch, cutoff: Time) {
    (b.status == Synced && b.sentAt.Some? && b.sentAt.value < cutoff)
    || (b.status == Published && b.publishedAt.Some? && b.publishedAt.value < cutoff)
  }

  /** A later batch of its node is stored. */
  predicate Outrun(t: Table, id: string)
    requires id in t
  {
    exists m :: m in t && t[m].node == t[id].node && t[id].seqNo < t[m].seqNo
  }

  /** What a prune deletes: batches SYNCED or PUBLISHED before the cutoff that are not the latest of their node; all of
      them when the limit, 100 unless given, allows it, and otherwise those of the lowest sequence numbers. */
  lemma {:induction false} PruneDecides(t: Table, cutoff: Time, limit: int, chosen: set<string>, id: string, other: string)
    requires SelectsForPrune(t, cutoff, limit, chosen) && id in t && other in t
    ensures id in Prune(t, chosen) ==> Prune(t, chosen)[id] == t[id]
    ensures id !in Prune(t, chosen) ==> CompletedBefore(t[id], cutoff) && Outrun(t, id)
    ensures |t| - |Prune(t, chosen)| <= if limit <= 0 then 100 else limit
    ensures other in Prune(t, chosen) && CompletedBefore(t[other], cutoff) && Outrun(t, other) ==>
      && |t| - |Prune(t, chosen)| == (if limit <= 0 then 100 else limit)
      && (id !in Prune(t, chosen) ==> t[id].seqNo <= t[other].seqNo)
  {
    assert Prune(t, chosen).Keys == t.Keys - chosen && chosen <= t.Keys;
    if other in Prune(t, chosen) && CompletedBefore(t[other], cutoff) && Outrun(t, other) {
      assert Prunable(t, other, cutoff);
      assert other in PrunableIds(t, cutoff) - chosen;
      assert chosen < PrunableIds(t, cutoff);
      SmallerSubset(chosen, PrunableIds(t, cutoff));
    }
  }

  lemma SmallerSubset<T>(a: set<T>, b: set<T>)
    requires a < b
    ensures |a| < |b|
  {
    assert b == a + (b - a);
  }

  class BatchStore {
    var table: Table

    constructor ()
      ensures table == map[]
    {
      table := map[];
    }

    method PersistBatch(id: string, b: Batch, valid: bool, fails: bool) returns (err: Option<Error>)
      modifies this
      ensures table == Keep(old(table), Persist(old(table), id, b, valid, fails))
      ensures err.None? <==> valid && !fails && id !in old(table)
      ensures err.None? ==> table[id].status == Pending && table[id].node == b.node && table[id].seqNo == b.seqNo
    {
      if !valid { return Some(InvalidBatch); }
      if fails { return Some(StoreFailed); }
      if id in table { return Some(DuplicateBatch); }
      table := table[id := b.(status := Pending, publishedAt := None)];
      return None;
    }

    /** The highest sequence number of the node, -1 if it has no batch. */
    method GetLatestSequenceNumber(node: string) returns (latest: int)
      ensures IsLatest(table, node, latest)
    {
      latest := -1;
      var found, rest := false, table.Keys;
      while rest != {}
        invariant rest <= table.Keys
        invariant !found ==> latest == -1 && forall id :: id in table.Keys - rest ==> table[id].node != node
        invariant found ==> exists id :: id in table && table[id].node == node && table[id].seqNo == latest
        invariant found ==> forall id :: id in table.Keys - rest && table[id].node == node ==> table[id].seqNo <= latest
        decreases rest
      {
        var id :| id in rest;
        rest := rest - {id};
        if table[id].node == node && (!found || table[id].seqNo > latest) {
          found, latest := true, table[id].seqNo;
        }
      }
    }

    /** PruneCompletedBatches, given the rows its subquery selects. */
    method PruneCompletedBatches(cutoff: Time, limit: int, chosen: set<string>) returns (pruned: nat)
      requires SelectsForPrune(table, cutoff, limit, chosen)
      modifies this
      ensures table == Prune(old(table), chosen) && |table| + pruned == |old(table)| && pruned <= if limit <= 0 then 100 else limit
      ensures forall node, latest :: IsLatest(old(table), node, latest) ==> IsLatest(table, node, latest)
    {
      PruneKeepsLatest(table, cutoff, limit, chosen);
      table := table - chosen;
      pruned := |chosen|;
      assert table.Keys == old(table).Keys - chosen && chosen <= old(table).Keys;
    }
  }

  /** Pruning leaves every node's latest sequence number unchanged. */
  lemma {:induction false} PruneKeepsLatest(t: Table, cutoff: Time, limit: int, chosen: set<string>)
    requires SelectsForPrune(t, cutoff, limit, chosen)
    ensures forall node, latest :: IsLatest(t, node, latest) ==> IsLatest(Prune(t, chosen), node, latest)
  {
    forall node, latest | IsLatest(t, node, latest) ensures IsLatest(Prune(t, chosen), node, latest) {
      if top :| top in t && t[top].node == node && t[top].seqNo == latest {
        PruneCovers(t, chosen, cutoff, node, latest);
      }
    }
  }
}
