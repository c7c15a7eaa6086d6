/** The store-and-forward synchronisation cycle (edge/agent/sync/syncer.go:141-340). */
module TelemetrySync {
  import opened Common
  import opened TelemetryStore

  datatype Transport = Publisher | Client | NoTransport

  datatype Config = Config(maxAttempts: int, transport: Transport)

  /** Transport outcome, classified as isPermanentSyncError does. */
  datatype Delivery = Delivered | Transient | Permanent

  /** What one batch meets in a cycle: cancellation before and after it is sent, the transport's answer, and
      which store write fails. */
  datatype Try = Try(cancelledBefore: bool, delivery: Delivery, cancelledAfter: bool, markFails: bool,
                     quarantineFails: bool, attemptFails: bool, at: Time)

  /** `tries` by batch id; per node, the rows its query returns (None: the query failed) and whether the
      context is cancelled when the node's turn comes. */
  datatype Env = Env(tries: string -> Try, listing: string -> Option<seq<string>>, cancelled: string -> bool)

  datatype Failure = QueryFailed | MarkFailed | QuarantineFailed | TransportFailed

  datatype Stats = Stats(synced: nat, failed: nat, quarantined: nat, successes: map<string, nat>,
                         failures: map<string, Failure>, quarantines: map<string, nat>)

  /** A transmission, with the table at that moment. */
  datatype Sent = Sent(id: string, table: Table)

  datatype State = State(table: Table, stats: Stats, log: seq<Sent>)

  datatype Flow = Continue | Break | Cancel

  function Count(m: map<string, nat>, node: string): nat {
    if node in m then m[node] else 0
  }

  /** NewSyncer / WithMaxSyncAttempts. */
  function MaxAttempts(configured: int): (m: int)
    ensures m > 0 && (configured > 0 ==> m == configured) && (configured <= 0 ==> m == 10)
  {
    if configured > 0 then configured else 10
  }

  function Limit(limitPerNode: int): (n: int)
    ensures n > 0 && (limitPerNode > 0 ==> n == limitPerNode) && (limitPerNode <= 0 ==> n == 50)
  {
    if limitPerNode <= 0 then 50 else limitPerNode
  }

  // ---- Specification of a cycle ---------------------------------------------

  function Fail(s: State, node: string, why: Failure, counted: bool): State {
    s.(stats := s.stats.(failures := s.stats.failures[node := why], failed := s.stats.failed + if counted then 1 else 0))
  }

  function Succeed(s: State, node: string, t: Table): State {
    s.(table := t, stats := s.stats.(synced := s.stats.synced + 1,
                                     successes := s.stats.successes[node := Count(s.stats.successes, node) + 1]))
  }

  function SetAside(s: State, node: string, t: Table): State {
    s.(table := t, stats := s.stats.(quarantined := s.stats.quarantined + 1,
                                     quarantines := s.stats.quarantines[node := Count(s.stats.quarantines, node) + 1]))
  }

  function Mark(cfg: Config, t: Table, id: string, y: Try): Result<Table, Error> {
    if cfg.transport == Publisher then MarkPublished(t, id, y.at, y.markFails) else MarkSynced(t, id, y.at, y.markFails)
  }

  /** The body of the inner loop. */
  function TryBatch(cfg: Config, s: State, node: string, id: string, y: Try): (State, Flow)
    requires id in s.table
  {
    if y.cancelledBefore then (s, Cancel)
    else if cfg.transport == NoTransport then (s, Break)
    else
      var sent := s.(log := s.log + [Sent(id, s.table)]);
      if y.delivery == Delivered then
        var r := Mark(cfg, s.table, id, y);
        if r.Err? then (Fail(sent, node, MarkFailed, false), Break) else (Succeed(sent, node, r.value), Continue)
      else if y.cancelledAfter then (sent, Cancel)
      else if y.delivery == Permanent || s.table[id].attempt + 1 >= cfg.maxAttempts then
        var r := Quarantine(s.table, id, y.quarantineFails);
        if r.Err? then (Fail(sent, node, QuarantineFailed, true), Break) else (SetAside(sent, node, r.value), Continue)
      else
        (Fail(sent.(table := Keep(s.table, RecordAttempt(s.table, id, y.at, y.attemptFails))), node, TransportFailed, true), Break)
  }

  lemma TryKeepsKeys(cfg: Config, s: State, node: string, id: string, y: Try)
    requires id in s.table
    ensures TryBatch(cfg, s, node, id, y).0.table.Keys == s.table.Keys
  {
  }

  /** One node: its batches in order until one halts it; true: the cycle is cancelled. */
  function SyncNode(cfg: Config, s: State, node: string, ids: seq<string>, tries: string -> Try): (State, bool)
    requires forall id :: id in ids ==> id in s.table
    decreases |ids|
  {
    if ids == [] then (s, false)
    else
      var (s', flow) := TryBatch(cfg, s, node, ids[0], tries(ids[0]));
      TryKeepsKeys(cfg, s, node, ids[0], tries(ids[0]));
      match flow
      case Continue => SyncNode(cfg, s', node, ids[1..], tries)
      case Break => (s', false)
      case Cancel => (s', true)
  }

  lemma {:induction false} NodeKeepsKeys(cfg: Config, s: State, node: string, ids: seq<string>, tries: string -> Try)
    requires forall id :: id in ids ==> id in s.table
    ensures SyncNode(cfg, s, node, ids, tries).0.table.Keys == s.table.Keys
    decreases |ids|
  {
    if ids != [] {
      TryKeepsKeys(cfg, s, node, ids[0], tries(ids[0]));
      var (s', flow) := TryBatch(cfg, s, node, ids[0], tries(ids[0]));
      if flow.Continue? { NodeKeepsKeys(cfg, s', node, ids[1..], tries); }
    }
  }

  predicate ListingsIn(t: Table, env: Env, nodes: seq<string>) {
    forall n, id :: n in nodes && env.listing(n).Some? && id in env.listing(n).value ==> id in t
  }

  /** The outer loop; true: the cycle returned early, cancelled. */
  function SyncNodes(cfg: Config, s: State, nodes: seq<string>, env: Env): (State, bool)
    requires ListingsIn(s.table, env, nodes)
    decreases |nodes|
  {
    if nodes == [] then (s, false)
    else if env.cancelled(nodes[0]) then (s, true)
    else if env.listing(nodes[0]).None? then SyncNodes(cfg, Fail(s, nodes[0], QueryFailed, false), nodes[1..], env)
    else
      var (s', stop) := SyncNode(cfg, s, nodes[0], env.listing(nodes[0]).value, env.tries);
      NodeKeepsKeys(cfg, s, nodes[0], env.listing(nodes[0]).value, env.tries);
      if stop then (s', true) else SyncNodes(cfg, s', nodes[1..], env)
  }

  function Fresh(t: Table): State {
    State(t, Stats(0, 0, 0, map[], map[], map[]), [])
  }

  predicate IsPending(t: Table, id: string) {
    id in t && t[id].status == Pending
  }

  /** What GetPendingBatchesByNode may return: pending batches of the node in sequence order, the lowest up to
      the limit; equal sequence numbers in any order. */
  predicate IsListing(t: Table, node: string, limit: int, ids: seq<string>) {
    && (forall i :: 0 <= i < |ids| ==> IsPending(t, ids[i]) && t[ids[i]].node == node)
    && (forall i, j :: 0 <= i < j < |ids| ==> ids[i] != ids[j] && t[ids[i]].seqNo <= t[ids[j]].seqNo)
    && |ids| <= limit
    && (forall id, i :: id in t && IsPendingOf(t, id, node) && id !in ids && 0 <= i < |ids| ==> t[ids[i]].seqNo <= t[id].seqNo)
    && (|ids| < limit ==> forall id :: id in t && IsPendingOf(t, id, node) ==> id in ids)
  }

  predicate IsPendingOf(t: Table, id: string, node: string) {
    id in t && t[id].status == Pending && t[id].node == node
  }

  /** What GetPendingNodes returns: every node with a pending batch, once. */
  predicate IsNodeList(t: Table, nodes: seq<string>) {
    && (forall i, j :: 0 <= i < j < |nodes| ==> nodes[i] != nodes[j])
    && (forall n :: n in nodes ==> exists id :: id in t && IsPendingOf(t, id, n))
    && (forall id :: id in t && t[id].status == Pending ==> t[id].node in nodes)
  }

  predicate EnvOk(t: Table, limit: int, nodes: seq<string>, env: Env) {
    forall n :: n in nodes && env.listing(n).Some? ==> IsListing(t, n, limit, env.listing(n).value)
  }

  // ---- What one batch changes -------------------------------------------------

  /** Only the row `id` changes, and it keeps its node and sequence number. */
  predicate ChangesOnly(t: Table, t': Table, id: string) {
    && t'.Keys == t.Keys && id in t && t'[id].node == t[id].node && t'[id].seqNo == t[id].seqNo
    && forall j :: j in t && j != id ==> t'[j] == t[j]
  }

  lemma TryChanges(cfg: Config, s: State, node: string, id: string, y: Try)
    requires id in s.table
    ensures var (s', flow) := TryBatch(cfg, s, node, id, y);
      && ChangesOnly(s.table, s'.table, id)
      && (s.table[id].status != Pending ==> s'.table[id].status != Pending)
      && (flow == Continue ==> s'.table[id].status != Pending)
      && (s'.log == s.log || s'.log == s.log + [Sent(id, s.table)])
  {
  }

  // ---- Conservation -----------------------------------------------------------

  function PendingIds(t: Table): set<string> {
    set id | id in t && t[id].status == Pending
  }

  /** No batch is lost or invented, and the books balance. */
  ghost predicate Balanced(t0: Table, s: State) {
    && SameBatches(t0, s.table)
    && |PendingIds(t0)| == |PendingIds(s.table)| + s.stats.synced + s.stats.quarantined
    && Sum(s.stats.successes) == s.stats.synced
    && Sum(s.stats.quarantines) == s.stats.quarantined
  }

  lemma OneLessPending(t: Table, t': Table, id: string)
    requires ChangesOnly(t, t', id) && t[id].status == Pending && t'[id].status != Pending
    ensures |PendingIds(t')| == |PendingIds(t)| - 1
  {
    assert PendingIds(t') == PendingIds(t) - {id};
  }

  lemma SamePending(t: Table, t': Table, id: string)
    requires ChangesOnly(t, t', id) && t[id].status == t'[id].status
    ensures PendingIds(t') == PendingIds(t)
  {
  }

  lemma SameBatchesTrans(t0: Table, t: Table, t': Table, id: string)
    requires SameBatches(t0, t) && ChangesOnly(t, t', id)
    ensures SameBatches(t0, t')
  {
    forall j | j in t0 ensures t'[j].node == t0[j].node && t'[j].seqNo == t0[j].seqNo { assert t[j].node == t0[j].node; }
  }

  lemma CompletionBalances(t0: Table, s: State, node: string, id: string, t': Table)
    requires Balanced(t0, s) && ChangesOnly(s.table, t', id) && s.table[id].status == Pending && t'[id].status != Pending
    ensures Balanced(t0, Succeed(s, node, t')) && Balanced(t0, SetAside(s, node, t'))
  {
    hide PendingIds, SameBatches, ChangesOnly, Sum;
    SameBatchesTrans(t0, s.table, t', id);
    OneLessPending(s.table, t', id);
    SumUpdate(s.stats.successes, node, Count(s.stats.successes, node) + 1);
    SumUpdate(s.stats.quarantines, node, Count(s.stats.quarantines, node) + 1);
  }

  lemma FailureBalances(t0: Table, s: State, node: string, why: Failure, counted: bool, id: string, t': Table)
    requires Balanced(t0, s) && ChangesOnly(s.table, t', id) && t'[id].status == s.table[id].status
    ensures Balanced(t0, Fail(s.(table := t'), node, why, counted))
  {
    SameBatchesTrans(t0, s.table, t', id);
    SamePending(s.table, t', id);
    hide PendingIds, SameBatches, ChangesOnly, Sum;
  }

  lemma TryKeepsBalance(cfg: Config, t0: Table, s: State, node: string, id: string, y: Try)
    requires IsPending(s.table, id) && Balanced(t0, s)
    ensures Balanced(t0, TryBatch(cfg, s, node, id, y).0)
  {
    hide Balanced, ChangesOnly;
    var s' := TryBatch(cfg, s, node, id, y).0;
    TryChanges(cfg, s, node, id, y);
    var sent := s.(log := s.log + [Sent(id, s.table)]);
    LogIsApart(t0, s, sent.log);
    if s'.stats.synced != s.stats.synced || s'.stats.quarantined != s.stats.quarantined {
      CompletionBalances(t0, sent, node, id, s'.table);
    } else if s'.stats != s.stats {
      FailureBalances(t0, sent, node, s'.stats.failures[node], s'.stats.failed != s.stats.failed, id, s'.table);
    }
  }

  lemma LogIsApart(t0: Table, s: State, log: seq<Sent>)
    requires Balanced(t0, s)
    ensures Balanced(t0, s.(log := log))
  {
  }

  predicate AllPending(t: Table, ids: seq<string>) {
    && (forall i :: 0 <= i < |ids| ==> IsPending(t, ids[i]))
    && (forall i, j :: 0 <= i < j < |ids| ==> ids[i] != ids[j])
  }

  lemma RestPending(t: Table, t': Table, ids: seq<string>)
    requires ids != [] && AllPending(t, ids) && ChangesOnly(t, t', ids[0])
    ensures AllPending(t', ids[1..])
  {
  }

  lemma {:induction false} NodeKeepsBalance(cfg: Config, t0: Table, s: State, node: string, ids: seq<string>,
          tries: string -> Try)
    requires AllPending(s.table, ids) && Balanced(t0, s)
    ensures Balanced(t0, SyncNode(cfg, s, node, ids, tries).0)
    decreases |ids|
  {
    hide Balanced, ChangesOnly, TryBatch;
    if ids != [] {
      var (s', flow) := TryBatch(cfg, s, node, ids[0], tries(ids[0]));
      TryChanges(cfg, s, node, ids[0], tries(ids[0]));
      TryKeepsBalance(cfg, t0, s, node, ids[0], tries(ids[0]));
      if flow.Continue? {
        RestPending(s.table, s'.table, ids);
        NodeKeepsBalance(cfg, t0, s', node, ids[1..], tries);
      }
    }
  }

  // ---- Nodes do not disturb each other -----------------------------------------

  /** Only rows of the node change. */
  predicate ChangesNode(t: Table, t': Table, node: string) {
    && t'.Keys == t.Keys
    && forall j :: j in t ==> t'[j].node == t[j].node && t'[j].seqNo == t[j].seqNo && (t[j].node != node ==> t'[j] == t[j])
  }

  lemma {:induction false} NodeChanges(cfg: Config, s: State, node: string, ids: seq<string>, tries: string -> Try)
    requires forall id :: id in ids ==> id in s.table && s.table[id].node == node
    ensures ChangesNode(s.table, SyncNode(cfg, s, node, ids, tries).0.table, node)
    decreases |ids|
  {
    if ids != [] {
      var (s', flow) := TryBatch(cfg, s, node, ids[0], tries(ids[0]));
      TryChanges(cfg, s, node, ids[0], tries(ids[0]));
      hide TryBatch;
      if flow.Continue? { NodeChanges(cfg, s', node, ids[1..], tries); }
    }
  }

  lemma ListingStays(t: Table, t': Table, other: string, node: string, limit: int, ids: seq<string>)
    requires ChangesNode(t, t', other) && node != other && IsListing(t, node, limit, ids)
    ensures IsListing(t', node, limit, ids)
  {
  }

  lemma EnvStays(t: Table, t': Table, limit: int, nodes: seq<string>, env: Env)
    requires nodes != [] && EnvOk(t, limit, nodes, env) && ChangesNode(t, t', nodes[0])
    requires forall i, j :: 0 <= i < j < |nodes| ==> nodes[i] != nodes[j]
    ensures EnvOk(t', limit, nodes[1..], env)
  {
    hide IsListing, ChangesNode;
    forall n | n in nodes[1..] && env.listing(n).Some? ensures IsListing(t', n, limit, env.listing(n).value) {
      ListingStays(t, t', nodes[0], n, limit, env.listing(n).value);
    }
  }

  lemma EnvLists(t: Table, limit: int, nodes: seq<string>, env: Env)
    requires EnvOk(t, limit, nodes, env)
    ensures ListingsIn(t, env, nodes)
  {
  }

  predicate Distinct(nodes: seq<string>) {
    forall i, j :: 0 <= i < j < |nodes| ==> nodes[i] != nodes[j]
  }

  lemma {:induction false} NodesKeepBalance(cfg: Config, t0: Table, s: State, limit: int, nodes: seq<string>, env: Env)
    requires EnvOk(s.table, limit, nodes, env) && Distinct(nodes) && Balanced(t0, s)
    requires ListingsIn(s.table, env, nodes)
    ensures Balanced(t0, SyncNodes(cfg, s, nodes, env).0)
    decreases |nodes|
  {
    if nodes != [] && !env.cancelled(nodes[0]) {
      var n := nodes[0];
      if env.listing(n).None? {
        hide EnvOk, SyncNode;
        EnvTail(s.table, limit, nodes, env);
        EnvLists(s.table, limit, nodes[1..], env);
        NodesKeepBalance(cfg, t0, Fail(s, n, QueryFailed, false), limit, nodes[1..], env);
      } else {
        var ids := env.listing(n).value;
        assert IsListing(s.table, n, limit, ids);
        NodeKeepsBalance(cfg, t0, s, n, ids, env.tries);
        NodeChanges(cfg, s, n, ids, env.tries);
        hide Balanced, SyncNode, IsListing;
        var (s', stop) := SyncNode(cfg, s, n, ids, env.tries);
        EnvStays(s.table, s'.table, limit, nodes, env);
        EnvLists(s'.table, limit, nodes[1..], env);
        if !stop { NodesKeepBalance(cfg, t0, s', limit, nodes[1..], env); }
      }
    }
  }

  lemma EnvTail(t: Table, limit: int, nodes: seq<string>, env: Env)
    requires nodes != [] && EnvOk(t, limit, nodes, env)
    ensures EnvOk(t, limit, nodes[1..], env)
  {
  }

  /** A cycle conserves batches on every exit path, cancellation included: the same batches are stored, and
      the drop in PENDING batches is what was synced plus what was quarantined, node by node. */
  lemma {:induction false} CycleConserves(cfg: Config, t: Table, limitPerNode: int, nodes: seq<string>, env: Env)
    requires EnvOk(t, Limit(limitPerNode), nodes, env) && Distinct(nodes)
    requires ListingsIn(t, env, nodes)
    ensures Balanced(t, SyncNodes(cfg, Fresh(t), nodes, env).0)
  {
    NodesKeepBalance(cfg, t, Fresh(t), Limit(limitPerNode), nodes, env);
  }

  // ---- Per-node order ---------------------------------------------------------

  /** A batch was sent while pending, and no batch of its node with a smaller sequence number was pending. */
  predicate InOrder(e: Sent) {
    IsPending(e.table, e.id) &&
    forall b :: b in e.table && e.table[b].node == e.table[e.id].node && e.table[b].seqNo < e.table[e.id].seqNo ==>
      e.table[b].status != Pending
  }

  /** When `later` was sent, what its node sent before was no longer pending. */
  predicate Follows(earlier: Sent, later: Sent) {
    earlier.id in earlier.table && later.id in later.table && earlier.table[earlier.id].node == later.table[later.id].node ==>
      earlier.id in later.table && later.table[earlier.id].status != Pending
  }

  predicate LogOk(log: seq<Sent>) {
    && (forall k :: 0 <= k < |log| ==> InOrder(log[k]))
    && (forall j, k :: 0 <= j < k < |log| ==> Follows(log[j], log[k]))
  }

  /** Everything the node has sent so far is no longer pending in `t`. */
  predicate Settled(log: seq<Sent>, t: Table, node: string) {
    forall k :: 0 <= k < |log| && log[k].id in log[k].table && log[k].table[log[k].id].node == node ==>
      log[k].id in t && t[log[k].id].status != Pending
  }

  predicate Unsent(log: seq<Sent>, node: string) {
    forall k :: 0 <= k < |log| && log[k].id in log[k].table ==> log[k].table[log[k].id].node != node
  }

  /** `ids` come next: pending batches of the node in order, before any other pending batch of the node. */
  predicate Ready(t: Table, node: string, ids: seq<string>) {
    && AllPending(t, ids)
    && (forall i :: 0 <= i < |ids| ==> t[ids[i]].node == node)
    && (forall i, j :: 0 <= i < j < |ids| ==> t[ids[i]].seqNo <= t[ids[j]].seqNo)
    && (forall b, i :: b in t && IsPendingOf(t, b, node) && b !in ids && 0 <= i < |ids| ==> t[ids[i]].seqNo <= t[b].seqNo)
  }

  lemma ListingIsReady(t: Table, node: string, limit: int, ids: seq<string>)
    requires IsListing(t, node, limit, ids)
    ensures Ready(t, node, ids)
  {
  }

  lemma RestReady(t: Table, t': Table, node: string, ids: seq<string>)
    requires ids != [] && Ready(t, node, ids) && ChangesOnly(t, t', ids[0]) && t'[ids[0]].status != Pending
    ensures Ready(t', node, ids[1..])
  {
    RestPending(t, t', ids);
    forall b, i | b in t' && IsPendingOf(t', b, node) && b !in ids[1..] && 0 <= i < |ids[1..]|
      ensures t'[ids[1..][i]].seqNo <= t'[b].seqNo
    {
      assert b !in ids && IsPendingOf(t, b, node);
      assert ids[1..][i] == ids[i + 1];
    }
  }

  lemma FirstIsInOrder(t: Table, node: string, ids: seq<string>)
    requires ids != [] && Ready(t, node, ids)
    ensures InOrder(Sent(ids[0], t))
  {
    forall b | b in t && IsPendingOf(t, b, node) ensures t[ids[0]].seqNo <= t[b].seqNo {
      if b !in ids { assert IsPendingOf(t, b, node) && b !in ids; }
    }
  }

  lemma AppendSent(log: seq<Sent>, t: Table, node: string, id: string)
    requires LogOk(log) && Settled(log, t, node) && InOrder(Sent(id, t)) && t[id].node == node
    ensures LogOk(log + [Sent(id, t)])
  {
    hide InOrder;
    var log' := log + [Sent(id, t)];
    forall j, k | 0 <= j < k < |log'| ensures Follows(log'[j], log'[k]) {
      if k < |log| { assert Follows(log[j], log[k]); }
    }
  }

  lemma StaysSettled(log: seq<Sent>, t: Table, t': Table, node: string, id: string)
    requires Settled(log, t, node) && ChangesOnly(t, t', id) && t'[id].status != Pending && t[id].node == node
    ensures Settled(log + [Sent(id, t)], t', node) && Settled(log, t', node)
  {
  }

  predicate OnlyOf(log: seq<Sent>, from: nat, node: string) {
    forall k :: from <= k < |log| ==> log[k].id in log[k].table && log[k].table[log[k].id].node == node
  }

  lemma {:induction false} NodeKeepsOrder(cfg: Config, s: State, node: string, ids: seq<string>, tries: string -> Try)
    requires Ready(s.table, node, ids) && LogOk(s.log) && Settled(s.log, s.table, node)
    ensures var s' := SyncNode(cfg, s, node, ids, tries).0;
      LogOk(s'.log) && |s.log| <= |s'.log| && s'.log[..|s.log|] == s.log && OnlyOf(s'.log, |s.log|, node)
    decreases |ids|
  {
    hide Ready, LogOk, Settled, ChangesOnly, TryBatch, InOrder;
    if ids != [] {
      var id := ids[0];
      ReadyFirst(s.table, node, ids);
      var (s', flow) := TryBatch(cfg, s, node, id, tries(id));
      TryChanges(cfg, s, node, id, tries(id));
      FirstIsInOrder(s.table, node, ids);
      AppendSent(s.log, s.table, node, id);
      if flow.Continue? {
        RestReady(s.table, s'.table, node, ids);
        StaysSettled(s.log, s.table, s'.table, node, id);
        NodeKeepsOrder(cfg, s', node, ids[1..], tries);
      }
    }
  }

  lemma ReadyFirst(t: Table, node: string, ids: seq<string>)
    requires ids != [] && Ready(t, node, ids)
    ensures (forall id :: id in ids ==> id in t) && t[ids[0]].node == node
  {
  }

  predicate AllUnsent(log: seq<Sent>, nodes: seq<string>) {
    forall i :: 0 <= i < |nodes| ==> Unsent(log, nodes[i])
  }

  lemma UnsentRest(log: seq<Sent>, log': seq<Sent>, nodes: seq<string>)
    requires nodes != [] && Distinct(nodes) && AllUnsent(log, nodes)
    requires |log| <= |log'| && log'[..|log|] == log && OnlyOf(log', |log|, nodes[0])
    ensures AllUnsent(log', nodes[1..])
  {
    forall i | 0 <= i < |nodes[1..]| ensures Unsent(log', nodes[1..][i]) {
      assert nodes[1..][i] == nodes[i + 1];
      assert Unsent(log, nodes[i + 1]);
      forall k | 0 <= k < |log'| && log'[k].id in log'[k].table ensures log'[k].table[log'[k].id].node != nodes[i + 1] {
        if k < |log| { assert log'[k] == log[k]; }
      }
    }
  }

  lemma UnsentIsSettled(log: seq<Sent>, t: Table, nodes: seq<string>)
    requires nodes != [] && AllUnsent(log, nodes)
    ensures Settled(log, t, nodes[0]) && AllUnsent(log, nodes[1..])
  {
    assert Unsent(log, nodes[0]);
  }

  lemma {:induction false} NodesKeepOrder(cfg: Config, s: State, limit: int, nodes: seq<string>, env: Env)
    requires EnvOk(s.table, limit, nodes, env) && Distinct(nodes) && ListingsIn(s.table, env, nodes)
    requires LogOk(s.log) && AllUnsent(s.log, nodes)
    ensures LogOk(SyncNodes(cfg, s, nodes, env).0.log)
    decreases |nodes|
  {
    if nodes != [] && !env.cancelled(nodes[0]) {
      var n := nodes[0];
      UnsentIsSettled(s.log, s.table, nodes);
      if env.listing(n).None? {
        hide EnvOk, SyncNode, LogOk, AllUnsent;
        EnvTail(s.table, limit, nodes, env);
        EnvLists(s.table, limit, nodes[1..], env);
        NodesKeepOrder(cfg, Fail(s, n, QueryFailed, false), limit, nodes[1..], env);
      } else {
        var ids := env.listing(n).value;
        assert IsListing(s.table, n, limit, ids);
        NodeChanges(cfg, s, n, ids, env.tries);
        hide SyncNode, IsListing, EnvOk, LogOk, AllUnsent, Settled, OnlyOf;
        ListingIsReady(s.table, n, limit, ids);
        NodeKeepsOrder(cfg, s, n, ids, env.tries);
        var (s', stop) := SyncNode(cfg, s, n, ids, env.tries);
        EnvStays(s.table, s'.table, limit, nodes, env);
        EnvLists(s'.table, limit, nodes[1..], env);
        UnsentRest(s.log, s'.log, nodes);
        if !stop { NodesKeepOrder(cfg, s', limit, nodes[1..], env); }
      }
    }
  }

  /** Whenever a cycle transmits a batch, no batch of that node with a smaller sequence number is pending; and
      a node transmits again only after its previous batch stopped being pending, so a transient failure or
      a failed store write halts that node for the cycle. */
  lemma {:induction false} CycleTransmitsInOrder(cfg: Config, t: Table, limitPerNode: int, nodes: seq<string>, env: Env)
    requires EnvOk(t, Limit(limitPerNode), nodes, env) && Distinct(nodes) && ListingsIn(t, env, nodes)
    ensures LogOk(SyncNodes(cfg, Fresh(t), nodes, env).0.log)
  {
    NodesKeepOrder(cfg, Fresh(t), Limit(limitPerNode), nodes, env);
  }

  // ---- Failure isolation --------------------------------------------------------

  /** The rows of a node in `t` are the same in `t0`. */
  predicate RowsAgree(t: Table, t0: Table, node: string) {
    forall id :: id in t && t[id].node == node ==> id in t0 && t0[id] == t[id]
  }

  lemma TryIsLocal(cfg: Config, s: State, s0: State, node: string, id: string, y: Try)
    requires id in s.table && id in s0.table && s.table[id] == s0.table[id]
    ensures var (r, flow) := TryBatch(cfg, s, node, id, y);
      var (r0, flow0) := TryBatch(cfg, s0, node, id, y);
      flow == flow0 && r.table.Keys == s.table.Keys && r0.table.Keys == s0.table.Keys && r.table[id] == r0.table[id]
  {
  }

  lemma ChangeKeepsAgreement(t: Table, t': Table, t0: Table, t0': Table, id: string, node: string)
    requires ChangesOnly(t, t', id) && ChangesOnly(t0, t0', id) && t'[id] == t0'[id] && RowsAgree(t, t0, node)
    ensures RowsAgree(t', t0', node)
  {
  }

  /** What the cycle does to a node's rows depends on nothing but those rows. */
  lemma {:induction false} NodeIsLocal(cfg: Config, s: State, s0: State, node: string, ids: seq<string>,
          tries: string -> Try)
    requires forall id :: id in ids ==> id in s.table && s.table[id].node == node && id in s0.table
    requires RowsAgree(s.table, s0.table, node)
    ensures var (r, stop) := SyncNode(cfg, s, node, ids, tries);
      var (r0, stop0) := SyncNode(cfg, s0, node, ids, tries);
      stop == stop0 && RowsAgree(r.table, r0.table, node)
    decreases |ids|
  {
    if ids != [] {
      var id := ids[0];
      assert s.table[id] == s0.table[id];
      var (s', flow) := TryBatch(cfg, s, node, id, tries(id));
      var (s0', flow0) := TryBatch(cfg, s0, node, id, tries(id));
      TryChanges(cfg, s, node, id, tries(id));
      TryChanges(cfg, s0, node, id, tries(id));
      TryIsLocal(cfg, s, s0, node, id, tries(id));
      hide TryBatch, RowsAgree;
      ChangeKeepsAgreement(s.table, s'.table, s0.table, s0'.table, id, node);
      if flow.Continue? { NodeIsLocal(cfg, s', s0', node, ids[1..], tries); }
    }
  }

  lemma OtherRowsAgree(t: Table, t': Table, t0: Table, other: string, n: string)
    requires ChangesNode(t, t', other) && n != other && RowsAgree(t, t0, n)
    ensures RowsAgree(t', t0, n)
  {
  }

  /** Nodes that are not synchronised keep their rows. */
  lemma {:induction false} OthersKeepRows(cfg: Config, s: State, t0: Table, limit: int, nodes: seq<string>, env: Env,
          n: string)
    requires EnvOk(s.table, limit, nodes, env) && Distinct(nodes) && ListingsIn(s.table, env, nodes)
    requires n !in nodes && RowsAgree(s.table, t0, n)
    ensures RowsAgree(SyncNodes(cfg, s, nodes, env).0.table, t0, n)
    decreases |nodes|
  {
    if nodes != [] && !env.cancelled(nodes[0]) {
      if env.listing(nodes[0]).None? {
        hide EnvOk, SyncNode, RowsAgree;
        EnvTail(s.table, limit, nodes, env);
        EnvLists(s.table, limit, nodes[1..], env);
        OthersKeepRows(cfg, Fail(s, nodes[0], QueryFailed, false), t0, limit, nodes[1..], env, n);
      } else {
        var ids := env.listing(nodes[0]).value;
        assert IsListing(s.table, nodes[0], limit, ids);
        NodeChanges(cfg, s, nodes[0], ids, env.tries);
        hide SyncNode, IsListing, EnvOk, RowsAgree;
        var (s', stop) := SyncNode(cfg, s, nodes[0], ids, env.tries);
        EnvStays(s.table, s'.table, limit, nodes, env);
        EnvLists(s'.table, limit, nodes[1..], env);
        OtherRowsAgree(s.table, s'.table, t0, nodes[0], n);
        if !stop { OthersKeepRows(cfg, s', t0, limit, nodes[1..], env, n); }
      }
    }
  }

  /** Whatever fails for other nodes, an uncancelled cycle does to a node's rows what it would do if that node
      were the only one. */
  lemma {:induction false} NodesAreIsolated(cfg: Config, s: State, t0: Table, limit: int, nodes: seq<string>,
          env: Env, n: string)
    requires EnvOk(s.table, limit, nodes, env) && Distinct(nodes) && ListingsIn(s.table, env, nodes)
    requires n in nodes && env.listing(n).Some? && RowsAgree(s.table, t0, n) && s.table.Keys == t0.Keys
    requires !SyncNodes(cfg, s, nodes, env).1
    ensures forall id :: id in env.listing(n).value ==> id in t0
    ensures RowsAgree(SyncNodes(cfg, s, nodes, env).0.table,
                      SyncNode(cfg, Fresh(t0), n, env.listing(n).value, env.tries).0.table, n)
    decreases |nodes|
  {
    assert forall id :: id in env.listing(n).value ==> id in s.table;
    var m := nodes[0];
    if env.listing(m).None? {
      hide EnvOk, SyncNode, RowsAgree;
      EnvTail(s.table, limit, nodes, env);
      EnvLists(s.table, limit, nodes[1..], env);
      NodesAreIsolated(cfg, Fail(s, m, QueryFailed, false), t0, limit, nodes[1..], env, n);
    } else {
      var ids := env.listing(m).value;
      assert IsListing(s.table, m, limit, ids);
      NodeChanges(cfg, s, m, ids, env.tries);
      hide SyncNode, IsListing, EnvOk, RowsAgree;
      var (s', stop) := SyncNode(cfg, s, m, ids, env.tries);
      EnvStays(s.table, s'.table, limit, nodes, env);
      EnvLists(s'.table, limit, nodes[1..], env);
      if m == n {
        NodeIsLocal(cfg, s, Fresh(t0), n, ids, env.tries);
        OthersKeepRows(cfg, s', SyncNode(cfg, Fresh(t0), n, ids, env.tries).0.table, limit, nodes[1..], env, n);
      } else {
        OtherRowsAgree(s.table, s'.table, t0, m, n);
        NodesAreIsolated(cfg, s', t0, limit, nodes[1..], env, n);
      }
    }
  }

  // ---- What becomes of each batch ------------------------------------------------

  /** A cycle leaves a batch as it is, or does to it what the one answer to its transmission calls for. */
  predicate Explained(cfg: Config, b: Batch, b': Batch, y: Try) {
    || b' == b
    || (y.delivery == Delivered && cfg.transport == Publisher && b' == b.(status := Published, publishedAt := Some(y.at)))
    || (y.delivery == Delivered && cfg.transport == Client && b' == b.(status := Synced, sentAt := Some(y.at)))
    || (y.delivery != Delivered && (y.delivery == Permanent || b.attempt + 1 >= cfg.maxAttempts) && b' == b.(status := Failed))
    || (y.delivery == Transient && b.attempt + 1 < cfg.maxAttempts && b' == b.(attempt := b.attempt + 1, sentAt := Some(y.at)))
  }

  lemma TryIsExplained(cfg: Config, s: State, node: string, id: string, y: Try)
    requires IsPending(s.table, id)
    ensures Explained(cfg, s.table[id], TryBatch(cfg, s, node, id, y).0.table[id], y)
  {
  }

  predicate AllExplained(cfg: Config, t: Table, t': Table, ids: seq<string>, tries: string -> Try) {
    t'.Keys == t.Keys && forall id :: id in t ==>
      if id in ids then Explained(cfg, t[id], t'[id], tries(id)) else t'[id] == t[id]
  }

  lemma {:induction false} NodeIsExplained(cfg: Config, s: State, node: string, ids: seq<string>, tries: string -> Try)
    requires AllPending(s.table, ids)
    ensures AllExplained(cfg, s.table, SyncNode(cfg, s, node, ids, tries).0.table, ids, tries)
    decreases |ids|
  {
    if ids != [] {
      var id := ids[0];
      var (s', flow) := TryBatch(cfg, s, node, id, tries(id));
      TryChanges(cfg, s, node, id, tries(id));
      TryIsExplained(cfg, s, node, id, tries(id));
      hide TryBatch, Explained;
      if flow.Continue? {
        RestPending(s.table, s'.table, ids);
        NodeIsExplained(cfg, s', node, ids[1..], tries);
        assert id !in ids[1..];
        ExplainedBefore(cfg, s.table, s'.table, SyncNode(cfg, s', node, ids[1..], tries).0.table, ids, tries);
      } else {
        ExplainedNow(cfg, s.table, s'.table, ids, tries);
      }
    } else {
      hide Explained;
    }
  }

  lemma ExplainedBefore(cfg: Config, t: Table, t': Table, t'': Table, ids: seq<string>, tries: string -> Try)
    requires ids != [] && ids[0] !in ids[1..] && ChangesOnly(t, t', ids[0])
    requires Explained(cfg, t[ids[0]], t'[ids[0]], tries(ids[0])) && AllExplained(cfg, t', t'', ids[1..], tries)
    ensures AllExplained(cfg, t, t'', ids, tries)
  {
    hide Explained;
    forall id | id in t ensures if id in ids then Explained(cfg, t[id], t''[id], tries(id)) else t''[id] == t[id] {
      assert id in ids <==> id == ids[0] || id in ids[1..];
    }
  }

  lemma ExplainedNow(cfg: Config, t: Table, t': Table, ids: seq<string>, tries: string -> Try)
    requires ids != [] && ChangesOnly(t, t', ids[0]) && Explained(cfg, t[ids[0]], t'[ids[0]], tries(ids[0]))
    ensures AllExplained(cfg, t, t', ids, tries)
  {
  }

  /** Over the whole cycle, faults and cancellation included: a batch changes only as the single answer to its own
      transmission calls for, and only if it was pending. */
  predicate CycleExplained(cfg: Config, t: Table, t': Table, tries: string -> Try) {
    t'.Keys == t.Keys && forall id :: id in t ==>
      Explained(cfg, t[id], t'[id], tries(id)) && (t[id].status != Pending ==> t'[id] == t[id])
  }

  /** So far, rows of the nodes still to come are as they were. */
  predicate Untouched(t0: Table, t: Table, nodes: seq<string>) {
    forall id :: id in t && t[id].node in nodes ==> id in t0 && t0[id] == t[id]
  }

  lemma NodeExtendsExplanation(cfg: Config, t0: Table, t: Table, t': Table, nodes: seq<string>, ids: seq<string>,
          tries: string -> Try)
    requires nodes != [] && Distinct(nodes) && CycleExplained(cfg, t0, t, tries) && Untouched(t0, t, nodes)
    requires AllPending(t, ids) && (forall id :: id in ids ==> id in t && t[id].node == nodes[0])
    requires AllExplained(cfg, t, t', ids, tries) && ChangesNode(t, t', nodes[0])
    ensures CycleExplained(cfg, t0, t', tries) && Untouched(t0, t', nodes[1..])
  {
    hide Explained;
    forall id | id in t0 ensures Explained(cfg, t0[id], t'[id], tries(id)) && (t0[id].status != Pending ==> t'[id] == t0[id]) {
      if id in ids {
        assert t[id].node in nodes && t0[id] == t[id];
        assert IsPending(t, id);
      }
    }
    forall id | id in t' && t'[id].node in nodes[1..] ensures id in t0 && t0[id] == t'[id] {
      assert t'[id].node == t[id].node != nodes[0];
    }
  }

  lemma {:induction false} NodesAreExplained(cfg: Config, t0: Table, s: State, limit: int, nodes: seq<string>, env: Env)
    requires EnvOk(s.table, limit, nodes, env) && Distinct(nodes) && ListingsIn(s.table, env, nodes)
    requires CycleExplained(cfg, t0, s.table, env.tries) && Untouched(t0, s.table, nodes)
    ensures CycleExplained(cfg, t0, SyncNodes(cfg, s, nodes, env).0.table, env.tries)
    decreases |nodes|
  {
    if nodes != [] && !env.cancelled(nodes[0]) {
      var n := nodes[0];
      if env.listing(n).None? {
        assert Untouched(t0, s.table, nodes[1..]);
        hide EnvOk, SyncNode, CycleExplained, Untouched;
        EnvTail(s.table, limit, nodes, env);
        EnvLists(s.table, limit, nodes[1..], env);
        NodesAreExplained(cfg, t0, Fail(s, n, QueryFailed, false), limit, nodes[1..], env);
      } else {
        var ids := env.listing(n).value;
        assert IsListing(s.table, n, limit, ids);
        NodeChanges(cfg, s, n, ids, env.tries);
        NodeIsExplained(cfg, s, n, ids, env.tries);
        var (s', stop) := SyncNode(cfg, s, n, ids, env.tries);
        ListedOfNode(s.table, n, limit, ids);
        hide SyncNode, IsListing, EnvOk, CycleExplained, Untouched, AllExplained, AllPending;
        NodeExtendsExplanation(cfg, t0, s.table, s'.table, nodes, ids, env.tries);
        EnvStays(s.table, s'.table, limit, nodes, env);
        EnvLists(s'.table, limit, nodes[1..], env);
        if !stop { NodesAreExplained(cfg, t0, s', limit, nodes[1..], env); }
      }
    }
  }

  lemma ListedOfNode(t: Table, node: string, limit: int, ids: seq<string>)
    requires IsListing(t, node, limit, ids)
    ensures AllPending(t, ids) && forall id :: id in ids ==> id in t && t[id].node == node
  {
  }

  /** Every batch ends a cycle as the single answer to its own transmission calls for: published or synced by the
      active transport when delivered, quarantined when the failure is permanent or the attempts are used up,
      one attempt more when it was transient, and otherwise unchanged. */
  lemma {:induction false} CycleExplainsEveryBatch(cfg: Config, t: Table, limitPerNode: int, nodes: seq<string>,
          env: Env)
    requires EnvOk(t, Limit(limitPerNode), nodes, env) && Distinct(nodes) && ListingsIn(t, env, nodes)
    ensures CycleExplained(cfg, t, SyncNodes(cfg, Fresh(t), nodes, env).0.table, env.tries)
  {
    NodesAreExplained(cfg, t, Fresh(t), Limit(limitPerNode), nodes, env);
  }

  // ---- A node stops only where it must -------------------------------------------------

  /** A batch that is not delivered is given up: the failure is permanent, or its attempts are used up. */
  predicate GivenUp(cfg: Config, b: Batch, y: Try) {
    y.delivery == Permanent || b.attempt + 1 >= cfg.maxAttempts
  }

  /** What ends a node's turn at a batch: cancellation, no transport, a write that fails, or a transient failure with
      attempts to spare. */
  predicate Halts(cfg: Config, b: Batch, y: Try) {
    || y.cancelledBefore || cfg.transport == NoTransport
    || (y.delivery == Delivered && y.markFails)
    || (y.delivery != Delivered && (y.cancelledAfter || !GivenUp(cfg, b, y) || y.quarantineFails))
  }

  predicate Cancels(cfg: Config, y: Try) {
    y.cancelledBefore || (cfg.transport != NoTransport && y.delivery != Delivered && y.cancelledAfter)
  }

  predicate Transmits(cfg: Config, y: Try) { !y.cancelledBefore && cfg.transport != NoTransport }

  /** A delivered batch is PUBLISHED or SYNCED, as the transport has it; any other completed batch is FAILED. */
  predicate CompletedAs(cfg: Config, b: Batch, b': Batch, y: Try) {
    b' == if y.delivery == Delivered then
            if cfg.transport == Publisher then b.(status := Published, publishedAt := Some(y.at))
            else b.(status := Synced, sentAt := Some(y.at))
          else b.(status := Failed)
  }

  /** What halting at a batch leaves of it: after a transient failure one more attempt, if that can be written. */
  predicate HaltedAs(cfg: Config, b: Batch, b': Batch, y: Try) {
    b' == if Transmits(cfg, y) && y.delivery != Delivered && !y.cancelledAfter && !GivenUp(cfg, b, y) && !y.attemptFails
          then b.(attempt := b.attempt + 1, sentAt := Some(y.at)) else b
  }

  /** The books of a completed batch: one more synced or one more quarantined, in total and for the node. */
  predicate CompletionBooked(before: Stats, after: Stats, node: string, y: Try) {
    if y.delivery == Delivered then
      after == before.(synced := before.synced + 1,
                       successes := before.successes[node := (if node in before.successes then before.successes[node] else 0) + 1])
    else
      after == before.(quarantined := before.quarantined + 1,
                       quarantines := before.quarantines[node := (if node in before.quarantines then before.quarantines[node] else 0) + 1])
  }

  /** The books of a batch that halts its node: a failed write after delivery is a failure of the node but of no batch, a
      failure to transmit or to quarantine is both. */
  predicate HaltBooked(cfg: Config, b: Batch, before: Stats, after: Stats, node: string, y: Try) {
    if !Transmits(cfg, y) || (y.delivery != Delivered && y.cancelledAfter) then after == before
    else if y.delivery == Delivered then after == before.(failures := before.failures[node := MarkFailed])
    else after == before.(failed := before.failed + 1,
                          failures := before.failures[node := if GivenUp(cfg, b, y) then QuarantineFailed else TransportFailed])
  }

  /** One batch: the node goes on exactly when nothing halts it there, and then the batch is completed and booked. */
  lemma {:induction false} TryDecides(cfg: Config, s: State, node: string, id: string, y: Try)
    requires IsPending(s.table, id)
    ensures var (s', flow) := TryBatch(cfg, s, node, id, y);
      var b := s.table[id];
      && (flow == Continue <==> !Halts(cfg, b, y)) && (flow == Cancel <==> Cancels(cfg, y))
      && s'.table == s.table[id := s'.table[id]]
      && (if Halts(cfg, b, y) then HaltedAs(cfg, b, s'.table[id], y) && HaltBooked(cfg, b, s.stats, s'.stats, node, y)
          else CompletedAs(cfg, b, s'.table[id], y) && CompletionBooked(s.stats, s'.stats, node, y))
      && s'.log == if Transmits(cfg, y) then s.log + [Sent(id, s.table)] else s.log
  {
  }

  /** `k` is the first batch of the list that halts the node, or the end of the list. */
  predicate FirstHalt(cfg: Config, t: Table, ids: seq<string>, tries: string -> Try, k: nat) {
    && k <= |ids| && AllPending(t, ids)
    && (forall i :: 0 <= i < k ==> !Halts(cfg, t[ids[i]], tries(ids[i])))
    && (k < |ids| ==> Halts(cfg, t[ids[k]], tries(ids[k])))
  }

  lemma {:induction false} FindHalt(cfg: Config, t: Table, ids: seq<string>, tries: string -> Try) returns (k: nat)
    requires AllPending(t, ids)
    ensures FirstHalt(cfg, t, ids, tries, k)
  {
    k := 0;
    while k < |ids| && !Halts(cfg, t[ids[k]], tries(ids[k]))
      invariant k <= |ids| && forall i :: 0 <= i < k ==> !Halts(cfg, t[ids[i]], tries(ids[i]))
    {
      k := k + 1;
    }
  }

  /** How many of the first `k` batches of the list are delivered. */
  function DeliveredAmong(ids: seq<string>, tries: string -> Try, k: nat): nat
    requires k <= |ids|
  {
    if k == 0 then 0 else DeliveredAmong(ids, tries, k - 1) + if tries(ids[k - 1]).delivery == Delivered then 1 else 0
  }

  lemma {:induction false} DeliveredShift(ids: seq<string>, tries: string -> Try, k: nat)
    requires 0 < k <= |ids|
    ensures DeliveredAmong(ids, tries, k)
         == (if tries(ids[0]).delivery == Delivered then 1 else 0) + DeliveredAmong(ids[1..], tries, k - 1)
  {
    if k > 1 { DeliveredShift(ids, tries, k - 1); }
  }

  /** What a node's turn does to the table: everything listed before the first halt is completed, the batch that halts is
      left as the halt has it, and every other row stays. */
  predicate TurnOf(cfg: Config, t: Table, t': Table, ids: seq<string>, tries: string -> Try, k: nat)
    requires FirstHalt(cfg, t, ids, tries, k)
  {
    && t'.Keys == t.Keys
    && (forall i :: 0 <= i < k ==> CompletedAs(cfg, t[ids[i]], t'[ids[i]], tries(ids[i])))
    && (k < |ids| ==> HaltedAs(cfg, t[ids[k]], t'[ids[k]], tries(ids[k])))
    && forall id :: id in t && id !in ids[..if k < |ids| then k + 1 else k] ==> t'[id] == t[id]
  }

  /** What it transmits: the listed batches in order, up to the halt. */
  predicate SentUpTo(cfg: Config, before: seq<Sent>, after: seq<Sent>, ids: seq<string>, tries: string -> Try, k: nat)
    requires k <= |ids|
  {
    && |after| == |before| + k + (if k < |ids| && Transmits(cfg, tries(ids[k])) then 1 else 0)
    && after[..|before|] == before
    && forall i :: 0 <= i < |after| - |before| ==> after[|before| + i].id == ids[i]
  }

  lemma RestHalts(cfg: Config, t: Table, t': Table, ids: seq<string>, tries: string -> Try, k: nat)
    requires FirstHalt(cfg, t, ids, tries, k) && k > 0 && ChangesOnly(t, t', ids[0])
    ensures FirstHalt(cfg, t', ids[1..], tries, k - 1)
  {
    RestPending(t, t', ids);
    forall i | 0 <= i < |ids[1..]| ensures t'[ids[1..][i]] == t[ids[i + 1]] { assert ids[i + 1] != ids[0]; }
    hide Halts;
  }

  lemma TurnGoesOn(cfg: Config, t: Table, t': Table, t'': Table, ids: seq<string>, tries: string -> Try, k: nat)
    requires FirstHalt(cfg, t, ids, tries, k) && k > 0 && ChangesOnly(t, t', ids[0])
    requires FirstHalt(cfg, t', ids[1..], tries, k - 1) && TurnOf(cfg, t', t'', ids[1..], tries, k - 1)
    requires CompletedAs(cfg, t[ids[0]], t'[ids[0]], tries(ids[0]))
    ensures TurnOf(cfg, t, t'', ids, tries, k)
  {
    hide Halts, CompletedAs, HaltedAs;
    var rest := ids[1..];
    var n := if k < |ids| then k + 1 else k;
    assert forall i :: 0 <= i < |rest| ==> rest[i] == ids[i + 1] && t'[rest[i]] == t[ids[i + 1]];
    assert ids[0] !in rest[..n - 1] by { forall i | 0 <= i < |rest| ensures rest[i] != ids[0] {} }
    forall i | 0 <= i < k ensures CompletedAs(cfg, t[ids[i]], t''[ids[i]], tries(ids[i])) {
      if i > 0 { assert rest[i - 1] == ids[i]; }
    }
    if k < |ids| { assert rest[k - 1] == ids[k]; }
    forall id | id in t && id !in ids[..n] ensures t''[id] == t[id] {
      assert ids[0] in ids[..n];
      forall i | 0 <= i < n - 1 ensures rest[i] != id { assert rest[i] == ids[i + 1] && ids[i + 1] in ids[..n]; }
    }
  }

  lemma TurnEnds(cfg: Config, t: Table, t': Table, ids: seq<string>, tries: string -> Try)
    requires FirstHalt(cfg, t, ids, tries, 0) && ids != [] && ids[0] in t' && t' == t[ids[0] := t'[ids[0]]]
    requires HaltedAs(cfg, t[ids[0]], t'[ids[0]], tries(ids[0]))
    ensures TurnOf(cfg, t, t', ids, tries, 0)
  {
    hide Halts, HaltedAs;
    assert ids[..1] == [ids[0]];
  }

  /** A node's turn goes exactly as far as its first halt: what is listed before it is transmitted in order, completed and
      booked, and nothing after it is touched. */
  lemma {:induction false} NodeStopsAtFirstHalt(cfg: Config, s: State, node: string, ids: seq<string>, tries: string -> Try, k: nat)
    requires FirstHalt(cfg, s.table, ids, tries, k)
    ensures var (s', stop) := SyncNode(cfg, s, node, ids, tries);
      && TurnOf(cfg, s.table, s'.table, ids, tries, k) && SentUpTo(cfg, s.log, s'.log, ids, tries, k)
      && s'.stats.synced == s.stats.synced + DeliveredAmong(ids, tries, k)
      && s'.stats.synced + s'.stats.quarantined == s.stats.synced + s.stats.quarantined + k
      && (stop <==> k < |ids| && Cancels(cfg, tries(ids[k])))
    decreases |ids|
  {
    if ids != [] {
      var id, y := ids[0], tries(ids[0]);
      assert IsPending(s.table, id);
      TryDecides(cfg, s, node, id, y);
      TryChanges(cfg, s, node, id, y);
      hide TryBatch, Halts, CompletedAs, HaltedAs, Cancels, ChangesOnly, AllPending;
      var (s', flow) := TryBatch(cfg, s, node, id, y);
      if k == 0 {
        TurnEnds(cfg, s.table, s'.table, ids, tries);
      } else {
        RestHalts(cfg, s.table, s'.table, ids, tries, k);
        NodeStopsAtFirstHalt(cfg, s', node, ids[1..], tries, k - 1);
        hide FirstHalt, TurnOf, SyncNode;
        var s'' := SyncNode(cfg, s', node, ids[1..], tries).0;
        assert s'.table[id] == s'.table[id];
        TurnGoesOn(cfg, s.table, s'.table, s''.table, ids, tries, k);
        DeliveredShift(ids, tries, k);
        SendsGoOn(cfg, s.log, s'.log, s''.log, ids, tries, k);
      }
    }
  }

  lemma SendsGoOn(cfg: Config, log: seq<Sent>, log': seq<Sent>, log'': seq<Sent>, ids: seq<string>, tries: string -> Try, k: nat)
    requires 0 < k <= |ids| && |log'| == |log| + 1 && log'[..|log|] == log && log'[|log|].id == ids[0]
    requires SentUpTo(cfg, log', log'', ids[1..], tries, k - 1)
    ensures SentUpTo(cfg, log, log'', ids, tries, k)
  {
    assert log''[..|log|] == log''[..|log'|][..|log|];
    forall i | 0 <= i < |log''| - |log| ensures log''[|log| + i].id == ids[i] {
      if i == 0 { assert log''[|log|] == log''[..|log'|][|log|]; } else { assert log''[|log'| + (i - 1)].id == ids[1..][i - 1]; }
    }
  }

  /** With a transport, a working store and no cancellation, a node with no transient failure short of the threshold is
      emptied of its list: every batch is transmitted and completed, a quarantined one holding up none behind it. */
  lemma {:induction false} NothingTransientCompletesAll(cfg: Config, s: State, node: string, ids: seq<string>, tries: string -> Try)
    requires AllPending(s.table, ids) && cfg.transport != NoTransport && forall i :: 0 <= i < |ids| ==> HealthyTry(tries(ids[i]))
    requires forall i :: 0 <= i < |ids| && tries(ids[i]).delivery == Transient ==> s.table[ids[i]].attempt + 1 >= cfg.maxAttempts
    ensures var (s', stop) := SyncNode(cfg, s, node, ids, tries);
      && !stop && (forall i :: 0 <= i < |ids| ==> ids[i] in s'.table && s'.table[ids[i]].status != Pending)
      && s'.stats.synced + s'.stats.quarantined == s.stats.synced + s.stats.quarantined + |ids|
      && |s'.log| == |s.log| + |ids| && forall i :: 0 <= i < |ids| ==> s'.log[|s.log| + i].id == ids[i]
  {
    assert FirstHalt(cfg, s.table, ids, tries, |ids|);
    NodeStopsAtFirstHalt(cfg, s, node, ids, tries, |ids|);
    hide SyncNode;
    var s' := SyncNode(cfg, s, node, ids, tries).0;
    forall i | 0 <= i < |ids| ensures ids[i] in s'.table && s'.table[ids[i]].status != Pending {
      assert CompletedAs(cfg, s.table[ids[i]], s'.table[ids[i]], tries(ids[i]));
    }
  }

  lemma {:induction false} NodesExtendLog(cfg: Config, s: State, limit: int, nodes: seq<string>, env: Env)
    requires EnvOk(s.table, limit, nodes, env) && Distinct(nodes) && ListingsIn(s.table, env, nodes)
    ensures |s.log| <= |SyncNodes(cfg, s, nodes, env).0.log| && SyncNodes(cfg, s, nodes, env).0.log[..|s.log|] == s.log
    decreases |nodes|
  {
    if nodes != [] && !env.cancelled(nodes[0]) {
      var n := nodes[0];
      if env.listing(n).None? {
        hide EnvOk, SyncNode;
        EnvTail(s.table, limit, nodes, env);
        EnvLists(s.table, limit, nodes[1..], env);
        NodesExtendLog(cfg, Fail(s, n, QueryFailed, false), limit, nodes[1..], env);
      } else {
        var ids := env.listing(n).value;
        assert IsListing(s.table, n, limit, ids);
        NodeChanges(cfg, s, n, ids, env.tries);
        ListedOfNode(s.table, n, limit, ids);
        var k := FindHalt(cfg, s.table, ids, env.tries);
        NodeStopsAtFirstHalt(cfg, s, n, ids, env.tries, k);
        hide SyncNode, IsListing, EnvOk, FirstHalt, TurnOf;
        var (s', stop) := SyncNode(cfg, s, n, ids, env.tries);
        EnvStays(s.table, s'.table, limit, nodes, env);
        EnvLists(s'.table, limit, nodes[1..], env);
        if !stop {
          NodesExtendLog(cfg, s', limit, nodes[1..], env);
          var log := SyncNodes(cfg, s', nodes[1..], env).0.log;
          assert log[..|s'.log|][..|s.log|] == log[..|s.log|];
        }
      }
    }
  }

  predicate SentIn(log: seq<Sent>, id: string) { exists e :: 0 <= e < |log| && log[e].id == id }

  /** In an uncancelled cycle each node gets its turn as far as its own first halt, whatever happens to the others: what is
      listed before it is transmitted and completed, and what comes after it stays pending as it was. */
  lemma {:induction false} CycleCompletesUpToHalt(cfg: Config, t: Table, limit: int, nodes: seq<string>, env: Env, n: string, k: nat)
    requires EnvOk(t, limit, nodes, env) && Distinct(nodes) && ListingsIn(t, env, nodes) && !SyncNodes(cfg, Fresh(t), nodes, env).1
    requires n in nodes && env.listing(n).Some? && FirstHalt(cfg, t, env.listing(n).value, env.tries, k)
    ensures var (t', ids) := (AfterCycle(cfg, t, nodes, env), env.listing(n).value);
      && t'.Keys == t.Keys
      && (forall i :: 0 <= i < k ==> CompletedAs(cfg, t[ids[i]], t'[ids[i]], env.tries(ids[i])))
      && (k < |ids| ==> HaltedAs(cfg, t[ids[k]], t'[ids[k]], env.tries(ids[k])))
      && (forall i :: k < i < |ids| ==> t'[ids[i]] == t[ids[i]])
      && forall i :: 0 <= i < k ==> SentIn(SyncNodes(cfg, Fresh(t), nodes, env).0.log, ids[i])
  {
    var ids := env.listing(n).value;
    assert IsListing(t, n, limit, ids);
    CycleKeepsBatches(cfg, t, limit, nodes, env);
    SameRows(t, n);
    NodesAreIsolated(cfg, Fresh(t), t, limit, nodes, env, n);
    NodeStopsAtFirstHalt(cfg, Fresh(t), n, ids, env.tries, k);
    ListedOfNode(t, n, limit, ids);
    forall i | 0 <= i < k ensures SentIn(SyncNodes(cfg, Fresh(t), nodes, env).0.log, ids[i]) {
      CycleSendsUpToHalt(cfg, Fresh(t), t, limit, nodes, env, n, k, i);
    }
    hide IsListing, SyncNode, SyncNodes, CompletedAs, HaltedAs, Halts, FirstHalt, SentIn;
    var t', alone := AfterCycle(cfg, t, nodes, env), SyncNode(cfg, Fresh(t), n, ids, env.tries).0.table;
    forall i | 0 <= i < |ids| ensures ids[i] in t' && t'[ids[i]] == alone[ids[i]] {
      assert t[ids[i]].node == n;
    }
    forall i | k < i < |ids| ensures t'[ids[i]] == t[ids[i]] {
      forall j | 0 <= j <= k && j < |ids| ensures ids[j] != ids[i] {}
      assert ids[i] !in ids[..if k < |ids| then k + 1 else k];
    }
  }

  lemma NodeSends(cfg: Config, s: State, t: Table, n: string, ids: seq<string>, tries: string -> Try, k: nat, i: nat)
    requires FirstHalt(cfg, t, ids, tries, k) && RowsAgree(t, s.table, n) && i < k
    requires forall id :: id in ids ==> id in t && t[id].node == n
    ensures forall id :: id in ids ==> id in s.table
    ensures SentIn(SyncNode(cfg, s, n, ids, tries).0.log, ids[i])
  {
    HaltAgrees(cfg, t, s.table, n, ids, tries, k);
    NodeStopsAtFirstHalt(cfg, s, n, ids, tries, k);
    hide SyncNode, Halts, TurnOf, RowsAgree, CompletedAs, HaltedAs, Cancels, DeliveredAmong;
    assert SyncNode(cfg, s, n, ids, tries).0.log[|s.log| + i].id == ids[i];
  }

  lemma SentStays(log: seq<Sent>, log': seq<Sent>, id: string)
    requires SentIn(log, id) && |log| <= |log'| && log'[..|log|] == log
    ensures SentIn(log', id)
  {
    var e :| 0 <= e < |log| && log[e].id == id;
    assert log'[e] == log'[..|log|][e];
  }

  /** The turn of the first node leaves the others' listings as they are. */
  lemma TurnKeepsEnv(cfg: Config, s: State, limit: int, nodes: seq<string>, env: Env)
    requires EnvOk(s.table, limit, nodes, env) && Distinct(nodes) && ListingsIn(s.table, env, nodes)
    requires nodes != [] && env.listing(nodes[0]).Some?
    ensures var s' := SyncNode(cfg, s, nodes[0], env.listing(nodes[0]).value, env.tries).0;
      && EnvOk(s'.table, limit, nodes[1..], env) && ListingsIn(s'.table, env, nodes[1..]) && Distinct(nodes[1..])
      && ChangesNode(s.table, s'.table, nodes[0])
  {
    var ids := env.listing(nodes[0]).value;
    assert IsListing(s.table, nodes[0], limit, ids);
    NodeChanges(cfg, s, nodes[0], ids, env.tries);
    hide SyncNode, IsListing, EnvOk, ChangesNode;
    var s' := SyncNode(cfg, s, nodes[0], ids, env.tries).0;
    EnvStays(s.table, s'.table, limit, nodes, env);
    EnvLists(s'.table, limit, nodes[1..], env);
  }

  lemma {:induction false} CycleSendsUpToHalt(cfg: Config, s: State, t: Table, limit: int, nodes: seq<string>, env: Env, n: string,
          k: nat, i: nat)
    requires EnvOk(s.table, limit, nodes, env) && Distinct(nodes) && ListingsIn(s.table, env, nodes) && !SyncNodes(cfg, s, nodes, env).1
    requires n in nodes && env.listing(n).Some? && RowsAgree(t, s.table, n)
    requires FirstHalt(cfg, t, env.listing(n).value, env.tries, k) && i < k
    requires forall id :: id in env.listing(n).value ==> id in t && t[id].node == n
    ensures SentIn(SyncNodes(cfg, s, nodes, env).0.log, env.listing(n).value[i])
    decreases |nodes|
  {
    var m := nodes[0];
    hide RowsAgree, FirstHalt, SentIn, SyncNode, EnvOk, ChangesNode;
    if env.listing(m).None? {
      EnvTail(s.table, limit, nodes, env);
      EnvLists(s.table, limit, nodes[1..], env);
      CycleSendsUpToHalt(cfg, Fail(s, m, QueryFailed, false), t, limit, nodes[1..], env, n, k, i);
    } else {
      var s' := SyncNode(cfg, s, m, env.listing(m).value, env.tries).0;
      TurnKeepsEnv(cfg, s, limit, nodes, env);
      if m == n {
        NodeSends(cfg, s, t, n, env.listing(n).value, env.tries, k, i);
        NodesExtendLog(cfg, s', limit, nodes[1..], env);
        SentStays(s'.log, SyncNodes(cfg, s', nodes[1..], env).0.log, env.listing(n).value[i]);
      } else {
        RowsStay(t, s.table, s'.table, m, n);
        CycleSendsUpToHalt(cfg, s', t, limit, nodes[1..], env, n, k, i);
      }
    }
  }

  lemma RowsStay(t: Table, before: Table, after: Table, m: string, n: string)
    requires RowsAgree(t, before, n) && ChangesNode(before, after, m) && m != n
    ensures RowsAgree(t, after, n)
  {
  }

  lemma HaltAgrees(cfg: Config, t: Table, t': Table, n: string, ids: seq<string>, tries: string -> Try, k: nat)
    requires FirstHalt(cfg, t, ids, tries, k) && RowsAgree(t, t', n) && forall id :: id in ids ==> id in t && t[id].node == n
    ensures FirstHalt(cfg, t', ids, tries, k)
  {
    hide Halts;
    forall i | 0 <= i < |ids| ensures ids[i] in t' && t'[ids[i]] == t[ids[i]] { assert ids[i] in ids; }
  }

  /** A cycle over some nodes and then others is the cycle over all; cancellation at a node's turn ends it there, and a
      node whose query fails is booked and passed over. */
  lemma {:induction false} NodesInTurn(cfg: Config, s: State, a: seq<string>, b: seq<string>, env: Env)
    requires ListingsIn(s.table, env, a + b)
    ensures ListingsIn(s.table, env, a) && ListingsIn(SyncNodes(cfg, s, a, env).0.table, env, b)
    ensures SyncNodes(cfg, s, a + b, env) ==
      if SyncNodes(cfg, s, a, env).1 then SyncNodes(cfg, s, a, env) else SyncNodes(cfg, SyncNodes(cfg, s, a, env).0, b, env)
    ensures |a| == 1 && env.cancelled(a[0]) ==> SyncNodes(cfg, s, a, env) == (s, true)
    ensures |a| == 1 && !env.cancelled(a[0]) && env.listing(a[0]).None? ==>
      SyncNodes(cfg, s, a, env) == (s.(stats := s.stats.(failures := s.stats.failures[a[0] := QueryFailed])), false)
    decreases |a|
  {
    ListingsSplit(s.table, env, a, b);
    if a == [] {
      assert a + b == b;
    } else {
      var n := a[0];
      assert (a + b)[0] == n && (a + b)[1..] == a[1..] + b;
      ListingsSplit(s.table, env, [n], a[1..] + b);
      if !env.cancelled(n) {
        if env.listing(n).None? {
          NodesInTurn(cfg, Fail(s, n, QueryFailed, false), a[1..], b, env);
        } else {
          NodeKeepsKeys(cfg, s, n, env.listing(n).value, env.tries);
          var (s', stop) := SyncNode(cfg, s, n, env.listing(n).value, env.tries);
          ListingsKeep(s.table, s'.table, env, a[1..] + b);
          ListingsKeep(s.table, s'.table, env, b);
          hide SyncNode;
          if !stop { NodesInTurn(cfg, s', a[1..], b, env); }
        }
      }
    }
  }

  lemma ListingsSplit(t: Table, env: Env, a: seq<string>, b: seq<string>)
    requires ListingsIn(t, env, a + b)
    ensures ListingsIn(t, env, a) && ListingsIn(t, env, b)
  {
    forall n | n in a || n in b ensures n in a + b {}
  }

  lemma ListingsKeep(t: Table, t': Table, env: Env, nodes: seq<string>)
    requires ListingsIn(t, env, nodes) && t'.Keys == t.Keys
    ensures ListingsIn(t', env, nodes)
  {
  }

  // ---- Bounded head-of-line blocking --------------------------------------------

  /** How many more failed cycles a pending batch can cost: maxAttempts - attempt, and 1 once exhausted. */
  function Weight(b: Batch, max: int): nat {
    if b.attempt + 1 >= max then 1 else max - b.attempt
  }

  function Weights(t: Table, node: string, max: int): map<string, nat> {
    map id | id in t && IsPendingOf(t, id, node) :: Weight(t[id], max)
  }

  ghost function Potential(t: Table, node: string, max: int): nat {
    Sum(Weights(t, node, max))
  }

  predicate HealthyTry(y: Try) {
    !y.cancelledBefore && !y.cancelledAfter && !y.markFails && !y.quarantineFails && !y.attemptFails
  }

  /** An uncancelled cycle with a working store; the transport may do anything. */
  ghost predicate Healthy(cfg: Config, nodes: seq<string>, env: Env) {
    && cfg.transport != NoTransport && (forall id :: HealthyTry(env.tries(id)))
    && forall n :: n in nodes ==> env.listing(n).Some? && !env.cancelled(n)
  }

  lemma CompletionLowers(t: Table, t': Table, node: string, id: string, max: int)
    requires ChangesOnly(t, t', id) && IsPendingOf(t, id, node) && t'[id].status != Pending
    ensures Potential(t', node, max) < Potential(t, node, max)
  {
    assert Weights(t', node, max) == Weights(t, node, max) - {id};
    SumSplit(Weights(t, node, max), id);
  }

  lemma AttemptLowers(t: Table, t': Table, node: string, id: string, max: int)
    requires ChangesOnly(t, t', id) && IsPendingOf(t, id, node) && t'[id].status == Pending
    requires t'[id].attempt == t[id].attempt + 1 && t[id].attempt + 1 < max
    ensures Potential(t', node, max) < Potential(t, node, max)
  {
    assert Weights(t', node, max) == Weights(t, node, max)[id := Weight(t'[id], max)];
    SumUpdate(Weights(t, node, max), id, Weight(t'[id], max));
  }

  lemma TryLowers(cfg: Config, s: State, node: string, id: string, y: Try)
    requires IsPendingOf(s.table, id, node) && HealthyTry(y) && cfg.transport != NoTransport
    ensures var (s', flow) := TryBatch(cfg, s, node, id, y);
      Potential(s'.table, node, cfg.maxAttempts) < Potential(s.table, node, cfg.maxAttempts) && flow != Cancel
  {
    hide Potential;
    var s' := TryBatch(cfg, s, node, id, y).0;
    TryChanges(cfg, s, node, id, y);
    if s'.table[id].status == Pending {
      AttemptLowers(s.table, s'.table, node, id, cfg.maxAttempts);
    } else {
      CompletionLowers(s.table, s'.table, node, id, cfg.maxAttempts);
    }
  }

  lemma {:induction false} NodeLowers(cfg: Config, s: State, node: string, ids: seq<string>, tries: string -> Try)
    requires Ready(s.table, node, ids) && (forall id :: HealthyTry(tries(id))) && cfg.transport != NoTransport
    requires forall id :: id in ids ==> id in s.table
    ensures var (s', stop) := SyncNode(cfg, s, node, ids, tries);
      && !stop && Potential(s'.table, node, cfg.maxAttempts) <= Potential(s.table, node, cfg.maxAttempts)
      && (ids != [] ==> Potential(s'.table, node, cfg.maxAttempts) < Potential(s.table, node, cfg.maxAttempts))
    decreases |ids|
  {
    if ids != [] {
      assert IsPending(s.table, ids[0]);
      hide Ready, ChangesOnly, TryBatch, Potential;
      var (s', flow) := TryBatch(cfg, s, node, ids[0], tries(ids[0]));
      ReadyFirst(s.table, node, ids);
      TryChanges(cfg, s, node, ids[0], tries(ids[0]));
      TryLowers(cfg, s, node, ids[0], tries(ids[0]));
      if flow.Continue? {
        RestReady(s.table, s'.table, node, ids);
        NodeLowers(cfg, s', node, ids[1..], tries);
      }
    }
  }

  lemma {:induction false} HealthyFinishes(cfg: Config, s: State, limit: int, nodes: seq<string>, env: Env)
    requires EnvOk(s.table, limit, nodes, env) && Distinct(nodes) && ListingsIn(s.table, env, nodes) && Healthy(cfg, nodes, env)
    ensures !SyncNodes(cfg, s, nodes, env).1
    decreases |nodes|
  {
    if nodes != [] {
      var ids := env.listing(nodes[0]).value;
      assert IsListing(s.table, nodes[0], limit, ids);
      ListingIsReady(s.table, nodes[0], limit, ids);
      NodeLowers(cfg, s, nodes[0], ids, env.tries);
      NodeChanges(cfg, s, nodes[0], ids, env.tries);
      hide SyncNode, IsListing, EnvOk, Potential;
      var s' := SyncNode(cfg, s, nodes[0], ids, env.tries).0;
      EnvStays(s.table, s'.table, limit, nodes, env);
      EnvLists(s'.table, limit, nodes[1..], env);
      HealthyFinishes(cfg, s', limit, nodes[1..], env);
    }
  }

  lemma SameRowsSamePotential(t: Table, t': Table, t0: Table, node: string, max: int)
    requires RowsAgree(t', t0, node) && SameBatches(t, t') && ChangesNode(t, t0, node)
    ensures Potential(t', node, max) == Potential(t0, node, max)
  {
    forall id | id in t0 ensures IsPendingOf(t', id, node) <==> IsPendingOf(t0, id, node) {
      assert t'[id].node == t[id].node == t0[id].node;
    }
    assert Weights(t', node, max) == Weights(t0, node, max);
  }

  function AfterCycle(cfg: Config, t: Table, nodes: seq<string>, env: Env): Table
    requires ListingsIn(t, env, nodes)
  {
    SyncNodes(cfg, Fresh(t), nodes, env).0.table
  }

  lemma PendingNodeIsListed(t: Table, nodes: seq<string>, node: string, limit: int, ids: seq<string>)
    requires 0 < limit && IsNodeList(t, nodes) && node in nodes && IsListing(t, node, limit, ids)
    ensures ids != []
  {
    var id :| id in t && IsPendingOf(t, id, node);
  }

  /** The node alone, on the table the cycle starts from. */
  lemma AloneMakesProgress(cfg: Config, t: Table, node: string, limit: int, ids: seq<string>, tries: string -> Try)
    requires IsListing(t, node, limit, ids) && ids != []
    requires (forall id :: HealthyTry(tries(id))) && cfg.transport != NoTransport
    ensures forall id :: id in ids ==> id in t
    ensures ChangesNode(t, SyncNode(cfg, Fresh(t), node, ids, tries).0.table, node)
    ensures Potential(SyncNode(cfg, Fresh(t), node, ids, tries).0.table, node, cfg.maxAttempts) < Potential(t, node, cfg.maxAttempts)
  {
    ListingIsReady(t, node, limit, ids);
    hide Potential, SyncNode, Ready;
    NodeLowers(cfg, Fresh(t), node, ids, tries);
    NodeChanges(cfg, Fresh(t), node, ids, tries);
  }

  /** In an uncancelled cycle with a transport and a working store, a node with pending batches gets strictly
      closer to none, however the transport answers. */
  lemma {:induction false} CycleMakesProgress(cfg: Config, t: Table, limit: int, nodes: seq<string>, env: Env, node: string)
    requires 0 < limit && IsNodeList(t, nodes) && EnvOk(t, limit, nodes, env) && ListingsIn(t, env, nodes)
    requires Healthy(cfg, nodes, env) && node in nodes
    ensures Potential(AfterCycle(cfg, t, nodes, env), node, cfg.maxAttempts) < Potential(t, node, cfg.maxAttempts)
  {
    var ids := env.listing(node).value;
    assert IsListing(t, node, limit, ids);
    assert Distinct(nodes);
    PendingNodeIsListed(t, nodes, node, limit, ids);
    hide IsListing, IsNodeList, Potential, SyncNode, SyncNodes, HealthyTry, ChangesNode, RowsAgree;
    AloneMakesProgress(cfg, t, node, limit, ids, env.tries);
    HealthyFinishes(cfg, Fresh(t), limit, nodes, env);
    CycleKeepsBatches(cfg, t, limit, nodes, env);
    SameRows(t, node);
    NodesAreIsolated(cfg, Fresh(t), t, limit, nodes, env, node);
    SameRowsSamePotential(t, AfterCycle(cfg, t, nodes, env), SyncNode(cfg, Fresh(t), node, ids, env.tries).0.table,
      node, cfg.maxAttempts);
  }

  lemma SameRows(t: Table, node: string)
    ensures RowsAgree(t, t, node)
  {
  }

  lemma CycleKeepsBatches(cfg: Config, t: Table, limit: int, nodes: seq<string>, env: Env)
    requires EnvOk(t, limit, nodes, env) && Distinct(nodes) && ListingsIn(t, env, nodes)
    ensures SameBatches(t, AfterCycle(cfg, t, nodes, env))
  {
    NodesKeepBalance(cfg, t, Fresh(t), limit, nodes, env);
  }

  lemma {:induction false} NothingPending(t: Table, node: string, max: int)
    ensures Potential(t, node, max) == 0 <==> forall id :: id in t ==> !IsPendingOf(t, id, node)
  {
    if id :| id in t && IsPendingOf(t, id, node) {
      SumSplit(Weights(t, node, max), id);
    } else {
      assert Weights(t, node, max) == map[];
    }
  }

  /** One cycle's inputs. */
  datatype Round = Round(nodes: seq<string>, env: Env)

  /** Cycles run one after the other, each healthy and listing the table it finds. */
  ghost predicate HealthyRounds(cfg: Config, t: Table, limit: int, rounds: seq<Round>)
    decreases |rounds|
  {
    rounds != [] ==>
      var r := rounds[0];
      && IsNodeList(t, r.nodes) && EnvOk(t, limit, r.nodes, r.env) && ListingsIn(t, r.env, r.nodes) && Healthy(cfg, r.nodes, r.env)
      && HealthyRounds(cfg, AfterCycle(cfg, t, r.nodes, r.env), limit, rounds[1..])
  }

  ghost function AfterRounds(cfg: Config, t: Table, limit: int, rounds: seq<Round>): Table
    requires HealthyRounds(cfg, t, limit, rounds)
    decreases |rounds|
  {
    if rounds == [] then t
    else AfterRounds(cfg, AfterCycle(cfg, t, rounds[0].nodes, rounds[0].env), limit, rounds[1..])
  }

  lemma QuietNodeStaysQuiet(cfg: Config, t: Table, limit: int, nodes: seq<string>, env: Env, node: string)
    requires IsNodeList(t, nodes) && EnvOk(t, limit, nodes, env) && ListingsIn(t, env, nodes)
    requires Potential(t, node, cfg.maxAttempts) == 0
    ensures Potential(AfterCycle(cfg, t, nodes, env), node, cfg.maxAttempts) == 0
  {
    NothingPending(t, node, cfg.maxAttempts);
    OthersKeepRows(cfg, Fresh(t), t, limit, nodes, env, node);
    NodesKeepBalance(cfg, t, Fresh(t), limit, nodes, env);
    hide SyncNodes;
    SameRowsSamePotential(t, AfterCycle(cfg, t, nodes, env), t, node, cfg.maxAttempts);
  }

  /** Repeated cycles drain a node even if the transport always fails: after as many cycles as the sum of its
      pending batches' remaining attempts, none of its batches is pending. */
  lemma {:induction false} RoundsDrain(cfg: Config, t: Table, limit: int, rounds: seq<Round>, node: string)
    requires 0 < limit && HealthyRounds(cfg, t, limit, rounds) && |rounds| >= Potential(t, node, cfg.maxAttempts)
    ensures forall id :: id in AfterRounds(cfg, t, limit, rounds) ==> !IsPendingOf(AfterRounds(cfg, t, limit, rounds), id, node)
    decreases |rounds|
  {
    if rounds == [] {
      NothingPending(t, node, cfg.maxAttempts);
    } else {
      var r := rounds[0];
      if node in r.nodes {
        CycleMakesProgress(cfg, t, limit, r.nodes, r.env, node);
      } else {
        NotListedIsQuiet(t, r.nodes, node, cfg.maxAttempts);
        QuietNodeStaysQuiet(cfg, t, limit, r.nodes, r.env, node);
      }
      hide Potential, AfterCycle, IsNodeList, Healthy, EnvOk;
      RoundsDrain(cfg, AfterCycle(cfg, t, r.nodes, r.env), limit, rounds[1..], node);
    }
  }

  lemma NotListedIsQuiet(t: Table, nodes: seq<string>, node: string, max: int)
    requires IsNodeList(t, nodes) && node !in nodes
    ensures Potential(t, node, max) == 0
  {
    NothingPending(t, node, max);
  }

  // ---- Attempts stay below the threshold -----------------------------------------

  predicate AttemptsBelow(t: Table, max: int) {
    forall id :: id in t && t[id].status == Pending ==> t[id].attempt < max
  }

  lemma TryKeepsAttempts(cfg: Config, s: State, node: string, id: string, y: Try)
    requires id in s.table && AttemptsBelow(s.table, cfg.maxAttempts)
    ensures AttemptsBelow(TryBatch(cfg, s, node, id, y).0.table, cfg.maxAttempts)
  {
  }

  lemma {:induction false} NodeKeepsAttempts(cfg: Config, s: State, node: string, ids: seq<string>,
          tries: string -> Try)
    requires (forall id :: id in ids ==> id in s.table) && AttemptsBelow(s.table, cfg.maxAttempts)
    ensures AttemptsBelow(SyncNode(cfg, s, node, ids, tries).0.table, cfg.maxAttempts)
    decreases |ids|
  {
    hide AttemptsBelow, TryBatch;
    if ids != [] {
      var (s', flow) := TryBatch(cfg, s, node, ids[0], tries(ids[0]));
      TryKeepsAttempts(cfg, s, node, ids[0], tries(ids[0]));
      TryKeepsKeys(cfg, s, node, ids[0], tries(ids[0]));
      if flow.Continue? { NodeKeepsAttempts(cfg, s', node, ids[1..], tries); }
    }
  }

  /** In every cycle, faults and cancellation included, each batch left pending has attempts to spare; and the
      weight of such a batch is maxAttempts - attempt. */
  lemma {:induction false} CycleKeepsAttempts(cfg: Config, s: State, nodes: seq<string>, env: Env)
    requires ListingsIn(s.table, env, nodes) && AttemptsBelow(s.table, cfg.maxAttempts)
    ensures var t := SyncNodes(cfg, s, nodes, env).0.table;
      && AttemptsBelow(t, cfg.maxAttempts)
      && forall id :: id in t && t[id].status == Pending ==> Weight(t[id], cfg.maxAttempts) == cfg.maxAttempts - t[id].attempt
    decreases |nodes|
  {
    if nodes != [] && !env.cancelled(nodes[0]) {
      if env.listing(nodes[0]).None? {
        CycleKeepsAttempts(cfg, Fail(s, nodes[0], QueryFailed, false), nodes[1..], env);
      } else {
        NodeKeepsAttempts(cfg, s, nodes[0], env.listing(nodes[0]).value, env.tries);
        NodeKeepsKeys(cfg, s, nodes[0], env.listing(nodes[0]).value, env.tries);
        hide SyncNode;
        var (s', stop) := SyncNode(cfg, s, nodes[0], env.listing(nodes[0]).value, env.tries);
        if !stop { CycleKeepsAttempts(cfg, s', nodes[1..], env); }
      }
    }
  }

  /** What happens to the table from outside, and what a cycle meets. */
  datatype Op =
    | PersistBatch(id: string, b: Batch, valid: bool, fails: bool)
    | RequeueBatch(id: string, fails: bool)
    | PruneBatches(chosen: set<string>)
    | Cycle(nodes: seq<string>, env: Env)

  function Apply(cfg: Config, t: Table, op: Op): Table {
    match op
    case PersistBatch(id, b, valid, fails) => Keep(t, Persist(t, id, b, valid, fails))
    case RequeueBatch(id, fails) => Keep(t, Requeue(t, id, fails))
    case PruneBatches(chosen) => Prune(t, chosen)
    case Cycle(nodes, env) => if ListingsIn(t, env, nodes) then AfterCycle(cfg, t, nodes, env) else t
  }

  function Run(cfg: Config, t: Table, ops: seq<Op>): Table {
    if ops == [] then t else Apply(cfg, Run(cfg, t, ops[..|ops| - 1]), ops[|ops| - 1])
  }

  /** Every batch that the run accepts comes with fewer attempts than the threshold; the agent's generator gives 0. */
  predicate AcceptsBelow(cfg: Config, t: Table, ops: seq<Op>) {
    ops == [] ||
    (AcceptsBelow(cfg, t, ops[..|ops| - 1])
     && var op, t1 := ops[|ops| - 1], Run(cfg, t, ops[..|ops| - 1]);
        op.PersistBatch? && Persist(t1, op.id, op.b, op.valid, op.fails).Ok? ==> op.b.attempt < cfg.maxAttempts)
  }

  /** The threshold is respected after each step of the run. */
  predicate BelowThroughout(cfg: Config, t: Table, ops: seq<Op>) {
    AttemptsBelow(Run(cfg, t, ops), cfg.maxAttempts) && (ops == [] || BelowThroughout(cfg, t, ops[..|ops| - 1]))
  }

  lemma StepKeepsAttempts(cfg: Config, t: Table, op: Op)
    requires AttemptsBelow(t, cfg.maxAttempts) && cfg.maxAttempts > 0
    ensures AttemptsBelow(Apply(cfg, t, op), cfg.maxAttempts) <==>
      !(op.PersistBatch? && Persist(t, op.id, op.b, op.valid, op.fails).Ok? && op.b.attempt >= cfg.maxAttempts)
  {
    hide SyncNodes;
    if op.Cycle? {
      if ListingsIn(t, op.env, op.nodes) { CycleKeepsAttempts(cfg, Fresh(t), op.nodes, op.env); }
    } else if op.PersistBatch? && Persist(t, op.id, op.b, op.valid, op.fails).Ok? {
      assert Apply(cfg, t, op)[op.id].attempt == op.b.attempt;
    }
  }

  /** In every run of persisting, requeueing, pruning and cycles from an empty table, faults and cancellation included,
      pending batches stay below the threshold exactly when the batches accepted are. */
  lemma {:induction false} RunKeepsAttemptsIff(cfg: Config, ops: seq<Op>)
    requires cfg.maxAttempts > 0
    ensures BelowThroughout(cfg, map[], ops) <==> AcceptsBelow(cfg, map[], ops)
  {
    hide Apply, AttemptsBelow;
    if ops == [] {
      NothingIsBelow(cfg.maxAttempts);
    } else {
      var front := ops[..|ops| - 1];
      RunKeepsAttemptsIff(cfg, front);
      if BelowThroughout(cfg, map[], front) { StepKeepsAttempts(cfg, Run(cfg, map[], front), ops[|ops| - 1]); }
    }
  }

  lemma NothingIsBelow(max: int)
    ensures AttemptsBelow(map[], max)
  {
  }

  // ---- The coordinator ------------------------------------------------------------

  class Syncer {
    const cfg: Config
    var table: Table
    ghost var log: seq<Sent>

    constructor (maxAttempts: int, transport: Transport, table: Table)
      ensures cfg == Config(MaxAttempts(maxAttempts), transport) && this.table == table && log == []
    {
      cfg := Config(if maxAttempts > 0 then maxAttempts else 10, transport);
      this.table := table;
      log := [];
    }

    /** The current state of a cycle whose statistics so far are `stats`. */
    ghost function At(stats: Stats): State
      reads this
    {
      State(table, stats, log)
    }

    /** SyncPendingBatches. None: the pending nodes could not be read. `cancelled`: the context's error is
        returned with the statistics so far. */
    method SyncPendingBatches(nodes: Option<seq<string>>, env: Env) returns (stats: Option<Stats>, cancelled: bool)
      requires nodes.Some? ==> ListingsIn(table, env, nodes.value)
      modifies this
      ensures nodes.None? ==> stats.None? && table == old(table)
      ensures nodes.Some? ==>
        stats.Some? && (At(stats.value), cancelled) == SyncNodes(cfg, Fresh(old(table)), nodes.value, env)
    {
      if nodes.None? { return None, false; }
      log := [];
      var st := Stats(0, 0, 0, map[], map[], map[]);
      var i := 0;
      while i < |nodes.value|
        invariant i <= |nodes.value|
        invariant ListingsIn(table, env, nodes.value[i..])
        invariant SyncNodes(cfg, Fresh(old(table)), nodes.value, env) == SyncNodes(cfg, At(st), nodes.value[i..], env)
      {
        var n := nodes.value[i];
        assert nodes.value[i..][0] == n && nodes.value[i..][1..] == nodes.value[i + 1..];
        if env.cancelled(n) { return Some(st), true; }
        if env.listing(n).None? {
          st := st.(failures := st.failures[n := QueryFailed]);
        } else {
          NodeKeepsKeys(cfg, At(st), n, env.listing(n).value, env.tries);
          var stop;
          st, stop := SyncOneNode(st, n, env.listing(n).value, env.tries);
          if stop { return Some(st), true; }
        }
        i := i + 1;
      }
      return Some(st), false;
    }

    /** The inner loop. */
    method SyncOneNode(stats: Stats, node: string, ids: seq<string>, tries: string -> Try) returns (st: Stats,
            stop: bool)
      requires forall id :: id in ids ==> id in table
      modifies this
      ensures (At(st), stop) == SyncNode(cfg, old(At(stats)), node, ids, tries)
    {
      st, stop := stats, false;
      var i := 0;
      while i < |ids|
        invariant i <= |ids| && forall id :: id in ids ==> id in table
        invariant SyncNode(cfg, old(At(stats)), node, ids, tries) == SyncNode(cfg, At(st), node, ids[i..], tries)
      {
        assert ids[i..][0] == ids[i] && ids[i..][1..] == ids[i + 1..];
        TryKeepsKeys(cfg, At(st), node, ids[i], tries(ids[i]));
        var flow;
        st, flow := SyncOneBatch(st, node, ids[i], tries(ids[i]));
        if flow == Cancel { return st, true; }
        if flow == Break { return st, false; }
        i := i + 1;
      }
    }

    /** One iteration: transmit, then record the outcome in the store. */
    method SyncOneBatch(stats: Stats, node: string, id: string, y: Try) returns (st: Stats, flow: Flow)
      requires id in table
      modifies this
      ensures (At(st), flow) == TryBatch(cfg, old(At(stats)), node, id, y)
    {
      st := stats;
      if y.cancelledBefore { return st, Cancel; }
      if cfg.transport == NoTransport { return st, Break; }
      log := log + [Sent(id, table)];
      if y.delivery == Delivered {
        var r := Mark(cfg, table, id, y);
        if r.Err? {
          st := st.(failures := st.failures[node := MarkFailed]);
          return st, Break;
        }
        table := r.value;
        st := st.(synced := st.synced + 1, successes := st.successes[node := Count(st.successes, node) + 1]);
        return st, Continue;
      }
      if y.cancelledAfter { return st, Cancel; }
      if y.delivery == Permanent || table[id].attempt + 1 >= cfg.maxAttempts {
        var r := Quarantine(table, id, y.quarantineFails);
        if r.Err? {
          st := st.(failures := st.failures[node := QuarantineFailed], failed := st.failed + 1);
          return st, Break;
        }
        table := r.value;
        st := st.(quarantined := st.quarantined + 1, quarantines := st.quarantines[node := Count(st.quarantines, node) + 1]);
        return st, Continue;
      }
      var r := RecordAttempt(table, id, y.at, y.attemptFails);
      if r.Ok? { table := r.value; }
      st := st.(failed := st.failed + 1, failures := st.failures[node := TransportFailed]);
      return st, Break;
    }

    /** RequeueBatch */
    method RequeueBatch(id: string, fails: bool) returns (err: Option<Error>)
      modifies this
      ensures log == old(log) && table == Keep(old(table), Requeue(old(table), id, fails))
      ensures err.None? <==> id in old(table) && old(table)[id].status == Failed && !fails
      ensures err.None? ==> IsPending(table, id) && table[id].attempt == 0
    {
      var r := Requeue(table, id, fails);
      if r.Err? { return Some(r.error); }
      table := r.value;
      return None;
    }
  }
}
