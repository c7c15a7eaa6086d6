/** The sliding observation window of one metric stream: what insertObservation keeps after sorting,
    pruning and capping, and why the M-of-N verdict does not depend on what it dropped
    (edge/agent/incident/engine.go:335-373, 607-632). */
module ObservationWindow {
  import opened Common

  datatype Obs = Obs(id: string, at: Time)

  function Front(s: seq<Obs>): seq<Obs>
    requires s != []
  {
    s[..|s| - 1]
  }

  function Last(s: seq<Obs>): Obs
    requires s != []
  {
    s[|s| - 1]
  }

  predicate Sorted(s: seq<Obs>) {
    forall i, j :: 0 <= i < j < |s| ==> s[i].at <= s[j].at
  }

  /** Inserts after every observation that is not later. */
  function InsertByTime(s: seq<Obs>, o: Obs): (r: seq<Obs>)
    ensures |r| == |s| + 1
  {
    if s == [] || Last(s).at <= o.at then s + [o] else InsertByTime(Front(s), o) + [Last(s)]
  }

  /** sort.SliceStable by detection time. */
  function StableSort(s: seq<Obs>): (r: seq<Obs>)
    ensures |r| == |s|
  {
    if s == [] then [] else InsertByTime(StableSort(Front(s)), Last(s))
  }

  function CountSince(s: seq<Obs>, cutoff: Time): (n: nat)
    ensures n <= |s|
  {
    if s == [] then 0 else CountSince(Front(s), cutoff) + if Last(s).at >= cutoff then 1 else 0
  }

  function LatestAt(s: seq<Obs>): Time
    requires s != []
  {
    if |s| == 1 then s[0].at else Max(LatestAt(Front(s)), Last(s).at)
  }

  /** Index, from `i` on, of the first observation not before `cutoff`; 0 when there is none. */
  function FirstSince(s: seq<Obs>, cutoff: Time, i: nat): (k: nat)
    requires i <= |s|
    ensures k < |s| || k == 0
    decreases |s| - i
  {
    if i == |s| then 0 else if s[i].at >= cutoff then i else FirstSince(s, cutoff, i + 1)
  }

  function Cap(s: seq<Obs>, n: nat): seq<Obs> {
    if |s| > n then s[|s| - n..] else s
  }

  /** Specification of insertObservation: sort, prune what is older than the window, keep the newest `n`. */
  function Insert(s: seq<Obs>, o: Obs, n: nat, window: Time): seq<Obs> {
    var t := StableSort(s + [o]);
    Cap(t[FirstSince(t, Last(t).at - window, 0)..], n)
  }

  /** Reading back from the newest: at most `n` observations, stopping at the first older than `cutoff`. */
  function Keep(s: seq<Obs>, cutoff: Time, n: nat): seq<Obs> {
    if s == [] || n == 0 || Last(s).at < cutoff then [] else Keep(Front(s), cutoff, n - 1) + [Last(s)]
  }

  /** The observations of a history that matter: the newest `n` of those within `window` of the latest. */
  function Window(h: seq<Obs>, n: nat, window: Time): seq<Obs> {
    if h == [] then [] else Keep(StableSort(h), LatestAt(h) - window, n)
  }

  lemma FrontOfSnoc(s: seq<Obs>, o: Obs)
    ensures Front(s + [o]) == s && Last(s + [o]) == o
  {
  }

  // ---- Sorting -------------------------------------------------------------

  lemma {:induction false} InsertLast(s: seq<Obs>, o: Obs)
    requires s != []
    ensures Last(InsertByTime(s, o)).at == Max(Last(s).at, o.at)
  {
  }

  lemma {:induction false} InsertSorts(s: seq<Obs>, o: Obs)
    requires Sorted(s)
    ensures Sorted(InsertByTime(s, o))
  {
    if s != [] && Last(s).at > o.at {
      InsertSorts(Front(s), o);
      if Front(s) != [] { InsertLast(Front(s), o); }
    }
  }

  lemma {:induction false} SortSorts(s: seq<Obs>)
    ensures Sorted(StableSort(s))
  {
    if s != [] {
      SortSorts(Front(s));
      InsertSorts(StableSort(Front(s)), Last(s));
    }
  }

  lemma {:induction false} InsertMultiset(s: seq<Obs>, o: Obs)
    ensures multiset(InsertByTime(s, o)) == multiset(s) + multiset{o}
  {
    if s != [] && Last(s).at > o.at {
      InsertMultiset(Front(s), o);
      assert s == Front(s) + [Last(s)];
    }
  }

  /** Sorting loses nothing and invents nothing. */
  lemma {:induction false} SortMultiset(s: seq<Obs>)
    ensures multiset(StableSort(s)) == multiset(s)
  {
    if s != [] {
      SortMultiset(Front(s));
      InsertMultiset(StableSort(Front(s)), Last(s));
      assert s == Front(s) + [Last(s)];
    }
  }

  /** The observations of one instant, in order. */
  function AtInstant(s: seq<Obs>, t: Time): seq<Obs> {
    if s == [] then [] else AtInstant(Front(s), t) + if Last(s).at == t then [Last(s)] else []
  }

  lemma AtInstantSnoc(f: seq<Obs>, x: Obs, t: Time)
    ensures AtInstant(f + [x], t) == AtInstant(f, t) + if x.at == t then [x] else []
  {
    FrontOfSnoc(f, x);
  }

  lemma {:induction false} InsertIsStable(s: seq<Obs>, o: Obs, t: Time)
    ensures AtInstant(InsertByTime(s, o), t) == AtInstant(s, t) + if o.at == t then [o] else []
  {
    hide AtInstant;
    if s == [] || Last(s).at <= o.at {
      AtInstantSnoc(s, o, t);
    } else {
      InsertIsStable(Front(s), o, t);
      AtInstantSnoc(InsertByTime(Front(s), o), Last(s), t);
      Snoc(s);
      AtInstantSnoc(Front(s), Last(s), t);
    }
  }

  /** Observations of one instant keep their order of arrival. */
  lemma {:induction false} SortIsStable(s: seq<Obs>, t: Time)
    ensures AtInstant(StableSort(s), t) == AtInstant(s, t)
  {
    if s != [] {
      SortIsStable(Front(s), t);
      InsertIsStable(StableSort(Front(s)), Last(s), t);
    }
  }

  lemma {:induction false} SortOfSorted(s: seq<Obs>)
    requires Sorted(s)
    ensures StableSort(s) == s
  {
    if s != [] {
      SortOfSorted(Front(s));
      assert |s| > 1 ==> s[|s| - 2].at <= s[|s| - 1].at;
    }
  }

  lemma {:induction false} SortAppend(s: seq<Obs>, o: Obs)
    ensures StableSort(s + [o]) == InsertByTime(StableSort(s), o)
  {
    FrontOfSnoc(s, o);
  }

  lemma {:induction false} LastIsLatest(h: seq<Obs>)
    requires h != []
    ensures Last(StableSort(h)).at == LatestAt(h)
  {
    if |h| > 1 {
      LastIsLatest(Front(h));
      InsertLast(StableSort(Front(h)), Last(h));
    } else {
      assert StableSort(Front(h)) == [];
    }
  }

  // ---- Counting ------------------------------------------------------------

  lemma {:induction false} CountInsert(s: seq<Obs>, o: Obs, cutoff: Time)
    ensures CountSince(InsertByTime(s, o), cutoff) == CountSince(s, cutoff) + if o.at >= cutoff then 1 else 0
  {
    if s == [] || Last(s).at <= o.at {
      FrontOfSnoc(s, o);
    } else {
      CountInsert(Front(s), o, cutoff);
      FrontOfSnoc(InsertByTime(Front(s), o), Last(s));
    }
  }

  /** Sorting does not change how many observations are recent. */
  lemma {:induction false} CountSort(s: seq<Obs>, cutoff: Time)
    ensures CountSince(StableSort(s), cutoff) == CountSince(s, cutoff)
  {
    if s != [] {
      CountSort(Front(s), cutoff);
      CountInsert(StableSort(Front(s)), Last(s), cutoff);
    }
  }

  lemma {:induction false} CountNone(s: seq<Obs>, cutoff: Time)
    requires Sorted(s) && (s == [] || Last(s).at < cutoff)
    ensures CountSince(s, cutoff) == 0
  {
    if |s| > 1 {
      assert s[|s| - 2].at <= Last(s).at;
      CountNone(Front(s), cutoff);
    }
  }

  /** In a sorted sequence the recent observations are the last ones. */
  lemma {:induction false} RecentAreLast(s: seq<Obs>, cutoff: Time)
    requires Sorted(s)
    ensures forall i :: 0 <= i < |s| - CountSince(s, cutoff) ==> s[i].at < cutoff
    ensures forall i :: |s| - CountSince(s, cutoff) <= i < |s| ==> s[i].at >= cutoff
  {
    if s != [] {
      if Last(s).at < cutoff {
        CountNone(s, cutoff);
      } else {
        RecentAreLast(Front(s), cutoff);
      }
    }
  }

  lemma {:induction false} FirstSinceIs(s: seq<Obs>, cutoff: Time, i: nat, k: nat)
    requires i <= k < |s| && s[k].at >= cutoff && forall j :: i <= j < k ==> s[j].at < cutoff
    ensures FirstSince(s, cutoff, i) == k
    decreases k - i
  {
    if i < k { FirstSinceIs(s, cutoff, i + 1, k); }
  }

  // ---- What is kept --------------------------------------------------------

  function Newest(s: seq<Obs>, k: nat): seq<Obs>
    requires k <= |s|
  {
    s[|s| - k..]
  }

  /** Of a sorted sequence, what is kept is its last elements: the recent ones, up to the cap. */
  lemma {:induction false} KeepIsSuffix(s: seq<Obs>, cutoff: Time, n: nat)
    requires Sorted(s)
    ensures Keep(s, cutoff, n) == Newest(s, Min(n, CountSince(s, cutoff)))
  {
    if s != [] && n != 0 {
      if Last(s).at < cutoff {
        CountNone(s, cutoff);
      } else {
        KeepIsSuffix(Front(s), cutoff, n - 1);
        KeepIsSuffixSnoc(Front(s), Last(s), cutoff, n);
        Snoc(s);
      }
    }
  }

  lemma KeepIsSuffixSnoc(f: seq<Obs>, x: Obs, cutoff: Time, n: nat)
    requires n != 0 && x.at >= cutoff
    requires Keep(f, cutoff, n - 1) == Newest(f, Min(n - 1, CountSince(f, cutoff)))
    ensures Keep(f + [x], cutoff, n) == Newest(f + [x], Min(n, CountSince(f + [x], cutoff)))
  {
    hide Keep, CountSince, Newest;
    KeepSnoc(f, x, cutoff, n);
    CountSnoc(f, x, cutoff);
    NewestSnoc(f, x, Min(n - 1, CountSince(f, cutoff)));
    assert Min(n, CountSince(f + [x], cutoff)) == Min(n - 1, CountSince(f, cutoff)) + 1;
  }

  lemma NewestSnoc(f: seq<Obs>, x: Obs, k: nat)
    requires k <= |f|
    ensures Newest(f + [x], k + 1) == Newest(f, k) + [x]
  {
  }

  lemma KeepSnoc(f: seq<Obs>, x: Obs, c: Time, n: nat)
    ensures Keep(f + [x], c, n) == if n == 0 || x.at < c then [] else Keep(f, c, n - 1) + [x]
  {
    FrontOfSnoc(f, x);
  }

  lemma InsertSnoc(f: seq<Obs>, x: Obs, o: Obs)
    ensures InsertByTime(f + [x], o) == if x.at <= o.at then f + [x] + [o] else InsertByTime(f, o) + [x]
  {
    FrontOfSnoc(f, x);
  }

  /** Pruning and capping a sorted sequence whose last element is recent. */
  lemma {:induction false} PruneAndCap(s: seq<Obs>, cutoff: Time, n: nat)
    requires s != [] && Sorted(s) && Last(s).at >= cutoff
    ensures Cap(s[FirstSince(s, cutoff, 0)..], n) == Keep(s, cutoff, n)
  {
    RecentAreLast(s, cutoff);
    FirstSinceIs(s, cutoff, 0, |s| - CountSince(s, cutoff));
    KeepIsSuffix(s, cutoff, n);
  }

  lemma {:induction false} KeepKeep(s: seq<Obs>, c: Time, n: nat, c': Time, m: nat)
    requires c <= c' && m <= n
    ensures Keep(Keep(s, c, n), c', m) == Keep(s, c', m)
  {
    if s != [] && n != 0 && Last(s).at >= c {
      FrontOfSnoc(Keep(Front(s), c, n - 1), Last(s));
      if m != 0 { KeepKeep(Front(s), c, n - 1, c', m - 1); }
    }
  }

  /** What was dropped stays irrelevant: inserting into what is kept, then keeping, is inserting into
      everything, then keeping. */
  lemma {:induction false} KeepInsert(s: seq<Obs>, o: Obs, c: Time, c': Time, n: nat)
    requires c <= c'
    ensures Keep(InsertByTime(Keep(s, c, n), o), c', n) == Keep(InsertByTime(s, o), c', n)
    decreases |s|
  {
    hide *;
    if s == [] {
      KeepNothing(s, c, n);
    } else if n == 0 {
      KeepNothing(s, c, n);
      KeepNothing(InsertByTime(Keep(s, c, n), o), c', n);
      KeepNothing(InsertByTime(s, o), c', n);
    } else {
      Snoc(s);
      KeepInsert(Front(s), o, c, c', n - 1);
      KeepInsertSnoc(Front(s), Last(s), o, c, c', n);
    }
  }

  lemma KeepNothing(s: seq<Obs>, c: Time, n: nat)
    requires s == [] || n == 0
    ensures Keep(s, c, n) == []
  {
  }

  lemma Snoc(s: seq<Obs>)
    requires s != []
    ensures Front(s) + [Last(s)] == s
  {
  }

  lemma KeepInsertSnoc(f: seq<Obs>, x: Obs, o: Obs, c: Time, c': Time, n: nat)
    requires c <= c' && n != 0
    requires Keep(InsertByTime(Keep(f, c, n - 1), o), c', n - 1) == Keep(InsertByTime(f, o), c', n - 1)
    ensures Keep(InsertByTime(Keep(f + [x], c, n), o), c', n) == Keep(InsertByTime(f + [x], o), c', n)
  {
    hide *;
    KeepSnoc(f, x, c, n);
    InsertSnoc(f, x, o);
    if x.at <= o.at {
      FrontOfSnoc(f, x);
      KeepInsertLater(f + [x], o, c, c', n);
    } else {
      KeepSnoc(InsertByTime(f, o), x, c', n);
      if x.at >= c {
        InsertSnoc(Keep(f, c, n - 1), x, o);
        KeepSnoc(InsertByTime(Keep(f, c, n - 1), o), x, c', n);
      } else {
        KeepInsertNone(o, c', n);
      }
    }
  }

  lemma KeepInsertNone(o: Obs, c: Time, n: nat)
    ensures InsertByTime([], o) == [o]
    ensures Keep([o], c, n) == if n == 0 || o.at < c then [] else [o]
  {
    KeepSnoc([], o, c, n);
    assert [] + [o] == [o];
  }

  lemma {:induction false} KeepInsertLater(s: seq<Obs>, o: Obs, c: Time, c': Time, n: nat)
    requires c <= c' && s != [] && Last(s).at <= o.at && n != 0
    ensures Keep(InsertByTime(Keep(s, c, n), o), c', n) == Keep(InsertByTime(s, o), c', n)
  {
    var k := Keep(s, c, n);
    assert k == [] || Last(k) == Last(s);
    assert InsertByTime(s, o) == s + [o];
    assert InsertByTime(k, o) == k + [o];
    hide Keep, InsertByTime;
    KeepSnoc(s, o, c', n);
    KeepSnoc(k, o, c', n);
    KeepKeep(s, c, n, c', n - 1);
  }

  lemma {:induction false} KeepSorted(s: seq<Obs>, c: Time, n: nat)
    requires Sorted(s)
    ensures Sorted(Keep(s, c, n))
    ensures s != [] && 0 < n && Last(s).at >= c ==> Keep(s, c, n) != [] && Last(Keep(s, c, n)) == Last(s)
  {
    KeepIsSuffix(s, c, n);
  }

  /** One call of insertObservation on a sorted window. */
  lemma {:induction false} WindowInsert(w: seq<Obs>, o: Obs, n: nat, window: Time)
    requires Sorted(w) && 0 <= window
    ensures Insert(w, o, n, window) == Keep(InsertByTime(w, o), LatestOf(w, o) - window, n)
  {
    hide StableSort, InsertByTime, Keep, Cap, FirstSince, Sorted;
    SortOfSorted(w);
    SortAppend(w, o);
    InsertSorts(w, o);
    LastOfInsert(w, o);
    PruneAndCap(InsertByTime(w, o), LatestOf(w, o) - window, n);
  }

  /** The later of a sorted sequence's last instant and `o`'s. */
  function LatestOf(s: seq<Obs>, o: Obs): Time {
    if s == [] then o.at else Max(Last(s).at, o.at)
  }

  lemma {:induction false} LastOfInsert(s: seq<Obs>, o: Obs)
    ensures InsertByTime(s, o) != [] && Last(InsertByTime(s, o)).at == LatestOf(s, o)
  {
  }

  lemma {:induction false} LatestOfSort(h: seq<Obs>, o: Obs)
    ensures LatestAt(h + [o]) == LatestOf(StableSort(h), o)
  {
    FrontOfSnoc(h, o);
    if h != [] { LastIsLatest(h); }
  }

  /** The window of a non-empty history is not empty, is sorted and ends with the latest observation. */
  lemma {:induction false} WindowShape(h: seq<Obs>, n: nat, window: Time)
    requires 0 < n && 0 <= window
    ensures var w := Window(h, n, window);
      Sorted(w) && (w == [] <==> h == []) && (h != [] ==> Last(w) == Last(StableSort(h)) && Last(w).at == LatestAt(h))
  {
    hide StableSort, Keep, Sorted, LatestAt;
    SortSorts(h);
    if h != [] {
      LastIsLatest(h);
      KeepSorted(StableSort(h), LatestAt(h) - window, n);
    } else {
      EmptyIsSorted();
    }
  }

  lemma EmptyIsSorted()
    ensures Sorted([])
  {
  }

  /** The window maintained one observation at a time is the window of the whole history, whatever the
      order of arrival. */
  lemma {:induction false} WindowStep(h: seq<Obs>, o: Obs, n: nat, window: Time)
    requires 0 < n && 0 <= window
    ensures Insert(Window(h, n, window), o, n, window) == Window(h + [o], n, window)
  {
    hide StableSort, InsertByTime, Keep, Sorted, LatestAt, Insert;
    var w, t := Window(h, n, window), StableSort(h);
    WindowShape(h, n, window);
    WindowInsert(w, o, n, window);
    SortAppend(h, o);
    LatestOfSort(h, o);
    if h != [] {
      LastIsLatest(h);
      KeepInsert(t, o, LatestAt(h) - window, LatestAt(h + [o]) - window, n);
    } else {
      SortEmpty();
    }
  }

  lemma SortEmpty()
    ensures StableSort([]) == []
  {
  }

  // ---- The verdict ---------------------------------------------------------

  /** How many observations lie within `window` of the latest of them. */
  function Correlated(h: seq<Obs>, window: Time): nat
    requires h != []
  {
    CountSince(h, LatestAt(h) - window)
  }

  predicate Stale(h: seq<Obs>, o: Obs, window: Time) {
    h != [] && o.at < LatestAt(h) - window
  }

  /** The code's count: over the sorted candidates, since the signal's own cutoff. */
  function Candidates(w: seq<Obs>, o: Obs, window: Time): nat {
    CountSince(StableSort(w + [o]), o.at - window)
  }

  /** Counts over what is kept agree with the full sequence, up to the cap. */
  lemma {:induction false} KeepCount(s: seq<Obs>, c: Time, n: nat, c': Time)
    requires Sorted(s) && c <= c'
    ensures CountSince(Keep(s, c, n), c') == Min(n, CountSince(s, c'))
  {
    if s != [] {
      if Last(s).at < c' {
        CountNone(s, c');
        KeepSorted(s, c, n);
        if Keep(s, c, n) != [] { CountNone(Keep(s, c, n), c'); }
      } else if n != 0 {
        FrontOfSnoc(Keep(Front(s), c, n - 1), Last(s));
        KeepCount(Front(s), c, n - 1, c');
      }
    }
  }

  /** Everything kept since `c` counts since any earlier cutoff too. */
  lemma {:induction false} KeepCountEarlier(s: seq<Obs>, c: Time, n: nat, c': Time)
    requires c' <= c
    ensures CountSince(Keep(s, c, n), c') == CountSince(Keep(s, c, n), c)
  {
    if s != [] && n != 0 && Last(s).at >= c {
      FrontOfSnoc(Keep(Front(s), c, n - 1), Last(s));
      KeepCountEarlier(Front(s), c, n - 1, c');
    }
  }

  /** The M-of-N test over the maintained window agrees with a naive count over the full history, for
      in-order and out-of-order signals alike. */
  lemma {:induction false} VerdictAgrees(h: seq<Obs>, o: Obs, m: nat, n: nat, window: Time)
    requires 1 <= m <= n && 0 <= window && !Stale(h, o, window)
    ensures Candidates(Window(h, n, window), o, window) >= m <==> Correlated(h + [o], window) >= m
  {
    hide StableSort, Keep, Sorted, LatestAt, CountSince;
    var w := Window(h, n, window);
    CountSort(w + [o], o.at - window);
    CountSnoc(w, o, o.at - window);
    LatestOfSort(h, o);
    var c' := LatestAt(h + [o]) - window;
    CountSnoc(h, o, c');
    if h == [] {
    } else {
      LastIsLatest(h);
      var c := LatestAt(h) - window;
      SortSorts(h);
      CountSort(h, c');
      KeepCount(StableSort(h), c, n, c');
      if o.at < LatestAt(h) {
        KeepCountEarlier(StableSort(h), c, n, o.at - window);
      }
    }
  }

  lemma CountSnoc(f: seq<Obs>, x: Obs, c: Time)
    ensures CountSince(f + [x], c) == CountSince(f, c) + if x.at >= c then 1 else 0
  {
    FrontOfSnoc(f, x);
  }

  /** The staleness test against the window's last observation is the test against the whole history. */
  lemma {:induction false} StalenessAgrees(h: seq<Obs>, o: Obs, n: nat, window: Time)
    requires 0 < n && 0 <= window
    ensures Stale(h, o, window) <==>
      (Window(h, n, window) != [] && o.at < Last(Window(h, n, window)).at - window)
  {
    hide Keep, LatestAt;
    WindowShape(h, n, window);
  }
}
