/** The engine itself: stream states updated in place, loops for sorting, counting and pruning
    (edge/agent/incident/engine.go). Every method is proved to do what IncidentEngine specifies. */
module LocalIncidentEngine {
  import opened Common
  import opened ObservationWindow
  import opened IncidentEngine

  class StreamState {
    var observations: seq<Obs>
    var seen: map<string, Time>
    var active: Option<Incident>

    function View(): Stream
      reads this
    {
      Stream(observations, seen, active)
    }

    constructor ()
      ensures View() == Stream([], map[], None)
    {
      observations, seen, active := [], map[], None;
    }

    /** insertObservation */
    method InsertObservation(o: Obs, maxN: nat, window: Time)
      modifies this`observations
      ensures observations == Insert(old(observations), o, maxN, window)
    {
      hide StableSort, FirstSince;
      observations := SortStable(observations + [o]);
      var cutoff := observations[|observations| - 1].at - window;
      var validIdx := FindFirst(observations, cutoff);
      observations := observations[validIdx..];
      if |observations| > maxN {
        observations := observations[|observations| - maxN..];
      }
    }
  }

  method FindFirst(s: seq<Obs>, cutoff: Time) returns (validIdx: nat)
    ensures validIdx == FirstSince(s, cutoff, 0)
  {
    validIdx := 0;
    for i := 0 to |s|
      invariant validIdx == 0 && FirstSince(s, cutoff, 0) == FirstSince(s, cutoff, i)
    {
      if s[i].at >= cutoff { return i; }
    }
  }

  /** sort.SliceStable by detection time. */
  method SortStable(s: seq<Obs>) returns (r: seq<Obs>)
    ensures r == StableSort(s) && |r| == |s|
  {
    r := [];
    for i := 0 to |s|
      invariant r == StableSort(s[..i])
    {
      assert s[..i + 1] == s[..i] + [s[i]];
      SortAppend(s[..i], s[i]);
      r := InsertSorted(r, s[i]);
    }
    assert s[..|s|] == s;
  }

  method InsertSorted(s: seq<Obs>, o: Obs) returns (r: seq<Obs>)
    ensures r == InsertByTime(s, o)
  {
    var j := |s|;
    assert s[..j] == s && InsertByTime(s[..j], o) + s[j..] == InsertByTime(s, o);
    while j > 0 && s[j - 1].at > o.at
      invariant 0 <= j <= |s|
      invariant InsertByTime(s, o) == InsertByTime(s[..j], o) + s[j..]
    {
      InsertBefore(s, j, o);
      j := j - 1;
    }
    r := s[..j] + [o] + s[j..];
  }

  lemma InsertBefore(s: seq<Obs>, j: nat, o: Obs)
    requires 0 < j <= |s| && s[j - 1].at > o.at
    ensures InsertByTime(s[..j], o) + s[j..] == InsertByTime(s[..j - 1], o) + s[j - 1..]
  {
    assert s[..j] == s[..j - 1] + [s[j - 1]];
    InsertSnoc(s[..j - 1], s[j - 1], o);
    hide InsertByTime;
    assert s[j - 1..] == [s[j - 1]] + s[j..];
  }

  /** The candidates within the window of the new signal. */
  method CountCandidates(observations: seq<Obs>, o: Obs, window: Time) returns (count: nat)
    ensures count == Candidates(observations, o, window)
  {
    var candidates := SortStable(observations + [o]);
    var cutoff := o.at - window;
    count := 0;
    for i := 0 to |candidates|
      invariant count == CountSince(candidates[..i], cutoff)
    {
      assert candidates[..i + 1] == candidates[..i] + [candidates[i]];
      CountSnoc(candidates[..i], candidates[i], cutoff);
      if candidates[i].at >= cutoff { count := count + 1; }
    }
    assert candidates[..|candidates|] == candidates;
  }

  lemma RememberWindowed(cfg: Config, s: seq<Obs>, o: Obs)
    ensures Remember(Windowed, cfg, s, o) == Insert(s, o, cfg.n, cfg.window)
  {
  }

  class LocalEngine {
    const cfg: Config
    var streams: map<Key, StreamState>
    var db: Db

    ghost predicate Valid()
      reads this
    {
      cfg.Valid() && forall j, k :: j in streams && k in streams && j != k ==> streams[j] != streams[k]
    }

    ghost function View(): World
      reads this, streams.Values
    {
      World(map k | k in streams :: streams[k].View(), db)
    }

    constructor (cfg: Config, db: Db)
      requires cfg.Valid()
      ensures Valid() && this.cfg == cfg && View() == Started(db)
    {
      this.cfg := cfg;
      streams := map[];
      this.db := db;
    }

    /** Changing one stream changes one entry of the view. */
    twostate lemma OneChanged(key: Key)
      requires Valid() && streams == old(streams) && key in streams
      requires forall k :: k in streams && k != key ==> streams[k].View() == old(streams[k].View())
      ensures View().streams == old(View().streams)[key := streams[key].View()]
    {
    }

    method StreamOf(key: Key) returns (st: StreamState)
      requires Valid()
      modifies this`streams
      ensures Valid() && key in streams && streams[key] == st && (fresh(st) || st in old(streams.Values))
      ensures streams == old(streams)[key := st] && fresh(streams.Values - old(streams.Values))
      ensures View() == old(View()).(streams := old(View()).streams[key := StreamIn(old(View()).streams, key)])
    {
      if key !in streams {
        st := new StreamState();
        streams := streams[key := st];
      } else {
        st := streams[key];
        assert View().streams == View().streams[key := st.View()];
      }
    }

    /** Persists the observation with its incident and only then updates the stream. */
    method Commit(st: StreamState, sig: Signal, inc: Option<Incident>, env: Env) returns (r: Reply)
      requires Valid() && sig.key in streams && streams[sig.key] == st
      modifies this`db, st
      ensures Valid()
      ensures (View(), r) == Accept(Windowed, cfg, old(View()), old(st.View()), sig, inc, env)
    {
      hide Insert, Persist, Remember;
      if cfg.hasStore {
        var stored := Persist(db, sig, inc, env.persistFails);
        if stored.None? { return Err(StoreFailed); }
        db := stored.value;
      }
      if inc.Some? { st.active := inc; }
      st.seen := st.seen[sig.id := sig.at];
      st.InsertObservation(sig.Observation(), cfg.n, cfg.window);
      OneChanged(sig.key);
      RememberWindowed(cfg, old(st.observations), sig.Observation());
      return Ok(inc);
    }

    method Process(sig: Signal, env: Env) returns (r: Reply)
      requires Valid()
      modifies this, streams.Values
      ensures Valid() && fresh(streams.Values - old(streams.Values))
      ensures (View(), r) == IncidentEngine.Process(Windowed, cfg, old(View()), sig, env)
    {
      hide IncidentEngine.Correlate;
      if !sig.wellFormed { return Err(InvalidSignal); }
      var st := StreamOf(sig.key);
      assert View().streams[sig.key] == st.View();
      r := Correlate(st, sig, env);
    }

    method Correlate(st: StreamState, sig: Signal, env: Env) returns (r: Reply)
      requires Valid() && sig.key in streams && streams[sig.key] == st
      modifies this`db, st
      ensures Valid()
      ensures (View(), r) == IncidentEngine.Correlate(Windowed, cfg, old(View()), old(st.View()), sig, env)
    {
      hide Accept, Candidates;
      if sig.id in st.seen { return Ok(st.active); }
      if cfg.hasStore {
        if env.hasFails { return Err(StoreFailed); }
        if sig.id in db.observations {
          st.seen := st.seen[sig.id := sig.at];
          OneChanged(sig.key);
          return Ok(st.active);
        }
      }
      if |st.observations| > 0 {
        var latest := st.observations[|st.observations| - 1].at;
        if sig.at < latest - cfg.window { return Err(StaleSignal); }
      }
      if st.active.Some? && IsActive(st.active.value.status) {
        r := Commit(st, sig, Some(Refreshed(st.active.value, sig)), env);
        return;
      }
      var count := CountCandidates(st.observations, sig.Observation(), cfg.window);
      if count < cfg.m {
        r := Commit(st, sig, None, env);
        return;
      }
      if env.newId.None? { return Err(IdFailed); }
      var inc := Created(cfg, sig, env.newId.value);
      if !ValidIncident(inc) { return Err(InvalidIncident); }
      r := Commit(st, sig, Some(inc), env);
    }

    method TransitionActiveIncident(key: Key, target: Status, now: Time, fails: bool) returns (r: Reply)
      requires Valid()
      modifies this, streams.Values
      ensures Valid() && streams == old(streams)
      ensures (View(), r) == Transition(cfg, old(View()), key, target, now, fails)
    {
      if key !in streams || streams[key].active.None? { return Err(NoActiveIncident); }
      var st := streams[key];
      if !CanTransition(st.active.value.status, target) { return Err(InvalidTransition); }
      var inc := TransitionTo(st.active.value, target, now);
      if cfg.hasStore {
        var stored := UpdateStatus(db, inc, fails);
        if stored.Err? { return Err(stored.error); }
        db := stored.value;
      }
      st.active := Some(inc);
      if target == Normal {
        st.active := None;
        st.observations := [];
      } else if target == Recovered {
        st.observations := [];
      }
      OneChanged(key);
      return Ok(Some(inc));
    }

    method ResolveIncident(key: Key, now: Time, fails: bool) returns (r: Reply)
      requires Valid()
      modifies this, streams.Values
      ensures Valid() && streams == old(streams)
      ensures (View(), r) == Transition(cfg, old(View()), key, Recovered, now, fails)
    {
      r := TransitionActiveIncident(key, Recovered, now, fails);
    }

    method CloseActiveIncident(key: Key, now: Time, fails: bool) returns (r: Reply)
      requires Valid()
      modifies this, streams.Values
      ensures Valid() && streams == old(streams)
      ensures (View(), r) == Close(cfg, old(View()), key, now, fails)
    {
      if key !in streams || streams[key].active.None? { return Err(NoActiveIncident); }
      var st := streams[key];
      var inc := st.active.value;
      if CanTransition(inc.status, Recovered) {
        inc := TransitionTo(inc, Recovered, now);
        st.active := Some(inc);
        if cfg.hasStore {
          var stored := UpdateStatus(db, inc, fails);
          OneChanged(key);
          if stored.Err? { return Err(stored.error); }
          db := stored.value;
        }
      } else {
        inc := inc.(updatedAt := now);
      }
      st.active := None;
      st.observations := [];
      OneChanged(key);
      return Ok(Some(inc));
    }

    /** RecoverFromStoreAt, given what its two queries return. */
    method RecoverFromStoreAt(listed: Option<seq<Incident>>, recent: Option<seq<ObsRow>>)
      requires Valid()
      modifies this, streams.Values
      ensures Valid() && fresh(streams.Values - old(streams.Values))
      ensures View() == Recover(cfg, old(View()), listed, recent)
    {
      if !cfg.hasStore || listed.None? { return; }
      RestoreStreams(listed.value);
      if recent.Some? { ReplayObservations(recent.value); }
    }

    method RestoreStreams(rows: seq<Incident>)
      requires Valid()
      modifies this`streams, streams.Values
      ensures Valid() && fresh(streams.Values - old(streams.Values))
      ensures View() == old(View()).(streams := Restore(old(View()).streams, rows))
    {
      for i := 0 to |rows|
        invariant Valid() && fresh(streams.Values - old(streams.Values))
        invariant View() == old(View()).(streams := Restore(old(View()).streams, rows[..i]))
      {
        RestoreOne(rows[i]);
        assert rows[..i + 1][..i] == rows[..i];
      }
      assert rows[..|rows|] == rows;
    }

    method RestoreOne(inc: Incident)
      requires Valid()
      modifies this`streams, streams.Values
      ensures Valid() && fresh(streams.Values - old(streams.Values))
      ensures View() == old(View()).(streams :=
        old(View()).streams[inc.key := StreamIn(old(View()).streams, inc.key).(active := Some(inc))])
    {
      hide StreamIn;
      var st := StreamOf(inc.key);
      assert View().streams[inc.key] == st.View();
      SetActive(st, inc);
    }

    method ReplayObservations(rows: seq<ObsRow>)
      requires Valid()
      modifies this`streams, streams.Values
      ensures Valid() && fresh(streams.Values - old(streams.Values))
      ensures View() == old(View()).(streams := Replay(cfg, old(View()).streams, rows))
    {
      hide Insert;
      for i := 0 to |rows|
        invariant Valid() && fresh(streams.Values - old(streams.Values))
        invariant View() == old(View()).(streams := Replay(cfg, old(View()).streams, rows[..i]))
      {
        ReplayOne(rows[i]);
        assert rows[..i + 1][..i] == rows[..i];
      }
      assert rows[..|rows|] == rows;
    }

    method ReplayOne(row: ObsRow)
      requires Valid()
      modifies this`streams, streams.Values
      ensures Valid() && fresh(streams.Values - old(streams.Values))
      ensures View() == old(View()).(streams := old(View()).streams[row.key :=
        var st := StreamIn(old(View()).streams, row.key);
        st.(seen := st.seen[row.id := row.at],
            observations := Insert(st.observations, Obs(row.id, row.at), cfg.n, cfg.window))])
    {
      hide Insert;
      hide StreamIn;
      var st := StreamOf(row.key);
      assert View().streams[row.key] == st.View();
      AddObservation(st, row);
    }

    method SetActive(st: StreamState, inc: Incident)
      requires Valid() && inc.key in streams && streams[inc.key] == st
      modifies st
      ensures Valid()
      ensures View() == old(View()).(streams := old(View()).streams[inc.key := old(st.View()).(active := Some(inc))])
    {
      st.active := Some(inc);
      OneChanged(inc.key);
    }

    method AddObservation(st: StreamState, row: ObsRow)
      requires Valid() && row.key in streams && streams[row.key] == st
      modifies st
      ensures Valid()
      ensures View() == old(View()).(streams := old(View()).streams[row.key := old(st.View()).(
        seen := old(st.seen)[row.id := row.at],
        observations := Insert(old(st.observations), Obs(row.id, row.at), cfg.n, cfg.window))])
    {
      hide Insert;
      st.seen := st.seen[row.id := row.at];
      st.InsertObservation(Obs(row.id, row.at), cfg.n, cfg.window);
      OneChanged(row.key);
    }
  }
}
