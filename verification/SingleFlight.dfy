/** The single-flight gate shared by the executor and the orchestrator: a result cache, and at most one
    running flight per id (edge/agent/response/executor.go:265-303, edge/agent/orchestrator/orchestrator.go:463-505). */
module SingleFlight {
  import opened Common

  /** What a flight publishes: result and error, as the call returns them. */
  datatype Outcome<R, E> = Outcome(res: Option<R>, err: Option<E>)

  /** `leader` is the caller that registered the flight; `outcome` is set when `done` closes. */
  datatype Flight<R, E> = Flight(id: string, leader: nat, outcome: Option<Outcome<R, E>>)

  datatype Gate<R, E> = Gate(history: map<string, R>, inFlight: map<string, nat>, flights: seq<Flight<R, E>>)

  datatype Entry<R> = Hit(res: R) | Follow(flight: nat) | Lead(flight: nat)

  /** The gate's critical section: a cached result, else the running flight, else a new one. */
  function Enter<R, E>(g: Gate<R, E>, id: string, caller: nat): (Gate<R, E>, Entry<R>) {
    if id in g.history then (g, Hit(g.history[id]))
    else if id in g.inFlight then (g, Follow(g.inFlight[id]))
    else (Gate(g.history, g.inFlight[id := |g.flights|], g.flights + [Flight(id, caller, None)]), Lead(|g.flights|))
  }

  /** The leader's deferred critical section: publish, cache if `keep`, close. */
  function Finish<R, E>(g: Gate<R, E>, f: nat, o: Outcome<R, E>, keep: bool): Gate<R, E>
    requires f < |g.flights|
  {
    var fl := g.flights[f];
    Gate(if keep && o.res.Some? then g.history[fl.id := o.res.value] else g.history,
         g.inFlight - {fl.id},
         g.flights[f := fl.(outcome := Some(o))])
  }

  function Cache<R, E>(g: Gate<R, E>, id: string, res: R): Gate<R, E> {
    g.(history := g.history[id := res])
  }

  predicate Running<R, E>(g: Gate<R, E>, f: nat) {
    f < |g.flights| && g.flights[f].outcome.None?
  }

  /** The running flights are exactly the registered ones, one per id. */
  predicate GateOk<R, E>(g: Gate<R, E>) {
    && (forall id :: id in g.inFlight ==> Running(g, g.inFlight[id]) && g.flights[g.inFlight[id]].id == id)
    && (forall f :: 0 <= f < |g.flights| && Running(g, f) ==> g.flights[f].id in g.inFlight && g.inFlight[g.flights[f].id] == f)
  }

  lemma EnterKeepsGate<R, E>(g: Gate<R, E>, id: string, caller: nat)
    requires GateOk(g)
    ensures GateOk(Enter(g, id, caller).0)
  {
  }

  lemma FinishKeepsGate<R, E>(g: Gate<R, E>, f: nat, o: Outcome<R, E>, keep: bool)
    requires GateOk(g) && Running(g, f)
    ensures GateOk(Finish(g, f, o, keep))
  {
  }

  lemma OneFlightPerId<R, E>(g: Gate<R, E>, f: nat, f': nat)
    requires GateOk(g) && Running(g, f) && Running(g, f') && g.flights[f].id == g.flights[f'].id
    ensures f == f'
  {
  }
}
