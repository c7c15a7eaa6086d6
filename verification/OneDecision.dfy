/** The orchestrator and an executor over one mitigation table, when the rules give an incident one decision: its
    later attempts pass the id that the first attempt recorded (orchestrator.go:839-844, 915,
    response/decision.go:94-107, response/executor.go:425-440). */
module OneDecision {
  import opened Common
  import opened SingleFlight
  import opened Orchestrator
  import opened ExecutionLimit
  import opened SharedStore
  import Executor

  // ---- One decision per incident ----------------------------------------------------------------

  /** Others insert no row of the incident, unless under the decision's own id. */
  predicate OwnRows(steps: seq<Step>, incident: string, d: string) {
    forall i :: 0 <= i < |steps| && steps[i].OtherInsert? ==> steps[i].m.incident != incident || steps[i].m.decision == d
  }

  predicate PhaseNamed(table: seq<Mitigation>, p: Phase, d: string) {
    match p
    case Top(attempt) => attempt >= 1 && (attempt > 1 ==> Named(table, d))
    case Recorded(attempt, m, passed) => attempt >= 1 && passed == d && Named(table, d)
    case _ => true
  }

  /** Once the incident has a row, the decision's own id is in the table. */
  predicate FirstIsNamed(o: Sys, incident: string, d: string) {
    && (Rows(o.table, incident) > 0 ==> Named(o.table, d))
    && forall f :: f in o.cycles && Running(o.gate, f) && o.gate.flights[f].id == incident ==>
         PhaseNamed(o.table, o.cycles[f], d)
  }

  lemma NamedGrows(table: seq<Mitigation>, table': seq<Mitigation>, d: string)
    requires Grows(table, table') && Named(table, d)
    ensures Named(table', d)
  {
    var i :| 0 <= i < |table| && table[i].decision == d;
    assert table'[i].decision == d;
  }

  /** More rows keep what is named; they may be of the incident only if the decision is named afterwards. */
  lemma GrowingKeepsFirst(o: Sys, table: seq<Mitigation>, incident: string, d: string)
    requires FirstIsNamed(o, incident, d) && Grows(o.table, table)
    requires Rows(table, incident) > 0 ==> Named(table, d) || Rows(o.table, incident) > 0
    ensures FirstIsNamed(o.(table := table), incident, d)
  {
    if Named(o.table, d) { NamedGrows(o.table, table, d); }
    hide Named, Grows, Rows;
  }

  lemma MovingKeepsFirst(o: Sys, f: nat, p: Phase, incident: string, d: string)
    requires FirstIsNamed(o, incident, d)
    requires Running(o.gate, f) && (o.gate.flights[f].id == incident ==> PhaseNamed(o.table, p, d))
    ensures FirstIsNamed(o.(cycles := o.cycles[f := p]), incident, d)
  {
    hide Named, Rows, PhaseNamed;
  }

  lemma PreparedIsNamed(table: seq<Mitigation>, incident: string, pre: Pre, d: string)
    requires Rows(table, incident) > 0 ==> Named(table, d)
    ensures PhaseNamed(table, Prepared(table, incident, pre), d)
  {
    hide Named, RowsOf;
  }

  lemma RecordIsNamed(ceiling: int, table: seq<Mitigation>, incident: string, attempt: int,
          r: Round)
    requires PhaseNamed(table, Top(attempt), "dec-" + r.tail)
    ensures var (t, p) := TopOfAttempt(ceiling, table, incident, attempt, r);
      && PhaseNamed(t, p, "dec-" + r.tail) && Grows(table, t)
      && (t == table || Named(t, "dec-" + r.tail))
  {
    var (t, p) := TopOfAttempt(ceiling, table, incident, attempt, r);
    hide Named, RecordFor, Taken, Suffix;
    if p.Recorded? {
      RecordedRow(ceiling, table, incident, attempt, r);
      assert t == table + [p.m];
      NamedAppend(table, p.m, "dec-" + r.tail);
    }
  }

  lemma RecordOfAnother(ceiling: int, table: seq<Mitigation>, id: string, attempt: int,
          r: Round, incident: string)
    requires id != incident
    ensures var t := TopOfAttempt(ceiling, table, id, attempt, r).0;
      Grows(table, t) && Rows(t, incident) == Rows(table, incident)
  {
    var m := RecordFor(id, r.tail, attempt);
    RecordForIncident(id, r.tail, attempt);
    hide RecordFor, Taken, RowsOf;
    RowsAppend(table, m, incident);
  }

  lemma RecordingKeepsFirst(ceiling: int, o: Sys, f: nat, attempt: int, r: Round,
          incident: string, tail: string)
    requires FirstIsNamed(o, incident, "dec-" + tail) && Running(o.gate, f) && f in o.cycles
    requires o.cycles[f] == Top(attempt) && (o.gate.flights[f].id == incident ==> r.tail == tail)
    ensures var (t, p) := TopOfAttempt(ceiling, o.table, o.gate.flights[f].id, attempt, r);
      FirstIsNamed(o.(table := t, cycles := o.cycles[f := p]), incident, "dec-" + tail)
  {
    var id, d := o.gate.flights[f].id, "dec-" + tail;
    assert id == incident ==> PhaseNamed(o.table, o.cycles[f], d);
    assert Rows(o.table, incident) > 0 ==> Named(o.table, d);
    hide FirstIsNamed, Named, PhaseNamed, TopOfAttempt, Rows, Grows;
    var (t, p) := TopOfAttempt(ceiling, o.table, id, attempt, r);
    if id == incident {
      RecordIsNamed(ceiling, o.table, id, attempt, r);
    } else {
      RecordOfAnother(ceiling, o.table, id, attempt, r, incident);
    }
    GrowingKeepsFirst(o, t, incident, d);
    MovingKeepsFirst(o.(table := t), f, p, incident, d);
    assert o.(table := t).(cycles := o.cycles[f := p]) == o.(table := t, cycles := o.cycles[f := p]);
  }

  lemma {:induction false} StepKeepsFirst(ceiling: int, o: Sys, step: Step, incident: string,
          tail: string)
    requires FirstIsNamed(o, incident, "dec-" + tail) && OwnRows([step], incident, "dec-" + tail)
    requires Decides(o, step, incident, {tail})
    requires CyclesHaveFlights(o)
    ensures FirstIsNamed(Next(ceiling, o, step), incident, "dec-" + tail)
  {
    var d := "dec-" + tail;
    if step.OtherInsert? {
      assert [step][0] == step;
      InsertKeepsFirst(o, step.m, incident, d);
    } else if step.OtherUpdate? {
      if step.i < |o.table| { UpdateKeepsFirst(o, step.i, step.status, incident, d); }
    } else if step.Orchestrate? || step.Restart? {
      hide Named, PhaseNamed, Rows;
      assert PhaseNamed(o.table, Preparing, d) by { PreparingIsNamed(o.table, d); }
    } else if step.f in o.cycles && Running(o.gate, step.f) {
      CycleKeepsFirst(ceiling, o, step.f, step, incident, tail);
    }
  }

  lemma PreparingIsNamed(table: seq<Mitigation>, d: string)
    ensures PhaseNamed(table, Preparing, d)
  {
  }

  lemma InsertKeepsFirst(o: Sys, m: Mitigation, incident: string, d: string)
    requires FirstIsNamed(o, incident, d) && (m.incident != incident || m.decision == d)
    ensures FirstIsNamed(o.(table := o.table + [m]), incident, d)
  {
    RowsAppend(o.table, m, incident);
    NamedAppend(o.table, m, d);
    hide RowsOf, Named, FirstIsNamed;
    GrowingKeepsFirst(o, o.table + [m], incident, d);
  }

  lemma UpdateKeepsFirst(o: Sys, i: nat, status: MitigationStatus, incident: string, d: string)
    requires FirstIsNamed(o, incident, d) && i < |o.table|
    ensures FirstIsNamed(o.(table := o.table[i := o.table[i].(status := status)]), incident, d)
  {
    RowsUpdate(o.table, i, status, incident);
    hide RowsOf, Named, FirstIsNamed;
    GrowingKeepsFirst(o, o.table[i := o.table[i].(status := status)], incident, d);
  }

  lemma CycleKeepsFirst(ceiling: int, o: Sys, f: nat, step: Step, incident: string, tail: string)
    requires FirstIsNamed(o, incident, "dec-" + tail) && Decides(o, step, incident, {tail})
    requires Running(o.gate, f) && f in o.cycles
    requires step.TryRecord? ==> step.f == f
    ensures FirstIsNamed(CycleStep(ceiling, o, f, o.gate.flights[f].id, o.cycles[f], step), incident, "dec-" + tail)
  {
    var id, p, d := o.gate.flights[f].id, o.cycles[f], "dec-" + tail;
    assert id == incident ==> PhaseNamed(o.table, p, d);
    if p.Preparing? {
      if step.Prepare? {
        if id == incident { PreparedIsNamed(o.table, id, step.pre, d); }
        hide Prepared;
        MovingKeepsFirst(o, f, Prepared(o.table, id, step.pre), incident, d);
      }
    } else if p.Top? {
      if step.TryRecord? {
        hide TopOfAttempt, FirstIsNamed;
        RecordingKeepsFirst(ceiling, o, f, p.attempt, step.round, incident, tail);
      }
    } else if p.Recorded? {
      if step.Execute? {
        AfterIsNamed(ceiling, o.table, p, step.round, d, incident, id);
        hide PhaseNamed, Named, Rows;
      }
    } else {
      hide PhaseNamed, Named, Rows;
    }
  }

  lemma AfterIsNamed(ceiling: int, table: seq<Mitigation>, p: Phase, r: Round,
          d: string, incident: string, id: string)
    requires p.Recorded? && (id == incident ==> PhaseNamed(table, p, d))
    ensures id == incident ==> PhaseNamed(table, AfterExecution(p.attempt, r), d)
  {
  }

  lemma {:induction false} RunKeepsFirst(ceiling: int, o: Sys, steps: seq<Step>, incident: string, tail: string)
    requires FirstIsNamed(o, incident, "dec-" + tail) && OwnRows(steps, incident, "dec-" + tail) && CyclesHaveFlights(o)
    requires DecidesWithin(ceiling, o, steps, incident, {tail})
    ensures FirstIsNamed(Run(ceiling, o, steps), incident, "dec-" + tail) && CyclesHaveFlights(Run(ceiling, o, steps))
  {
    hide Next, FirstIsNamed, CyclesHaveFlights, Decides;
    if steps != [] {
      var front, last := steps[..|steps| - 1], steps[|steps| - 1];
      RunKeepsFirst(ceiling, o, front, incident, tail);
      StepKeepsFirst(ceiling, Run(ceiling, o, front), last, incident, tail);
      StepKeepsFlights(ceiling, Run(ceiling, o, front), last);
    }
  }

  lemma CallIsNamed(ceiling: int, o: Sys, step: Step, incident: string, d: string)
    requires FirstIsNamed(o, incident, d) && |Next(ceiling, o, step).calls| > |o.calls|
    requires Next(ceiling, o, step).calls[|o.calls|].incident == incident
    ensures Next(ceiling, o, step).calls[|o.calls|].passed == d && Named(o.table, d)
  {
    hide Named, Rows;
    assert PhaseNamed(o.table, o.cycles[step.f], d);
  }

  /** While the rules give an incident one decision, none of its calls is ever simulated by an executor that shares the
      table: on any attempt, after any number of cycles, crashes and updates, and whatever happens afterwards. */
  lemma {:induction false} OneDecisionNeverSimulates(ceiling: int, table: seq<Mitigation>, before: seq<Step>, step: Step,
          incident: string, tail: string, s: Executor.Sys, after: seq<SharedStep>)
    requires Rows(table, incident) > 0 ==> Named(table, "dec-" + tail)
    requires DecidesWithin(ceiling, Start(table), before, incident, {tail}) && OwnRows(before, incident, "dec-" + tail)
    requires var o := Run(ceiling, Start(table), before);
      && |Next(ceiling, o, step).calls| > |o.calls| && Next(ceiling, o, step).calls[|o.calls|].incident == incident
      && s.store == Some(View(o.table)) && Executor.ProtocolOk(s) && Healthy(after)
      && Executor.NobodyPastTheStore(s, Next(ceiling, o, step).calls[|o.calls|].passed)
    ensures var o := Run(ceiling, Start(table), before);
      var passed := Next(ceiling, o, step).calls[|o.calls|].passed;
      passed == "dec-" + tail && Executor.Runs(SharedRun(s, after).sims, passed) == Executor.Runs(s.sims, passed)
  {
    var o := Run(ceiling, Start(table), before);
    var d := "dec-" + tail;
    StartIsNamed(table, incident, d);
    RunKeepsFirst(ceiling, Start(table), before, incident, tail);
    hide Run, Next, FirstIsNamed, Named, View, Healthy, Executor.ProtocolOk, Executor.NobodyPastTheStore, Executor.Runs,
      SharedRun;
    CallIsNamed(ceiling, o, step, incident, d);
    ViewKeys(o.table, d);
    StoredNeverSimulates(s, after, d);
  }

  lemma StartIsNamed(table: seq<Mitigation>, incident: string, d: string)
    requires Rows(table, incident) > 0 ==> Named(table, d)
    ensures FirstIsNamed(Start(table), incident, d) && CyclesHaveFlights(Start(table))
  {
  }
}
