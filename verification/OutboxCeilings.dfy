/** A turn that exhausted a ceiling no operator can raise is parked with a
    marked reason, and a revival skips marked rows. This module says exactly
    when that keeps the turn from ever being bought again. */
module OutboxCeilings {
  import opened Common
  import opened Outbox
  import opened OutboxSafety

  // The handling can only end by parking the row with a marked reason again.
  predicate Doomed(s: State, id: nat)
    requires id in s.held
  {
    match s.held[id].stage
    case Taken => false
    case Deciding(failure, _) => failure.Terminal? && UNREMEDIABLE <= failure.why
    case Ran(run) =>
      run < |s.runs| && s.runs[run].outcome.Failed? && s.runs[run].outcome.turns == 0
      && Ceiling(s.runs[run].outcome.error)
  }

  predicate ParkedForGood(row: Row) {
    !row.published && row.attempts >= MAX_ATTEMPTS && Unremediable(row)
  }

  // Parked for good, and nobody who could say otherwise still holds the row.
  predicate Frozen(s: State, event: nat) {
    && event in s.rows && ParkedForGood(s.rows[event])
    && forall id :: id in s.held && s.held[id].event == event ==> Doomed(s, id)
  }

  function RunCount(s: State, event: nat): nat {
    RunsOn(s.runs, event, |s.runs|)
  }

  lemma SetFateKeepsRuns(s: State, run: nat, fate: Fate, event: nat)
    requires run < |s.runs|
    ensures RunCount(SetFate(s, run, fate), event) == RunCount(s, event)
  {
    SameRuns(s.runs, SetFate(s, run, fate).runs, event, |s.runs|);
  }

  lemma DoomedStays(s: State, t: State, id: nat)
    requires id in s.held && id in t.held && t.held[id].stage == s.held[id].stage && Doomed(s, id)
    requires |s.runs| <= |t.runs| && forall i :: 0 <= i < |s.runs| ==> t.runs[i].outcome == s.runs[i].outcome
    ensures Doomed(t, id)
  {
  }

  lemma BankOutcomes(s: State, id: nat, end: Commit)
    ensures var t := BankStep(s, id, end);
      && t.rows == s.rows && |t.runs| == |s.runs|
      && (forall i :: 0 <= i < |s.runs| ==> t.runs[i].outcome == s.runs[i].outcome)
      && t.held.Keys == s.held.Keys
      && (forall q :: q in s.held && q != id ==> t.held[q] == s.held[q])
      && (id in s.held ==> t.held[id].event == s.held[id].event)
  {
  }

  lemma DoomedBank(s: State, id: nat, end: Commit)
    requires id in s.held && Doomed(s, id)
    ensures Doomed(BankStep(s, id, end), id)
  {
    if RanOn(s, id) && s.runs[s.held[id].stage.run].outcome.Failed? {
      OnlyCeilingsAreFinal(s.runs[s.held[id].stage.run].outcome.error);
    }
  }

  lemma FrozenBank(s: State, id: nat, end: Commit, event: nat)
    requires Frozen(s, event)
    ensures Frozen(BankStep(s, id, end), event)
  {
    BankOutcomes(s, id, end);
    var t := BankStep(s, id, end);
    forall q | q in t.held && t.held[q].event == event
      ensures Doomed(t, q)
    {
      assert Doomed(s, q);
      if q == id {
        DoomedBank(s, id, end);
      } else {
        DoomedStays(s, t, q);
      }
    }
  }

  lemma FrozenSettle(s: State, id: nat, settlement: Settlement, event: nat)
    requires HeldOk(s) && Frozen(s, event)
    ensures Frozen(SettleStep(s, id, settlement), event)
  {
    var t := SettleStep(s, id, settlement);
    if RanOn(s, id) && s.runs[s.held[id].stage.run].outcome.Finished? {
      assert s.held[id].event == event ==> Doomed(s, id);
      assert t.rows[event] == s.rows[event];
      forall q | q in t.held && t.held[q].event == event
        ensures Doomed(t, q)
      {
        assert q != id && t.held[q] == s.held[q] && Doomed(s, q);
      }
    }
  }

  lemma FrozenReport(s: State, id: nat, written: bool, event: nat)
    requires Frozen(s, event)
    ensures Frozen(ReportStep(s, id, written), event)
  {
    var t := ReportStep(s, id, written);
    assert id in s.held && s.held[id].event == event ==> Doomed(s, id);
    forall q | q in t.held && t.held[q].event == event
      ensures Doomed(t, q)
    {
      assert Doomed(s, q);
    }
  }

  lemma FrozenQuiet(s: State, step: Step, event: nat)
    requires Frozen(s, event)
    requires !step.Bank? && !step.Settle? && !step.Report?
    ensures Frozen(Next(s, step), event)
  {
    var t := Next(s, step);
    assert t.rows[event] == s.rows[event];
    forall q | q in t.held && t.held[q].event == event
      ensures Doomed(t, q)
    {
      assert q in s.held && s.held[q].event == event;
      assert Doomed(s, q);
      DoomedStays(s, t, q);
    }
  }

  lemma FrozenKeeps(s: State, step: Step, event: nat)
    requires HeldOk(s) && Frozen(s, event)
    ensures Frozen(Next(s, step), event)
  {
    match step
    case Bank(id, end) => FrozenBank(s, id, end, event);
    case Settle(id, settlement) => FrozenSettle(s, id, settlement, event);
    case Report(id, written) => FrozenReport(s, id, written, event);
    case _ => FrozenQuiet(s, step, event);
  }

  lemma FrozenRunsNothing(s: State, step: Step, event: nat)
    requires HeldOk(s) && Frozen(s, event)
    ensures RunCount(Next(s, step), event) == RunCount(s, event)
  {
    var t := Next(s, step);
    match step
    case Take(id, outcome) =>
      assert id in s.held && s.held[id].event == event ==> Doomed(s, id);
      SameRuns(s.runs, t.runs, event, |s.runs|);
    case Claim(_, _) =>
    case Report(_, _) =>
    case Requeue(_) =>
    case _ =>
      QuietSteps(s, step);
      SameRuns(s.runs, t.runs, event, |s.runs|);
  }

  // However often policies are written afterwards, a frozen event is never run
  // again and never published.
  lemma {:induction false} FrozenForGood(s: State, steps: seq<Step>, event: nat)
    requires Inv(s) && Frozen(s, event)
    ensures Frozen(Exec(s, steps), event)
    ensures RunCount(Exec(s, steps), event) == RunCount(s, event)
    decreases |steps|
  {
    hide Frozen, Next, RunCount, HeldOk;
    if steps != [] {
      var before, step := steps[..|steps| - 1], steps[|steps| - 1];
      FrozenForGood(s, before, event);
      ExecKeeps(s, before);
      FrozenKeeps(Exec(s, before), step, event);
      FrozenRunsNothing(Exec(s, before), step, event);
    }
  }

  // ------------------------------------------------------------------
  // The converse: another holder can undo the mark
  // ------------------------------------------------------------------

  predicate RunsMore(s: State, steps: seq<Step>, event: nat) {
    RunCount(Exec(s, steps), event) > RunCount(s, event)
  }

  lemma TakeRuns(s: State, id: nat, outcome: Outcome)
    requires id in s.held && s.held[id].stage.Taken?
    ensures RunCount(Next(s, Take(id, outcome)), s.held[id].event) == RunCount(s, s.held[id].event) + 1
  {
    SameRuns(s.runs, Next(s, Take(id, outcome)).runs, s.held[id].event, |s.runs|);
  }

  // A revivable row is one policy write and one claim away from a run.
  lemma RevivableRuns(s: State, event: nat)
    requires event in s.rows && Revivable(s.rows[event])
    ensures exists steps :: RunsMore(s, steps, event)
  {
    var q, c := Requeue(s.rows[event].tenant), Claim(event, 500);
    var t := Next(s, q);
    assert event in RevivedEvents(s, s.rows[event].tenant);
    assert t.rows[event] == ReviveRow(s.rows[event], s.now);
    var u := Next(t, c);
    assert u.held[s.next] == Holding(event, s.now + LEASE + 500, Taken, false);
    TakeRuns(u, s.next, Finished("", 0));
    var steps := [] + [q, c, Take(s.next, Finished("", 0))];
    ExecAppend3(s, [], q, c, Take(s.next, Finished("", 0)));
    assert u.runs == s.runs;
    assert RunsMore(s, steps, event);
  }

  lemma LaterRuns(s: State, first: Step, event: nat)
    requires exists steps :: RunsMore(Next(s, first), steps, event)
    requires RunCount(Next(s, first), event) >= RunCount(s, event)
    ensures exists steps :: RunsMore(s, steps, event)
  {
    var steps :| RunsMore(Next(s, first), steps, event);
    hide Next;
    ExecCons(s, first, steps);
    assert RunsMore(s, [first] + steps, event);
  }

  lemma {:induction false} ExecCons(s: State, first: Step, steps: seq<Step>)
    ensures Exec(s, [first] + steps) == Exec(Next(s, first), steps)
    decreases |steps|
  {
    hide Next;
    if steps == [] {
      assert [first] + steps == [first] && [first][..0] == [];
    } else {
      ExecCons(s, first, steps[..|steps| - 1]);
      assert ([first] + steps)[..|steps|] == [first] + steps[..|steps| - 1];
    }
  }

  lemma DecidingRuns(s: State, id: nat)
    requires id in s.held && s.held[id].event in s.rows && s.held[id].stage.Deciding?
    requires !s.rows[s.held[id].event].published && s.rows[s.held[id].event].attempts >= MAX_ATTEMPTS
    requires !(UNREMEDIABLE <= s.held[id].stage.failure.why)
    ensures exists steps :: RunsMore(s, steps, s.held[id].event)
  {
    var event := s.held[id].event;
    var t := Next(s, Report(id, true));
    assert Revivable(t.rows[event]);
    RevivableRuns(t, event);
    LaterRuns(s, Report(id, true), event);
  }

  // A handling whose model run came back can still turn into a retry: the
  // transaction that should have recorded it fails.
  lemma RanRuns(s: State, id: nat)
    requires HeldOk(s) && id in s.held && s.held[id].stage.Ran?
    requires var row := s.rows[s.held[id].event]; s.held[id].event in s.rows && !row.published && row.attempts >= MAX_ATTEMPTS
    requires !Doomed(s, id)
    ensures exists steps :: RunsMore(s, steps, s.held[id].event)
  {
    assert HoldingOk(s, id);
    var event, run := s.held[id].event, s.held[id].stage.run;
    var step := if s.runs[run].outcome.Finished? then Settle(id, UsageFails) else Bank(id, RolledBack);
    var t := Next(s, step);
    SetFateKeepsRuns(s, run, Lost, event);
    assert t.rows == s.rows && t.runs == SetFate(s, run, Lost).runs && t.held[id].event == event;
    if s.runs[run].outcome.Failed? && s.runs[run].outcome.turns == 0 {
      OnlyCeilingsAreFinal(s.runs[run].outcome.error);
    } else if s.runs[run].outcome.Finished? {
      Remediable(NO_USAGE);
    } else {
      Remediable(NO_SPEND);
    }
    DecidingRuns(t, id);
    LaterRuns(s, step, event);
  }

  lemma HolderRuns(s: State, id: nat)
    requires HeldOk(s) && id in s.held
    requires s.held[id].event in s.rows && ParkedForGood(s.rows[s.held[id].event])
    requires !Doomed(s, id) && (s.held[id].stage.Deciding? ==> !(UNREMEDIABLE <= s.held[id].stage.failure.why))
    ensures exists steps :: RunsMore(s, steps, s.held[id].event)
  {
    match s.held[id].stage
    case Taken =>
      TakeRuns(s, id, Finished("", 0));
      ExecCons(s, Take(id, Finished("", 0)), []);
      assert RunsMore(s, [Take(id, Finished("", 0))] + [], s.held[id].event);
    case Deciding(_, _) => DecidingRuns(s, id);
    case Ran(_) => RanRuns(s, id);
  }

  // Retries carry unmarked reasons, in every reachable state.
  predicate RetryUnmarked(holding: Holding) {
    holding.stage.Deciding? && holding.stage.failure.Retry? ==> !(UNREMEDIABLE <= holding.stage.failure.why)
  }

  ghost predicate RetriesUnmarked(s: State) {
    forall id :: id in s.held ==> RetryUnmarked(s.held[id])
  }

  lemma BankIsUnmarked(s: State, id: nat, end: Commit)
    requires id in s.held && RetryUnmarked(s.held[id])
    ensures RetryUnmarked(BankStep(s, id, end).held[id])
  {
    if RanOn(s, id) && s.runs[s.held[id].stage.run].outcome.Failed? {
      OnlyCeilingsAreFinal(s.runs[s.held[id].stage.run].outcome.error);
      Remediable(NO_SPEND);
      Remediable(NO_COMMIT);
    }
  }

  lemma SettleIsUnmarked(s: State, id: nat, settlement: Settlement)
    requires id in s.held && RetryUnmarked(s.held[id]) && id in SettleStep(s, id, settlement).held
    ensures RetryUnmarked(SettleStep(s, id, settlement).held[id])
  {
    Remediable(NO_USAGE);
    Remediable(NO_REPLY);
    Remediable(NO_MARK);
  }

  lemma UnmarkedStep(s: State, step: Step)
    requires RetriesUnmarked(s)
    ensures RetriesUnmarked(Next(s, step))
  {
    forall id | id in Next(s, step).held
      ensures RetryUnmarked(Next(s, step).held[id])
    {
      if id in s.held {
        assert RetryUnmarked(s.held[id]);
      }
      match step
      case Bank(q, end) =>
        BankOutcomes(s, q, end);
        if q == id { BankIsUnmarked(s, q, end); }
      case Settle(q, settlement) =>
        LeasesOfSettle(s, q, settlement);
        if q == id { SettleIsUnmarked(s, q, settlement); }
      case Refuse(q, refusal) => RefusalsCanBeRemedied(refusal);
      case _ =>
    }
  }

  lemma {:induction false} RetriesStayUnmarked(s0: State, steps: seq<Step>)
    requires Fresh(s0)
    ensures RetriesUnmarked(Exec(s0, steps))
    decreases |steps|
  {
    if steps != [] {
      RetriesStayUnmarked(s0, steps[..|steps| - 1]);
      hide Next, RetriesUnmarked;
      UnmarkedStep(Exec(s0, steps[..|steps| - 1]), steps[|steps| - 1]);
    }
  }

  // A row parked on a ceiling is never run again if and only if every replica
  // that still holds it is bound to park it the same way.
  lemma NeverRunAgainIffFrozen(s0: State, done: seq<Step>, event: nat)
    requires Fresh(s0)
    requires event in Exec(s0, done).rows && ParkedForGood(Exec(s0, done).rows[event])
    ensures Frozen(Exec(s0, done), event) <==> !exists steps :: RunsMore(Exec(s0, done), steps, event)
  {
    FreshIsGood(s0);
    ExecKeeps(s0, done);
    RetriesStayUnmarked(s0, done);
    var s := Exec(s0, done);
    if Frozen(s, event) {
      forall steps: seq<Step>
        ensures !RunsMore(s, steps, event)
      {
        FrozenForGood(s, steps, event);
      }
    } else {
      var id :| id in s.held && s.held[id].event == event && !Doomed(s, id);
      assert RetryUnmarked(s.held[id]);
      HolderRuns(s, id);
    }
  }

  // Under the leases' discipline the row has one holder, so parking it is
  // final: whatever happens next, the ceiling is never bought again.
  lemma CeilingIsBoughtOnce(s0: State, steps: seq<Step>, id: nat, more: seq<Step>)
    requires Fresh(s0) && Disciplined(s0, steps)
    requires var s := Exec(s0, steps);
      && id in s.held && s.held[id].stage.Deciding? && s.held[id].stage.failure.Terminal?
      && UNREMEDIABLE <= s.held[id].stage.failure.why
      && s.held[id].event in s.rows && !s.rows[s.held[id].event].published
    ensures var s := Exec(s0, steps);
      var t := Next(s, Report(id, true));
      && Frozen(t, s.held[id].event)
      && RunCount(Exec(t, more), s.held[id].event) == RunCount(s, s.held[id].event)
  {
    OneReplicaAtATime(s0, steps);
    FreshIsGood(s0);
    ExecKeeps(s0, steps);
    var s := Exec(s0, steps);
    Keeps(s, Report(id, true));
    FrozenForGood(Next(s, Report(id, true)), more, s.held[id].event);
  }
}
