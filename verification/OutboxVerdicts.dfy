/** Which ends of a turn park its message, over every run, and what one
    handling leaves behind, said of the turn's outcome and of what the database
    did, and not of the verdicts in between. */
module OutboxVerdicts {
  import opened Common
  import opened Outbox

  // Another attempt would end the same way.
  predicate TurnForGood(error: TurnError) {
    || error == Llm(false)
    || error == BudgetExceeded(Turns) || error == BudgetExceeded(ToolCalls) || error == BudgetExceeded(Tokens)
  }

  predicate RefusalForGood(refusal: Refusal) {
    || refusal.NoEmployee? || refusal.NoMessage? || refusal.CharterCorrupt?
    || refusal.NoModelPermitted? || refusal.NotConnected? || refusal.HostModelIsNotTheirs?
    || refusal.SubscriptionIsNotOursToHold? || refusal.KeyMissing?
  }

  // What a handling of this event came to: a refusal for good, or a failed turn
  // of it that ended for good.
  predicate ForGood(runs: seq<Run>, event: nat, cause: Cause) {
    match cause
    case Refused(refusal) => RefusalForGood(refusal)
    case Turned(run) =>
      run < |runs| && runs[run].event == event && runs[run].outcome.Failed? && TurnForGood(runs[run].outcome.error)
  }

  predicate AtACeiling(runs: seq<Run>, cause: Cause) {
    cause.Turned? && cause.run < |runs| && runs[cause.run].outcome.Failed?
    && runs[cause.run].outcome.error.BudgetExceeded? && runs[cause.run].outcome.error.budget != Deadline
  }

  // A terminal reason is for a handling that ended for good, and is marked
  // exactly when it hit a ceiling; a retry's is not marked.
  predicate Apt(runs: seq<Run>, event: nat, failure: Failure, cause: Cause) {
    && (failure.Terminal? ==> ForGood(runs, event, cause) && (UNREMEDIABLE <= failure.why <==> AtACeiling(runs, cause)))
    && (failure.Retry? ==> !(UNREMEDIABLE <= failure.why))
  }

  lemma TurnIsApt(runs: seq<Run>, event: nat, run: nat)
    requires run < |runs| && runs[run].event == event && runs[run].outcome.Failed?
    ensures Apt(runs, event, Verdict(runs[run].outcome.error), Turned(run))
    ensures Verdict(runs[run].outcome.error).Terminal? <==> TurnForGood(runs[run].outcome.error)
  {
    OnlyCeilingsAreFinal(runs[run].outcome.error);
    hide Verdict;
  }

  lemma RefusalIsApt(runs: seq<Run>, event: nat, refusal: Refusal)
    ensures Apt(runs, event, RefusalVerdict(refusal), Refused(refusal))
    ensures RefusalVerdict(refusal).Terminal? <==> RefusalForGood(refusal)
  {
    RefusalsCanBeRemedied(refusal);
    hide RefusalVerdict;
  }

  lemma RetryIsApt(runs: seq<Run>, event: nat, why: string, cause: Cause)
    requires why in {NO_SPEND, NO_COMMIT, NO_USAGE, NO_REPLY, NO_MARK}
    ensures Apt(runs, event, Retry(why), cause)
  {
    Remediable(why);
  }

  predicate HoldingApt(s: State, id: nat)
    requires id in s.held
  {
    s.held[id].stage.Deciding? ==> Apt(s.runs, s.held[id].event, s.held[id].stage.failure, s.held[id].stage.cause)
  }

  predicate MarkApt(runs: seq<Run>, mark: Mark) {
    mark.Parked? ==> Apt(runs, mark.event, Terminal(mark.why), mark.cause)
  }

  ghost predicate AllApt(s: State) {
    && (forall id :: id in s.held ==> HoldingApt(s, id))
    && (forall j :: 0 <= j < |s.log| ==> MarkApt(s.runs, s.log[j]))
  }

  // Runs keep their events and outcomes, and more may follow.
  predicate RunsGrow(before: seq<Run>, after: seq<Run>) {
    && |before| <= |after|
    && forall i :: 0 <= i < |before| ==> after[i].event == before[i].event && after[i].outcome == before[i].outcome
  }

  lemma AptGrows(before: seq<Run>, after: seq<Run>, event: nat, failure: Failure, cause: Cause)
    requires RunsGrow(before, after) && Apt(before, event, failure, cause)
    ensures Apt(after, event, failure, cause)
  {
  }

  lemma BankIsApt(s: State, id: nat, end: Commit)
    requires HeldOk(s) && id in s.held && HoldingApt(s, id)
    ensures HoldingApt(BankStep(s, id, end), id)
  {
    assert HoldingOk(s, id);
    if RanOn(s, id) && s.runs[s.held[id].stage.run].outcome.Failed? {
      var t, run, event := BankStep(s, id, end), s.held[id].stage.run, s.held[id].event;
      TurnIsApt(t.runs, event, run);
      RetryIsApt(t.runs, event, NO_SPEND, Turned(run));
      RetryIsApt(t.runs, event, NO_COMMIT, Turned(run));
      hide Apt, Verdict, HeldOk;
    }
  }

  lemma SettleIsApt(s: State, id: nat, settlement: Settlement)
    requires id in s.held && HoldingApt(s, id) && id in SettleStep(s, id, settlement).held
    ensures HoldingApt(SettleStep(s, id, settlement), id)
  {
    if RanOn(s, id) && s.runs[s.held[id].stage.run].outcome.Finished? {
      var t, run, event := SettleStep(s, id, settlement), s.held[id].stage.run, s.held[id].event;
      RetryIsApt(t.runs, event, NO_USAGE, Turned(run));
      RetryIsApt(t.runs, event, NO_REPLY, Turned(run));
      RetryIsApt(t.runs, event, NO_MARK, Turned(run));
      hide Apt;
    }
  }

  lemma RunsOfBank(s: State, id: nat, end: Commit)
    ensures var t := BankStep(s, id, end);
      && RunsGrow(s.runs, t.runs) && t.log == s.log && t.held.Keys == s.held.Keys
      && forall q :: q in t.held && q != id ==> t.held[q] == s.held[q]
  {
    hide Verdict;
  }

  lemma RunsOfSettle(s: State, id: nat, settlement: Settlement)
    ensures var t := SettleStep(s, id, settlement);
      && RunsGrow(s.runs, t.runs) && t.log == s.log && t.held.Keys <= s.held.Keys
      && forall q :: q in t.held && q != id ==> t.held[q] == s.held[q]
  {
  }

  // What the other steps do to runs, holdings and the log.
  lemma RunsOfOthers(s: State, step: Step)
    requires !step.Bank? && !step.Settle? && !step.Report? && !step.Refuse?
    ensures var t := Next(s, step);
      && RunsGrow(s.runs, t.runs)
      && (forall id :: id in t.held && t.held[id].stage.Deciding? ==>
            id in s.held && t.held[id].stage == s.held[id].stage && t.held[id].event == s.held[id].event)
      && (t.log == s.log || (|t.log| == |s.log| + 1 && t.log[..|s.log|] == s.log && !t.log[|s.log|].Parked?))
  {
    hide BankStep, SettleStep, ReportStep, RevivedEvents;
  }

  lemma StillApt(s: State, t: State, id: nat)
    requires id in s.held && HoldingApt(s, id) && RunsGrow(s.runs, t.runs)
    requires id in t.held && t.held[id].stage == s.held[id].stage && t.held[id].event == s.held[id].event
    ensures HoldingApt(t, id)
  {
    hide Apt;
    if s.held[id].stage.Deciding? {
      AptGrows(s.runs, t.runs, s.held[id].event, s.held[id].stage.failure, s.held[id].stage.cause);
    }
  }

  lemma MarksStayApt(s: State, t: State)
    requires AllApt(s) && RunsGrow(s.runs, t.runs)
    ensures forall j :: 0 <= j < |s.log| ==> MarkApt(t.runs, s.log[j])
  {
    forall j | 0 <= j < |s.log|
      ensures MarkApt(t.runs, s.log[j])
    {
      assert MarkApt(s.runs, s.log[j]);
      hide Apt;
      if s.log[j].Parked? {
        AptGrows(s.runs, t.runs, s.log[j].event, Terminal(s.log[j].why), s.log[j].cause);
      }
    }
  }

  lemma ReportIsApt(s: State, id: nat, written: bool)
    requires AllApt(s)
    ensures AllApt(ReportStep(s, id, written))
  {
    var t := ReportStep(s, id, written);
    assert id in s.held ==> HoldingApt(s, id);
    hide Apt;
    forall q | q in t.held
      ensures HoldingApt(t, q)
    {
      assert HoldingApt(s, q);
    }
    forall j | 0 <= j < |t.log|
      ensures MarkApt(t.runs, t.log[j])
    {
      if j < |s.log| {
        assert t.log[j] == s.log[j] && MarkApt(s.runs, s.log[j]);
      }
    }
  }

  lemma AptStep(s: State, step: Step)
    requires HeldOk(s) && AllApt(s)
    ensures AllApt(Next(s, step))
  {
    var t := Next(s, step);
    hide Apt, BankStep, SettleStep, ReportStep, RefusalVerdict;
    match step {
      case Report(id, written) => ReportIsApt(s, id, written);
      case Bank(id, end) =>
        RunsOfBank(s, id, end);
        if id in s.held {
          BankIsApt(s, id, end);
        }
      case Settle(id, settlement) =>
        RunsOfSettle(s, id, settlement);
        if id in t.held {
          SettleIsApt(s, id, settlement);
        }
      case Refuse(id, refusal) =>
        if id in s.held {
          RefusalIsApt(s.runs, s.held[id].event, refusal);
        }
      case _ => RunsOfOthers(s, step);
    }
    if !step.Report? {
      MarksStayApt(s, t);
      forall q | q in t.held
        ensures HoldingApt(t, q)
      {
        if q in s.held && t.held[q].stage == s.held[q].stage && t.held[q].event == s.held[q].event {
          StillApt(s, t, q);
        }
      }
    }
  }

  lemma {:induction false} RunIsApt(s0: State, steps: seq<Step>)
    requires Fresh(s0)
    ensures AllApt(Exec(s0, steps)) && HeldOk(Exec(s0, steps))
    decreases |steps|
  {
    hide Next, AllApt, Inv, MoneyOk, HistoryOk, HeldOk, Fresh;
    if steps == [] {
      StartsApt(s0);
    } else {
      RunIsApt(s0, steps[..|steps| - 1]);
      HeldStep(Exec(s0, steps[..|steps| - 1]), steps[|steps| - 1]);
      AptStep(Exec(s0, steps[..|steps| - 1]), steps[|steps| - 1]);
    }
  }

  lemma StartsApt(s0: State)
    requires Fresh(s0)
    ensures AllApt(s0) && HeldOk(s0)
  {
    FreshIsGood(s0);
  }

  // Over every run, a message is parked only by a refusal for good or by a turn
  // of it that ended for good: never by a deadline, an unreachable store, a
  // model out of reach, a halt or an outage. The reason is marked exactly when
  // the turn hit a ceiling.
  lemma ParkedOnlyForGood(s0: State, steps: seq<Step>, j: nat)
    requires Fresh(s0) && j < |Exec(s0, steps).log| && Exec(s0, steps).log[j].Parked?
    ensures var s := Exec(s0, steps);
      var mark := s.log[j];
      ForGood(s.runs, mark.event, mark.cause) && (UNREMEDIABLE <= mark.why <==> AtACeiling(s.runs, mark.cause))
  {
    RunIsApt(s0, steps);
    assert MarkApt(Exec(s0, steps).runs, Exec(s0, steps).log[j]);
  }
}
