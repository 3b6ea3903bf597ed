/** One replica at work: the row verbs, the turn and the dispatch of a claimed
    event, as ordered writes. Every method is tied to the steps of `Outbox`, so
    what is proved there of every interleaving holds of these writes. */
module OutboxWorker {
  import opened Common
  import opened Text
  import opened Outbox
  import opened OutboxVerdicts

  // What happens between the frame being read and the model being done with.
  datatype Brain = Refuses(refusal: Refusal) | Thinks(outcome: Outcome)

  // What the database does to one dispatch.
  datatype Faults = Faults(bill: Commit, usageFails: bool, replyFails: bool, commit: Commit, reportWritten: bool)

  function SettlementOf(faults: Faults, reply: string): Settlement {
    if faults.usageFails then UsageFails
    else if faults.replyFails && !Blank(reply) then ReplyFails
    else Commits(faults.commit)
  }

  function First(brain: Brain, id: nat): Step {
    if brain.Refuses? then Refuse(id, brain.refusal) else Take(id, brain.outcome)
  }

  function Second(brain: Brain, faults: Faults, id: nat): Step {
    match brain
    case Refuses(_) => Advance(0)
    case Thinks(Finished(reply, _)) => Settle(id, SettlementOf(faults, reply))
    case Thinks(Failed(_, _, _)) => Bank(id, faults.bill)
  }

  lemma HeldThrough(s: State, a: Step, b: Step, c: Step)
    requires HeldOk(s)
    ensures HeldOk(Next(Next(Next(s, a), b), c))
  {
    hide Next, HeldOk;
    HeldStep(s, a);
    HeldStep(Next(s, a), b);
    HeldStep(Next(Next(s, a), b), c);
  }

  // ------------------------------------------------------------------
  // What one handling leaves behind
  // ------------------------------------------------------------------

  // The turn finished and nothing stopped its one transaction.
  predicate Publishes(row: Row, brain: Brain, faults: Faults) {
    && brain.Thinks? && brain.outcome.Finished? && !row.published
    && !faults.usageFails && (faults.replyFails ==> Blank(brain.outcome.reply)) && !faults.commit.RolledBack?
  }

  // The turn failed after calling a model and its bill was written.
  predicate Bills(brain: Brain, faults: Faults) {
    brain.Thinks? && brain.outcome.Failed? && brain.outcome.turns > 0 && !faults.bill.RolledBack?
  }

  // It ended for good, and no bill was in doubt.
  predicate EndsForGood(brain: Brain, faults: Faults) {
    match brain
    case Refuses(refusal) => RefusalForGood(refusal)
    case Thinks(Failed(error, turns, _)) => TurnForGood(error) && (turns == 0 || faults.bill.Applied?)
    case Thinks(Finished(_, _)) => false
  }

  // A finished turn whose transaction ran to its end, committed or not.
  predicate RanToItsCommit(brain: Brain, faults: Faults) {
    && brain.Thinks? && brain.outcome.Finished?
    && !faults.usageFails && (faults.replyFails ==> Blank(brain.outcome.reply))
  }

  // What becomes of the row: published; or, if the reason can be written, parked
  // when the turn ended for good and otherwise left to be tried again, with a
  // reason that is marked exactly at a ceiling.
  predicate RowAfter(row: Row, after: Row, brain: Brain, faults: Faults) {
    if Publishes(row, brain, faults) then after == row.(published := true, lastError := None)
    else if row.published || !faults.reportWritten || RanToItsCommit(brain, faults) then after == row
    else
      && after == row.(lastError := after.lastError, attempts := if EndsForGood(brain, faults) then Max(row.attempts, MAX_ATTEMPTS) else row.attempts)
      && (Unremediable(after) <==> EndsForGood(brain, faults) && brain.Thinks? && brain.outcome.error.BudgetExceeded?)
      && after.lastError.Some?
  }

  ghost predicate Handled(s: State, t: State, event: nat, id: nat, brain: Brain, faults: Faults)
    requires event in s.rows
  {
    var row := s.rows[event];
    && t.rows.Keys == s.rows.Keys && RowAfter(row, t.rows[event], brain, faults)
    && (forall e :: e in s.rows && e != event ==> t.rows[e] == s.rows[e])
    && t.held == s.held - {id}
    && t.ledger == s.ledger + (if Publishes(row, brain, faults) || Bills(brain, faults) then brain.outcome.tokens else 0)
    && t.replies == (if Publishes(row, brain, faults) && !Blank(brain.outcome.reply) && row.message !in s.replies
                     then s.replies[row.message := brain.outcome.reply] else s.replies)
  }

  // What the report of a verdict makes of the queue.
  lemma ReportMeans(s: State, event: nat, id: nat, failure: Failure, written: bool)
    requires id in s.held && s.held[id].event == event && event in s.rows
    requires s.held[id].stage.Deciding? && s.held[id].stage.failure == failure
    ensures var t := Next(s, Report(id, written));
      && t.held == s.held - {id} && t.ledger == s.ledger && t.replies == s.replies
      && t.rows == if !written || s.rows[event].published then s.rows
                   else s.rows[event := s.rows[event].(lastError := Some(failure.why),
                                                       attempts := if failure.Terminal? then Max(s.rows[event].attempts, MAX_ATTEMPTS) else s.rows[event].attempts)]
  {
    if written && s.rows[event].published {
      assert s.rows[event := s.rows[event]] == s.rows;
    }
  }

  lemma RefusedMeans(s: State, event: nat, id: nat, refusal: Refusal, faults: Faults)
    requires id in s.held && s.held[id].event == event && event in s.rows && s.held[id].stage.Taken?
    ensures Handled(s, Next(Next(s, Refuse(id, refusal)), Report(id, faults.reportWritten)), event, id, Refuses(refusal), faults)
  {
    RefusalIsApt([], event, refusal);
    hide RefusalVerdict, RefusalForGood;
    var decided := Next(s, Refuse(id, refusal));
    ReportMeans(decided, event, id, RefusalVerdict(refusal), faults.reportWritten);
    hide Next;
  }

  // The verdicts a failed turn can come to.
  lemma VerdictMeans(error: TurnError)
    ensures Verdict(error).Terminal? <==> TurnForGood(error)
    ensures UNREMEDIABLE <= Verdict(error).why <==> TurnForGood(error) && error.BudgetExceeded?
    ensures !(UNREMEDIABLE <= NO_SPEND) && !(UNREMEDIABLE <= NO_COMMIT)
  {
    OnlyCeilingsAreFinal(error);
    hide Verdict;
    Remediable(NO_SPEND);
    Remediable(NO_COMMIT);
  }

  // A failed turn, banked: which verdict it comes to.
  lemma BankedMeans(s: State, event: nat, id: nat, failed: Outcome, bill: Commit) returns (failure: Failure)
    requires id in s.held && s.held[id].event == event && event in s.rows && s.held[id].stage.Taken? && failed.Failed?
    ensures var t := Next(Next(s, Take(id, failed)), Bank(id, bill));
      && t.held == s.held[id := t.held[id]] && t.held[id].event == event && t.held[id].stage.Deciding? && t.held[id].stage.failure == failure
      && t.rows == s.rows && t.replies == s.replies
      && t.ledger == s.ledger + if failed.turns > 0 && !bill.RolledBack? then failed.tokens else 0
    ensures failure.Terminal? <==> TurnForGood(failed.error) && (failed.turns == 0 || bill.Applied?)
    ensures UNREMEDIABLE <= failure.why <==> failure.Terminal? && failed.error.BudgetExceeded?
  {
    VerdictMeans(failed.error);
    hide Verdict, TurnForGood;
    failure := if failed.turns == 0 || bill.Applied? then Verdict(failed.error)
               else if bill.RolledBack? then Retry(NO_SPEND) else Retry(NO_COMMIT);
    var ran := Next(s, Take(id, failed));
    assert RanOn(ran, id) && ran.runs[|s.runs|].outcome == failed;
  }

  lemma FailedMeans(s: State, event: nat, id: nat, failed: Outcome, faults: Faults)
    requires id in s.held && s.held[id].event == event && event in s.rows && s.held[id].stage.Taken? && failed.Failed?
    ensures Handled(s, Next(Next(Next(s, Take(id, failed)), Bank(id, faults.bill)), Report(id, faults.reportWritten)), event, id, Thinks(failed), faults)
  {
    hide Next;
    var failure := BankedMeans(s, event, id, failed, faults.bill);
    ReportMeans(Next(Next(s, Take(id, failed)), Bank(id, faults.bill)), event, id, failure, faults.reportWritten);
  }

  // A finished turn stopped short of its commit: it comes to a retry.
  lemma StoppedShortMeans(s: State, event: nat, id: nat, finished: Outcome, settlement: Settlement) returns (failure: Failure)
    requires id in s.held && s.held[id].event == event && event in s.rows && s.held[id].stage.Taken? && finished.Finished?
    requires settlement.UsageFails? || (settlement.ReplyFails? && !Blank(finished.reply)) || s.rows[event].published
    ensures var t := Next(Next(s, Take(id, finished)), Settle(id, settlement));
      && t.held == s.held[id := t.held[id]] && t.held[id].event == event && t.held[id].stage.Deciding? && t.held[id].stage.failure == failure
      && t.rows == s.rows && t.replies == s.replies && t.ledger == s.ledger
    ensures failure.Retry? && !(UNREMEDIABLE <= failure.why)
  {
    var ran := Next(s, Take(id, finished));
    assert RanOn(ran, id) && ran.runs[|s.runs|].outcome == finished;
    failure := Trouble(s.rows[event], finished.reply, settlement).value;
    RetryIsApt([], event, failure.why, Turned(0));
    hide Blank;
  }

  // A finished turn that runs to its commit.
  lemma CommitMeans(s: State, event: nat, id: nat, finished: Outcome, settlement: Settlement)
    requires id in s.held && s.held[id].event == event && event in s.rows && s.held[id].stage.Taken? && finished.Finished?
    requires (settlement.Commits? || (settlement.ReplyFails? && Blank(finished.reply))) && !s.rows[event].published
    ensures var t := Next(Next(s, Take(id, finished)), Settle(id, settlement));
      var committed := settlement.ReplyFails? || !settlement.end.RolledBack?;
      && t.held == s.held - {id}
      && t.rows == (if committed then s.rows[event := s.rows[event].(published := true, lastError := None)] else s.rows)
      && t.ledger == (if committed then s.ledger + finished.tokens else s.ledger)
      && t.replies == (if committed && !Blank(finished.reply) && s.rows[event].message !in s.replies
                       then s.replies[s.rows[event].message := finished.reply] else s.replies)
  {
    var ran := Next(s, Take(id, finished));
    assert RanOn(ran, id) && ran.runs[|s.runs|].outcome == finished;
    hide Blank;
    assert ran.held - {id} == s.held - {id};
  }

  lemma FinishedMeans(s: State, event: nat, id: nat, finished: Outcome, faults: Faults)
    requires id in s.held && s.held[id].event == event && event in s.rows && s.held[id].stage.Taken? && finished.Finished?
    ensures Handled(s, Next(Next(Next(s, Take(id, finished)), Settle(id, SettlementOf(faults, finished.reply))), Report(id, faults.reportWritten)),
                    event, id, Thinks(finished), faults)
  {
    hide Blank;
    var settlement := SettlementOf(faults, finished.reply);
    var settled := Next(Next(s, Take(id, finished)), Settle(id, settlement));
    if settlement.Commits? && !s.rows[event].published {
      CommitMeans(s, event, id, finished, settlement);
      NothingToReport(settled, id, faults.reportWritten);
      hide Next;
    } else {
      hide Next;
      var failure := StoppedShortMeans(s, event, id, finished, settlement);
      ReportMeans(settled, event, id, failure, faults.reportWritten);
    }
  }

  lemma NothingToReport(s: State, id: nat, written: bool)
    requires id !in s.held
    ensures Next(s, Report(id, written)) == s
  {
  }

  // One handling, from its claim to its report: what it publishes, charges,
  // records and parks.
  lemma HandledMeans(s: State, event: nat, id: nat, brain: Brain, faults: Faults)
    requires id in s.held && s.held[id].event == event && event in s.rows && s.held[id].stage.Taken?
    ensures Handled(s, Next(Next(Next(s, First(brain, id)), Second(brain, faults, id)), Report(id, faults.reportWritten)), event, id, brain, faults)
  {
    hide Handled, SettlementOf;
    match brain {
      case Refuses(refusal) => RefusedMeans(s, event, id, refusal, faults);
      case Thinks(outcome) =>
        hide Next;
        match outcome {
          case Failed(_, _, _) => FailedMeans(s, event, id, outcome, faults);
          case Finished(_, _) => FinishedMeans(s, event, id, outcome, faults);
        }
    }
  }

  class Replica {
    var rows: map<nat, Row>
    var replies: map<nat, string>
    var ledger: nat
    var now: int
    ghost var held: map<nat, Holding>
    ghost var next: nat
    ghost var runs: seq<Run>
    ghost var log: seq<Mark>

    ghost function Now(): State
      reads this
    {
      State(rows, replies, ledger, now, held, next, runs, log)
    }

    ghost predicate InHand(id: nat, event: nat)
      reads this
    {
      id in held && held[id].event == event && event in rows
    }

    constructor (queue: State)
      requires Fresh(queue)
      ensures Now() == queue
    {
      rows, replies, ledger, now := queue.rows, queue.replies, queue.ledger, queue.now;
      held, next, runs, log := queue.held, queue.next, queue.runs, queue.log;
    }

    // The claim statement, for one row, and its commit.
    method ClaimOne(event: nat, extra: nat) returns (claimed: bool, ghost id: nat)
      requires event in rows && Jittered(rows[event].attempts, extra)
      modifies this
      ensures Now() == ClaimStep(old(Now()), event, extra)
      ensures claimed <==> !old(rows)[event].published && old(rows)[event].attempts < 8 && old(rows)[event].availableAt <= old(now)
      ensures rows == if claimed then old(rows)[event := old(rows)[event].(attempts := old(rows)[event].attempts + 1, availableAt := now + 120_000 + extra)] else old(rows)
      ensures now == old(now) && replies == old(replies) && ledger == old(ledger)
      ensures claimed ==> id == old(next) && InHand(id, event) && held[id].stage.Taken?
    {
      var row := rows[event];
      claimed := !row.published && row.availableAt <= now && row.attempts < MAX_ATTEMPTS;
      id := next;
      if claimed {
        ghost var t := ClaimStep(Now(), event, extra);
        row := row.(attempts := row.attempts + 1, availableAt := now + LEASE + extra);
        rows := rows[event := row];
        held, next, log := t.held, t.next, t.log;
      }
    }

    // `requeue_dead_letters` for one tenant, returning how many came back.
    method RequeueDeadLetters(tenant: nat) returns (revived: nat)
      modifies this
      ensures Now() == RequeueStep(old(Now()), tenant)
      ensures revived == |RevivedEvents(old(Now()), tenant)|
      ensures rows.Keys == old(rows).Keys
      ensures forall e :: e in rows ==>
        var row := old(rows)[e];
        rows[e] == if row.tenant == tenant && !row.published && row.attempts >= 8 && !(row.lastError.Some? && UNREMEDIABLE <= row.lastError.value)
                   then row.(attempts := 0, availableAt := old(now)) else row
    {
      ghost var t := RequeueStep(Now(), tenant);
      var back := set e | e in rows && rows[e].tenant == tenant && !rows[e].published
                       && rows[e].attempts >= MAX_ATTEMPTS
                       && !(rows[e].lastError.Some? && UNREMEDIABLE <= rows[e].lastError.value);
      assert back == RevivedEvents(Now(), tenant);
      rows := map e | e in rows :: if e in back then rows[e].(attempts := 0, availableAt := now) else rows[e];
      held, log := t.held, t.log;
      revived := |back|;
    }

    // `fail`: the reason is written down, and a terminal one parks the row.
    method Fail(event: nat, ghost id: nat, failure: Failure, written: bool)
      requires InHand(id, event) && held[id].stage.Deciding? && held[id].stage.failure == failure
      modifies this
      ensures Now() == Next(old(Now()), Report(id, written))
    {
      ghost var t := Next(Now(), Report(id, written));
      var row := rows[event];
      if written && !row.published {
        match failure {
          case Retry(why) =>
            rows := rows[event := row.(lastError := Some(why))];
          case Terminal(why) =>
            rows := rows[event := row.(lastError := Some(why), attempts := Max(row.attempts, MAX_ATTEMPTS))];
        }
      }
      assert !(written && !row.published) ==> rows[event := row] == rows;
      held, log := t.held, t.log;
    }

    // A failed turn banks its tokens first, whatever failed, and only then is
    // the failure classified.
    method BankFailed(event: nat, ghost id: nat, failed: Outcome, bill: Commit) returns (failure: Failure)
      requires InHand(id, event) && RanOn(Now(), id) && runs[held[id].stage.run].outcome == failed && failed.Failed?
      modifies this
      ensures Now() == Next(old(Now()), Bank(id, bill))
      ensures InHand(id, event) && held[id].stage.Deciding? && held[id].stage.failure == failure
      ensures failure.Terminal? <==> TurnForGood(failed.error) && (failed.turns == 0 || bill.Applied?)
      ensures UNREMEDIABLE <= failure.why <==> failure.Terminal? && failed.error.BudgetExceeded?
      ensures ledger == old(ledger) + (if failed.turns > 0 && !bill.RolledBack? then failed.tokens else 0) && rows == old(rows) && replies == old(replies)
    {
      VerdictMeans(failed.error);
      ghost var t := Next(Now(), Bank(id, bill));
      failure := Verdict(failed.error);
      if failed.turns > 0 {
        match bill {
          case RolledBack => failure := Retry(NO_SPEND);
          case Unheard =>
            ledger := ledger + failed.tokens;
            failure := Retry(NO_COMMIT);
          case Applied => ledger := ledger + failed.tokens;
        }
      }
      held, runs := t.held, t.runs;
    }

    // The finished turn's own transaction: usage, reply, published mark. The
    // three are staged and reach the tables together or not at all.
    method SettleFinished(event: nat, ghost id: nat, finished: Outcome, faults: Faults) returns (failure: Option<Failure>)
      requires InHand(id, event) && RanOn(Now(), id) && runs[held[id].stage.run].outcome == finished && finished.Finished?
      modifies this
      ensures Now() == Next(old(Now()), Settle(id, SettlementOf(faults, finished.reply)))
      ensures failure.Some? ==> InHand(id, event) && held[id].stage.Deciding? && held[id].stage.failure == failure.value
      ensures failure.None? ==> id !in held
    {
      ghost var t := Next(Now(), Settle(id, SettlementOf(faults, finished.reply)));
      var stagedRows, stagedReplies, stagedLedger := rows, replies, ledger;
      var row := rows[event];
      if faults.usageFails {
        failure := Some(Retry(NO_USAGE));
        held, runs := t.held, t.runs;
        return;
      }
      stagedLedger := stagedLedger + finished.tokens;
      if !Blank(finished.reply) {
        if faults.replyFails {
          failure := Some(Retry(NO_REPLY));
          held, runs := t.held, t.runs;
          return;
        }
        if row.message !in stagedReplies {
          stagedReplies := stagedReplies[row.message := finished.reply];
        }
      }
      if row.published {
        failure := Some(Retry(NO_MARK));
        held, runs := t.held, t.runs;
        return;
      }
      stagedRows := stagedRows[event := row.(published := true, lastError := None)];
      failure := None;
      if !faults.commit.RolledBack? {
        rows, replies, ledger := stagedRows, stagedReplies, stagedLedger;
      }
      held, runs := t.held, t.runs;
    }

    // `handle` and `on_turn` for one claimed event.
    method Handle(event: nat, ghost id: nat, brain: Brain, faults: Faults)
      requires HeldOk(Now()) && InHand(id, event) && held[id].stage.Taken?
      modifies this
      ensures Now() == Next(Next(Next(old(Now()), First(brain, id)), Second(brain, faults, id)), Report(id, faults.reportWritten))
      ensures HeldOk(Now()) && Handled(old(Now()), Now(), event, id, brain, faults)
    {
      HandledMeans(Now(), event, id, brain, faults);
      hide Handled;
      HeldThrough(Now(), First(brain, id), Second(brain, faults, id), Report(id, faults.reportWritten));
      hide HeldOk;
      ghost var t := Next(Now(), First(brain, id));
      match brain {
        case Refuses(refusal) =>
          held := t.held;
          Fail(event, id, RefusalVerdict(refusal), faults.reportWritten);
        case Thinks(outcome) =>
          held, runs := t.held, t.runs;
          match outcome {
            case Failed(_, _, _) =>
              var failure := BankFailed(event, id, outcome, faults.bill);
              Fail(event, id, failure, faults.reportWritten);
            case Finished(_, _) =>
              var failure := SettleFinished(event, id, outcome, faults);
              match failure {
                case Some(why) => Fail(event, id, why, faults.reportWritten);
                case None =>
              }
          }
      }
    }
  }
}
