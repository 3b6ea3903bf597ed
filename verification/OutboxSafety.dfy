/** What every interleaving of replicas, crashes, lost writes and revivals of
    the outbox keeps, and exactly when an event can be in two hands. */
module OutboxSafety {
  import opened Common
  import opened Text
  import opened Outbox

  lemma ExecThen(s: State, steps: seq<Step>, step: Step)
    ensures Exec(s, steps + [step]) == Next(Exec(s, steps), step)
  {
    assert (steps + [step])[..|steps|] == steps;
  }

  // ------------------------------------------------------------------
  // The ledger
  // ------------------------------------------------------------------

  // The ledger is the tokens of the failed turns banked on their own and of
  // the committed ones. It never exceeds what was spent, and falls short only
  // by runs that were lost or have not been settled yet.
  lemma LedgerNeverOvercharges(s0: State, steps: seq<Step>)
    requires Fresh(s0)
    ensures var s := Exec(s0, steps);
      && s.ledger == Metered(s.runs, |s.runs|) <= Spent(s.runs, |s.runs|)
      && (s.ledger == Spent(s.runs, |s.runs|)
          <==> forall i :: 0 <= i < |s.runs| && s.runs[i].outcome.tokens > 0 ==> Charged(s.runs[i].fate))
  {
    FreshIsGood(s0);
    ExecKeeps(s0, steps);
    MeteredBySpent(Exec(s0, steps).runs, |Exec(s0, steps).runs|);
  }

  // ------------------------------------------------------------------
  // Publication
  // ------------------------------------------------------------------

  // An event is published exactly when one finished turn of it committed, and
  // then, unless its reply is blank, a reply to its message is on file: its own
  // if no other event is about that message. A failed turn never publishes.
  lemma PublishedByOneFinishedTurn(s0: State, steps: seq<Step>, event: nat)
    requires Fresh(s0) && event in s0.rows
    ensures var s := Exec(s0, steps);
      && event in s.rows
      && (s.rows[event].published <==> exists i :: CommittedAt(s.runs, i, event))
      && (forall i: nat, j: nat :: CommittedAt(s.runs, i, event) && CommittedAt(s.runs, j, event) ==> i == j)
      && (forall i: nat :: CommittedAt(s.runs, i, event) ==>
            && s.runs[i].outcome.Finished?
            && (!Blank(s.runs[i].outcome.reply) ==> s.rows[event].message in s.replies)
            && (!Blank(s.runs[i].outcome.reply) && OnlyOneAbout(s, event) ==> s.replies[s.rows[event].message] == s.runs[i].outcome.reply))
  {
    FreshIsGood(s0);
    ExecKeeps(s0, steps);
    RowsPersist(s0, steps);
    var s := Exec(s0, steps);
    forall i: nat | CommittedAt(s.runs, i, event)
      ensures RunOk(s, i)
    {
    }
    var message := s.rows[event].message;
    if message in s.replies && OnlyOneAbout(s, event) {
      var j :| Answers(s, j, message, s.replies[message]);
      assert CommittedAt(s.runs, j, event);
    }
  }

  predicate OnlyOneAbout(s: State, event: nat)
    requires event in s.rows
  {
    forall e :: e in s.rows && s.rows[e].message == s.rows[event].message ==> e == event
  }

  lemma {:induction false} RowsPersist(s: State, steps: seq<Step>)
    ensures Exec(s, steps).rows.Keys == s.rows.Keys
    decreases |steps|
  {
    hide Next;
    if steps != [] {
      RowsPersist(s, steps[..|steps| - 1]);
      SameEvents(Exec(s, steps[..|steps| - 1]), steps[|steps| - 1]);
    }
  }

  // Every reply on file is the reply of a committed turn about that message.
  lemma RepliesComeFromCommits(s0: State, steps: seq<Step>, message: nat)
    requires Fresh(s0) && message in Exec(s0, steps).replies
    ensures var s := Exec(s0, steps);
      exists i :: Answers(s, i, message, s.replies[message])
  {
    FreshIsGood(s0);
    ExecKeeps(s0, steps);
  }

  lemma ReplyStays(s: State, step: Step, message: nat)
    requires message in s.replies
    ensures message in Next(s, step).replies && Next(s, step).replies[message] == s.replies[message]
  {
  }

  // A message has one recorded reply: the first, for ever.
  lemma {:induction false} OneReplyPerMessage(s: State, steps: seq<Step>, message: nat)
    requires message in s.replies
    ensures message in Exec(s, steps).replies && Exec(s, steps).replies[message] == s.replies[message]
    decreases |steps|
  {
    hide Next;
    if steps != [] {
      OneReplyPerMessage(s, steps[..|steps| - 1], message);
      ReplyStays(Exec(s, steps[..|steps| - 1]), steps[|steps| - 1], message);
    }
  }

  // ------------------------------------------------------------------
  // Attempts
  // ------------------------------------------------------------------

  // An event is handed to the model at most eight times per revival.
  lemma RunsAreBounded(s0: State, steps: seq<Step>, event: nat)
    requires Fresh(s0) && event in s0.rows
    ensures var s := Exec(s0, steps);
      RunsOn(s.runs, event, |s.runs|) <= MAX_ATTEMPTS * (Revivals(s.log, event) + 1)
  {
    FreshIsGood(s0);
    ExecKeeps(s0, steps);
    RowsPersist(s0, steps);
    var s := Exec(s0, steps);
    assert HistoryOn(s, event);
  }

  // A dead letter was parked by a terminal verdict, or claimed eight times.
  lemma DeadLettersWereEarned(s0: State, steps: seq<Step>, event: nat)
    requires Fresh(s0) && event in s0.rows
    requires event in Exec(s0, steps).rows && Exec(s0, steps).rows[event].attempts >= MAX_ATTEMPTS
    ensures var s := Exec(s0, steps);
      ParkedSince(s.log, event) || ClaimsSince(s.log, event) == MAX_ATTEMPTS
  {
    FreshIsGood(s0);
    ExecKeeps(s0, steps);
    assert HistoryOn(Exec(s0, steps), event);
  }

  // Only a terminal verdict parks.
  lemma RetriesNeverPark(s: State, id: nat, written: bool)
    requires id in s.held && s.held[id].event in s.rows && s.held[id].stage.Deciding? && s.held[id].stage.failure.Retry?
    ensures ReportStep(s, id, written).log == s.log
    ensures ReportStep(s, id, written).rows[s.held[id].event].attempts == s.rows[s.held[id].event].attempts
  {
  }

  // ------------------------------------------------------------------
  // Leases
  // ------------------------------------------------------------------

  // In every reachable state: a row that one replica is handling can be claimed
  // by another only once its lease is over, or once an operator's revival
  // handed it back.
  lemma HeldRowsAreNotDue(s: State, id: nat)
    requires Inv(s) && id in s.held && s.held[id].event in s.rows
    requires Due(s.rows[s.held[id].event], s.now)
    ensures s.held[id].until <= s.now || s.held[id].revived
  {
    assert HoldingOk(s, id);
  }

  // A row another claim may still take.
  predicate Unfinished(row: Row) {
    !row.published && row.attempts < MAX_ATTEMPTS
  }

  // The discipline: nobody is still handling an unfinished row when its lease
  // ends, and nobody revives a row that is being handled.
  predicate Allowed(s: State, step: Step) {
    match step
    case Advance(elapsed) =>
      forall id :: id in s.held && s.held[id].event in s.rows && Unfinished(s.rows[s.held[id].event]) ==> s.now + elapsed < s.held[id].until
    case Requeue(tenant) => forall id :: id in s.held ==> s.held[id].event !in RevivedEvents(s, tenant)
    case _ => true
  }

  predicate Disciplined(s: State, steps: seq<Step>)
    decreases |steps|
  {
    steps == [] ||
    (Disciplined(s, steps[..|steps| - 1]) && Allowed(Exec(s, steps[..|steps| - 1]), steps[|steps| - 1]))
  }

  // No event is in the hands of two replicas.
  predicate OneHolder(s: State) {
    forall a, b :: a in s.held && b in s.held && s.held[a].event == s.held[b].event ==> a == b
  }

  // The row one replica is handling is due again.
  predicate DueInHand(s: State, id: nat) {
    id in s.held && s.held[id].event in s.rows && Due(s.rows[s.held[id].event], s.now)
  }

  predicate Contended(s: State) {
    exists id :: id in s.held && DueInHand(s, id)
  }

  // Some step hands an event to a second replica.
  ghost predicate OverlapPossible(s: State) {
    exists step :: !OneHolder(Next(s, step))
  }

  // One holder a row, under the row's own lease, and none of them due.
  predicate Exclusive(s: State) {
    && OneHolder(s)
    && forall id :: id in s.held ==> LeaseHolds(s, id)
  }

  predicate LeaseHolds(s: State, id: nat)
    requires id in s.held
  {
    && s.held[id].event in s.rows && s.held[id].until == s.rows[s.held[id].event].availableAt
    && !s.held[id].revived && !DueInHand(s, id)
  }

  // The other steps hold no more rows than before, under the same leases, and
  // make none of them due.
  predicate SameLeases(s: State, t: State) {
    && t.now == s.now && t.rows.Keys == s.rows.Keys
    && (forall id :: id in t.held ==> id in s.held && t.held[id].(stage := s.held[id].stage) == s.held[id])
    && (forall e :: e in s.rows ==> t.rows[e].availableAt == s.rows[e].availableAt && (Due(t.rows[e], t.now) ==> Due(s.rows[e], s.now)))
  }

  lemma LeasesOfBank(s: State, id: nat, end: Commit)
    ensures SameLeases(s, BankStep(s, id, end))
  {
    hide Verdict;
  }

  lemma LeasesOfSettle(s: State, id: nat, settlement: Settlement)
    ensures SameLeases(s, SettleStep(s, id, settlement))
  {
  }

  lemma LeasesOfReport(s: State, id: nat, written: bool)
    ensures SameLeases(s, ReportStep(s, id, written))
  {
  }

  lemma LeasesOf(s: State, step: Step)
    requires !step.Claim? && !step.Advance? && !step.Requeue?
    ensures SameLeases(s, Next(s, step))
  {
    hide BankStep, SettleStep, ReportStep;
    match step
    case Bank(id, end) => LeasesOfBank(s, id, end);
    case Settle(id, settlement) => LeasesOfSettle(s, id, settlement);
    case Report(id, written) => LeasesOfReport(s, id, written);
    case _ =>
  }

  lemma ExclusiveFrame(s: State, t: State)
    requires Exclusive(s) && SameLeases(s, t)
    ensures Exclusive(t)
  {
    forall id | id in t.held
      ensures LeaseHolds(t, id)
    {
      assert LeaseHolds(s, id);
    }
  }

  lemma ExclusiveClaim(s: State, event: nat, extra: nat)
    requires HeldOk(s) && Exclusive(s)
    ensures Exclusive(ClaimStep(s, event, extra))
  {
    var t := ClaimStep(s, event, extra);
    forall id | id in t.held
      ensures LeaseHolds(t, id)
    {
      if id in s.held {
        assert LeaseHolds(s, id) && HoldingOk(s, id);
      }
    }
  }

  lemma ExclusiveAdvance(s: State, elapsed: nat)
    requires Exclusive(s)
    ensures var t := Next(s, Advance(elapsed));
      OneHolder(t) && if Allowed(s, Advance(elapsed)) then Exclusive(t) else Contended(t)
  {
    var t := Next(s, Advance(elapsed));
    if Allowed(s, Advance(elapsed)) {
      forall id | id in t.held
        ensures LeaseHolds(t, id)
      {
        assert LeaseHolds(s, id);
      }
    } else {
      var id :| id in s.held && s.held[id].event in s.rows && Unfinished(s.rows[s.held[id].event]) && s.held[id].until <= s.now + elapsed;
      assert LeaseHolds(s, id);
      assert DueInHand(t, id);
    }
  }

  lemma ExclusiveRequeue(s: State, tenant: nat)
    requires Exclusive(s)
    ensures var t := RequeueStep(s, tenant);
      OneHolder(t) && if Allowed(s, Requeue(tenant)) then Exclusive(t) else Contended(t)
  {
    var t := RequeueStep(s, tenant);
    if Allowed(s, Requeue(tenant)) {
      forall id | id in t.held
        ensures LeaseHolds(t, id)
      {
        assert LeaseHolds(s, id);
      }
    } else {
      var id :| id in s.held && s.held[id].event in RevivedEvents(s, tenant);
      assert DueInHand(t, id);
    }
  }

  // A step within the discipline keeps every row with its one holder; one
  // outside it makes some held row due.
  lemma DisciplineIsExact(s: State, step: Step)
    requires HeldOk(s) && Exclusive(s)
    ensures var t := Next(s, step);
      OneHolder(t) && if Allowed(s, step) then Exclusive(t) else Contended(t)
  {
    match step {
      case Claim(event, extra) => ExclusiveClaim(s, event, extra);
      case Advance(elapsed) => ExclusiveAdvance(s, elapsed);
      case Requeue(tenant) => ExclusiveRequeue(s, tenant);
      case _ =>
        LeasesOf(s, step);
        ExclusiveFrame(s, Next(s, step));
    }
  }

  // One row: it becomes due in its holder's hands exactly when the clock
  // reaches the end of the lease with the row unfinished, or it is revived.
  lemma DueAgainInHand(s: State, step: Step, id: nat)
    requires HeldOk(s) && Exclusive(s) && id in s.held
    ensures var e, t := s.held[id].event, Next(s, step);
      && e in s.rows && e in t.rows
      && (Due(t.rows[e], t.now) <==>
           || (step.Advance? && Unfinished(s.rows[e]) && s.held[id].until <= s.now + step.elapsed)
           || (step.Requeue? && e in RevivedEvents(s, step.tenant)))
  {
    assert LeaseHolds(s, id);
    SameEvents(s, step);
    if !step.Claim? && !step.Advance? && !step.Requeue? {
      LeasesOf(s, step);
      hide Next;
    }
  }

  // A due row in somebody's hands is one claim away from a second replica, and
  // nothing else is.
  lemma ContendedIffOverlap(s: State)
    requires HeldOk(s) && OneHolder(s)
    ensures Contended(s) <==> OverlapPossible(s)
  {
    if Contended(s) {
      var id :| id in s.held && DueInHand(s, id);
      var e := s.held[id].event;
      assert HoldingOk(s, id);
      var claim := Claim(e, Patience(s.rows[e].attempts));
      BackoffIsPositive(s.rows[e].attempts);
      var t := Next(s, claim);
      assert t.held[id].event == t.held[s.next].event;
      assert !OneHolder(t);
    }
    if OverlapPossible(s) {
      var step :| !OneHolder(Next(s, step));
      OnlyClaimsAdd(s, step);
    }
  }

  lemma OnlyClaimsAdd(s: State, step: Step)
    requires HeldOk(s) && OneHolder(s) && !OneHolder(Next(s, step))
    ensures Contended(s)
  {
    match step {
      case Claim(event, _) =>
        var a, b :| a in Next(s, step).held && b in Next(s, step).held && Next(s, step).held[a].event == Next(s, step).held[b].event && a != b;
        assert DueInHand(s, if a == s.next then b else a);
      case Advance(_) =>
      case Requeue(_) =>
      case _ => LeasesOf(s, step);
    }
  }

  // At no point of a run can an event be handed to a second replica.
  ghost predicate NeverOverlaps(s: State, steps: seq<Step>) {
    forall k: nat :: k <= |steps| ==> !OverlapPossible(Exec(s, steps[..k]))
  }

  lemma NeverOverlapsSnoc(s: State, steps: seq<Step>)
    requires steps != []
    ensures NeverOverlaps(s, steps) <==> NeverOverlaps(s, steps[..|steps| - 1]) && !OverlapPossible(Exec(s, steps))
  {
    hide Exec, OverlapPossible;
    var before := steps[..|steps| - 1];
    assert steps[..|steps|] == steps;
    assert forall k: nat :: k <= |before| ==> before[..k] == steps[..k];
    if NeverOverlaps(s, steps) {
      assert !OverlapPossible(Exec(s, steps[..|steps|]));
    }
  }

  lemma NothingOverlapsYet(s: State)
    requires Fresh(s)
    ensures NeverOverlaps(s, []) && Exclusive(s)
  {
    FreshIsGood(s);
    ContendedIffOverlap(s);
    hide OverlapPossible;
    var none: seq<Step> := [];
    assert none[..0] == none;
  }

  lemma ExclusiveIsNotContended(s: State)
    requires Exclusive(s)
    ensures !Contended(s) && OneHolder(s)
  {
    forall id | id in s.held
      ensures !DueInHand(s, id)
    {
      assert LeaseHolds(s, id);
    }
  }

  // Over every run: it keeps to the discipline exactly when at no point of it
  // an event can be handed to a second replica while one is still handling it.
  lemma {:induction false} OneReplicaAtATime(s0: State, steps: seq<Step>)
    requires Fresh(s0)
    ensures Disciplined(s0, steps) <==> NeverOverlaps(s0, steps)
    ensures Disciplined(s0, steps) ==> Exclusive(Exec(s0, steps))
    decreases |steps|
  {
    hide Exclusive, Inv, Allowed, NeverOverlaps, OverlapPossible, Contended, OneHolder, HeldOk, Fresh, Next;
    if steps == [] {
      NothingOverlapsYet(s0);
    } else {
      var before, step := steps[..|steps| - 1], steps[|steps| - 1];
      var s := Exec(s0, before);
      OneReplicaAtATime(s0, before);
      NeverOverlapsSnoc(s0, steps);
      if Disciplined(s0, before) {
        FreshHolds(s0, before);
        FreshHolds(s0, steps);
        DisciplineIsExact(s, step);
        ContendedIffOverlap(Next(s, step));
        if Allowed(s, step) {
          ExclusiveIsNotContended(Next(s, step));
        }
      }
    }
  }

  lemma FreshHolds(s0: State, steps: seq<Step>)
    requires Fresh(s0)
    ensures HeldOk(Exec(s0, steps))
  {
    hide Exec, HeldOk, MoneyOk, HistoryOk, Fresh;
    FreshIsGood(s0);
    ExecKeeps(s0, steps);
  }

  // ------------------------------------------------------------------
  // Each half of the discipline is needed
  // ------------------------------------------------------------------

  // Two replicas on one event, neither past its lease.
  predicate Overlaps(s: State, event: nat, a: nat, b: nat) {
    && a != b && a in s.held && b in s.held
    && s.held[a].event == event && s.held[b].event == event
  }

  // k attempts were made and lost, and the row is due again.
  predicate DueAgain(s: State, event: nat, k: nat) {
    && event in s.rows && Due(s.rows[event], s.now)
    && s.rows[event].attempts == k && s.rows[event].lastError.None?
    && s.held == map[]
  }

  function Patience(k: nat): nat { 500 * Backoff(k) }

  lemma BackoffIsPositive(k: nat)
    ensures Backoff(k) >= 1
  {
  }

  // One attempt lost to a crash, and the wait until its lease is over.
  function LoseOne(s: State, event: nat, k: nat): seq<Step> {
    [Claim(event, Patience(k)), Crash(s.next), Advance(LEASE + Patience(k))]
  }

  lemma ExecAppend3(s: State, steps: seq<Step>, a: Step, b: Step, c: Step)
    ensures Exec(s, steps + [a, b, c]) == Next(Next(Next(Exec(s, steps), a), b), c)
  {
    hide Next;
    assert steps + [a, b, c] == steps + [a] + [b] + [c];
    ExecThen(s, steps, a);
    ExecThen(s, steps + [a], b);
    ExecThen(s, steps + [a] + [b], c);
  }

  lemma LosingOne(s: State, event: nat, k: nat)
    requires DueAgain(s, event, k) && k < MAX_ATTEMPTS - 1
    ensures DueAgain(Next(Next(Next(s, Claim(event, Patience(k))), Crash(s.next)), Advance(LEASE + Patience(k))), event, k + 1)
  {
    BackoffIsPositive(k);
    hide Backoff;
    var t := Next(s, Claim(event, Patience(k)));
    assert t.held == map[s.next := Holding(event, s.now + LEASE + Patience(k), Taken, false)];
  }

  function LosingSteps(s: State, event: nat, k: nat): seq<Step> {
    if k == 0 then []
    else LosingSteps(s, event, k - 1) + LoseOne(Exec(s, LosingSteps(s, event, k - 1)), event, k - 1)
  }

  lemma {:induction false} AttemptsCanBeLost(s: State, event: nat, k: nat)
    requires DueAgain(s, event, 0) && k < MAX_ATTEMPTS
    ensures DueAgain(Exec(s, LosingSteps(s, event, k)), event, k)
  {
    hide Next, DueAgain;
    if k > 0 {
      AttemptsCanBeLost(s, event, k - 1);
      var t := Exec(s, LosingSteps(s, event, k - 1));
      LosingOne(t, event, k - 1);
      ExecAppend3(s, LosingSteps(s, event, k - 1), Claim(event, Patience(k - 1)), Crash(t.next), Advance(LEASE + Patience(k - 1)));
    }
  }

  // The eighth attempt is running when an operator's revival gives the row
  // back: a second replica claims it at once, both leases still valid.
  lemma RevivingALastAttempt(s: State, event: nat)
    requires DueAgain(s, event, MAX_ATTEMPTS - 1)
    ensures var t := Next(Next(Next(s, Claim(event, Patience(MAX_ATTEMPTS - 1))), Requeue(s.rows[event].tenant)), Claim(event, Patience(0)));
      && Overlaps(t, event, s.next, s.next + 1)
      && t.now < t.held[s.next].until && t.now < t.held[s.next + 1].until
  {
    BackoffIsPositive(MAX_ATTEMPTS - 1);
    BackoffIsPositive(0);
    hide Backoff;
    var tenant := s.rows[event].tenant;
    var u := Next(s, Claim(event, Patience(MAX_ATTEMPTS - 1)));
    assert u.rows[event].attempts == MAX_ATTEMPTS && event in RevivedEvents(u, tenant);
    var v := Next(u, Requeue(tenant));
    assert v.rows[event] == ReviveRow(u.rows[event], s.now) && v.held.Keys == u.held.Keys;
  }

  lemma RevivalBreaksExclusion(s0: State, event: nat)
    requires Fresh(s0) && event in s0.rows && s0.rows[event].availableAt <= s0.now
    ensures exists steps, a, b ::
      && Overlaps(Exec(s0, steps), event, a, b)
      && Exec(s0, steps).now < Exec(s0, steps).held[a].until
      && Exec(s0, steps).now < Exec(s0, steps).held[b].until
  {
    assert DueAgain(s0, event, 0);
    AttemptsCanBeLost(s0, event, MAX_ATTEMPTS - 1);
    var lost := LosingSteps(s0, event, MAX_ATTEMPTS - 1);
    var s := Exec(s0, lost);
    RevivingALastAttempt(s, event);
    var c, r, d := Claim(event, Patience(MAX_ATTEMPTS - 1)), Requeue(s.rows[event].tenant), Claim(event, Patience(0));
    ExecAppend3(s0, lost, c, r, d);
    hide Next;
    var steps := lost + [c, r, d];
    assert Overlaps(Exec(s0, steps), event, s.next, s.next + 1);
  }

  // A batch is claimed at one instant and one tenant's events are handled one
  // after another, so a second turn that starts when the first has used its
  // deadline is still running when its own lease is over.
  lemma BatchOutlivesItsLease(s0: State, first: nat, second: nat)
    requires Fresh(s0) && first != second && first in s0.rows && second in s0.rows
    requires s0.rows[first].availableAt <= s0.now && s0.rows[second].availableAt <= s0.now
    ensures var claimed := Next(Next(s0, Claim(first, 500)), Claim(second, 500));
      var firstDone := Next(Next(Next(claimed, Take(0, Finished("", 0))), Advance(TURN_DEADLINE)), Settle(0, Commits(Applied)));
      var running := Next(firstDone, Take(1, Finished("", 0)));
      && Allowed(claimed, Advance(TURN_DEADLINE))
      && running.now - s0.now == TURN_DEADLINE
      && Overlaps(Next(Next(running, Advance(500)), Claim(second, 1000)), second, 1, 2)
  {
    var claimed := Next(Next(s0, Claim(first, 500)), Claim(second, 500));
    assert claimed.held == map[0 := Holding(first, s0.now + LEASE + 500, Taken, false),
                               1 := Holding(second, s0.now + LEASE + 500, Taken, false)];
    var firstDone := Next(Next(Next(claimed, Take(0, Finished("", 0))), Advance(TURN_DEADLINE)), Settle(0, Commits(Applied)));
    assert firstDone.held == map[1 := Holding(second, s0.now + LEASE + 500, Taken, false)];
    assert firstDone.rows[second] == claimed.rows[second];
  }
}
