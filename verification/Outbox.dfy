/** The outbox and the turn it delivers: `Agent::on_turn` and `record_reply`
    over the row verbs of `crates/store/src/outbox.rs`, with the dispatch of
    `loops::outbox::handle`.

    Delivery is at least once: a claim is a lease on `available_at`, the turn
    runs outside any transaction, a failed turn banks its tokens in a transaction
    of its own, a finished one commits its usage, its reply and the published
    mark together. Replicas, crashes, lost acknowledgements, the clock and the
    operator's revival of dead letters interleave freely. Times are
    milliseconds. */
module Outbox {
  import opened Common
  import opened Text

  const MAX_ATTEMPTS := 8
  const LEASE := 120_000
  const TURN_DEADLINE := 120_000
  const UNREMEDIABLE := "unremediable: "

  // ------------------------------------------------------------------
  // Row verbs
  // ------------------------------------------------------------------

  datatype Row = Row(tenant: nat, message: nat, published: bool, attempts: nat,
                     availableAt: int, lastError: Option<string>)

  predicate Due(row: Row, now: int) {
    !row.published && row.availableAt <= now && row.attempts < MAX_ATTEMPTS
  }

  function Pow2(n: nat): (p: nat)
    ensures p >= 1
  {
    if n == 0 then 1 else 2 * Pow2(n - 1)
  }

  // Seconds of backoff before jitter, then jittered by a factor in [0.5, 1.5).
  function Backoff(attempts: nat): nat {
    Min(Pow2(attempts), 3600)
  }

  predicate Jittered(attempts: nat, extra: nat) {
    500 * Backoff(attempts) <= extra < 1500 * Backoff(attempts)
  }

  // The wait doubles with each attempt up to an hour, and the jitter takes from
  // half of it to half as much again.
  lemma BackoffMeans(attempts: nat)
    ensures Backoff(0) == 1
    ensures Backoff(attempts + 1) == if attempts < 11 then 2 * Backoff(attempts) else 3600
    ensures forall extra: nat :: Jittered(attempts, extra) <==>
      Backoff(attempts) * 1000 <= 2 * extra < 3 * (Backoff(attempts) * 1000)
  {
    if attempts >= 11 {
      PowersGrow(attempts + 1);
    } else {
      PowersSmall(attempts + 1);
    }
  }

  lemma {:induction false} PowersGrow(n: nat)
    requires n >= 12
    ensures Pow2(n) >= 4096
  {
    if n == 12 {
      assert Pow2(4) == 16 && Pow2(8) == 16 * Pow2(4) && Pow2(12) == 16 * Pow2(8);
    } else {
      PowersGrow(n - 1);
    }
  }

  lemma {:induction false} PowersSmall(n: nat)
    requires n <= 11
    ensures Pow2(n) <= 2048
    decreases 11 - n
  {
    if n < 11 {
      assert Pow2(n + 1) == 2 * Pow2(n);
      PowersSmall(n + 1);
    } else {
      assert Pow2(4) == 16 && Pow2(8) == 16 * Pow2(4) && Pow2(11) == 8 * Pow2(8);
    }
  }

  function ClaimRow(row: Row, now: int, extra: nat): Row {
    row.(attempts := row.attempts + 1, availableAt := now + LEASE + extra)
  }

  function DoneRow(row: Row): Row {
    row.(published := true, lastError := None)
  }

  function FailRow(row: Row, why: string): Row {
    if row.published then row else row.(lastError := Some(why))
  }

  function ParkRow(row: Row, why: string): Row {
    if row.published then row
    else row.(lastError := Some(why), attempts := Max(row.attempts, MAX_ATTEMPTS))
  }

  predicate Unremediable(row: Row) {
    row.lastError.Some? && UNREMEDIABLE <= row.lastError.value
  }

  predicate Revivable(row: Row) {
    !row.published && row.attempts >= MAX_ATTEMPTS && !Unremediable(row)
  }

  function ReviveRow(row: Row, now: int): Row {
    row.(attempts := 0, availableAt := now)
  }

  // ------------------------------------------------------------------
  // Verdicts
  // ------------------------------------------------------------------

  datatype Failure = Retry(why: string) | Terminal(why: string)

  // The reasons of the writes that failed, cut short.
  const NO_SPEND := "spend not recorded"
  const NO_COMMIT := "spend not committed"
  const NO_USAGE := "tokens not recorded"
  const NO_REPLY := "reply not recorded"
  const NO_MARK := "not published"

  datatype Budget = Turns | ToolCalls | Tokens | Deadline

  datatype TurnError = BudgetExceeded(budget: Budget) | Llm(retryable: bool) | StoreDown

  // What stops a turn before the model is called.
  datatype Refusal =
    | NoEmployee | NoMessage | CharterCorrupt | NoModelPermitted
    | NotConnected | HostModelIsNotTheirs | SubscriptionIsNotOursToHold | KeyMissing
    | Unreadable | CharterUnavailable | AccessUnavailable | CompanyHalted

  // `reply` is the text with its ends trimmed.
  datatype Outcome =
    | Finished(reply: string, tokens: nat)
    | Failed(error: TurnError, turns: nat, tokens: nat)

  function RefusalVerdict(refusal: Refusal): Failure {
    match refusal
    case NoEmployee => Terminal("no employee")
    case NoMessage => Terminal("no message")
    case CharterCorrupt => Terminal("no charter")
    case NoModelPermitted => Terminal("no model permitted")
    case NotConnected => Terminal("not connected")
    case HostModelIsNotTheirs => Terminal("not their model")
    case SubscriptionIsNotOursToHold => Terminal("not ours to hold")
    case KeyMissing => Terminal("no credential")
    case _ => Retry("not available")
  }

  function Verdict(error: TurnError): Failure {
    match error
    case StoreDown => Retry("store unreachable")
    case Llm(true) => Retry("model out of reach")
    case BudgetExceeded(Deadline) => Retry("out of time")
    case BudgetExceeded(_) => Terminal(UNREMEDIABLE + "a ceiling no configuration can raise")
    case Llm(false) => Terminal("cannot finish")
  }

  // A reason that begins otherwise is not marked.
  lemma Remediable(why: string)
    requires why != [] && why[0] != 'u'
    ensures !(UNREMEDIABLE <= why)
  {
    assert UNREMEDIABLE[0] == 'u';
  }

  predicate Ceiling(error: TurnError) {
    error.BudgetExceeded? && !error.budget.Deadline?
  }

  // A ceiling no operator can raise, and nothing else, is marked unremediable;
  // a deadline, an unreachable store and an unreachable model are retried.
  lemma OnlyCeilingsAreFinal(error: TurnError)
    ensures UNREMEDIABLE <= Verdict(error).why <==> Ceiling(error)
    ensures Ceiling(error) ==> Verdict(error).Terminal?
    ensures Verdict(error).Retry? <==> error.StoreDown? || error == BudgetExceeded(Deadline) || error == Llm(true)
  {
    match error
    case StoreDown => Remediable("store unreachable");
    case Llm(true) => Remediable("model out of reach");
    case Llm(false) => Remediable("cannot finish");
    case BudgetExceeded(Deadline) =>
      Remediable("out of time");
    case BudgetExceeded(_) =>
  }

  // A halt and an outage are retried; no refusal before the model is final.
  predicate Passing(refusal: Refusal) {
    refusal.CompanyHalted? || refusal.AccessUnavailable? || refusal.CharterUnavailable? || refusal.Unreadable?
  }

  lemma RefusalsCanBeRemedied(refusal: Refusal)
    ensures !(UNREMEDIABLE <= RefusalVerdict(refusal).why)
    ensures RefusalVerdict(refusal).Retry? <==> Passing(refusal)
  {
    match refusal
    case NoEmployee => Remediable("no employee");
    case NoMessage => Remediable("no message");
    case CharterCorrupt => Remediable("no charter");
    case NoModelPermitted => Remediable("no model permitted");
    case NotConnected => Remediable("not connected");
    case HostModelIsNotTheirs => Remediable("not their model");
    case SubscriptionIsNotOursToHold => Remediable("not ours to hold");
    case KeyMissing => Remediable("no credential");
    case _ => Remediable("not available");
  }

  // ------------------------------------------------------------------
  // The system
  // ------------------------------------------------------------------

  // What became of the tokens a turn spent.
  datatype Fate = Pending | Banked | Committed | Lost

  datatype Run = Run(event: nat, outcome: Outcome, fate: Fate)

  // What a verdict is about: a refusal, or the turn of one run.
  datatype Cause = Refused(refusal: Refusal) | Turned(run: nat)

  datatype Stage = Taken | Ran(run: nat) | Deciding(failure: Failure, cause: Cause)

  // One claimed row in one replica's hands. `revived` says that an operator
  // gave the row back to the queue while this handling was still on it.
  datatype Holding = Holding(event: nat, until: int, stage: Stage, revived: bool)

  datatype Mark = Claimed(event: nat) | Revived(events: set<nat>) | Parked(event: nat, why: string, cause: Cause)

  datatype State = State(rows: map<nat, Row>, replies: map<nat, string>, ledger: nat, now: int,
                         held: map<nat, Holding>, next: nat, runs: seq<Run>, log: seq<Mark>)

  datatype Commit = Applied | RolledBack | Unheard

  datatype Settlement = UsageFails | ReplyFails | Commits(end: Commit)

  datatype Step =
    | Advance(elapsed: nat)
    | Claim(event: nat, extra: nat)
    | Refuse(id: nat, refusal: Refusal)
    | Take(id: nat, outcome: Outcome)
    | Bank(id: nat, end: Commit)
    | Settle(id: nat, settlement: Settlement)
    | Report(id: nat, written: bool)
    | Crash(id: nat)
    | Requeue(tenant: nat)

  function TokensOf(outcome: Outcome): nat { outcome.tokens }

  function Decide(s: State, id: nat, failure: Failure, cause: Cause): State
    requires id in s.held
  {
    s.(held := s.held[id := s.held[id].(stage := Deciding(failure, cause))])
  }

  function LetGo(s: State, id: nat): State {
    s.(held := s.held - {id})
  }

  function SetFate(s: State, run: nat, fate: Fate): State
    requires run < |s.runs|
  {
    s.(runs := s.runs[run := s.runs[run].(fate := fate)])
  }

  function WithReply(replies: map<nat, string>, message: nat, reply: string): map<nat, string> {
    if Blank(reply) || message in replies then replies else replies[message := reply]
  }

  predicate RanOn(s: State, id: nat) {
    id in s.held && s.held[id].stage.Ran? && s.held[id].stage.run < |s.runs| && s.held[id].event in s.rows
  }

  function ClaimStep(s: State, event: nat, extra: nat): State {
    if event in s.rows && Due(s.rows[event], s.now) && Jittered(s.rows[event].attempts, extra) then
      var row := ClaimRow(s.rows[event], s.now, extra);
      s.(rows := s.rows[event := row],
         held := s.held[s.next := Holding(event, row.availableAt, Taken, false)],
         next := s.next + 1,
         log := s.log + [Claimed(event)])
    else s
  }

  // The tokens of a failed turn, in a transaction of their own and before any
  // verdict is looked at.
  function BankStep(s: State, id: nat, end: Commit): State {
    if RanOn(s, id) && s.runs[s.held[id].stage.run].outcome.Failed? then
      var run := s.held[id].stage.run;
      var failed := s.runs[run].outcome;
      if failed.turns == 0 then Decide(SetFate(s, run, Lost), id, Verdict(failed.error), Turned(run))
      else if end.RolledBack? then Decide(SetFate(s, run, Lost), id, Retry(NO_SPEND), Turned(run))
      else
        var banked := SetFate(s, run, Banked).(ledger := s.ledger + failed.tokens);
        Decide(banked, id, if end.Applied? then Verdict(failed.error) else Retry(NO_COMMIT), Turned(run))
    else s
  }

  // What stops a finished turn's transaction, in the order the writes come.
  function Trouble(row: Row, reply: string, settlement: Settlement): Option<Failure> {
    if settlement.UsageFails? then Some(Retry(NO_USAGE))
    else if settlement.ReplyFails? && !Blank(reply) then Some(Retry(NO_REPLY))
    else if row.published then Some(Retry(NO_MARK))
    else None
  }

  // The usage row, the reply and the published mark of a finished turn, in the
  // handler's one transaction.
  function SettleStep(s: State, id: nat, settlement: Settlement): State {
    if RanOn(s, id) && s.runs[s.held[id].stage.run].outcome.Finished? then
      var run := s.held[id].stage.run;
      var row := s.rows[s.held[id].event];
      var finished := s.runs[run].outcome;
      match Trouble(row, finished.reply, settlement)
      case Some(failure) => Decide(SetFate(s, run, Lost), id, failure, Turned(run))
      case None =>
        if settlement.Commits? && settlement.end.RolledBack? then LetGo(SetFate(s, run, Lost), id)
        else CommitTurn(s, id, run)
    else s
  }

  function CommitTurn(s: State, id: nat, run: nat): State
    requires RanOn(s, id) && s.held[id].stage.run == run && s.runs[run].outcome.Finished?
  {
    var row := s.rows[s.held[id].event];
    var finished := s.runs[run].outcome;
    LetGo(SetFate(s, run, Committed), id).(
      rows := s.rows[s.held[id].event := DoneRow(row)],
      replies := WithReply(s.replies, row.message, finished.reply),
      ledger := s.ledger + finished.tokens)
  }

  function ReportStep(s: State, id: nat, written: bool): State {
    if id in s.held && s.held[id].stage.Deciding? && s.held[id].event in s.rows then
      var event := s.held[id].event;
      var failure := s.held[id].stage.failure;
      if !written then LetGo(s, id)
      else if failure.Retry? then
        LetGo(s, id).(rows := s.rows[event := FailRow(s.rows[event], failure.why)])
      else
        LetGo(s, id).(rows := s.rows[event := ParkRow(s.rows[event], failure.why)],
                      log := if s.rows[event].published then s.log else s.log + [Parked(event, failure.why, s.held[id].stage.cause)])
    else s
  }

  function RevivedEvents(s: State, tenant: nat): set<nat> {
    set e | e in s.rows && s.rows[e].tenant == tenant && Revivable(s.rows[e])
  }

  function RequeueStep(s: State, tenant: nat): State {
    var back := RevivedEvents(s, tenant);
    s.(rows := map e | e in s.rows :: if e in back then ReviveRow(s.rows[e], s.now) else s.rows[e],
       held := map h | h in s.held :: if s.held[h].event in back then s.held[h].(revived := true) else s.held[h],
       log := s.log + [Revived(back)])
  }

  function Next(s: State, step: Step): State {
    match step
    case Advance(elapsed) => s.(now := s.now + elapsed)
    case Claim(event, extra) => ClaimStep(s, event, extra)
    case Refuse(id, refusal) =>
      if id in s.held && s.held[id].stage.Taken? then Decide(s, id, RefusalVerdict(refusal), Refused(refusal)) else s
    case Take(id, outcome) =>
      if id in s.held && s.held[id].stage.Taken? then
        s.(held := s.held[id := s.held[id].(stage := Ran(|s.runs|))],
           runs := s.runs + [Run(s.held[id].event, outcome, Pending)])
      else s
    case Bank(id, end) => BankStep(s, id, end)
    case Settle(id, settlement) => SettleStep(s, id, settlement)
    case Report(id, written) => ReportStep(s, id, written)
    case Crash(id) =>
      if RanOn(s, id) then LetGo(SetFate(s, s.held[id].stage.run, Lost), id) else LetGo(s, id)
    case Requeue(tenant) => RequeueStep(s, tenant)
  }

  function Exec(s: State, steps: seq<Step>): State
    decreases |steps|
  {
    if steps == [] then s
    else Next(Exec(s, steps[..|steps| - 1]), steps[|steps| - 1])
  }

  // A queue of freshly enqueued rows and nobody working on it.
  predicate Fresh(s: State) {
    && (forall e :: e in s.rows ==> !s.rows[e].published && s.rows[e].attempts == 0 && s.rows[e].lastError == None)
    && s.replies == map[] && s.ledger == 0 && s.held == map[] && s.next == 0 && s.runs == [] && s.log == []
  }

  // ------------------------------------------------------------------
  // Leases
  // ------------------------------------------------------------------

  predicate HoldingOk(s: State, id: nat)
    requires id in s.held
  {
    var h := s.held[id];
    && id < s.next
    && h.event in s.rows
    && (h.stage.Ran? ==> h.stage.run < |s.runs| && s.runs[h.stage.run].event == h.event
                         && s.runs[h.stage.run].fate == Pending)
    && (!h.revived ==> h.until <= s.rows[h.event].availableAt)
  }

  ghost predicate HeldOk(s: State) {
    && (forall e :: e in s.rows ==> s.rows[e].attempts <= MAX_ATTEMPTS)
    && (forall id :: id in s.held ==> HoldingOk(s, id))
    && (forall a, b :: a in s.held && b in s.held && s.held[a].stage.Ran? && s.held[a].stage == s.held[b].stage
                       ==> a == b)
  }

  lemma HeldClaim(s: State, event: nat, extra: nat)
    requires HeldOk(s)
    ensures HeldOk(ClaimStep(s, event, extra))
  {
    var t := ClaimStep(s, event, extra);
    forall id | id in t.held
      ensures HoldingOk(t, id)
    {
      if id in s.held {
        assert HoldingOk(s, id);
      }
    }
  }

  // Every step but a claim and a revival leaves the leases alone.
  lemma HeldFrame(s: State, t: State)
    requires HeldOk(s)
    requires t.rows.Keys == s.rows.Keys && t.held.Keys <= s.held.Keys && t.next == s.next
    requires forall e :: e in s.rows ==>
               t.rows[e].availableAt == s.rows[e].availableAt && t.rows[e].attempts <= MAX_ATTEMPTS
    requires |s.runs| <= |t.runs|
    requires forall id :: id in t.held ==> t.held[id].(stage := s.held[id].stage) == s.held[id]
    requires forall id :: id in t.held && t.held[id].stage.Ran? ==>
               && t.held[id].stage.run < |t.runs|
               && t.runs[t.held[id].stage.run].fate == Pending && t.runs[t.held[id].stage.run].event == t.held[id].event
               && (t.held[id].stage == s.held[id].stage || t.held[id].stage.run >= |s.runs|)
    requires forall a, b :: (a in t.held && b in t.held && a != b && t.held[a].stage.Ran? && t.held[b].stage.Ran?
                             && t.held[a].stage.run >= |s.runs|) ==> t.held[a].stage != t.held[b].stage
    ensures HeldOk(t)
  {
    forall id | id in t.held
      ensures HoldingOk(t, id)
    {
      assert HoldingOk(s, id);
    }
  }

  lemma HeldTake(s: State, id: nat, outcome: Outcome)
    requires HeldOk(s)
    ensures HeldOk(Next(s, Take(id, outcome)))
  {
    var t := Next(s, Take(id, outcome));
    forall q | q in s.held
      ensures HoldingOk(s, q)
    {
    }
    HeldFrame(s, t);
  }

  // A run gets its fate only when its holding moves on or ends.
  predicate FateOnly(s: State, id: nat, fate: Fate, t: State)
    requires RanOn(s, id)
  {
    && t.runs == SetFate(s, s.held[id].stage.run, fate).runs
    && t.rows.Keys == s.rows.Keys && t.next == s.next
    && forall e :: e in s.rows ==>
         t.rows[e].availableAt == s.rows[e].availableAt && t.rows[e].attempts == s.rows[e].attempts
  }

  lemma OtherRuns(s: State, id: nat)
    requires HeldOk(s) && RanOn(s, id)
    ensures forall q :: q in s.held && q != id && s.held[q].stage.Ran? ==> s.held[q].stage != s.held[id].stage
    ensures forall q :: q in s.held ==> HoldingOk(s, q)
  {
  }

  lemma FateEnded(s: State, id: nat, fate: Fate, t: State)
    requires HeldOk(s) && RanOn(s, id) && FateOnly(s, id, fate, t) && t.held == s.held - {id}
    ensures HeldOk(t)
  {
    OtherRuns(s, id);
    HeldFrame(s, t);
  }

  lemma FateDecided(s: State, id: nat, fate: Fate, failure: Failure, cause: Cause, t: State)
    requires HeldOk(s) && RanOn(s, id) && FateOnly(s, id, fate, t)
    requires t.held == s.held[id := s.held[id].(stage := Deciding(failure, cause))]
    ensures HeldOk(t)
  {
    OtherRuns(s, id);
    HeldFrame(s, t);
  }

  lemma HeldBank(s: State, id: nat, end: Commit)
    requires HeldOk(s)
    ensures HeldOk(BankStep(s, id, end))
  {
    hide Verdict;
    var t := BankStep(s, id, end);
    if RanOn(s, id) && s.runs[s.held[id].stage.run].outcome.Failed? {
      hide HeldOk;
      FateDecided(s, id, t.runs[s.held[id].stage.run].fate, t.held[id].stage.failure, t.held[id].stage.cause, t);
    }
  }

  lemma HeldSettle(s: State, id: nat, settlement: Settlement)
    requires HeldOk(s)
    ensures HeldOk(SettleStep(s, id, settlement))
  {
    var t := SettleStep(s, id, settlement);
    if RanOn(s, id) && s.runs[s.held[id].stage.run].outcome.Finished? {
      hide HeldOk;
      var fate := t.runs[s.held[id].stage.run].fate;
      if id in t.held {
        FateDecided(s, id, fate, t.held[id].stage.failure, t.held[id].stage.cause, t);
      } else {
        FateEnded(s, id, fate, t);
      }
    }
  }

  lemma HeldReport(s: State, id: nat, written: bool)
    requires HeldOk(s)
    ensures HeldOk(ReportStep(s, id, written))
  {
    hide Pow2;
    forall q | q in s.held
      ensures HoldingOk(s, q)
    {
    }
    hide HoldingOk;
    HeldFrame(s, ReportStep(s, id, written));
  }

  lemma HeldCrash(s: State, id: nat)
    requires HeldOk(s)
    ensures HeldOk(Next(s, Crash(id)))
  {
    forall q | q in s.held
      ensures HoldingOk(s, q)
    {
    }
    if RanOn(s, id) {
      FateEnded(s, id, Lost, Next(s, Crash(id)));
    } else {
      HeldFrame(s, Next(s, Crash(id)));
    }
  }

  lemma HeldRequeue(s: State, tenant: nat)
    requires HeldOk(s)
    ensures HeldOk(RequeueStep(s, tenant))
  {
    var t := RequeueStep(s, tenant);
    forall id | id in t.held
      ensures HoldingOk(t, id)
    {
      assert HoldingOk(s, id);
    }
  }

  lemma HeldStep(s: State, step: Step)
    requires HeldOk(s)
    ensures HeldOk(Next(s, step))
  {
    match step
    case Advance(_) =>
      HeldFrame(s, Next(s, step)) by { forall q | q in s.held ensures HoldingOk(s, q) {} }
    case Claim(event, extra) => HeldClaim(s, event, extra);
    case Refuse(id, refusal) =>
      HeldFrame(s, Next(s, step)) by { forall q | q in s.held ensures HoldingOk(s, q) {} }
    case Take(id, outcome) => HeldTake(s, id, outcome);
    case Bank(id, end) => HeldBank(s, id, end);
    case Settle(id, settlement) => HeldSettle(s, id, settlement);
    case Report(id, written) => HeldReport(s, id, written);
    case Crash(id) => HeldCrash(s, id);
    case Requeue(tenant) => HeldRequeue(s, tenant);
  }

  // ------------------------------------------------------------------
  // Money, the published mark and the reply
  // ------------------------------------------------------------------

  predicate Charged(fate: Fate) { fate.Banked? || fate.Committed? }

  // Tokens of the first n runs that reached the ledger, and all they spent.
  function Metered(runs: seq<Run>, n: nat): nat
    requires n <= |runs|
  {
    if n == 0 then 0
    else Metered(runs, n - 1) + if Charged(runs[n - 1].fate) then runs[n - 1].outcome.tokens else 0
  }

  function Spent(runs: seq<Run>, n: nat): nat
    requires n <= |runs|
  {
    if n == 0 then 0 else Spent(runs, n - 1) + runs[n - 1].outcome.tokens
  }

  lemma {:induction false} MeteredSet(runs: seq<Run>, i: nat, fate: Fate, n: nat)
    requires i < |runs| && n <= |runs| && !Charged(runs[i].fate)
    ensures Metered(runs[i := runs[i].(fate := fate)], n)
         == Metered(runs, n) + if i < n && Charged(fate) then runs[i].outcome.tokens else 0
  {
    if n > 0 {
      MeteredSet(runs, i, fate, n - 1);
    }
  }

  lemma {:induction false} MeteredPrefix(runs: seq<Run>, more: seq<Run>, n: nat)
    requires n <= |runs|
    ensures Metered(runs + more, n) == Metered(runs, n)
  {
    if n > 0 {
      MeteredPrefix(runs, more, n - 1);
    }
  }

  lemma {:induction false} MeteredBySpent(runs: seq<Run>, n: nat)
    requires n <= |runs|
    ensures Metered(runs, n) <= Spent(runs, n)
    ensures Metered(runs, n) == Spent(runs, n)
       <==> forall i :: 0 <= i < n && runs[i].outcome.tokens > 0 ==> Charged(runs[i].fate)
  {
    if n > 0 {
      MeteredBySpent(runs, n - 1);
    }
  }

  predicate CommittedAt(runs: seq<Run>, i: nat, event: nat) {
    i < |runs| && runs[i].event == event && runs[i].fate.Committed?
  }

  predicate Answers(s: State, i: nat, message: nat, reply: string) {
    && i < |s.runs| && s.runs[i].fate.Committed? && s.runs[i].outcome == Finished(reply, s.runs[i].outcome.tokens)
    && !Blank(reply)
    && s.runs[i].event in s.rows && s.rows[s.runs[i].event].message == message
  }

  predicate RunOk(s: State, i: nat)
    requires i < |s.runs|
  {
    var run := s.runs[i];
    && (run.fate.Banked? ==> run.outcome.Failed?)
    && (run.fate.Committed? ==>
          && run.outcome.Finished?
          && run.event in s.rows && s.rows[run.event].published
          && (!Blank(run.outcome.reply) ==> s.rows[run.event].message in s.replies))
  }

  ghost predicate MoneyOk(s: State) {
    && s.ledger == Metered(s.runs, |s.runs|)
    && (forall i :: 0 <= i < |s.runs| ==> RunOk(s, i))
    && (forall e :: e in s.rows && s.rows[e].published ==> exists i :: CommittedAt(s.runs, i, e))
    && (forall i, j, e :: CommittedAt(s.runs, i, e) && CommittedAt(s.runs, j, e) ==> i == j)
    && (forall m :: m in s.replies ==> exists i :: Answers(s, i, m, s.replies[m]))
  }

  predicate SameBooks(s: State, t: State) {
    && t.ledger == s.ledger && t.replies == s.replies && t.rows.Keys == s.rows.Keys
    && forall e :: e in s.rows ==>
         t.rows[e].published == s.rows[e].published && t.rows[e].message == s.rows[e].message
  }

  lemma MoneyFrame(s: State, t: State)
    requires MoneyOk(s) && SameBooks(s, t) && t.runs == s.runs
    ensures MoneyOk(t)
  {
    forall i | 0 <= i < |t.runs|
      ensures RunOk(t, i)
    {
      assert RunOk(s, i);
    }
    forall m | m in t.replies
      ensures exists i :: Answers(t, i, m, t.replies[m])
    {
      var i :| Answers(s, i, m, s.replies[m]);
      assert Answers(t, i, m, t.replies[m]);
    }
  }

  lemma MoneyTake(s: State, id: nat, outcome: Outcome)
    requires MoneyOk(s)
    requires id in s.held && s.held[id].stage.Taken?
    ensures MoneyOk(Next(s, Take(id, outcome)))
  {
    var t := Next(s, Take(id, outcome));
    MeteredPrefix(s.runs, [Run(s.held[id].event, outcome, Pending)], |s.runs|);
    forall i | 0 <= i < |t.runs|
      ensures RunOk(t, i)
    {
      assert i < |s.runs| ==> RunOk(s, i);
    }
    forall i, e | CommittedAt(t.runs, i, e)
      ensures CommittedAt(s.runs, i, e)
    {
    }
    forall e | e in t.rows && t.rows[e].published
      ensures exists i :: CommittedAt(t.runs, i, e)
    {
      var i :| CommittedAt(s.runs, i, e);
      assert CommittedAt(t.runs, i, e);
    }
    forall m | m in t.replies
      ensures exists i :: Answers(t, i, m, t.replies[m])
    {
      var i :| Answers(s, i, m, s.replies[m]);
      assert Answers(t, i, m, t.replies[m]);
    }
  }

  // A pending run becomes lost, or is banked as a failed turn.
  lemma MoneyFate(s: State, run: nat, fate: Fate, t: State)
    requires MoneyOk(s)
    requires run < |s.runs| && s.runs[run].fate.Pending?
    requires fate.Lost? || (fate.Banked? && s.runs[run].outcome.Failed?)
    requires t.runs == SetFate(s, run, fate).runs
    requires SameBooks(s, t.(ledger := s.ledger))
    requires t.ledger == s.ledger + if fate.Banked? then s.runs[run].outcome.tokens else 0
    ensures MoneyOk(t)
  {
    MeteredSet(s.runs, run, fate, |s.runs|);
    forall i | 0 <= i < |t.runs|
      ensures RunOk(t, i)
    {
      assert RunOk(s, i);
    }
    forall i, e | CommittedAt(t.runs, i, e)
      ensures CommittedAt(s.runs, i, e)
    {
    }
    forall e | e in t.rows && t.rows[e].published
      ensures exists i :: CommittedAt(t.runs, i, e)
    {
      var i :| CommittedAt(s.runs, i, e);
      assert CommittedAt(t.runs, i, e);
    }
    forall m | m in t.replies
      ensures exists i :: Answers(t, i, m, t.replies[m])
    {
      var i :| Answers(s, i, m, s.replies[m]);
      assert Answers(t, i, m, t.replies[m]);
    }
  }

  lemma CommitRuns(s: State, id: nat, run: nat)
    requires MoneyOk(s) && RanOn(s, id) && HoldingOk(s, id) && s.held[id].stage.run == run
    requires s.runs[run].outcome.Finished? && !s.rows[s.held[id].event].published
    ensures var t := CommitTurn(s, id, run);
      && t.ledger == Metered(t.runs, |t.runs|)
      && forall i :: 0 <= i < |t.runs| ==> RunOk(t, i)
  {
    var t := CommitTurn(s, id, run);
    MeteredSet(s.runs, run, Committed, |s.runs|);
    forall i | 0 <= i < |t.runs|
      ensures RunOk(t, i)
    {
      assert RunOk(s, i);
    }
  }

  lemma CommitPublishes(s: State, id: nat, run: nat)
    requires MoneyOk(s) && RanOn(s, id) && HoldingOk(s, id) && s.held[id].stage.run == run
    requires s.runs[run].outcome.Finished? && !s.rows[s.held[id].event].published
    ensures var t := CommitTurn(s, id, run);
      && (forall e :: e in t.rows && t.rows[e].published ==> exists i :: CommittedAt(t.runs, i, e))
      && (forall i, j, e :: CommittedAt(t.runs, i, e) && CommittedAt(t.runs, j, e) ==> i == j)
  {
    var t := CommitTurn(s, id, run);
    var event := s.held[id].event;
    forall i, e | CommittedAt(t.runs, i, e)
      ensures if i == run then e == event else CommittedAt(s.runs, i, e) && e != event
    {
      if i != run {
        assert RunOk(s, i);
      }
    }
    forall e | e in t.rows && t.rows[e].published
      ensures exists i :: CommittedAt(t.runs, i, e)
    {
      if e == event {
        assert CommittedAt(t.runs, run, e);
      } else {
        var i :| CommittedAt(s.runs, i, e);
        assert CommittedAt(t.runs, i, e);
      }
    }
  }

  lemma CommitReplies(s: State, id: nat, run: nat)
    requires MoneyOk(s) && RanOn(s, id) && HoldingOk(s, id) && s.held[id].stage.run == run
    requires s.runs[run].outcome.Finished?
    ensures var t := CommitTurn(s, id, run);
      forall m :: m in t.replies ==> exists i :: Answers(t, i, m, t.replies[m])
  {
    var t := CommitTurn(s, id, run);
    forall m | m in t.replies
      ensures exists i :: Answers(t, i, m, t.replies[m])
    {
      if m in s.replies {
        var i :| Answers(s, i, m, s.replies[m]);
        assert Answers(t, i, m, t.replies[m]);
      } else {
        assert Answers(t, run, m, t.replies[m]);
      }
    }
  }

  lemma MoneyBank(s: State, id: nat, end: Commit)
    requires MoneyOk(s) && HeldOk(s)
    ensures MoneyOk(BankStep(s, id, end))
  {
    hide Verdict;
    if RanOn(s, id) && s.runs[s.held[id].stage.run].outcome.Failed? {
      assert HoldingOk(s, id);
      var t := BankStep(s, id, end);
      hide MoneyOk;
      MoneyFate(s, s.held[id].stage.run, t.runs[s.held[id].stage.run].fate, t);
    }
  }

  lemma MoneySettle(s: State, id: nat, settlement: Settlement)
    requires MoneyOk(s) && HeldOk(s)
    ensures MoneyOk(SettleStep(s, id, settlement))
  {
    if RanOn(s, id) && s.runs[s.held[id].stage.run].outcome.Finished? {
      assert HoldingOk(s, id);
      var t := SettleStep(s, id, settlement);
      var run := s.held[id].stage.run;
      if t == CommitTurn(s, id, run) && !s.rows[s.held[id].event].published {
        CommitRuns(s, id, run);
        CommitPublishes(s, id, run);
        CommitReplies(s, id, run);
      } else {
        hide MoneyOk;
        MoneyFate(s, run, Lost, t);
      }
    }
  }

  lemma MoneyCrash(s: State, id: nat)
    requires MoneyOk(s) && HeldOk(s)
    ensures MoneyOk(Next(s, Crash(id)))
  {
    if RanOn(s, id) {
      assert HoldingOk(s, id);
      MoneyFate(s, s.held[id].stage.run, Lost, Next(s, Crash(id)));
    } else {
      MoneyFrame(s, Next(s, Crash(id)));
    }
  }

  lemma MoneyStep(s: State, step: Step)
    requires MoneyOk(s) && HeldOk(s)
    ensures MoneyOk(Next(s, step))
  {
    hide MoneyOk;
    match step
    case Take(id, outcome) =>
      if id in s.held && s.held[id].stage.Taken? {
        MoneyTake(s, id, outcome);
      }
    case Bank(id, end) => MoneyBank(s, id, end);
    case Settle(id, settlement) => MoneySettle(s, id, settlement);
    case Crash(id) => MoneyCrash(s, id);
    case Report(id, written) => MoneyFrame(s, ReportStep(s, id, written));
    case Claim(event, extra) => MoneyFrame(s, ClaimStep(s, event, extra));
    case Requeue(tenant) => MoneyFrame(s, RequeueStep(s, tenant));
    case Refuse(_, _) => MoneyFrame(s, Next(s, step));
    case Advance(_) => MoneyFrame(s, Next(s, step));
  }

  // ------------------------------------------------------------------
  // Attempts
  // ------------------------------------------------------------------

  function Claims(log: seq<Mark>, event: nat): nat {
    if log == [] then 0
    else Claims(log[..|log| - 1], event) + if log[|log| - 1] == Claimed(event) then 1 else 0
  }

  predicate Revives(mark: Mark, event: nat) {
    mark.Revived? && event in mark.events
  }

  function Revivals(log: seq<Mark>, event: nat): nat {
    if log == [] then 0
    else Revivals(log[..|log| - 1], event) + if Revives(log[|log| - 1], event) then 1 else 0
  }

  // Claims since the row last got its attempts back, and whether it has been
  // parked since.
  function ClaimsSince(log: seq<Mark>, event: nat): nat {
    if log == [] || Revives(log[|log| - 1], event) then 0
    else ClaimsSince(log[..|log| - 1], event) + if log[|log| - 1] == Claimed(event) then 1 else 0
  }

  predicate ParkedSince(log: seq<Mark>, event: nat) {
    && log != []
    && !Revives(log[|log| - 1], event)
    && (ParkedSince(log[..|log| - 1], event) || (log[|log| - 1].Parked? && log[|log| - 1].event == event))
  }

  function RunsOn(runs: seq<Run>, event: nat, n: nat): nat
    requires n <= |runs|
  {
    if n == 0 then 0 else RunsOn(runs, event, n - 1) + if runs[n - 1].event == event then 1 else 0
  }

  predicate Waits(held: map<nat, Holding>, event: nat, id: nat) {
    id in held && held[id].event == event && held[id].stage.Taken?
  }

  // Handlings of this event, among the first n, that have not called a model.
  function Waiting(held: map<nat, Holding>, event: nat, n: nat): nat {
    if n == 0 then 0 else Waiting(held, event, n - 1) + if Waits(held, event, n - 1) then 1 else 0
  }

  lemma {:induction false} FewerWait(held: map<nat, Holding>, held': map<nat, Holding>, event: nat, n: nat)
    requires forall id: nat :: id < n && Waits(held', event, id) ==> Waits(held, event, id)
    ensures Waiting(held', event, n) <= Waiting(held, event, n)
  {
    if n > 0 {
      FewerWait(held, held', event, n - 1);
    }
  }

  lemma {:induction false} OneLessWaits(held: map<nat, Holding>, held': map<nat, Holding>, event: nat, id: nat, n: nat)
    requires id < n && Waits(held, event, id) && !Waits(held', event, id)
    requires forall q: nat :: q < n && Waits(held', event, q) ==> Waits(held, event, q)
    ensures Waiting(held', event, n) + 1 <= Waiting(held, event, n)
  {
    if id == n - 1 {
      FewerWait(held, held', event, n - 1);
    } else {
      OneLessWaits(held, held', event, id, n - 1);
    }
  }

  lemma {:induction false} SameRuns(runs: seq<Run>, runs': seq<Run>, event: nat, n: nat)
    requires n <= |runs| && n <= |runs'|
    requires forall i :: 0 <= i < n ==> runs'[i].event == runs[i].event
    ensures RunsOn(runs', event, n) == RunsOn(runs, event, n)
  {
    if n > 0 {
      SameRuns(runs, runs', event, n - 1);
    }
  }

  predicate HistoryOn(s: State, event: nat)
    requires event in s.rows
  {
    var attempts := s.rows[event].attempts;
    && Claims(s.log, event) <= MAX_ATTEMPTS * Revivals(s.log, event) + attempts
    && ClaimsSince(s.log, event) <= attempts
    && (attempts != ClaimsSince(s.log, event) ==> ParkedSince(s.log, event))
    && RunsOn(s.runs, event, |s.runs|) + Waiting(s.held, event, s.next) <= Claims(s.log, event)
  }

  ghost predicate HistoryOk(s: State) {
    forall e :: e in s.rows ==> HistoryOn(s, e)
  }

  lemma LogStep(log: seq<Mark>, mark: Mark, event: nat)
    ensures Claims(log + [mark], event) == Claims(log, event) + if mark == Claimed(event) then 1 else 0
    ensures Revivals(log + [mark], event) == Revivals(log, event) + if Revives(mark, event) then 1 else 0
    ensures ClaimsSince(log + [mark], event)
         == if Revives(mark, event) then 0
            else ClaimsSince(log, event) + if mark == Claimed(event) then 1 else 0
    ensures ParkedSince(log + [mark], event)
       <==> !Revives(mark, event) && (ParkedSince(log, event) || (mark.Parked? && mark.event == event))
  {
    assert (log + [mark])[..|log|] == log;
  }

  // Nothing claimed, revived or parked, and no further run.
  predicate Quiet(s: State, t: State) {
    && t.log == s.log && t.next == s.next && t.rows.Keys == s.rows.Keys
    && (forall e :: e in s.rows ==> t.rows[e].attempts == s.rows[e].attempts)
    && |t.runs| == |s.runs|
    && (forall i :: 0 <= i < |s.runs| ==> t.runs[i].event == s.runs[i].event)
    && (forall id :: id in t.held ==>
          id in s.held && t.held[id].event == s.held[id].event
          && (t.held[id].stage.Taken? ==> s.held[id].stage.Taken?))
  }

  lemma HistoryQuiet(s: State, t: State, event: nat)
    requires event in s.rows && Quiet(s, t) && HistoryOn(s, event)
    ensures HistoryOn(t, event)
  {
    SameRuns(s.runs, t.runs, event, |s.runs|);
    FewerWait(s.held, t.held, event, s.next);
  }

  lemma QuietBank(s: State, id: nat, end: Commit)
    ensures Quiet(s, BankStep(s, id, end))
  {
    hide Verdict;
  }

  lemma QuietSettle(s: State, id: nat, settlement: Settlement)
    ensures Quiet(s, SettleStep(s, id, settlement))
  {
  }

  lemma QuietSteps(s: State, step: Step)
    requires step.Bank? || step.Settle? || step.Crash? || step.Refuse? || step.Advance?
    ensures Quiet(s, Next(s, step))
  {
    match step
    case Bank(id, end) => QuietBank(s, id, end);
    case Settle(id, settlement) => QuietSettle(s, id, settlement);
    case _ =>
  }

  lemma HistoryClaim(s: State, claimed: nat, extra: nat, event: nat)
    requires HeldOk(s) && event in s.rows && HistoryOn(s, event)
    ensures HistoryOn(ClaimStep(s, claimed, extra), event)
  {
    var t := ClaimStep(s, claimed, extra);
    if claimed in s.rows && Due(s.rows[claimed], s.now) && Jittered(s.rows[claimed].attempts, extra) {
      hide HeldOk;
      LogStep(s.log, Claimed(claimed), event);
      forall id: nat | id < s.next && Waits(t.held, event, id)
        ensures Waits(s.held, event, id)
      {
      }
      FewerWait(s.held, t.held, event, s.next);
      assert Waits(t.held, event, s.next) <==> claimed == event;
    }
  }

  lemma HistoryTake(s: State, id: nat, outcome: Outcome, event: nat)
    requires HeldOk(s) && event in s.rows && HistoryOn(s, event)
    requires id in s.held && s.held[id].stage.Taken?
    ensures HistoryOn(Next(s, Take(id, outcome)), event)
  {
    var t := Next(s, Take(id, outcome));
    assert HoldingOk(s, id);
    SameRuns(s.runs, t.runs, event, |s.runs|);
    if s.held[id].event == event {
      OneLessWaits(s.held, t.held, event, id, s.next);
    } else {
      FewerWait(s.held, t.held, event, s.next);
    }
  }

  lemma HistoryReport(s: State, id: nat, written: bool, event: nat)
    requires event in s.rows && HistoryOn(s, event)
    ensures HistoryOn(ReportStep(s, id, written), event)
  {
    var t := ReportStep(s, id, written);
    FewerWait(s.held, t.held, event, s.next);
    if t.log != s.log {
      LogStep(s.log, t.log[|s.log|], event);
    }
  }

  lemma HistoryRequeue(s: State, tenant: nat, event: nat)
    requires HeldOk(s) && event in s.rows && HistoryOn(s, event)
    ensures HistoryOn(RequeueStep(s, tenant), event)
  {
    var t := RequeueStep(s, tenant);
    LogStep(s.log, Revived(RevivedEvents(s, tenant)), event);
    FewerWait(s.held, t.held, event, s.next);
  }

  lemma HistoryOnStep(s: State, step: Step, e: nat)
    requires HeldOk(s) && e in s.rows && HistoryOn(s, e)
    ensures e in Next(s, step).rows && HistoryOn(Next(s, step), e)
  {
    hide HistoryOn, HeldOk, Quiet;
    match step
    case Claim(event, extra) => HistoryClaim(s, event, extra, e);
    case Take(id, outcome) =>
      if id in s.held && s.held[id].stage.Taken? {
        HistoryTake(s, id, outcome, e);
      }
    case Report(id, written) => HistoryReport(s, id, written, e);
    case Requeue(tenant) => HistoryRequeue(s, tenant, e);
    case _ =>
      QuietSteps(s, step);
      HistoryQuiet(s, Next(s, step), e);
  }

  lemma SameEvents(s: State, step: Step)
    ensures Next(s, step).rows.Keys == s.rows.Keys
  {
  }

  lemma HistoryStep(s: State, step: Step)
    requires HistoryOk(s) && HeldOk(s)
    ensures HistoryOk(Next(s, step))
  {
    SameEvents(s, step);
    hide Next, HistoryOn, HeldOk;
    forall e | e in Next(s, step).rows
      ensures HistoryOn(Next(s, step), e)
    {
      HistoryOnStep(s, step, e);
    }
  }

  // ------------------------------------------------------------------
  // Every run
  // ------------------------------------------------------------------

  ghost predicate Inv(s: State) {
    HeldOk(s) && MoneyOk(s) && HistoryOk(s)
  }

  lemma FreshIsGood(s: State)
    requires Fresh(s)
    ensures Inv(s)
  {
  }

  lemma Keeps(s: State, step: Step)
    requires Inv(s)
    ensures Inv(Next(s, step))
  {
    HeldStep(s, step);
    MoneyStep(s, step);
    HistoryStep(s, step);
  }

  lemma {:induction false} ExecKeeps(s: State, steps: seq<Step>)
    requires Inv(s)
    ensures Inv(Exec(s, steps))
    decreases |steps|
  {
    hide Next, Inv;
    if steps != [] {
      ExecKeeps(s, steps[..|steps| - 1]);
      Keeps(Exec(s, steps[..|steps| - 1]), steps[|steps| - 1]);
    }
  }
}
