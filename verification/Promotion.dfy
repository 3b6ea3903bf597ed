/** `flow promote`: a batch of proposals written and confirmed one at a time, in
    two statements each, that can stop between any two of them. */
module Promotion {
  import opened Common

  type Account = nat

  // A prospect's flow: where it starts and the selectors on it.
  datatype Flow = Flow(entry: string, passport: string, destination: string, date: Option<string>, submit: Option<string>, panel: string)

  // What an employee proposes: the selectors its scan found.
  datatype Proposal = Proposal(account: Account, entry: string, passport: Option<string>, destination: Option<string>,
                               date: Option<string>, submit: Option<string>, panel: Option<string>)

  // A row of `prospect_flows`; a confirmation is a person and a time.
  datatype Confirmation = Confirmation(person: string, at: int)

  datatype Row = Row(flow: Flow, confirmed: Option<Confirmation>)

  type Flows = map<Account, Row>

  datatype Gap = NoPassport | NoDestination | NoPanel

  // `promotable`: the flow, or the first of the three required selectors the
  // scan did not find.
  function Promotable(p: Proposal): Result<Flow, Gap> {
    if p.passport.None? then Err(NoPassport)
    else if p.destination.None? then Err(NoDestination)
    else if p.panel.None? then Err(NoPanel)
    else Ok(Flow(p.entry, p.passport.value, p.destination.value, p.date, p.submit, p.panel.value))
  }

  // ------------------------------------------------------------------
  // The two statements
  // ------------------------------------------------------------------

  // The trigger on every update: a changed selector loses its confirmation.
  function Reconfirm(before: Row, after: Row): Row {
    if before.flow != after.flow then Row(after.flow, None) else after
  }

  // The UPSERT, which clears the confirmation itself whatever the selectors.
  function Set(flows: Flows, account: Account, flow: Flow): Flows {
    var row := Row(flow, None);
    flows[account := if account in flows then Reconfirm(flows[account], row) else row]
  }

  function Confirm(flows: Flows, account: Account, c: Confirmation): Flows {
    if account in flows then flows[account := Reconfirm(flows[account], flows[account].(confirmed := Some(c)))] else flows
  }

  datatype Statement = SetFlow(account: Account, flow: Flow) | ConfirmFlow(account: Account)

  function Apply(flows: Flows, s: Statement, c: Confirmation): Flows {
    match s
    case SetFlow(account, flow) => Set(flows, account, flow)
    case ConfirmFlow(account) => Confirm(flows, account, c)
  }

  // The statements one proposal takes, and those of the first n of a batch.
  function StatementsFor(p: Proposal): seq<Statement> {
    match Promotable(p)
    case Err(_) => []
    case Ok(flow) => [SetFlow(p.account, flow), ConfirmFlow(p.account)]
  }

  function Statements(chosen: seq<Proposal>, n: nat): seq<Statement>
    requires n <= |chosen|
  {
    if n == 0 then [] else Statements(chosen, n - 1) + StatementsFor(chosen[n - 1])
  }

  function Batch(chosen: seq<Proposal>): seq<Statement> {
    Statements(chosen, |chosen|)
  }

  // The first n of some statements, run by one person, the i-th at clock(i).
  function Run(flows: Flows, statements: seq<Statement>, n: nat, who: string, clock: nat -> int): Flows
    requires n <= |statements|
  {
    if n == 0 then flows
    else Apply(Run(flows, statements, n - 1, who, clock), statements[n - 1], Confirmation(who, clock(n - 1)))
  }

  // ------------------------------------------------------------------
  // Which proposals
  // ------------------------------------------------------------------

  datatype Which = All | These(accounts: seq<Account>)

  // Nobody has confirmed the flow of that account.
  predicate Waiting(flows: Flows, p: Proposal) {
    p.account in flows ==> flows[p.account].confirmed.None?
  }

  function AllWaiting(listing: seq<Proposal>, flows: Flows): seq<Proposal> {
    if listing == [] then []
    else (if Waiting(flows, listing[0]) then [listing[0]] else []) + AllWaiting(listing[1..], flows)
  }

  function Find(listing: seq<Proposal>, account: Account): Option<Proposal> {
    if listing == [] then None
    else if listing[0].account == account then Some(listing[0])
    else Find(listing[1..], account)
  }

  function FindAll(listing: seq<Proposal>, accounts: seq<Account>): seq<Proposal> {
    if accounts == [] then []
    else
      (match Find(listing, accounts[0])
       case None => []
       case Some(p) => [p])
      + FindAll(listing, accounts[1..])
  }

  function Chosen(listing: seq<Proposal>, flows: Flows, which: Which): seq<Proposal> {
    match which
    case All => AllWaiting(listing, flows)
    case These(accounts) => FindAll(listing, accounts)
  }

  function Unknown(listing: seq<Proposal>, accounts: seq<Account>): seq<Account> {
    if accounts == [] then []
    else (if Find(listing, accounts[0]).None? then [accounts[0]] else []) + Unknown(listing, accounts[1..])
  }

  // One proposal an account: the table's key.
  predicate Keyed(listing: seq<Proposal>) {
    forall i, j :: 0 <= i < j < |listing| ==> listing[i].account != listing[j].account
  }

  // ------------------------------------------------------------------
  // The command
  // ------------------------------------------------------------------

  datatype Outcome =
    | NoProposal(accounts: seq<Account>)
    | NothingToPromote
    | Interrupted
    | Promoted(done: nat, refused: seq<(Account, Gap)>)

  function Refusals(chosen: seq<Proposal>, n: nat): seq<(Account, Gap)>
    requires n <= |chosen|
  {
    if n == 0 then []
    else Refusals(chosen, n - 1) + if Promotable(chosen[n - 1]).Err? then [(chosen[n - 1].account, Promotable(chosen[n - 1]).error)] else []
  }

  // ------------------------------------------------------------------
  // What a promotion is for, said of the proposals on file
  // ------------------------------------------------------------------

  // The account is named and has no proposal.
  ghost predicate Misses(listing: seq<Proposal>, which: Which, a: Account) {
    which.These? && a in which.accounts && forall p :: p in listing ==> p.account != a
  }

  // The proposal is waiting, or its account is named.
  predicate Chooses(which: Which, flows: Flows, p: Proposal) {
    match which
    case All => p.account in flows ==> flows[p.account].confirmed.None?
    case These(accounts) => p.account in accounts
  }

  // The scan found the three selectors a flow has to have.
  predicate Complete(p: Proposal) {
    p.passport.Some? && p.destination.Some? && p.panel.Some?
  }

  function FirstGap(p: Proposal): Option<Gap> {
    if p.passport == None then Some(NoPassport)
    else if p.destination == None then Some(NoDestination)
    else if p.panel == None then Some(NoPanel)
    else None
  }

  // The account's row holds exactly what the proposal does, field by field, and
  // this person's confirmation.
  predicate ConfirmedAs(flows: Flows, p: Proposal, who: string) {
    && p.account in flows
    && var row := flows[p.account];
    && row.flow.entry == p.entry && Some(row.flow.passport) == p.passport && Some(row.flow.destination) == p.destination
    && row.flow.date == p.date && row.flow.submit == p.submit && Some(row.flow.panel) == p.panel
    && row.confirmed.Some? && row.confirmed.value.person == who
  }

  // The command is for that account: it chooses a complete proposal for it.
  ghost predicate IsFor(listing: seq<Proposal>, which: Which, flows: Flows, a: Account) {
    exists p :: p in listing && p.account == a && Chooses(which, flows, p) && Complete(p)
  }

  // What a proposal becomes: exactly the flow it holds, or its first gap.
  lemma PromotableMeans(p: Proposal)
    ensures Promotable(p).Ok? <==> Complete(p)
    ensures Promotable(p).Err? ==> FirstGap(p) == Some(Promotable(p).error)
    ensures Promotable(p).Ok? ==>
      var f := Promotable(p).value;
      && f.entry == p.entry && Some(f.passport) == p.passport && Some(f.destination) == p.destination
      && f.date == p.date && f.submit == p.submit && Some(f.panel) == p.panel
      && FirstGap(p) == None
  {
  }

  lemma {:induction false} NotFound(listing: seq<Proposal>, a: Account)
    ensures Find(listing, a).None? <==> forall p :: p in listing ==> p.account != a
  {
    if listing != [] {
      NotFound(listing[1..], a);
      assert listing == [listing[0]] + listing[1..];
    }
  }

  lemma {:induction false} UnknownAre(listing: seq<Proposal>, accounts: seq<Account>)
    ensures forall a :: a in Unknown(listing, accounts) <==> a in accounts && forall p :: p in listing ==> p.account != a
  {
    hide Find;
    if accounts != [] {
      UnknownAre(listing, accounts[1..]);
      NotFound(listing, accounts[0]);
      assert accounts == [accounts[0]] + accounts[1..];
    }
  }

  lemma MissedMeans(listing: seq<Proposal>, which: Which)
    ensures var unknown := if which.These? then Unknown(listing, which.accounts) else [];
      && (unknown != [] <==> exists a :: Misses(listing, which, a))
      && (forall a :: a in unknown <==> Misses(listing, which, a))
  {
    hide Unknown;
    if which.These? {
      UnknownAre(listing, which.accounts);
      var unknown := Unknown(listing, which.accounts);
      if unknown != [] {
        assert Misses(listing, which, unknown[0]);
      }
    }
  }

  lemma {:induction false} NamedAre(listing: seq<Proposal>, accounts: seq<Account>)
    requires Keyed(listing)
    ensures forall p :: p in FindAll(listing, accounts) <==> p in listing && p.account in accounts
  {
    hide Find, Keyed;
    if accounts != [] {
      NamedAre(listing, accounts[1..]);
      FoundIs(listing, accounts[0]);
      assert accounts == [accounts[0]] + accounts[1..];
      forall p | p in listing && p.account == accounts[0]
        ensures Find(listing, accounts[0]) == Some(p)
      {
        FindIs(listing, p);
      }
    }
  }

  lemma ChosenMeans(listing: seq<Proposal>, flows: Flows, which: Which)
    requires Keyed(listing)
    ensures forall p :: p in Chosen(listing, flows, which) <==> p in listing && Chooses(which, flows, p)
  {
    hide Keyed, FindAll, AllWaiting;
    match which {
      case All => WaitingAre(listing, flows);
      case These(accounts) => NamedAre(listing, accounts);
    }
  }

  lemma WritesMeans(listing: seq<Proposal>, flows: Flows, which: Which, a: Account)
    requires Keyed(listing)
    ensures var chosen := Chosen(listing, flows, which);
      Writes(chosen, |chosen|, a) <==> IsFor(listing, which, flows, a)
  {
    hide Keyed, Chosen, Promotable, Chooses, Complete;
    var chosen := Chosen(listing, flows, which);
    ChosenMeans(listing, flows, which);
    if Writes(chosen, |chosen|, a) {
      var j :| 0 <= j < |chosen| && chosen[j].account == a && Promotable(chosen[j]).Ok?;
      PromotableMeans(chosen[j]);
      assert chosen[j] in chosen;
    }
    if IsFor(listing, which, flows, a) {
      var p :| p in listing && p.account == a && Chooses(which, flows, p) && Complete(p);
      PromotableMeans(p);
      assert p in chosen;
    }
  }

  lemma NotForIsUntouched(listing: seq<Proposal>, flows: Flows, which: Which, k: nat, who: string, clock: nat -> int, a: Account)
    requires Keyed(listing) && !IsFor(listing, which, flows, a) && k <= |Batch(Chosen(listing, flows, which))|
    ensures Untouched(flows, Run(flows, Batch(Chosen(listing, flows, which)), k, who, clock), a)
  {
    hide Keyed, Chosen, IsFor, Batch, Run, Untouched, Writes, Written, Consistent;
    WritesMeans(listing, flows, which, a);
    ChosenAre(listing, flows, which);
    StoppedAt(flows, Chosen(listing, flows, which), k, who, clock, a);
  }

  lemma {:induction false} RefusalsAre(chosen: seq<Proposal>, n: nat)
    requires n <= |chosen|
    ensures forall a, gap :: (a, gap) in Refusals(chosen, n) <==> exists j :: 0 <= j < n && chosen[j].account == a && FirstGap(chosen[j]) == Some(gap)
  {
    hide Promotable, FirstGap;
    if n > 0 {
      RefusalsAre(chosen, n - 1);
      PromotableMeans(chosen[n - 1]);
    }
  }

  // A whole batch: what it confirms and what it refuses.
  lemma BatchMeans(listing: seq<Proposal>, flows: Flows, which: Which, who: string, clock: nat -> int)
    requires Keyed(listing)
    ensures var chosen := Chosen(listing, flows, which);
      && (forall p :: p in listing && Chooses(which, flows, p) && Complete(p) ==> ConfirmedAs(Run(flows, Batch(chosen), |Batch(chosen)|, who, clock), p, who))
      && (forall a, gap :: (a, gap) in Refusals(chosen, |chosen|) <==>
            exists p :: p in listing && Chooses(which, flows, p) && p.account == a && FirstGap(p) == Some(gap))
      && (chosen == [] ==> forall p :: p in listing ==> !Chooses(which, flows, p))
  {
    var chosen := Chosen(listing, flows, which);
    ChosenMeans(listing, flows, which);
    ChosenAre(listing, flows, which);
    RefusalsAre(chosen, |chosen|);
    hide Keyed, Chosen, Chooses, FirstGap, Refusals, Batch, Run, Complete, ConfirmedAs;
    forall p | p in listing && Chooses(which, flows, p) && Complete(p)
      ensures ConfirmedAs(Run(flows, Batch(chosen), |Batch(chosen)|, who, clock), p, who)
    {
      WholeConfirms(flows, chosen, p, who, clock);
    }
    assert forall j :: 0 <= j < |chosen| ==> chosen[j] in chosen;
    forall p | p in chosen
      ensures exists j :: 0 <= j < |chosen| && chosen[j] == p
    {
    }
  }

  lemma WholeConfirms(flows: Flows, chosen: seq<Proposal>, p: Proposal, who: string, clock: nat -> int)
    requires Consistent(chosen) && p in chosen && Complete(p)
    ensures ConfirmedAs(Run(flows, Batch(chosen), |Batch(chosen)|, who, clock), p, who)
  {
    PromotableMeans(p);
    hide Promotable, Batch, Run, Complete, Consistent;
    var j :| 0 <= j < |chosen| && chosen[j] == p;
    assert Writes(chosen, |chosen|, p.account);
    WholeWrites(flows, chosen, who, clock, p.account);
  }

  class Database {
    var flows: Flows

    // The batch, stopped after `budget` statements if it has more. It writes
    // nothing if one account named has no proposal on file, and says which; run
    // whole, it confirms what every proposal it is for holds, and touches nothing
    // else; stopped, it has touched nothing else either.
    method Promote(listing: seq<Proposal>, who: string, which: Which, clock: nat -> int, budget: nat) returns (outcome: Outcome)
      modifies this
      ensures var chosen := Chosen(listing, old(flows), which);
        var unknown := if which.These? then Unknown(listing, which.accounts) else [];
        if unknown != [] then outcome == NoProposal(unknown) && flows == old(flows)
        else if chosen == [] then outcome == NothingToPromote && flows == old(flows)
        else
          var statements := Batch(chosen);
          && flows == Run(old(flows), statements, Min(budget, |statements|), who, clock)
          && (outcome.Interrupted? <==> budget < |statements|)
          && (!outcome.Interrupted? ==> outcome.Promoted? && outcome.refused == Refusals(chosen, |chosen|) && outcome.done + |outcome.refused| == |chosen|)
      ensures outcome.NoProposal? <==> exists a :: Misses(listing, which, a)
      ensures Keyed(listing) && outcome.NothingToPromote? ==> flows == old(flows) && forall p :: p in listing ==> !Chooses(which, old(flows), p)
      ensures outcome.NoProposal? ==> flows == old(flows) && forall a :: a in outcome.accounts <==> Misses(listing, which, a)
      ensures Keyed(listing) ==> forall a :: !IsFor(listing, which, old(flows), a) ==> Untouched(old(flows), flows, a)
      ensures Keyed(listing) && outcome.Promoted? ==>
        forall p :: p in listing && Chooses(which, old(flows), p) && Complete(p) ==> ConfirmedAs(flows, p, who)
      ensures Keyed(listing) && outcome.Promoted? ==>
        forall a, gap :: (a, gap) in outcome.refused <==> exists p :: p in listing && Chooses(which, old(flows), p) && p.account == a && FirstGap(p) == Some(gap)
    {
      var chosen := Chosen(listing, flows, which);
      MissedMeans(listing, which);
      if Keyed(listing) {
        BatchMeans(listing, flows, which, who, clock);
        forall a: Account | !IsFor(listing, which, flows, a)
          ensures forall k: nat :: k <= |Batch(chosen)| ==> Untouched(flows, Run(flows, Batch(chosen), k, who, clock), a)
        {
          forall k: nat | k <= |Batch(chosen)|
            ensures Untouched(flows, Run(flows, Batch(chosen), k, who, clock), a)
          {
            NotForIsUntouched(listing, flows, which, k, who, clock, a);
          }
        }
      }
      hide Chosen, Unknown, Batch, Run, Keyed, Misses, IsFor, Chooses, Complete, ConfirmedAs, FirstGap, Untouched, Refusals;
      if which.These? {
        var missing := Unknown(listing, which.accounts);
        if missing != [] {
          return NoProposal(missing);
        }
      }
      if chosen == [] {
        return NothingToPromote;
      }
      outcome := PromoteEach(chosen, who, clock, budget);
    }

    method PromoteEach(chosen: seq<Proposal>, who: string, clock: nat -> int, budget: nat) returns (outcome: Outcome)
      modifies this
      ensures flows == Run(old(flows), Batch(chosen), Min(budget, |Batch(chosen)|), who, clock)
      ensures outcome.Interrupted? <==> budget < |Batch(chosen)|
      ensures !outcome.Interrupted? ==>
        outcome.Promoted? && outcome.refused == Refusals(chosen, |chosen|) && outcome.done + |outcome.refused| == |chosen|
    {
      hide Apply, Promotable, Statements, Refusals, Batch, Run;
      ghost var statements := Batch(chosen);
      NoneYet(chosen);
      var done, refused, run := 0, [], 0;
      RunStep(flows, statements, run, who, clock);
      for i := 0 to |chosen|
        invariant run <= budget && run == |Statements(chosen, i)| <= |statements|
        invariant flows == Run(old(flows), statements, run, who, clock)
        invariant refused == Refusals(chosen, i) && done + |refused| == i
      {
        BatchStep(chosen, i);
        var proposal := chosen[i];
        match Promotable(proposal) {
          case Err(gap) =>
            refused := refused + [(proposal.account, gap)];
          case Ok(flow) =>
            if run == budget {
              return Interrupted;
            }
            RunStep(old(flows), statements, run, who, clock);
            flows := Apply(flows, SetFlow(proposal.account, flow), Confirmation(who, clock(run)));
            run := run + 1;
            if run == budget {
              return Interrupted;
            }
            RunStep(old(flows), statements, run, who, clock);
            flows := Apply(flows, ConfirmFlow(proposal.account), Confirmation(who, clock(run)));
            run := run + 1;
            done := done + 1;
        }
      }
      outcome := Promoted(done, refused);
    }
  }

  lemma RunStep(flows: Flows, statements: seq<Statement>, n: nat, who: string, clock: nat -> int)
    ensures Run(flows, statements, 0, who, clock) == flows
    ensures n < |statements| ==>
      Run(flows, statements, n + 1, who, clock) == Apply(Run(flows, statements, n, who, clock), statements[n], Confirmation(who, clock(n)))
  {
  }

  lemma {:induction false} BatchStarts(chosen: seq<Proposal>, n: nat)
    requires n <= |chosen|
    ensures Statements(chosen, n) <= Batch(chosen)
    decreases |chosen| - n
  {
    if n < |chosen| {
      BatchStarts(chosen, n + 1);
    }
  }

  lemma NoneYet(chosen: seq<Proposal>)
    ensures Statements(chosen, 0) == [] && Refusals(chosen, 0) == [] && Batch(chosen) == Statements(chosen, |chosen|)
  {
  }

  // What the next proposal adds.
  lemma BatchStep(chosen: seq<Proposal>, i: nat)
    requires i < |chosen|
    ensures var run := |Statements(chosen, i)|;
      match Promotable(chosen[i])
      case Err(gap) =>
        && |Statements(chosen, i + 1)| == run <= |Batch(chosen)|
        && Refusals(chosen, i + 1) == Refusals(chosen, i) + [(chosen[i].account, gap)]
      case Ok(flow) =>
        && |Statements(chosen, i + 1)| == run + 2 <= |Batch(chosen)|
        && Batch(chosen)[run] == SetFlow(chosen[i].account, flow)
        && Batch(chosen)[run + 1] == ConfirmFlow(chosen[i].account)
        && Refusals(chosen, i + 1) == Refusals(chosen, i)
  {
    hide Promotable, Batch;
    BatchStarts(chosen, i + 1);
  }

  // ------------------------------------------------------------------
  // What a batch does to one account
  // ------------------------------------------------------------------

  // One of the first n proposals is for that account and can be promoted.
  predicate Writes(chosen: seq<Proposal>, n: nat, a: Account)
    requires n <= |chosen|
  {
    exists j :: 0 <= j < n && chosen[j].account == a && Promotable(chosen[j]).Ok?
  }

  // An account has one proposal in the batch, however often it is named.
  predicate Consistent(chosen: seq<Proposal>) {
    forall i, j :: 0 <= i < |chosen| && 0 <= j < |chosen| && chosen[i].account == chosen[j].account ==> chosen[i] == chosen[j]
  }

  predicate Untouched(before: Flows, after: Flows, a: Account) {
    (a in after <==> a in before) && (a in before ==> after[a] == before[a])
  }

  // The row holds what the batch proposes for that account.
  predicate Written(chosen: seq<Proposal>, after: Flows, a: Account) {
    a in after && forall j :: 0 <= j < |chosen| && chosen[j].account == a ==> Promotable(chosen[j]) == Ok(after[a].flow)
  }

  predicate ConfirmedBy(after: Flows, a: Account, who: string) {
    a in after && after[a].confirmed.Some? && after[a].confirmed.value.person == who
  }

  lemma PairWrites(flows: Flows, p: Proposal, flow: Flow, who: string, t: int, a: Account)
    ensures var written := Set(flows, p.account, flow);
      var after := Confirm(written, p.account, Confirmation(who, t));
      && (a != p.account ==> Untouched(flows, written, a) && Untouched(flows, after, a))
      && p.account in written && written[p.account] == Row(flow, None)
      && p.account in after && after[p.account] == Row(flow, Some(Confirmation(who, t)))
  {
  }

  // After the first n proposals an account is confirmed with what they propose
  // for it, or is as it was.
  lemma {:induction false} AfterProposals(flows: Flows, chosen: seq<Proposal>, n: nat, who: string, clock: nat -> int, a: Account)
    requires n <= |chosen| && Consistent(chosen) && |Statements(chosen, n)| <= |Batch(chosen)|
    ensures var after := Run(flows, Batch(chosen), |Statements(chosen, n)|, who, clock);
      if Writes(chosen, n, a) then Written(chosen, after, a) && ConfirmedBy(after, a, who) else Untouched(flows, after, a)
  {
    hide Promotable, Statements, Batch, Run, Set, Confirm;
    NoneYet(chosen);
    if n == 0 {
      RunStep(flows, Batch(chosen), 0, who, clock);
    } else {
      BatchStep(chosen, n - 1);
      AfterProposals(flows, chosen, n - 1, who, clock, a);
      var run := |Statements(chosen, n - 1)|;
      var before := Run(flows, Batch(chosen), run, who, clock);
      match Promotable(chosen[n - 1]) {
        case Err(_) =>
        case Ok(flow) =>
          RunStep(flows, Batch(chosen), run, who, clock);
          RunStep(flows, Batch(chosen), run + 1, who, clock);
          PairWrites(before, chosen[n - 1], flow, who, clock(run + 1), a);
          if a == chosen[n - 1].account {
            assert forall j :: 0 <= j < |chosen| && chosen[j].account == a ==> chosen[j] == chosen[n - 1];
            assert Writes(chosen, n, a);
          }
      }
    }
  }

  // ------------------------------------------------------------------
  // Where a batch can stop
  // ------------------------------------------------------------------

  // Any number of statements is whole proposals, or whole proposals and the
  // first statement of the next.
  lemma {:induction false} WholeOrHalf(chosen: seq<Proposal>, n: nat, k: nat) returns (i: nat)
    requires n <= |chosen| && k <= |Statements(chosen, n)|
    ensures i <= n
    ensures k == |Statements(chosen, i)| || (i < n && Promotable(chosen[i]).Ok? && k == |Statements(chosen, i)| + 1)
  {
    hide Promotable;
    if k == |Statements(chosen, n)| {
      i := n;
    } else if n > 0 && |Statements(chosen, n - 1)| < k {
      i := n - 1;
    } else {
      i := WholeOrHalf(chosen, n - 1, k);
    }
  }

  // Stopped after any k statements, an account no proposal can be promoted for
  // is as it was, and another is as it was, or written and not confirmed, or
  // done.
  lemma StoppedAt(flows: Flows, chosen: seq<Proposal>, k: nat, who: string, clock: nat -> int, a: Account)
    requires Consistent(chosen) && k <= |Batch(chosen)|
    ensures var stopped := Run(flows, Batch(chosen), k, who, clock);
      || Untouched(flows, stopped, a)
      || (&& Writes(chosen, |chosen|, a) && Written(chosen, stopped, a)
          && (stopped[a].confirmed.None? || ConfirmedBy(stopped, a, who)))
  {
    hide Promotable, Statements, Run, Set, Confirm;
    NoneYet(chosen);
    var i := WholeOrHalf(chosen, |chosen|, k);
    BatchStarts(chosen, i);
    AfterProposals(flows, chosen, i, who, clock, a);
    if k == |Statements(chosen, i)| + 1 {
      BatchStep(chosen, i);
      RunStep(flows, Batch(chosen), k - 1, who, clock);
      HalfWritten(Run(flows, Batch(chosen), k - 1, who, clock), chosen, i, a);
    }
  }

  lemma HalfWritten(before: Flows, chosen: seq<Proposal>, i: nat, a: Account)
    requires Consistent(chosen) && i < |chosen| && Promotable(chosen[i]).Ok?
    ensures var after := Set(before, chosen[i].account, Promotable(chosen[i]).value);
      if a == chosen[i].account then Writes(chosen, |chosen|, a) && Written(chosen, after, a) && after[a].confirmed.None?
      else Untouched(before, after, a)
  {
    hide Promotable;
    var p, flow := chosen[i], Promotable(chosen[i]).value;
    PairWrites(before, p, flow, "", 0, a);
    if a == p.account {
      assert forall j :: 0 <= j < |chosen| && chosen[j].account == a ==> chosen[j] == p;
    }
  }

  // Stopped between the two statements of a proposal, its account has lost
  // whatever confirmation it had, even of the same selectors: the rest is as it
  // was only when the batch stops between proposals.
  lemma StoppedHalfwayRevokes(flows: Flows, chosen: seq<Proposal>, i: nat, who: string, clock: nat -> int)
    requires i < |chosen| && Promotable(chosen[i]).Ok?
    ensures |Statements(chosen, i)| < |Batch(chosen)|
    ensures var stopped := Run(flows, Batch(chosen), |Statements(chosen, i)| + 1, who, clock);
      chosen[i].account in stopped && stopped[chosen[i].account] == Row(Promotable(chosen[i]).value, None)
  {
    hide Promotable, Statements, Batch, Run, Confirm;
    BatchStep(chosen, i);
    RunStep(flows, Batch(chosen), |Statements(chosen, i)|, who, clock);
  }

  // ------------------------------------------------------------------
  // Running it again
  // ------------------------------------------------------------------

  lemma {:induction false} FindIs(listing: seq<Proposal>, p: Proposal)
    requires Keyed(listing) && p in listing
    ensures Find(listing, p.account) == Some(p)
  {
    if listing[0] != p {
      var i :| 0 <= i < |listing| && listing[i] == p;
      assert listing[1..][i - 1] == p;
      FindIs(listing[1..], p);
    }
  }

  lemma {:induction false} FoundIs(listing: seq<Proposal>, a: Account)
    ensures Find(listing, a).Some? ==> Find(listing, a).value in listing && Find(listing, a).value.account == a
  {
    if listing != [] && listing[0].account != a {
      FoundIs(listing[1..], a);
    }
  }

  lemma {:induction false} WaitingAre(listing: seq<Proposal>, flows: Flows)
    ensures forall p :: p in AllWaiting(listing, flows) <==> p in listing && Waiting(flows, p)
  {
    hide Waiting;
    if listing != [] {
      WaitingAre(listing[1..], flows);
      assert listing == [listing[0]] + listing[1..];
    }
  }

  lemma {:induction false} FoundAllAre(listing: seq<Proposal>, accounts: seq<Account>)
    ensures forall p :: p in FindAll(listing, accounts) ==> p in listing
  {
    hide Find;
    if accounts != [] {
      FoundAllAre(listing, accounts[1..]);
      FoundIs(listing, accounts[0]);
    }
  }

  // A choice is made of proposals on file, so an account has one in it.
  lemma ChosenAre(listing: seq<Proposal>, flows: Flows, which: Which)
    requires Keyed(listing)
    ensures var chosen := Chosen(listing, flows, which);
      && Consistent(chosen)
      && forall j :: 0 <= j < |chosen| ==> Find(listing, chosen[j].account) == Some(chosen[j])
  {
    hide Find, Keyed, Waiting;
    var chosen := Chosen(listing, flows, which);
    match which {
      case All => WaitingAre(listing, flows);
      case These(accounts) => FoundAllAre(listing, accounts);
    }
    forall j | 0 <= j < |chosen|
      ensures Find(listing, chosen[j].account) == Some(chosen[j])
    {
      assert chosen[j] in chosen;
      FindIs(listing, chosen[j]);
    }
  }

  // `--all` writes exactly the accounts with a promotable proposal nobody has
  // confirmed a flow for.
  lemma AllWrites(listing: seq<Proposal>, flows: Flows, a: Account)
    requires Keyed(listing)
    ensures var chosen := Chosen(listing, flows, All);
      Writes(chosen, |chosen|, a) <==>
        (&& Find(listing, a).Some? && Promotable(Find(listing, a).value).Ok?
         && (a in flows ==> flows[a].confirmed.None?))
  {
    hide Find, Keyed, Promotable;
    var chosen := Chosen(listing, flows, All);
    WaitingAre(listing, flows);
    ChosenAre(listing, flows, All);
    FoundIs(listing, a);
    if Find(listing, a).Some? && (a in flows ==> flows[a].confirmed.None?) {
      assert Find(listing, a).value in chosen;
    }
    assert forall j :: 0 <= j < |chosen| ==> chosen[j] in chosen;
  }

  // The same selectors, and confirmed by the same person or nobody.
  predicate Agree(f: Flows, g: Flows, a: Account) {
    && (a in f <==> a in g)
    && (a in f ==> f[a].flow == g[a].flow && (f[a].confirmed.Some? <==> g[a].confirmed.Some?))
    && (a in f && f[a].confirmed.Some? ==> f[a].confirmed.value.person == g[a].confirmed.value.person)
  }

  function Whole(flows: Flows, chosen: seq<Proposal>, who: string, clock: nat -> int): Flows {
    Run(flows, Batch(chosen), |Batch(chosen)|, who, clock)
  }

  lemma WholeWrites(flows: Flows, chosen: seq<Proposal>, who: string, clock: nat -> int, a: Account)
    requires Consistent(chosen)
    ensures var after := Whole(flows, chosen, who, clock);
      if Writes(chosen, |chosen|, a) then Written(chosen, after, a) && ConfirmedBy(after, a, who) else Untouched(flows, after, a)
  {
    hide Consistent, Writes, Written, ConfirmedBy, Untouched, Run, Statements;
    NoneYet(chosen);
    AfterProposals(flows, chosen, |chosen|, who, clock, a);
  }

  // A batch stopped after any number of statements and run again by the same
  // person, with `--all` or with the same accounts, ends with the selectors and
  // the confirmations of one uninterrupted run.
  lemma RerunConverges(listing: seq<Proposal>, flows: Flows, which: Which, k: nat, who: string, clock: nat -> int, again: nat -> int, a: Account)
    requires Keyed(listing) && k <= |Batch(Chosen(listing, flows, which))|
    ensures var chosen := Chosen(listing, flows, which);
      var stopped := Run(flows, Batch(chosen), k, who, clock);
      Agree(Whole(flows, chosen, who, clock), Whole(stopped, Chosen(listing, stopped, which), who, again), a)
  {
    hide Run, Batch, Whole, Promotable, Chosen, Find, Keyed;
    var chosen := Chosen(listing, flows, which);
    var stopped := Run(flows, Batch(chosen), k, who, clock);
    var rest := Chosen(listing, stopped, which);
    ChosenAre(listing, flows, which);
    ChosenAre(listing, stopped, which);
    StoppedAt(flows, chosen, k, who, clock, a);
    WholeWrites(flows, chosen, who, clock, a);
    WholeWrites(stopped, rest, who, again, a);
    match which {
      case All =>
        AllWrites(listing, flows, a);
        AllWrites(listing, stopped, a);
      case These(accounts) =>
        SameChoice(listing, flows, stopped, accounts);
    }
  }

  lemma SameChoice(listing: seq<Proposal>, flows: Flows, later: Flows, accounts: seq<Account>)
    ensures Chosen(listing, flows, These(accounts)) == Chosen(listing, later, These(accounts))
  {
  }
}
