/** The keyed-request protocol of `replay_idempotent` and `record`, over the
    three statements of `crates/store/src/idempotency.rs`.

    A keyed request is a chain of separately committed steps: claim the key, run
    the handler, store the response or give the key back. Other requests, lost
    acknowledgements, failed writes and crashes fall between any two of them, so
    the protocol is a transition system and its theorems hold of every sequence
    of steps. */
module Idempotency {
  import opened Common

  type Json = string

  // A JSON value is known by its rendering; `json` is what reading the body as
  // JSON answers, and `tooLarge` a body over the buffering limit.
  datatype Response = Response(status: nat, contentType: string, tooLarge: bool, json: Option<Json>)

  datatype Scope = Scope(tenant: nat, endpoint: string, key: string)

  // A row of `idempotency_records`.
  datatype Row = InFlight(digest: string) | Done(digest: string, status: nat, body: Json)

  datatype Begun = Execute | Replay(status: nat, body: Json) | Busy | Conflict

  type Table = map<Scope, Row>

  // The digest is compared before the state, whatever the state.
  function Begin(table: Table, scope: Scope, digest: string): Begun {
    if scope !in table then Execute
    else if table[scope].digest != digest then Conflict
    else match table[scope]
      case Done(_, status, body) => Replay(status, body)
      case InFlight(_) => Busy
  }

  function Claimed(table: Table, scope: Scope, digest: string): Table {
    if scope in table then table else table[scope := InFlight(digest)]
  }

  // The body a finished response is stored with, or nothing: a server error or
  // a body that is not `application/json` gives the key back instead.
  function Storable(response: Response): Option<Json> {
    if 500 <= response.status < 600 || !("application/json" <= response.contentType) then None
    else response.json
  }

  // `complete` or `release`: both touch an in-flight row and nothing else.
  function Recorded(table: Table, scope: Scope, response: Response): Table {
    if scope !in table || table[scope].Done? then table
    else match Storable(response)
      case Some(body) => table[scope := Done(table[scope].digest, response.status, body)]
      case None => table - {scope}
  }

  // ------------------------------------------------------------------
  // The protocol
  // ------------------------------------------------------------------

  datatype Live =
    | Running(scope: Scope, digest: string)
    | Answered(scope: Scope, digest: string, response: Response)

  // What happened, in commit order. A claim with no owner is one whose commit
  // was applied and whose caller was told it failed, or was gone.
  datatype Event =
    | Claim(scope: Scope, digest: string, taker: Option<nat>)
    | Finished(owner: nat, scope: Scope, digest: string, response: Response)
    | Stored(scope: Scope)
    | Released(scope: Scope)
    | Replayed(scope: Scope, digest: string, status: nat, body: Json)

  datatype State = State(table: Table, live: map<nat, Live>, next: nat, log: seq<Event>)

  const INITIAL := State(map[], map[], 0, [])

  datatype Step =
    | Refuse                                               // 401, 403, 429, 400: above or before the claim
    | Claiming(scope: Scope, digest: string, heard: bool)  // `begin` committed
    | Answer(owner: nat, response: Response)               // the handler ended
    | Recording(owner: nat, applied: bool)                 // `record` ended, its write applied or not
    | Drop(owner: nat)                                     // crash, deadline, client gone

  function Next(s: State, step: Step): State {
    match step
    case Refuse => s
    case Claiming(scope, digest, heard) =>
      (match Begin(s.table, scope, digest)
       case Execute =>
         var owner := if heard then Some(s.next) else None;
         s.(table := Claimed(s.table, scope, digest),
            live := if heard then s.live[s.next := Running(scope, digest)] else s.live,
            next := if heard then s.next + 1 else s.next,
            log := s.log + [Claim(scope, digest, owner)])
       case Replay(status, body) =>
         if heard then s.(log := s.log + [Replayed(scope, digest, status, body)]) else s
       case _ => s)
    case Answer(owner, response) =>
      if owner in s.live && s.live[owner].Running? then
        var run := s.live[owner];
        s.(live := s.live[owner := Answered(run.scope, run.digest, response)],
           log := s.log + [Finished(owner, run.scope, run.digest, response)])
      else s
    case Recording(owner, applied) =>
      if owner in s.live && s.live[owner].Answered? then
        var run := s.live[owner];
        if applied && !run.response.tooLarge then
          s.(table := Recorded(s.table, run.scope, run.response),
             live := s.live - {owner},
             log := s.log + [if Storable(run.response).Some? then Stored(run.scope) else Released(run.scope)])
        else s.(live := s.live - {owner})
      else s
    case Drop(owner) => s.(live := s.live - {owner})
  }

  function Exec(s: State, steps: seq<Step>): State
    decreases |steps|
  {
    if steps == [] then s
    else Next(Exec(s, steps[..|steps| - 1]), steps[|steps| - 1])
  }

  lemma {:induction false} ExecConcat(s: State, a: seq<Step>, b: seq<Step>)
    ensures Exec(s, a + b) == Exec(Exec(s, a), b)
    decreases |b|
  {
    if b == [] {
      assert a + b == a;
    } else {
      ExecConcat(s, a, b[..|b| - 1]);
      assert (a + b)[..|a + b| - 1] == a + b[..|b| - 1];
    }
  }

  // ------------------------------------------------------------------
  // The invariant
  // ------------------------------------------------------------------

  // Whether a key is spoken for, read off the history alone.
  predicate Held(log: seq<Event>, scope: Scope) {
    log != [] && After(log[|log| - 1], scope, Held(log[..|log| - 1], scope))
  }

  predicate After(e: Event, scope: Scope, held: bool) {
    if e.Claim? && e.scope == scope then true
    else if e.Released? && e.scope == scope then false
    else held
  }

  predicate RanBefore(log: seq<Event>, at: nat, scope: Scope, digest: string, status: nat, body: Json)
    requires at <= |log|
  {
    exists i :: 0 <= i < at && log[i].Finished? && log[i].scope == scope && log[i].digest == digest
             && log[i].response.status == status && Storable(log[i].response) == Some(body)
  }

  predicate LiveOk(s: State, owner: nat)
    requires owner in s.live
  {
    var run := s.live[owner];
    && owner < s.next
    && run.scope in s.table && s.table[run.scope] == InFlight(run.digest)
    && Claim(run.scope, run.digest, Some(owner)) in s.log
    && (run.Answered? ==> Finished(owner, run.scope, run.digest, run.response) in s.log)
  }

  ghost predicate TableOk(s: State) {
    && (forall k :: k in s.table <==> Held(s.log, k))
    && (forall k :: k in s.table && s.table[k].Done? ==>
          RanBefore(s.log, |s.log|, k, s.table[k].digest, s.table[k].status, s.table[k].body))
  }

  predicate LogOk(log: seq<Event>, j: nat)
    requires j < |log|
  {
    match log[j]
    case Claim(scope, _, _) => !Held(log[..j], scope)
    case Finished(owner, scope, digest, _) => Claim(scope, digest, Some(owner)) in log[..j]
    case Replayed(scope, digest, status, body) => RanBefore(log, j, scope, digest, status, body)
    case _ => true
  }

  ghost predicate Inv(s: State) {
    && (forall r :: r in s.live ==> LiveOk(s, r))
    && (forall r, q :: r in s.live && q in s.live && s.live[r].scope == s.live[q].scope ==> r == q)
    && TableOk(s)
    && (forall j :: 0 <= j < |s.log| ==> LogOk(s.log, j))
  }

  lemma LogGrows(log: seq<Event>, e: Event)
    requires forall j :: 0 <= j < |log| ==> LogOk(log, j)
    requires LogOk(log + [e], |log|)
    ensures forall j :: 0 <= j < |log + [e]| ==> LogOk(log + [e], j)
  {
    forall j | 0 <= j < |log|
      ensures LogOk(log + [e], j)
    {
      assert (log + [e])[..j] == log[..j];
      assert LogOk(log, j);
      if log[j].Replayed? {
        var r := log[j];
        var i :| 0 <= i < j && log[i].Finished? && log[i].scope == r.scope && log[i].digest == r.digest
               && log[i].response.status == r.status && Storable(log[i].response) == Some(r.body);
        assert (log + [e])[i] == log[i];
      }
    }
  }

  lemma HeldStep(log: seq<Event>, e: Event)
    ensures forall k :: Held(log + [e], k) == After(e, k, Held(log, k))
  {
    assert (log + [e])[..|log|] == log;
  }

  lemma RanGrows(log: seq<Event>, e: Event, scope: Scope, digest: string, status: nat, body: Json)
    requires RanBefore(log, |log|, scope, digest, status, body)
    ensures RanBefore(log + [e], |log| + 1, scope, digest, status, body)
    ensures RanBefore(log + [e], |log|, scope, digest, status, body)
  {
    var i :| 0 <= i < |log| && log[i].Finished? && log[i].scope == scope && log[i].digest == digest
           && log[i].response.status == status && Storable(log[i].response) == Some(body);
    assert (log + [e])[i] == log[i];
  }

  // Everything the next event leaves true of what was already there.
  lemma HistoryStep(s: State, e: Event)
    requires Inv(s) && LogOk(s.log + [e], |s.log|)
    ensures forall j :: 0 <= j < |s.log + [e]| ==> LogOk(s.log + [e], j)
    ensures forall k :: Held(s.log + [e], k) == After(e, k, k in s.table)
    ensures forall x :: x in s.log ==> x in s.log + [e]
    ensures forall k :: k in s.table && s.table[k].Done? ==>
              RanBefore(s.log + [e], |s.log| + 1, k, s.table[k].digest, s.table[k].status, s.table[k].body)
  {
    LogGrows(s.log, e);
    HeldStep(s.log, e);
    forall k | k in s.table && s.table[k].Done?
      ensures RanBefore(s.log + [e], |s.log| + 1, k, s.table[k].digest, s.table[k].status, s.table[k].body)
    {
      RanGrows(s.log, e, k, s.table[k].digest, s.table[k].status, s.table[k].body);
    }
  }

  lemma ReplayKeeps(s: State, scope: Scope, digest: string)
    requires Inv(s)
    requires Begin(s.table, scope, digest).Replay?
    ensures Inv(Next(s, Claiming(scope, digest, true)))
  {
    var row := s.table[scope];
    var e := Replayed(scope, digest, row.status, row.body);
    RanGrows(s.log, e, scope, digest, row.status, row.body);
    HistoryStep(s, e);
  }

  lemma ClaimKeeps(s: State, scope: Scope, digest: string, heard: bool)
    requires Inv(s)
    requires scope !in s.table
    ensures Inv(Next(s, Claiming(scope, digest, heard)))
  {
    var t := Next(s, Claiming(scope, digest, heard));
    var e := Claim(scope, digest, if heard then Some(s.next) else None);
    assert (s.log + [e])[..|s.log|] == s.log;
    HistoryStep(s, e);
    forall r | r in t.live
      ensures LiveOk(t, r)
      ensures r in s.live ==> s.live[r].scope != scope
    {
      if r in s.live {
        assert LiveOk(s, r);
      } else {
        assert t.log[|s.log|] == e;
      }
    }
  }

  lemma AnswerKeeps(s: State, owner: nat, response: Response)
    requires Inv(s)
    requires owner in s.live && s.live[owner].Running?
    ensures Inv(Next(s, Answer(owner, response)))
  {
    var t := Next(s, Answer(owner, response));
    var run := s.live[owner];
    var e := Finished(owner, run.scope, run.digest, response);
    assert LiveOk(s, owner);
    assert (s.log + [e])[..|s.log|] == s.log;
    HistoryStep(s, e);
    assert t.log[|s.log|] == e;
    forall r | r in t.live
      ensures LiveOk(t, r)
    {
      assert LiveOk(s, r);
    }
  }

  // No other live request shares the recorder's key, so the rest keep theirs.
  lemma OthersKeep(s: State, t: State, owner: nat)
    requires Inv(s)
    requires owner in s.live && t.live == s.live - {owner} && t.next == s.next
    requires forall k :: k in s.table && k != s.live[owner].scope ==> k in t.table && t.table[k] == s.table[k]
    requires forall x :: x in s.log ==> x in t.log
    ensures forall r :: r in t.live ==> LiveOk(t, r)
  {
    forall r | r in t.live
      ensures LiveOk(t, r)
    {
      assert LiveOk(s, r);
      assert s.live[r].scope == s.live[owner].scope ==> r == owner;
    }
  }

  lemma StoringKeeps(s: State, owner: nat, body: Json)
    requires Inv(s)
    requires owner in s.live && s.live[owner].Answered? && !s.live[owner].response.tooLarge
    requires Storable(s.live[owner].response) == Some(body)
    ensures Inv(Next(s, Recording(owner, true)))
  {
    var t := Next(s, Recording(owner, true));
    var run := s.live[owner];
    var e := Stored(run.scope);
    assert LiveOk(s, owner);
    HistoryStep(s, e);
    var f := Finished(owner, run.scope, run.digest, run.response);
    var i :| 0 <= i < |s.log| && s.log[i] == f;
    assert t.log[i] == f;
    assert RanBefore(t.log, |t.log|, run.scope, run.digest, run.response.status, body);
    OthersKeep(s, t, owner);
  }

  lemma ReleasingKeeps(s: State, owner: nat)
    requires Inv(s)
    requires owner in s.live && s.live[owner].Answered? && !s.live[owner].response.tooLarge
    requires Storable(s.live[owner].response).None?
    ensures Inv(Next(s, Recording(owner, true)))
  {
    assert LiveOk(s, owner);
    HistoryStep(s, Released(s.live[owner].scope));
    OthersKeep(s, Next(s, Recording(owner, true)), owner);
  }

  lemma {:induction false} Keeps(s: State, step: Step)
    requires Inv(s)
    ensures Inv(Next(s, step))
  {
    match step
    case Refuse =>
    case Claiming(scope, digest, heard) =>
      if scope !in s.table {
        ClaimKeeps(s, scope, digest, heard);
      } else if Begin(s.table, scope, digest).Replay? && heard {
        ReplayKeeps(s, scope, digest);
      }
    case Answer(owner, response) =>
      if owner in s.live && s.live[owner].Running? {
        AnswerKeeps(s, owner, response);
      }
    case Recording(owner, applied) =>
      if owner in s.live && s.live[owner].Answered? && applied && !s.live[owner].response.tooLarge {
        match Storable(s.live[owner].response)
        case Some(body) => StoringKeeps(s, owner, body);
        case None => ReleasingKeeps(s, owner);
      } else {
        LosingKeeps(s, owner);
      }
    case Drop(owner) => LosingKeeps(s, owner);
  }

  lemma LosingKeeps(s: State, owner: nat)
    requires Inv(s)
    ensures Inv(s.(live := s.live - {owner}))
  {
    var t := s.(live := s.live - {owner});
    forall r | r in t.live
      ensures LiveOk(t, r)
    {
      assert LiveOk(s, r);
    }
  }

  lemma {:induction false} ExecKeeps(s: State, steps: seq<Step>)
    requires Inv(s)
    ensures Inv(Exec(s, steps))
    decreases |steps|
  {
    if steps != [] {
      ExecKeeps(s, steps[..|steps| - 1]);
      Keeps(Exec(s, steps[..|steps| - 1]), steps[|steps| - 1]);
    }
  }

  lemma {:induction false} Reachable(steps: seq<Step>)
    ensures Inv(Exec(INITIAL, steps))
  {
    ExecKeeps(INITIAL, steps);
  }

  // ------------------------------------------------------------------
  // Safety over every run
  // ------------------------------------------------------------------

  // At most one request is between its claim and its record on any key, and
  // the key is in flight under that request's own digest while it is.
  lemma OneRunInProgress(steps: seq<Step>, r: nat, q: nat)
    ensures var s := Exec(INITIAL, steps);
      && (r in s.live ==> s.live[r].scope in s.table && s.table[s.live[r].scope] == InFlight(s.live[r].digest))
      && (r in s.live && q in s.live && s.live[r].scope == s.live[q].scope ==> r == q)
  {
    Reachable(steps);
    var s := Exec(INITIAL, steps);
    if r in s.live {
      assert LiveOk(s, r);
    }
  }

  lemma {:induction false} LogExtends(s: State, steps: seq<Step>)
    ensures |s.log| <= |Exec(s, steps).log| && Exec(s, steps).log[..|s.log|] == s.log
    decreases |steps|
  {
    if steps != [] {
      LogExtends(s, steps[..|steps| - 1]);
    }
  }

  lemma {:induction false} HeldBetween(log: seq<Event>, i: nat, j: nat, scope: Scope)
    requires i < j <= |log|
    requires log[i].Claim? && log[i].scope == scope && !Held(log[..j], scope)
    ensures exists m :: i < m < j && log[m] == Released(scope)
  {
    assert log[..j][|log[..j]| - 1] == log[j - 1];
    assert log[..j][..j - 1] == log[..j - 1];
    if log[j - 1] == Released(scope) {
    } else {
      HeldBetween(log, i, j - 1, scope);
    }
  }

  // Between two claims of one key, its release.
  lemma SecondRunFollowsRelease(steps: seq<Step>, i: nat, j: nat)
    requires i < j < |Exec(INITIAL, steps).log|
    requires var log := Exec(INITIAL, steps).log;
      log[i].Claim? && log[j].Claim? && log[i].scope == log[j].scope
    ensures var log := Exec(INITIAL, steps).log;
      exists m :: i < m < j && log[m] == Released(log[i].scope)
  {
    Reachable(steps);
    var log := Exec(INITIAL, steps).log;
    assert LogOk(log, j);
    HeldBetween(log, i, j, log[i].scope);
  }

  // Every run that ended had claimed its key first, for its own request and
  // under its own digest.
  lemma RunsWereClaimed(steps: seq<Step>, j: nat)
    requires j < |Exec(INITIAL, steps).log|
    requires Exec(INITIAL, steps).log[j].Finished?
    ensures var log := Exec(INITIAL, steps).log;
      exists i :: 0 <= i < j && log[i] == Claim(log[j].scope, log[j].digest, Some(log[j].owner))
  {
    Reachable(steps);
    var log := Exec(INITIAL, steps).log;
    assert LogOk(log, j);
    var claim := Claim(log[j].scope, log[j].digest, Some(log[j].owner));
    var i :| 0 <= i < |log[..j]| && log[..j][i] == claim;
    assert log[i] == claim;
  }

  // A replay is the recorded answer of an earlier run of the same tenant,
  // endpoint, key and digest, and never a server error.
  lemma ReplaysAreFaithful(steps: seq<Step>, j: nat)
    requires j < |Exec(INITIAL, steps).log|
    requires Exec(INITIAL, steps).log[j].Replayed?
    ensures var log := Exec(INITIAL, steps).log;
      exists i :: 0 <= i < j && log[i].Finished?
        && log[i].scope == log[j].scope && log[i].digest == log[j].digest
        && log[i].response.status == log[j].status
        && log[i].response.json == Some(log[j].body)
        && "application/json" <= log[i].response.contentType
        && !(500 <= log[j].status < 600)
  {
    Reachable(steps);
    assert LogOk(Exec(INITIAL, steps).log, j);
  }

  lemma StoredStays(s: State, step: Step, scope: Scope)
    requires Inv(s)
    requires scope in s.table && s.table[scope].Done?
    ensures scope in Next(s, step).table && Next(s, step).table[scope] == s.table[scope]
    ensures forall j :: |s.log| <= j < |Next(s, step).log| ==>
              !(Next(s, step).log[j].Claim? && Next(s, step).log[j].scope == scope)
  {
    if step.Recording? && step.owner in s.live {
      assert LiveOk(s, step.owner);
    }
  }

  // Once a response is stored it is never changed or withdrawn, and no later
  // run of that key ever starts.
  lemma {:induction false} StoredIsFinal(s: State, steps: seq<Step>, scope: Scope)
    requires Inv(s)
    requires scope in s.table && s.table[scope].Done?
    ensures scope in Exec(s, steps).table && Exec(s, steps).table[scope] == s.table[scope]
    ensures forall j :: |s.log| <= j < |Exec(s, steps).log| ==>
              !(Exec(s, steps).log[j].Claim? && Exec(s, steps).log[j].scope == scope)
    decreases |steps|
  {
    if steps != [] {
      var before := steps[..|steps| - 1];
      StoredIsFinal(s, before, scope);
      ExecKeeps(s, before);
      StoredStays(Exec(s, before), steps[|steps| - 1], scope);
      LogExtends(Exec(s, before), [steps[|steps| - 1]]);
      assert Exec(Exec(s, before), [steps[|steps| - 1]]) == Exec(s, steps) by {
        assert [steps[|steps| - 1]][..0] == [];
      }
    }
  }

  // ------------------------------------------------------------------
  // Exactly when a key is wedged
  // ------------------------------------------------------------------

  // Somebody alive can still settle this key: its handler is running, or has
  // answered something small enough to be buffered and recorded.
  predicate CanSettle(s: State, scope: Scope) {
    exists r :: r in s.live && s.live[r].scope == scope
             && (s.live[r].Running? || !s.live[r].response.tooLarge)
  }

  predicate Settled(s: State, scope: Scope) {
    scope !in s.table || s.table[scope].Done?
  }

  predicate SettledBy(s: State, steps: seq<Step>, scope: Scope) {
    Settled(Exec(s, steps), scope)
  }

  lemma WedgeHoldsRow(s: State, step: Step, scope: Scope)
    requires Inv(s) && !Settled(s, scope) && !CanSettle(s, scope)
    ensures scope in Next(s, step).table && Next(s, step).table[scope] == s.table[scope]
  {
    if step.Recording? && step.owner in s.live {
      assert LiveOk(s, step.owner);
    }
  }

  lemma WedgeStep(s: State, step: Step, scope: Scope)
    requires Inv(s) && !Settled(s, scope) && !CanSettle(s, scope)
    ensures !Settled(Next(s, step), scope) && !CanSettle(Next(s, step), scope)
  {
    WedgeHoldsRow(s, step, scope);
    var t := Next(s, step);
    forall r | r in t.live && t.live[r].scope == scope
      ensures t.live[r].Answered? && t.live[r].response.tooLarge
    {
      assert r in s.live && s.live[r].scope == scope;
    }
  }

  lemma {:induction false} WedgedStays(s: State, steps: seq<Step>, scope: Scope)
    requires Inv(s) && !Settled(s, scope) && !CanSettle(s, scope)
    ensures !Settled(Exec(s, steps), scope) && !CanSettle(Exec(s, steps), scope)
    decreases |steps|
  {
    if steps != [] {
      WedgedStays(s, steps[..|steps| - 1], scope);
      ExecKeeps(s, steps[..|steps| - 1]);
      WedgeStep(Exec(s, steps[..|steps| - 1]), steps[|steps| - 1], scope);
    }
  }

  // A live request that can record the key gives it back by answering a server error.
  lemma Settling(s: State, scope: Scope, r: nat)
    requires Inv(s)
    requires r in s.live && s.live[r].scope == scope && (s.live[r].Running? || !s.live[r].response.tooLarge)
    ensures SettledBy(s, [Answer(r, Response(500, "application/problem+json", false, None)), Recording(r, true)], scope)
  {
    assert LiveOk(s, r);
    var gone := Response(500, "application/problem+json", false, None);
    var steps := [Answer(r, gone), Recording(r, true)];
    var mid := Next(s, Answer(r, gone));
    assert steps[..1] == [Answer(r, gone)] && [Answer(r, gone)][..0] == [];
    assert Exec(s, [Answer(r, gone)]) == mid;
    assert Exec(s, steps) == Next(mid, Recording(r, true));
  }

  // An in-flight key can still be settled by some continuation if and only if
  // a live request can record it; otherwise every later request is told the
  // key is in flight, for ever.
  lemma WedgedIffNobodyCanSettle(s: State, scope: Scope)
    requires Inv(s) && !Settled(s, scope)
    ensures CanSettle(s, scope) <==> exists steps :: SettledBy(s, steps, scope)
  {
    if CanSettle(s, scope) {
      var r :| r in s.live && s.live[r].scope == scope && (s.live[r].Running? || !s.live[r].response.tooLarge);
      Settling(s, scope, r);
    } else if steps :| SettledBy(s, steps, scope) {
      WedgedStays(s, steps, scope);
    }
  }

  // A request that is dropped is over, and leaves its key as it stands; so does
  // one that is refused above the claim, and one whose record is not written.
  lemma DroppedIsOver(s: State, owner: nat, step: Step)
    requires step == Drop(owner) || step == Refuse || step == Recording(owner, false)
    ensures var t := Next(s, step);
      && t.table == s.table && t.log == s.log && t.next == s.next
      && (step.Drop? ==> owner !in t.live)
      && (step.Recording? && owner in s.live && s.live[owner].Answered? ==> owner !in t.live)
      && (forall r :: r in t.live ==> r in s.live && t.live[r] == s.live[r])
      && (forall r :: r in s.live && r !in t.live ==> r == owner && !step.Refuse?)
  {
  }

  // ------------------------------------------------------------------
  // What one client sees when nothing goes wrong
  // ------------------------------------------------------------------

  // One request served without interference: claim, run, record.
  function Attempt(s: State, scope: Scope, digest: string, handled: Response): State {
    Next(Next(Next(s, Claiming(scope, digest, true)), Answer(s.next, handled)), Recording(s.next, true))
  }

  // The same request sent n times; `answers[i]` is what the handler would
  // answer the i-th time, if it ran.
  function Attempts(scope: Scope, digest: string, answers: seq<Response>, n: nat): State
    requires n <= |answers|
  {
    if n == 0 then INITIAL
    else Attempt(Attempts(scope, digest, answers, n - 1), scope, digest, answers[n - 1])
  }

  function RunsOf(log: seq<Event>, scope: Scope): nat {
    if log == [] then 0
    else RunsOf(log[..|log| - 1], scope)
         + if log[|log| - 1].Finished? && log[|log| - 1].scope == scope then 1 else 0
  }

  // The position of the first of n answers that can be stored, or n.
  function FirstStorable(answers: seq<Response>, n: nat): (first: nat)
    requires n <= |answers|
    ensures first <= n
    ensures forall i :: 0 <= i < first ==> Storable(answers[i]).None?
    ensures first < n ==> Storable(answers[first]).Some?
  {
    if n == 0 then 0
    else
      var first := FirstStorable(answers, n - 1);
      if first < n - 1 || Storable(answers[n - 1]).Some? then first else n
  }

  lemma RunsStep(log: seq<Event>, e: Event, scope: Scope)
    ensures RunsOf(log + [e], scope) == RunsOf(log, scope) + if e.Finished? && e.scope == scope then 1 else 0
  {
    assert (log + [e])[..|log|] == log;
  }

  lemma AttemptFree(s: State, scope: Scope, digest: string, handled: Response)
    requires s.next !in s.live && scope !in s.table && !handled.tooLarge
    ensures var t := Attempt(s, scope, digest, handled);
      && t.live == s.live
      && t.log == s.log + [Claim(scope, digest, Some(s.next))] + [Finished(s.next, scope, digest, handled)]
                  + [if Storable(handled).Some? then Stored(scope) else Released(scope)]
      && t.table == (match Storable(handled)
                     case Some(body) => s.table[scope := Done(digest, handled.status, body)]
                     case None => s.table)
  {
    assert s.table[scope := InFlight(digest)] - {scope} == s.table;
  }

  lemma AttemptReplays(s: State, scope: Scope, digest: string, handled: Response)
    requires s.next !in s.live && scope in s.table && s.table[scope].Done? && s.table[scope].digest == digest
    ensures Attempt(s, scope, digest, handled)
         == s.(log := s.log + [Replayed(scope, digest, s.table[scope].status, s.table[scope].body)])
  {
    var t := Next(s, Claiming(scope, digest, true));
    assert Next(t, Answer(s.next, handled)) == t && Next(t, Recording(s.next, true)) == t;
  }

  // What n attempts leave behind.
  predicate Replayable(s: State, scope: Scope, digest: string, answers: seq<Response>, n: nat)
    requires n <= |answers|
  {
    var first := FirstStorable(answers, n);
    && RunsOf(s.log, scope) == Min(first + 1, n)
    && s.live == map[]
    && s.table == if first < n
                  then map[scope := Done(digest, answers[first].status, Storable(answers[first]).value)]
                  else map[]
  }

  lemma RunsOfAttempt(log: seq<Event>, owner: nat, scope: Scope, digest: string, handled: Response)
    ensures RunsOf(log + [Claim(scope, digest, Some(owner))] + [Finished(owner, scope, digest, handled)]
                   + [if Storable(handled).Some? then Stored(scope) else Released(scope)], scope)
         == RunsOf(log, scope) + 1
  {
    var e, f := Claim(scope, digest, Some(owner)), Finished(owner, scope, digest, handled);
    RunsStep(log, e, scope);
    RunsStep(log + [e], f, scope);
    RunsStep(log + [e] + [f], if Storable(handled).Some? then Stored(scope) else Released(scope), scope);
  }

  lemma AnsweredStep(s: State, scope: Scope, digest: string, answers: seq<Response>, n: nat)
    requires n < |answers| && Replayable(s, scope, digest, answers, n) && !answers[n].tooLarge
    ensures Replayable(Attempt(s, scope, digest, answers[n]), scope, digest, answers, n + 1)
  {
    var last := answers[n];
    if FirstStorable(answers, n) < n {
      AttemptReplays(s, scope, digest, last);
      RunsStep(s.log, Replayed(scope, digest, s.table[scope].status, s.table[scope].body), scope);
    } else {
      AttemptFree(s, scope, digest, last);
      RunsOfAttempt(s.log, s.next, scope, digest, last);
    }
  }

  lemma NothingAttempted(scope: Scope, digest: string, answers: seq<Response>)
    ensures Replayable(INITIAL, scope, digest, answers, 0)
  {
  }

  // The handler runs once per attempt up to and including the first answer
  // that can be stored; from then on every attempt replays that answer.
  lemma {:induction false} RunsUntilStorable(scope: Scope, digest: string, answers: seq<Response>, n: nat)
    requires n <= |answers|
    requires forall i :: 0 <= i < |answers| ==> !answers[i].tooLarge
    ensures Replayable(Attempts(scope, digest, answers, n), scope, digest, answers, n)
  {
    hide Attempt, Replayable;
    if n == 0 {
      NothingAttempted(scope, digest, answers);
    } else {
      RunsUntilStorable(scope, digest, answers, n - 1);
      AnsweredStep(Attempts(scope, digest, answers, n - 1), scope, digest, answers, n - 1);
    }
  }
}
