/** The request path in front of the handlers, in the order the layers run:
    credential, console role, rate limit, `replay_idempotent`, `record`. Every
    method is tied to the protocol in `Idempotency`, so the theorems there hold
    of whatever these methods are interleaved with. */
module Gateway {
  import opened Common
  import opened Idempotency
  import RateLimiter

  const MIN_CLIENT_LEN := 8
  const MAX_CLIENT_LEN := 200

  // `key` is the header's text when it is readable as text; `body` is the body
  // when it could be buffered; `digest` is the hash of that body.
  datatype Request = Request(mutating: bool, key: Option<string>, tenant: Option<nat>,
                             endpoint: string, body: Option<string>, digest: string)

  // How a transaction's end is seen: applied and acknowledged, not applied, or
  // applied with the acknowledgement lost.
  datatype Commit = Applied | RolledBack | Unheard

  // What the database does to one request.
  datatype Faults = Faults(beginTx: bool, beginQuery: bool, beginCommit: Commit,
                           recordTx: bool, recordQuery: bool, recordCommit: Commit)

  const HEALTHY := Faults(false, false, Applied, false, false, Applied)

  datatype Reply =
    | Passed                            // the layer did not engage
    | Unauthorized | Forbidden | TooManyRequests
    | BadRequest | Internal | StoreError
    | KeyConflict | KeyInFlight
    | FromRecord(status: nat, body: Json)
    | Fresh(response: Response)

  predicate IsGraphic(c: char) { '!' <= c <= '~' }

  predicate ClientKey(raw: string) {
    MIN_CLIENT_LEN <= |raw| <= MAX_CLIENT_LEN && forall i :: 0 <= i < |raw| ==> IsGraphic(raw[i])
  }

  predicate Engages(request: Request) {
    request.key.Some? && request.mutating
  }

  // The request reaches the store: keyed, well formed and attributed.
  predicate Claims(request: Request) {
    && Engages(request) && ClientKey(request.key.value)
    && request.tenant.Some? && request.body.Some?
  }

  function ScopeOf(request: Request): Scope
    requires Claims(request)
  {
    Scope(request.tenant.value, request.endpoint, "client:" + request.key.value)
  }

  predicate Written(faults: Faults) {
    !faults.recordTx && !faults.recordQuery && !faults.recordCommit.RolledBack?
  }

  // The protocol steps one request takes when nothing interrupts it.
  function Steps(request: Request, handled: Response, faults: Faults, next: nat): seq<Step> {
    if !Claims(request) || faults.beginTx || faults.beginQuery || faults.beginCommit.RolledBack? then []
    else if faults.beginCommit.Unheard? then [Claiming(ScopeOf(request), request.digest, false)]
    else [Claiming(ScopeOf(request), request.digest, true), Answer(next, handled), Recording(next, Written(faults))]
  }

  // Two requests take the same key exactly when the same tenant sends the same
  // text to the same endpoint.
  lemma SameKey(a: Request, b: Request)
    requires Claims(a) && Claims(b)
    ensures ScopeOf(a) == ScopeOf(b) <==> a.tenant == b.tenant && a.endpoint == b.endpoint && a.key == b.key
  {
    var prefix := "client:";
    assert (prefix + a.key.value)[|prefix|..] == a.key.value && (prefix + b.key.value)[|prefix|..] == b.key.value;
  }

  // Which requests reach the store, and what the others are told.
  lemma ClaimsExactly(request: Request)
    ensures Claims(request) <==>
      && request.mutating && request.key.Some? && request.tenant.Some? && request.body.Some?
      && 8 <= |request.key.value| <= 200
      && forall c :: c in request.key.value ==> 33 <= c as int <= 126
  {
    if request.key.Some? {
      var raw := request.key.value;
      assert forall i :: 0 <= i < |raw| ==> raw[i] in raw;
    }
  }

  // The response can be stored: JSON, by its type and on reading, and no 5xx.
  predicate IsRecord(response: Response) {
    && !(response.status >= 500 && response.status <= 599)
    && "application/json" <= response.contentType && response.json.Some?
  }

  // The row a claiming request is about.
  predicate IsRowOf(k: Scope, request: Request) {
    && request.tenant == Some(k.tenant) && request.endpoint == k.endpoint
    && request.key.Some? && k.key == "client:" + request.key.value
  }

  // What a claiming request is told, by the row it finds and what fails.
  predicate Told(before: Table, k: Scope, request: Request, handled: Response, faults: Faults, reply: Reply) {
    if faults.beginTx || faults.beginQuery then reply == StoreError
    else if k in before && before[k].digest != request.digest then reply == KeyConflict
    else if !faults.beginCommit.Applied? then reply == StoreError
    else if k in before && before[k].InFlight? then reply == KeyInFlight
    else if k in before then reply == FromRecord(before[k].status, before[k].body)
    else reply == if handled.tooLarge then Internal else Fresh(handled)
  }

  // What becomes of that row: a new claim stays in flight unless its record is
  // written, which stores the response or gives the key back.
  predicate Left(before: Table, after: Table, k: Scope, request: Request, handled: Response, faults: Faults) {
    if k in before then k in after && after[k] == before[k]
    else if faults.beginTx || faults.beginQuery || faults.beginCommit.RolledBack? then k !in after
    else if faults.beginCommit.Unheard? || handled.tooLarge || faults.recordTx || faults.recordQuery || faults.recordCommit.RolledBack? then
      k in after && after[k] == InFlight(request.digest)
    else if IsRecord(handled) then k in after && after[k] == Done(request.digest, handled.status, handled.json.value)
    else k !in after
  }

  // Every row but the one a request is about is left alone.
  predicate OthersLeft(before: Table, after: Table, request: Request) {
    forall k :: k in before.Keys + after.Keys && !IsRowOf(k, request) ==> k in before && k in after && after[k] == before[k]
  }

  // What a request that claims nothing is told.
  function Unclaimed(request: Request): Reply {
    if !request.mutating || request.key.None? then Passed
    else if ClientKey(request.key.value) && request.tenant.None? then Internal
    else BadRequest
  }

  // A whole run on a key nobody has.
  lemma FreshRunMeans(s: State, scope: Scope, digest: string, handled: Response, applied: bool)
    requires Inv(s) && scope !in s.table
    ensures Next(Next(Next(s, Claiming(scope, digest, true)), Answer(s.next, handled)), Recording(s.next, applied)).table
         == if !applied || handled.tooLarge then s.table[scope := InFlight(digest)]
            else if IsRecord(handled) then s.table[scope := Done(digest, handled.status, handled.json.value)]
            else s.table
  {
    assert s.table[scope := InFlight(digest)] - {scope} == s.table;
  }

  lemma HeardClaimMeans(s: State, scope: Scope, digest: string, handled: Response, applied: bool)
    requires Inv(s) && scope in s.table
    ensures Next(Next(Next(s, Claiming(scope, digest, true)), Answer(s.next, handled)), Recording(s.next, applied)).table == s.table
  {
    NothingClaimed(s, scope, digest, handled, applied);
  }

  lemma RowIsScope(request: Request)
    requires Claims(request)
    ensures forall k :: IsRowOf(k, request) <==> k == ScopeOf(request)
  {
  }

  // What the steps of a claiming request make of the table.
  lemma ClaimingMeans(s: State, request: Request, handled: Response, faults: Faults)
    requires Inv(s) && Claims(request)
    ensures var k := ScopeOf(request);
      var after := Exec(s, Steps(request, handled, faults, s.next)).table;
      after == if k in s.table || faults.beginTx || faults.beginQuery || faults.beginCommit.RolledBack? then s.table
               else if faults.beginCommit.Unheard? || !Written(faults) || handled.tooLarge then s.table[k := InFlight(request.digest)]
               else if IsRecord(handled) then s.table[k := Done(request.digest, handled.status, handled.json.value)]
               else s.table
  {
    hide Claims, ScopeOf, IsRecord;
    var k, steps := ScopeOf(request), Steps(request, handled, faults, s.next);
    if steps != [] {
      if faults.beginCommit.Unheard? {
        ExecOne(s, steps[0]);
      } else {
        ExecThree(s, steps[0], steps[1], steps[2]);
        hide Next, Inv;
        if k in s.table {
          HeardClaimMeans(s, k, request.digest, handled, Written(faults));
        } else {
          FreshRunMeans(s, k, request.digest, handled, Written(faults));
        }
      }
    }
  }

  // What a table becomes over one request's steps.
  lemma StepsMean(s: State, request: Request, handled: Response, faults: Faults)
    requires Inv(s)
    ensures var after := Exec(s, Steps(request, handled, faults, s.next)).table;
      && OthersLeft(s.table, after, request)
      && (if Claims(request) then Left(s.table, after, ScopeOf(request), request, handled, faults) else after == s.table)
  {
    if Claims(request) {
      RowIsScope(request);
      ClaimingMeans(s, request, handled, faults);
      hide Claims, ScopeOf, IsRecord, IsRowOf, Exec, Steps, Inv;
    }
  }

  lemma ExecOne(s: State, a: Step)
    ensures Exec(s, [a]) == Next(s, a)
  {
    assert [a][..0] == [];
  }

  lemma ExecThree(s: State, a: Step, b: Step, c: Step)
    ensures Exec(s, [a, b, c]) == Next(Next(Next(s, a), b), c)
  {
    hide Next;
    ExecOne(s, a);
    assert [a, b][..1] == [a] && [a, b, c][..2] == [a, b];
    assert Exec(s, [a, b]) == Next(Exec(s, [a]), b);
  }

  // A claim that did not start a run leaves nothing for its later steps to do.
  lemma NothingClaimed(s: State, scope: Scope, digest: string, handled: Response, applied: bool)
    requires Inv(s) && !Begin(s.table, scope, digest).Execute?
    ensures var t := Next(s, Claiming(scope, digest, true));
      && t.live == s.live && t.table == s.table && s.next !in t.live
      && Next(Next(t, Answer(s.next, handled)), Recording(s.next, applied)) == t
  {
    assert s.next in s.live ==> LiveOk(s, s.next);
  }

  // An earlier run of the same tenant's same request gave this reply.
  predicate AnsweredBefore(e: Event, request: Request, reply: Reply)
    requires reply.FromRecord?
  {
    && e.Finished? && IsRowOf(e.scope, request) && e.digest == request.digest
    && e.response.status == reply.status && e.response.json == Some(reply.body)
  }

  lemma RecordsAreAnswers(s: State, request: Request, k: Scope, reply: Reply)
    requires Inv(s) && IsRowOf(k, request) && reply.FromRecord?
    requires k in s.table && s.table[k] == Done(request.digest, reply.status, reply.body)
    ensures exists i :: 0 <= i < |s.log| && AnsweredBefore(s.log[i], request, reply)
  {
    assert RanBefore(s.log, |s.log|, k, request.digest, reply.status, reply.body);
    var i :| 0 <= i < |s.log| && s.log[i].Finished? && s.log[i].scope == k && s.log[i].digest == request.digest
             && s.log[i].response.status == reply.status && Storable(s.log[i].response) == Some(reply.body);
    assert AnsweredBefore(s.log[i], request, reply);
  }

  class Server {
    var table: Table
    ghost var live: map<nat, Live>
    ghost var next: nat
    ghost var log: seq<Event>

    ghost function Now(): State
      reads this
    {
      State(table, live, next, log)
    }

    constructor ()
      ensures Now() == INITIAL
    {
      table, live, next, log := map[], map[], 0, [];
    }

    // A step that leaves the table alone: this request's own answer, in the handler.
    ghost method HandlerEnds(step: Step)
      modifies this`live, this`next, this`log
      requires Next(Now(), step).table == table
      ensures Now() == Next(old(Now()), step)
    {
      var t := Next(Now(), step);
      live, next, log := t.live, t.next, t.log;
    }

    method ReplayIdempotent(request: Request, handled: Response, faults: Faults) returns (reply: Reply)
      requires Inv(Now())
      modifies this
      ensures Inv(Now())
      ensures Now() == Exec(old(Now()), Steps(request, handled, faults, old(next)))
      ensures !reply.Unauthorized? && !reply.Forbidden? && !reply.TooManyRequests?
      ensures OthersLeft(old(table), table, request)
      ensures !Claims(request) ==> Now() == old(Now()) && reply == Unclaimed(request)
      ensures forall k :: Claims(request) && IsRowOf(k, request) ==>
        Told(old(table), k, request, handled, faults, reply) && Left(old(table), table, k, request, handled, faults)
      ensures reply.FromRecord? ==> exists i :: 0 <= i < |old(log)| && AnsweredBefore(old(log)[i], request, reply)
    {
      if !(request.key.Some? && request.mutating) {
        return Passed;
      }
      var raw := request.key.value;
      if !ClientKey(raw) {
        return BadRequest;
      }
      if request.tenant.None? {
        return Internal;
      }
      if request.body.None? {
        return BadRequest;
      }
      StepsMean(Now(), request, handled, faults);
      RowIsScope(request);
      hide IsRowOf, ClientKey, ScopeOf, Left, OthersLeft, IsRecord, AnsweredBefore, Storable;
      if faults.beginTx || faults.beginQuery {
        return StoreError;
      }
      var scope := ScopeOf(request);
      var begun := Begin(table, scope, request.digest);
      if faults.beginCommit.RolledBack? {
        return if begun.Conflict? then KeyConflict else StoreError;
      }
      ghost var was := Now();
      var heard := faults.beginCommit.Applied?;
      ClaimStep(scope, request.digest, heard);
      if !heard {
        ExecOne(was, Claiming(scope, request.digest, false));
        return if begun.Conflict? then KeyConflict else StoreError;
      }
      ExecThree(was, Claiming(scope, request.digest, true), Answer(was.next, handled), Recording(was.next, Written(faults)));
      match begun {
        case Replay(status, body) =>
          NothingClaimed(was, scope, request.digest, handled, Written(faults));
          reply := FromRecord(status, body);
          RecordsAreAnswers(was, request, scope, reply);
        case Busy =>
          NothingClaimed(was, scope, request.digest, handled, Written(faults));
          reply := KeyInFlight;
        case Conflict =>
          NothingClaimed(was, scope, request.digest, handled, Written(faults));
          reply := KeyConflict;
        case Execute =>
          HandlerEnds(Answer(was.next, handled));
          AnswerKeeps(Next(was, Claiming(scope, request.digest, true)), was.next, handled);
          reply := Record(was.next, scope, handled, faults);
      }
    }

    // `begin` and the commit of its transaction.
    method ClaimStep(scope: Scope, digest: string, heard: bool)
      requires Inv(Now())
      modifies this
      ensures Inv(Now())
      ensures Now() == Next(old(Now()), Claiming(scope, digest, heard))
    {
      Keeps(Now(), Claiming(scope, digest, heard));
      ghost var t := Next(Now(), Claiming(scope, digest, heard));
      if scope !in table {
        table := table[scope := InFlight(digest)];
      }
      live, next, log := t.live, t.next, t.log;
    }

    // Store the response against the key, or give the key back.
    method Record(ghost owner: nat, scope: Scope, response: Response, faults: Faults) returns (reply: Reply)
      requires Inv(Now())
      requires owner in live && live[owner].Answered? && live[owner].scope == scope && live[owner].response == response
      modifies this
      ensures Inv(Now())
      ensures Now() == Next(old(Now()), Recording(owner, Written(faults)))
      ensures reply == if response.tooLarge then Internal else Fresh(response)
    {
      Keeps(Now(), Recording(owner, Written(faults)));
      ghost var t := Next(Now(), Recording(owner, Written(faults)));
      if response.tooLarge {
        live := t.live;
        return Internal;
      }
      reply := Fresh(response);
      var stored := if 500 <= response.status < 600 || !("application/json" <= response.contentType)
                    then None else response.json;
      if faults.recordTx || faults.recordQuery || faults.recordCommit.RolledBack? {
        live := t.live;
        return;
      }
      assert LiveOk(Now(), owner);
      match stored {
        case Some(body) =>
          if scope in table && table[scope].InFlight? {
            table := table[scope := Done(table[scope].digest, response.status, body)];
          }
        case None =>
          if scope in table && table[scope].InFlight? {
            table := table - {scope};
          }
      }
      live, log := t.live, t.log;
    }
  }

  // What the two layers above the budget decided about the caller.
  datatype Caller = Unknown | NotAllowed(tenant: nat) | Allowed(tenant: nat)

  lemma UntouchedLeaves(table: Table, request: Request)
    ensures OthersLeft(table, table, request)
  {
  }

  class ApiStack {
    const server: Server
    const limiter: RateLimiter.Limiter<nat>

    constructor (server: Server, limiter: RateLimiter.Limiter<nat>)
      ensures this.server == server && this.limiter == limiter
    {
      this.server, this.limiter := server, limiter;
    }

    // A caller without a credential or a role spends nothing: neither a
    // request of the tenant's budget nor an idempotency key. A caller over the
    // budget spends no key.
    method Serve(caller: Caller, now: int, request: Request, handled: Response, faults: Faults) returns (reply: Reply)
      requires Inv(server.Now())
      requires caller.Allowed? ==> request.tenant == Some(caller.tenant)
      modifies server, limiter
      ensures Inv(server.Now())
      ensures caller.Unknown? ==> reply == Unauthorized
      ensures caller.NotAllowed? ==> reply == Forbidden
      ensures !caller.Allowed? ==> limiter.windows == old(limiter.windows) && server.Now() == old(server.Now())
      ensures reply.TooManyRequests? ==> server.Now() == old(server.Now())
      ensures caller.Allowed? ==>
        && limiter.windows == old(limiter.windows)[caller.tenant := RateLimiter.Advance(RateLimiter.Entry(old(limiter.windows), caller.tenant), now)]
        && (reply.TooManyRequests? <==> limiter.windows[caller.tenant].count > RateLimiter.RATE_LIMIT)
        && (!reply.TooManyRequests? ==>
              server.Now() == Exec(old(server.Now()), Steps(request, handled, faults, old(server.next))))
      ensures OthersLeft(old(server.table), server.table, request)
      ensures caller.Allowed? && !reply.TooManyRequests? ==>
        forall k :: Claims(request) && IsRowOf(k, request) ==>
          Told(old(server.table), k, request, handled, faults, reply) && Left(old(server.table), server.table, k, request, handled, faults)
      ensures caller.Allowed? && !reply.TooManyRequests? && !Claims(request) ==> reply == Unclaimed(request)
      ensures reply.FromRecord? ==> exists i :: 0 <= i < |old(server.log)| && AnsweredBefore(old(server.log)[i], request, reply)
    {
      hide IsRowOf, Claims, Told, Left, OthersLeft, AnsweredBefore, Steps, Unclaimed;
      UntouchedLeaves(server.table, request);
      match caller {
        case Unknown => reply := Unauthorized;
        case NotAllowed(_) => reply := Forbidden;
        case Allowed(tenant) =>
          var fits := limiter.Allow(tenant, now);
          if !fits {
            return TooManyRequests;
          }
          reply := server.ReplayIdempotent(request, handled, faults);
      }
    }
  }
}
