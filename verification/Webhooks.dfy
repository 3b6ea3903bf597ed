/** `AGENTOS_WEBHOOK_SECRETS`: how the registrations are read, collected into
    the endpoint map, and given readers in the outbox's dispatch table. */
module Webhooks {
  import opened Common
  import opened Text
  import Keyring

  type Std = Keyring.Std

  datatype Registration = Registration(provider: string, tenant: nat, secret: string)

  datatype Refusal = Entry(index: nat) | Twice(provider: string)

  // One `provider:tenant-uuid:secret` entry.
  function Read(std: Std, entry: string): Result<Registration, Keyring.Fault> {
    match SplitOnce(entry, ':')
    case None => Err(Keyring.BadShape)
    case Some((provider, rest)) =>
      match SplitOnce(rest, ':')
      case None => Err(Keyring.BadShape)
      case Some((tenant, secret)) =>
        if provider == "" || secret == "" then Err(Keyring.BadShape)
        else match std.uuid(tenant)
          case None => Err(Keyring.BadTenant)
          case Some(id) => Ok(Registration(provider, id, secret))
  }

  // `parse_webhook_entries`: every refusal of an entry is the same error.
  function ReadAll(std: Std, raw: string): Result<seq<Registration>, Refusal> {
    match Keyring.Collect(entry => Read(std, entry), Entries(raw), 0)
    case Ok(hooks) => Ok(hooks)
    case Err(e) => Err(Entry(e.index))
  }

  predicate Distinct(hooks: seq<Registration>) {
    forall i, j :: 0 <= i < j < |hooks| ==> hooks[i].provider != hooks[j].provider
  }

  // The first registration whose provider an earlier one already has.
  predicate FirstRepeat(hooks: seq<Registration>, at: nat) {
    && at < |hooks|
    && Distinct(hooks[..at])
    && exists k :: 0 <= k < at && hooks[k].provider == hooks[at].provider
  }

  // `parse_webhooks`, as a function of the line.
  function Parse(std: Std, raw: string): Result<seq<Registration>, Refusal> {
    match ReadAll(std, raw)
    case Err(e) => Err(e)
    case Ok(hooks) =>
      match Repeated(hooks, |hooks|)
      case Some(at) => Err(Twice(hooks[at].provider))
      case None => Ok(hooks)
  }

  // The index of the first repeat among the first n registrations.
  function Repeated(hooks: seq<Registration>, n: nat): (at: Option<nat>)
    requires n <= |hooks|
    ensures at.None? <==> Distinct(hooks[..n])
    ensures at.Some? ==> at.value < n && FirstRepeat(hooks, at.value)
  {
    if n == 0 then None
    else
      var before := Repeated(hooks, n - 1);
      assert hooks[..n][..n - 1] == hooks[..n - 1];
      if before.Some? then
        assert !Distinct(hooks[..n]) by {
          assert hooks[..n - 1] == hooks[..n][..n - 1];
          var i, j :| 0 <= i < j < |hooks[..n - 1]| && hooks[..n - 1][i].provider == hooks[..n - 1][j].provider;
          assert hooks[..n][i].provider == hooks[..n][j].provider;
        }
        before
      else if exists k :: 0 <= k < n - 1 && hooks[k].provider == hooks[n - 1].provider then
        assert !Distinct(hooks[..n]) by {
          var k :| 0 <= k < n - 1 && hooks[k].provider == hooks[n - 1].provider;
          assert hooks[..n][k].provider == hooks[..n][n - 1].provider;
        }
        Some(n - 1)
      else
        assert Distinct(hooks[..n]) by {
          forall i, j | 0 <= i < j < n
            ensures hooks[i].provider != hooks[j].provider
          {
            assert j < n - 1 ==> hooks[..n - 1][i].provider != hooks[..n - 1][j].provider;
          }
        }
        None
  }

  lemma RepeatIsNotDistinct(hooks: seq<Registration>, at: nat, n: nat)
    requires FirstRepeat(hooks, at) && at < n <= |hooks|
    ensures !Distinct(hooks[..n])
  {
    var k :| 0 <= k < at && hooks[k].provider == hooks[at].provider;
    assert hooks[..n][k].provider == hooks[..n][at].provider;
  }

  lemma RepeatIsUnique(hooks: seq<Registration>, a: nat, b: nat)
    requires FirstRepeat(hooks, a) && FirstRepeat(hooks, b)
    ensures a == b
  {
    if a < b {
      RepeatIsNotDistinct(hooks, a, b);
    } else if b < a {
      RepeatIsNotDistinct(hooks, b, a);
    }
  }

  lemma RepeatFound(hooks: seq<Registration>, k: nat, at: nat)
    requires k < at < |hooks| && Distinct(hooks[..at]) && hooks[k].provider == hooks[at].provider
    ensures Repeated(hooks, |hooks|) == Some(at)
  {
    assert FirstRepeat(hooks, at);
    RepeatIsNotDistinct(hooks, at, |hooks|);
    RepeatIsUnique(hooks, at, Repeated(hooks, |hooks|).value);
  }

  lemma NoneYet(hooks: seq<Registration>)
    ensures Distinct(hooks[..0])
  {
  }

  lemma OneMore(hooks: seq<Registration>, n: nat)
    requires n < |hooks| && Distinct(hooks[..n])
    requires forall k :: 0 <= k < n ==> hooks[k].provider != hooks[n].provider
    ensures Distinct(hooks[..n + 1])
  {
    forall a, b | 0 <= a < b < n + 1
      ensures hooks[a].provider != hooks[b].provider
    {
      assert b < n ==> hooks[..n][a].provider != hooks[..n][b].provider;
    }
  }

  // The loop over the parsed entries, with its set of providers seen.
  method ParseWebhooks(std: Std, raw: string) returns (parsed: Result<seq<Registration>, Refusal>)
    ensures parsed == Parse(std, raw)
  {
    var entries := ReadAll(std, raw);
    if entries.Err? {
      return entries;
    }
    var hooks := entries.value;
    NoneYet(hooks);
    hide ReadAll, Repeated, Distinct;
    var seen: set<string> := {};
    for i := 0 to |hooks|
      invariant Distinct(hooks[..i])
      invariant forall p :: p in seen <==> exists k :: 0 <= k < i && hooks[k].provider == p
    {
      if hooks[i].provider in seen {
        var k :| 0 <= k < i && hooks[k].provider == hooks[i].provider;
        RepeatFound(hooks, k, i);
        return Err(Twice(hooks[i].provider));
      }
      OneMore(hooks, i);
      seen := seen + {hooks[i].provider};
    }
    assert hooks[..|hooks|] == hooks;
    parsed := Ok(hooks);
  }

  // ------------------------------------------------------------------
  // Which lines are accepted, and as what
  // ------------------------------------------------------------------

  // The error names the first bad entry, counted among the non-blank ones.
  lemma FirstBadEntry(std: Std, raw: string)
    requires Parse(std, raw).Err? && Parse(std, raw).error.Entry?
    ensures var at := Parse(std, raw).error.index;
      && at < |Entries(raw)| && Read(std, Entries(raw)[at]).Err?
      && forall k :: 0 <= k < at ==> Read(std, Entries(raw)[k]).Ok?
  {
    hide Keyring.Collect, Read, Entries;
    var read := entry => Read(std, entry);
    Keyring.CollectIsExact(read, Entries(raw), 0);
    var i :| 0 <= i < |Entries(raw)| && read(Entries(raw)[i]).Err?
           && (forall k :: 0 <= k < i ==> read(Entries(raw)[k]).Ok?)
           && Keyring.Collect(read, Entries(raw), 0).error == Keyring.AtIndex(read(Entries(raw)[i]).error, 0 + i);
    assert forall k :: 0 <= k < i ==> read(Entries(raw)[k]) == Read(std, Entries(raw)[k]);
  }

  // The three fields of a registration.
  predicate Spells(std: Std, entry: string, tenant: string, hook: Registration) {
    && ThreeParts(entry, hook.provider, tenant, hook.secret)
    && hook.provider != "" && hook.secret != "" && std.uuid(tenant) == Some(hook.tenant)
  }

  ghost predicate IsHook(std: Std, entry: string, hook: Registration) {
    exists tenant :: Spells(std, entry, tenant, hook)
  }

  lemma EntryMeans(std: Std, entry: string, hook: Registration)
    ensures Read(std, entry) == Ok(hook) <==> IsHook(std, entry, hook)
  {
    hide SplitOnce;
    SplitIs(entry, ':');
    if Read(std, entry) == Ok(hook) {
      SplitIs(SplitOnce(entry, ':').value.1, ':');
      assert Spells(std, entry, SplitOnce(SplitOnce(entry, ':').value.1, ':').value.0, hook);
    }
    if IsHook(std, entry, hook) {
      var tenant :| Spells(std, entry, tenant, hook);
      SplitBack(hook.provider, ':', tenant + [':'] + hook.secret);
      SplitBack(tenant, ':', hook.secret);
    }
  }

  // What a line holds: one registration for each non-blank entry, in order.
  ghost predicate Holds(std: Std, line: string, hooks: seq<Registration>) {
    && |hooks| == |Entries(line)|
    && forall i :: 0 <= i < |hooks| ==> IsHook(std, Entries(line)[i], hooks[i])
  }

  lemma ReadAllMeans(std: Std, line: string, hooks: seq<Registration>)
    ensures ReadAll(std, line) == Ok(hooks) <==> Holds(std, line, hooks)
  {
    hide Read, IsHook, Entries, Keyring.Collect;
    var entries, read := Entries(line), entry => Read(std, entry);
    Keyring.CollectedMeans(read, entries, hooks);
    forall i | 0 <= i < |entries| && |hooks| == |entries|
      ensures read(entries[i]) == Ok(hooks[i]) <==> IsHook(std, entries[i], hooks[i])
    {
      EntryMeans(std, entries[i], hooks[i]);
    }
  }

  // A line is accepted exactly when every entry is a registration and no two
  // name one provider; the refusal is the first repeat's only once all are read.
  lemma LineMeans(std: Std, line: string, hooks: seq<Registration>)
    ensures Parse(std, line) == Ok(hooks) <==> Holds(std, line, hooks) && Distinct(hooks)
    ensures forall p :: Holds(std, line, hooks) ==>
      (Parse(std, line) == Err(Twice(p)) <==> exists at: nat :: FirstRepeat(hooks, at) && hooks[at].provider == p)
  {
    ReadAllMeans(std, line, hooks);
    hide ReadAll, Holds, Distinct;
    if Holds(std, line, hooks) {
      assert hooks[..|hooks|] == hooks;
      var found := Repeated(hooks, |hooks|);
      forall at: nat | FirstRepeat(hooks, at)
        ensures Parse(std, line) == Err(Twice(hooks[at].provider))
      {
        RepeatIsNotDistinctHere(hooks, at);
        RepeatIsUnique(hooks, at, found.value);
      }
    }
  }

  // A line is refused for a provider named twice only when each of its entries
  // is a registration.
  lemma ReadBeforeRepeats(std: Std, line: string)
    ensures (Parse(std, line).Err? && Parse(std, line).error.Entry?) <==> !exists hooks :: Holds(std, line, hooks)
  {
    hide ReadAll, Holds, Distinct;
    if ReadAll(std, line).Ok? {
      ReadAllMeans(std, line, ReadAll(std, line).value);
    } else {
      forall hooks
        ensures !Holds(std, line, hooks)
      {
        ReadAllMeans(std, line, hooks);
      }
      OnlyEntries(std, line);
    }
  }

  lemma OnlyEntries(std: Std, line: string)
    ensures ReadAll(std, line).Err? ==> ReadAll(std, line).error.Entry?
  {
    hide Read, Entries;
  }

  lemma RepeatIsNotDistinctHere(hooks: seq<Registration>, at: nat)
    requires FirstRepeat(hooks, at)
    ensures Repeated(hooks, |hooks|).Some?
  {
    RepeatIsNotDistinct(hooks, at, |hooks|);
  }

  predicate WellFormed(std: Std, w: Keyring.Written) {
    && w.name != "" && !IsSpace(w.name[0]) && ':' !in w.name && ',' !in w.name
    && ':' !in w.tenant && ',' !in w.tenant && std.uuid(w.tenant).Some?
    && w.secret != "" && !IsSpace(w.secret[|w.secret| - 1]) && ',' !in w.secret
  }

  function HookOf(std: Std, w: Keyring.Written): Registration
    requires WellFormed(std, w)
  {
    Registration(w.name, std.uuid(w.tenant).value, w.secret)
  }

  lemma ReadsBack(std: Std, w: Keyring.Written)
    requires WellFormed(std, w)
    ensures Trimmed(Keyring.Print(w)) && ',' !in Keyring.Print(w)
    ensures Read(std, Keyring.Print(w)) == Ok(HookOf(std, w))
  {
    FirstIndex(w.name, ':', w.tenant + [':'] + w.secret);
    FirstIndex(w.tenant, ':', w.secret);
  }

  // A printed list of well-formed registrations is read back whole when no
  // provider is named twice, and is refused on the repeated provider otherwise.
  lemma WebhooksRoundTrip(std: Std, ws: seq<Keyring.Written>)
    requires forall w :: w in ws ==> WellFormed(std, w)
    ensures var hooks := seq(|ws|, i requires 0 <= i < |ws| => HookOf(std, ws[i]));
      var parsed := Parse(std, Join(Keyring.PrintAll(ws), ','));
      if Distinct(hooks) then parsed == Ok(hooks)
      else parsed.Err? && exists at: nat :: FirstRepeat(hooks, at) && parsed.error == Twice(hooks[at].provider)
  {
    var printed := Keyring.PrintAll(ws);
    var hooks := seq(|ws|, i requires 0 <= i < |ws| => HookOf(std, ws[i]));
    var read := entry => Read(std, entry);
    forall i | 0 <= i < |ws|
      ensures Trimmed(printed[i]) && ',' !in printed[i] && read(printed[i]) == Ok(hooks[i])
    {
      ReadsBack(std, ws[i]);
    }
    EntriesOfJoin(printed);
    Keyring.CollectIsExact(read, printed, 0);
    assert Keyring.Collect(read, printed, 0).value == hooks;
    assert hooks[..|hooks|] == hooks;
  }

  // ------------------------------------------------------------------
  // The endpoint map
  // ------------------------------------------------------------------

  datatype Endpoint = Endpoint(tenant: nat, provider: string, secret: string)

  // `.collect()` into the map: a later entry on a path would replace an earlier.
  function Endpoints(hooks: seq<Registration>): map<string, Endpoint> {
    if hooks == [] then map[]
    else
      var last := hooks[|hooks| - 1];
      Endpoints(hooks[..|hooks| - 1])[last.provider := Endpoint(last.tenant, last.provider, last.secret)]
  }

  lemma {:induction false} EndpointKeys(hooks: seq<Registration>)
    ensures forall p :: p in Endpoints(hooks) <==> exists i :: 0 <= i < |hooks| && hooks[i].provider == p
  {
    if hooks != [] {
      EndpointKeys(hooks[..|hooks| - 1]);
    }
  }

  lemma DistinctPrefix(hooks: seq<Registration>)
    requires hooks != []
    ensures var before, last := hooks[..|hooks| - 1], hooks[|hooks| - 1].provider;
      Distinct(hooks) <==> Distinct(before) && last !in Endpoints(before)
  {
    var before, last := hooks[..|hooks| - 1], hooks[|hooks| - 1].provider;
    EndpointKeys(before);
    if last in Endpoints(before) {
      var i :| 0 <= i < |before| && before[i].provider == last;
      assert hooks[i].provider == hooks[|hooks| - 1].provider;
    } else {
      assert forall i :: 0 <= i < |before| ==> hooks[i] == before[i] && before[i].provider in Endpoints(before);
    }
  }

  lemma {:induction false} EndpointCount(hooks: seq<Registration>)
    ensures |Endpoints(hooks)| <= |hooks|
    ensures |Endpoints(hooks)| == |hooks| <==> Distinct(hooks)
  {
    if hooks != [] {
      var before, last := hooks[..|hooks| - 1], hooks[|hooks| - 1].provider;
      EndpointCount(before);
      DistinctPrefix(hooks);
      hide Distinct;
      var m := Endpoints(before);
      assert Endpoints(hooks).Keys == m.Keys + {last};
      assert last in m ==> m.Keys + {last} == m.Keys;
      assert |Endpoints(hooks)| == |Endpoints(hooks).Keys| && |m| == |m.Keys|;
    }
  }

  lemma {:induction false} EndpointContents(hooks: seq<Registration>, i: nat)
    requires i < |hooks| && Distinct(hooks)
    ensures hooks[i].provider in Endpoints(hooks)
    ensures Endpoints(hooks)[hooks[i].provider] == Endpoint(hooks[i].tenant, hooks[i].provider, hooks[i].secret)
  {
    if i < |hooks| - 1 {
      DistinctPrefix(hooks);
      EndpointContents(hooks[..|hooks| - 1], i);
    }
  }

  // What a boot accepts, the endpoint map holds whole: one endpoint per
  // non-blank entry, each with its own tenant and secret.
  lemma AcceptedMeansAllServed(std: Std, raw: string)
    requires Parse(std, raw).Ok?
    ensures var hooks := Parse(std, raw).value;
      && |hooks| == |Entries(raw)| == |Endpoints(hooks)|
      && forall i :: 0 <= i < |hooks| ==>
           && Read(std, Entries(raw)[i]) == Ok(hooks[i])
           && hooks[i].provider in Endpoints(hooks)
           && Endpoints(hooks)[hooks[i].provider] == Endpoint(hooks[i].tenant, hooks[i].provider, hooks[i].secret)
  {
    var hooks := Parse(std, raw).value;
    var read := entry => Read(std, entry);
    Keyring.CollectIsExact(read, Entries(raw), 0);
    assert hooks[..|hooks|] == hooks;
    EndpointCount(hooks);
    forall i | 0 <= i < |hooks|
      ensures Read(std, Entries(raw)[i]) == Ok(hooks[i])
      ensures hooks[i].provider in Endpoints(hooks)
      ensures Endpoints(hooks)[hooks[i].provider] == Endpoint(hooks[i].tenant, hooks[i].provider, hooks[i].secret)
    {
      assert read(Entries(raw)[i]) == Ok(hooks[i]);
      EndpointContents(hooks, i);
    }
  }
}
