/** `AGENTOS_API_KEYS` and `AGENTOS_PLATFORM_KEYS`: how the two keyrings are
    read, and how a presented secret is looked up in them. */
module Keyring {
  import opened Common
  import opened Text

  const MIN_SECRET_LEN := 32

  // What the parsers take from the standard library: the bytes of a string and
  // the reading of a uuid.
  datatype Std = Std(bytes: string -> seq<bv8>, uuid: string -> Option<nat>)

  datatype ApiKey = ApiKey(name: string, tenant: nat, secret: string)

  datatype KeyError = Shape(index: nat) | TenantId(index: nat) | WeakSecret(index: nat)

  datatype Fault = BadShape | BadTenant | Weak

  function AtIndex(fault: Fault, index: nat): KeyError {
    match fault
    case BadShape => Shape(index)
    case BadTenant => TenantId(index)
    case Weak => WeakSecret(index)
  }

  // One `name:tenant-uuid:secret` entry; the secret may hold colons.
  function ReadApiKey(std: Std, entry: string): Result<ApiKey, Fault> {
    match SplitOnce(entry, ':')
    case None => Err(BadShape)
    case Some((name, rest)) =>
      match SplitOnce(rest, ':')
      case None => Err(BadShape)
      case Some((tenant, secret)) =>
        if name == "" then Err(BadShape)
        else if |std.bytes(secret)| < MIN_SECRET_LEN then Err(Weak)
        else match std.uuid(tenant)
          case None => Err(BadTenant)
          case Some(id) => Ok(ApiKey(name, id, secret))
  }

  // One `name:secret` entry; no tenant, and the secret may hold colons.
  datatype PlatformKey = PlatformKey(name: string, secret: string)

  function ReadPlatformKey(std: Std, entry: string): Result<PlatformKey, Fault> {
    match SplitOnce(entry, ':')
    case None => Err(BadShape)
    case Some((name, secret)) =>
      if name == "" then Err(BadShape)
      else if |std.bytes(secret)| < MIN_SECRET_LEN then Err(Weak)
      else Ok(PlatformKey(name, secret))
  }

  // `enumerate().map(read).collect()`: stops at the first entry refused.
  function Collect<T>(read: string -> Result<T, Fault>, entries: seq<string>, index: nat): Result<seq<T>, KeyError> {
    if entries == [] then Ok([])
    else match read(entries[0])
      case Err(fault) => Err(AtIndex(fault, index))
      case Ok(first) =>
        match Collect(read, entries[1..], index + 1)
        case Err(e) => Err(e)
        case Ok(rest) => Ok([first] + rest)
  }

  function ParseApiKeys(std: Std, raw: string): Result<seq<ApiKey>, KeyError> {
    Collect(entry => ReadApiKey(std, entry), Entries(raw), 0)
  }

  function ParsePlatformKeys(std: Std, raw: string): Result<seq<PlatformKey>, KeyError> {
    Collect(entry => ReadPlatformKey(std, entry), Entries(raw), 0)
  }

  // ------------------------------------------------------------------
  // Which entry an error names
  // ------------------------------------------------------------------

  // A list is read whole, one key per non-blank entry in order, exactly when
  // every entry is good; otherwise the error names the first bad one, counted
  // among the non-blank entries.
  lemma {:induction false} CollectIsExact<T>(read: string -> Result<T, Fault>, entries: seq<string>, index: nat)
    ensures Collect(read, entries, index).Ok? <==> forall i :: 0 <= i < |entries| ==> read(entries[i]).Ok?
    ensures Collect(read, entries, index).Ok? ==>
      var keys := Collect(read, entries, index).value;
      |keys| == |entries| && forall i :: 0 <= i < |entries| ==> read(entries[i]) == Ok(keys[i])
    ensures Collect(read, entries, index).Err? ==>
      exists i :: 0 <= i < |entries| && read(entries[i]).Err?
        && (forall k :: 0 <= k < i ==> read(entries[k]).Ok?)
        && Collect(read, entries, index).error == AtIndex(read(entries[i]).error, index + i)
  {
    if entries != [] {
      var rest := entries[1..];
      CollectIsExact(read, rest, index + 1);
      assert forall i :: 0 <= i < |rest| ==> rest[i] == entries[i + 1];
      if read(entries[0]).Err? {
        assert read(entries[0]).Err?;
      } else if Collect(read, rest, index + 1).Err? {
        var i :| 0 <= i < |rest| && read(rest[i]).Err?
               && (forall k :: 0 <= k < i ==> read(rest[k]).Ok?)
               && Collect(read, rest, index + 1).error == AtIndex(read(rest[i]).error, index + 1 + i);
        assert read(entries[i + 1]).Err?;
        forall k | 0 <= k < i + 1
          ensures read(entries[k]).Ok?
        {
          if k > 0 {
            assert read(rest[k - 1]).Ok?;
          }
        }
      } else {
        forall i | 0 <= i < |entries|
          ensures read(entries[i]).Ok?
        {
          if i > 0 {
            assert read(rest[i - 1]).Ok?;
          }
        }
      }
    }
  }

  // ------------------------------------------------------------------
  // What an entry is read as
  // ------------------------------------------------------------------

  // The three fields of a tenant's entry.
  predicate SpellsApiKey(std: Std, entry: string, tenant: string, k: ApiKey) {
    && entry == k.name + [':'] + (tenant + [':'] + k.secret)
    && k.name != "" && ':' !in k.name && ':' !in tenant
    && std.uuid(tenant) == Some(k.tenant) && |std.bytes(k.secret)| >= 32
  }

  ghost predicate IsApiKey(std: Std, entry: string, k: ApiKey) {
    exists tenant :: SpellsApiKey(std, entry, tenant, k)
  }

  // An entry is a key exactly when it spells one: a label, a tenant and a secret
  // of thirty-two bytes or more.
  lemma ApiEntryMeans(std: Std, entry: string, k: ApiKey)
    ensures ReadApiKey(std, entry) == Ok(k) <==> IsApiKey(std, entry, k)
  {
    hide SplitOnce;
    SplitIs(entry, ':');
    if ReadApiKey(std, entry) == Ok(k) {
      SplitIs(SplitOnce(entry, ':').value.1, ':');
      assert SpellsApiKey(std, entry, SplitOnce(SplitOnce(entry, ':').value.1, ':').value.0, k);
    }
    if IsApiKey(std, entry, k) {
      var tenant :| SpellsApiKey(std, entry, tenant, k);
      SplitBack(k.name, ':', tenant + [':'] + k.secret);
      SplitBack(tenant, ':', k.secret);
    }
  }

  predicate SpellsPlatformKey(std: Std, entry: string, k: PlatformKey) {
    entry == k.name + [':'] + k.secret && k.name != "" && ':' !in k.name && |std.bytes(k.secret)| >= 32
  }

  lemma PlatformEntryMeans(std: Std, entry: string, k: PlatformKey)
    ensures ReadPlatformKey(std, entry) == Ok(k) <==> SpellsPlatformKey(std, entry, k)
  {
    hide SplitOnce;
    SplitIs(entry, ':');
    if SpellsPlatformKey(std, entry, k) {
      SplitBack(k.name, ':', k.secret);
    }
  }

  // What a line holds: one key for each non-blank entry, in order, as spelled.
  ghost predicate HoldsApiKeys(std: Std, line: string, keys: seq<ApiKey>) {
    && |keys| == |Entries(line)|
    && forall i :: 0 <= i < |keys| ==> IsApiKey(std, Entries(line)[i], keys[i])
  }

  ghost predicate HoldsPlatformKeys(std: Std, line: string, keys: seq<PlatformKey>) {
    && |keys| == |Entries(line)|
    && forall i :: 0 <= i < |keys| ==> SpellsPlatformKey(std, Entries(line)[i], keys[i])
  }

  // A list is read as these keys exactly when each entry is read as its own.
  lemma CollectedMeans<T>(read: string -> Result<T, Fault>, entries: seq<string>, keys: seq<T>)
    ensures Collect(read, entries, 0) == Ok(keys) <==>
      (|keys| == |entries| && forall i :: 0 <= i < |keys| ==> read(entries[i]) == Ok(keys[i]))
  {
    CollectIsExact(read, entries, 0);
    hide Collect;
    if |keys| == |entries| && forall i :: 0 <= i < |keys| ==> read(entries[i]) == Ok(keys[i]) {
      assert forall i :: 0 <= i < |entries| ==> read(entries[i]).Ok?;
      assert Collect(read, entries, 0).value == keys;
    }
  }

  lemma ApiLineMeans(std: Std, line: string, keys: seq<ApiKey>)
    ensures ParseApiKeys(std, line) == Ok(keys) <==> HoldsApiKeys(std, line, keys)
  {
    hide ReadApiKey, IsApiKey, Entries, Collect;
    var entries, read := Entries(line), entry => ReadApiKey(std, entry);
    CollectedMeans(read, entries, keys);
    forall i | 0 <= i < |entries| && |keys| == |entries|
      ensures read(entries[i]) == Ok(keys[i]) <==> IsApiKey(std, entries[i], keys[i])
    {
      ApiEntryMeans(std, entries[i], keys[i]);
    }
  }

  lemma PlatformLineMeans(std: Std, line: string, keys: seq<PlatformKey>)
    ensures ParsePlatformKeys(std, line) == Ok(keys) <==> HoldsPlatformKeys(std, line, keys)
  {
    hide ReadPlatformKey, SpellsPlatformKey, Entries, Collect;
    var entries, read := Entries(line), entry => ReadPlatformKey(std, entry);
    CollectedMeans(read, entries, keys);
    forall i | 0 <= i < |entries| && |keys| == |entries|
      ensures read(entries[i]) == Ok(keys[i]) <==> SpellsPlatformKey(std, entries[i], keys[i])
    {
      PlatformEntryMeans(std, entries[i], keys[i]);
    }
  }

  // Why an entry is refused, the secret being weighed before the tenant is read.
  lemma ApiEntryFaults(std: Std, entry: string)
    ensures ReadApiKey(std, entry) == Err(BadShape) <==>
      !exists name, tenant, secret :: name != "" && ThreeParts(entry, name, tenant, secret)
    ensures forall name, tenant, secret :: name != "" && ThreeParts(entry, name, tenant, secret) ==>
      && (ReadApiKey(std, entry) == Err(Weak) <==> |std.bytes(secret)| < 32)
      && (ReadApiKey(std, entry) == Err(BadTenant) <==> |std.bytes(secret)| >= 32 && std.uuid(tenant).None?)
  {
    hide SplitOnce;
    SplitIs(entry, ':');
    forall name, tenant, secret | ThreeParts(entry, name, tenant, secret)
      ensures SplitOnce(entry, ':') == Some((name, tenant + [':'] + secret))
      ensures SplitOnce(tenant + [':'] + secret, ':') == Some((tenant, secret))
    {
      SplitBack(name, ':', tenant + [':'] + secret);
      SplitBack(tenant, ':', secret);
    }
    if SplitOnce(entry, ':').Some? {
      var (name, rest) := SplitOnce(entry, ':').value;
      SplitIs(rest, ':');
      if SplitOnce(rest, ':').Some? {
        var (tenant, secret) := SplitOnce(rest, ':').value;
        assert ThreeParts(entry, name, tenant, secret);
      }
    }
  }

  // ------------------------------------------------------------------
  // Printing and reading back
  // ------------------------------------------------------------------

  // An entry as an operator writes it; the tenant is kept as its text.
  datatype Written = Written(name: string, tenant: string, secret: string)

  predicate WellFormed(std: Std, w: Written) {
    && w.name != "" && !IsSpace(w.name[0]) && ':' !in w.name && ',' !in w.name
    && ':' !in w.tenant && ',' !in w.tenant && std.uuid(w.tenant).Some?
    && w.secret != "" && !IsSpace(w.secret[|w.secret| - 1]) && ',' !in w.secret
    && |std.bytes(w.secret)| >= MIN_SECRET_LEN
  }

  function Print(w: Written): string {
    w.name + [':'] + (w.tenant + [':'] + w.secret)
  }

  function PrintAll(ws: seq<Written>): seq<string> {
    seq(|ws|, i requires 0 <= i < |ws| => Print(ws[i]))
  }

  function KeyOf(std: Std, w: Written): ApiKey
    requires WellFormed(std, w)
  {
    ApiKey(w.name, std.uuid(w.tenant).value, w.secret)
  }

  lemma ReadsBack(std: Std, w: Written)
    requires WellFormed(std, w)
    ensures Trimmed(Print(w)) && ',' !in Print(w)
    ensures ReadApiKey(std, Print(w)) == Ok(KeyOf(std, w))
  {
    FirstIndex(w.name, ':', w.tenant + [':'] + w.secret);
    FirstIndex(w.tenant, ':', w.secret);
  }

  lemma PrintedIsClean(std: Std, ws: seq<Written>)
    requires forall w :: w in ws ==> WellFormed(std, w)
    ensures forall p :: p in PrintAll(ws) ==> Trimmed(p) && ',' !in p
  {
    forall p | p in PrintAll(ws)
      ensures Trimmed(p) && ',' !in p
    {
      var i :| 0 <= i < |ws| && p == Print(ws[i]);
      ReadsBack(std, ws[i]);
    }
  }

  // Writing any list of well-formed entries and parsing the line gives back
  // exactly those keys, in order, secrets whole even with colons in them.
  lemma ApiKeysRoundTrip(std: Std, ws: seq<Written>)
    requires forall w :: w in ws ==> WellFormed(std, w)
    ensures var parsed := ParseApiKeys(std, Join(PrintAll(ws), ','));
      && parsed.Ok? && |parsed.value| == |ws|
      && forall i :: 0 <= i < |ws| ==> parsed.value[i] == KeyOf(std, ws[i])
  {
    PrintedIsClean(std, ws);
    EntriesOfJoin(PrintAll(ws));
    var read := entry => ReadApiKey(std, entry);
    forall i | 0 <= i < |ws|
      ensures read(PrintAll(ws)[i]) == Ok(KeyOf(std, ws[i]))
    {
      ReadsBack(std, ws[i]);
    }
    CollectIsExact(read, PrintAll(ws), 0);
  }

  // The platform keyring: a label and a secret, and no tenant.
  predicate WellFormedPlatform(std: Std, k: PlatformKey) {
    && k.name != "" && !IsSpace(k.name[0]) && ':' !in k.name && ',' !in k.name
    && k.secret != "" && !IsSpace(k.secret[|k.secret| - 1]) && ',' !in k.secret
    && |std.bytes(k.secret)| >= MIN_SECRET_LEN
  }

  function PrintPlatform(k: PlatformKey): string {
    k.name + [':'] + k.secret
  }

  lemma PlatformReadsBack(std: Std, k: PlatformKey)
    requires WellFormedPlatform(std, k)
    ensures Trimmed(PrintPlatform(k)) && ',' !in PrintPlatform(k)
    ensures ReadPlatformKey(std, PrintPlatform(k)) == Ok(k)
  {
    FirstIndex(k.name, ':', k.secret);
  }

  lemma PlatformKeysRoundTrip(std: Std, ks: seq<PlatformKey>)
    requires forall k :: k in ks ==> WellFormedPlatform(std, k)
    ensures ParsePlatformKeys(std, Join(seq(|ks|, i requires 0 <= i < |ks| => PrintPlatform(ks[i])), ',')) == Ok(ks)
  {
    hide ReadPlatformKey, Trimmed, PrintPlatform, WellFormedPlatform, Entries, Join, Collect;
    var printed := seq(|ks|, i requires 0 <= i < |ks| => PrintPlatform(ks[i]));
    var read := entry => ReadPlatformKey(std, entry);
    forall i | 0 <= i < |ks|
      ensures Trimmed(printed[i]) && ',' !in printed[i] && read(printed[i]) == Ok(ks[i])
    {
      PlatformReadsBack(std, ks[i]);
    }
    assert forall p :: p in printed ==> Trimmed(p) && ',' !in p;
    EntriesOfJoin(printed);
    CollectIsExact(read, printed, 0);
    assert Collect(read, printed, 0).value == ks;
  }

  // A tenant's entry pasted into the platform line is not refused for having a
  // field too many; but the platform key it makes is another string than the
  // tenant's secret.
  lemma PastedTenantEntry(std: Std, w: Written)
    requires WellFormed(std, w) && |std.bytes(w.tenant + [':'] + w.secret)| >= MIN_SECRET_LEN
    ensures ReadPlatformKey(std, Print(w)) == Ok(PlatformKey(w.name, w.tenant + [':'] + w.secret))
    ensures w.tenant + [':'] + w.secret != w.secret
  {
    FirstIndex(w.name, ':', w.tenant + [':'] + w.secret);
    assert |w.tenant + [':'] + w.secret| > |w.secret|;
  }

  // ------------------------------------------------------------------
  // Looking a secret up
  // ------------------------------------------------------------------

  // `fold(0, |acc, (x, y)| acc | (x ^ y))` over the two byte strings.
  function Differences(a: seq<bv8>, b: seq<bv8>): bv8
    requires |a| == |b|
  {
    if a == [] then 0
    else Differences(a[..|a| - 1], b[..|b| - 1]) | (a[|a| - 1] ^ b[|b| - 1])
  }

  predicate CtEq(a: seq<bv8>, b: seq<bv8>) {
    |a| == |b| && Differences(a, b) == 0
  }

  lemma NothingAccumulates(acc: bv8, x: bv8, y: bv8)
    ensures (acc | (x ^ y)) == 0 <==> acc == 0 && x == y
  {
  }

  lemma {:induction false} CtEqIsEquality(a: seq<bv8>, b: seq<bv8>)
    ensures CtEq(a, b) <==> a == b
  {
    if |a| == |b| && a != [] {
      var a0, b0 := a[..|a| - 1], b[..|b| - 1];
      CtEqIsEquality(a0, b0);
      NothingAccumulates(Differences(a0, b0), a[|a| - 1], b[|b| - 1]);
      assert a == a0 + [a[|a| - 1]] && b == b0 + [b[|b| - 1]];
    }
  }

  function Lookup(std: Std, keys: seq<ApiKey>, presented: string): Option<ApiKey> {
    if keys == [] then None
    else if CtEq(std.bytes(keys[0].secret), std.bytes(presented)) then Some(keys[0])
    else Lookup(std, keys[1..], presented)
  }

  // Distinct strings have distinct bytes.
  ghost predicate Injective(std: Std) {
    forall a, b :: std.bytes(a) == std.bytes(b) ==> a == b
  }

  // A lookup answers the first key whose secret is the presented string, and
  // nobody exactly when no key has it.
  lemma {:induction false} LookupIsFirstMatch(std: Std, keys: seq<ApiKey>, presented: string)
    requires Injective(std)
    ensures Lookup(std, keys, presented).None? <==> forall i :: 0 <= i < |keys| ==> keys[i].secret != presented
    ensures Lookup(std, keys, presented).Some? ==>
      exists i :: 0 <= i < |keys| && keys[i].secret == presented && Lookup(std, keys, presented).value == keys[i]
        && forall k :: 0 <= k < i ==> keys[k].secret != presented
  {
    if keys != [] {
      CtEqIsEquality(std.bytes(keys[0].secret), std.bytes(presented));
      if keys[0].secret != presented {
        var rest := keys[1..];
        LookupIsFirstMatch(std, rest, presented);
        assert forall i :: 0 < i < |keys| ==> keys[i] == rest[i - 1];
        if Lookup(std, rest, presented).Some? {
          var i :| 0 <= i < |rest| && rest[i].secret == presented && Lookup(std, rest, presented).value == rest[i]
                 && forall k :: 0 <= k < i ==> rest[k].secret != presented;
          assert keys[i + 1] == rest[i];
        }
      } else {
        assert keys[0].secret == presented;
      }
    }
  }

  datatype Found = Found(tenant: nat, name: string)

  // `Keyring::resolve`: the environment first, then the table of issued keys,
  // which may not answer.
  function Resolve<E>(std: Std, keys: seq<ApiKey>, presented: string, table: Result<Option<Found>, E>): Result<Option<Found>, E> {
    match Lookup(std, keys, presented)
    case Some(key) => Ok(Some(Found(key.tenant, key.name)))
    case None => table
  }

  // The first of the keys that has this secret.
  predicate IsFirst(keys: seq<ApiKey>, i: nat, presented: string) {
    i < |keys| && keys[i].secret == presented && forall k :: 0 <= k < i ==> keys[k].secret != presented
  }

  // Whoever's secret an environment key has is that key's tenant, by its label,
  // the first such key deciding; anybody else is whoever the table says. So a
  // database that is down is reported as such, and only to a caller whose secret
  // no environment key has.
  lemma OutageIsNotUnauthorized<E>(std: Std, keys: seq<ApiKey>, presented: string, table: Result<Option<Found>, E>)
    requires Injective(std)
    ensures var held := exists i :: 0 <= i < |keys| && keys[i].secret == presented;
      var answer := Resolve(std, keys, presented, table);
      && (!held ==> answer == table)
      && (held ==> exists i :: 0 <= i < |keys| && IsFirst(keys, i, presented) && answer == Ok(Some(Found(keys[i].tenant, keys[i].name))))
  {
    LookupIsFirstMatch(std, keys, presented);
    hide Lookup;
    if Lookup(std, keys, presented).Some? {
      var i :| 0 <= i < |keys| && keys[i].secret == presented && Lookup(std, keys, presented).value == keys[i]
             && forall k :: 0 <= k < i ==> keys[k].secret != presented;
      assert IsFirst(keys, i, presented);
    }
  }
}
