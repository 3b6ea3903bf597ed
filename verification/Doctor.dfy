/** `agentos-server doctor`: the loop that asks the parser what is missing,
    fills it in and asks again, and the report it draws from what it finds. */
module Doctor {
  import opened Common
  import opened Text
  import opened Config
  import Webhooks

  const STUB := "set-by-agentos-doctor"
  const ALLOWED := "1"

  // ------------------------------------------------------------------
  // What an environment lacks
  // ------------------------------------------------------------------

  function UnsetOf(env: Env, names: seq<Var>): seq<Var> {
    if names == [] then []
    else (if Get(env, names[0]).None? then [names[0]] else []) + UnsetOf(env, names[1..])
  }

  // The required variables that are unset, in the order they are read, and the
  // model's key when the model needs it.
  function Expected(checks: Checks, env: Env): seq<Var> {
    UnsetOf(env, REQUIRED) + if NeedsKey(checks, env) then [AnthropicKey] else []
  }

  // What is read up to the guard is good, and the guard would refuse it.
  predicate Refused(checks: Checks, env: Env) {
    && !Allows(env)
    && ReadAdapters(checks, env).Ok?
    && var llm := Backends(checks, Get(env, LlmVar));
    llm.Some? && MockAdapters(ReadAdapters(checks, env).value.1, llm.value) != []
  }

  // The stubs standing in for some variables, the allow flag among them or not.
  function Stubbed(names: seq<Var>, flag: bool): Env {
    var stubs: Env := map name | name in names :: STUB;
    if flag then stubs[AllowMocks := ALLOWED] else stubs
  }

  lemma StubsCount()
    ensures Trim(STUB) == STUB && STUB != "" && Trim(ALLOWED) == ALLOWED && ALLOWED != ""
  {
    assert !IsSpace(STUB[0]) && !IsSpace(STUB[|STUB| - 1]);
    assert !IsSpace(ALLOWED[0]);
  }

  lemma {:induction false} UnsetAreUnset(env: Env, names: seq<Var>)
    ensures forall v :: v in UnsetOf(env, names) <==> v in names && Get(env, v).None?
  {
    hide Get;
    if names != [] {
      UnsetAreUnset(env, names[1..]);
      assert names == [names[0]] + names[1..];
    }
  }

  lemma StubbedReads(env: Env, names: seq<Var>, flag: bool, v: Var)
    ensures var seen := env + Stubbed(names, flag);
      && (v == AllowMocks && flag ==> Get(seen, v) == Some(ALLOWED))
      && (v in names && v != AllowMocks ==> Get(seen, v).Some?)
      && (v !in names && (v == AllowMocks ==> !flag) ==> Get(seen, v) == Get(env, v))
  {
    StubsCount();
    hide Trim;
  }

  lemma {:induction false} UnsetAreDistinct(env: Env, names: seq<Var>)
    requires forall i, j :: 0 <= i < j < |names| ==> names[i] != names[j]
    ensures forall i, j :: 0 <= i < j < |UnsetOf(env, names)| ==> UnsetOf(env, names)[i] != UnsetOf(env, names)[j]
  {
    hide Get;
    if names != [] {
      UnsetAreDistinct(env, names[1..]);
      UnsetAreUnset(env, names[1..]);
    }
  }

  // With the first n of the unset variables filled in, the parser stops at the next.
  lemma {:induction false} NextUnset(env: Env, seen: Env, filled: set<Var>, names: seq<Var>, n: nat)
    requires forall v :: v in names ==> if v in filled then Get(seen, v).Some? else Get(seen, v) == Get(env, v)
    requires forall i :: 0 <= i < |UnsetOf(env, names)| ==> (UnsetOf(env, names)[i] in filled <==> i < n)
    ensures FirstUnset(seen, names) == if n < |UnsetOf(env, names)| then Some(UnsetOf(env, names)[n]) else None
  {
    hide Get;
    if names != [] {
      var first, rest := names[0], names[1..];
      if Get(env, first).Some? {
        assert UnsetOf(env, names) == UnsetOf(env, rest);
        NextUnset(env, seen, filled, rest, n);
      } else {
        assert UnsetOf(env, names) == [first] + UnsetOf(env, rest);
        assert UnsetOf(env, names)[0] == first;
        if n > 0 {
          assert forall i :: 0 <= i < |UnsetOf(env, rest)| ==> UnsetOf(env, rest)[i] == UnsetOf(env, names)[i + 1];
          NextUnset(env, seen, filled, rest, n - 1);
        }
      }
    }
  }

  // ------------------------------------------------------------------
  // Where the parser stops once n of them are filled in
  // ------------------------------------------------------------------

  function Seen(checks: Checks, env: Env, n: nat, flag: bool): Env
    requires n <= |Expected(checks, env)|
  {
    env + Stubbed(Expected(checks, env)[..n], flag)
  }

  lemma ExpectedAreFillable(checks: Checks, env: Env)
    ensures forall v :: v in Expected(checks, env) ==> v in REQUIRED || (v == AnthropicKey && NeedsKey(checks, env))
    ensures AnthropicKey !in UnsetOf(env, REQUIRED) && AllowMocks !in Expected(checks, env)
    ensures forall v :: v in UnsetOf(env, REQUIRED) ==> v in REQUIRED && v in Expected(checks, env)
  {
    hide Get, NeedsKey;
    UnsetAreUnset(env, REQUIRED);
  }

  lemma SeenReads(checks: Checks, env: Env, n: nat, flag: bool, v: Var)
    requires n <= |Expected(checks, env)|
    ensures var seen := Seen(checks, env, n, flag);
      && (v == AllowMocks && flag ==> Get(seen, v) == Some(ALLOWED))
      && (v in Expected(checks, env)[..n] ==> Get(seen, v).Some?)
      && (v !in Expected(checks, env)[..n] && (v == AllowMocks ==> !flag) ==> Get(seen, v) == Get(env, v))
  {
    ExpectedAreFillable(checks, env);
    hide Get, Expected;
    StubbedReads(env, Expected(checks, env)[..n], flag, v);
    assert v in Expected(checks, env)[..n] ==> v in Expected(checks, env);
  }

  lemma SeenAlike(checks: Checks, env: Env, n: nat, flag: bool)
    requires n <= |Expected(checks, env)|
    ensures AlikeInValues(env, Seen(checks, env, n, flag))
  {
    ExpectedAreFillable(checks, env);
    hide Get, Expected, Seen;
    forall v | !Fillable(v)
      ensures Get(env, v) == Get(Seen(checks, env, n, flag), v)
    {
      SeenReads(checks, env, n, flag, v);
    }
  }

  lemma PrefixMembers(unset: seq<Var>, extra: seq<Var>, n: nat)
    requires n <= |unset + extra|
    requires forall i, j :: 0 <= i < j < |unset| ==> unset[i] != unset[j]
    requires forall v :: v in extra ==> v !in unset
    ensures forall i :: 0 <= i < |unset| ==> (unset[i] in (unset + extra)[..n] <==> i < n)
  {
    forall i | 0 <= i < n && i < |unset|
      ensures unset[i] in (unset + extra)[..n]
    {
      assert (unset + extra)[..n][i] == unset[i];
    }
  }

  lemma FilledInOrder(checks: Checks, env: Env, n: nat)
    requires n <= |Expected(checks, env)|
    ensures var unset, expected := UnsetOf(env, REQUIRED), Expected(checks, env);
      forall i :: 0 <= i < |unset| ==> expected[i] == unset[i] && (unset[i] in expected[..n] <==> i < n)
  {
    hide Get, NeedsKey, UnsetOf;
    UnsetAreDistinct(env, REQUIRED);
    ExpectedAreFillable(checks, env);
    PrefixMembers(UnsetOf(env, REQUIRED), if NeedsKey(checks, env) then [AnthropicKey] else [], n);
  }

  // The required variables: the parser stops at the next unfilled one.
  lemma SeenRequired(checks: Checks, env: Env, n: nat, flag: bool)
    requires n <= |Expected(checks, env)|
    ensures FirstUnset(Seen(checks, env, n, flag), REQUIRED)
         == if n < |UnsetOf(env, REQUIRED)| then Some(Expected(checks, env)[n]) else None
  {
    hide Get, Expected, Seen, FirstUnset, UnsetOf;
    var seen := Seen(checks, env, n, flag);
    var filled := set v | v in Expected(checks, env)[..n];
    FilledInOrder(checks, env, n);
    forall v | v in REQUIRED
      ensures if v in filled then Get(seen, v).Some? else Get(seen, v) == Get(env, v)
    {
      SeenReads(checks, env, n, flag, v);
    }
    NextUnset(env, seen, filled, REQUIRED, n);
  }

  // The model's key is the last thing that can be missing.
  lemma SeenKey(checks: Checks, env: Env, n: nat, flag: bool)
    requires |UnsetOf(env, REQUIRED)| <= n <= |Expected(checks, env)|
    ensures var seen := Seen(checks, env, n, flag);
      && Get(seen, LlmVar) == Get(env, LlmVar)
      && (NeedsKey(checks, seen) <==> n < |Expected(checks, env)|)
      && (n < |Expected(checks, env)| ==> Expected(checks, env)[n] == AnthropicKey)
  {
    var unset, expected := UnsetOf(env, REQUIRED), Expected(checks, env);
    ExpectedAreFillable(checks, env);
    hide Get, Seen, UnsetOf, Backends;
    SeenReads(checks, env, n, flag, LlmVar);
    SeenReads(checks, env, n, flag, AnthropicKey);
    assert forall i :: 0 <= i < |unset| ==> expected[i] == unset[i];
    if n < |expected| {
      assert expected[..n] == unset;
    } else {
      assert expected[..n] == expected;
      assert NeedsKey(checks, env) ==> expected[|unset|] == AnthropicKey;
    }
  }

  // What a configuration that parsed over stubs took from the environment.
  ghost predicate Faithful(checks: Checks, env: Env, c: Config) {
    && ReadAdapters(checks, env) == Ok((c.webhooks, c.credentials))
    && Backends(checks, Get(env, LlmVar)) == Some(c.llm)
    && c.mockAdapters == MockAdapters(c.credentials, c.llm)
  }

  // Where the parser stops over the first n stubs, and over the flag.
  ghost predicate StopsRight(checks: Checks, env: Env, n: nat, flag: bool, parsed: Result<Config, Error>) {
    var expected := Expected(checks, env);
    match parsed
    case Ok(c) => n == |expected| && flag == Refused(checks, env) && c.allowMocks == (flag || Allows(env)) && Faithful(checks, env, c)
    case Err(Missing(name)) => n < |expected| && name == expected[n]
    case Err(MocksNotAllowed(_, _)) => n == |expected| && !flag && Refused(checks, env)
    case Err(_) => |UnsetOf(env, REQUIRED)| <= n
  }

  lemma SeenFlag(checks: Checks, env: Env, n: nat, flag: bool)
    requires n <= |Expected(checks, env)|
    ensures var seen := Seen(checks, env, n, flag);
      && Allows(seen) == (flag || Allows(env))
      && (!flag ==> Get(seen, AllowMocks) == Get(env, AllowMocks))
  {
    ExpectedAreFillable(checks, env);
    SeenReads(checks, env, n, flag, AllowMocks);
    hide Get, Expected, Seen;
    assert AllowMocks !in Expected(checks, env)[..n];
  }

  lemma SeenAdapters(checks: Checks, env: Env, n: nat, flag: bool)
    requires n <= |Expected(checks, env)| && (flag ==> Refused(checks, env))
    ensures ReadAdapters(checks, Seen(checks, env, n, flag)) == ReadAdapters(checks, env)
  {
    hide Get, Expected, Seen, ReadAdapters, Allows;
    SeenAlike(checks, env, n, flag);
    SeenFlag(checks, env, n, flag);
    if flag {
      AdaptersAlike(checks, env, Seen(checks, env, n, flag));
    } else {
      AdaptersSame(checks, env, Seen(checks, env, n, flag));
    }
  }

  lemma StopsAtTheGuard(checks: Checks, env: Env, n: nat, flag: bool, seen: Env, keys: Keys, webhooks: seq<Webhooks.Registration>, c: Credentials)
    requires n == |Expected(checks, env)| && (flag ==> Refused(checks, env)) && Allows(seen) == (flag || Allows(env))
    requires ReadAdapters(checks, env) == Ok((webhooks, c)) && Backends(checks, Get(env, LlmVar)) == Some(keys.llm)
    requires |UnsetOf(env, REQUIRED)| <= n
    ensures StopsRight(checks, env, n, flag, Guarded(checks, seen, keys, webhooks, c))
  {
    hide Get, Expected, ReadAdapters, Allows, AfterGuard, MockAdapters, UnsetOf, Backends, Summarize;
    LateErrors(checks, seen);
  }

  lemma Stops(checks: Checks, env: Env, n: nat, flag: bool)
    requires n <= |Expected(checks, env)|
    requires flag ==> Refused(checks, env) && n == |Expected(checks, env)|
    ensures StopsRight(checks, env, n, flag, Parse(checks, Seen(checks, env, n, flag)))
  {
    var seen := Seen(checks, env, n, flag);
    hide Get, Expected, Seen, ReadAdapters, ReadKeys, Allows, FirstUnset, UnsetOf, NeedsKey, Backends, Guarded, Refused;
    SeenRequired(checks, env, n, flag);
    if |UnsetOf(env, REQUIRED)| <= n {
      SeenKey(checks, env, n, flag);
      KeyErrors(checks, seen);
      if ReadKeys(checks, seen).Ok? {
        SeenAdapters(checks, env, n, flag);
        AdapterErrors(checks, seen);
        if ReadAdapters(checks, seen).Ok? {
          var keys, webhooks, c := ReadKeys(checks, seen).value, ReadAdapters(checks, seen).value.0, ReadAdapters(checks, seen).value.1;
          SeenFlag(checks, env, n, flag);
          ParseGuards(checks, seen, keys, webhooks, c);
          hide Parse, StopsRight;
          StopsAtTheGuard(checks, env, n, flag, seen, keys, webhooks, c);
        }
      }
    }
  }

  // ------------------------------------------------------------------
  // The loop
  // ------------------------------------------------------------------

  datatype Status = OK | MISSING

  datatype Line =
    | NotSet(name: Var)
    | Broken(error: Error)
    | AllSet
    | ApiKeysLine | PlatformKeysLine | WebhooksLine
    | Boot(adapters: seq<Adapter>, summary: seq<(Port, What)>)
    | AdapterLine(provider: Provider, isReal: bool)
    | Payments
    | TheModel

  datatype Check = Check(line: Line, status: Status)

  function NotSetLines(names: seq<Var>): seq<Check> {
    seq(|names|, i requires 0 <= i < |names| => Check(NotSet(names[i]), MISSING))
  }

  // Everything the environment lacks, filled in.
  function FilledIn(checks: Checks, env: Env): Env {
    Seen(checks, env, |Expected(checks, env)|, Refused(checks, env))
  }

  lemma KeyErrorsStay(checks: Checks, a: Env, b: Env)
    requires AlikeInValues(a, b)
    requires ReadKeys(checks, a).Err? && !ReadKeys(checks, a).error.Missing?
    ensures ReadKeys(checks, b) == ReadKeys(checks, a)
  {
    hide Get, Keyring.ParseApiKeys, Keyring.ParsePlatformKeys, Backends;
    assert !Fillable(AppBind) && !Fillable(ApiKeysVar) && !Fillable(PlatformKeysVar) && !Fillable(MetricsKey)
        && !Fillable(ApprovalNotify) && !Fillable(LlmVar);
    hide AlikeInValues, Fillable;
  }

  lemma AlikeTogether(checks: Checks, env: Env, n: nat)
    requires n <= |Expected(checks, env)|
    ensures AlikeInValues(Seen(checks, env, n, false), FilledIn(checks, env))
  {
    hide Get, Expected, Seen, Fillable, Refused;
    SeenAlike(checks, env, n, false);
    SeenAlike(checks, env, |Expected(checks, env)|, Refused(checks, env));
  }

  lemma BadKeysAreErrors(checks: Checks, env: Env)
    requires ReadKeys(checks, env).Err?
    ensures Parse(checks, env).Err?
  {
    hide Get, ReadAdapters, ReadKeys, FirstUnset, Guarded;
  }

  lemma RefusedAtTheEnd(checks: Checks, env: Env, seen: Env)
    requires Refused(checks, env) && FirstUnset(seen, REQUIRED).None? && ReadKeys(checks, seen).Ok? && !Allows(seen)
    requires ReadAdapters(checks, seen) == ReadAdapters(checks, env) && Get(seen, LlmVar) == Get(env, LlmVar)
    ensures Parse(checks, seen).Err? && Parse(checks, seen).error.MocksNotAllowed?
  {
    hide Get, ReadAdapters, ReadKeys, FirstUnset, MockAdapters, Summarize, Allows, AfterGuard, NeedsKey, Backends;
    KeyErrors(checks, seen);
  }

  lemma ErrorsStay(checks: Checks, env: Env, n: nat)
    requires n <= |Expected(checks, env)|
    requires var parsed := Parse(checks, Seen(checks, env, n, false));
      parsed.Err? && !parsed.error.Missing? && !parsed.error.MocksNotAllowed?
    ensures Parse(checks, FilledIn(checks, env)).Err?
  {
    var seen, filled := Seen(checks, env, n, false), FilledIn(checks, env);
    Stops(checks, env, n, false);
    hide Get, Expected, Seen, ReadAdapters, ReadKeys, Allows, FirstUnset, UnsetOf, NeedsKey, Backends, AlikeInValues, Refused, Guarded;
    SeenRequired(checks, env, n, false);
    SeenKey(checks, env, n, false);
    KeyErrors(checks, seen);
    if ReadKeys(checks, seen).Err? {
      AlikeTogether(checks, env, n);
      KeyErrorsStay(checks, seen, filled);
      BadKeysAreErrors(checks, filled);
    } else if Refused(checks, env) {
      SeenAdapters(checks, env, n, false);
      SeenFlag(checks, env, n, false);
      RefusedIsNotAllowed(checks, env);
      RefusedAtTheEnd(checks, env, seen);
    }
  }

  lemma RefusedIsNotAllowed(checks: Checks, env: Env)
    requires Refused(checks, env)
    ensures !Allows(env)
  {
  }

  lemma StubOneMore(checks: Checks, env: Env, n: nat)
    requires n < |Expected(checks, env)|
    ensures var expected := Expected(checks, env);
      && expected[n] !in Stubbed(expected[..n], false)
      && Stubbed(expected[..n + 1], false) == Stubbed(expected[..n], false)[expected[n] := STUB]
      && NotSetLines(expected[..n + 1]) == NotSetLines(expected[..n]) + [Check(NotSet(expected[n]), MISSING)]
  {
    ExpectedAreDistinct(checks, env);
    hide Expected;
    var expected := Expected(checks, env);
    assert expected[..n + 1] == expected[..n] + [expected[n]];
  }

  lemma ExpectedAreDistinct(checks: Checks, env: Env)
    ensures var expected := Expected(checks, env);
      forall i, j :: 0 <= i < j < |expected| ==> expected[i] != expected[j]
  {
    hide Get, NeedsKey, UnsetOf;
    UnsetAreDistinct(env, REQUIRED);
    ExpectedAreFillable(checks, env);
  }

  // What the loop reports: the variables it was told are missing, one line
  // each, and the first error no stub can mend.
  ghost predicate WalkReport(checks: Checks, env: Env, report: seq<Check>, settled: bool) {
    var expected := Expected(checks, env);
    if settled then report == NotSetLines(expected)
    else exists n: nat, flag, e :: (BreaksAt(checks, env, n, flag, e) && report == NotSetLines(expected[..n]) + [Check(Broken(e), MISSING)])
  }

  // Filling in no more than it was told is missing, the parser says something
  // else is wrong.
  ghost predicate BreaksAt(checks: Checks, env: Env, n: nat, flag: bool, e: Error) {
    && n <= |Expected(checks, env)|
    && (flag ==> Refused(checks, env) && n == |Expected(checks, env)|)
    && Parse(checks, Seen(checks, env, n, flag)) == Err(e) && !e.Missing? && !e.MocksNotAllowed?
    && Told(checks, env, n)
  }

  // The parser was asked before the last of them was filled in, and said it was
  // missing.
  ghost predicate Told(checks: Checks, env: Env, n: nat)
    requires n <= |Expected(checks, env)|
  {
    n > 0 ==> Parse(checks, Seen(checks, env, n - 1, false)) == Err(Missing(Expected(checks, env)[n - 1]))
  }

  // Where the loop is after n variables: what it has filled in and reported.
  ghost predicate Walking(checks: Checks, env: Env, n: nat, stubs: Env, refuses: bool, report: seq<Check>) {
    && n <= |Expected(checks, env)|
    && (refuses ==> Refused(checks, env) && n == |Expected(checks, env)|)
    && stubs == Stubbed(Expected(checks, env)[..n], refuses)
    && report == NotSetLines(Expected(checks, env)[..n])
    && Told(checks, env, n)
  }

  lemma WalkStarts(checks: Checks, env: Env)
    ensures Walking(checks, env, 0, map[], false, [])
  {
    hide Expected, Refused;
  }

  lemma WalkSettles(checks: Checks, env: Env, n: nat, stubs: Env, refuses: bool, report: seq<Check>)
    requires Walking(checks, env, n, stubs, refuses, report) && Parse(checks, env + stubs).Ok?
    ensures WalkReport(checks, env, report, true) && refuses == Refused(checks, env)
    ensures env + stubs == FilledIn(checks, env)
  {
    hide Expected, Refused, Parse, Faithful, UnsetOf;
    Stops(checks, env, n, refuses);
    assert Expected(checks, env)[..n] == Expected(checks, env);
  }

  lemma WalkFillsIn(checks: Checks, env: Env, n: nat, stubs: Env, refuses: bool, report: seq<Check>, name: Var)
    requires Walking(checks, env, n, stubs, refuses, report) && Parse(checks, env + stubs) == Err(Missing(name))
    ensures name !in stubs && n < |Expected(checks, env)|
    ensures Walking(checks, env, n + 1, stubs[name := STUB], refuses, report + [Check(NotSet(name), MISSING)])
  {
    hide Expected, Refused, Parse, Faithful, UnsetOf, Stubbed, NotSetLines;
    Stops(checks, env, n, refuses);
    StubOneMore(checks, env, n);
  }

  lemma WalkAllows(checks: Checks, env: Env, n: nat, stubs: Env, refuses: bool, report: seq<Check>)
    requires Walking(checks, env, n, stubs, refuses, report)
    requires Parse(checks, env + stubs).Err? && Parse(checks, env + stubs).error.MocksNotAllowed?
    ensures AllowMocks !in stubs && !refuses
    ensures Walking(checks, env, n, stubs[AllowMocks := ALLOWED], true, report)
  {
    hide Expected, Refused, Parse, Faithful, UnsetOf, NotSetLines;
    Stops(checks, env, n, refuses);
    ExpectedAreFillable(checks, env);
  }

  lemma WalkBreaks(checks: Checks, env: Env, n: nat, stubs: Env, refuses: bool, report: seq<Check>, e: Error)
    requires Walking(checks, env, n, stubs, refuses, report)
    requires Parse(checks, env + stubs) == Err(e) && !e.Missing? && !e.MocksNotAllowed?
    ensures WalkReport(checks, env, report + [Check(Broken(e), MISSING)], false)
    ensures Parse(checks, FilledIn(checks, env)).Err?
  {
    hide Expected, Refused, Parse, Faithful, UnsetOf, Stubbed, NotSetLines;
    Stops(checks, env, n, refuses);
    assert BreaksAt(checks, env, n, refuses, e);
    if !refuses {
      ErrorsStay(checks, env, n);
    }
  }

  // The stub-and-reparse loop. The two arms that give up on a second stub for
  // the same variable are never taken.
  method Walk(checks: Checks, env: Env) returns (report: seq<Check>, refuses: bool, found: Option<Config>)
    ensures found.Some? <==> Parse(checks, FilledIn(checks, env)).Ok?
    ensures WalkReport(checks, env, report, found.Some?)
    ensures found.Some? ==> refuses == Refused(checks, env) && Parse(checks, FilledIn(checks, env)) == Ok(found.value)
  {
    hide Parse, Refused, Expected, Walking, WalkReport, FilledIn;
    ghost var n: nat := 0;
    var stubs: Env := map[];
    report, refuses, found := [], false, None;
    WalkStarts(checks, env);
    while true
      invariant Walking(checks, env, n, stubs, refuses, report)
      decreases |Expected(checks, env)| - n, if refuses then 0 else 1
    {
      match Parse(checks, env + stubs) {
        case Ok(config) =>
          WalkSettles(checks, env, n, stubs, refuses, report);
          found := Some(config);
          return;
        case Err(Missing(name)) =>
          WalkFillsIn(checks, env, n, stubs, refuses, report, name);
          report := report + [Check(NotSet(name), MISSING)];
          if name in stubs {
            assert false;
          }
          stubs := stubs[name := STUB];
          n := n + 1;
        case Err(MocksNotAllowed(_, _)) =>
          WalkAllows(checks, env, n, stubs, refuses, report);
          refuses := true;
          if AllowMocks in stubs {
            assert false;
          }
          stubs := stubs[AllowMocks := ALLOWED];
        case Err(e) =>
          WalkBreaks(checks, env, n, stubs, refuses, report, e);
          report := report + [Check(Broken(e), MISSING)];
          return;
      }
    }
  }
}
