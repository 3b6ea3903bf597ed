/** The report read off the variables alone: which line says what, whatever
    path the loop of stubs took to it. */
module DoctorMeaning {
  import opened Common
  import opened Text
  import opened Config
  import opened ConfigMeaning
  import opened Doctor
  import opened DoctorReport
  import Keyring
  import Webhooks

  // ------------------------------------------------------------------
  // What the environment lacks, and what stubs leave alone
  // ------------------------------------------------------------------

  function LacksRequired(env: Env): seq<Var> {
    (if IsSet(env, PublicHost) then [] else [PublicHost])
    + (if IsSet(env, AgentEmailDomain) then [] else [AgentEmailDomain])
    + (if IsSet(env, DatabaseUrl) then [] else [DatabaseUrl])
    + (if IsSet(env, MasterKey) then [] else [MasterKey])
  }

  function LacksKey(checks: Checks, env: Env): seq<Var> {
    if IsModel(checks, env, Anthropic) && !IsSet(env, AnthropicKey) then [AnthropicKey] else []
  }

  lemma UnsetOfOne(env: Env, v: Var, rest: seq<Var>)
    ensures UnsetOf(env, [v] + rest) == (if IsSet(env, v) then [] else [v]) + UnsetOf(env, rest)
  {
    GetMeans(env, v);
    hide Get, IsSet;
    assert ([v] + rest)[1..] == rest;
  }

  lemma NoneUnset(env: Env)
    ensures UnsetOf(env, []) == []
  {
  }

  lemma RequiredLack(env: Env)
    ensures UnsetOf(env, REQUIRED) == LacksRequired(env)
  {
    hide UnsetOf, IsSet;
    UnsetOfOne(env, MasterKey, []);
    UnsetOfOne(env, DatabaseUrl, [MasterKey]);
    UnsetOfOne(env, AgentEmailDomain, [DatabaseUrl] + ([MasterKey] + []));
    UnsetOfOne(env, PublicHost, [AgentEmailDomain] + ([DatabaseUrl] + ([MasterKey] + [])));
    assert [DatabaseUrl] + ([MasterKey] + []) == [DatabaseUrl] + [MasterKey] && [MasterKey] + [] == [MasterKey];
    assert REQUIRED == [PublicHost] + ([AgentEmailDomain] + ([DatabaseUrl] + ([MasterKey] + [])));
    NoneUnset(env);
  }

  lemma LacksMean(checks: Checks, env: Env)
    ensures UnsetOf(env, REQUIRED) == LacksRequired(env)
    ensures Expected(checks, env) == LacksRequired(env) + LacksKey(checks, env)
    ensures NeedsKey(checks, env) <==> LacksKey(checks, env) != []
  {
    hide UnsetOf, LacksRequired, NeedsKey;
    RequiredLack(env);
    KeyLack(checks, env);
  }

  lemma KeyLack(checks: Checks, env: Env)
    ensures NeedsKey(checks, env) <==> LacksKey(checks, env) != []
  {
    ModelComplaints(checks, env);
    hide IsSet, IsModel, NeedsKey, Backends, Get;
  }

  // The complaints a diagnosis may fill in for, and so go on past.
  predicate Mendable(n: nat) {
    n < 4 || n == 10 || n == 20
  }

  lemma ValuesAlike(a: Env, b: Env)
    requires AlikeInValues(a, b)
    ensures forall v :: !Fillable(v) ==> IsSet(a, v) == IsSet(b, v) && Value(a, v) == Value(b, v)
  {
    AllGetsMean(a);
    AllGetsMean(b);
    hide Get, IsSet, Value, Fillable;
  }

  // The variables a diagnosis leaves alone.
  predicate LeftAlone(v: Var) {
    !v.PublicHost? && !v.AgentEmailDomain? && !v.DatabaseUrl? && !v.MasterKey? && !v.AnthropicKey? && !v.AllowMocks?
  }

  lemma LeftAloneAlike(a: Env, b: Env)
    requires AlikeInValues(a, b)
    ensures forall v :: LeftAlone(v) ==> IsSet(a, v) == IsSet(b, v) && Value(a, v) == Value(b, v)
  {
    hide IsSet, Value, AlikeInValues;
    ValuesAlike(a, b);
  }

  lemma KeyComplaintsAlike(checks: Checks, a: Env, b: Env, n: nat)
    requires forall v :: LeftAlone(v) ==> IsSet(a, v) == IsSet(b, v) && Value(a, v) == Value(b, v)
    requires n != 10
    ensures KeyComplaint(checks, a, n) == KeyComplaint(checks, b, n)
  {
    hide IsSet, Value;
    assert forall m :: IsModel(checks, a, m) == IsModel(checks, b, m);
    hide IsModel, Keyring.HoldsApiKeys, Keyring.HoldsPlatformKeys;
  }

  lemma LaterComplaintsAlike(checks: Checks, a: Env, b: Env, n: nat)
    requires forall v :: LeftAlone(v) ==> IsSet(a, v) == IsSet(b, v) && Value(a, v) == Value(b, v)
    requires n != 12 && n != 20
    ensures LaterComplaint(checks, a, n) == LaterComplaint(checks, b, n)
  {
    hide IsSet, Value, Flagged, IsPair, Solves, Webhooks.Parse;
  }

  lemma ComplaintsAlike(checks: Checks, a: Env, b: Env, n: nat)
    requires AlikeInValues(a, b) && !Mendable(n) && n != 12
    ensures Complaint(checks, a, n) == Complaint(checks, b, n)
  {
    hide IsSet, Value, AlikeInValues, KeyComplaint, LaterComplaint, LeftAlone;
    LeftAloneAlike(a, b);
    if n < 11 {
      KeyComplaintsAlike(checks, a, b, n);
    } else {
      LaterComplaintsAlike(checks, a, b, n);
    }
  }

  lemma ComplaintsStay(checks: Checks, env: Env, n: nat, flag: bool, k: nat)
    requires n <= |Expected(checks, env)| && (flag ==> Refused(checks, env)) && !Mendable(k)
    ensures Complaint(checks, Seen(checks, env, n, flag), k) == Complaint(checks, env, k)
  {
    hide Complaint, Seen, Expected, AlikeInValues, Refused;
    var seen := Seen(checks, env, n, flag);
    SeenAlike(checks, env, n, flag);
    if k == 12 {
      RedirectStays(checks, env, n, flag);
    } else {
      ComplaintsAlike(checks, env, seen, k);
    }
  }

  lemma RedirectStays(checks: Checks, env: Env, n: nat, flag: bool)
    requires n <= |Expected(checks, env)| && (flag ==> Refused(checks, env))
    ensures Complaint(checks, Seen(checks, env, n, flag), 12) == Complaint(checks, env, 12)
  {
    hide Seen, Expected, AlikeInValues, IsOrigin, IsSet, Value, Allows, Flagged, Get, WithoutSlashes;
    var seen := Seen(checks, env, n, flag);
    SeenAlike(checks, env, n, flag);
    SeenFlag(checks, env, n, flag);
    EmailBaseMeans(env);
    EmailBaseMeans(seen);
    if flag {
      hide EmailBase;
      NoRedirectWithoutTheFlag(env, seen);
    } else {
      ValuesAlike(env, seen);
      FlagMeans(env);
      FlagMeans(seen);
    }
  }

  // ------------------------------------------------------------------
  // The report of an environment no stub can mend
  // ------------------------------------------------------------------

  // The first thing wrong that filling in cannot mend.
  ghost predicate FirstBroken(checks: Checks, env: Env, k: nat, e: Error) {
    && k < COMPLAINTS && !Mendable(k) && Complaint(checks, env, k) == Some(e)
    && forall j: nat :: j < k && !Mendable(j) ==> Complaint(checks, env, j).None?
  }

  lemma OnlyTheKeyIsTenth(checks: Checks, env: Env, m: nat, e: Error)
    requires Complaint(checks, env, m) == Some(e)
    ensures e.Missing? <==> m < 4 || m == 10
    ensures e.MocksNotAllowed? <==> m == 20
    ensures e == Missing(AnthropicKey) ==> m == 10
  {
    hide IsSet, Value, IsModel, Flagged, IsOrigin, IsPair, Solves, Unselected, Inventory, Webhooks.Parse, Keyring.HoldsApiKeys, Keyring.HoldsPlatformKeys;
  }

  lemma BrokenThere(checks: Checks, env: Env, n: nat, flag: bool, e: Error) returns (m: nat)
    requires BreaksAt(checks, env, n, flag, e)
    ensures FirstBroken(checks, env, m, e) && Clear(checks, Seen(checks, env, n, flag), 0, m)
  {
    hide Complaint, Parse, Seen, Expected, Refused;
    var seen := Seen(checks, env, n, flag);
    StopsAtTheFirst(checks, seen);
    m :| 0 <= m < COMPLAINTS && Complaint(checks, seen, m) == Some(e) && Clear(checks, seen, 0, m);
    OnlyTheKeyIsTenth(checks, seen, m, e);
    forall k: nat | !Mendable(k)
      ensures Complaint(checks, seen, k) == Complaint(checks, env, k)
    {
      ComplaintsStay(checks, env, n, flag, k);
    }
  }

  // How many variables it was told of before it broke.
  lemma ToldBefore(checks: Checks, env: Env, n: nat, flag: bool, e: Error, m: nat)
    requires BreaksAt(checks, env, n, flag, e)
    requires FirstBroken(checks, env, m, e) && Clear(checks, Seen(checks, env, n, flag), 0, m)
    ensures n == |LacksRequired(env)| + if m > 10 then |LacksKey(checks, env)| else 0
  {
    hide Complaint, Parse, Seen, Expected, Refused, LacksRequired, LacksKey, UnsetOf, NeedsKey, FirstBroken;
    var seen := Seen(checks, env, n, flag);
    LacksMean(checks, env);
    Stops(checks, env, n, flag);
    SeenKey(checks, env, n, flag);
    if m > 10 {
      ModelComplaints(checks, seen);
      assert Complaint(checks, seen, 10).None?;
    } else if n > |UnsetOf(env, REQUIRED)| {
      NotToldYet(checks, env, n, m, e);
    }
  }

  lemma NotToldYet(checks: Checks, env: Env, n: nat, m: nat, e: Error)
    requires |UnsetOf(env, REQUIRED)| < n <= |Expected(checks, env)| && Told(checks, env, n)
    requires FirstBroken(checks, env, m, e)
    ensures m > 10
  {
    hide Complaint, Parse, Seen, Expected, Refused, UnsetOf, NeedsKey;
    var seen := Seen(checks, env, n - 1, false);
    SeenKey(checks, env, n - 1, false);
    StopsAtTheFirst(checks, seen);
    assert FirstWrong(checks, seen, 0, Missing(AnthropicKey));
    var k: nat :| k < COMPLAINTS && Complaint(checks, seen, k) == Some(Missing(AnthropicKey)) && Clear(checks, seen, 0, k);
    OnlyTheKeyIsTenth(checks, seen, k, Missing(AnthropicKey));
    ComplaintsStay(checks, env, n - 1, false, m);
  }

  // A report that stops short says, last, the first thing wrong that filling in
  // cannot mend, and before it every variable that is missing by then.
  lemma BrokenIsTheFirst(checks: Checks, env: Env, report: seq<Check>)
    requires WalkReport(checks, env, report, false)
    ensures exists k: nat, e :: FirstBroken(checks, env, k, e) && SaysBroken(checks, env, report, k, e)
  {
    hide FirstBroken, Expected, Refused, Seen, Told, LacksRequired, LacksKey, UnsetOf, Parse;
    var n: nat, flag, e :| (BreaksAt(checks, env, n, flag, e) && report == NotSetLines(Expected(checks, env)[..n]) + [Check(Broken(e), MISSING)]);
    var m := BrokenThere(checks, env, n, flag, e);
    ToldBefore(checks, env, n, flag, e, m);
    LacksMean(checks, env);
    assert SaysBroken(checks, env, report, m, e);
  }

  predicate SaysBroken(checks: Checks, env: Env, report: seq<Check>, k: nat, e: Error) {
    var gaps := LacksRequired(env) + if k > 10 then LacksKey(checks, env) else [];
    && |report| == |gaps| + 1 && report[|gaps|] == Check(Broken(e), MISSING)
    && forall i :: 0 <= i < |gaps| ==> report[i] == Check(NotSet(gaps[i]), MISSING)
  }

  // A report stops short exactly when something is wrong that filling in cannot
  // mend.
  lemma StopsShortIff(checks: Checks, env: Env)
    ensures Parse(checks, FilledIn(checks, env)).Ok?
       <==> forall n: nat :: n < COMPLAINTS && !Mendable(n) ==> Complaint(checks, env, n).None?
  {
    hide Complaint, Parse, Seen, Expected, Refused, Faithful, UnsetOf, Mendable;
    var filled := FilledIn(checks, env);
    StopsAtTheFirst(checks, filled);
    Stops(checks, env, |Expected(checks, env)|, Refused(checks, env));
    forall n: nat | !Mendable(n)
      ensures Complaint(checks, filled, n) == Complaint(checks, env, n)
    {
      ComplaintsStay(checks, env, |Expected(checks, env)|, Refused(checks, env), n);
    }
    if Parse(checks, filled).Err? {
      var e := Parse(checks, filled).error;
      var m: nat :| m < COMPLAINTS && Complaint(checks, filled, m) == Some(e) && Clear(checks, filled, 0, m);
      MendableErrors(checks, filled, m);
    }
  }

  lemma MendableErrors(checks: Checks, env: Env, m: nat)
    requires Complaint(checks, env, m).Some?
    ensures Mendable(m) <==> Complaint(checks, env, m).value.Missing? || Complaint(checks, env, m).value.MocksNotAllowed?
  {
    hide Complaint;
    OnlyTheKeyIsTenth(checks, env, m, Complaint(checks, env, m).value);
  }

  // ------------------------------------------------------------------
  // The report of one whose gaps they can fill
  // ------------------------------------------------------------------

  function Mark(fine: bool): Status {
    if fine then OK else MISSING
  }

  predicate IsReal(env: Env, p: Provider) {
    match p
    case Email => IsSet(env, EmailKey)
    case Telephony => IsSet(env, TelephonyKey)
    case Browser => IsSet(env, BrowserKey) || IsSet(env, BrowserCdpUrl) || IsSet(env, BrowserFetch)
    case Embedder => IsSet(env, EmbedderKey)
  }

  // A mock is fine where the operator allowed it; a selected adapter is fine
  // unless its key is turned down, which only two of them are asked about.
  function SaidOf(env: Env, world: World, p: Provider): Check {
    if !IsReal(env, p) then Check(AdapterLine(p, false), Mark(Flagged(env)))
    else if p.Email? then Check(AdapterLine(p, true), Mark(NotTurnedDown(env, world, EmailKey, p)))
    else if p.Telephony? then Check(AdapterLine(p, true), Mark(NotTurnedDown(env, world, TelephonyKey, p)))
    else Check(AdapterLine(p, true), OK)
  }

  // The model is reached by its program or by a key of the right form.
  predicate ModelFine(checks: Checks, env: Env, world: World) {
    && (IsModel(checks, env, Mock) ==> Flagged(env))
    && (IsModel(checks, env, Cli) ==> world.claude)
    && (IsModel(checks, env, Anthropic) ==> "sk-ant-" <= Value(env, AnthropicKey))
  }

  // Whether anybody can authenticate, whether a callback is registered, whether
  // the server starts.
  function SaidFirst(checks: Checks, env: Env): seq<Check> {
    var keyed := Names(Value(env, ApiKeysVar)) || Names(Value(env, PlatformKeysVar));
    [Check(ApiKeysLine, Mark(keyed)),
     Check(PlatformKeysLine, Mark(keyed)),
     Check(WebhooksLine, Mark(Names(Value(env, WebhookSecrets)))),
     Check(Boot(Unselected(checks, env), Inventory(checks, env)), Mark(Flagged(env) || Unselected(checks, env) == []))]
  }

  function SaidNext(env: Env, world: World): seq<Check> {
    [SaidOf(env, world, Email), SaidOf(env, world, Telephony), SaidOf(env, world, Browser), SaidOf(env, world, Embedder)]
  }

  function SaidAfter(checks: Checks, env: Env, world: World): seq<Check> {
    SaidFirst(checks, env) + (SaidNext(env, world) + [Check(Payments, OK)]) + [Check(TheModel, Mark(ModelFine(checks, env, world)))]
  }

  // The gaps, one line each, or one line that there are none; then the rest.
  predicate Says(checks: Checks, env: Env, world: World, report: seq<Check>) {
    var gaps, after := LacksRequired(env) + LacksKey(checks, env), SaidAfter(checks, env, world);
    if gaps == [] then report == [Check(AllSet, OK)] + after
    else |report| == |gaps| + |after| && report[|gaps|..] == after && forall i :: 0 <= i < |gaps| ==> report[i] == Check(NotSet(gaps[i]), MISSING)
  }

  // What the filled-in environment's configuration takes from the real one.
  ghost predicate TakenFrom(checks: Checks, env: Env, c: Config, refuses: bool) {
    && (forall p :: For(p) in c.mockAdapters <==> !IsReal(env, p))
    && c.mockAdapters == Unselected(checks, env)
    && AdapterSummary(c) == Inventory(checks, env)
    && (!Keyless(c) <==> Names(Value(env, ApiKeysVar)) || Names(Value(env, PlatformKeysVar)))
    && (c.webhooks != [] <==> Names(Value(env, WebhookSecrets)))
    && (refuses <==> !Flagged(env) && Unselected(checks, env) != [])
    && (c.allowMocks && !refuses <==> Flagged(env))
    && IsModel(checks, env, c.llm)
    && (IsSet(env, AnthropicKey) ==> c.anthropicKey == Some(Value(env, AnthropicKey)))
    && (c.llm.Anthropic? && !IsSet(env, AnthropicKey) ==> c.anthropicKey == Some(STUB))
  }

  lemma AdaptersTaken(checks: Checks, env: Env, c: Config)
    requires Faithful(checks, env, c)
    ensures HoldsCredentials(env, c.credentials) && IsModel(checks, env, c.llm)
    ensures c.mockAdapters == Unselected(checks, env) && AdapterSummary(c) == Inventory(checks, env)
    ensures forall p :: For(p) in c.mockAdapters <==> !IsReal(env, p)
    ensures Refused(checks, env) <==> !Flagged(env) && Unselected(checks, env) != []
  {
    hide ReadAdapters, Backends, Get, IsSet, Value, IsModel, Flagged, Allows, MockAdapters, Unselected, Inventory, Summarize, BrowserLabel;
    AdaptersFirst(checks, env);
    ModelsMean(checks, env);
    FlagMeans(env);
    UnselectedMeans(checks, env, c.credentials, c.llm);
    InventoryMeans(checks, env, c.credentials, c.llm);
    SelectionDecides(c.credentials, c.llm);
  }

  lemma KeysTaken(checks: Checks, env: Env, filled: Env, c: Config)
    requires AlikeInValues(env, filled) && Holds(checks, filled, c)
    ensures !Keyless(c) <==> Names(Value(env, ApiKeysVar)) || Names(Value(env, PlatformKeysVar))
    ensures c.webhooks != [] <==> Names(Value(env, WebhookSecrets))
  {
    hide Value, IsSet, AlikeInValues, Holds, Names, LeftAlone, Keyless;
    KeysAreNamed(checks, filled, c);
    LeftAloneAlike(env, filled);
    assert LeftAlone(ApiKeysVar) && LeftAlone(PlatformKeysVar) && LeftAlone(WebhookSecrets) by {
      AreLeftAlone();
    }
  }

  lemma AreLeftAlone()
    ensures LeftAlone(ApiKeysVar) && LeftAlone(PlatformKeysVar) && LeftAlone(WebhookSecrets)
  {
  }

  lemma ModelKeyTaken(checks: Checks, env: Env)
    ensures var got := Get(FilledIn(checks, env), AnthropicKey);
      if IsSet(env, AnthropicKey) then got == Some(Value(env, AnthropicKey))
      else IsModel(checks, env, Anthropic) ==> got == Some(STUB)
  {
    hide Get, Expected, Seen, IsSet, Value, IsModel, Refused, LacksRequired, UnsetOf, NeedsKey, Trim;
    var n := |Expected(checks, env)|;
    var filled := FilledIn(checks, env);
    LacksMean(checks, env);
    ExpectedAreFillable(checks, env);
    GetMeans(env, AnthropicKey);
    SeenReads(checks, env, n, Refused(checks, env), AnthropicKey);
    assert Expected(checks, env)[..n] == Expected(checks, env);
    if !IsSet(env, AnthropicKey) && IsModel(checks, env, Anthropic) {
      assert LacksKey(checks, env)[0] == AnthropicKey;
      assert AnthropicKey in Expected(checks, env);
      StubIsRead(checks, env);
    } else {
      assert AnthropicKey !in Expected(checks, env) by {
        NotLacked(checks, env);
      }
    }
  }

  lemma NotLacked(checks: Checks, env: Env)
    ensures AnthropicKey in Expected(checks, env) ==> IsModel(checks, env, Anthropic) && !IsSet(env, AnthropicKey)
  {
    hide IsSet, IsModel, Expected, UnsetOf;
    LacksMean(checks, env);
  }

  lemma StubIsRead(checks: Checks, env: Env)
    requires AnthropicKey in Expected(checks, env)
    ensures Get(FilledIn(checks, env), AnthropicKey) == Some(STUB)
  {
    StubsCount();
    hide Expected, Trim, Refused;
    assert Expected(checks, env)[..|Expected(checks, env)|] == Expected(checks, env);
  }

  lemma AllTaken(checks: Checks, env: Env)
    requires Parse(checks, FilledIn(checks, env)).Ok?
    ensures TakenFrom(checks, env, Parse(checks, FilledIn(checks, env)).value, Refused(checks, env))
  {
    hide Parse, Expected, Refused, Seen, Get, IsSet, Value, IsModel, Flagged, Unselected, Inventory, Names, Keyless, AdapterSummary, Allows, IsReal, UnsetOf, AlikeInValues;
    var filled := FilledIn(checks, env);
    var c := Parse(checks, filled).value;
    Stops(checks, env, |Expected(checks, env)|, Refused(checks, env));
    SeenAlike(checks, env, |Expected(checks, env)|, Refused(checks, env));
    AdaptersTaken(checks, env, c);
    ParsedHolds(checks, filled);
    KeysTaken(checks, env, filled, c);
    FlagMeans(env);
    ModelKeyTaken(checks, env);
    GetMeans(filled, AnthropicKey);
  }

  lemma ProviderSaid(checks: Checks, env: Env, world: World, c: Config, refuses: bool, p: Provider)
    requires TakenFrom(checks, env, c, refuses) && ReadCredentials(checks, env).Ok?
    ensures ProviderLine(c, c.allowMocks && !refuses, env, world, p) == SaidOf(env, world, p)
  {
    hide IsSet, Value, IsModel, Flagged, Unselected, Inventory, Names, Keyless, AdapterSummary, ReadCredentials, Credential, NotTurnedDown, Accepted;
    AcceptedIsClean(checks, env, world, p);
    AcceptedMeans(env, world, p);
  }

  lemma ModelSaid(checks: Checks, env: Env, world: World, c: Config, refuses: bool)
    requires TakenFrom(checks, env, c, refuses)
    ensures ModelStatus(c, c.allowMocks && !refuses, world) == Mark(ModelFine(checks, env, world))
  {
    hide IsSet, Value, IsModel, Flagged, Unselected, Inventory, Names, Keyless, AdapterSummary, IsReal;
    GetMeans(env, AnthropicKey);
    OneModel(checks, env);
    assert STUB[0] == 's' && STUB[1] == 'e' && STUB[2] == 't';
    assert KEY_PREFIX[2] == '-';
  }

  lemma VerdictsSaid(checks: Checks, env: Env, c: Config, refuses: bool)
    requires TakenFrom(checks, env, c, refuses)
    ensures Verdicts(c, refuses) == SaidFirst(checks, env)
  {
    hide IsSet, Value, IsModel, Flagged, Unselected, Inventory, Names, Keyless, AdapterSummary, IsReal;
  }

  lemma ProvidersSaid(checks: Checks, env: Env, world: World, c: Config, refuses: bool)
    requires TakenFrom(checks, env, c, refuses) && ReadCredentials(checks, env).Ok?
    ensures ProviderLines(c, c.allowMocks && !refuses, env, world, |PROVIDERS|) == SaidNext(env, world)
  {
    hide TakenFrom, ProviderLines, ProviderLine, SaidOf, ReadCredentials;
    var lines := ProviderLines(c, c.allowMocks && !refuses, env, world, |PROVIDERS|);
    forall i | 0 <= i < |PROVIDERS|
      ensures lines[i] == SaidOf(env, world, PROVIDERS[i])
    {
      ProviderSaid(checks, env, world, c, refuses, PROVIDERS[i]);
    }
  }

  lemma SectionsSaid(checks: Checks, env: Env, world: World, c: Config, refuses: bool)
    requires TakenFrom(checks, env, c, refuses) && ReadCredentials(checks, env).Ok?
    ensures Sections(c, refuses, env, world) == SaidAfter(checks, env, world)
  {
    hide TakenFrom, ModelStatus, ModelFine, ProviderLines, Verdicts, SaidFirst, SaidNext, ReadCredentials, Mark;
    ModelSaid(checks, env, world, c, refuses);
    ProvidersSaid(checks, env, world, c, refuses);
    VerdictsSaid(checks, env, c, refuses);
  }

  // When the gaps can be filled the report is the same as if the variables had
  // been looked at one by one: nothing of a stub shows in it.
  lemma SaysWhatIsSo(checks: Checks, env: Env, world: World, report: seq<Check>)
    requires Reports(checks, env, world, report) && Parse(checks, FilledIn(checks, env)).Ok?
    ensures Says(checks, env, world, report)
  {
    hide Parse, Expected, Refused, FilledIn, Sections, SaidAfter, LacksRequired, LacksKey, TakenFrom, ReadCredentials, UnsetOf, NeedsKey, WalkReport;
    AllTaken(checks, env);
    CredentialsRead(checks, env);
    LacksMean(checks, env);
    SectionsSaid(checks, env, world, Parse(checks, FilledIn(checks, env)).value, Refused(checks, env));
  }

  lemma CredentialsRead(checks: Checks, env: Env)
    requires Parse(checks, FilledIn(checks, env)).Ok?
    ensures ReadCredentials(checks, env).Ok?
  {
    hide Parse, Expected, Refused, Seen, Get, UnsetOf, ReadCredentials, Backends, MockAdapters, Allows, WithoutSlashes, EmailBase, Webhooks.Parse;
    Stops(checks, env, |Expected(checks, env)|, Refused(checks, env));
  }
}
