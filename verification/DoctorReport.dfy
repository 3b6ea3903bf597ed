/** The report `doctor` prints once the environment parses: one line per
    section, and when the whole of it is free of MISSING. */
module DoctorReport {
  import opened Common
  import opened Text
  import opened Config
  import opened Doctor
  import opened ConfigMeaning
  import Keyring
  import Webhooks

  // What the live checks find: the status each provider answers an
  // authenticated GET with, if it answers, and whether `claude` is on the path.
  datatype World = World(answer: Provider -> Option<nat>, claude: bool)

  predicate IsControl(c: char) {
    c as int < 32 || 127 <= c as int < 160
  }

  predicate HasControl(s: string) {
    exists c :: c in s && IsControl(c)
  }

  function KeyOf(p: Provider): Var {
    match p
    case Email => EmailKey
    case Telephony => TelephonyKey
    case Browser => BrowserKey
    case Embedder => EmbedderKey
  }

  // `classify`: only an explicit rejection is the operator's to mend.
  function Classify(answer: Option<nat>): Status {
    if answer == Some(401) || answer == Some(403) then MISSING else OK
  }

  // `credential`: the check of a selected adapter's key.
  function Credential(env: Env, world: World, p: Provider): Status {
    match Get(env, KeyOf(p))
    case None => OK
    case Some(secret) =>
      match p
      case Email => if HasControl(secret) then MISSING else Classify(world.answer(p))
      case Telephony =>
        (match SplitOnce(secret, ':')
         case None => MISSING
         case Some((sid, _)) => if HasControl(secret) || HasControl(sid) then MISSING else Classify(world.answer(p)))
      case Browser => OK
      case Embedder => OK
  }

  function ProviderLine(c: Config, blessed: bool, env: Env, world: World, p: Provider): Check {
    if For(p) in c.mockAdapters then Check(AdapterLine(p, false), if blessed then OK else MISSING)
    else Check(AdapterLine(p, true), Credential(env, world, p))
  }

  function ProviderLines(c: Config, blessed: bool, env: Env, world: World, n: nat): (lines: seq<Check>)
    requires n <= |PROVIDERS|
    ensures |lines| == n && forall i :: 0 <= i < n ==> lines[i] == ProviderLine(c, blessed, env, world, PROVIDERS[i])
  {
    if n == 0 then []
    else ProviderLines(c, blessed, env, world, n - 1) + [ProviderLine(c, blessed, env, world, PROVIDERS[n - 1])]
  }

  const KEY_PREFIX := "sk-ant-"

  function ModelStatus(c: Config, blessed: bool, world: World): Status {
    match c.llm
    case Mock => if blessed then OK else MISSING
    case Cli => if world.claude then OK else MISSING
    case Anthropic => if c.anthropicKey.Some? && KEY_PREFIX <= c.anthropicKey.value then OK else MISSING
  }

  predicate Keyless(c: Config) {
    c.apiKeys == [] && c.platformKeys == []
  }

  function MissingIf(absent: bool): Status {
    if absent then MISSING else OK
  }

  function BootLine(c: Config, refuses: bool): Check {
    Check(Boot(c.mockAdapters, AdapterSummary(c)), MissingIf(refuses))
  }

  // The keyrings, the webhooks and the boot.
  function Verdicts(c: Config, refuses: bool): seq<Check> {
    [Check(ApiKeysLine, MissingIf(Keyless(c))), Check(PlatformKeysLine, MissingIf(Keyless(c))),
     Check(WebhooksLine, MissingIf(c.webhooks == [])), BootLine(c, refuses)]
  }

  // The lines after the missing variables. Mocks are blessed by the
  // operator's own flag, not by the stub's.
  function Sections(c: Config, refuses: bool, env: Env, world: World): seq<Check> {
    var blessed := c.allowMocks && !refuses;
    Verdicts(c, refuses) + (ProviderLines(c, blessed, env, world, |PROVIDERS|) + [Check(Payments, OK)])
    + [Check(TheModel, ModelStatus(c, blessed, world))]
  }

  // What the report says of an environment whose gaps the stubs can fill.
  ghost predicate Reports(checks: Checks, env: Env, world: World, report: seq<Check>) {
    match Parse(checks, FilledIn(checks, env))
    case Err(_) => WalkReport(checks, env, report, false)
    case Ok(c) => report == Opening(Expected(checks, env)) + Sections(c, Refused(checks, env), env, world)
  }

  // The variables not set, or the line that says all are.
  function Opening(gaps: seq<Var>): seq<Check> {
    if gaps == [] then [Check(AllSet, OK)] else NotSetLines(gaps)
  }

  method PushProviders(c: Config, blessed: bool, env: Env, world: World, report: seq<Check>) returns (longer: seq<Check>)
    ensures longer == report + (ProviderLines(c, blessed, env, world, |PROVIDERS|) + [Check(Payments, OK)])
  {
    hide ProviderLine;
    longer := report;
    for i := 0 to |PROVIDERS|
      invariant longer == report + ProviderLines(c, blessed, env, world, i)
    {
      longer := longer + [ProviderLine(c, blessed, env, world, PROVIDERS[i])];
    }
    longer := longer + [Check(Payments, OK)];
  }

  method Inspect(checks: Checks, env: Env, world: World) returns (report: seq<Check>)
    ensures Reports(checks, env, world, report)
  {
    hide Expected, Refused, FilledIn, Parse, WalkReport, BootLine, ModelStatus, ProviderLines, Keyless;
    var refuses, found;
    report, refuses, found := Walk(checks, env);
    if found.None? {
      return;
    }
    var c := found.value;
    OpeningLines(checks, env, report);
    if report == [] {
      report := report + [Check(AllSet, OK)];
    }
    ghost var head := report;
    report := report + [Check(ApiKeysLine, MissingIf(Keyless(c)))];
    report := report + [Check(PlatformKeysLine, MissingIf(Keyless(c)))];
    report := report + [Check(WebhooksLine, MissingIf(c.webhooks == []))];
    report := report + [BootLine(c, refuses)];
    assert report == head + Verdicts(c, refuses);
    hide Verdicts, Opening, MissingIf;
    var blessed := c.allowMocks && !refuses;
    report := PushProviders(c, blessed, env, world, report);
    report := report + [Check(TheModel, ModelStatus(c, blessed, world))];
    assert report == head + Sections(c, refuses, env, world);
  }

  lemma OpeningLines(checks: Checks, env: Env, report: seq<Check>)
    requires WalkReport(checks, env, report, true)
    ensures Opening(Expected(checks, env)) == if report == [] then report + [Check(AllSet, OK)] else report
  {
    hide Expected, UnsetOf;
  }

  // ------------------------------------------------------------------
  // When the report is clean
  // ------------------------------------------------------------------

  // `Report::ok`.
  predicate Clean(report: seq<Check>) {
    forall check :: check in report ==> check.status == OK
  }

  // A key a live check would not turn down.
  predicate Accepted(env: Env, world: World, p: Provider) {
    Get(env, KeyOf(p)).Some? ==> !HasControl(Get(env, KeyOf(p)).value) && world.answer(p) !in {Some(401), Some(403)}
  }

  // The configuration of a clean report.
  ghost predicate Sound(checks: Checks, env: Env, world: World) {
    && Parse(checks, env).Ok?
    && var c := Parse(checks, env).value;
    && !Keyless(c)
    && c.webhooks != []
    && Accepted(env, world, Email) && Accepted(env, world, Telephony)
    && (c.llm.Cli? ==> world.claude)
    && (c.llm.Anthropic? ==> c.anthropicKey.Some? && KEY_PREFIX <= c.anthropicKey.value)
  }

  // Some entry of the line is not blank.
  predicate Names(line: string) {
    exists piece :: piece in Split(line, ',') && !Blank(piece)
  }

  // The key, if there is one, is plain text and no live check rejects it.
  predicate NotTurnedDown(env: Env, world: World, v: Var, p: Provider) {
    IsSet(env, v) ==> (forall c :: c in Value(env, v) ==> 32 <= c as int < 127 || 160 <= c as int) && world.answer(p) != Some(401) && world.answer(p) != Some(403)
  }

  // What a clean report promises, of the variables themselves.
  ghost predicate Healthy(checks: Checks, env: Env, world: World) {
    && Clear(checks, env, 0, COMPLAINTS)
    && (Names(Value(env, ApiKeysVar)) || Names(Value(env, PlatformKeysVar)))
    && Names(Value(env, WebhookSecrets))
    && NotTurnedDown(env, world, EmailKey, Email) && NotTurnedDown(env, world, TelephonyKey, Telephony)
    && (IsModel(checks, env, Cli) ==> world.claude)
    && (IsModel(checks, env, Anthropic) ==> "sk-ant-" <= Value(env, AnthropicKey))
  }

  lemma {:induction false} NonBlankNames(pieces: seq<string>)
    ensures NonBlank(pieces) != [] <==> exists piece :: piece in pieces && !Blank(piece)
  {
    hide Blank;
    if pieces != [] {
      BlankMeans(pieces[0]);
      NonBlankNames(pieces[1..]);
      assert forall piece :: piece in pieces <==> piece == pieces[0] || piece in pieces[1..];
    }
  }

  lemma KeysAreNamed(checks: Checks, env: Env, c: Config)
    requires Holds(checks, env, c)
    ensures !Keyless(c) <==> Names(Value(env, ApiKeysVar)) || Names(Value(env, PlatformKeysVar))
    ensures c.webhooks != [] <==> Names(Value(env, WebhookSecrets))
  {
    hide Value, Blank, Split, NonBlank, IsModel, IsSet, Flagged, Unselected, Inventory, AdapterSummary;
    NonBlankNames(Split(Value(env, ApiKeysVar), ','));
    NonBlankNames(Split(Value(env, PlatformKeysVar), ','));
    NonBlankNames(Split(Value(env, WebhookSecrets), ','));
  }

  lemma AcceptedMeans(env: Env, world: World, p: Provider)
    ensures Accepted(env, world, p) <==> NotTurnedDown(env, world, KeyOf(p), p)
  {
    GetMeans(env, KeyOf(p));
    hide Get, Value, IsSet;
  }

  lemma SoundIsHealthy(checks: Checks, env: Env, world: World)
    ensures Sound(checks, env, world) <==> Healthy(checks, env, world)
  {
    hide Parse, Clear, Names, NotTurnedDown, Accepted, Keyless, IsModel, IsSet, Value;
    StopsAtTheFirst(checks, env);
    AcceptedMeans(env, world, Email);
    AcceptedMeans(env, world, Telephony);
    GetMeans(env, AnthropicKey);
    OneModel(checks, env);
    if Parse(checks, env).Ok? {
      ParsedHolds(checks, env);
      KeysAreNamed(checks, env, Parse(checks, env).value);
    }
  }

  // The unmodified environment parses exactly when nothing is missing, nothing
  // is refused and what is there is good.
  lemma NoGapsMeansItParses(checks: Checks, env: Env)
    ensures Parse(checks, env).Ok? <==> Expected(checks, env) == [] && !Refused(checks, env) && Parse(checks, FilledIn(checks, env)).Ok?
    ensures Parse(checks, env).Ok? ==> FilledIn(checks, env) == env && Faithful(checks, env, Parse(checks, env).value)
  {
    Stops(checks, env, 0, false);
    hide Parse, Expected, Refused, Faithful, UnsetOf;
    assert Expected(checks, env)[..0] == [];
    assert Stubbed([], false) == map[];
    assert env + map[] == env;
  }

  lemma CleanTogether(a: seq<Check>, b: seq<Check>)
    ensures Clean(a + b) <==> Clean(a) && Clean(b)
  {
    if Clean(a + b) {
      assert forall check :: check in a ==> check in a + b;
      assert forall check :: check in b ==> check in a + b;
    }
  }

  lemma VerdictsClean(c: Config, refuses: bool)
    ensures Clean(Verdicts(c, refuses)) <==> !Keyless(c) && c.webhooks != [] && !refuses
  {
    hide Keyless, AdapterSummary;
    var verdicts := Verdicts(c, refuses);
    assert verdicts[0].status == MissingIf(Keyless(c)) && verdicts[2].status == MissingIf(c.webhooks == []);
    assert verdicts[3].status == MissingIf(refuses);
  }

  predicate LineClean(c: Config, blessed: bool, env: Env, world: World, p: Provider) {
    ProviderLine(c, blessed, env, world, p).status == OK
  }

  ghost predicate AllLinesClean(c: Config, blessed: bool, env: Env, world: World) {
    forall p :: LineClean(c, blessed, env, world, p)
  }

  lemma ProvidersClean(c: Config, blessed: bool, env: Env, world: World)
    ensures Clean(ProviderLines(c, blessed, env, world, |PROVIDERS|)) <==> AllLinesClean(c, blessed, env, world)
  {
    hide ProviderLine;
    var lines := ProviderLines(c, blessed, env, world, |PROVIDERS|);
    if Clean(lines) {
      forall p: Provider
        ensures LineClean(c, blessed, env, world, p)
      {
        assert lines[Place(p)] in lines;
      }
    } else {
      var check :| check in lines && check.status != OK;
      var i :| 0 <= i < |lines| && lines[i] == check;
      assert !LineClean(c, blessed, env, world, PROVIDERS[i]);
    }
  }

  lemma SectionsClean(c: Config, refuses: bool, env: Env, world: World)
    ensures Clean(Sections(c, refuses, env, world)) <==>
      && !Keyless(c) && c.webhooks != [] && !refuses
      && AllLinesClean(c, c.allowMocks && !refuses, env, world)
      && ModelStatus(c, c.allowMocks && !refuses, world) == OK
  {
    hide ModelStatus, AllLinesClean, Verdicts, ProviderLines, Clean, Keyless;
    var blessed := c.allowMocks && !refuses;
    var verdicts, lines := Verdicts(c, refuses), ProviderLines(c, blessed, env, world, |PROVIDERS|);
    var payments, model := [Check(Payments, OK)], [Check(TheModel, ModelStatus(c, blessed, world))];
    VerdictsClean(c, refuses);
    ProvidersClean(c, blessed, env, world);
    OneClean(payments[0]);
    OneClean(model[0]);
    CleanTogether(lines, payments);
    CleanTogether(verdicts, lines + payments);
    CleanTogether(verdicts + (lines + payments), model);
  }

  lemma OneClean(check: Check)
    ensures Clean([check]) <==> check.status == OK
  {
    assert check in [check];
  }

  // ------------------------------------------------------------------
  // What a clean report is worth
  // ------------------------------------------------------------------

  lemma AcceptedIsClean(checks: Checks, env: Env, world: World, p: Provider)
    requires ReadCredentials(checks, env).Ok?
    ensures p.Email? || p.Telephony? ==> (Credential(env, world, p) == OK <==> Accepted(env, world, p))
    ensures p.Browser? || p.Embedder? ==> Credential(env, world, p) == OK
  {
    hide Get, ReadCdp, IsHttp, Trim, IndexOf;
  }

  // A provider's line, over a configuration that may run its mocks.
  lemma LineOf(checks: Checks, env: Env, world: World, c: Config, p: Provider)
    requires ReadCredentials(checks, env) == Ok(c.credentials) && c.mockAdapters == MockAdapters(c.credentials, c.llm)
    requires c.mockAdapters != [] ==> c.allowMocks
    ensures LineClean(c, c.allowMocks, env, world, p) <==>
      (p.Email? || p.Telephony? ==> Accepted(env, world, p))
  {
    hide Get, ReadCredentials, MockAdapters, Credential, Accepted;
    MocksAreTheUnselected(checks, env, c.credentials, c.llm);
    AcceptedIsClean(checks, env, world, p);
    UnsetIsAccepted(env, world, p);
    assert For(p) in c.mockAdapters ==> c.mockAdapters != [];
  }

  lemma LinesOfAll(checks: Checks, env: Env, world: World, c: Config)
    requires ReadCredentials(checks, env) == Ok(c.credentials) && c.mockAdapters == MockAdapters(c.credentials, c.llm)
    requires c.mockAdapters != [] ==> c.allowMocks
    ensures AllLinesClean(c, c.allowMocks, env, world) <==> Accepted(env, world, Email) && Accepted(env, world, Telephony)
  {
    hide Get, ReadCredentials, MockAdapters, Accepted, LineClean;
    forall p: Provider
      ensures LineClean(c, c.allowMocks, env, world, p) <==> (p.Email? || p.Telephony? ==> Accepted(env, world, p))
    {
      LineOf(checks, env, world, c, p);
    }
    assert AllLinesClean(c, c.allowMocks, env, world) ==> LineClean(c, c.allowMocks, env, world, Email) && LineClean(c, c.allowMocks, env, world, Telephony);
  }

  lemma UnsetIsAccepted(env: Env, world: World, p: Provider)
    ensures Get(env, KeyOf(p)).None? ==> Accepted(env, world, p)
  {
  }

  lemma ParsedCredentials(checks: Checks, env: Env)
    requires Parse(checks, env).Ok?
    ensures ReadCredentials(checks, env) == Ok(Parse(checks, env).value.credentials)
  {
    hide FirstUnset, ReadKeys, AfterGuard, MockAdapters, Summarize, Allows, Get, ReadCredentials, EmailBase, Webhooks.Parse;
  }

  // A report with no MISSING line means nothing is wrong with the variables as
  // they are, so that none of them keeps the server from starting; and the report
  // is clean exactly when that holds, one keyring variable names a key, some
  // callback is named, no key is turned down and the model can be reached. The database, which has a
  // section of its own, is not asked here.
  lemma CleanMeansItStarts(checks: Checks, env: Env, world: World, report: seq<Check>)
    requires Reports(checks, env, world, report)
    ensures Clean(report) <==> Healthy(checks, env, world)
  {
    hide Parse, Expected, Refused, FilledIn, Clean, Sound, Healthy, WalkReport, Opening, Sections;
    SoundIsHealthy(checks, env, world);
    NoGapsMeansItParses(checks, env);
    match Parse(checks, FilledIn(checks, env)) {
      case Err(_) =>
        BrokenIsNotClean(checks, env, report);
        UnparsedIsNotSound(checks, env, world);
      case Ok(c) =>
        CleanTogether(Opening(Expected(checks, env)), Sections(c, Refused(checks, env), env, world));
        OpeningClean(Expected(checks, env));
        SectionsClean(c, Refused(checks, env), env, world);
        if Parse(checks, env).Ok? {
          SoundParse(checks, env, world);
        } else {
          UnparsedIsNotSound(checks, env, world);
        }
    }
  }

  lemma ModelMayRun(checks: Checks, env: Env)
    requires Parse(checks, env).Ok?
    ensures var c := Parse(checks, env).value;
      && c.mockAdapters == MockAdapters(c.credentials, c.llm)
      && (c.mockAdapters != [] ==> c.allowMocks)
      && (c.llm.Mock? ==> c.allowMocks)
  {
    hide Parse, AdapterSummary, MockAdapters, Allows;
    GuardIsExact(checks, env);
    var c := Parse(checks, env).value;
    SelectionDecides(c.credentials, c.llm);
    assert c.llm.Mock? ==> Model(c.llm) in c.mockAdapters;
  }

  lemma SoundParse(checks: Checks, env: Env, world: World)
    requires Parse(checks, env).Ok?
    ensures var c := Parse(checks, env).value;
      Sound(checks, env, world) <==>
        (!Keyless(c) && c.webhooks != [] && AllLinesClean(c, c.allowMocks, env, world) && ModelStatus(c, c.allowMocks, world) == OK)
  {
    hide Parse, AllLinesClean, AdapterSummary, MockAdapters, Accepted, Allows, Keyless, ReadCredentials;
    ModelMayRun(checks, env);
    ParsedCredentials(checks, env);
    LinesOfAll(checks, env, world, Parse(checks, env).value);
  }

  lemma UnparsedIsNotSound(checks: Checks, env: Env, world: World)
    requires Parse(checks, env).Err?
    ensures !Sound(checks, env, world)
  {
    hide Parse;
  }

  lemma BrokenIsNotClean(checks: Checks, env: Env, report: seq<Check>)
    requires WalkReport(checks, env, report, false)
    ensures !Clean(report)
  {
    hide Expected, UnsetOf, NotSetLines;
    assert report[|report| - 1] in report;
  }

  lemma OpeningClean(gaps: seq<Var>)
    ensures Clean(Opening(gaps)) <==> gaps == []
  {
    if gaps != [] {
      assert Opening(gaps)[0] in Opening(gaps);
    }
  }

  // The report says a credential is set and the adapter real when the
  // environment holds none, for the browser alone: reached by its own address
  // or by plain fetching, and no key.
  lemma RealWithoutAKey(checks: Checks, env: Env, c: Credentials, llm: Backend, p: Provider)
    requires ReadCredentials(checks, env) == Ok(c)
    ensures For(p) !in MockAdapters(c, llm) && Get(env, KeyOf(p)).None? <==>
      p.Browser? && Get(env, BrowserKey).None? && (Get(env, BrowserCdpUrl).Some? || Get(env, BrowserFetch).Some?)
  {
    hide Get, ReadCredentials, MockAdapters;
    MocksAreTheUnselected(checks, env, c, llm);
  }

  // A mock is reported as fine only where the operator allowed mocks: the flag
  // the loop filled in blesses none.
  lemma BlessedByTheOperator(checks: Checks, env: Env, world: World, p: Provider)
    requires Parse(checks, FilledIn(checks, env)).Ok? && For(p) in Parse(checks, FilledIn(checks, env)).value.mockAdapters
    ensures var c := Parse(checks, FilledIn(checks, env)).value;
      ProviderLine(c, c.allowMocks && !Refused(checks, env), env, world, p)
        == Check(AdapterLine(p, false), if Allows(env) then OK else MISSING)
  {
    hide Parse, Expected, Allows, Faithful, Seen;
    Stops(checks, env, |Expected(checks, env)|, Refused(checks, env));
  }
}
