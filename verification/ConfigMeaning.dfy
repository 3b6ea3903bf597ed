/** What `Config::parse` owes an operator, read off the variables alone: every
    complaint it can make, in the order it makes them, and what a configuration
    holds when there is none. */
module ConfigMeaning {
  import opened Common
  import opened Text
  import opened Config
  import Keyring
  import Webhooks

  // ------------------------------------------------------------------
  // The variables
  // ------------------------------------------------------------------

  predicate IsSet(env: Env, v: Var) {
    v in env && exists c :: c in env[v] && !IsSpace(c)
  }

  // What is set, without the blanks around it; nothing when unset.
  function Value(env: Env, v: Var): string {
    if v in env then Trim(env[v]) else ""
  }

  lemma GetMeans(env: Env, v: Var)
    ensures Get(env, v) == if IsSet(env, v) then Some(Value(env, v)) else None
    ensures IsSet(env, v) <==> Value(env, v) != ""
  {
    hide Trim;
    if v in env {
      BlankMeans(env[v]);
    }
  }

  lemma AllGetsMean(env: Env)
    ensures forall v :: Get(env, v) == if IsSet(env, v) then Some(Value(env, v)) else None
    ensures forall v :: IsSet(env, v) <==> Value(env, v) != ""
  {
    forall v
      ensures Get(env, v) == if IsSet(env, v) then Some(Value(env, v)) else None
      ensures IsSet(env, v) <==> Value(env, v) != ""
    {
      GetMeans(env, v);
    }
  }

  predicate Flagged(env: Env) {
    Value(env, AllowMocks) == "1" || Value(env, AllowMocks) == "true" || Value(env, AllowMocks) == "yes"
  }

  // The model the variable names, in any case of letters; unset is the mock.
  predicate IsModel(checks: Checks, env: Env, b: Backend) {
    var name := checks.lower(Value(env, LlmVar));
    match b
    case Mock => !IsSet(env, LlmVar) || name == "mock"
    case Cli => IsSet(env, LlmVar) && name == "cli"
    case Anthropic => IsSet(env, LlmVar) && name == "anthropic"
  }

  // Two halves around the first colon, neither of them blank.
  predicate Halves(s: string, left: string, right: string) {
    s == left + [':'] + right && ':' !in left && !Blank(left) && !Blank(right)
  }

  ghost predicate IsPair(s: string) {
    exists left, right :: Halves(s, left, right)
  }

  // A scheme and something after it other than slashes.
  predicate IsOrigin(s: string) {
    exists k :: 0 <= k < |s| && s[k] != '/' && (("http://" <= s && k >= 7) || ("https://" <= s && k >= 8))
  }

  predicate Solves(checks: Checks, s: string, left: string, right: string) {
    Halves(s, left, right) && checks.captcha(Trim(left), Trim(right))
  }

  // ------------------------------------------------------------------
  // The mocks
  // ------------------------------------------------------------------

  // The adapters no variable makes real, in the order of the credential table,
  // and the model unless it is the real one.
  function Unselected(checks: Checks, env: Env): seq<Adapter> {
    (if IsSet(env, EmailKey) then [] else [For(Email)])
    + (if IsSet(env, TelephonyKey) then [] else [For(Telephony)])
    + (if IsSet(env, BrowserKey) || IsSet(env, BrowserCdpUrl) || IsSet(env, BrowserFetch) then [] else [For(Browser)])
    + (if IsSet(env, EmbedderKey) then [] else [For(Embedder)])
    + (if IsModel(checks, env, Mock) then [Model(Mock)] else if IsModel(checks, env, Cli) then [Model(Cli)] else [])
  }

  // What stands behind each port, a browser key before an address of its own
  // before plain fetching.
  function Inventory(checks: Checks, env: Env): seq<(Port, What)> {
    [(Of(Email), if IsSet(env, EmailKey) then Vendor(Email) else MOCK),
     (Of(Telephony), if IsSet(env, TelephonyKey) then Vendor(Telephony) else MOCK),
     (Of(Browser), if IsSet(env, BrowserKey) then Vendor(Browser)
                   else if IsSet(env, BrowserCdpUrl) then Chrome
                   else if IsSet(env, BrowserFetch) then HttpNoJs
                   else MOCK),
     (Of(Embedder), if IsSet(env, EmbedderKey) then Vendor(Embedder) else MOCK),
     (Llm, if IsModel(checks, env, Mock) then MockOf(Mock)
           else if IsModel(checks, env, Cli) then MockOf(Cli)
           else Backed(Anthropic)),
     (Secrets, LocalEnvelope)]
  }

  // ------------------------------------------------------------------
  // The complaints
  // ------------------------------------------------------------------

  const COMPLAINTS := 24

  function When(holds: bool, error: Error): Option<Error> {
    if holds then Some(error) else None
  }

  function Unset(env: Env, v: Var): Option<Error> {
    When(!IsSet(env, v), Missing(v))
  }

  // A variable that is set to something its reader does not take.
  function Bad(env: Env, v: Var, good: bool): Option<Error> {
    When(IsSet(env, v) && !good, Invalid(v))
  }

  // The n-th thing that can be wrong, in the order they are looked at.
  ghost function Complaint(checks: Checks, env: Env, n: nat): Option<Error> {
    match n
    case 0 => Unset(env, PublicHost)
    case 1 => Unset(env, AgentEmailDomain)
    case 2 => Unset(env, DatabaseUrl)
    case 3 => Unset(env, MasterKey)
    case _ => if n < 11 then KeyComplaint(checks, env, n) else LaterComplaint(checks, env, n)
  }

  ghost function KeyComplaint(checks: Checks, env: Env, n: nat): Option<Error> {
    match n
    case 4 => When(!checks.address(if IsSet(env, AppBind) then Value(env, AppBind) else "0.0.0.0:8080"), Invalid(AppBind))
    case 5 => When(!exists keys :: Keyring.HoldsApiKeys(checks.std, Value(env, ApiKeysVar), keys), Invalid(ApiKeysVar))
    case 6 => When(!exists keys :: Keyring.HoldsPlatformKeys(checks.std, Value(env, PlatformKeysVar), keys), Invalid(PlatformKeysVar))
    case 7 => Bad(env, MetricsKey, |checks.std.bytes(Value(env, MetricsKey))| >= 32)
    case 8 => Bad(env, ApprovalNotify, checks.mail(Value(env, ApprovalNotify)))
    case 9 => Bad(env, LlmVar, exists b :: IsModel(checks, env, b))
    case 10 => When(IsModel(checks, env, Anthropic) && !IsSet(env, AnthropicKey), Missing(AnthropicKey))
    case _ => None
  }

  ghost function LaterComplaint(checks: Checks, env: Env, n: nat): Option<Error> {
    match n
    case 11 =>
      (match Webhooks.Parse(checks.std, Value(env, WebhookSecrets))
       case Ok(_) => None
       case Err(refusal) => Some(Webhook(refusal)))
    case 12 => Bad(env, EmailApiBase, Flagged(env) && IsOrigin(Value(env, EmailApiBase)))
    case 13 =>
      (match checks.oauth(Value(env, OauthClientsVar))
       case None => None
       case Some(index) => Some(OauthClientEntry(index)))
    case 14 => Bad(env, TelephonyKey, IsPair(Value(env, TelephonyKey)))
    case 15 => Bad(env, BrowserKey, IsPair(Value(env, BrowserKey)))
    case 16 => When(IsSet(env, BrowserCdpUrl) && IsSet(env, BrowserMaxTabs) && !checks.count(Value(env, BrowserMaxTabs)), Invalid(BrowserMaxTabs))
    case 17 => When(IsSet(env, BrowserCdpUrl) && IsSet(env, BrowserQueueWait) && !checks.count(Value(env, BrowserQueueWait)), Invalid(BrowserQueueWait))
    case 18 => Bad(env, BrowserCdpUrl, checks.cdp(Value(env, BrowserCdpUrl), Value(env, BrowserMaxTabs), Value(env, BrowserQueueWait)))
    case 19 => Bad(env, BrowserFetch, Value(env, BrowserFetch) == "http")
    case 20 => When(!Flagged(env) && Unselected(checks, env) != [], MocksNotAllowed(Unselected(checks, env), Inventory(checks, env)))
    case 21 => Bad(env, BridgeBind, checks.ip(Value(env, BridgeBind)))
    case 22 => When(IsSet(env, BridgeBind) && IsSet(env, BridgesPerTenant) && !checks.count(Value(env, BridgesPerTenant)), Invalid(BridgesPerTenant))
    case 23 => Bad(env, CaptchaKey, exists left, right :: Solves(checks, Value(env, CaptchaKey), left, right))
    case _ => None
  }

  // Nothing is wrong from the i-th on, before the j-th.
  ghost predicate Clear(checks: Checks, env: Env, i: nat, j: nat) {
    forall n: nat :: i <= n < j ==> Complaint(checks, env, n).None?
  }

  // The first thing wrong, from the i-th on.
  ghost predicate FirstWrong(checks: Checks, env: Env, i: nat, e: Error) {
    exists n: nat :: i <= n < COMPLAINTS && Complaint(checks, env, n) == Some(e) && Clear(checks, env, i, n)
  }

  // What a configuration holds.
  ghost predicate Holds(checks: Checks, env: Env, c: Config) {
    && c.allowMocks == Flagged(env)
    && IsModel(checks, env, c.llm)
    && c.anthropicKey == (if IsSet(env, AnthropicKey) then Some(Value(env, AnthropicKey)) else None)
    && Keyring.HoldsApiKeys(checks.std, Value(env, ApiKeysVar), c.apiKeys)
    && Keyring.HoldsPlatformKeys(checks.std, Value(env, PlatformKeysVar), c.platformKeys)
    && Webhooks.Holds(checks.std, Value(env, WebhookSecrets), c.webhooks) && Webhooks.Distinct(c.webhooks)
    && c.mockAdapters == Unselected(checks, env)
    && AdapterSummary(c) == Inventory(checks, env)
    && HoldsCredentials(env, c.credentials)
  }

  predicate HoldsCredentials(env: Env, c: Credentials) {
    && (c.email <==> IsSet(env, EmailKey))
    && (c.telephony <==> IsSet(env, TelephonyKey))
    && (c.browser <==> IsSet(env, BrowserKey))
    && (c.cdp <==> IsSet(env, BrowserCdpUrl))
    && (c.fetchHttp <==> IsSet(env, BrowserFetch))
    && (c.embedder <==> IsSet(env, EmbedderKey))
  }

  // ------------------------------------------------------------------
  // The first complaint from the n-th on
  // ------------------------------------------------------------------

  function Before(a: Option<Error>, b: Option<Error>): Option<Error> {
    if a.Some? then a else b
  }

  ghost function FirstFrom(checks: Checks, env: Env, n: nat): Option<Error>
    decreases COMPLAINTS - n
  {
    if n >= COMPLAINTS then None
    else Before(Complaint(checks, env, n), FirstFrom(checks, env, n + 1))
  }

  lemma {:induction false} FirstFromMeans(checks: Checks, env: Env, n: nat)
    requires n <= COMPLAINTS
    ensures FirstFrom(checks, env, n).None? <==> Clear(checks, env, n, COMPLAINTS)
    ensures forall e :: FirstFrom(checks, env, n) == Some(e) <==> FirstWrong(checks, env, n, e)
    decreases COMPLAINTS - n
  {
    hide Complaint;
    if n < COMPLAINTS {
      FirstFromMeans(checks, env, n + 1);
      if Complaint(checks, env, n).None? {
        forall j: nat | n <= j
          ensures Clear(checks, env, n, j) <==> Clear(checks, env, n + 1, j)
        {
        }
        assert forall e :: FirstWrong(checks, env, n, e) <==> FirstWrong(checks, env, n + 1, e);
      }
    }
  }

  function ErrorOf<T>(r: Result<T, Error>): Option<Error> {
    match r
    case Ok(_) => None
    case Err(e) => Some(e)
  }

  lemma ModelsMean(checks: Checks, env: Env)
    ensures forall b :: Backends(checks, Get(env, LlmVar)) == Some(b) <==> IsModel(checks, env, b)
  {
    AllGetsMean(env);
    hide Get, Value, IsSet;
  }

  lemma LinesHeld(checks: Checks, env: Env)
    ensures forall keys :: (Keyring.ParseApiKeys(checks.std, Value(env, ApiKeysVar)) == Ok(keys)
      <==> Keyring.HoldsApiKeys(checks.std, Value(env, ApiKeysVar), keys))
    ensures forall keys :: (Keyring.ParsePlatformKeys(checks.std, Value(env, PlatformKeysVar)) == Ok(keys)
      <==> Keyring.HoldsPlatformKeys(checks.std, Value(env, PlatformKeysVar), keys))
    ensures forall hooks :: (Webhooks.Parse(checks.std, Value(env, WebhookSecrets)) == Ok(hooks)
      <==> Webhooks.Holds(checks.std, Value(env, WebhookSecrets), hooks) && Webhooks.Distinct(hooks))
  {
    hide Value, Webhooks.Parse, Webhooks.Holds, Webhooks.Distinct, Keyring.ParseApiKeys, Keyring.ParsePlatformKeys, Keyring.HoldsApiKeys, Keyring.HoldsPlatformKeys;
    forall keys
      ensures Keyring.ParseApiKeys(checks.std, Value(env, ApiKeysVar)) == Ok(keys) <==> Keyring.HoldsApiKeys(checks.std, Value(env, ApiKeysVar), keys)
    {
      Keyring.ApiLineMeans(checks.std, Value(env, ApiKeysVar), keys);
    }
    forall keys
      ensures Keyring.ParsePlatformKeys(checks.std, Value(env, PlatformKeysVar)) == Ok(keys) <==> Keyring.HoldsPlatformKeys(checks.std, Value(env, PlatformKeysVar), keys)
    {
      Keyring.PlatformLineMeans(checks.std, Value(env, PlatformKeysVar), keys);
    }
    forall hooks
      ensures Webhooks.Parse(checks.std, Value(env, WebhookSecrets)) == Ok(hooks)
         <==> Webhooks.Holds(checks.std, Value(env, WebhookSecrets), hooks) && Webhooks.Distinct(hooks)
    {
      Webhooks.LineMeans(checks.std, Value(env, WebhookSecrets), hooks);
    }
  }

  lemma KeyringsMean(checks: Checks, env: Env)
    ensures Complaint(checks, env, 5) == When(Keyring.ParseApiKeys(checks.std, Or(Get(env, ApiKeysVar), "")).Err?, Invalid(ApiKeysVar))
    ensures Complaint(checks, env, 6) == When(Keyring.ParsePlatformKeys(checks.std, Or(Get(env, PlatformKeysVar), "")).Err?, Invalid(PlatformKeysVar))
  {
    hide Get, Value, IsSet, Keyring.ParseApiKeys, Keyring.ParsePlatformKeys, Keyring.HoldsApiKeys, Keyring.HoldsPlatformKeys;
    GetMeans(env, ApiKeysVar);
    GetMeans(env, PlatformKeysVar);
    LinesHeld(checks, env);
    var api, platform := Value(env, ApiKeysVar), Value(env, PlatformKeysVar);
    assert Keyring.ParseApiKeys(checks.std, api).Ok? ==> Keyring.HoldsApiKeys(checks.std, api, Keyring.ParseApiKeys(checks.std, api).value);
    assert Keyring.ParsePlatformKeys(checks.std, platform).Ok? ==> Keyring.HoldsPlatformKeys(checks.std, platform, Keyring.ParsePlatformKeys(checks.std, platform).value);
  }

  // The model's own two complaints.
  lemma ModelComplaints(checks: Checks, env: Env)
    ensures Complaint(checks, env, 9) == When(Backends(checks, Get(env, LlmVar)).None?, Invalid(LlmVar))
    ensures Complaint(checks, env, 10) == When(NeedsKey(checks, env), Missing(AnthropicKey))
  {
    ModelsMean(checks, env);
    GetMeans(env, LlmVar);
    GetMeans(env, AnthropicKey);
    hide Get, Value, Backends;
    var spec := Backends(checks, Get(env, LlmVar));
    assert spec.Some? ==> IsModel(checks, env, spec.value);
    assert !IsSet(env, LlmVar) ==> IsModel(checks, env, Mock);
    hide IsModel;
  }

  lemma KeyComplaints(checks: Checks, env: Env)
    ensures var c4, c5, c6 := Complaint(checks, env, 4), Complaint(checks, env, 5), Complaint(checks, env, 6);
      var c7, c8, c9, c10 := Complaint(checks, env, 7), Complaint(checks, env, 8), Complaint(checks, env, 9), Complaint(checks, env, 10);
      ErrorOf(ReadKeys(checks, env)) == Before(c4, Before(c5, Before(c6, Before(c7, Before(c8, Before(c9, c10))))))
  {
    hide Get, Value, IsSet, Backends, IsModel, NeedsKey, Keyring.ParseApiKeys, Keyring.ParsePlatformKeys, Keyring.HoldsApiKeys, Keyring.HoldsPlatformKeys;
    AllGetsMean(env);
    KeyringsMean(checks, env);
    ModelComplaints(checks, env);
  }

  lemma KeysFirst(checks: Checks, env: Env)
    ensures FirstFrom(checks, env, 4) == Before(ErrorOf(ReadKeys(checks, env)), FirstFrom(checks, env, 11))
  {
    hide Complaint, ReadKeys, FirstFrom;
    KeyComplaints(checks, env);
    Unrolled(checks, env, 4);
    Unrolled(checks, env, 7);
    FirstOne(checks, env, 10);
  }

  lemma FirstOne(checks: Checks, env: Env, n: nat)
    requires n < COMPLAINTS
    ensures FirstFrom(checks, env, n) == Before(Complaint(checks, env, n), FirstFrom(checks, env, n + 1))
  {
  }

  lemma Unrolled(checks: Checks, env: Env, n: nat)
    requires n + 3 <= COMPLAINTS
    ensures FirstFrom(checks, env, n)
         == Before(Complaint(checks, env, n), Before(Complaint(checks, env, n + 1), Before(Complaint(checks, env, n + 2), FirstFrom(checks, env, n + 3))))
  {
    hide Complaint;
    FirstOne(checks, env, n);
    FirstOne(checks, env, n + 1);
    FirstOne(checks, env, n + 2);
  }

  // ------------------------------------------------------------------
  // The adapters
  // ------------------------------------------------------------------

  lemma {:induction false} SlashesAside(s: string)
    ensures "http://" <= WithoutSlashes(s) || "https://" <= WithoutSlashes(s) <==> IsOrigin(s)
  {
    if s != "" && s[|s| - 1] == '/' {
      var shorter := s[..|s| - 1];
      SlashesAside(shorter);
      if IsOrigin(s) {
        var k :| 0 <= k < |s| && s[k] != '/' && (("http://" <= s && k >= 7) || ("https://" <= s && k >= 8));
        assert shorter[k] != '/';
      }
    } else if "http://" <= s || "https://" <= s {
      assert s[|s| - 1] != '/';
    }
  }

  lemma EmailBaseMeans(env: Env)
    ensures EmailBase(env) == Bad(env, EmailApiBase, Flagged(env) && IsOrigin(Value(env, EmailApiBase)))
  {
    GetMeans(env, EmailApiBase);
    FlagMeans(env);
    hide Get, Value, IsSet, Allows, Flagged, WithoutSlashes, IsOrigin;
    SlashesAside(Value(env, EmailApiBase));
  }

  lemma FlagMeans(env: Env)
    ensures Allows(env) <==> Flagged(env)
  {
    GetMeans(env, AllowMocks);
    hide Get, Value, IsSet;
  }

  lemma HalvesMean(s: string, left: string, right: string)
    ensures Halves(s, left, right) <==> SplitOnce(s, ':') == Some((left, right)) && Trim(left) != "" && Trim(right) != ""
  {
    SplitIs(s, ':');
    BlankMeans(left);
    BlankMeans(right);
    hide Trim, Blank, SplitOnce;
    if Halves(s, left, right) {
      SplitBack(left, ':', right);
    }
  }

  lemma PairMeans(env: Env, v: Var)
    ensures ErrorOf(SplitPair(env, v)) == Bad(env, v, IsPair(Value(env, v)))
    ensures SplitPair(env, v).Ok? ==> (SplitPair(env, v).value.Some? <==> IsSet(env, v))
  {
    GetMeans(env, v);
    hide Get, Value, IsSet, SplitOnce, Trim, Halves;
    var s := Value(env, v);
    forall left, right
      ensures Halves(s, left, right) <==> SplitOnce(s, ':') == Some((left, right)) && Trim(left) != "" && Trim(right) != ""
    {
      HalvesMean(s, left, right);
    }
    if SplitOnce(s, ':').Some? {
      assert Halves(s, SplitOnce(s, ':').value.0, SplitOnce(s, ':').value.1) ==> IsPair(s);
    }
  }

  lemma CdpMeans(checks: Checks, env: Env)
    ensures ReadCdp(checks, env) == Before(Complaint(checks, env, 16), Before(Complaint(checks, env, 17), Complaint(checks, env, 18)))
  {
    AllGetsMean(env);
    hide Get, Value, IsSet;
  }

  lemma CredentialsFirst(checks: Checks, env: Env)
    ensures FirstFrom(checks, env, 14) == Before(ErrorOf(ReadCredentials(checks, env)), FirstFrom(checks, env, 20))
    ensures ReadCredentials(checks, env).Ok? ==> HoldsCredentials(env, ReadCredentials(checks, env).value)
  {
    hide FirstFrom, ReadCdp, SplitPair, Get, Value, IsSet, IsPair;
    Unrolled(checks, env, 14);
    Unrolled(checks, env, 17);
    CdpMeans(checks, env);
    PairMeans(env, TelephonyKey);
    PairMeans(env, BrowserKey);
    AllGetsMean(env);
  }

  lemma AdaptersFirst(checks: Checks, env: Env)
    ensures FirstFrom(checks, env, 11) == Before(ErrorOf(ReadAdapters(checks, env)), FirstFrom(checks, env, 20))
    ensures ReadAdapters(checks, env).Ok? ==>
      var (webhooks, c) := ReadAdapters(checks, env).value;
      HoldsCredentials(env, c) && Webhooks.Parse(checks.std, Value(env, WebhookSecrets)) == Ok(webhooks)
  {
    hide FirstFrom, ReadCredentials, EmailBase, Get, Value, IsSet, IsPair, IsOrigin, Webhooks.Parse, HoldsCredentials;
    Unrolled(checks, env, 11);
    CredentialsFirst(checks, env);
    EmailBaseMeans(env);
    AllGetsMean(env);
  }

  // ------------------------------------------------------------------
  // The guard and what is read after it
  // ------------------------------------------------------------------

  lemma UnselectedMeans(checks: Checks, env: Env, c: Credentials, llm: Backend)
    requires HoldsCredentials(env, c) && IsModel(checks, env, llm)
    ensures MockAdapters(c, llm) == Unselected(checks, env)
  {
    hide IsSet, IsModel;
    OneModel(checks, env);
    assert MockProviders(c, 1) == if c.email then [] else [For(Email)];
    assert MockProviders(c, 2) == MockProviders(c, 1) + if c.telephony then [] else [For(Telephony)];
    assert MockProviders(c, 3) == MockProviders(c, 2) + if c.browser || c.cdp || c.fetchHttp then [] else [For(Browser)];
    assert MockProviders(c, 4) == MockProviders(c, 3) + if c.embedder then [] else [For(Embedder)];
  }

  lemma OneModel(checks: Checks, env: Env)
    ensures forall a, b :: IsModel(checks, env, a) && IsModel(checks, env, b) ==> a == b
  {
    hide IsSet, Value;
  }

  lemma InventoryMeans(checks: Checks, env: Env, c: Credentials, llm: Backend)
    requires HoldsCredentials(env, c) && IsModel(checks, env, llm)
    ensures Summarize(MockAdapters(c, llm), llm, BrowserLabel(c)) == Inventory(checks, env)
  {
    SelectionDecides(c, llm);
    OneModel(checks, env);
    hide IsSet, IsModel, MockAdapters;
  }

  lemma CaptchaMeans(checks: Checks, env: Env)
    ensures (match SplitPair(env, CaptchaKey)
      case Err(e) => Some(e)
      case Ok(None) => None
      case Ok(Some((provider, key))) => if checks.captcha(provider, key) then None else Some(Invalid(CaptchaKey)))
      == Complaint(checks, env, 23)
  {
    GetMeans(env, CaptchaKey);
    hide Get, Value, IsSet, SplitOnce, Trim, Halves;
    var s := Value(env, CaptchaKey);
    forall left, right
      ensures Halves(s, left, right) <==> SplitOnce(s, ':') == Some((left, right)) && Trim(left) != "" && Trim(right) != ""
    {
      HalvesMean(s, left, right);
    }
    if SplitOnce(s, ':').Some? {
      var (left, right) := SplitOnce(s, ':').value;
      assert Solves(checks, s, left, right) <==> Trim(left) != "" && Trim(right) != "" && checks.captcha(Trim(left), Trim(right));
    }
  }

  lemma LateFirst(checks: Checks, env: Env)
    ensures FirstFrom(checks, env, 21) == AfterGuard(checks, env)
  {
    CaptchaMeans(checks, env);
    Unrolled(checks, env, 21);
    AllGetsMean(env);
    assert FirstFrom(checks, env, 24) == None;
    hide FirstFrom, SplitPair, Get, Value, IsSet, Solves;
  }

  lemma GuardFirst(checks: Checks, env: Env, keys: Keys, webhooks: seq<Webhooks.Registration>, c: Credentials)
    requires HoldsCredentials(env, c) && IsModel(checks, env, keys.llm)
    ensures ErrorOf(Guarded(checks, env, keys, webhooks, c)) == FirstFrom(checks, env, 20)
  {
    FirstOne(checks, env, 20);
    LateFirst(checks, env);
    FlagMeans(env);
    UnselectedMeans(checks, env, c, keys.llm);
    InventoryMeans(checks, env, c, keys.llm);
    hide FirstFrom, AfterGuard, MockAdapters, Summarize, Unselected, Inventory, IsSet, IsModel, Allows, Flagged, BrowserLabel;
  }

  // ------------------------------------------------------------------
  // The parser
  // ------------------------------------------------------------------

  lemma OneRequired(env: Env, v: Var, rest: seq<Var>)
    ensures FirstUnset(env, [v] + rest) == if IsSet(env, v) then FirstUnset(env, rest) else Some(v)
  {
    GetMeans(env, v);
    hide Get, IsSet;
    assert ([v] + rest)[1..] == rest;
  }

  lemma FourRequired(env: Env)
    ensures FirstUnset(env, REQUIRED) ==
      if !IsSet(env, PublicHost) then Some(PublicHost)
      else if !IsSet(env, AgentEmailDomain) then Some(AgentEmailDomain)
      else if !IsSet(env, DatabaseUrl) then Some(DatabaseUrl)
      else if !IsSet(env, MasterKey) then Some(MasterKey)
      else None
  {
    OneRequired(env, MasterKey, []);
    OneRequired(env, DatabaseUrl, [MasterKey]);
    OneRequired(env, AgentEmailDomain, [DatabaseUrl, MasterKey]);
    OneRequired(env, PublicHost, [AgentEmailDomain, DatabaseUrl, MasterKey]);
    assert REQUIRED == [PublicHost] + [AgentEmailDomain, DatabaseUrl, MasterKey];
    assert [AgentEmailDomain] + [DatabaseUrl, MasterKey] == [AgentEmailDomain, DatabaseUrl, MasterKey];
    assert [DatabaseUrl] + [MasterKey] == [DatabaseUrl, MasterKey] && [MasterKey] + [] == [MasterKey];
    assert FirstUnset(env, []) == None;
    hide FirstUnset, IsSet;
  }

  lemma RequiredFirst(checks: Checks, env: Env)
    ensures FirstFrom(checks, env, 0) == (match FirstUnset(env, REQUIRED)
      case Some(v) => Some(Missing(v))
      case None => FirstFrom(checks, env, 4))
  {
    hide FirstFrom, FirstUnset, IsSet;
    Unrolled(checks, env, 0);
    FirstOne(checks, env, 3);
    FourRequired(env);
  }

  lemma KeysRead(checks: Checks, env: Env)
    requires ReadKeys(checks, env).Ok?
    ensures var keys := ReadKeys(checks, env).value;
      && Keyring.ParseApiKeys(checks.std, Value(env, ApiKeysVar)) == Ok(keys.api)
      && Keyring.ParsePlatformKeys(checks.std, Value(env, PlatformKeysVar)) == Ok(keys.platform)
      && IsModel(checks, env, keys.llm)
  {
    AllGetsMean(env);
    ModelsMean(checks, env);
    hide Get, Value, IsSet, IsModel, Backends, NeedsKey, Keyring.ParseApiKeys, Keyring.ParsePlatformKeys;
  }

  lemma ParseFirst(checks: Checks, env: Env)
    ensures ErrorOf(Parse(checks, env)) == FirstFrom(checks, env, 0)
  {
    RequiredFirst(checks, env);
    KeysFirst(checks, env);
    AdaptersFirst(checks, env);
    hide FirstFrom, FirstUnset, ReadKeys, ReadAdapters, Guarded, HoldsCredentials, IsModel;
    if ReadKeys(checks, env).Ok? && ReadAdapters(checks, env).Ok? {
      KeysRead(checks, env);
      var (webhooks, c) := ReadAdapters(checks, env).value;
      GuardFirst(checks, env, ReadKeys(checks, env).value, webhooks, c);
    }
  }

  // The boot stops at the first thing wrong with the variables, and at nothing
  // when none of them is.
  lemma StopsAtTheFirst(checks: Checks, env: Env)
    ensures Parse(checks, env).Ok? <==> Clear(checks, env, 0, COMPLAINTS)
    ensures forall e :: Parse(checks, env) == Err(e) <==> FirstWrong(checks, env, 0, e)
  {
    ParseFirst(checks, env);
    FirstFromMeans(checks, env, 0);
    hide Parse, FirstFrom, Clear, FirstWrong;
  }

  lemma ParsedHolds(checks: Checks, env: Env)
    requires Parse(checks, env).Ok?
    ensures Holds(checks, env, Parse(checks, env).value)
  {
    AdaptersFirst(checks, env);
    FlagMeans(env);
    GetMeans(env, AnthropicKey);
    LinesHeld(checks, env);
    hide FirstUnset, ReadKeys, ReadAdapters, AfterGuard, HoldsCredentials, IsModel, Allows, Flagged, Get, Value, IsSet, MockAdapters, Summarize, BrowserLabel;
    hide Unselected, Inventory, Webhooks.Parse, Webhooks.Holds, Webhooks.Distinct, Keyring.ParseApiKeys, Keyring.ParsePlatformKeys, Keyring.HoldsApiKeys, Keyring.HoldsPlatformKeys;
    KeysRead(checks, env);
    var (webhooks, c) := ReadAdapters(checks, env).value;
    var llm := ReadKeys(checks, env).value.llm;
    UnselectedMeans(checks, env, c, llm);
    InventoryMeans(checks, env, c, llm);
  }

  // A line holds one list of keys and no other, and a model has one name.
  lemma HeldIsOne(checks: Checks, env: Env, a: Config, b: Config)
    requires Holds(checks, env, a) && Holds(checks, env, b)
    ensures a == b
  {
    LinesHeld(checks, env);
    OneModel(checks, env);
    hide Value, IsSet, IsModel, Flagged, Unselected, Inventory, AdapterSummary;
    hide Webhooks.Parse, Webhooks.Holds, Webhooks.Distinct, Keyring.ParseApiKeys, Keyring.ParsePlatformKeys, Keyring.HoldsApiKeys, Keyring.HoldsPlatformKeys;
  }

  // A configuration is what parsing gives exactly when nothing is wrong with
  // the variables and it holds what each of them says.
  lemma ParsedIsHeld(checks: Checks, env: Env, c: Config)
    ensures Parse(checks, env) == Ok(c) <==> Clear(checks, env, 0, COMPLAINTS) && Holds(checks, env, c)
  {
    StopsAtTheFirst(checks, env);
    hide Parse, Clear, Holds;
    if Parse(checks, env).Ok? {
      ParsedHolds(checks, env);
      if Holds(checks, env, c) {
        HeldIsOne(checks, env, c, Parse(checks, env).value);
      }
    }
  }

  // ------------------------------------------------------------------
  // Keys an operator prints
  // ------------------------------------------------------------------

  lemma PrintedIsTheValue(env: Env, v: Var, pieces: seq<string>)
    requires v in env && env[v] == Join(pieces, ',')
    requires forall p :: p in pieces ==> Trimmed(p) && ',' !in p
    ensures Value(env, v) == Join(pieces, ',')
  {
    if pieces != [] {
      JoinTrimmed(pieces, ',');
    }
  }

  // A keyring variable set to a printed list of well-formed entries, in an
  // environment that parses, gives exactly those keys.
  lemma PrintedKeysAreHeld(checks: Checks, env: Env, ws: seq<Keyring.Written>)
    requires forall w :: w in ws ==> Keyring.WellFormed(checks.std, w)
    requires ApiKeysVar in env && env[ApiKeysVar] == Join(Keyring.PrintAll(ws), ',')
    requires Parse(checks, env).Ok?
    ensures var keys := Parse(checks, env).value.apiKeys;
      |keys| == |ws| && forall i :: 0 <= i < |ws| ==> keys[i] == Keyring.KeyOf(checks.std, ws[i])
  {
    hide Parse, Value, Keyring.ParseApiKeys, Keyring.HoldsApiKeys, Keyring.KeyOf, Keyring.PrintAll, Join, Keyring.WellFormed, Trimmed;
    Keyring.PrintedIsClean(checks.std, ws);
    PrintedIsTheValue(env, ApiKeysVar, Keyring.PrintAll(ws));
    Keyring.ApiKeysRoundTrip(checks.std, ws);
    ParsedHolds(checks, env);
    LinesHeld(checks, env);
  }

  lemma PrintedPlatformKeysAreHeld(checks: Checks, env: Env, ks: seq<Keyring.PlatformKey>)
    requires forall k :: k in ks ==> Keyring.WellFormedPlatform(checks.std, k)
    requires PlatformKeysVar in env && env[PlatformKeysVar] == Join(seq(|ks|, i requires 0 <= i < |ks| => Keyring.PrintPlatform(ks[i])), ',')
    requires Parse(checks, env).Ok?
    ensures Parse(checks, env).value.platformKeys == ks
  {
    hide Parse, Value, Keyring.ParsePlatformKeys, Keyring.HoldsPlatformKeys, Keyring.PrintPlatform, Join, Keyring.WellFormedPlatform, Trimmed;
    var printed := seq(|ks|, i requires 0 <= i < |ks| => Keyring.PrintPlatform(ks[i]));
    forall i | 0 <= i < |ks|
      ensures Trimmed(printed[i]) && ',' !in printed[i]
    {
      Keyring.PlatformReadsBack(checks.std, ks[i]);
    }
    PrintedIsTheValue(env, PlatformKeysVar, printed);
    Keyring.PlatformKeysRoundTrip(checks.std, ks);
    ParsedHolds(checks, env);
    LinesHeld(checks, env);
  }
}
