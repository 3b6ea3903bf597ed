/** `Config::parse`: which variable or value stops the boot first, what the mock
    guard names, and the one-line adapter inventory. */
module Config {
  import opened Common
  import opened Text
  import Keyring
  import Webhooks

  // The variables the server reads, one constructor per name.
  datatype Var =
    | PublicHost | AgentEmailDomain | DatabaseUrl | MasterKey
    | AppBind | ApiKeysVar | PlatformKeysVar | MetricsKey | ApprovalNotify | LlmVar | AnthropicKey
    | AllowMocks | WebhookSecrets | EmailApiBase | OauthClientsVar
    | EmailKey | TelephonyKey | BrowserKey | BrowserCdpUrl | BrowserMaxTabs | BrowserQueueWait | BrowserFetch | EmbedderKey
    | BridgeBind | BridgesPerTenant | CaptchaKey

  // The process environment, as exported: empty and blank values included.
  type Env = map<Var, string>

  // An exported-but-empty variable counts as unset.
  function Get(env: Env, name: Var): Option<string> {
    if name in env && Trim(env[name]) != "" then Some(Trim(env[name])) else None
  }

  const REQUIRED: seq<Var> := [PublicHost, AgentEmailDomain, DatabaseUrl, MasterKey]

  // The value checks of other libraries, each an arbitrary function of the
  // text: addresses, mail addresses, oauth clients, browser URLs, counts, IP
  // addresses and captcha providers.
  datatype Checks = Checks(std: Keyring.Std, lower: string -> string, address: string -> bool, mail: string -> bool,
                           oauth: string -> Option<nat>, cdp: (string, string, string) -> bool, count: string -> bool,
                           ip: string -> bool, captcha: (string, string) -> bool)

  datatype Backend = Mock | Cli | Anthropic

  datatype Error =
    | Missing(name: Var)
    | Invalid(name: Var)
    | Webhook(refusal: Webhooks.Refusal)
    | OauthClientEntry(index: nat)
    | MocksNotAllowed(adapters: seq<Adapter>, summary: seq<(Port, What)>)

  datatype Credentials = Credentials(email: bool, telephony: bool, browser: bool, cdp: bool, fetchHttp: bool, embedder: bool)

  datatype Config = Config(allowMocks: bool, llm: Backend, anthropicKey: Option<string>,
                           apiKeys: seq<Keyring.ApiKey>, platformKeys: seq<Keyring.PlatformKey>,
                           webhooks: seq<Webhooks.Registration>, credentials: Credentials, mockAdapters: seq<Adapter>)

  // ------------------------------------------------------------------
  // The pieces, in the order they are read
  // ------------------------------------------------------------------

  function FirstUnset(env: Env, names: seq<Var>): Option<Var> {
    if names == [] then None
    else if Get(env, names[0]).None? then Some(names[0])
    else FirstUnset(env, names[1..])
  }

  function Or(value: Option<string>, default: string): string {
    if value.Some? then value.value else default
  }

  function Backends(checks: Checks, spec: Option<string>): Option<Backend> {
    match spec
    case None => Some(Mock)
    case Some(text) =>
      var name := checks.lower(text);
      if name == "mock" then Some(Mock)
      else if name == "cli" then Some(Cli)
      else if name == "anthropic" then Some(Anthropic)
      else None
  }

  predicate Allows(env: Env) {
    Or(Get(env, AllowMocks), "") in {"1", "true", "yes"}
  }

  // The model asked for needs a key and has none.
  predicate NeedsKey(checks: Checks, env: Env) {
    Backends(checks, Get(env, LlmVar)) == Some(Anthropic) && Get(env, AnthropicKey).None?
  }

  datatype Keys = Keys(api: seq<Keyring.ApiKey>, platform: seq<Keyring.PlatformKey>, llm: Backend)

  // Everything read between the required variables and the webhooks.
  function ReadKeys(checks: Checks, env: Env): Result<Keys, Error> {
    if !checks.address(Or(Get(env, AppBind), "0.0.0.0:8080")) then Err(Invalid(AppBind))
    else match Keyring.ParseApiKeys(checks.std, Or(Get(env, ApiKeysVar), ""))
      case Err(_) => Err(Invalid(ApiKeysVar))
      case Ok(api) =>
        match Keyring.ParsePlatformKeys(checks.std, Or(Get(env, PlatformKeysVar), ""))
        case Err(_) => Err(Invalid(PlatformKeysVar))
        case Ok(platform) =>
          var metrics := Get(env, MetricsKey);
          var notify := Get(env, ApprovalNotify);
          if metrics.Some? && |checks.std.bytes(metrics.value)| < Keyring.MIN_SECRET_LEN then Err(Invalid(MetricsKey))
          else if notify.Some? && !checks.mail(notify.value) then Err(Invalid(ApprovalNotify))
          else match Backends(checks, Get(env, LlmVar))
            case None => Err(Invalid(LlmVar))
            case Some(llm) =>
              if NeedsKey(checks, env) then Err(Missing(AnthropicKey))
              else Ok(Keys(api, platform, llm))
  }

  // `trim_end_matches('/')`.
  function WithoutSlashes(s: string): string {
    if s != "" && s[|s| - 1] == '/' then WithoutSlashes(s[..|s| - 1]) else s
  }

  // A redirected mail API is refused wherever mocks are.
  function EmailBase(env: Env): Option<Error> {
    match Get(env, EmailApiBase)
    case None => None
    case Some(raw) =>
      var origin := WithoutSlashes(raw);
      if !Allows(env) then Some(Invalid(EmailApiBase))
      else if "http://" <= origin || "https://" <= origin then None
      else Some(Invalid(EmailApiBase))
  }

  // `split_pair`: unset is no pair; set and not two non-blank halves is refused.
  function SplitPair(env: Env, name: Var): Result<Option<(string, string)>, Error> {
    match Get(env, name)
    case None => Ok(None)
    case Some(raw) =>
      match SplitOnce(raw, ':')
      case None => Err(Invalid(name))
      case Some((left, right)) =>
        if Trim(left) == "" || Trim(right) == "" then Err(Invalid(name))
        else Ok(Some((Trim(left), Trim(right))))
  }

  // The one value of `BROWSER_FETCH`.
  predicate IsHttp(value: string) {
    value == "http"
  }

  function ReadCredentials(checks: Checks, env: Env): Result<Credentials, Error> {
    var telephony, browser, cdp, fetch := SplitPair(env, TelephonyKey), SplitPair(env, BrowserKey), ReadCdp(checks, env), Get(env, BrowserFetch);
    if telephony.Err? then Err(telephony.error)
    else if browser.Err? then Err(browser.error)
    else if cdp.Some? then Err(cdp.value)
    else if fetch.Some? && !IsHttp(fetch.value) then Err(Invalid(BrowserFetch))
    else Ok(Credentials(Get(env, EmailKey).Some?, telephony.value.Some?, browser.value.Some?,
                        Get(env, BrowserCdpUrl).Some?, fetch.Some?, Get(env, EmbedderKey).Some?))
  }

  function ReadCdp(checks: Checks, env: Env): Option<Error> {
    match Get(env, BrowserCdpUrl)
    case None => None
    case Some(url) =>
      var tabs, wait := Get(env, BrowserMaxTabs), Get(env, BrowserQueueWait);
      if tabs.Some? && !checks.count(tabs.value) then Some(Invalid(BrowserMaxTabs))
      else if wait.Some? && !checks.count(wait.value) then Some(Invalid(BrowserQueueWait))
      else if !checks.cdp(url, Or(tabs, ""), Or(wait, "")) then Some(Invalid(BrowserCdpUrl))
      else None
  }

  // Hosting and the captcha solver, read after the guard.
  function AfterGuard(checks: Checks, env: Env): Option<Error> {
    var bind, perTenant := Get(env, BridgeBind), Get(env, BridgesPerTenant);
    if bind.Some? && !checks.ip(bind.value) then Some(Invalid(BridgeBind))
    else if bind.Some? && perTenant.Some? && !checks.count(perTenant.value) then Some(Invalid(BridgesPerTenant))
    else match SplitPair(env, CaptchaKey)
      case Err(e) => Some(e)
      case Ok(None) => None
      case Ok(Some((provider, key))) =>
        if checks.captcha(provider, key) then None else Some(Invalid(CaptchaKey))
  }

  // ------------------------------------------------------------------
  // The mock guard
  // ------------------------------------------------------------------

  // The providers, in the order of the credential table.
  datatype Provider = Email | Telephony | Browser | Embedder

  const PROVIDERS: seq<Provider> := [Email, Telephony, Browser, Embedder]

  // What the guard names: a provider, or a model that is not the real one.
  datatype Adapter = For(provider: Provider) | Model(backend: Backend)

  function Selected(c: Credentials, p: Provider): bool {
    match p
    case Email => c.email
    case Telephony => c.telephony
    case Browser => c.browser || c.cdp || c.fetchHttp
    case Embedder => c.embedder
  }

  function MockModel(llm: Backend): seq<Adapter> {
    if llm.Anthropic? then [] else [Model(llm)]
  }

  function MockProviders(c: Credentials, n: nat): seq<Adapter>
    requires n <= |PROVIDERS|
  {
    if n == 0 then []
    else MockProviders(c, n - 1) + if Selected(c, PROVIDERS[n - 1]) then [] else [For(PROVIDERS[n - 1])]
  }

  function MockAdapters(c: Credentials, llm: Backend): seq<Adapter> {
    MockProviders(c, |PROVIDERS|) + MockModel(llm)
  }

  // The loop that pushes the names.
  method CollectMocks(c: Credentials, llm: Backend) returns (adapters: seq<Adapter>)
    ensures adapters == MockAdapters(c, llm)
  {
    adapters := [];
    for i := 0 to |PROVIDERS|
      invariant adapters == MockProviders(c, i)
    {
      if !Selected(c, PROVIDERS[i]) {
        adapters := adapters + [For(PROVIDERS[i])];
      }
    }
    if !llm.Anthropic? {
      adapters := adapters + [Model(llm)];
    }
  }

  // The inventory: what stands behind each port.
  datatype Port = Of(provider: Provider) | Llm | Secrets

  datatype What = MOCK | MockOf(backend: Backend) | Vendor(provider: Provider) | Chrome | HttpNoJs | Backed(backend: Backend) | LocalEnvelope

  predicate IsMock(what: What) {
    what.MOCK? || what.MockOf?
  }

  function BrowserLabel(c: Credentials): Option<What> {
    if c.browser then None
    else if c.cdp then Some(Chrome)
    else if c.fetchHttp then Some(HttpNoJs)
    else None
  }

  function Behind(adapters: seq<Adapter>, browser: Option<What>, p: Provider): What {
    if For(p) in adapters then MOCK
    else if p.Browser? && browser.Some? then browser.value
    else Vendor(p)
  }

  function Summarize(adapters: seq<Adapter>, llm: Backend, browser: Option<What>): seq<(Port, What)> {
    seq(|PROVIDERS|, i requires 0 <= i < |PROVIDERS| => (Of(PROVIDERS[i]), Behind(adapters, browser, PROVIDERS[i])))
    + [(Llm, if llm.Anthropic? then Backed(llm) else MockOf(llm)), (Secrets, LocalEnvelope)]
  }

  function AdapterSummary(c: Config): seq<(Port, What)> {
    Summarize(c.mockAdapters, c.llm, BrowserLabel(c.credentials))
  }

  // ------------------------------------------------------------------
  // The parser
  // ------------------------------------------------------------------

  // From the webhooks up to the guard.
  function ReadAdapters(checks: Checks, env: Env): Result<(seq<Webhooks.Registration>, Credentials), Error> {
    match Webhooks.Parse(checks.std, Or(Get(env, WebhookSecrets), ""))
    case Err(e) => Err(Webhook(e))
    case Ok(webhooks) =>
      if EmailBase(env).Some? then Err(EmailBase(env).value)
      else match checks.oauth(Or(Get(env, OauthClientsVar), ""))
        case Some(index) => Err(OauthClientEntry(index))
        case None =>
          match ReadCredentials(checks, env)
          case Err(e) => Err(e)
          case Ok(credentials) => Ok((webhooks, credentials))
  }

  // The guard and what follows it.
  function Guarded(checks: Checks, env: Env, keys: Keys, webhooks: seq<Webhooks.Registration>, c: Credentials): Result<Config, Error> {
    var mocks := MockAdapters(c, keys.llm);
    if mocks != [] && !Allows(env) then Err(MocksNotAllowed(mocks, Summarize(mocks, keys.llm, BrowserLabel(c))))
    else if AfterGuard(checks, env).Some? then Err(AfterGuard(checks, env).value)
    else Ok(Config(Allows(env), keys.llm, Get(env, AnthropicKey), keys.api, keys.platform, webhooks, c, mocks))
  }

  function Parse(checks: Checks, env: Env): Result<Config, Error> {
    match FirstUnset(env, REQUIRED)
    case Some(name) => Err(Missing(name))
    case None =>
      match ReadKeys(checks, env)
      case Err(e) => Err(e)
      case Ok(keys) =>
        match ReadAdapters(checks, env)
        case Err(e) => Err(e)
        case Ok((webhooks, credentials)) => Guarded(checks, env, keys, webhooks, credentials)
  }

  // ------------------------------------------------------------------
  // What the guard names and what the inventory says
  // ------------------------------------------------------------------

  function Place(p: Provider): (i: nat)
    ensures i < |PROVIDERS| && PROVIDERS[i] == p
  {
    match p
    case Email => 0
    case Telephony => 1
    case Browser => 2
    case Embedder => 3
  }

  lemma {:induction false} MockProvidersAre(c: Credentials, n: nat)
    requires n <= |PROVIDERS|
    ensures forall p :: For(p) in MockProviders(c, n) <==> Place(p) < n && !Selected(c, p)
    ensures forall m :: m in MockProviders(c, n) ==> m.For?
  {
    if n > 0 {
      MockProvidersAre(c, n - 1);
    }
  }

  lemma SelectionDecides(c: Credentials, llm: Backend)
    ensures forall p :: For(p) in MockAdapters(c, llm) <==> !Selected(c, p)
    ensures forall b :: Model(b) in MockAdapters(c, llm) <==> b == llm && !llm.Anthropic?
  {
    MockProvidersAre(c, |PROVIDERS|);
  }

  // The mock list is exactly the adapters no credential selects, the browser
  // being selected three ways, plus a model that is not the real one.
  lemma MocksAreTheUnselected(checks: Checks, env: Env, c: Credentials, llm: Backend)
    requires ReadCredentials(checks, env) == Ok(c)
    ensures var mocks := MockAdapters(c, llm);
      && (For(Email) in mocks <==> Get(env, EmailKey).None?)
      && (For(Telephony) in mocks <==> Get(env, TelephonyKey).None?)
      && (For(Browser) in mocks <==> Get(env, BrowserKey).None? && Get(env, BrowserCdpUrl).None? && Get(env, BrowserFetch).None?)
      && (For(Embedder) in mocks <==> Get(env, EmbedderKey).None?)
      && (forall b :: Model(b) in mocks <==> b == llm && !llm.Anthropic?)
  {
    SelectionDecides(c, llm);
    hide MockAdapters, Get, ReadCdp, Trim, SplitOnce, IsHttp;
  }

  // The inventory says MOCK of an adapter exactly when the guard would name it.
  lemma InventoryIsHonest(c: Credentials, llm: Backend)
    ensures var mocks := MockAdapters(c, llm);
      var summary := Summarize(mocks, llm, BrowserLabel(c));
      && (forall p :: (Of(p), MOCK) in summary <==> !Selected(c, p))
      && ((Llm, MockOf(llm)) in summary <==> !llm.Anthropic?)
      && (mocks == [] ==> forall entry :: entry in summary ==> !IsMock(entry.1))
  {
    var mocks := MockAdapters(c, llm);
    SelectionDecides(c, llm);
    assert mocks == [] ==> Model(llm) !in mocks;
    assert mocks == [] ==> forall p :: For(p) !in mocks;
    hide MockAdapters, Selected;
    var summary := Summarize(mocks, llm, BrowserLabel(c));
    forall p: Provider
      ensures (Of(p), MOCK) in summary <==> For(p) in mocks
    {
      var i := Place(p);
      assert summary[i] == (Of(p), Behind(mocks, BrowserLabel(c), p));
    }
    assert summary[|PROVIDERS|].0 == Llm;
  }

  // Nothing read before the guard refuses for mocks, and of what is read after
  // the required variables only the model's key can be missing.
  lemma KeyErrors(checks: Checks, env: Env)
    ensures match ReadKeys(checks, env)
      case Err(e) => !e.MocksNotAllowed? && (e.Missing? ==> e.name == AnthropicKey && NeedsKey(checks, env))
      case Ok(keys) => Backends(checks, Get(env, LlmVar)) == Some(keys.llm) && !NeedsKey(checks, env)
  {
    hide Get, Backends, Keyring.ParseApiKeys, Keyring.ParsePlatformKeys;
  }

  lemma PairErrors(env: Env, name: Var)
    ensures SplitPair(env, name).Err? ==> SplitPair(env, name).error == Invalid(name)
  {
    hide Get, Trim, SplitOnce;
  }

  lemma AdapterErrors(checks: Checks, env: Env)
    ensures match ReadAdapters(checks, env)
      case Err(e) => !e.MocksNotAllowed? && !e.Missing?
      case Ok(_) => true
  {
    hide Get, Allows, WithoutSlashes, Webhooks.Parse, SplitPair;
    PairErrors(env, TelephonyKey);
    PairErrors(env, BrowserKey);
  }

  lemma LateErrors(checks: Checks, env: Env)
    ensures match AfterGuard(checks, env)
      case Some(e) => !e.MocksNotAllowed? && !e.Missing?
      case None => true
  {
    hide Get, SplitPair;
    PairErrors(env, CaptchaKey);
  }

  // With the flag set the parser never refuses for mocks; without it a parsed
  // configuration has none, and its inventory says so.
  lemma GuardIsExact(checks: Checks, env: Env)
    ensures Allows(env) ==> !(Parse(checks, env).Err? && Parse(checks, env).error.MocksNotAllowed?)
    ensures Parse(checks, env).Ok? ==>
      var c := Parse(checks, env).value;
      && c.allowMocks == Allows(env)
      && c.mockAdapters == MockAdapters(c.credentials, c.llm)
      && (!Allows(env) ==> c.mockAdapters == [] && forall entry :: entry in AdapterSummary(c) ==> !IsMock(entry.1))
  {
    hide ReadKeys, ReadAdapters, AfterGuard, FirstUnset, Allows, Get;
    KeyErrors(checks, env);
    AdapterErrors(checks, env);
    LateErrors(checks, env);
    if Parse(checks, env).Ok? {
      var c := Parse(checks, env).value;
      InventoryIsHonest(c.credentials, c.llm);
    }
    hide MockAdapters, Summarize;
  }

  // ------------------------------------------------------------------
  // Setting variables
  // ------------------------------------------------------------------

  // Two environments that read alike in everything but one variable.
  ghost predicate AlikeBut(a: Env, b: Env, name: Var) {
    forall other :: other != name ==> Get(a, other) == Get(b, other)
  }

  // The variables a diagnosis may fill in: the required ones, the model's key
  // and the allow flag.
  predicate Fillable(name: Var) {
    name in REQUIRED || name == AnthropicKey || name == AllowMocks
  }

  // Two environments that read alike in every variable that holds a value to
  // be parsed.
  ghost predicate AlikeInValues(a: Env, b: Env) {
    forall name :: !Fillable(name) ==> Get(a, name) == Get(b, name)
  }

  lemma SettingOne(env: Env, name: Var, value: string)
    ensures AlikeBut(env, env[name := value], name)
    ensures Trim(value) != "" ==> Get(env[name := value], name) == Some(Trim(value))
  {
    hide Trim;
  }

  lemma {:induction false} UnsetTogether(a: Env, b: Env, names: seq<Var>)
    requires forall name :: name in names ==> Get(a, name) == Get(b, name)
    ensures FirstUnset(a, names) == FirstUnset(b, names)
  {
    hide Get;
    if names != [] {
      UnsetTogether(a, b, names[1..]);
    }
  }

  lemma RequiredAlike(a: Env, b: Env)
    requires AlikeBut(a, b, AllowMocks)
    ensures FirstUnset(a, REQUIRED) == FirstUnset(b, REQUIRED)
  {
    hide Get, FirstUnset;
    UnsetTogether(a, b, REQUIRED);
  }

  lemma KeysAlike(checks: Checks, a: Env, b: Env)
    requires AlikeBut(a, b, AllowMocks)
    ensures ReadKeys(checks, a) == ReadKeys(checks, b)
    ensures Get(a, AnthropicKey) == Get(b, AnthropicKey)
  {
    hide Get, Keyring.ParseApiKeys, Keyring.ParsePlatformKeys;
  }

  lemma PairsAlike(a: Env, b: Env, name: Var)
    requires Get(a, name) == Get(b, name)
    ensures SplitPair(a, name) == SplitPair(b, name)
  {
    hide Get, Trim, SplitOnce;
  }

  lemma CdpAlike(checks: Checks, a: Env, b: Env)
    requires AlikeInValues(a, b)
    ensures ReadCdp(checks, a) == ReadCdp(checks, b)
  {
    hide Get;
  }

  lemma CredentialsAlike(checks: Checks, a: Env, b: Env)
    requires AlikeInValues(a, b)
    ensures ReadCredentials(checks, a) == ReadCredentials(checks, b)
  {
    hide Get, SplitPair, ReadCdp, IsHttp;
    PairsAlike(a, b, TelephonyKey);
    PairsAlike(a, b, BrowserKey);
    CdpAlike(checks, a, b);
    assert Get(a, BrowserFetch) == Get(b, BrowserFetch) && Get(a, EmailKey) == Get(b, EmailKey);
    assert Get(a, EmbedderKey) == Get(b, EmbedderKey) && Get(a, BrowserCdpUrl) == Get(b, BrowserCdpUrl);
  }

  lemma AfterGuardAlike(checks: Checks, a: Env, b: Env)
    requires AlikeInValues(a, b)
    ensures AfterGuard(checks, a) == AfterGuard(checks, b)
  {
    hide Get, SplitPair;
    PairsAlike(a, b, CaptchaKey);
  }

  lemma NoRedirectWithoutTheFlag(a: Env, b: Env)
    requires AlikeInValues(a, b)
    requires EmailBase(a).None? && !Allows(a)
    ensures EmailBase(b).None?
  {
    hide Get, Allows, WithoutSlashes;
    assert !Fillable(EmailApiBase);
  }

  lemma AdaptersSame(checks: Checks, a: Env, b: Env)
    requires AlikeInValues(a, b) && Get(a, AllowMocks) == Get(b, AllowMocks)
    ensures ReadAdapters(checks, a) == ReadAdapters(checks, b)
  {
    hide Get, WithoutSlashes, Webhooks.Parse, ReadCredentials;
    CredentialsAlike(checks, a, b);
    assert !Fillable(WebhookSecrets) && !Fillable(OauthClientsVar) && !Fillable(EmailApiBase);
  }

  // A redirected mail API is the one thing before the guard the flag changes.
  lemma AdaptersAlike(checks: Checks, a: Env, b: Env)
    requires AlikeInValues(a, b)
    requires ReadAdapters(checks, a).Ok? && !Allows(a)
    ensures ReadAdapters(checks, b) == ReadAdapters(checks, a)
  {
    hide Get, Allows, Webhooks.Parse, ReadCredentials, EmailBase, WithoutSlashes;
    CredentialsAlike(checks, a, b);
    NoRedirectWithoutTheFlag(a, b);
    assert Get(a, WebhookSecrets) == Get(b, WebhookSecrets) && Get(a, OauthClientsVar) == Get(b, OauthClientsVar) by {
      assert !Fillable(WebhookSecrets) && !Fillable(OauthClientsVar);
    }
    hide AlikeInValues, Fillable;
  }

  // What a parse that reaches the guard has read.
  ghost predicate Reads(checks: Checks, env: Env, keys: Keys, webhooks: seq<Webhooks.Registration>, c: Credentials) {
    && FirstUnset(env, REQUIRED).None?
    && ReadKeys(checks, env) == Ok(keys)
    && ReadAdapters(checks, env) == Ok((webhooks, c))
  }

  lemma ParseGuards(checks: Checks, env: Env, keys: Keys, webhooks: seq<Webhooks.Registration>, c: Credentials)
    requires Reads(checks, env, keys, webhooks, c)
    ensures Parse(checks, env) == Guarded(checks, env, keys, webhooks, c)
  {
    hide ReadKeys, ReadAdapters, Guarded, FirstUnset;
  }

  lemma RefusedAtTheGuard(checks: Checks, env: Env) returns (keys: Keys, webhooks: seq<Webhooks.Registration>, c: Credentials)
    requires Parse(checks, env).Err? && Parse(checks, env).error.MocksNotAllowed?
    ensures Reads(checks, env, keys, webhooks, c) && !Allows(env)
  {
    hide ReadKeys, ReadAdapters, MockAdapters, Summarize, FirstUnset, Allows, Get, AfterGuard;
    KeyErrors(checks, env);
    AdapterErrors(checks, env);
    LateErrors(checks, env);
    keys := ReadKeys(checks, env).value;
    webhooks, c := ReadAdapters(checks, env).value.0, ReadAdapters(checks, env).value.1;
  }

  lemma ReadsAlike(checks: Checks, a: Env, b: Env, keys: Keys, webhooks: seq<Webhooks.Registration>, c: Credentials)
    requires AlikeBut(a, b, AllowMocks)
    requires Reads(checks, a, keys, webhooks, c) && !Allows(a)
    ensures Reads(checks, b, keys, webhooks, c)
  {
    RequiredAlike(a, b);
    KeysAlike(checks, a, b);
    AdaptersAlike(checks, a, b);
    hide ReadKeys, ReadAdapters, Allows, Get, AlikeBut, FirstUnset;
  }

  // The inventory inside a refusal is the one the same environment gives once
  // the operator adds the flag and it parses; and only what is read after the
  // guard can still stop it.
  lemma RefusalTellsTheTruth(checks: Checks, env: Env, flag: string)
    requires Parse(checks, env).Err? && Parse(checks, env).error.MocksNotAllowed?
    requires Allows(env[AllowMocks := flag])
    ensures var refused := Parse(checks, env).error;
      match Parse(checks, env[AllowMocks := flag])
      case Ok(c) => AdapterSummary(c) == refused.summary && c.mockAdapters == refused.adapters && c.allowMocks
      case Err(e) => AfterGuard(checks, env) == Some(e)
  {
    var allowed := env[AllowMocks := flag];
    SettingOne(env, AllowMocks, flag);
    AfterGuardAlike(checks, env, allowed);
    var keys, webhooks, c := RefusedAtTheGuard(checks, env);
    ReadsAlike(checks, env, allowed, keys, webhooks, c);
    ParseGuards(checks, env, keys, webhooks, c);
    ParseGuards(checks, allowed, keys, webhooks, c);
    hide Parse, Reads, AlikeBut, AfterGuard, MockAdapters, Summarize, Get, Allows, BrowserLabel;
  }
}
