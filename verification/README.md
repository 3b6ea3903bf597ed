# A verified model of the agentos server's hard core

The server answers keyed HTTP requests, delivers an agent's turns from an outbox, limits each
tenant's request rate, leases containers, reads its configuration, and gives its operator a
handful of commands. This project models the parts of it that hold state across failures, or
whose promise spans several functions, and proves those promises: for every input, every run
and every interleaving of crashes, lost writes and other actors the code allows.

`dafny verify dfyconfig.toml` checks everything. Code that changes state in the source is a
class or a loop here, proved equal to a function of the old state; what the source promises is
then proved about that function, over all runs. What one call owes is stated besides without that
function, over the request, the row, the variables or Docker itself, so that the two check each
other.

| file | what it models |
|---|---|
| `Common.dfy`, `Text.dfy` | options, results, and the string operations the parsers use |
| `RateLimiter.dfy` | the fixed-window request budget |
| `Idempotency.dfy`, `Gateway.dfy` | keyed requests: the protocol over all interleavings, and the request path that drives it |
| `Outbox.dfy`, `OutboxSafety.dfy`, `OutboxCeilings.dfy`, `OutboxVerdicts.dfy`, `OutboxWorker.dfy` | the outbox and the turn: leases, the token ledger, replies, dead letters, revival, what parks a message; and one replica's code |
| `Keyring.dfy`, `Webhooks.dfy`, `Dispatch.dfy` | credentials and webhook registrations: reading, looking up, collecting, dispatching |
| `Config.dfy`, `ConfigMeaning.dfy` | the configuration parser and its mock guard; what it owes, read off the variables alone |
| `Doctor.dfy`, `DoctorReport.dfy`, `DoctorMeaning.dfy`, `CurlConfig.dfy` | the diagnosis built on the parser, and its report read off the variables alone |
| `Ports.dfy`, `Bridge.dfy` | the container leases against a Docker that drifts |
| `Promotion.dfy` | a batch promotion that can stop between any two statements |
| `FakeProvider.dfy` | the stand-in mail provider and its restarts |
| `CommandLine.dfy` | the command lines of `policy install` and `flow promote` |

What other crates and libraries decide enters as a parameter or as a step of the environment:
uuids, addresses and slugs are arbitrary functions of their text; the clock, the database's
commits, Docker's commands, the model's outcome and the minted identifiers are inputs. The row
verbs of `crates/store` are modelled after their SQL.

## Where the code and its own words part

The model follows the code. Each of these is proved.

- The rate limiter's comment says a tenant can send twice the limit across a window boundary; it is
  twice the limit less one, and that is reached (`RateLimiter.SlidingBound`,
  `RateLimiter.BoundIsTight`). The count is a `u32`: in a build without overflow checks, 2^32
  arrivals in one window open a second budget (`RateLimiter.WindowBudget`,
  `RateLimiter.WrapBreaksTheBound`); and since the clock is read before the lock is taken, requests
  that wait for it out of order break the bound as well (`RateLimiter.DisorderBreaksTheBound`).
- The record's comment gives a keyed request two ends, stored or given back. There is a third: a crash,
  a response too large to buffer, a claim whose commit is not heard of, or a record that is not
  written leaves the key in flight for good (`Idempotency.WedgedIffNobodyCanSettle`). And a status
  above 599 is not a server error to the code, so a JSON response with one is stored.
- The lease is said to keep a claimed turn to one replica. Over any run that holds exactly when nobody
  is still handling an unfinished row at the end of its lease and nobody revives a row while its
  last attempt is handled (`OutboxSafety.OneReplicaAtATime`). Nothing in the code keeps to either:
  a revival does not ask who holds the row (`OutboxSafety.RevivalBreaksExclusion`), and with no
  turn longer than the deadline the second event of a batch is still running when its lease ends
  (`OutboxSafety.BatchOutlivesItsLease`).
- A ceiling is said to park its message for good. It does exactly when every replica still holding
  the row is bound to park it the same way (`OutboxCeilings.NeverRunAgainIffFrozen`): another
  holder's verdict overwrites the mark.
- `doctor` says a provider's credential is checked only where it is set. A browser reached by its own
  address or by plain fetching is reported real and its key set when there is none
  (`DoctorReport.RealWithoutAKey`).
- An interrupted promotion is said to leave the rest exactly as it was, and a rewrite of the same
  selectors to change nothing. The UPSERT clears the confirmation itself, so the account it
  stopped at is left unconfirmed (`Promotion.StoppedHalfwayRevokes`); a second run still
  converges (`Promotion.RerunConverges`).
- A start that finds no port removes its container, so as to leave none that no lease covers. One is
  left in two ways and no other (`Bridge.CoverageIsExact`): the start's `run` takes effect and its
  answer, the next one, or the removal is lost; or a reaping drops an expired lease and its `rm` has
  no effect. Nothing reaps such a bridge until its binding is asked for again or the server
  restarts (`Bridge.OnlyAnExpiredLeaseStopsIt`).
- The fake provider takes an idempotency key once the body is parsed and before it is used. A body that
  is not JSON changes nothing; JSON that is no object, or whose headers are no mapping, burns the
  key on an identifier nobody can fetch (`FakeProvider.BodiesAndTheKey`,
  `FakeProvider.UnusableTakesTheKey`). A send whose text UTF-8 cannot encode, such as a lone
  surrogate, is served and raises at the journal, neither journalled nor kept
  (`FakeProvider.SentExact`): one line a key, and nothing lost by a restart, hold exactly while no
  write raises (`FakeProvider.SoundIffNoWriteRaises`). It journals before it keeps its state, so a
  process stopped between the two journals the retry again (`FakeProvider.CutShortDoublesTheLine`).
- The layer command takes its flags in any order, except a `--tenant` repeated with another value: the
  last one wins (`CommandLine.LayerInAnyOrder`, `CommandLine.LastTenantWins`). So do the last
  `--tenant` and the last `--by` of a promotion (`CommandLine.PromotionInAnyOrder`,
  `CommandLine.LastOfPromotionWins`).
- A platform key is said to have no room for a tenant. A tenant's entry pasted there is accepted, as a
  key whose secret begins with the tenant (`Keyring.PastedTenantEntry`).

## Model

| member | source | states |
|---|---|---|
| `RateLimiter.Limiter.Allow` | apps/server/src/main.rs:3307-3324 | the tenant's entry is advanced and no other touched; the request is let through exactly while the window's count is within the limit |
| `RateLimiter.Limiter.Serve` | apps/server/src/main.rs:3304-3341 | over a whole run, each verdict is the function `Verdict` of the arrivals so far |
| `RateLimiter.WindowOpens` | apps/server/src/main.rs:3307-3324 | a request opens a window when there is none or sixty seconds after the one there is opened, and never on a clock read before it opened; every other one is counted in it |
| `RateLimiter.TenantsDoNotInterfere` | apps/server/src/main.rs:3304-3324 | a verdict depends on the tenant's own arrival times alone |
| `RateLimiter.SlidingBound` | apps/server/src/main.rs:3294-3324 | at most 2·limit − 1 admissions in any half-open interval of one window's length |
| `RateLimiter.WindowBudget` | apps/server/src/main.rs:3307-3324 | what a window of n arrivals admits, whatever n: its arrivals up to the limit, and a fresh budget at each wrap of the count; within the limit exactly when n < 2^32, and alone over the bound of two windows exactly from n = 2^32 + 599 |
| `RateLimiter.GrantedAlone` | apps/server/src/main.rs:3304-3324 | what one tenant is granted in an interval, among all tenants, equals what it would be granted alone |
| `RateLimiter.TenantBudget` | apps/server/src/main.rs:3294-3324 | the sliding bound for one tenant among any others |
| `RateLimiter.BoundIsTight` | apps/server/src/main.rs:3294-3324 | a run that reaches 2·limit − 1 |
| `RateLimiter.WrapBreaksTheBound` | apps/server/src/main.rs:3304-3324 | ordered arrivals break the bound for every such n |
| `RateLimiter.DisorderBreaksTheBound` | apps/server/src/main.rs:3307-3324 | so do arrivals whose clocks were read out of lock order |
| `Idempotency.Keeps` | apps/server/src/main.rs:3384-3490 | every step of every request, crash or lost write keeps the invariant tying the table, the live requests and the history |
| `Idempotency.Reachable` | apps/server/src/main.rs:3344-3490 | every interleaving from an empty table satisfies it |
| `Idempotency.OneRunInProgress` | apps/server/src/main.rs:3384-3424 | at most one handler run in progress on a key, and the key is in flight under its digest meanwhile |
| `Idempotency.SecondRunFollowsRelease` | apps/server/src/main.rs:3426-3477 | between two runs of one key lies a release of it |
| `Idempotency.RunsWereClaimed` | apps/server/src/main.rs:3384-3424 | every finished run was claimed before, on its key, by its own request and under its own digest |
| `Idempotency.ReplaysAreFaithful` | apps/server/src/main.rs:3404-3412 | a replay carries the status and body of an earlier run by the same tenant, endpoint, key and digest, never a server error |
| `Idempotency.StoredIsFinal` | apps/server/src/main.rs:3439-3477 | once stored, a response is never changed or withdrawn and no run starts |
| `Idempotency.WedgedIffNobodyCanSettle` | apps/server/src/main.rs:3426-3490 | an in-flight key can still be settled exactly while a live request can record it |
| `Idempotency.WedgedStays` | apps/server/src/main.rs:3384-3424 | otherwise it is in flight for ever |
| `Idempotency.DroppedIsOver` | apps/server/src/main.rs:3384-3490 | a dropped, a refused and an unrecorded request leave every key as it stands, and the first and the last are over |
| `Idempotency.RunsUntilStorable` | apps/server/src/main.rs:3344-3490 | repeating a request runs the handler up to the first storable answer and replays that one after |
| `Gateway.Server.ReplayIdempotent` | apps/server/src/main.rs:3352-3424 | one request takes exactly its protocol steps, whatever fails; it leaves every row of another tenant, endpoint or key as it was; what it is told and what becomes of its own row are given by the row it finds, each failure and the handler's answer; a reply from the record is that of an earlier finished run of the same tenant, endpoint, key and digest |
| `Gateway.Server.ClaimStep` | crates/store/src/idempotency.rs:86-151 | the claim and its commit are one protocol step |
| `Gateway.Server.Record` | apps/server/src/main.rs:3433-3490 | the record is one protocol step, and the client gets its response whether or not it was written |
| `Gateway.ApiStack.Serve` | apps/server/src/main.rs:3078-3093 | a caller refused by credential, role or budget changes no idempotency key; one without credential or role spends no budget; any other is told and leaves what the layer below owes it |
| `Gateway.SameKey` | apps/server/src/main.rs:3376-3391 | two claiming requests take the same key exactly when tenant, endpoint and key text are all equal |
| `Gateway.ClaimsExactly` | apps/server/src/main.rs:3352-3382 | a request claims exactly when it mutates, is attributed and buffered, and its key is 8 to 200 graphic characters |
| `Gateway.StepsMean` | apps/server/src/main.rs:3352-3490 | what the protocol steps of one request leave of the table, row by row, from any reachable state |
| `Outbox.Keeps` | apps/server/src/main.rs:2704-3050 | every step of every replica, crash, lost commit and revival keeps the leases, the money and the history |
| `Outbox.ExecKeeps` | apps/server/src/main.rs:2704-3050 | so does every run |
| `OutboxSafety.LedgerNeverOvercharges` | apps/server/src/main.rs:2704-2758 | the ledger is the banked failures plus the committed turns, never above what was spent, and equal to it exactly when no spend was lost |
| `OutboxSafety.PublishedByOneFinishedTurn` | apps/server/src/main.rs:2907-2984 | an event is published exactly when one finished turn of it committed; then, unless that turn's reply is blank, a reply to its message is on file, and it is that turn's if no other event is about the message; a failed turn never publishes |
| `OutboxSafety.RepliesComeFromCommits` | apps/server/src/main.rs:3014-3050 | every reply on file is a committed turn's |
| `OutboxSafety.OneReplyPerMessage` | apps/server/src/main.rs:3014-3038 | a message keeps its first reply for ever |
| `OutboxSafety.RunsAreBounded` | crates/store/src/outbox.rs:599-640 | at most eight model runs of an event per revival |
| `OutboxSafety.DeadLettersWereEarned` | crates/store/src/outbox.rs:852-866 | a dead letter was parked by a terminal verdict or claimed eight times |
| `OutboxSafety.HeldRowsAreNotDue` | apps/server/src/main.rs:185-202 | a row in one replica's hands is not due to another before its lease ends, unless a revival gave it back |
| `OutboxSafety.OneReplicaAtATime` | apps/server/src/main.rs:149-202 | over every run: at no point can an event be handed to a second replica while one handles it, exactly when nobody is still handling an unfinished row at the end of its lease and nobody revives a row being handled |
| `OutboxSafety.DisciplineIsExact` | apps/server/src/main.rs:185-202 | each step within that discipline keeps one holder a row and none of them due; each step outside it makes a held row due |
| `OutboxSafety.DueAgainInHand` | crates/store/src/outbox.rs:599-640 | one held row becomes due exactly when the clock reaches its lease's end with the row unpublished and under eight attempts, or it is revived |
| `OutboxSafety.ContendedIffOverlap` | crates/store/src/outbox.rs:599-640 | a step can give a row a second holder exactly when a held row is due |
| `OutboxSafety.RevivingALastAttempt` | crates/store/src/outbox.rs:1004-1041 | reviving a row whose eighth attempt is running lets a second replica claim it at once |
| `OutboxSafety.RevivalBreaksExclusion` | crates/store/src/outbox.rs:1004-1041 | such a run is reachable from any fresh queue with a due row |
| `OutboxSafety.BatchOutlivesItsLease` | apps/server/src/loops/outbox.rs:253-319 | the second event of a batch can be running after its lease with no handling longer than the deadline |
| `OutboxCeilings.FrozenForGood` | apps/server/src/main.rs:2800-2868 | an event parked on a ceiling, and held by nobody who can say otherwise, is never run or published again, whatever is revived |
| `OutboxCeilings.NeverRunAgainIffFrozen` | apps/server/src/main.rs:2828-2868 | never run again exactly when every remaining holder is bound to park it the same way |
| `OutboxCeilings.CeilingIsBoughtOnce` | apps/server/src/main.rs:2828-2868 | under the leases' discipline a ceiling is bought once |
| `OutboxCeilings.RetriesStayUnmarked` | apps/server/src/main.rs:2760-2887 | in every reachable state a pending retry carries an unmarked reason |
| `OutboxWorker.Replica.ClaimOne` | crates/store/src/outbox.rs:599-640 | claims a row exactly when it is unpublished, tried fewer than eight times and available, as one step of the queue; one more attempt and a lease of two minutes and the jittered wait, and nothing else changes |
| `OutboxWorker.Replica.RequeueDeadLetters` | crates/store/src/outbox.rs:1004-1041 | one tenant's unpublished rows of eight attempts or more and no unremediable mark come back now, with none, and no other row changes; as one step |
| `OutboxWorker.Replica.Fail` | apps/server/src/loops/outbox.rs:378-420 | writes the reason down and parks exactly on a terminal one |
| `OutboxWorker.Replica.BankFailed` | apps/server/src/main.rs:2704-2887 | a failed turn's tokens go down first, unless it never reached the model or the write is lost; the verdict is terminal exactly for an error that ends a turn for good whose bill is heard of, and marked exactly at a ceiling |
| `OutboxWorker.Replica.SettleFinished` | apps/server/src/main.rs:2907-3050 | usage, reply and published mark reach the tables together or not at all |
| `OutboxWorker.Replica.Handle` | apps/server/src/loops/outbox.rs:321-420 | one claimed event takes exactly its steps of the queue, whatever fails, and leaves what `HandledMeans` says |
| `OutboxWorker.HandledMeans` | apps/server/src/main.rs:2704-3050 | what one handling leaves: published exactly when the turn finished and nothing stopped its transaction; a dead letter exactly when a refusal or an error for good was billed and reported; its tokens, its reply and no other row |
| `OutboxVerdicts.ParkedOnlyForGood` | apps/server/src/main.rs:2760-2887 | over every run, a message is parked only by a refusal for good or by a turn of it that ended for good, never by a deadline, an unreachable store, a model out of reach, a halt or an outage; the reason is marked exactly at a ceiling |
| `Outbox.BackoffMeans` | crates/store/src/outbox.rs:735-750 | the wait doubles from one second with each attempt up to an hour, jittered from half of it to half as much again |
| `Keyring.CollectIsExact` | apps/server/src/auth.rs:168-205 | a line is read whole exactly when every entry is good; else the error names the first bad entry among the non-blank ones |
| `Keyring.ApiEntryMeans` | apps/server/src/auth.rs:168-205 | an entry is read as a key exactly when it spells that label, a tenant that is that uuid, and that secret of 32 bytes or more |
| `Keyring.ApiEntryFaults` | apps/server/src/auth.rs:168-205 | which fault an entry is refused for: its shape, a weak secret, or else its tenant |
| `Keyring.ApiLineMeans` | apps/server/src/auth.rs:168-205 | a line gives exactly the keys its non-blank entries spell, in order |
| `Keyring.PlatformLineMeans` | apps/server/src/auth.rs:699-725 | the same for platform keys |
| `Keyring.ApiKeysRoundTrip` | apps/server/src/auth.rs:168-205 | parsing printed well-formed keys gives them back in order, colons in secrets kept |
| `Keyring.PlatformKeysRoundTrip` | apps/server/src/auth.rs:699-725 | the same for platform keys |
| `Keyring.PastedTenantEntry` | apps/server/src/auth.rs:693-725 | a tenant's entry is accepted as a platform key, under another secret |
| `Keyring.CtEqIsEquality` | apps/server/src/auth.rs:230-232 | the or of the xors is zero exactly on equal bytes |
| `Keyring.LookupIsFirstMatch` | apps/server/src/auth.rs:217-226 | a lookup answers the first key with that secret, and nobody exactly when none has it |
| `Keyring.OutageIsNotUnauthorized` | apps/server/src/auth.rs:279-298 | whoever's secret an environment key has is that key's tenant and label, the first deciding; anybody else is what the table says, so a database error surfaces exactly when no environment key matches |
| `Webhooks.ParseWebhooks` | apps/server/src/config.rs:1081-1092 | the loop with its set of seen providers refuses exactly the first provider named twice |
| `Webhooks.FirstBadEntry` | apps/server/src/config.rs:1094-1119 | an entry error names the first bad entry among the non-blank ones |
| `Webhooks.LineMeans` | apps/server/src/config.rs:1070-1119 | a line is accepted as these registrations exactly when its non-blank entries spell them and no two name one provider; else the first repeat is refused |
| `Webhooks.ReadBeforeRepeats` | apps/server/src/config.rs:1070-1119 | an entry is refused exactly when some entry spells no registration, before any repeat is looked for |
| `Webhooks.WebhooksRoundTrip` | apps/server/src/config.rs:1070-1119 | printed registrations are read back whole, or refused on the provider that repeats |
| `Webhooks.EndpointCount` | apps/server/src/main.rs:1155-1172 | collecting into the map loses nothing exactly when no provider repeats |
| `Webhooks.EndpointContents` | apps/server/src/main.rs:1155-1172 | and then each provider keeps its own tenant and secret |
| `Webhooks.AcceptedMeansAllServed` | apps/server/src/main.rs:1155-1172 | what a boot accepts is served whole: one endpoint per non-blank entry |
| `Dispatch.Handlers` | apps/server/src/main.rs:1198-1314 | the table the loop and the ordered registrations build is the order-free `ReaderOf` |
| `Dispatch.NobodyIsReplaced` | apps/server/src/main.rs:1198-1314 | whatever is registered, internal events and the four wired providers keep their readers, and every other registered provider, and nothing else, is read as email |
| `Dispatch.InternalReaders` | apps/server/src/main.rs:1198-1283 | the eleven internal events and who reads each, whatever is registered |
| `Dispatch.ReceivedIsInjective` | apps/server/src/main.rs:1284-1314 | two providers never share a received-event |
| `Config.CollectMocks` | apps/server/src/config.rs:770-792 | the loop pushes exactly the unselected adapters in order, then the model that is not the real one |
| `Config.MocksAreTheUnselected` | apps/server/src/config.rs:760-792 | an adapter is named exactly when no credential selects it, the browser counting three ways |
| `Config.InventoryIsHonest` | apps/server/src/config.rs:991-1040 | the summary says MOCK exactly of what the guard names |
| `Config.GuardIsExact` | apps/server/src/config.rs:794-800 | with the flag the parser never refuses for mocks; without it a parsed configuration has none in its list or its summary |
| `Config.AdaptersAlike` | apps/server/src/config.rs:632-660 | setting the flag changes nothing read before the guard, once it was read without |
| `Config.RefusalTellsTheTruth` | apps/server/src/config.rs:794-800 | the summary and the list inside a refusal are those of the same environment once the flag is set; only what is read after the guard can still stop it |
| `ConfigMeaning.StopsAtTheFirst` | apps/server/src/config.rs:523-869 | the parser fails exactly when one of twenty-four complaints, each stated over the variables, holds, and with the first of them, the guard's list and summary included |
| `ConfigMeaning.ParsedIsHeld` | apps/server/src/config.rs:523-869 | a configuration is the result exactly when there is no complaint and each of its fields is what its variables say: flag, model, model key, both keyrings, registrations, credentials, mocks, inventory |
| `ConfigMeaning.PrintedKeysAreHeld` | apps/server/src/config.rs:547-552 | an environment that parses with its keyring set to printed well-formed entries holds exactly those keys |
| `ConfigMeaning.PrintedPlatformKeysAreHeld` | apps/server/src/config.rs:554-558 | the same for platform keys |
| `Doctor.NextUnset` | apps/server/src/config.rs:523-537 | with the first n unset variables filled in, the parser stops at the next |
| `Doctor.Stops` | apps/server/src/config.rs:523-800 | over any n stubs the parser stops at the next expected variable, at the guard exactly when it would refuse, or at an error no stub mends |
| `Doctor.Walk` | apps/server/src/doctor.rs:282-325 | the stub-and-reparse loop ends, never takes an arm that gives up, and reports exactly the unset required variables and the needed key, once each in order, when filling them in is enough |
| `Doctor.ErrorsStay` | apps/server/src/doctor.rs:316-323 | an error the loop stops at would remain with everything filled in |
| `DoctorReport.Inspect` | apps/server/src/doctor.rs:282-444 | the report is the opening lines, then one line per section, over the configuration the stubs complete |
| `DoctorReport.CleanMeansItStarts` | apps/server/src/doctor.rs:195-199 | of the sections read from the environment, none is MISSING exactly when no complaint holds of the unmodified variables, a keyring variable has a non-blank entry, so has the webhooks', no key is turned down, and the model's program is there or its key of the right form |
| `DoctorMeaning.SaysWhatIsSo` | apps/server/src/doctor.rs:282-444 | when the gaps can be filled, every line of the report and its verdict is what the unmodified variables say; nothing of a stub shows |
| `DoctorMeaning.StopsShortIff` | apps/server/src/doctor.rs:282-325 | the report stops short exactly when a complaint holds that filling in cannot mend |
| `DoctorMeaning.BrokenIsTheFirst` | apps/server/src/doctor.rs:316-323 | and then its last line is the first such complaint, after the variables missing by then |
| `DoctorReport.NoGapsMeansItParses` | apps/server/src/doctor.rs:282-325 | the unmodified environment parses exactly when nothing is missing, nothing refused and what is there is good |
| `DoctorReport.BlessedByTheOperator` | apps/server/src/doctor.rs:434-440 | a mock is reported fine only where the operator's own flag allows it |
| `DoctorReport.RealWithoutAKey` | apps/server/src/doctor.rs:502-527 | the exact case where a key that is not set is reported as set |
| `CurlConfig.TwoPasses` | apps/server/src/doctor.rs:640-645 | the two replacements are one escaping pass |
| `CurlConfig.OtherOrderBreaks` | apps/server/src/doctor.rs:644-644 | in the other order they are not |
| `CurlConfig.QuotedExactly` | apps/server/src/doctor.rs:640-645 | a credential is quoted, as that one pass, exactly when it has no control character |
| `CurlConfig.QuoteRoundTrip` | apps/server/src/doctor.rs:640-645 | a quoted value reads back as it was and ends at the closing quote |
| `CurlConfig.OneDirectiveEach` | apps/server/src/doctor.rs:652-680 | whatever the credential, the file has the writer's lines and no more |
| `Ports.OursIsOurPort` | apps/server/src/bridge.rs:287-294 | the suffix is found exactly after a publication of our port over TCP |
| `Ports.ParseMeans` | apps/server/src/bridge.rs:287-294 | a port is read from one digit or more, after a plus sign or none, and only if it fits in sixteen bits |
| `Ports.PublishedIsHostPort` | apps/server/src/bridge.rs:280-294 | for any listing, colons in addresses included, the host port of the first publication that binds ours |
| `Bridge.NamesAreDistinct` | apps/server/src/bridge.rs:190-200 | two bindings share a name exactly when they are the same binding |
| `Bridge.Containers.Sweep` | apps/server/src/bridge.rs:156-188 | a sweep whose commands answer leaves no marked container, and no sweep removes another |
| `Bridge.Containers.Reap` | apps/server/src/bridge.rs:257-278 | the loop over the expired leases, as a function of the state and the failures |
| `Bridge.Containers.Start` | apps/server/src/bridge.rs:298-430 | a start is the function `Started` of the state and of how each command fares, and gives its caller what `StartedIsOwed` says |
| `Bridge.StartedIsOwed` | apps/server/src/bridge.rs:298-430 | a port is answered exactly when the listing answered and showed a live bridge of that name and package publishing it, or none was shown, the name was free or freed, run and question answered, and the new one runs publishing it; the lease is renewed or granted exactly then, a live bridge is left as it was, and no endpoint is reported exactly when the new one publishes none |
| `Bridge.OkMeansServed` | apps/server/src/bridge.rs:298-430 | a port is answered only for a running container of that name and package publishing it, now freshly leased; an error grants no lease |
| `Bridge.ReapsTheIdle` | apps/server/src/bridge.rs:257-278 | exactly the leases older than the idle time go, and no other container |
| `Bridge.CoverageIsExact` | apps/server/src/bridge.rs:257-430 | a start leaves a running bridge without a lease exactly when it strands the one it runs (the run took effect, a later answer or removal is lost, and no lease is held), or reaps the lease of one whose removal has no effect and which runs on |
| `Bridge.CoveredThroughout` | apps/server/src/bridge.rs:298-430 | if no command fails, every running bridge keeps a lease through any starts and exits |
| `Bridge.CoveredSinceBoot` | apps/server/src/bridge.rs:156-188 | from a swept boot on |
| `Bridge.OnlyAnExpiredLeaseStopsIt` | apps/server/src/bridge.rs:257-278 | other bindings' starts stop a bridge only by its expired lease; one left without a lease, stranded or overlooked, they never stop |
| `Promotion.Database.Promote` | apps/server/src/flow.rs:608-688 | if a named account has no proposal nothing is written and exactly those are listed; otherwise an uninterrupted run writes and confirms every chosen complete proposal field by field, leaves every other account, and lists the refused with their gaps; interrupted, exactly the first statements ran |
| `Promotion.PromotableMeans` | apps/server/src/flow.rs:561-588 | a proposal becomes exactly the flow it holds, or is refused for the first required selector it lacks |
| `Promotion.WritesMeans` | apps/server/src/flow.rs:608-648 | an account is written to exactly when the command chooses a complete proposal for it |
| `Promotion.BatchMeans` | apps/server/src/flow.rs:608-688 | an uninterrupted batch, over the proposals on file and the accounts named |
| `Promotion.Database.PromoteEach` | apps/server/src/flow.rs:650-672 | the loop runs the batch's statements in order, and its counts add up to the batch |
| `Promotion.StoppedAt` | apps/server/src/flow.rs:590-607 | stopped anywhere, an account with nothing promotable is untouched; another is untouched, written unconfirmed, or confirmed by that person |
| `Promotion.StoppedHalfwayRevokes` | crates/store/src/revenue.rs:413-450 | stopped between the two statements, the account has lost whatever confirmation it had |
| `Promotion.AllWrites` | apps/server/src/flow.rs:612-625 | `--all` writes exactly the promotable proposals nobody has confirmed a flow for |
| `Promotion.WholeWrites` | apps/server/src/flow.rs:608-688 | an uninterrupted batch confirms its promotable accounts with what they propose and touches no other |
| `Promotion.RerunConverges` | apps/server/src/flow.rs:590-607 | stopped after any statement and run again by the same person, it ends as one uninterrupted run |
| `FakeProvider.Provider.DoPost` | scripts/faux-resend.py:148-242 | the answer and the whole new state of a write, as a function of the old |
| `FakeProvider.Provider.Create` | scripts/faux-resend.py:151-160 | the search by name finds the domain of that name if there is one |
| `FakeProvider.SendMeans` | scripts/faux-resend.py:198-240 | what a send changes of keys, mail, journal and file, each exactly when it gets that far, and its answer |
| `FakeProvider.DepositMeans` | scripts/faux-resend.py:177-196 | a deposit puts the mail under a fresh identifier with its sender's one header |
| `FakeProvider.CreateMeans` | scripts/faux-resend.py:151-160 | a known name is answered as it stands, a new one is put unverified |
| `FakeProvider.VerifyMeans` | scripts/faux-resend.py:162-175 | one domain is verified at once, keeps its name, and no other changes |
| `FakeProvider.SentIsRead` | scripts/faux-resend.py:142-145 | what was sent is what a read shows, then and after any run that may not forget |
| `FakeProvider.EncodesMeans` | scripts/faux-resend.py:222-238 | mail can be journalled exactly when no lone surrogate is anywhere in it |
| `FakeProvider.AtTheDoor` | scripts/faux-resend.py:113-123 | without a token nothing changes; a process that is down answers nobody; a start has what a readable file holds |
| `FakeProvider.RunKeeps` | scripts/faux-resend.py:151-160 | domain names stay distinct in every run, whatever breaks off or restarts |
| `FakeProvider.SoundIffNoWriteRaises` | scripts/faux-resend.py:49-59 | with a state file, over every run: the journal is exact at every point and a restart at any point would lose nothing, exactly when no write of a request raises |
| `FakeProvider.RunLasts` | scripts/faux-resend.py:49-59 | never restarted, whatever the writes do, or sound throughout and restarted at will: served keys, their mail, and verified domains last |
| `FakeProvider.ServedAnswers` | scripts/faux-resend.py:198-240 | a served key answers its one identifier to any JSON body, unjournalled, and a read of it shows the mail |
| `FakeProvider.JournalOfARun` | scripts/faux-resend.py:198-240 | if no write raises, the journal has one line per keyless send and per key served, each key's under the identifier it answers |
| `FakeProvider.BodiesAndTheKey` | scripts/faux-resend.py:198-221 | a fresh key is left alone exactly by a body that is not JSON, burned exactly by JSON the handler cannot use, and served exactly by a body it can |
| `FakeProvider.SentExact` | scripts/faux-resend.py:198-240 | a first send that is served is journalled exactly when every journalled field encodes and the journal's write goes through, and answered and safe from a restart exactly when the state's does too |
| `FakeProvider.UnusableTakesTheKey` | scripts/faux-resend.py:204-221 | a burned key answers an identifier nobody can fetch; a restart forgets it only if nothing was kept since |
| `FakeProvider.CutShortDoublesTheLine` | scripts/faux-resend.py:222-239 | a process stopped between the journal's line and the state file journals the same key again |
| `FakeProvider.RestartForgets` | scripts/faux-resend.py:254-261 | without a state file the same key is journalled again under another identifier |
| `CommandLine.ParseLayerArgs` | apps/server/src/policy.rs:377-441 | the index loop stays in bounds, ends, and reads what `LayerOf` reads |
| `CommandLine.ParsePromoteArgs` | apps/server/src/flow.rs:322-372 | the same for a promotion |
| `CommandLine.AcceptedIsPrinted` | apps/server/src/policy.rs:364-441 | every accepted line is the words of some flags with values and positionals |
| `CommandLine.MissingValueFails` | apps/server/src/policy.rs:364-369 | a value that is absent or begins with a dash fails, whatever surrounds it, with that flag's own error unless an earlier piece fails first |
| `CommandLine.LayerMeans` | apps/server/src/policy.rs:371-441 | a layer command is accepted exactly with good values, a tenant, one file and at most one scope, and says just that; without a tenant or a file it fails on the first of them |
| `CommandLine.PromotionMeans` | apps/server/src/flow.rs:319-372 | a promotion is accepted exactly with good values, a tenant, a name, and either `--all` or accounts; with good values the error names the first of these that fails |
| `CommandLine.LayerTyped` | apps/server/src/policy.rs:371-441 | the command as it is typed, for any words: which tenant, scope and file it says |
| `CommandLine.PromotionTyped` | apps/server/src/flow.rs:319-372 | the same for a promotion |
| `CommandLine.LayerReordered` | apps/server/src/policy.rs:371-441 | two orders of the same pieces are accepted alike, and say the same exactly when their last `--tenant` does |
| `CommandLine.LayerInAnyOrder` | apps/server/src/policy.rs:371-376 | an accepted command says the same in every order exactly when all its `--tenant`s name one tenant |
| `CommandLine.LastTenantWins` | apps/server/src/policy.rs:397-400 | moving a `--tenant` to the end makes it the one |
| `CommandLine.PromotionReordered` | apps/server/src/flow.rs:319-372 | another order of an accepted promotion's pieces says the same exactly when the last `--tenant`, the last `--by` and the order of the accounts are the same |
| `CommandLine.PromotionInAnyOrder` | apps/server/src/flow.rs:319-372 | it says the same in every order that keeps the accounts in theirs exactly when all its `--tenant`s are one and all its `--by`s are one |
| `CommandLine.LastOfPromotionWins` | apps/server/src/flow.rs:330-338 | moving a `--tenant` or a `--by` to the end makes it the one, and a blank name moved there refuses the command |

## Left out

- RateLimiter.SlidingBound: stated for arrivals whose times do not decrease in lock order and for fewer than 2^32 arrivals in a window, neither of which can be dropped; a build with overflow checks would panic at the wrap.
- Idempotency.ReplaysAreFaithful: says the same digest, not the same body: the digest is a 64-bit hash and two bodies can share one.
- OutboxSafety.OneReplicaAtATime: that a handling ends within its lease is a condition and not a consequence of the constants, since the deadline cancels a turn between its effects and bounds none of them; one clock serves every replica, where the source reads each replica's own before a claim, so a skew between them eats into the lease and is not modelled.
- OutboxSafety.LedgerNeverOvercharges: counts a turn's tokens as one number; the split into input, output and cached tokens and the unmetered mark are not modelled.
- OutboxWorker.Replica.Handle: the turn itself is an outcome, a reply and a token count; prompts, knowledge, tools, the conversation's timestamp and what happens before the model is called, beyond which refusal it is, are not modelled.
- Outbox.OnlyCeilingsAreFinal: the reasons are the model's own short texts where the source formats longer ones, since only whether they carry the mark decides anything.
- Keyring.ApiKeysRoundTrip: white space is the ASCII one throughout `Text`; Unicode spaces and the encoding of strings into bytes are parameters or left out.
- Config.GuardIsExact: values checked by other libraries (addresses, mail addresses, oauth clients, browser addresses, counts, captcha providers) are arbitrary predicates; secrets and defaults that no check reads are not kept in the configuration.
- ConfigMeaning.ParsedIsHeld: says of an adapter's credential that it is there, not its text; so the configuration's fields that no modelled check reads again are not in it.
- DoctorReport.Inspect: the lines hold a subject and a verdict, not their prose; the database section, which needs a connection, and the third verdict it can give are not modelled.
- CurlConfig.OneDirectiveEach: curl itself and the unquoted forms of its configuration are not modelled.
- Ports.PublishedIsHostPort: a port range, as some Docker versions print, is not modelled.
- Bridge.Containers.Start: the endpoint's address, the image, the environment variable and the container's limits are not modelled; starts do not interleave; an instant before the process's clock began is not modelled.
- Promotion.RerunConverges: confirmations are compared by person; their times move with each run.
- Promotion.Database.Promote: one tenant, one operator at a time; a statement the database refuses is an interruption before it.
- FakeProvider.JournalOfARun: in its runs a restart comes between requests, not within one; a line of the journal cut off half-written is not modelled.
- CommandLine.ParseLayerArgs: the other commands' parsers (`set`, `confirm`, `review`, `new-tenant`, `rotate`) have the same shape and add no harder property.
- HTTP plumbing, headers, routes, metrics, logging and rendering: no invariant of their own.
- SQL text, row-level security, migrations other than the confirmation trigger, and the billing and policy evaluation of other crates.
- Password hashing, digests, uuid minting, signals and shutdown.
