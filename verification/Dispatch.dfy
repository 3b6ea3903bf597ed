/** The outbox dispatch table `handlers` builds. `Handlers::on` overwrites by
    event type, so the order of the registrations decides who reads what. */
module Dispatch {
  import opened Common
  import opened Webhooks

  datatype Reader =
    | OnCreated | OnSuspended | OnResumed | OnTerminated
    | OnStepReady | OnStepNoted | OnStepDisabled
    | OnApprovalRequested | OnTurn | OnContentPublished
    | OnWebhook | OnTelephonyWebhook | OnSmartleadWebhook | OnStripeWebhook

  const TELEPHONY := "twilio"
  const SMARTLEAD := "smartlead"
  const STRIPE := "stripe"
  const EMAIL := "email"

  function ReceivedEvent(provider: string): string {
    "webhook." + provider + ".received"
  }

  // What is registered before any provider is looked at.
  const INTERNAL: map<string, Reader> := map[
    "employee.created" := OnCreated,
    "employee.suspended" := OnSuspended,
    "employee.active" := OnResumed,
    "employee.terminated" := OnTerminated,
    "employee.step.ready" := OnStepReady,
    "employee.step.pending_external" := OnStepNoted,
    "employee.step.failed" := OnStepNoted,
    "employee.step.disabled" := OnStepDisabled,
    "approval.requested" := OnApprovalRequested,
    "agent.turn.requested" := OnTurn,
    "content.published" := OnContentPublished]

  // The reader the four wired providers have, whoever else is registered.
  const WIRED: map<string, Reader> := map[
    EMAIL := OnWebhook, TELEPHONY := OnTelephonyWebhook, SMARTLEAD := OnSmartleadWebhook, STRIPE := OnStripeWebhook]

  lemma ReceivedIsInjective(a: string, b: string)
    requires ReceivedEvent(a) == ReceivedEvent(b)
    ensures a == b
  {
    var pre, post := "webhook.", ".received";
    assert |ReceivedEvent(a)| == |pre| + |a| + |post|;
    forall i | 0 <= i < |a|
      ensures a[i] == b[i]
    {
      assert a[i] == ReceivedEvent(a)[|pre| + i] && b[i] == ReceivedEvent(b)[|pre| + i];
    }
  }

  lemma InternalIsNotReceived(provider: string)
    ensures ReceivedEvent(provider) !in INTERNAL
  {
    assert ReceivedEvent(provider)[0] == 'w';
    assert forall e :: e in INTERNAL ==> e[0] != 'w';
  }

  predicate Registered(hooks: seq<Registration>, provider: string) {
    exists i :: 0 <= i < |hooks| && hooks[i].provider == provider
  }

  // Who reads an event, said without reference to any order.
  function ReaderOf(hooks: seq<Registration>, event: string): Option<Reader> {
    if event in INTERNAL then Some(INTERNAL[event])
    else if event == ReceivedEvent(TELEPHONY) then Some(OnTelephonyWebhook)
    else if event == ReceivedEvent(SMARTLEAD) then Some(OnSmartleadWebhook)
    else if event == ReceivedEvent(STRIPE) then Some(OnStripeWebhook)
    else if event == ReceivedEvent(EMAIL) || exists i :: 0 <= i < |hooks| && ReceivedEvent(hooks[i].provider) == event
    then Some(OnWebhook)
    else None
  }

  // `handlers`: the fixed entries, then one per environment registration, then
  // the wired providers last, so that no registration replaces their readers.
  method Handlers(hooks: seq<Registration>) returns (table: map<string, Reader>)
    ensures forall e :: (e in table <==> ReaderOf(hooks, e).Some?) && (e in table ==> ReaderOf(hooks, e) == Some(table[e]))
  {
    table := INTERNAL;
    for i := 0 to |hooks|
      invariant INTERNAL.Keys <= table.Keys
      invariant forall e :: e in INTERNAL ==> table[e] == INTERNAL[e]
      invariant forall e :: e in table && e !in INTERNAL ==> table[e] == OnWebhook
      invariant forall e :: e in table <==> e in INTERNAL || exists k :: 0 <= k < i && ReceivedEvent(hooks[k].provider) == e
    {
      InternalIsNotReceived(hooks[i].provider);
      hide ReceivedEvent;
      table := table[ReceivedEvent(hooks[i].provider) := OnWebhook];
    }
    InternalIsNotReceived(EMAIL);
    InternalIsNotReceived(TELEPHONY);
    InternalIsNotReceived(SMARTLEAD);
    InternalIsNotReceived(STRIPE);
    WiredAreDistinct();
    hide ReceivedEvent;
    table := table[ReceivedEvent(EMAIL) := OnWebhook];
    table := table[ReceivedEvent(TELEPHONY) := OnTelephonyWebhook];
    table := table[ReceivedEvent(SMARTLEAD) := OnSmartleadWebhook];
    table := table[ReceivedEvent(STRIPE) := OnStripeWebhook];
  }

  // Whom the internal events reach, by name: a turn the agent, a step the
  // provisioner or the log, an approval its notifier.
  lemma InternalReaders(hooks: seq<Registration>)
    ensures ReaderOf(hooks, "employee.created") == Some(OnCreated)
    ensures ReaderOf(hooks, "employee.suspended") == Some(OnSuspended)
    ensures ReaderOf(hooks, "employee.active") == Some(OnResumed)
    ensures ReaderOf(hooks, "employee.terminated") == Some(OnTerminated)
    ensures ReaderOf(hooks, "employee.step.ready") == Some(OnStepReady)
    ensures ReaderOf(hooks, "employee.step.pending_external") == Some(OnStepNoted)
    ensures ReaderOf(hooks, "employee.step.failed") == Some(OnStepNoted)
    ensures ReaderOf(hooks, "employee.step.disabled") == Some(OnStepDisabled)
    ensures ReaderOf(hooks, "approval.requested") == Some(OnApprovalRequested)
    ensures ReaderOf(hooks, "agent.turn.requested") == Some(OnTurn)
    ensures ReaderOf(hooks, "content.published") == Some(OnContentPublished)
    ensures ReceivedEvent("twilio") == "webhook.twilio.received" && ReceivedEvent("email") == "webhook.email.received"
  {
  }

  lemma WiredAreDistinct()
    ensures ReceivedEvent(EMAIL) != ReceivedEvent(TELEPHONY)
    ensures ReceivedEvent(EMAIL) != ReceivedEvent(SMARTLEAD)
    ensures ReceivedEvent(EMAIL) != ReceivedEvent(STRIPE)
    ensures ReceivedEvent(TELEPHONY) != ReceivedEvent(SMARTLEAD)
    ensures ReceivedEvent(TELEPHONY) != ReceivedEvent(STRIPE)
    ensures ReceivedEvent(SMARTLEAD) != ReceivedEvent(STRIPE)
  {
    assert EMAIL[0] == 'e' && TELEPHONY[0] == 't' && SMARTLEAD[1] == 'm' && STRIPE[1] == 't';
    if ReceivedEvent(EMAIL) == ReceivedEvent(TELEPHONY) { ReceivedIsInjective(EMAIL, TELEPHONY); }
    if ReceivedEvent(EMAIL) == ReceivedEvent(SMARTLEAD) { ReceivedIsInjective(EMAIL, SMARTLEAD); }
    if ReceivedEvent(EMAIL) == ReceivedEvent(STRIPE) { ReceivedIsInjective(EMAIL, STRIPE); }
    if ReceivedEvent(TELEPHONY) == ReceivedEvent(SMARTLEAD) { ReceivedIsInjective(TELEPHONY, SMARTLEAD); }
    if ReceivedEvent(TELEPHONY) == ReceivedEvent(STRIPE) { ReceivedIsInjective(TELEPHONY, STRIPE); }
    if ReceivedEvent(SMARTLEAD) == ReceivedEvent(STRIPE) { ReceivedIsInjective(SMARTLEAD, STRIPE); }
  }

  // Whatever the environment registers, under any provider name: the internal
  // events keep their handlers, the wired providers keep their own readers, and
  // every other registered provider, and nothing else, is read as email.
  lemma NobodyIsReplaced(hooks: seq<Registration>, provider: string)
    ensures forall e :: e in INTERNAL ==> ReaderOf(hooks, e) == Some(INTERNAL[e])
    ensures ReaderOf(hooks, ReceivedEvent(provider)) ==
      (if provider in WIRED then Some(WIRED[provider])
       else if Registered(hooks, provider) then Some(OnWebhook)
       else None)
  {
    InternalIsNotReceived(provider);
    forall q | ReceivedEvent(q) == ReceivedEvent(provider)
      ensures q == provider
    {
      ReceivedIsInjective(q, provider);
    }
    WiredAreDistinct();
  }
}
