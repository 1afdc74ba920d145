/** The event listener: a create, update or delete notification from the
    gateway becomes at most one call on the logger service. The listener
    keeps no state of its own, and nothing a call returns or fails with
    reaches the gateway. */
module Listener {
  import opened Gateway
  import opened Repository
  import opened LoggerService

  /** The service call an event leads to. */
  datatype Action =
    | Ignore
    | Log(message: InboundMessage)
    | Update(message: InboundMessage)
    | Delete(messageId: string)

  /** Webhook messages and platform-generated kinds are dropped on create;
      updates and deletes are never filtered. */
  predicate Eligible(isWebhookMessage: bool, m: InboundMessage) {
    !isWebhookMessage && !m.messageType.isSystem
  }

  /** `onMessageReceived`, `onMessageUpdate` and `onMessageDelete`, as the
      call each makes. */
  function Route(e: GatewayEvent): (a: Action)
    ensures e.MessageReceived? && e.isWebhookMessage ==> a == Ignore
    ensures e.MessageReceived? && e.message.messageType.isSystem ==> a == Ignore
    ensures e.MessageReceived? && !e.isWebhookMessage && !e.message.messageType.isSystem ==>
      a == Log(e.message)
    ensures e.MessageUpdated? ==> a == Update(e.message)
    ensures e.MessageDeleted? ==> a == Delete(e.messageId)
    ensures a == Ignore ==> e.MessageReceived?
  {
    match e
    case MessageReceived(m, webhook) => if Eligible(webhook, m) then Log(m) else Ignore
    case MessageUpdated(m) => Update(m)
    case MessageDeleted(id) => Delete(id)
  }

  /** The repository after the service performs `a`. */
  function Apply(s: Store, a: Action, env: Env, f: Faults): (r: Store)
    requires WellFormed(s)
    ensures WellFormed(r)
  {
    match a
    case Ignore => s
    case Log(m) => Ingest(s, m, env, f).store
    case Update(m) => Reconcile(s, m, env, f).store
    case Delete(id) => Retract(s, id, f).store
  }

  /** Handle one event: route it and make the call, discarding its result.
      Every failure the service meets is already absorbed there, so this
      always returns normally. */
  method OnEvent(service: MessageLoggerService, e: GatewayEvent, env: Env, f: Faults)
    requires service.Valid()
    modifies service.repository
    ensures service.Valid()
    ensures service.repository.records == Apply(old(service.repository.records), Route(e), env, f)
  {
    match Route(e)
    case Ignore =>
    case Log(m) =>
      var _ := service.LogMessage(m, env, f);
    case Update(m) =>
      var _ := service.UpdateMessage(m, env, f);
    case Delete(id) =>
      var _ := service.DeleteMessage(id, f);
  }

  /** A create from a webhook or of a system kind leaves the store as it was. */
  lemma IneligibleCreateStoresNothing(s: Store, m: InboundMessage, webhook: bool, env: Env, f: Faults)
    requires WellFormed(s)
    requires webhook || m.messageType.isSystem
    ensures Apply(s, Route(MessageReceived(m, webhook)), env, f) == s
  {
  }

  /** An eligible create of a new message id stores exactly its record. */
  lemma EligibleCreateStores(s: Store, m: InboundMessage, env: Env)
    requires WellFormed(s) && m.id !in s && m.guild.Some?
    requires !m.messageType.isSystem
    ensures var s' := Apply(s, Route(MessageReceived(m, false)), env, NoFaults);
            && s'.Keys == s.Keys + {m.id}
            && Normalises(m, s'[m.id], env.zoneOffset)
            && forall k | k in s :: s'[k] == s[k]
  {
  }

  /** An update of a server message never seen creates it, webhook or
      system kind alike, because updates are not filtered. */
  lemma UpdateOfUnseenCreates(s: Store, m: InboundMessage, env: Env)
    requires WellFormed(s) && m.id !in s && m.guild.Some?
    ensures var s' := Apply(s, Route(MessageUpdated(m)), env, NoFaults);
            && m.id in s'
            && s'[m.id].content == m.contentRaw
            && Normalises(m, s'[m.id], env.zoneOffset)
  {
  }

  /** A direct message is never stored: neither its create nor an update of
      it while unseen changes the store. */
  lemma DirectMessageNeverStored(s: Store, m: InboundMessage, webhook: bool, env: Env, f: Faults)
    requires WellFormed(s) && m.id !in s && m.guild.None?
    ensures Apply(s, Route(MessageReceived(m, webhook)), env, f) == s
    ensures Apply(s, Route(MessageUpdated(m)), env, f) == s
  {
  }

  /** A delete removes exactly the record with the event's message id. */
  lemma DeleteRemovesThatId(s: Store, id: string, env: Env, f: Faults)
    requires WellFormed(s)
    ensures var s' := Apply(s, Route(MessageDeleted(id)), env, f);
            && (id in s' ==> s' == s)
            && forall k | k in s' :: k in s && s'[k] == s[k]
  {
  }
}
