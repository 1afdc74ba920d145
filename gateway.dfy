/** The inbound side: what the gateway client library delivers about a
    message, reduced to the properties the logger reads. Instants are
    seconds on the UTC time line. */
module Gateway {
  import opened Wrappers

  datatype Channel = Channel(id: string, name: string)
  datatype Guild = Guild(id: string, name: string)
  datatype User = User(id: string, name: string, discriminator: string, isBot: bool)

  /** The message kind: its enum name and whether the platform generated it. */
  datatype MessageType = MessageType(name: string, isSystem: bool)

  datatype InboundAttachment = InboundAttachment(
    id: string, fileName: string, url: string, proxyUrl: string,
    size: int, contentType: Option<string>)

  /** An embed field; the library may leave the name or the value unset. */
  datatype InboundField = InboundField(name: Option<string>, value: Option<string>, isInline: bool)

  datatype Footer = Footer(text: Option<string>)
  datatype EmbedAuthor = EmbedAuthor(name: Option<string>)

  /** An embed. `colorRaw` is always a number (the library has no missing colour). */
  datatype InboundEmbed = InboundEmbed(
    title: Option<string>, description: Option<string>, url: Option<string>,
    colorRaw: int, timestamp: Option<int>, footer: Option<Footer>,
    author: Option<EmbedAuthor>, fields: seq<InboundField>)

  datatype InboundReaction = InboundReaction(emojiName: string, count: int)

  /** A message as delivered: `guild` is absent outside a server. */
  datatype InboundMessage = InboundMessage(
    id: string,
    channel: Channel,
    guild: Option<Guild>,
    author: User,
    contentRaw: string,
    timeCreated: int,
    timeEdited: Option<int>,
    attachments: seq<InboundAttachment>,
    embeds: seq<InboundEmbed>,
    reactions: seq<InboundReaction>,
    messageType: MessageType)

  /** The three message-lifecycle notifications the listener receives. */
  datatype GatewayEvent =
    | MessageReceived(message: InboundMessage, isWebhookMessage: bool)
    | MessageUpdated(message: InboundMessage)
    | MessageDeleted(messageId: string)
}
