/** The normalised records the logger persists: one `Message` per Discord
    message, owning its attachments, embeds and reactions. Timestamps are
    local date-times, represented as an ordered count of seconds. */
module Model {
  import opened Wrappers

  /** A file attached to a message; `size` is in bytes. */
  datatype Attachment = Attachment(
    id: string,
    filename: string,
    url: string,
    proxyUrl: string,
    size: int,
    contentType: Option<string>)

  /** One name/value row of an embed: both are always present. */
  datatype EmbedField = EmbedField(name: string, value: string, inline: bool)

  /** A rich embed; every scalar part is optional and `fields` defaults to empty. */
  datatype Embed = Embed(
    title: Option<string>,
    description: Option<string>,
    url: Option<string>,
    color: Option<int>,
    timestamp: Option<int>,
    footerText: Option<string>,
    authorName: Option<string>,
    fields: seq<EmbedField> := [])

  /** An emoji reaction and how many users reacted; `users` defaults to empty. */
  datatype Reaction = Reaction(emoji: string, count: int, users: seq<string> := [])

  /** A logged message. `id` is the database's own identifier, absent until
      the record is first saved; `messageId` is Discord's. Besides that
      identifier, only the guild and the edit time may be absent. */
  datatype Message = Message(
    id: Option<string> := None,
    messageId: string,
    channelId: string,
    channelName: string,
    guildId: Option<string>,
    guildName: Option<string>,
    authorId: string,
    authorName: string,
    authorDiscriminator: string,
    content: string,
    timestamp: int,
    editedTimestamp: Option<int> := None,
    attachments: seq<Attachment> := [],
    embeds: seq<Embed> := [],
    reactions: seq<Reaction> := [],
    isBot: bool := false,
    messageType: string := "DEFAULT")

  /** A message built from its required properties only: every property
      with a default takes it. */
  function NewMessage(
    messageId: string, channelId: string, channelName: string,
    guildId: Option<string>, guildName: Option<string>,
    authorId: string, authorName: string, authorDiscriminator: string,
    content: string, timestamp: int): (m: Message)
    ensures m.id == None && m.editedTimestamp == None
    ensures m.attachments == [] && m.embeds == [] && m.reactions == []
    ensures !m.isBot && m.messageType == "DEFAULT"
    ensures m.messageId == messageId && m.channelId == channelId && m.channelName == channelName
    ensures m.guildId == guildId && m.guildName == guildName
    ensures m.authorId == authorId && m.authorName == authorName
    ensures m.authorDiscriminator == authorDiscriminator
    ensures m.content == content && m.timestamp == timestamp
  {
    Message(messageId := messageId, channelId := channelId, channelName := channelName,
            guildId := guildId, guildName := guildName, authorId := authorId,
            authorName := authorName, authorDiscriminator := authorDiscriminator,
            content := content, timestamp := timestamp)
  }

  /** An embed built without fields has none. */
  function NewEmbed(
    title: Option<string>, description: Option<string>, url: Option<string>,
    color: Option<int>, timestamp: Option<int>, footerText: Option<string>,
    authorName: Option<string>): (e: Embed)
    ensures e.fields == []
    ensures e.title == title && e.description == description && e.url == url
    ensures e.color == color && e.timestamp == timestamp
    ensures e.footerText == footerText && e.authorName == authorName
  {
    Embed(title, description, url, color, timestamp, footerText, authorName)
  }

  /** A reaction built from an emoji and a count records no users. */
  function NewReaction(emoji: string, count: int): (r: Reaction)
    ensures r.users == [] && r.emoji == emoji && r.count == count
  {
    Reaction(emoji, count)
  }

  /** Every property of `m'` other than the content, the edit time, the
      attachments and the embeds equals that of `m`. */
  predicate SameExceptEdit(m: Message, m': Message) {
    && m'.id == m.id
    && m'.messageId == m.messageId
    && m'.channelId == m.channelId
    && m'.channelName == m.channelName
    && m'.guildId == m.guildId
    && m'.guildName == m.guildName
    && m'.authorId == m.authorId
    && m'.authorName == m.authorName
    && m'.authorDiscriminator == m.authorDiscriminator
    && m'.timestamp == m.timestamp
    && m'.reactions == m.reactions
    && m'.isBot == m.isBot
    && m'.messageType == m.messageType
  }

  /** The data-class `copy` that an edit performs: the four named properties
      take the new values and nothing else changes. */
  function WithEdit(
    m: Message, content: string, editedAt: int,
    attachments: seq<Attachment>, embeds: seq<Embed>): (r: Message)
    ensures r.content == content && r.editedTimestamp == Some(editedAt)
    ensures r.attachments == attachments && r.embeds == embeds
    ensures SameExceptEdit(m, r)
    ensures r.(content := m.content, editedTimestamp := m.editedTimestamp,
               attachments := m.attachments, embeds := m.embeds) == m
  {
    m.(content := content, editedTimestamp := Some(editedAt),
       attachments := attachments, embeds := embeds)
  }
}
