/** The logger service: normalising an inbound message into a record, and
    the per-message-id state machine of insert, update and delete over the
    repository. The clock, the time zone, the identifier the database
    assigns and every failure of the database or of the client library are
    explicit inputs. */
module LoggerService {
  import opened Wrappers
  import opened Model
  import opened Gateway
  import opened Repository
  import Text

  /** What the environment supplies to one call: the local time now, the
      offset of the system time zone, and the identifier the database
      gives a newly inserted record. */
  datatype Env = Env(now: int, zoneOffset: int, newId: string)

  /** Which steps of one call fail: normalising the inbound message, the
      lookup by message id, the save, the delete. */
  datatype Faults = Faults(convert: bool, lookup: bool, save: bool, delete: bool)

  const NoFaults := Faults(false, false, false, false)

  /** The repository's contents after a call, and what the call returned. */
  datatype Outcome<R> = Outcome(store: Store, result: R)

  // ----------------------------------------------------------- normalising

  /** An instant on the UTC time line as a local date-time of the zone. */
  function LocalTime(instant: int, zoneOffset: int): int {
    instant + zoneOffset
  }

  function ConvertAttachment(a: InboundAttachment): (r: Attachment)
    ensures r.id == a.id && r.filename == a.fileName && r.url == a.url
    ensures r.proxyUrl == a.proxyUrl && r.size == a.size && r.contentType == a.contentType
  {
    Attachment(a.id, a.fileName, a.url, a.proxyUrl, a.size, a.contentType)
  }

  /** `convertAttachments`: one record per attachment, in the same order. */
  function ConvertAttachments(xs: seq<InboundAttachment>): (r: seq<Attachment>)
    ensures |r| == |xs|
    ensures forall i | 0 <= i < |xs| :: r[i] == ConvertAttachment(xs[i])
  {
    seq(|xs|, i requires 0 <= i < |xs| => ConvertAttachment(xs[i]))
  }

  /** A missing field name or value becomes the empty string. */
  function ConvertField(f: InboundField): (r: EmbedField)
    ensures f.name.Some? ==> r.name == f.name.value
    ensures f.name.None? ==> r.name == ""
    ensures f.value.Some? ==> r.value == f.value.value
    ensures f.value.None? ==> r.value == ""
    ensures r.inline == f.isInline
  {
    EmbedField(f.name.GetOr(""), f.value.GetOr(""), f.isInline)
  }

  function ConvertEmbed(e: InboundEmbed, zoneOffset: int): (r: Embed)
    ensures r.title == e.title && r.description == e.description && r.url == e.url
    ensures r.color == Some(e.colorRaw)
    ensures e.timestamp.None? <==> r.timestamp.None?
    ensures e.timestamp.Some? ==> r.timestamp == Some(LocalTime(e.timestamp.value, zoneOffset))
    ensures e.footer.None? ==> r.footerText.None?
    ensures e.footer.Some? ==> r.footerText == e.footer.value.text
    ensures e.author.None? ==> r.authorName.None?
    ensures e.author.Some? ==> r.authorName == e.author.value.name
    ensures |r.fields| == |e.fields|
    ensures forall i | 0 <= i < |e.fields| :: r.fields[i] == ConvertField(e.fields[i])
  {
    Embed(
      title := e.title,
      description := e.description,
      url := e.url,
      color := Some(e.colorRaw),
      timestamp := if e.timestamp.Some? then Some(LocalTime(e.timestamp.value, zoneOffset)) else None,
      footerText := if e.footer.Some? then e.footer.value.text else None,
      authorName := if e.author.Some? then e.author.value.name else None,
      fields := seq(|e.fields|, i requires 0 <= i < |e.fields| => ConvertField(e.fields[i])))
  }

  /** `convertEmbeds`: one record per embed, in the same order. */
  function ConvertEmbeds(es: seq<InboundEmbed>, zoneOffset: int): (r: seq<Embed>)
    ensures |r| == |es|
    ensures forall i | 0 <= i < |es| :: r[i] == ConvertEmbed(es[i], zoneOffset)
  {
    seq(|es|, i requires 0 <= i < |es| => ConvertEmbed(es[i], zoneOffset))
  }

  /** `convertReactions`: the emoji and count of each reaction, in the same
      order; the reacting users are not captured. */
  function ConvertReactions(xs: seq<InboundReaction>): (r: seq<Reaction>)
    ensures |r| == |xs|
    ensures forall i | 0 <= i < |xs| ::
      r[i].emoji == xs[i].emojiName && r[i].count == xs[i].count && r[i].users == []
  {
    seq(|xs|, i requires 0 <= i < |xs| => NewReaction(xs[i].emojiName, xs[i].count))
  }

  /** Record `r` carries the properties of inbound message `m`: ids, names,
      content, times in the local zone, the converted lists, the bot flag and
      the type name. The database identifier is not part of it. Only a
      message from a server has a record. */
  predicate Normalises(m: InboundMessage, r: Message, zoneOffset: int) {
    && r.messageId == m.id
    && r.channelId == m.channel.id && r.channelName == m.channel.name
    && m.guild.Some?
    && r.guildId == Some(m.guild.value.id) && r.guildName == Some(m.guild.value.name)
    && r.authorId == m.author.id && r.authorName == m.author.name
    && r.authorDiscriminator == m.author.discriminator
    && r.content == m.contentRaw
    && r.timestamp == LocalTime(m.timeCreated, zoneOffset)
    && (m.timeEdited.None? ==> r.editedTimestamp.None?)
    && (m.timeEdited.Some? ==> r.editedTimestamp == Some(LocalTime(m.timeEdited.value, zoneOffset)))
    && r.attachments == ConvertAttachments(m.attachments)
    && r.embeds == ConvertEmbeds(m.embeds, zoneOffset)
    && r.reactions == ConvertReactions(m.reactions)
    && r.isBot == m.author.isBot
    && r.messageType == m.messageType.name
  }

  /** `convertJdaMessage`: the record for an inbound message, not yet saved.
      Reading the guild of a message from outside a server (a direct
      message) raises, so such a message has no record. */
  function ConvertJdaMessage(m: InboundMessage, zoneOffset: int): (r: Result<Message>)
    ensures r.Fail? <==> m.guild.None?
    ensures r.Ok? ==> Normalises(m, r.value, zoneOffset) && r.value.id.None?
  {
    if m.guild.None? then Fail("message is not from a guild")
    else
    Ok(Message(
      messageId := m.id,
      channelId := m.channel.id,
      channelName := m.channel.name,
      guildId := Some(m.guild.value.id),
      guildName := Some(m.guild.value.name),
      authorId := m.author.id,
      authorName := m.author.name,
      authorDiscriminator := m.author.discriminator,
      content := m.contentRaw,
      timestamp := LocalTime(m.timeCreated, zoneOffset),
      editedTimestamp := if m.timeEdited.Some? then Some(LocalTime(m.timeEdited.value, zoneOffset)) else None,
      attachments := ConvertAttachments(m.attachments),
      embeds := ConvertEmbeds(m.embeds, zoneOffset),
      reactions := ConvertReactions(m.reactions),
      isBot := m.author.isBot,
      messageType := m.messageType.name))
  }

  // ------------------------------------------------------- the state machine

  /** `logMessage`: an idempotent insert. A message id already stored
      returns the stored record and saves nothing; a new one is normalised
      and saved; any failure, including a message from outside a server,
      returns nothing and saves nothing. */
  function Ingest(s: Store, m: InboundMessage, env: Env, f: Faults): (r: Outcome<Option<Message>>)
    requires WellFormed(s)
    ensures WellFormed(r.store)
    ensures r.result.None? ==> r.store == s
    ensures r.result.None? <==> f.convert || m.guild.None? || f.lookup || (m.id !in s && f.save)
    ensures m.guild.None? ==> r == Outcome(s, None)
    ensures m.id in s && r.result.Some? ==> r.store == s && r.result.value == s[m.id]
    ensures m.id !in s && r.result.Some? ==>
      && r.store == s[m.id := r.result.value]
      && Normalises(m, r.result.value, env.zoneOffset)
      && r.result.value.id == Some(env.newId)
    ensures r.result.Some? ==> m.id in r.store && r.store[m.id] == r.result.value
  {
    var converted := ConvertJdaMessage(m, env.zoneOffset);
    if f.convert || converted.Fail? || f.lookup then Outcome(s, None)
    else if m.id in s then Outcome(s, Some(s[m.id]))
    else if f.save then Outcome(s, None)
    else
      var saved := Stored(converted.value, env.newId);
      Outcome(s[m.id := saved], Some(saved))
  }

  /** `updateMessage`: an unknown message id is handed to `Ingest`; a known
      one has its content, edit time, attachments and embeds replaced and
      everything else kept. */
  function Reconcile(s: Store, m: InboundMessage, env: Env, f: Faults): (r: Outcome<Option<Message>>)
    requires WellFormed(s)
    ensures WellFormed(r.store)
    ensures r.result.None? ==> r.store == s
    ensures f.lookup ==> r.result.None?
    ensures m.id !in s && !f.lookup ==> r == Ingest(s, m, env, f)
    ensures m.id in s && !f.lookup ==> (r.result.Some? <==> !f.convert && !f.save)
    ensures m.id in s && r.result.Some? ==>
      && r.store == s[m.id := r.result.value]
      && r.result.value.content == m.contentRaw
      && r.result.value.editedTimestamp == Some(env.now)
      && r.result.value.attachments == ConvertAttachments(m.attachments)
      && r.result.value.embeds == ConvertEmbeds(m.embeds, env.zoneOffset)
      && SameExceptEdit(s[m.id], r.result.value)
  {
    if f.lookup then Outcome(s, None)
    else if m.id !in s then Ingest(s, m, env, f)
    else if f.convert || f.save then Outcome(s, None)
    else
      var updated := WithEdit(s[m.id], m.contentRaw, env.now,
                              ConvertAttachments(m.attachments), ConvertEmbeds(m.embeds, env.zoneOffset));
      Outcome(s[m.id := updated], Some(updated))
  }

  /** `deleteMessage`: true exactly when the record was there and is now
      gone; an absent id, like any failure, gives false and changes nothing. */
  function Retract(s: Store, messageId: string, f: Faults): (r: Outcome<bool>)
    requires WellFormed(s)
    ensures WellFormed(r.store)
    ensures r.result <==> !f.lookup && messageId in s && !f.delete
    ensures r.result ==> r.store == s - {messageId}
    ensures !r.result ==> r.store == s
  {
    if f.lookup || messageId !in s || f.delete then Outcome(s, false)
    else Outcome(s - {messageId}, true)
  }

  /** A second create of a logged message id, whatever its content, returns
      the first record and changes nothing. */
  lemma IngestIsIdempotent(s: Store, m: InboundMessage, m': InboundMessage, env: Env, env': Env, f': Faults)
    requires WellFormed(s) && m'.id == m.id
    requires Ingest(s, m, env, NoFaults).result.Some?
    requires !f'.convert && !f'.lookup && m'.guild.Some?
    ensures var first := Ingest(s, m, env, NoFaults);
            Ingest(first.store, m', env', f') == first
  {
  }

  /** Logging a message and then editing it: the content is the edit's, and
      author, channel and creation time are those first logged. */
  lemma EditKeepsAuthorship(s: Store, m: InboundMessage, edit: InboundMessage, env: Env, env': Env)
    requires WellFormed(s) && m.id !in s && edit.id == m.id && m.guild.Some?
    ensures var first := Ingest(s, m, env, NoFaults);
            var second := Reconcile(first.store, edit, env', NoFaults);
            && second.result.Some?
            && second.result.value.content == edit.contentRaw
            && second.result.value.authorId == m.author.id
            && second.result.value.authorName == m.author.name
            && second.result.value.channelId == m.channel.id
            && second.result.value.timestamp == LocalTime(m.timeCreated, env.zoneOffset)
            && second.result.value.editedTimestamp == Some(env'.now)
  {
  }

  /** Deleting a message that was just logged restores the earlier store;
      deleting it again reports false. */
  lemma RetractUndoesIngest(s: Store, m: InboundMessage, env: Env)
    requires WellFormed(s) && m.id !in s && m.guild.Some?
    ensures var logged := Ingest(s, m, env, NoFaults).store;
            var deleted := Retract(logged, m.id, NoFaults);
            && deleted == Outcome(s, true)
            && Retract(deleted.store, m.id, NoFaults) == Outcome(s, false)
            && FindByMessageId(deleted.store, m.id).None?
  {
    var logged := Ingest(s, m, env, NoFaults).store;
    assert logged - {m.id} == s;
  }

  // ------------------------------------------------------------ read queries

  /** The value types of the statistics map: text or a count. */
  datatype StatValue = StringValue(text: string) | LongValue(n: int)

  /** `getMessageStats`: exactly the channel id and its message count. */
  function GetMessageStats(s: Store, channelId: string): (r: map<string, StatValue>)
    ensures r.Keys == {"channelId", "totalMessages"}
    ensures r["channelId"] == StringValue(channelId)
    ensures r["totalMessages"] == LongValue(|set k | k in s && s[k].channelId == channelId|)
    ensures (forall k | k in s :: s[k].channelId != channelId) ==> r["totalMessages"] == LongValue(0)
  {
    map["channelId" := StringValue(channelId), "totalMessages" := LongValue(CountByChannelId(s, channelId))]
  }

  function GetMessagesByChannel(s: Store, order: seq<string>, channelId: string, p: Pageable): (r: Page)
    requires IsListing(s, order)
    ensures r.pageable == p && |r.content| <= p.size
    ensures forall i | 0 <= i < |r.content| :: r.content[i].channelId == channelId && r.content[i] in s.Values
    ensures r.totalElements == CountByChannelId(s, channelId)
    ensures WellFormed(s) ==> DistinctRecords(r.content)
  {
    FindByChannelId(s, order, channelId, p)
  }

  function GetMessagesByAuthor(s: Store, order: seq<string>, authorId: string, p: Pageable): (r: Page)
    requires IsListing(s, order)
    ensures r.pageable == p && |r.content| <= p.size
    ensures forall i | 0 <= i < |r.content| :: r.content[i].authorId == authorId && r.content[i] in s.Values
    ensures r.totalElements == CountByAuthorId(s, authorId)
    ensures WellFormed(s) ==> DistinctRecords(r.content)
  {
    FindByAuthorId(s, order, authorId, p)
  }

  function SearchMessages(s: Store, order: seq<string>, query: string, p: Pageable): (r: Page)
    requires IsListing(s, order)
    ensures r.pageable == p && |r.content| <= p.size
    ensures forall i | 0 <= i < |r.content| ::
      Text.ContainsIgnoreCase(r.content[i].content, query) && r.content[i] in s.Values
    ensures r.totalElements == |set k | k in s && Text.ContainsIgnoreCase(s[k].content, query)|
    ensures WellFormed(s) ==> DistinctRecords(r.content)
  {
    FindByContentContainingIgnoreCase(s, order, query, p)
  }

  function GetRecentMessages(s: Store, order: seq<string>, since: int, p: Pageable): (r: Page)
    requires IsListing(s, order)
    ensures r.pageable == p && |r.content| <= p.size
    ensures forall i | 0 <= i < |r.content| :: r.content[i].timestamp >= since && r.content[i] in s.Values
    ensures r.totalElements == |set k | k in s && s[k].timestamp >= since|
    ensures WellFormed(s) ==> DistinctRecords(r.content)
  {
    FindRecentMessages(s, order, since, p)
  }

  // ------------------------------------------------------------ the service

  /** The service over a shared repository. Each method does what its
      source does step by step, a lookup followed by a save or a delete,
      and ends in the state the matching specification function gives. */
  class MessageLoggerService {
    const repository: MessageRepository

    predicate Valid()
      reads this, repository
    {
      repository.Valid()
    }

    constructor (repository: MessageRepository)
      requires repository.Valid()
      ensures this.repository == repository && Valid()
    {
      this.repository := repository;
    }

    method LogMessage(m: InboundMessage, env: Env, f: Faults) returns (r: Option<Message>)
      requires Valid()
      modifies repository
      ensures Valid()
      ensures Outcome(repository.records, r) == Ingest(old(repository.records), m, env, f)
    {
      if f.convert {
        return None;
      }
      var converted := ConvertJdaMessage(m, env.zoneOffset);
      if converted.Fail? {
        return None;
      }
      var record := converted.value;
      var existing := repository.Lookup(m.id, f.lookup);
      if existing.Fail? {
        return None;
      }
      if existing.value.Some? {
        return existing.value;
      }
      var saved := repository.Save(record, env.newId, f.save);
      if saved.Fail? {
        return None;
      }
      r := Some(saved.value);
    }

    method UpdateMessage(m: InboundMessage, env: Env, f: Faults) returns (r: Option<Message>)
      requires Valid()
      modifies repository
      ensures Valid()
      ensures Outcome(repository.records, r) == Reconcile(old(repository.records), m, env, f)
    {
      var existing := repository.Lookup(m.id, f.lookup);
      if existing.Fail? {
        return None;
      }
      if existing.value.None? {
        r := LogMessage(m, env, f);
        return;
      }
      if f.convert {
        return None;
      }
      var updated := WithEdit(existing.value.value, m.contentRaw, env.now,
                              ConvertAttachments(m.attachments), ConvertEmbeds(m.embeds, env.zoneOffset));
      var saved := repository.Save(updated, env.newId, f.save);
      if saved.Fail? {
        return None;
      }
      r := Some(saved.value);
    }

    method DeleteMessage(messageId: string, f: Faults) returns (deleted: bool)
      requires Valid()
      modifies repository
      ensures Valid()
      ensures Outcome(repository.records, deleted) == Retract(old(repository.records), messageId, f)
    {
      var existing := repository.Lookup(messageId, f.lookup);
      if existing.Fail? || existing.value.None? {
        return false;
      }
      var done := repository.Delete(existing.value.value, f.delete);
      deleted := done.Ok?;
    }
  }
}
