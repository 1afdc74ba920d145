# Discord message logger: a Dafny model

The Discord message logger is a bot connected to the Discord gateway. It
stores every eligible server message it sees in a document collection.
A newly created message is dropped when it comes from a webhook or is of a
system kind. Updates are not filtered: an update of a message that was
never stored stores it, whatever its author or kind. Direct messages are
never stored, and neither is a message whose conversion or save fails.
It keeps each stored record in step with later edits and deletes, and it
answers queries in two ways: an HTTP interface that returns pages, and four
slash commands that reply with text.

The model covers six parts:

- **Model** (`model.dfy`): the stored record `DiscordMessage` and its
  attachments, embeds, embed fields and reactions, with their defaults, and
  the `copy` that an edit performs.
- **Repository** (`repository.dfy`): the collection, as a map from Discord
  message id to record, and every derived query. A query is a criterion on
  records, answered as a count or as one page of matching records. The
  `MessageRepository` class holds the contents that `save` and `delete`
  change.
- **LoggerService** (`logger_service.dfy`): how a gateway message becomes a
  record, and the state machine over message ids that `logMessage`,
  `updateMessage` and `deleteMessage` form. Each of these is a pure
  specification function (`Ingest`, `Reconcile`, `Retract`) plus a method
  of the `MessageLoggerService` class. The method does the lookup and the
  save or delete step by step, and is proved to end in the state the
  function gives.
- **Gateway** (`gateway.dfy`): the parts of a gateway message and event
  that the service reads.
- **Listener** (`listener.dfy`): which gateway event leads to which service
  call. Creates from webhooks and creates of system message kinds are
  dropped.
- **Controller** (`controller.dfy`) and **Commands** (`commands.dfy`): the
  HTTP endpoints and the slash-command handler. This includes the parsing of
  the `sort` parameter, page-request validation, and the exact reply texts.

The environment is passed in explicitly:

- The current local time, the offset of the system time zone, and the
  identifier the database assigns to a new record. These are `Env` and the
  `now` parameters.
- Whether each database or client-library step fails. These are `Faults`,
  `fails` and `fault`.
- The order in which the database returns the collection. This is `order`,
  a listing of the stored message ids.

A property of the source that the model shows: the `user-messages` reply
text says "in this channel", but its query selects the author's messages in
every channel. `CriterionOf` gives `AuthorIs(u)` for it, with no channel
condition.

## Model


| member | source | states |
|---|---|---|
| Model.NewMessage | src/main/kotlin/com/discordbot/messagelogger/model/DiscordMessage.kt:8-28 | A record built from its required properties has no database id and no edit time. It has empty attachment, embed and reaction lists, is not from a bot, and has kind "DEFAULT". Every given property is kept. |
| Model.NewEmbed | src/main/kotlin/com/discordbot/messagelogger/model/DiscordMessage.kt:39-48 | An embed built without fields has an empty field list and keeps every given property. |
| Model.NewReaction | src/main/kotlin/com/discordbot/messagelogger/model/DiscordMessage.kt:56-60 | A reaction built from an emoji and a count has no users. |
| Model.WithEdit | src/main/kotlin/com/discordbot/messagelogger/service/MessageLoggerService.kt:48-53 | The edit copy takes the new content, edit time, attachments and embeds. Every other property is unchanged (`SameExceptEdit`). Restoring the four properties gives back the original record. |
| Text.Lower | src/main/kotlin/com/discordbot/messagelogger/controller/MessageController.kt:97 | Lower-casing keeps the length. It maps each character on its own, so no upper-case ASCII letter remains. |
| Repository.FindByMessageId | src/main/kotlin/com/discordbot/messagelogger/repository/DiscordMessageRepository.kt:15 | There is a result exactly when the id is stored. The result has that message id and is a stored record. In a well-formed store, there is a result exactly when some record has that message id. |
| Repository.CountMatching | src/main/kotlin/com/discordbot/messagelogger/repository/DiscordMessageRepository.kt:44-47 | A count never exceeds the collection's size. It is zero exactly when no stored record satisfies the criterion. |
| Repository.PageRequestOf | src/main/kotlin/com/discordbot/messagelogger/controller/MessageController.kt:28 | A page request exists exactly when the page index is at least 0 and the size at least 1. It carries the given index, size and sort. |
| Repository.HitsCount | src/main/kotlin/com/discordbot/messagelogger/repository/DiscordMessageRepository.kt:18-58 | Filtering the database's listing yields as many records as the count of matching records. |
| Repository.HitsComplete | src/main/kotlin/com/discordbot/messagelogger/repository/DiscordMessageRepository.kt:18-58 | Every matching stored record appears among the filtered listing. |
| Repository.FindPage | src/main/kotlin/com/discordbot/messagelogger/repository/DiscordMessageRepository.kt:18-58 | A page echoes its request. Its total is the number of matching records. It holds at most `size` records, each a matching stored record. It is empty exactly when the size is 0 or the page starts at or past the total. A page that starts before the total holds exactly the smaller of `size` and the number of matches from its start on. Record `i` of the page is match `page * size + i` in the database's order, so the page is the requested slice. In a well-formed store no record appears twice on a page. When everything fits on page 0, page 0 holds every match. |
| Repository.HitsAppend | src/main/kotlin/com/discordbot/messagelogger/repository/DiscordMessageRepository.kt:18-58 | Filtering keeps the database's order: the matches of two consecutive parts of the listing are those of the first part followed by those of the second. |
| Repository.HitsDistinct | src/main/kotlin/com/discordbot/messagelogger/repository/DiscordMessageRepository.kt:18-58 | In a well-formed store, every match comes from a listed id and no record is a match twice. |
| Repository.PagesPartitionMatches | src/main/kotlin/com/discordbot/messagelogger/repository/DiscordMessageRepository.kt:18-58 | With a positive page size, every matching record of a well-formed store is on some page, and on only one. |
| Repository.FindByChannelId | src/main/kotlin/com/discordbot/messagelogger/repository/DiscordMessageRepository.kt:18 | Every record on the page is in the channel. The total is the channel's count. No record appears twice on a page of a well-formed store. |
| Repository.FindByGuildId | src/main/kotlin/com/discordbot/messagelogger/repository/DiscordMessageRepository.kt:21 | Every record is in the guild, so direct messages never match. The total is the number of the guild's records. No record appears twice on a page of a well-formed store. |
| Repository.FindByAuthorId | src/main/kotlin/com/discordbot/messagelogger/repository/DiscordMessageRepository.kt:24 | Every record is by the author. The total is the author's count. No record appears twice on a page of a well-formed store. |
| Repository.FindByContentContainingIgnoreCase | src/main/kotlin/com/discordbot/messagelogger/repository/DiscordMessageRepository.kt:27 | Every record's content contains the text, ignoring case. The total is the number of such records. No record appears twice on a page of a well-formed store. |
| Repository.HelloWorldMatchesHello | src/main/kotlin/com/discordbot/messagelogger/repository/DiscordMessageRepository.kt:27 | "Hello World" contains "hello" when case is ignored. |
| Repository.FindByTimestampBetween | src/main/kotlin/com/discordbot/messagelogger/repository/DiscordMessageRepository.kt:30 | Every record's creation time is strictly between the bounds. An empty range yields an empty page with total 0. No record appears twice on a page of a well-formed store. |
| Repository.FindByChannelIdAndTimestampBetween | src/main/kotlin/com/discordbot/messagelogger/repository/DiscordMessageRepository.kt:33-38 | Every record is in the channel and strictly inside the range. The total is at most the channel's count. No record appears twice on a page of a well-formed store. |
| Repository.FindByAuthorIdAndChannelId | src/main/kotlin/com/discordbot/messagelogger/repository/DiscordMessageRepository.kt:41 | Every record is by the author and in the channel. The total is at most the author's count and at most the channel's count. No record appears twice on a page of a well-formed store. |
| Repository.CountByChannelId | src/main/kotlin/com/discordbot/messagelogger/repository/DiscordMessageRepository.kt:44 | The number of records in the channel. It is zero exactly when none is. |
| Repository.CountByAuthorId | src/main/kotlin/com/discordbot/messagelogger/repository/DiscordMessageRepository.kt:47 | The number of records by the author. It is zero exactly when none is. |
| Repository.FindRecentMessages | src/main/kotlin/com/discordbot/messagelogger/repository/DiscordMessageRepository.kt:50-51 | Every record was created at or after `since`. The total is the number of such records. No record appears twice on a page of a well-formed store. |
| Repository.FindMessagesWithAttachments | src/main/kotlin/com/discordbot/messagelogger/repository/DiscordMessageRepository.kt:54-55 | Every record has at least one attachment. The total is the number of such records. No record appears twice on a page of a well-formed store. |
| Repository.FindByIsBot | src/main/kotlin/com/discordbot/messagelogger/repository/DiscordMessageRepository.kt:58 | Every record has the requested bot flag. The total is the number of such records. No record appears twice on a page of a well-formed store. |
| Repository.Stored | src/main/kotlin/com/discordbot/messagelogger/service/MessageLoggerService.kt:31 | A saved record always has a database id. It keeps an id it already had and receives the assigned one otherwise. |
| Repository.MessageRepository.Lookup | src/main/kotlin/com/discordbot/messagelogger/repository/DiscordMessageRepository.kt:15 | A lookup fails when the database fails. Otherwise it returns `FindByMessageId` of the current contents. |
| Repository.MessageRepository.Save | src/main/kotlin/com/discordbot/messagelogger/service/MessageLoggerService.kt:31 | A record with an id must be the stored record under its message id; the service saves only such records and new ones. A save succeeds exactly when the database does not fail and the record either has an id or its message id is new. The unique message-id index refuses a new record whose message id is already stored. On success it stores the saved record under its message id. On failure nothing changes. The store stays well formed. |
| Repository.MessageRepository.Delete | src/main/kotlin/com/discordbot/messagelogger/service/MessageLoggerService.kt:68 | The record must be the stored one, with its id, as the service's lookup returns it. A delete removes it unless the database fails. On failure nothing changes. |
| LoggerService.ConvertAttachment | src/main/kotlin/com/discordbot/messagelogger/service/MessageLoggerService.kt:129-136 | Each attachment property is copied: id, file name, URL, proxy URL, size and content type. |
| LoggerService.ConvertAttachments | src/main/kotlin/com/discordbot/messagelogger/service/MessageLoggerService.kt:127-138 | One record per attachment, in the same order. |
| LoggerService.ConvertField | src/main/kotlin/com/discordbot/messagelogger/service/MessageLoggerService.kt:150-156 | A missing field name or value becomes "", a present one is kept, and the inline flag is kept. |
| LoggerService.ConvertEmbed | src/main/kotlin/com/discordbot/messagelogger/service/MessageLoggerService.kt:142-157 | Title, description, URL and raw colour are kept. The timestamp is moved into the system zone. The footer text and author name are taken when present. The fields are converted one by one. |
| LoggerService.ConvertEmbeds | src/main/kotlin/com/discordbot/messagelogger/service/MessageLoggerService.kt:140-159 | One embed per embed, in order. |
| LoggerService.ConvertReactions | src/main/kotlin/com/discordbot/messagelogger/service/MessageLoggerService.kt:161-168 | One reaction per reaction, with emoji name and count and no users. |
| LoggerService.ConvertJdaMessage | src/main/kotlin/com/discordbot/messagelogger/service/MessageLoggerService.kt:106-125 | The record normalises the message (`Normalises`). Ids, names, raw content, bot flag and kind are copied. Creation and edit times are moved into the local zone. The lists are converted. There is no database id. A message from outside a server (a direct message) has no record, because reading its guild raises. A server message's guild id and guild name are both present. |
| LoggerService.Ingest | src/main/kotlin/com/discordbot/messagelogger/service/MessageLoggerService.kt:20-38 | A known message id returns the stored record and changes nothing. A new one stores its normalised record under its id, with the assigned database id. The result is absent exactly when conversion fails, the message is a direct message, the lookup fails, or the save of a new record fails. Then nothing changes. The store stays well formed. |
| LoggerService.Reconcile | src/main/kotlin/com/discordbot/messagelogger/service/MessageLoggerService.kt:40-62 | A failed lookup changes nothing. An unknown id behaves exactly as `Ingest`. A known id gets the new content, edit time now, and converted attachments and embeds, with every other property kept. This succeeds unless conversion or the save fails. |
| LoggerService.Retract | src/main/kotlin/com/discordbot/messagelogger/service/MessageLoggerService.kt:64-79 | Returns true exactly when the lookup and the delete succeed and the id is stored. The store then loses exactly that id. Otherwise it is unchanged. |
| LoggerService.IngestIsIdempotent | src/main/kotlin/com/discordbot/messagelogger/service/MessageLoggerService.kt:24-29 | Logging the same message id a second time, whatever the content (as long as it is a server message), returns the first record and leaves the store as it was. |
| LoggerService.EditKeepsAuthorship | src/main/kotlin/com/discordbot/messagelogger/service/MessageLoggerService.kt:40-53 | After logging and then editing a server message, the record has the edit's content and the edit time. Author, channel and creation time are those first logged. |
| LoggerService.RetractUndoesIngest | src/main/kotlin/com/discordbot/messagelogger/service/MessageLoggerService.kt:64-79 | Deleting a just-logged server message restores the earlier store and reports true. A second delete reports false. |
| LoggerService.GetMessageStats | src/main/kotlin/com/discordbot/messagelogger/service/MessageLoggerService.kt:98-104 | Exactly the keys channelId and totalMessages. The count is the channel's number of records, and 0 for an unknown channel. |
| LoggerService.GetMessagesByChannel | src/main/kotlin/com/discordbot/messagelogger/service/MessageLoggerService.kt:82-84 | At most `size` stored records, all in the channel. The total is the channel's count. None appears twice when the store is well formed. |
| LoggerService.GetMessagesByAuthor | src/main/kotlin/com/discordbot/messagelogger/service/MessageLoggerService.kt:86-88 | At most `size` stored records, all by the author. The total is the author's count. None appears twice when the store is well formed. |
| LoggerService.SearchMessages | src/main/kotlin/com/discordbot/messagelogger/service/MessageLoggerService.kt:90-92 | At most `size` stored records whose content contains the query, ignoring case. The total counts all of them. None appears twice when the store is well formed. |
| LoggerService.GetRecentMessages | src/main/kotlin/com/discordbot/messagelogger/service/MessageLoggerService.kt:94-96 | At most `size` stored records created at or after `since`. The total counts all of them. None appears twice when the store is well formed. |
| LoggerService.MessageLoggerService.LogMessage | src/main/kotlin/com/discordbot/messagelogger/service/MessageLoggerService.kt:20-38 | The method converts, looks up and saves in turn. It ends with the repository contents and result that `Ingest` gives. |
| LoggerService.MessageLoggerService.UpdateMessage | src/main/kotlin/com/discordbot/messagelogger/service/MessageLoggerService.kt:40-62 | The method looks up, then either logs or copies and saves. It ends with the contents and result that `Reconcile` gives. |
| LoggerService.MessageLoggerService.DeleteMessage | src/main/kotlin/com/discordbot/messagelogger/service/MessageLoggerService.kt:64-79 | The method looks up and deletes. It ends with the contents and result that `Retract` gives. |
| Listener.Route | src/main/kotlin/com/discordbot/messagelogger/listener/MessageListener.kt:18-48 | A create from a webhook or of a system kind is ignored. Any other create is logged. Every update is updated and every delete deleted. Only creates are ever ignored. |
| Listener.Apply | src/main/kotlin/com/discordbot/messagelogger/listener/MessageListener.kt:18-48 | Performing any routed call keeps the store well formed. |
| Listener.OnEvent | src/main/kotlin/com/discordbot/messagelogger/listener/MessageListener.kt:18-48 | Handling an event changes the repository exactly as its service call does, and always returns normally. |
| Listener.IneligibleCreateStoresNothing | src/main/kotlin/com/discordbot/messagelogger/listener/MessageListener.kt:21-23 | A webhook or system-kind create leaves the store unchanged. |
| Listener.EligibleCreateStores | src/main/kotlin/com/discordbot/messagelogger/listener/MessageListener.kt:18-30 | An eligible create of a new server message adds exactly its id, holding the normalised record. Every other record is kept. |
| Listener.UpdateOfUnseenCreates | src/main/kotlin/com/discordbot/messagelogger/listener/MessageListener.kt:32-39 | An update of an unseen server message stores its normalised record, even for webhook and system kinds, because updates are not filtered. |
| Listener.DeleteRemovesThatId | src/main/kotlin/com/discordbot/messagelogger/listener/MessageListener.kt:41-48 | A delete changes nothing but the removal of the event's id. If that id survives, the store is unchanged. |
| Listener.DirectMessageNeverStored | src/main/kotlin/com/discordbot/messagelogger/service/MessageLoggerService.kt:106-112 | Neither the create of an unseen direct message nor an update of it changes the store. |
| Controller.IndexOf | src/main/kotlin/com/discordbot/messagelogger/controller/MessageController.kt:95 | The first occurrence of the delimiter, or the length when there is none. |
| Controller.Split | src/main/kotlin/com/discordbot/messagelogger/controller/MessageController.kt:95 | At least one part, and no part contains the delimiter. |
| Controller.JoinSplit | src/main/kotlin/com/discordbot/messagelogger/controller/MessageController.kt:95 | Joining the parts with the delimiter gives back the original string, so empty parts are kept. |
| Controller.DirectionOf | src/main/kotlin/com/discordbot/messagelogger/controller/MessageController.kt:97-101 | Descending exactly when there is a second token and it lower-cases to "desc". |
| Controller.ParseSort | src/main/kotlin/com/discordbot/messagelogger/controller/MessageController.kt:94-103 | A sort exists exactly when the text before the first comma has a non-whitespace character. Its property is that text. |
| Controller.ParseSortDescending | src/main/kotlin/com/discordbot/messagelogger/controller/MessageController.kt:97-98 | "f,d" with d lower-casing to "desc" sorts by f descending. |
| Controller.ParseSortOtherToken | src/main/kotlin/com/discordbot/messagelogger/controller/MessageController.kt:99-100 | Any other second token sorts ascending. |
| Controller.ParseSortNoComma | src/main/kotlin/com/discordbot/messagelogger/controller/MessageController.kt:95-100 | Without a comma the whole string is the property, ascending. |
| Controller.ParseSortIgnoresRest | src/main/kotlin/com/discordbot/messagelogger/controller/MessageController.kt:95-97 | Tokens after the second change nothing. |
| Controller.ParseSortDefault | src/main/kotlin/com/discordbot/messagelogger/controller/MessageController.kt:25 | The default "timestamp,desc" sorts by timestamp descending. |
| Controller.ParseSortUpperCaseDesc | src/main/kotlin/com/discordbot/messagelogger/controller/MessageController.kt:97 | "timestamp,DESC" is also descending. |
| Controller.ParseSortAscending | src/main/kotlin/com/discordbot/messagelogger/controller/MessageController.kt:97-101 | "content,asc" is ascending by content. |
| Controller.ParseSortUnknownDirection | src/main/kotlin/com/discordbot/messagelogger/controller/MessageController.kt:99-100 | "content,foo" is ascending by content. |
| Controller.ParseSortPropertyOnly | src/main/kotlin/com/discordbot/messagelogger/controller/MessageController.kt:95-102 | "authorName" is ascending by authorName. |
| Controller.ParseSortEmptyProperty | src/main/kotlin/com/discordbot/messagelogger/controller/MessageController.kt:96-102 | ",desc" yields no sort, because an empty property is refused. |
| Controller.BuildPageRequest | src/main/kotlin/com/discordbot/messagelogger/controller/MessageController.kt:27-28 | A page request exists exactly when page ≥ 0, size ≥ 1 and the sort parses. It carries the parsed sort. |
| Controller.DefaultPageRequest | src/main/kotlin/com/discordbot/messagelogger/controller/MessageController.kt:23-25 | With no parameters the request is page 0, size 20, newest first. |
| Controller.GetMessagesByChannel | src/main/kotlin/com/discordbot/messagelogger/controller/MessageController.kt:20-31 | 200 exactly when the request is valid and the query does not raise. The body is the service's page, with every record in the channel. Otherwise 500. |
| Controller.GetMessagesByAuthor | src/main/kotlin/com/discordbot/messagelogger/controller/MessageController.kt:33-44 | The same, for the author. |
| Controller.SearchMessages | src/main/kotlin/com/discordbot/messagelogger/controller/MessageController.kt:46-57 | The same, for content containing the query, ignoring case. |
| Controller.GetRecentMessages | src/main/kotlin/com/discordbot/messagelogger/controller/MessageController.kt:59-70 | The same, for records created at or after `since`. |
| Controller.GetChannelStats | src/main/kotlin/com/discordbot/messagelogger/controller/MessageController.kt:72-76 | 200 with the service's statistics exactly when counting does not raise. Otherwise 500. |
| Controller.GetMessageById | src/main/kotlin/com/discordbot/messagelogger/controller/MessageController.kt:78-82 | Every id is answered 404. |
| Controller.HealthCheck | src/main/kotlin/com/discordbot/messagelogger/controller/MessageController.kt:84-92 | 200 with exactly the keys status and timestamp, where status is "UP". |
| Commands.ListingOf | src/main/kotlin/com/discordbot/messagelogger/service/CommandHandlerService.kt:53-57 | `search` needs a query and `user-messages` needs a user; without one there is no listing. `recent` always has a listing, looking back `hours`, or 24 hours without it. |
| Commands.PageRequestFor | src/main/kotlin/com/discordbot/messagelogger/service/CommandHandlerService.kt:61 | Always the first page, unsorted. Its size is 10 for `recent` and 5 otherwise. |
| Commands.PreviewLength | src/main/kotlin/com/discordbot/messagelogger/service/CommandHandlerService.kt:76-80 | Previews are 80 characters for `recent` and 100 otherwise. |
| Commands.PromptFor | src/main/kotlin/com/discordbot/messagelogger/service/CommandHandlerService.kt:53-57 | `search` without a query is answered "Please provide a search query."; `user-messages` without a user is answered "Please specify a user." (lines 126-130). A prompt is never the generic error. |
| Commands.CriterionOf | src/main/kotlin/com/discordbot/messagelogger/service/CommandHandlerService.kt:61-135 | `search` selects the records whose content contains the query, ignoring case (line 62). `recent` selects those created at or after now minus the hours times 3600 seconds (lines 95-97). `user-messages` selects the author's records (line 135); whether a record matches does not depend on its channel, although the empty reply says "in this channel". |
| Commands.Truncate | src/main/kotlin/com/discordbot/messagelogger/service/CommandHandlerService.kt:76-80 | Content within the limit is unchanged. Longer content is cut to the limit and gets "...". The result never exceeds the limit plus 3, and it starts with the content's shown prefix. |
| Commands.ShownIsPageSize | src/main/kotlin/com/discordbot/messagelogger/service/CommandHandlerService.kt:61-71 | The "showing first" number of the count line is the size of the page the listing requests: 5 for `search` and `user-messages`, 10 for `recent` (lines 96 and 106). |
| Commands.HeaderLines | src/main/kotlin/com/discordbot/messagelogger/service/CommandHandlerService.kt:69-72 | Three lines. The title opens with the listing's icon (lines 105 and 143 for the other listings). The count line says "Found", the number of matching records, "total matches" for `search` and "total messages" otherwise, and the page size as "showing first". The third line is blank. |
| Commands.EntryHeading | src/main/kotlin/com/discordbot/messagelogger/service/CommandHandlerService.kt:75-81 | A shown record's heading opens with the author's name in bold, or the channel's name for `user-messages` (line 154). It closes with the creation time in parentheses and a colon. |
| Commands.EmptyReply | src/main/kotlin/com/discordbot/messagelogger/service/CommandHandlerService.kt:64-66 | The reply when nothing matches opens with "No messages found". For `search` it quotes the query; for `recent` it names the hours (line 100). For `user-messages` it is "No messages found for this user in this channel." (line 138). |
| Commands.ListingReply | src/main/kotlin/com/discordbot/messagelogger/service/CommandHandlerService.kt:52-88 | When the query raises, the reply is the generic error. Otherwise the reply is the empty reply exactly when no record matches. A reply that lists records opens with the listing's icon. |
| Commands.EntryLinesShape | src/main/kotlin/com/discordbot/messagelogger/service/CommandHandlerService.kt:74-84 | A listing has three lines per message, in page order: heading, preview, blank. Every preview is within the limit plus 3. |
| Commands.ListingReplyShape | src/main/kotlin/com/discordbot/messagelogger/service/CommandHandlerService.kt:64-84 | With no failure, the reply is the "No messages found" text exactly when nothing matches. Otherwise it is the header followed by three lines for each shown record, and it shows the smaller of the page size and the number of matches. |
| Commands.RecentDefaultsTo24Hours | src/main/kotlin/com/discordbot/messagelogger/service/CommandHandlerService.kt:91-96 | `recent` without `hours` asks for records since now minus 86400 seconds: the first ten. |
| Commands.StatsReply | src/main/kotlin/com/discordbot/messagelogger/service/CommandHandlerService.kt:37-50 | The three statistics lines with the channel's count, or the generic error when the query raises. |
| Commands.BuildListingText | src/main/kotlin/com/discordbot/messagelogger/service/CommandHandlerService.kt:69-85 | Building the reply line by line gives the header lines and then the entry lines, each line followed by a line feed. |
| Commands.AppendEntries | src/main/kotlin/com/discordbot/messagelogger/service/CommandHandlerService.kt:74-84 | The loop appends each message's three lines, in page order. |
| Commands.OnSlashCommandInteraction | src/main/kotlin/com/discordbot/messagelogger/service/CommandHandlerService.kt:20-35 | `stats` gives the statistics reply. A listing command without its required option gives its prompt; otherwise it gives the listing reply. Any other name gives "Unknown command: " and the name. A failing query always gives the generic error. |

## Left out

- I/O is not modelled: the gateway connection, the reply transport, the ephemeral flag and `deferReply`. The handler returns its reply text instead of sending it.
- Commands.OnSlashCommandInteraction: a failure after `deferReply` is modelled as the generic error reply. In the source, that reply is a second acknowledgement of the interaction, and the platform may refuse it. The model does not capture this.
- Logging is not modelled. No log output changes the behaviour.
- Time is simplified. Times are whole seconds. Each event is converted with one fixed zone offset (`Env.zoneOffset`), applied to both its creation time and its edit time, so daylight-saving transitions are not represented. The `yyyy-MM-dd HH:mm:ss` pattern is rendered as the decimal count of seconds (`FormatTimestamp`).
- Repository.FindPage: the database's sort order is an input (`order`, a listing of the stored ids). The model does not derive that order from the requested property and direction.
- Repository.MessageRepository.Delete: the source deletes by database id, the model by message id. The two agree because the record is the one stored under its message id. The model does not state that database ids are unique across records, nor that the id a save assigns (`Env.newId`) is fresh; the database generates them.
- Repository.FindByTimestampBetween: the bounds are exclusive, as the store's derived range queries make them. The model does not cover store configurations that would make them inclusive.
- Text.ContainsIgnoreCase: case is folded for ASCII letters only. Unicode case folding is not modelled. For the "desc" comparison in `parseSort` this is exact, because only ASCII characters lower-case to those letters.
- Commands.Truncate: lengths count characters. In the source, string length and `take` count UTF-16 code units, so a cut through a surrogate pair is not represented.
- Widths are unbounded. Page index, page size and counts are 32- and 64-bit integers in the source; the model has no overflow.
- Commands.CriterionOf: times are unbounded integers, so `recent` always yields a query. In the source, subtracting the hours from the current time raises once the result leaves the date-time range (about 8.8·10^12 hours back), and the handler then answers with the generic error. That range is not modelled.
- GetMessageById has no lookup, because the source's endpoint is a stub.
- `ApiResponse` and `ErrorResponse` are never used by an endpoint, so they are not modelled.
- HTTP parameter binding is not modelled, including the 400 answer to a missing or unparsable parameter. Endpoints take typed parameters.
- LoggerService.ConvertJdaMessage: the client library's guild accessor raising for a direct message is taken as given; the client library is not part of this model.
- Reaction users are not modelled: the service never fills them.
- Not modelled: concurrency between event handlers, the bot configuration, application bootstrap, command registration and database index creation. They are not part of this model.
