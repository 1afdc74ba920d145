/** The slash-command handler: the command name selects a handler, required
    options are checked and defaults filled in, one fixed page of results is
    queried and a reply text is built line by line. The reply is returned
    rather than sent. */
module Commands {
  import opened Wrappers
  import opened Model
  import opened Repository
  import LoggerService
  import Text

  /** A slash command as received: its name, the channel it was issued in,
      and the `query`, `hours` and `user` options when given. */
  datatype SlashCommand = SlashCommand(
    name: string, channelId: string,
    query: Option<string>, hours: Option<int>, user: Option<string>)

  const GenericError := "An error occurred while processing your command."
  const SearchPrompt := "Please provide a search query."
  const UserPrompt := "Please specify a user."
  const DefaultHours := 24
  const SecondsPerHour := 3600

  /** The three listing commands, after their options are checked. */
  datatype Listing = Search(query: string) | Recent(hoursBack: int) | UserMessages(userId: string)

  /** The listing a command asks for. `recent` without `hours` looks back
      24 hours; `search` without a query and `user-messages` without a user
      ask for nothing. */
  function ListingOf(cmd: SlashCommand): (l: Option<Listing>)
    requires cmd.name in {"search", "recent", "user-messages"}
    ensures cmd.name == "search" ==> (l.None? <==> cmd.query.None?)
    ensures cmd.name == "search" && l.Some? ==> l.value == Search(cmd.query.value)
    ensures cmd.name == "recent" ==> l.Some? && l.value.Recent?
    ensures cmd.name == "recent" && cmd.hours.None? ==> l == Some(Recent(24))
    ensures cmd.name == "recent" && cmd.hours.Some? ==> l == Some(Recent(cmd.hours.value))
    ensures cmd.name == "user-messages" ==> (l.None? <==> cmd.user.None?)
    ensures cmd.name == "user-messages" && l.Some? ==> l.value == UserMessages(cmd.user.value)
  {
    if cmd.name == "search" then
      if cmd.query.None? then None else Some(Search(cmd.query.value))
    else if cmd.name == "recent" then
      Some(Recent(cmd.hours.GetOr(DefaultHours)))
    else
      if cmd.user.None? then None else Some(UserMessages(cmd.user.value))
  }

  /** The reply to a listing command whose required option is missing:
      each command names the option it lacks, and the prompt is never the
      generic error. */
  function PromptFor(name: string): (r: string)
    ensures name == "search" ==> r == SearchPrompt
    ensures name == "user-messages" ==> r == UserPrompt
    ensures r != GenericError
  {
    if name == "search" then SearchPrompt else UserPrompt
  }

  /** The query each listing makes, always for the first page. The
      `user-messages` query selects by author alone: whether a record
      matches does not depend on its channel. */
  function CriterionOf(l: Listing, now: int): (q: Criterion)
    ensures l.Search? ==>
      forall m: Message :: Matches(q, m) <==> Text.ContainsIgnoreCase(m.content, l.query)
    ensures l.Recent? ==>
      forall m: Message :: Matches(q, m) <==> m.timestamp >= now - l.hoursBack * 3600
    ensures l.UserMessages? ==> forall m: Message :: Matches(q, m) <==> m.authorId == l.userId
    ensures l.UserMessages? ==>
      forall m: Message, c: string :: Matches(q, m.(channelId := c)) == Matches(q, m)
  {
    match l
    case Search(q) => ContentContains(q)
    case Recent(h) => Since(now - h * SecondsPerHour)
    case UserMessages(u) => AuthorIs(u)
  }

  function PageRequestFor(l: Listing): (p: Pageable)
    ensures p.page == 0 && p.sort == Unsorted
    ensures p.size == if l.Recent? then 10 else 5
  {
    if l.Recent? then PageRequest(0, 10, Unsorted) else PageRequest(0, 5, Unsorted)
  }

  /** How many characters of a message's content a listing shows. */
  function PreviewLength(l: Listing): (n: nat)
    ensures n == if l.Recent? then 80 else 100
  {
    if l.Recent? then 80 else 100
  }

  /** At most `n` characters of `content`, marked with "..." when cut. */
  function Truncate(content: string, n: nat): (r: string)
    ensures |content| <= n ==> r == content
    ensures |content| > n ==> r == content[..n] + "..." && |r| == n + 3
    ensures |r| <= n + 3
    ensures |r| >= |content| || |r| == n + 3
    ensures var k := if |content| <= n then |content| else n; r[..k] == content[..k]
  {
    if |content| > n then content[..n] + "..." else content
  }

  /** Timestamps are shown through the formatter; here as their count. */
  function FormatTimestamp(t: int): string {
    Text.IntToString(t)
  }

  // ------------------------------------------------------------ reply text

  /** The icon that opens each listing's title. */
  function Icon(l: Listing): char {
    match l
    case Search(_) => '\U{1F50D}'
    case Recent(_) => '\U{23F0}'
    case UserMessages(_) => '\U{1F464}'
  }

  /** How many records a listing's count line says it shows. */
  function Shown(l: Listing): string {
    if l.Recent? then "10" else "5"
  }

  /** The count line claims exactly the page size the listing requests. */
  lemma ShownIsPageSize(l: Listing)
    ensures Shown(l) == Text.NatToString(PageRequestFor(l).size)
  {
    if l.Recent? {
      assert Text.NatToString(10) == Text.NatToString(1) + [Text.DigitChar(0)];
    } else {
      assert Text.NatToString(5) == [Text.DigitChar(5)];
    }
  }

  /** A listing's title, its count line and a blank line. The count line
      gives the number of matching records and, as "showing first", the
      size of the page the listing asks for. */
  function HeaderLines(l: Listing, total: nat): (lines: seq<string>)
    ensures |lines| == 3 && lines[2] == ""
    ensures lines[0] != [] && lines[0][0] == Icon(l)
    ensures lines[1] == "Found " + Text.NatToString(total)
                        + (if l.Search? then " total matches" else " total messages")
                        + " (showing first " + Text.NatToString(PageRequestFor(l).size) + "):"
  {
    ShownIsPageSize(l);
    var noun := if l.Search? then " total matches" else " total messages";
    var title := match l
      case Search(q) => [Icon(l)] + " **Search Results for \"" + q + "\"**"
      case Recent(h) => [Icon(l)] + " **Recent Messages (Last " + Text.IntToString(h) + " hours)**"
      case UserMessages(u) => [Icon(l)] + " **Messages by <@" + u + ">**";
    [title, "Found " + Text.NatToString(total) + noun + " (showing first " + Shown(l) + "):", ""]
  }

  /** The heading of one shown message: it opens with the author's name in
      bold (the channel's name for `user-messages`) and closes with the
      creation time; `recent` also links the channel in between. */
  function EntryHeading(l: Listing, m: Message): (h: string)
    ensures var who := "**" + (if l.UserMessages? then m.channelName else m.authorName) + "**";
            |h| >= |who| && h[..|who|] == who
    ensures var time := "(" + FormatTimestamp(m.timestamp) + "):";
            |h| >= |time| && h[|h| - |time|..] == time
  {
    var who := "**" + (if l.UserMessages? then m.channelName else m.authorName) + "**";
    var link := "<#" + m.channelId + ">";
    var time := "(" + FormatTimestamp(m.timestamp) + "):";
    var middle := if l.Recent? then " in " + link + " " else " ";
    Text.Infix(who, middle, time);
    who + middle + time
  }

  /** The three lines one message contributes: heading, preview, blank. */
  function Entry(l: Listing, m: Message): seq<string> {
    [EntryHeading(l, m), Truncate(m.content, PreviewLength(l)), ""]
  }

  /** One three-line entry per message, in page order. */
  function Entries(l: Listing, msgs: seq<Message>): (r: seq<seq<string>>)
    ensures |r| == |msgs|
    ensures forall i | 0 <= i < |msgs| :: r[i] == Entry(l, msgs[i])
  {
    seq(|msgs|, i requires 0 <= i < |msgs| => Entry(l, msgs[i]))
  }

  function EntryLines(l: Listing, msgs: seq<Message>): seq<string> {
    Text.Flatten(Entries(l, msgs))
  }

  lemma EntryLinesAppend(l: Listing, a: seq<Message>, b: seq<Message>)
    ensures EntryLines(l, a + b) == EntryLines(l, a) + EntryLines(l, b)
  {
    assert Entries(l, a + b) == Entries(l, a) + Entries(l, b);
    Text.FlattenAppend(Entries(l, a), Entries(l, b));
  }

  /** The entries are three lines per message, in page order, and the
      preview of message `i` is its content truncated to the listing's
      length, never longer than that length plus three. */
  lemma EntryLinesShape(l: Listing, msgs: seq<Message>, i: nat)
    requires i < |msgs|
    ensures |EntryLines(l, msgs)| == 3 * |msgs|
    ensures EntryLines(l, msgs)[3 * i] == EntryHeading(l, msgs[i])
    ensures EntryLines(l, msgs)[3 * i + 1] == Truncate(msgs[i].content, PreviewLength(l))
    ensures |EntryLines(l, msgs)[3 * i + 1]| <= PreviewLength(l) + 3
    ensures EntryLines(l, msgs)[3 * i + 2] == ""
  {
    var blocks := Entries(l, msgs);
    Text.FlattenTriples(blocks, i);
    var lines := Text.Flatten(blocks);
    assert lines[3 * i..3 * i + 3] == Entry(l, msgs[i]);
    assert lines[3 * i] == lines[3 * i..3 * i + 3][0];
    assert lines[3 * i + 1] == lines[3 * i..3 * i + 3][1];
    assert lines[3 * i + 2] == lines[3 * i..3 * i + 3][2];
  }

  /** The reply when a listing finds nothing. It always opens with "No
      messages found"; `search` quotes the query and `recent` names the
      hours. */
  function EmptyReply(l: Listing): (r: string)
    ensures |r| >= |NoneFound| && r[..|NoneFound|] == NoneFound
    ensures l.Search? ==> Text.Contains(r, "\"" + l.query + "\"")
    ensures l.Recent? ==> Text.Contains(r, Text.IntToString(l.hoursBack))
    ensures l.UserMessages? ==> r == NoneFound + " for this user in this channel."
  {
    match l
    case Search(q) =>
      Text.Infix(NoneFound + " containing ", "\"" + q + "\"", ".");
      NoneFound + " containing " + ("\"" + q + "\"") + "."
    case Recent(h) =>
      Text.Infix(NoneFound + " in the last ", Text.IntToString(h), " hours.");
      NoneFound + " in the last " + Text.IntToString(h) + " hours."
    case UserMessages(_) => NoneFound + " for this user in this channel."
  }

  const NoneFound := "No messages found"

  /** The reply to a listing with its options in place; `fault` is the
      failure the service query raises, if it does. */
  function ListingReply(l: Listing, s: Store, order: seq<string>, now: int, fault: Option<string>): (r: string)
    requires IsListing(s, order)
    ensures fault.Some? ==> r == GenericError
    ensures fault.None? ==> (r == EmptyReply(l) <==> CountMatching(s, CriterionOf(l, now)) == 0)
    ensures fault.None? && CountMatching(s, CriterionOf(l, now)) > 0 ==> r != [] && r[0] == Icon(l)
  {
    if fault.Some? then GenericError
    else
      var page := FindPage(s, order, CriterionOf(l, now), PageRequestFor(l));
      if page.content == [] then EmptyReply(l)
      else
        var header := HeaderLines(l, page.totalElements);
        ListedReplyHead(l, header, EntryLines(l, page.content));
        Text.Lines(header + EntryLines(l, page.content))
  }

  /** A reply that lists records opens with the listing's icon, so it is
      never the empty reply. */
  lemma ListedReplyHead(l: Listing, header: seq<string>, entries: seq<string>)
    requires header != [] && header[0] != [] && header[0][0] == Icon(l)
    ensures var r := Text.Lines(header + entries); r != [] && r[0] == Icon(l) && r != EmptyReply(l)
  {
    assert (header + entries)[0] == header[0];
    Text.LinesHead(header + entries);
    var e := EmptyReply(l);
    assert e[0] == e[..|NoneFound|][0] == 'N';
  }

  /** A listing's reply is the fixed "No messages found" text exactly when
      no stored record matches; otherwise it has the three header lines and
      three lines for each shown message: a full page, or every match when
      fewer match. */
  lemma ListingReplyShape(l: Listing, s: Store, order: seq<string>, now: int)
    requires IsListing(s, order)
    ensures var total := CountMatching(s, CriterionOf(l, now));
            var page := FindPage(s, order, CriterionOf(l, now), PageRequestFor(l));
            && (total == 0 ==> ListingReply(l, s, order, now, None) == EmptyReply(l))
            && (total > 0 ==>
                  && ListingReply(l, s, order, now, None)
                       == Text.Lines(HeaderLines(l, total) + EntryLines(l, page.content))
                  && |page.content| == Min(PageRequestFor(l).size, total)
                  && |EntryLines(l, page.content)| == 3 * |page.content|)
  {
    var page := FindPage(s, order, CriterionOf(l, now), PageRequestFor(l));
    if page.content != [] {
      EntryLinesShape(l, page.content, 0);
    }
  }

  /** `recent` without `hours` asks for the records of the last 24 hours. */
  lemma RecentDefaultsTo24Hours(cmd: SlashCommand, now: int)
    requires cmd.name == "recent" && cmd.hours.None?
    ensures CriterionOf(ListingOf(cmd).value, now) == Since(now - 86400)
    ensures PageRequestFor(ListingOf(cmd).value) == PageRequest(0, 10, Unsorted)
  {
  }

  /** `stats`: the channel's message count from the service's statistics. */
  function StatsReply(s: Store, channelId: string, fault: Option<string>): (r: string)
    ensures fault.Some? ==> r == GenericError
    ensures fault.None? ==> r == Text.Lines([
      "\U{1F4CA} **Channel Statistics**",
      "Channel: <#" + channelId + ">",
      "Total Messages: " + Text.NatToString(CountByChannelId(s, channelId))])
  {
    if fault.Some? then GenericError
    else
      var stats := LoggerService.GetMessageStats(s, channelId);
      var total := match stats["totalMessages"]
                   case LongValue(n) => Text.IntToString(n)
                   case StringValue(t) => t;
      Text.Lines(["\U{1F4CA} **Channel Statistics**", "Channel: <#" + channelId + ">", "Total Messages: " + total])
  }

  // ------------------------------------------------------------ the handler

  /** Three appended lines are the text of a three-line block. */
  lemma ThreeLines(a: string, b: string, c: string)
    ensures Text.Lines([a, b, c]) == a + "\n" + b + "\n" + c + "\n"
  {
    assert [c][1..] == [];
    assert Text.Lines([c]) == c + "\n";
    assert [b, c][1..] == [c];
    assert Text.Lines([b, c]) == b + "\n" + (c + "\n");
    assert [a, b, c][1..] == [b, c];
    assert Text.Lines([a, b, c]) == a + "\n" + (b + "\n" + (c + "\n"));
  }

  /** The `buildString` of a listing reply: the header lines, then for each
      shown message its heading, its preview and a blank line. */
  method BuildListingText(l: Listing, page: Page) returns (text: string)
    ensures text == Text.Lines(HeaderLines(l, page.totalElements) + EntryLines(l, page.content))
  {
    var header := HeaderLines(l, page.totalElements);
    var start := header[0] + "\n" + header[1] + "\n" + header[2] + "\n";
    assert header == [header[0], header[1], header[2]];
    ThreeLines(header[0], header[1], header[2]);
    text := AppendEntries(l, start, page.content);
    Text.LinesAppend(header, EntryLines(l, page.content));
  }

  /** The loop of `BuildListingText`: each message's three lines appended
      in page order to `start`. */
  method AppendEntries(l: Listing, start: string, msgs: seq<Message>) returns (text: string)
    ensures text == start + Text.Lines(EntryLines(l, msgs))
  {
    text := start;
    var i := 0;
    assert msgs[..0] == [];
    assert Text.Lines(EntryLines(l, [])) == "";
    while i < |msgs|
      invariant 0 <= i <= |msgs|
      invariant text == start + Text.Lines(EntryLines(l, msgs[..i]))
    {
      var m := msgs[i];
      var heading := EntryHeading(l, m);
      var preview := Truncate(m.content, PreviewLength(l));
      LoopStep(l, start, msgs, i, text);
      text := text + (heading + "\n" + preview + "\n" + "\n");
      i := i + 1;
    }
    assert msgs[..i] == msgs;
  }

  /** One turn of the loop keeps `AppendEntries`'s invariant. */
  lemma LoopStep(l: Listing, start: string, msgs: seq<Message>, i: nat, text: string)
    requires i < |msgs|
    requires text == start + Text.Lines(EntryLines(l, msgs[..i]))
    ensures text + (EntryHeading(l, msgs[i]) + "\n" + Truncate(msgs[i].content, PreviewLength(l)) + "\n" + "\n")
         == start + Text.Lines(EntryLines(l, msgs[..i + 1]))
  {
    var m := msgs[i];
    var done := Text.Lines(EntryLines(l, msgs[..i]));
    var piece := EntryHeading(l, m) + "\n" + Truncate(m.content, PreviewLength(l)) + "\n" + "\n";
    assert msgs[..i + 1] == msgs[..i] + [m];
    AppendEntry(l, msgs[..i], m);
    Shift(start, done, piece, Text.Lines(EntryLines(l, msgs[..i + 1])));
  }

  lemma Shift(start: string, done: string, piece: string, whole: string)
    requires whole == done + piece
    ensures (start + done) + piece == start + whole
  {
  }

  /** Appending one message's entry extends the text by its three lines. */
  lemma AppendEntry(l: Listing, msgs: seq<Message>, m: Message)
    ensures Text.Lines(EntryLines(l, msgs + [m]))
         == Text.Lines(EntryLines(l, msgs))
            + (EntryHeading(l, m) + "\n" + Truncate(m.content, PreviewLength(l)) + "\n" + "\n")
  {
    EntryLinesAppend(l, msgs, [m]);
    assert Entries(l, [m]) == [Entry(l, m)];
    Text.FlattenOne(Entry(l, m));
    Text.LinesAppend(EntryLines(l, msgs), Entry(l, m));
    ThreeLines(EntryHeading(l, m), Truncate(m.content, PreviewLength(l)), "");
  }

  /** `onSlashCommandInteraction`. `order` is the database's natural order,
      `now` the local time, and `fault` the failure the service call raises
      when one is made. */
  method OnSlashCommandInteraction(
    cmd: SlashCommand, s: Store, order: seq<string>, now: int, fault: Option<string>)
    returns (reply: string)
    requires IsListing(s, order)
    ensures cmd.name == "stats" ==> reply == StatsReply(s, cmd.channelId, fault)
    ensures cmd.name in {"search", "recent", "user-messages"} ==>
      match ListingOf(cmd)
      case None => reply == PromptFor(cmd.name)
      case Some(l) => reply == ListingReply(l, s, order, now, fault)
    ensures cmd.name !in {"stats", "search", "recent", "user-messages"} ==>
      reply == "Unknown command: " + cmd.name
    ensures fault.Some? && (cmd.name == "stats" || (cmd.name in {"search", "recent", "user-messages"}
                                                    && ListingOf(cmd).Some?)) ==>
      reply == GenericError
  {
    if cmd.name == "stats" {
      reply := StatsReply(s, cmd.channelId, fault);
    } else if cmd.name in {"search", "recent", "user-messages"} {
      var l := ListingOf(cmd);
      if l.None? {
        reply := PromptFor(cmd.name);
      } else if fault.Some? {
        reply := GenericError;
      } else {
        var page := FindPage(s, order, CriterionOf(l.value, now), PageRequestFor(l.value));
        if page.content == [] {
          reply := EmptyReply(l.value);
        } else {
          reply := BuildListingText(l.value, page);
        }
      }
    } else {
      reply := "Unknown command: " + cmd.name;
    }
  }
}
