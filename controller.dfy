/** The HTTP query surface: page, size and sort parameters become a page
    request, and each list endpoint hands its argument unchanged to the
    matching service query. */
module Controller {
  import opened Wrappers
  import opened Model
  import opened Repository
  import LoggerService
  import Text

  /** An HTTP response: 200 with a body, 404, or 500 for an exception the
      endpoint does not catch. */
  datatype Response<T> = Success(body: T) | NotFound | InternalError

  const DefaultPage := 0
  const DefaultSize := 20
  const DefaultSort := "timestamp,desc"

  // --------------------------------------------------------------- splitting

  /** The position of the first `c` in `s`, or `|s|` when there is none. */
  function IndexOf(s: string, c: char): (i: nat)
    ensures i <= |s|
    ensures forall j | 0 <= j < i :: s[j] != c
    ensures i < |s| ==> s[i] == c
  {
    if s == [] then 0
    else if s[0] == c then 0
    else 1 + IndexOf(s[1..], c)
  }

  /** Kotlin's `split` on one delimiter: every delimiter separates two parts,
      so empty parts are kept, and the parts joined back give `s`. */
  function Split(s: string, c: char): (parts: seq<string>)
    decreases |s|
    ensures |parts| >= 1
    ensures forall i | 0 <= i < |parts| :: c !in parts[i]
  {
    var i := IndexOf(s, c);
    if i == |s| then [s] else [s[..i]] + Split(s[i + 1..], c)
  }

  /** The parts separated by `c` again. */
  function Join(parts: seq<string>, c: char): string
    requires |parts| >= 1
  {
    if |parts| == 1 then parts[0] else parts[0] + [c] + Join(parts[1..], c)
  }

  lemma {:induction false} JoinSplit(s: string, c: char)
    decreases |s|
    ensures Join(Split(s, c), c) == s
  {
    var i := IndexOf(s, c);
    if i < |s| {
      var rest := Split(s[i + 1..], c);
      var parts := [s[..i]] + rest;
      assert Split(s, c) == parts;
      assert parts[0] == s[..i] && parts[1..] == rest && |parts| > 1;
      JoinSplit(s[i + 1..], c);
      assert Join(parts, c) == s[..i] + [c] + Join(rest, c);
      assert s == s[..i] + [c] + s[i + 1..];
    }
  }

  /** A delimiter-free prefix is skipped by the search for the delimiter. */
  lemma {:induction false} IndexOfAfter(a: string, b: string, c: char)
    requires c !in a
    ensures IndexOf(a + b, c) == |a| + IndexOf(b, c)
  {
    if a == [] {
      assert a + b == b;
    } else {
      assert (a + b)[0] == a[0] && (a + b)[1..] == a[1..] + b;
      IndexOfAfter(a[1..], b, c);
    }
  }

  /** Text before the first delimiter is the first part, and the rest is
      split on its own. */
  lemma SplitAt(a: string, b: string, c: char)
    requires c !in a
    ensures Split(a + [c] + b, c) == [a] + Split(b, c)
  {
    var s := a + [c] + b;
    assert s == a + ([c] + b);
    IndexOfAfter(a, [c] + b, c);
    assert s[..|a|] == a && s[|a| + 1..] == b;
  }

  lemma SplitWhole(a: string, c: char)
    requires c !in a
    ensures Split(a, c) == [a]
  {
    assert a + [] == a;
    IndexOfAfter(a, [], c);
  }

  // ---------------------------------------------------------------- sorting

  /** `Character.isWhitespace`: the ASCII and Unicode spaces, line and
      paragraph separators, excluding the no-break spaces. */
  predicate IsWhitespace(ch: char) {
    || ch == ' ' || ('\t' <= ch <= '\r') || ('\U{1C}' <= ch <= '\U{1F}')
    || ch == '\U{1680}' || ('\U{2000}' <= ch <= '\U{2006}') || ('\U{2008}' <= ch <= '\U{200A}')
    || ch == '\U{2028}' || ch == '\U{2029}' || ch == '\U{205F}' || ch == '\U{3000}'
  }

  /** `StringUtils.hasText`: some character is not whitespace. */
  predicate HasText(s: string) {
    exists i | 0 <= i < |s| :: !IsWhitespace(s[i])
  }

  /** The direction a direction token selects: only "desc", in any case. */
  function DirectionOf(parts: seq<string>): (d: Direction)
    ensures d == Desc <==> |parts| > 1 && Text.Lower(parts[1]) == "desc"
  {
    if |parts| > 1 && Text.Lower(parts[1]) == "desc" then Desc else Asc
  }

  /** `parseSort`: the property is the text before the first comma and the
      direction is descending only for a second token "desc", compared
      without case; further tokens are ignored. A property without text is
      refused by the sort order itself (`Sort.Order`), which the endpoint
      does not catch. */
  function ParseSort(sort: string): (r: Option<Sort>)
    ensures var i := IndexOf(sort, ',');
      && (r.Some? <==> HasText(sort[..i]))
      && (r.Some? ==> r.value.By? && r.value.property == sort[..i])
  {
    var parts := Split(sort, ',');
    if HasText(parts[0]) then Some(By(DirectionOf(parts), parts[0])) else None
  }

  lemma ParseSortDescending(f: string, d: string)
    requires ',' !in f && ',' !in d && HasText(f)
    requires Text.Lower(d) == "desc"
    ensures ParseSort(f + "," + d) == Some(By(Desc, f))
  {
    SplitAt(f, d, ',');
    SplitWhole(d, ',');
  }

  /** A second token other than "desc" (in any case) gives ascending order. */
  lemma ParseSortOtherToken(f: string, d: string)
    requires ',' !in f && ',' !in d && HasText(f)
    requires Text.Lower(d) != "desc"
    ensures ParseSort(f + "," + d) == Some(By(Asc, f))
  {
    SplitAt(f, d, ',');
    SplitWhole(d, ',');
  }

  /** Without a comma the whole string is the property, in ascending order. */
  lemma ParseSortNoComma(f: string)
    requires ',' !in f && HasText(f)
    ensures ParseSort(f) == Some(By(Asc, f))
  {
    SplitWhole(f, ',');
  }

  lemma SplitPair(f: string, d: string)
    requires ',' !in f && ',' !in d
    ensures Split(f + "," + d, ',') == [f, d]
  {
    assert f + "," + d == f + [','] + d;
    SplitAt(f, d, ',');
    SplitWhole(d, ',');
  }

  lemma SplitTriple(f: string, d: string, rest: string)
    requires ',' !in f && ',' !in d
    ensures Split(f + "," + d + "," + rest, ',') == [f, d] + Split(rest, ',')
  {
    assert f + "," + d + "," + rest == f + [','] + (d + [','] + rest);
    SplitAt(f, d + [','] + rest, ',');
    SplitAt(d, rest, ',');
  }

  /** `parseSort` reads only the first two parts. */
  lemma ParseSortByParts(a: string, b: string)
    requires Split(a, ',')[0] == Split(b, ',')[0]
    requires DirectionOf(Split(a, ',')) == DirectionOf(Split(b, ','))
    ensures ParseSort(a) == ParseSort(b)
  {
  }

  /** Tokens after the second are ignored. */
  lemma ParseSortIgnoresRest(f: string, d: string, rest: string)
    requires ',' !in f && ',' !in d
    ensures ParseSort(f + "," + d + "," + rest) == ParseSort(f + "," + d)
  {
    SplitTriple(f, d, rest);
    SplitPair(f, d);
    var pl, ps := Split(f + "," + d + "," + rest, ','), Split(f + "," + d, ',');
    assert pl[0] == ps[0] && pl[1] == ps[1] && |pl| > 1 && |ps| > 1;
    ParseSortByParts(f + "," + d + "," + rest, f + "," + d);
  }

  /** The cases exercised by the controller's tests, and an empty property. */
  lemma ParseSortDefault()
    ensures ParseSort("timestamp,desc") == Some(By(Desc, "timestamp"))
  {
    assert !IsWhitespace("timestamp"[0]);
    assert ',' !in "timestamp" by { forall i | 0 <= i < 9 ensures "timestamp"[i] != ',' {} }
    assert Text.Lower("desc") == "desc";
    assert "timestamp" + "," + "desc" == "timestamp,desc";
    ParseSortDescending("timestamp", "desc");
  }

  lemma ParseSortUpperCaseDesc()
    ensures ParseSort("timestamp,DESC") == Some(By(Desc, "timestamp"))
  {
    assert !IsWhitespace("timestamp"[0]);
    assert ',' !in "timestamp" by { forall i | 0 <= i < 9 ensures "timestamp"[i] != ',' {} }
    assert Text.Lower("DESC") == "desc";
    assert "timestamp" + "," + "DESC" == "timestamp,DESC";
    ParseSortDescending("timestamp", "DESC");
  }

  lemma ParseSortAscending()
    ensures ParseSort("content,asc") == Some(By(Asc, "content"))
  {
    assert !IsWhitespace("content"[0]);
    assert ',' !in "content" by { forall i | 0 <= i < 7 ensures "content"[i] != ',' {} }
    assert Text.Lower("asc") == "asc";
    assert "content" + "," + "asc" == "content,asc";
    ParseSortOtherToken("content", "asc");
  }

  lemma ParseSortUnknownDirection()
    ensures ParseSort("content,foo") == Some(By(Asc, "content"))
  {
    assert !IsWhitespace("content"[0]);
    assert ',' !in "content" by { forall i | 0 <= i < 7 ensures "content"[i] != ',' {} }
    assert Text.Lower("foo") == "foo";
    assert "content" + "," + "foo" == "content,foo";
    ParseSortOtherToken("content", "foo");
  }

  lemma ParseSortPropertyOnly()
    ensures ParseSort("authorName") == Some(By(Asc, "authorName"))
  {
    assert !IsWhitespace("authorName"[0]);
    assert ',' !in "authorName" by { forall i | 0 <= i < 10 ensures "authorName"[i] != ',' {} }
    ParseSortNoComma("authorName");
  }

  lemma ParseSortEmptyProperty()
    ensures ParseSort(",desc") == None
  {
    assert IndexOf(",desc", ',') == 0;
  }

  // ---------------------------------------------------------------- requests

  /** The page request an endpoint builds from its three parameters. */
  function BuildPageRequest(page: int, size: int, sort: string): (r: Option<Pageable>)
    ensures r.Some? <==> page >= 0 && size >= 1 && ParseSort(sort).Some?
    ensures r.Some? ==> r.value == PageRequest(page, size, ParseSort(sort).value)
  {
    match ParseSort(sort)
    case None => None
    case Some(order) => PageRequestOf(page, size, order)
  }

  /** The defaults ask for the first 20 records, newest first. */
  lemma DefaultPageRequest()
    ensures BuildPageRequest(DefaultPage, DefaultSize, DefaultSort)
         == Some(PageRequest(0, 20, By(Desc, "timestamp")))
  {
    ParseSortDefault();
  }

  /** The list endpoints. `order` is the database's listing under the
      requested sort and `fails` whether the query raises. */
  function GetMessagesByChannel(
    s: Store, order: seq<string>, channelId: string, page: int, size: int, sort: string, fails: bool)
    : (r: Response<Page>)
    requires IsListing(s, order)
    ensures r.Success? <==> !fails && BuildPageRequest(page, size, sort).Some?
    ensures r.Success? ==> r.body == LoggerService.GetMessagesByChannel(
                        s, order, channelId, BuildPageRequest(page, size, sort).value)
    ensures r.Success? ==> forall i | 0 <= i < |r.body.content| :: r.body.content[i].channelId == channelId
    ensures !r.Success? ==> r == InternalError
  {
    match BuildPageRequest(page, size, sort)
    case None => InternalError
    case Some(p) => if fails then InternalError else Success(LoggerService.GetMessagesByChannel(s, order, channelId, p))
  }

  function GetMessagesByAuthor(
    s: Store, order: seq<string>, authorId: string, page: int, size: int, sort: string, fails: bool)
    : (r: Response<Page>)
    requires IsListing(s, order)
    ensures r.Success? <==> !fails && BuildPageRequest(page, size, sort).Some?
    ensures r.Success? ==> r.body == LoggerService.GetMessagesByAuthor(
                        s, order, authorId, BuildPageRequest(page, size, sort).value)
    ensures r.Success? ==> forall i | 0 <= i < |r.body.content| :: r.body.content[i].authorId == authorId
    ensures !r.Success? ==> r == InternalError
  {
    match BuildPageRequest(page, size, sort)
    case None => InternalError
    case Some(p) => if fails then InternalError else Success(LoggerService.GetMessagesByAuthor(s, order, authorId, p))
  }

  function SearchMessages(
    s: Store, order: seq<string>, query: string, page: int, size: int, sort: string, fails: bool)
    : (r: Response<Page>)
    requires IsListing(s, order)
    ensures r.Success? <==> !fails && BuildPageRequest(page, size, sort).Some?
    ensures r.Success? ==> r.body == LoggerService.SearchMessages(
                        s, order, query, BuildPageRequest(page, size, sort).value)
    ensures r.Success? ==> forall i | 0 <= i < |r.body.content| ::
                        Text.ContainsIgnoreCase(r.body.content[i].content, query)
    ensures !r.Success? ==> r == InternalError
  {
    match BuildPageRequest(page, size, sort)
    case None => InternalError
    case Some(p) => if fails then InternalError else Success(LoggerService.SearchMessages(s, order, query, p))
  }

  function GetRecentMessages(
    s: Store, order: seq<string>, since: int, page: int, size: int, sort: string, fails: bool)
    : (r: Response<Page>)
    requires IsListing(s, order)
    ensures r.Success? <==> !fails && BuildPageRequest(page, size, sort).Some?
    ensures r.Success? ==> r.body == LoggerService.GetRecentMessages(
                        s, order, since, BuildPageRequest(page, size, sort).value)
    ensures r.Success? ==> forall i | 0 <= i < |r.body.content| :: r.body.content[i].timestamp >= since
    ensures !r.Success? ==> r == InternalError
  {
    match BuildPageRequest(page, size, sort)
    case None => InternalError
    case Some(p) => if fails then InternalError else Success(LoggerService.GetRecentMessages(s, order, since, p))
  }

  /** `getChannelStats`: the service's statistics, or 500 when counting raises. */
  function GetChannelStats(s: Store, channelId: string, fails: bool)
    : (r: Response<map<string, LoggerService.StatValue>>)
    ensures r.Success? <==> !fails
    ensures r.Success? ==> r.body == LoggerService.GetMessageStats(s, channelId)
    ensures !r.Success? ==> r == InternalError
  {
    if fails then InternalError else Success(LoggerService.GetMessageStats(s, channelId))
  }

  /** `getMessageById` is a stub: every id is reported as not found. */
  function GetMessageById(messageId: string): (r: Response<Message>)
    ensures r == NotFound
  {
    NotFound
  }

  /** `healthCheck`: status "UP" and the server time, rendered by the caller. */
  function HealthCheck(nowText: string): (r: Response<map<string, string>>)
    ensures r.Success? && |r.body| == 2
    ensures r.body.Keys == {"status", "timestamp"}
    ensures r.body["status"] == "UP" && r.body["timestamp"] == nowText
  {
    var body := map["status" := "UP", "timestamp" := nowText];
    assert body.Keys == {"status", "timestamp"};
    Success(body)
  }
}
