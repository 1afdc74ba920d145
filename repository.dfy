/** The message collection and its query surface. The collection is a map
    from Discord message id to record: the id is unique in the collection and
    a lookup by it yields one record or none. Each derived query is a
    criterion on records, answered as a count or as one page of the matching
    records. */
module Repository {
  import opened Wrappers
  import opened Model
  import Text

  type Store = map<string, Message>

  /** Every record sits under its own message id and has been given a
      database identifier by the save that stored it. */
  predicate WellFormed(s: Store) {
    forall k | k in s :: s[k].messageId == k && s[k].id.Some?
  }

  /** `findByMessageId`: the record with that message id, if any. */
  function FindByMessageId(s: Store, messageId: string): (r: Option<Message>)
    ensures r.Some? <==> messageId in s
    ensures WellFormed(s) && r.Some? ==> r.value.messageId == messageId && r.value in s.Values
    ensures WellFormed(s) ==>
      (r.Some? <==> exists k | k in s :: s[k].messageId == messageId)
  {
    if messageId in s then Some(s[messageId]) else None
  }

  // ---------------------------------------------------------------- criteria

  /** The derived queries of the repository, one constructor per method name. */
  datatype Criterion =
    | ChannelIs(channelId: string)                      // findByChannelId
    | GuildIs(guildId: string)                          // findByGuildId
    | AuthorIs(authorId: string)                        // findByAuthorId
    | ContentContains(text: string)                     // findByContentContainingIgnoreCase
    | TimestampBetween(start: int, end: int)            // findByTimestampBetween
    | ChannelAndTimestampBetween(channel: string, from: int, to: int)
                                                        // findByChannelIdAndTimestampBetween
    | AuthorAndChannel(author: string, inChannel: string)
                                                        // findByAuthorIdAndChannelId
    | Since(since: int)                                 // findRecentMessages
    | HasAttachments                                    // findMessagesWithAttachments
    | BotIs(isBot: bool)                                // findByIsBot

  /** Whether record `m` satisfies criterion `q`. */
  predicate Matches(q: Criterion, m: Message) {
    match q
    case ChannelIs(c) => m.channelId == c
    case GuildIs(g) => m.guildId == Some(g)
    case AuthorIs(a) => m.authorId == a
    case ContentContains(t) => Text.ContainsIgnoreCase(m.content, t)
    case TimestampBetween(lo, hi) => lo < m.timestamp < hi
    case ChannelAndTimestampBetween(c, lo, hi) => m.channelId == c && lo < m.timestamp < hi
    case AuthorAndChannel(a, c) => m.authorId == a && m.channelId == c
    case Since(t) => m.timestamp >= t
    case HasAttachments => m.attachments != []
    case BotIs(b) => m.isBot == b
  }

  /** The message ids of the stored records satisfying `q`. */
  function MatchingKeys(s: Store, q: Criterion): set<string> {
    set k | k in s && Matches(q, s[k])
  }

  /** `countBy…`: how many stored records satisfy `q`. */
  function CountMatching(s: Store, q: Criterion): (n: nat)
    ensures n <= |s|
    ensures n == 0 <==> forall k | k in s :: !Matches(q, s[k])
  {
    var keys := MatchingKeys(s, q);
    SubsetCard(keys, s.Keys);
    NoMatchingKeys(s, q);
    |keys|
  }

  lemma NoMatchingKeys(s: Store, q: Criterion)
    ensures MatchingKeys(s, q) == {} <==> forall k | k in s :: !Matches(q, s[k])
  {
    if k :| k in s && Matches(q, s[k]) {
      assert k in MatchingKeys(s, q);
    }
  }

  lemma SubsetCard<T>(a: set<T>, b: set<T>)
    requires a <= b
    ensures |a| <= |b|
  {
    assert b == a + (b - a);
  }

  // ------------------------------------------------------------------- pages

  datatype Direction = Asc | Desc

  /** A sort specification: none, or one property and a direction. */
  datatype Sort = Unsorted | By(direction: Direction, property: string)

  /** A page request: zero-based page index, page size and sort. */
  datatype Pageable = PageRequest(page: nat, size: nat, sort: Sort)

  /** One page of results and the total number of matching records. */
  datatype Page = Page(content: seq<Message>, totalElements: nat, pageable: Pageable)

  /** `PageRequest.of`, which refuses a negative index and a size below one. */
  function PageRequestOf(page: int, size: int, sort: Sort): (r: Option<Pageable>)
    ensures r.Some? <==> page >= 0 && size >= 1
    ensures r.Some? ==> r.value.page == page && r.value.size == size && r.value.sort == sort
  {
    if page < 0 || size < 1 then None else Some(PageRequest(page, size, sort))
  }

  /** `order` lists every stored message id exactly once. It stands for the
      order in which the database returns the collection under the page's
      sort, which this model does not compute. */
  predicate IsListing(s: Store, order: seq<string>) {
    && (forall i | 0 <= i < |order| :: order[i] in s)
    && (forall k | k in s :: k in order)
    && Distinct(order)
  }

  /** No id is listed twice. */
  predicate Distinct(order: seq<string>) {
    forall i, j | 0 <= i < j < |order| :: order[i] != order[j]
  }

  /** No two records share a message id: none is shown twice. */
  predicate DistinctRecords(ms: seq<Message>) {
    forall i, j | 0 <= i < j < |ms| :: ms[i].messageId != ms[j].messageId
  }

  /** The tail of a repetition-free listing is repetition-free and does not
      list the head again. */
  lemma DistinctTail(order: seq<string>)
    requires order != [] && Distinct(order)
    ensures Distinct(order[1..]) && order[0] !in order[1..]
  {
    var tail := order[1..];
    forall i, j | 0 <= i < j < |tail| ensures tail[i] != tail[j] {
      assert tail[i] == order[i + 1] && tail[j] == order[j + 1];
    }
    forall i | 0 <= i < |tail| ensures tail[i] != order[0] {
      assert tail[i] == order[i + 1];
    }
  }

  /** The records satisfying `q`, in the order of `order`. */
  function Hits(s: Store, order: seq<string>, q: Criterion): (r: seq<Message>)
    ensures |r| <= |order|
    ensures forall i | 0 <= i < |r| :: Matches(q, r[i]) && r[i] in s.Values
  {
    if order == [] then []
    else
      var rest := Hits(s, order[1..], q);
      if order[0] in s && Matches(q, s[order[0]]) then [s[order[0]]] + rest else rest
  }

  /** Filtering keeps the listing's order: the hits of two consecutive
      parts of a listing are those of the first part, then those of the
      second. */
  lemma {:induction false} HitsAppend(s: Store, a: seq<string>, b: seq<string>, q: Criterion)
    ensures Hits(s, a + b, q) == Hits(s, a, q) + Hits(s, b, q)
  {
    if a == [] {
      assert a + b == b;
    } else {
      assert (a + b)[0] == a[0] && (a + b)[1..] == a[1..] + b;
      HitsAppend(s, a[1..], b, q);
    }
  }

  /** In a well-formed store, each hit over a repetition-free listing comes
      from a listed id, and no record is a hit twice. */
  lemma {:induction false} HitsDistinct(s: Store, order: seq<string>, q: Criterion)
    requires Distinct(order)
    ensures WellFormed(s) ==>
      forall i | 0 <= i < |Hits(s, order, q)| :: Hits(s, order, q)[i].messageId in order
    ensures WellFormed(s) ==> DistinctRecords(Hits(s, order, q))
  {
    if order != [] && WellFormed(s) {
      var tail := order[1..];
      DistinctTail(order);
      HitsDistinct(s, tail, q);
      var rest := Hits(s, tail, q);
      forall i | 0 <= i < |rest| ensures rest[i].messageId in order {
        var k := rest[i].messageId;
        var j :| 0 <= j < |tail| && tail[j] == k;
        assert order[j + 1] == k;
      }
      if order[0] in s && Matches(q, s[order[0]]) {
        var r := [s[order[0]]] + rest;
        assert r == Hits(s, order, q);
        forall i, j | 0 <= i < j < |r| ensures r[i].messageId != r[j].messageId {
          if i == 0 {
            assert r[j] == rest[j - 1] && r[j].messageId in tail;
          } else {
            assert r[i] == rest[i - 1] && r[j] == rest[j - 1];
          }
        }
      }
    }
  }

  /** The listed ids whose stored records satisfy `q`. */
  function ListedMatches(s: Store, order: seq<string>, q: Criterion): set<string> {
    set k | k in order && k in s && Matches(q, s[k])
  }

  /** The listed matches of a non-empty listing: those of its tail, plus
      its head when the head's record matches. */
  lemma ListedMatchesStep(s: Store, order: seq<string>, q: Criterion)
    requires order != []
    ensures ListedMatches(s, order, q)
         == ListedMatches(s, order[1..], q)
            + (if order[0] in s && Matches(q, s[order[0]]) then {order[0]} else {})
  {
    forall k | k in order ensures k == order[0] || k in order[1..] {
      var i :| 0 <= i < |order| && order[i] == k;
      if i > 0 { assert order[1..][i - 1] == k; }
    }
  }

  /** Over a repetition-free listing, there are as many hits as listed ids
      whose records match. */
  lemma {:induction false} HitsCount(s: Store, order: seq<string>, q: Criterion)
    requires Distinct(order)
    ensures |Hits(s, order, q)| == |ListedMatches(s, order, q)|
  {
    if order != [] {
      var tail := order[1..];
      DistinctTail(order);
      HitsCount(s, tail, q);
      ListedMatchesStep(s, order, q);
    }
  }

  /** A listed id whose record matches is among the hits. */
  lemma {:induction false} HitsComplete(s: Store, order: seq<string>, q: Criterion, k: string)
    requires k in order && k in s && Matches(q, s[k])
    ensures s[k] in Hits(s, order, q)
  {
    if order[0] != k {
      HitsComplete(s, order[1..], q, k);
    }
  }

  /** Under a listing, every matching record is among the hits. */
  lemma HitsCompleteAll(s: Store, order: seq<string>, q: Criterion)
    requires IsListing(s, order)
    ensures forall k | k in s && Matches(q, s[k]) :: s[k] in Hits(s, order, q)
  {
    forall k | k in s && Matches(q, s[k]) ensures s[k] in Hits(s, order, q) {
      HitsComplete(s, order, q, k);
    }
  }

  /** Under a listing, the hits are exactly as many as the matching records. */
  lemma ListingHitsCount(s: Store, order: seq<string>, q: Criterion)
    requires IsListing(s, order)
    ensures |Hits(s, order, q)| == CountMatching(s, q)
  {
    HitsCount(s, order, q);
    assert ListedMatches(s, order, q) == MatchingKeys(s, q);
  }

  /** The position of a page's first record among all results. */
  function Start(p: Pageable): nat {
    p.page * p.size
  }

  function Min(a: int, b: int): int { if a <= b then a else b }

  /** One page of the records satisfying `q`: the slice of the hits starting
      at `page * size`, at most `size` long. Record `i` of the page is hit
      `page * size + i`, so in a well-formed store a page never shows a
      record twice (see also `PagesPartitionMatches`). */
  function FindPage(s: Store, order: seq<string>, q: Criterion, p: Pageable): (r: Page)
    requires IsListing(s, order)
    ensures r.pageable == p
    ensures r.totalElements == CountMatching(s, q)
    ensures |r.content| <= p.size
    ensures p.page * p.size < r.totalElements ==>
      |r.content| == Min(p.size, r.totalElements - p.page * p.size)
    ensures forall i | 0 <= i < |r.content| :: Matches(q, r.content[i]) && r.content[i] in s.Values
    ensures r.content == [] <==> p.size == 0 || p.page * p.size >= r.totalElements
    ensures p.page == 0 && r.totalElements <= p.size ==>
      forall k | k in s && Matches(q, s[k]) :: s[k] in r.content
    ensures forall i | 0 <= i < |r.content| ::
      Start(p) + i < |Hits(s, order, q)| && r.content[i] == Hits(s, order, q)[Start(p) + i]
    ensures WellFormed(s) ==> DistinctRecords(r.content)
  {
    var hits := Hits(s, order, q);
    ListingHitsCount(s, order, q);
    HitsDistinct(s, order, q);
    HitsCompleteAll(s, order, q);
    if WellFormed(s) then PagedDistinct(hits, p); Page(Paged(hits, p), |hits|, p)
    else Page(Paged(hits, p), |hits|, p)
  }

  /** The part of `ms` that page `p` shows. */
  function Paged(ms: seq<Message>, p: Pageable): (c: seq<Message>)
    ensures |c| <= p.size
    ensures c == [] <==> p.size == 0 || Start(p) >= |ms|
    ensures Start(p) < |ms| ==> |c| == Min(p.size, |ms| - Start(p))
    ensures p.page == 0 && |ms| <= p.size ==> c == ms
    ensures forall i | 0 <= i < |c| :: Start(p) + i < |ms| && c[i] == ms[Start(p) + i]
  {
    var w := Window(|ms|, p.page, p.size);
    assert w == (0, |ms|) ==> ms[w.0..w.1] == ms;
    Slice(ms, w.0, w.1, Start(p));
    ms[w.0..w.1]
  }

  /** A page of distinct records is distinct. */
  lemma PagedDistinct(ms: seq<Message>, p: Pageable)
    requires DistinctRecords(ms)
    ensures DistinctRecords(Paged(ms, p))
  {
    var c := Paged(ms, p);
    forall i, j | 0 <= i < j < |c| ensures c[i].messageId != c[j].messageId {
      assert c[i] == ms[Start(p) + i] && c[j] == ms[Start(p) + j];
    }
  }

  /** Entry `i` of a non-empty slice starting at `start` is entry
      `start + i` of the whole, and a slice of distinct records is
      distinct. */
  lemma Slice(ms: seq<Message>, lo: nat, hi: nat, start: nat)
    requires lo <= hi <= |ms| && (lo < hi ==> lo == start)
    ensures forall i | 0 <= i < hi - lo :: start + i < |ms| && ms[lo..hi][i] == ms[start + i]
  {
  }

  /** With a positive page size, every matching record of a well-formed
      store is on exactly one page. */
  lemma PagesPartitionMatches(s: Store, order: seq<string>, q: Criterion, size: nat, sort: Sort, k: string)
    requires IsListing(s, order) && WellFormed(s) && size > 0
    requires k in s && Matches(q, s[k])
    ensures exists page: nat :: s[k] in FindPage(s, order, q, PageRequest(page, size, sort)).content
    ensures forall page1: nat, page2: nat |
              && s[k] in FindPage(s, order, q, PageRequest(page1, size, sort)).content
              && s[k] in FindPage(s, order, q, PageRequest(page2, size, sort)).content
              :: page1 == page2
  {
    MatchOnSomePage(s, order, q, size, sort, k);
    forall page1: nat, page2: nat |
      && s[k] in FindPage(s, order, q, PageRequest(page1, size, sort)).content
      && s[k] in FindPage(s, order, q, PageRequest(page2, size, sort)).content
      ensures page1 == page2
    {
      MatchOnOnePage(s, order, q, size, sort, s[k], page1, page2);
    }
  }

  lemma MatchOnSomePage(s: Store, order: seq<string>, q: Criterion, size: nat, sort: Sort, k: string)
    requires IsListing(s, order) && size > 0
    requires k in s && Matches(q, s[k])
    ensures exists page: nat :: s[k] in FindPage(s, order, q, PageRequest(page, size, sort)).content
  {
    var hits := Hits(s, order, q);
    HitsComplete(s, order, q, k);
    ListingHitsCount(s, order, q);
    var i :| 0 <= i < |hits| && hits[i] == s[k];
    var page, j := PageOf(i, size);
    var r := FindPage(s, order, q, PageRequest(page, size, sort));
    assert Start(r.pageable) + j == i;
    assert r.content[j] == hits[i];
  }

  lemma MatchOnOnePage(s: Store, order: seq<string>, q: Criterion, size: nat, sort: Sort, m: Message,
                       page1: nat, page2: nat)
    requires IsListing(s, order) && WellFormed(s) && size > 0
    requires m in FindPage(s, order, q, PageRequest(page1, size, sort)).content
    requires m in FindPage(s, order, q, PageRequest(page2, size, sort)).content
    ensures page1 == page2
  {
    HitsDistinct(s, order, q);
    var p1, p2 := PageRequest(page1, size, sort), PageRequest(page2, size, sort);
    var j1 := PositionOnPage(s, order, q, p1, m);
    var j2 := PositionOnPage(s, order, q, p2, m);
    SameRecordSameIndex(Hits(s, order, q), Start(p1) + j1, Start(p2) + j2);
    SamePage(page1, j1, page2, j2, size);
  }

  /** In a sequence of distinct records, a record has one position. */
  lemma SameRecordSameIndex(ms: seq<Message>, a: nat, b: nat)
    requires DistinctRecords(ms) && a < |ms| && b < |ms| && ms[a] == ms[b]
    ensures a == b
  {
  }

  /** A record on a page is hit `Start(p) + j` for some `j` below the size. */
  lemma PositionOnPage(s: Store, order: seq<string>, q: Criterion, p: Pageable, m: Message) returns (j: nat)
    requires IsListing(s, order) && m in FindPage(s, order, q, p).content
    ensures j < p.size && Start(p) + j < |Hits(s, order, q)| && Hits(s, order, q)[Start(p) + j] == m
  {
    var c := FindPage(s, order, q, p).content;
    j :| 0 <= j < |c| && c[j] == m;
  }

  /** A position `i` is entry `j` of page `page`, for a positive size. */
  lemma {:induction false} PageOf(i: nat, size: nat) returns (page: nat, j: nat)
    requires size > 0
    ensures j < size && page * size + j == i
    decreases i
  {
    if i < size {
      page, j := 0, i;
    } else {
      var p', j' := PageOf(i - size, size);
      page, j := p' + 1, j';
    }
  }

  /** A position lies on only one page of a given positive size. */
  lemma {:induction false} SamePage(a: nat, j1: nat, b: nat, j2: nat, size: nat)
    requires j1 < size && j2 < size && a * size + j1 == b * size + j2
    ensures a == b
    decreases a
  {
    if a > 0 && b > 0 {
      SamePage(a - 1, j1, b - 1, j2, size);
    }
  }

  /** The bounds of page `page` of size `size` over `n` results. */
  function Window(n: nat, page: nat, size: nat): (w: (nat, nat))
    ensures w.0 <= w.1 <= n && w.1 - w.0 <= size
    ensures w.0 == w.1 <==> size == 0 || page * size >= n
    ensures page == 0 && n <= size ==> w == (0, n)
    ensures page * size < n ==> w.0 == page * size && w.1 - w.0 == Min(size, n - page * size)
    ensures w.0 < w.1 ==> w.0 == page * size
  {
    var lo := Min(page * size, n);
    (lo, Min(lo + size, n))
  }

  // ------------------------------------------------------ the query methods

  function FindByChannelId(s: Store, order: seq<string>, channelId: string, p: Pageable): (r: Page)
    requires IsListing(s, order)
    ensures forall i | 0 <= i < |r.content| :: r.content[i].channelId == channelId
    ensures r.totalElements == CountByChannelId(s, channelId)
    ensures WellFormed(s) ==> DistinctRecords(r.content)
  {
    FindPage(s, order, ChannelIs(channelId), p)
  }

  function FindByGuildId(s: Store, order: seq<string>, guildId: string, p: Pageable): (r: Page)
    requires IsListing(s, order)
    ensures forall i | 0 <= i < |r.content| :: r.content[i].guildId == Some(guildId)
    ensures r.totalElements == |set k | k in s && s[k].guildId == Some(guildId)|
    ensures WellFormed(s) ==> DistinctRecords(r.content)
  {
    assert MatchingKeys(s, GuildIs(guildId)) == set k | k in s && s[k].guildId == Some(guildId);
    FindPage(s, order, GuildIs(guildId), p)
  }

  function FindByAuthorId(s: Store, order: seq<string>, authorId: string, p: Pageable): (r: Page)
    requires IsListing(s, order)
    ensures forall i | 0 <= i < |r.content| :: r.content[i].authorId == authorId
    ensures r.totalElements == CountByAuthorId(s, authorId)
    ensures WellFormed(s) ==> DistinctRecords(r.content)
  {
    FindPage(s, order, AuthorIs(authorId), p)
  }

  function FindByContentContainingIgnoreCase(s: Store, order: seq<string>, text: string, p: Pageable): (r: Page)
    requires IsListing(s, order)
    ensures forall i | 0 <= i < |r.content| :: Text.ContainsIgnoreCase(r.content[i].content, text)
    ensures r.totalElements == |set k | k in s && Text.ContainsIgnoreCase(s[k].content, text)|
    ensures WellFormed(s) ==> DistinctRecords(r.content)
  {
    assert MatchingKeys(s, ContentContains(text))
        == set k | k in s && Text.ContainsIgnoreCase(s[k].content, text);
    FindPage(s, order, ContentContains(text), p)
  }

  function FindByTimestampBetween(s: Store, order: seq<string>, start: int, end: int, p: Pageable): (r: Page)
    requires IsListing(s, order)
    ensures forall i | 0 <= i < |r.content| :: start < r.content[i].timestamp < end
    ensures start >= end - 1 ==> r.content == [] && r.totalElements == 0
    ensures WellFormed(s) ==> DistinctRecords(r.content)
  {
    FindPage(s, order, TimestampBetween(start, end), p)
  }

  function FindByChannelIdAndTimestampBetween(
    s: Store, order: seq<string>, channelId: string, start: int, end: int, p: Pageable): (r: Page)
    requires IsListing(s, order)
    ensures forall i | 0 <= i < |r.content| ::
      r.content[i].channelId == channelId && start < r.content[i].timestamp < end
    ensures r.totalElements <= CountByChannelId(s, channelId)
    ensures WellFormed(s) ==> DistinctRecords(r.content)
  {
    var both := MatchingKeys(s, ChannelAndTimestampBetween(channelId, start, end));
    var chan := MatchingKeys(s, ChannelIs(channelId));
    SubsetCard(both, chan);
    FindPage(s, order, ChannelAndTimestampBetween(channelId, start, end), p)
  }

  function FindByAuthorIdAndChannelId(
    s: Store, order: seq<string>, authorId: string, channelId: string, p: Pageable): (r: Page)
    requires IsListing(s, order)
    ensures forall i | 0 <= i < |r.content| ::
      r.content[i].authorId == authorId && r.content[i].channelId == channelId
    ensures r.totalElements <= CountByAuthorId(s, authorId)
    ensures r.totalElements <= CountByChannelId(s, channelId)
    ensures WellFormed(s) ==> DistinctRecords(r.content)
  {
    var both := MatchingKeys(s, AuthorAndChannel(authorId, channelId));
    SubsetCard(both, MatchingKeys(s, AuthorIs(authorId)));
    SubsetCard(both, MatchingKeys(s, ChannelIs(channelId)));
    FindPage(s, order, AuthorAndChannel(authorId, channelId), p)
  }

  function CountByChannelId(s: Store, channelId: string): (n: nat)
    ensures n == |set k | k in s && s[k].channelId == channelId|
    ensures n == 0 <==> forall k | k in s :: s[k].channelId != channelId
  {
    assert MatchingKeys(s, ChannelIs(channelId)) == set k | k in s && s[k].channelId == channelId;
    CountMatching(s, ChannelIs(channelId))
  }

  function CountByAuthorId(s: Store, authorId: string): (n: nat)
    ensures n == |set k | k in s && s[k].authorId == authorId|
    ensures n == 0 <==> forall k | k in s :: s[k].authorId != authorId
  {
    assert MatchingKeys(s, AuthorIs(authorId)) == set k | k in s && s[k].authorId == authorId;
    CountMatching(s, AuthorIs(authorId))
  }

  function FindRecentMessages(s: Store, order: seq<string>, since: int, p: Pageable): (r: Page)
    requires IsListing(s, order)
    ensures forall i | 0 <= i < |r.content| :: r.content[i].timestamp >= since
    ensures r.totalElements == |set k | k in s && s[k].timestamp >= since|
    ensures WellFormed(s) ==> DistinctRecords(r.content)
  {
    assert MatchingKeys(s, Since(since)) == set k | k in s && s[k].timestamp >= since;
    FindPage(s, order, Since(since), p)
  }

  function FindMessagesWithAttachments(s: Store, order: seq<string>, p: Pageable): (r: Page)
    requires IsListing(s, order)
    ensures forall i | 0 <= i < |r.content| :: |r.content[i].attachments| > 0
    ensures r.totalElements == |set k | k in s && s[k].attachments != []|
    ensures WellFormed(s) ==> DistinctRecords(r.content)
  {
    assert MatchingKeys(s, HasAttachments) == set k | k in s && s[k].attachments != [];
    FindPage(s, order, HasAttachments, p)
  }

  function FindByIsBot(s: Store, order: seq<string>, isBot: bool, p: Pageable): (r: Page)
    requires IsListing(s, order)
    ensures forall i | 0 <= i < |r.content| :: r.content[i].isBot == isBot
    ensures r.totalElements == |set k | k in s && s[k].isBot == isBot|
    ensures WellFormed(s) ==> DistinctRecords(r.content)
  {
    assert MatchingKeys(s, BotIs(isBot)) == set k | k in s && s[k].isBot == isBot;
    FindPage(s, order, BotIs(isBot), p)
  }

  /** Case is ignored in both the content and the query. */
  lemma HelloWorldMatchesHello()
    ensures Text.ContainsIgnoreCase("Hello World", "hello")
  {
    assert Text.OccursAt(Text.Lower("Hello World"), Text.Lower("hello"), 0);
  }

  // ------------------------------------------------- saving and deleting

  /** The record as the database stores it: a record without an identifier
      receives `newId`, one that has an identifier keeps it. */
  function Stored(m: Message, newId: string): (r: Message)
    ensures r.id.Some?
    ensures m.id.Some? ==> r == m
    ensures m.id.None? ==> r == m.(id := Some(newId))
  {
    if m.id.Some? then m else m.(id := Some(newId))
  }

  /** The repository's contents. `Save` and `Delete` are the inherited
      `save` and `delete`; every call takes whether the database fails it. */
  class MessageRepository {
    var records: Store

    predicate Valid()
      reads this
    {
      WellFormed(records)
    }

    constructor ()
      ensures Valid() && records == map[]
    {
      records := map[];
    }

    /** `findByMessageId` as a call on the database, which may fail. */
    method Lookup(messageId: string, fails: bool) returns (r: Result<Option<Message>>)
      ensures fails ==> r.Fail?
      ensures !fails ==> r == Ok(FindByMessageId(records, messageId))
    {
      if fails {
        r := Fail("database unavailable");
      } else {
        r := Ok(FindByMessageId(records, messageId));
      }
    }

    /** `save`: insert a record without an identifier, or replace the
        stored record with the same identifier. The unique index on the
        message id refuses an insert whose message id is already stored. A
        record with an identifier is one read from the repository, so it is
        the one stored under its message id. */
    method Save(m: Message, newId: string, fails: bool) returns (r: Result<Message>)
      requires Valid()
      requires m.id.Some? ==> m.messageId in records && records[m.messageId].id == m.id
      modifies this
      ensures Valid()
      ensures r.Fail? ==> records == old(records)
      ensures r.Ok? <==> !fails && (m.id.Some? || m.messageId !in old(records))
      ensures r.Ok? ==> (r.value == Stored(m, newId)
                         && records == old(records)[m.messageId := Stored(m, newId)])
    {
      if fails {
        r := Fail("database unavailable");
      } else if m.id.None? && m.messageId in records {
        r := Fail("duplicate key: messageId");
      } else {
        var saved := Stored(m, newId);
        records := records[m.messageId := saved];
        r := Ok(saved);
      }
    }

    /** `delete`: remove the record with the same identifier, which is one
        read from the repository. */
    method Delete(m: Message, fails: bool) returns (r: Result<()>)
      requires Valid()
      requires m.id.Some? && m.messageId in records && records[m.messageId].id == m.id
      modifies this
      ensures Valid()
      ensures r.Fail? <==> fails
      ensures r.Fail? ==> records == old(records)
      ensures r.Ok? ==> records == old(records) - {m.messageId}
    {
      if fails {
        r := Fail("database unavailable");
      } else {
        records := records - {m.messageId};
        r := Ok(());
      }
    }
  }
}
