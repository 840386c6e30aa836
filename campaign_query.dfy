/**
 * The pure part of the campaign list: the escaped, case-insensitive filter, the
 * channel ids whose names match it, the query that ORs the two, what the store then
 * returns (sorted on one key, a window of the matches, their count) and the `spent`
 * field added to each returned campaign.
 */
module CampaignQuery {
  import opened Wrappers
  import opened Models
  import opened Text
  import SpentCalculator
  import Js

  /** The SyntaxCharacter production of section 22.2.1 of ECMA-262: `^ $ \ . * + ? ( ) [ ] { } |`. */
  predicate IsSyntaxCharacter(c: char)
  {
    c in "^$\\.*+?()[]{}|"
  }

  /** `s.replace(/[.*+?^${}()|[\]\\]/g, '\\$&')`: a backslash before every syntax character. */
  function Escape(s: string): (r: string)
    ensures |r| >= |s|
  {
    if s == [] then []
    else (if IsSyntaxCharacter(s[0]) then ['\\', s[0]] else [s[0]]) + Escape(s[1..])
  }

  function Prepend(c: char, rest: Option<string>): Option<string>
  {
    match rest
    case None => None
    case Some(t) => Some([c] + t)
  }

  /**
   * The text a pattern matches when it is made only of ordinary characters and escaped
   * syntax characters (each then matches itself). None for a pattern that uses any
   * regular-expression operator, which the model does not interpret.
   */
  function LiteralOf(p: string): (r: Option<string>)
    decreases |p|
  {
    if p == [] then Some([])
    else if p[0] == '\\' then
      if |p| >= 2 && IsSyntaxCharacter(p[1]) then Prepend(p[1], LiteralOf(p[2..])) else None
    else if IsSyntaxCharacter(p[0]) then None
    else Prepend(p[0], LiteralOf(p[1..]))
  }

  /** An escaped string is a literal pattern, and the literal it matches is the string itself. */
  lemma {:induction false} EscapeRoundTrip(s: string)
    ensures LiteralOf(Escape(s)) == Some(s)
  {
    if s != [] {
      EscapeRoundTrip(s[1..]);
      var e := Escape(s);
      if IsSyntaxCharacter(s[0]) {
        assert e[0] == '\\' && e[1] == s[0] && e[2..] == Escape(s[1..]);
        assert LiteralOf(e) == Prepend(s[0], Some(s[1..]));
        assert s == [s[0]] + s[1..];
      } else {
        assert "^$\\.*+?()[]{}|"[2] == '\\';
        assert e[0] == s[0] && e[1..] == Escape(s[1..]);
        assert LiteralOf(e) == Prepend(s[0], Some(s[1..]));
        assert s == [s[0]] + s[1..];
      }
    }
  }

  /** Escaping loses nothing: different filters give different patterns. */
  lemma EscapeInjective(s: string, t: string)
    requires Escape(s) == Escape(t)
    ensures s == t
  {
    EscapeRoundTrip(s);
    EscapeRoundTrip(t);
  }

  /** A compiled regular expression with the `i` flag; only literal patterns are represented. */
  datatype Regex = IgnoreCaseLiteral(text: string)

  /** `new RegExp(pattern, 'i')` for a literal pattern. */
  function RegExpI(pattern: string): (r: Option<Regex>)
    ensures r.Some? <==> LiteralOf(pattern).Some?
  {
    match LiteralOf(pattern)
    case None => None
    case Some(t) => Some(IgnoreCaseLiteral(t))
  }

  /** `regex.test(s)`: the literal occurs in `s`, upper and lower case not told apart. */
  predicate Test(r: Regex, s: string)
  {
    ContainsIgnoringCase(s, r.text)
  }

  /** The regex built from a filter matches exactly the strings that contain the trimmed filter, ignoring case. */
  lemma FilterRegex(filter: string)
    ensures RegExpI(Escape(Trim(filter))) == Some(IgnoreCaseLiteral(Trim(filter)))
  {
    EscapeRoundTrip(Trim(filter));
  }

  /** `allChannels.filter((c) => regex.test(c.name)).map((c) => c._id)`. */
  function MatchingChannelIds(channels: seq<Channel>, r: Regex): (ids: seq<Id>)
    ensures |ids| <= |channels|
    ensures forall id :: id in ids <==> exists c :: c in channels && Test(r, c.name) && c.id == id
  {
    if channels == [] then []
    else
      var rest := MatchingChannelIds(channels[1..], r);
      assert forall c :: c in channels <==> c == channels[0] || c in channels[1..];
      if Test(r, channels[0].name) then [channels[0].id] + rest else rest
  }

  /** The ids keep the order of the channel list: selecting from a concatenation concatenates the selections. */
  lemma {:induction false} MatchingChannelIdsAppend(a: seq<Channel>, b: seq<Channel>, r: Regex)
    ensures MatchingChannelIds(a + b, r) == MatchingChannelIds(a, r) + MatchingChannelIds(b, r)
  {
    if a != [] {
      assert (a + b)[1..] == a[1..] + b;
      MatchingChannelIdsAppend(a[1..], b, r);
    } else {
      assert a + b == b;
    }
  }

  /** The query object: `{}`, or `{ $or: [{ name: regex }, { channel: { $in: channelIds } }] }`. */
  datatype Query = Everything | NameOrChannel(regex: Regex, channelIds: seq<Id>)

  predicate Matches(q: Query, c: Campaign)
  {
    match q
    case Everything => true
    case NameOrChannel(regex, ids) => Test(regex, c.name) || c.channel in ids
  }

  /** The query `getAllCampaigns` builds for a filter, given the channel list the cache returned. */
  function QueryFor(filter: string, channels: seq<Channel>): (q: Query)
    ensures Trim(filter) == "" <==> q.Everything?
  {
    var trimmed := Trim(filter);
    if trimmed == "" then Everything
    else
      var regex := IgnoreCaseLiteral(trimmed);
      NameOrChannel(regex, MatchingChannelIds(channels, regex))
  }

  /**
   * A blank filter matches every campaign; otherwise a campaign matches exactly when its
   * name, or the name of a channel carrying its channel id, contains the trimmed filter.
   */
  lemma QueryMeaning(filter: string, channels: seq<Channel>, c: Campaign)
    ensures Trim(filter) == "" ==> Matches(QueryFor(filter, channels), c)
    ensures Trim(filter) != "" ==>
      (Matches(QueryFor(filter, channels), c) <==>
        ContainsIgnoringCase(c.name, Trim(filter))
        || exists ch :: ch in channels && ch.id == c.channel && ContainsIgnoringCase(ch.name, Trim(filter)))
  {
  }

  /** The empty filter selects every campaign, in storage order. */
  lemma EmptyFilterFindsAll(docs: seq<Campaign>, channels: seq<Channel>)
    ensures Select(docs, QueryFor("", channels)) == docs
  {
    TrimBlank("");
  }

  /** `Campaign.find(query)` and `countDocuments(query)`: the matching campaigns in storage order. */
  function Select(docs: seq<Campaign>, q: Query): (r: seq<Campaign>)
    ensures |r| <= |docs|
    ensures forall c :: c in r <==> c in docs && Matches(q, c)
    ensures multiset(r) <= multiset(docs)
    ensures q.Everything? ==> r == docs
  {
    if docs == [] then []
    else
      var rest := Select(docs[1..], q);
      assert docs == [docs[0]] + docs[1..];
      assert forall c :: c in docs <==> c == docs[0] || c in docs[1..];
      if Matches(q, docs[0]) then [docs[0]] + rest else rest
  }

  /** Lexicographic order on strings, by character code. */
  predicate StrLe(a: string, b: string)
  {
    a == [] || (b != [] && (a[0] < b[0] || (a[0] == b[0] && StrLe(a[1..], b[1..]))))
  }

  lemma {:induction false} StrLeTotal(a: string, b: string)
    ensures StrLe(a, b) || StrLe(b, a)
  {
    if a != [] && b != [] && a[0] == b[0] {
      StrLeTotal(a[1..], b[1..]);
    }
  }

  lemma {:induction false} StrLeTransitive(a: string, b: string, c: string)
    requires StrLe(a, b) && StrLe(b, c)
    ensures StrLe(a, c)
  {
    if a != [] && b != [] && c != [] && a[0] == b[0] == c[0] {
      StrLeTransitive(a[1..], b[1..], c[1..]);
    }
  }

  /**
   * The sort key order of each sortable field; `channel` sorts on the stored channel id.
   * Any other field is missing from every document, so all campaigns tie.
   */
  predicate KeyLe(field: string, x: Campaign, y: Campaign)
  {
    if field == "name" then StrLe(x.name, y.name)
    else if field == "startDate" then x.startDate <= y.startDate
    else if field == "endDate" then x.endDate <= y.endDate
    else if field == "budget" then x.budget <= y.budget
    else if field == "channel" then StrLe(x.channel, y.channel)
    else true
  }

  /** `x` may come before `y` under the sort object `{ [field]: direction }`. */
  predicate InOrder(field: string, direction: int, x: Campaign, y: Campaign)
  {
    if direction == -1 then KeyLe(field, y, x) else KeyLe(field, x, y)
  }

  lemma InOrderTotal(field: string, direction: int, x: Campaign, y: Campaign)
    ensures InOrder(field, direction, x, y) || InOrder(field, direction, y, x)
  {
    StrLeTotal(x.name, y.name);
    StrLeTotal(x.channel, y.channel);
  }

  lemma InOrderTransitive(field: string, direction: int, x: Campaign, y: Campaign, z: Campaign)
    requires InOrder(field, direction, x, y) && InOrder(field, direction, y, z)
    ensures InOrder(field, direction, x, z)
  {
    if field == "name" {
      if direction == -1 { StrLeTransitive(z.name, y.name, x.name); } else { StrLeTransitive(x.name, y.name, z.name); }
    } else if field == "channel" {
      if direction == -1 { StrLeTransitive(z.channel, y.channel, x.channel); } else { StrLeTransitive(x.channel, y.channel, z.channel); }
    }
  }

  ghost predicate SortedBy(s: seq<Campaign>, field: string, direction: int)
  {
    forall i, j :: 0 <= i < j < |s| ==> InOrder(field, direction, s[i], s[j])
  }

  function Insert(x: Campaign, s: seq<Campaign>, field: string, direction: int): (r: seq<Campaign>)
    requires SortedBy(s, field, direction)
    ensures multiset(r) == multiset(s) + multiset{x}
    ensures SortedBy(r, field, direction)
    decreases |s|, 1
  {
    if s == [] then [x]
    else if InOrder(field, direction, x, s[0]) then
      BeforeHeadBeforeAll(x, s, field, direction);
      ConsSorted(x, s, field, direction);
      [x] + s
    else
      InsertAfterHead(x, s, field, direction)
  }

  function InsertAfterHead(x: Campaign, s: seq<Campaign>, field: string, direction: int): (r: seq<Campaign>)
    requires s != [] && SortedBy(s, field, direction) && !InOrder(field, direction, x, s[0])
    ensures multiset(r) == multiset(s) + multiset{x}
    ensures SortedBy(r, field, direction)
    decreases |s|, 0
  {
    InOrderTotal(field, direction, x, s[0]);
    var rest := Insert(x, s[1..], field, direction);
    assert s == [s[0]] + s[1..];
    HeadBeforeRest(x, s, rest, field, direction);
    ConsSorted(s[0], rest, field, direction);
    [s[0]] + rest
  }

  /** What may precede the head of a sorted list may precede all of it. */
  lemma BeforeHeadBeforeAll(x: Campaign, s: seq<Campaign>, field: string, direction: int)
    requires s != [] && SortedBy(s, field, direction) && InOrder(field, direction, x, s[0])
    ensures forall j :: 0 <= j < |s| ==> InOrder(field, direction, x, s[j])
  {
    forall j | 0 <= j < |s| ensures InOrder(field, direction, x, s[j]) {
      if j > 0 { InOrderTransitive(field, direction, x, s[0], s[j]); }
    }
  }

  /** The head of a sorted list may precede every element of the rest with `x` inserted, when it may precede `x`. */
  lemma HeadBeforeRest(x: Campaign, s: seq<Campaign>, rest: seq<Campaign>, field: string, direction: int)
    requires s != [] && SortedBy(s, field, direction) && InOrder(field, direction, s[0], x)
    requires multiset(rest) == multiset(s[1..]) + multiset{x}
    ensures forall j :: 0 <= j < |rest| ==> InOrder(field, direction, s[0], rest[j])
  {
    forall j | 0 <= j < |rest| ensures InOrder(field, direction, s[0], rest[j]) {
      assert rest[j] in multiset(rest);
      if rest[j] != x {
        assert rest[j] in multiset(s[1..]);
        var k :| 0 <= k < |s[1..]| && s[1..][k] == rest[j];
        assert s[k + 1] == rest[j];
      }
    }
  }

  lemma ConsSorted(h: Campaign, rest: seq<Campaign>, field: string, direction: int)
    requires SortedBy(rest, field, direction)
    requires forall j :: 0 <= j < |rest| ==> InOrder(field, direction, h, rest[j])
    ensures SortedBy([h] + rest, field, direction)
  {
    var r := [h] + rest;
    forall i, j | 0 <= i < j < |r| ensures InOrder(field, direction, r[i], r[j]) {
      if i == 0 { assert r[j] == rest[j - 1]; } else { assert r[i] == rest[i - 1] && r[j] == rest[j - 1]; }
    }
  }

  /** `.sort({ [field]: direction })`: a sorted permutation (ties keep storage order; the store promises no tie-break). */
  function Sort(s: seq<Campaign>, field: string, direction: int): (r: seq<Campaign>)
    ensures multiset(r) == multiset(s)
    ensures SortedBy(r, field, direction)
  {
    if s == [] then []
    else
      assert s == [s[0]] + s[1..];
      Insert(s[0], Sort(s[1..], field, direction), field, direction)
  }

  function Abs(n: int): nat
  {
    if n < 0 then -n else n
  }

  /**
   * `.skip(skip).limit(limit)` on the sorted matches: drop `skip` of them, then keep at
   * most `|limit|` (MongoDB reads a negative limit as its absolute value, and 0 as no limit).
   */
  function Window(s: seq<Campaign>, skip: nat, limit: int): (r: seq<Campaign>)
    ensures limit != 0 ==> |r| <= Abs(limit)
    ensures skip <= |s| ==> skip + |r| <= |s|
    ensures skip <= |s| ==> r == s[skip..skip + |r|]
    ensures forall i :: 0 <= i < |r| ==> skip + i < |s| && r[i] == s[skip + i]
    ensures skip <= |s| && limit != 0 ==> |r| == if skip + Abs(limit) <= |s| then Abs(limit) else |s| - skip
    ensures skip <= |s| && limit == 0 ==> r == s[skip..]
    ensures skip >= |s| ==> r == []
  {
    var from := if skip < |s| then skip else |s|;
    var n := if limit == 0 then |s| - from
             else if from + Abs(limit) <= |s| then Abs(limit) else |s| - from;
    s[from..from + n]
  }

  /** A returned campaign: its stored fields plus `spent` (None is NaN, sent as null). */
  datatype CampaignWithSpent = CampaignWithSpent(campaign: Campaign, spent: Option<real>)

  /** `campaigns.map(c => ({ ...c, spent: calculateSpent(c) }))`, with the one clock reading `now`. */
  function WithSpent(cs: seq<Campaign>, now: int): (r: seq<CampaignWithSpent>)
    ensures |r| == |cs|
    ensures forall i :: 0 <= i < |cs| ==>
      r[i].campaign == cs[i] && r[i].spent == SpentCalculator.CalculateSpent(cs[i].budget, cs[i].startDate, cs[i].endDate, now)
  {
    seq(|cs|, i requires 0 <= i < |cs| => CampaignWithSpent(cs[i], SpentCalculator.CalculateSpent(cs[i].budget, cs[i].startDate, cs[i].endDate, now)))
  }

  /** The list response: `{ campaigns, page, limit, total }`. */
  datatype Listing = Listing(campaigns: seq<CampaignWithSpent>, page: int, limit: int, total: nat)

  function SortDirection(sortOrder: string): (d: int)
    ensures d == -1 <==> sortOrder == "desc"
    ensures d != -1 ==> d == 1
  {
    if sortOrder == "desc" then -1 else 1
  }

  /** `(page - 1) * limit`: how many matches come before the page. */
  function Skip(page: int, limit: int): (n: int)
    ensures page >= 1 && limit >= 0 ==> n >= 0
    ensures page == 1 ==> n == 0
    ensures page >= 1 && limit >= 0 ==> n + limit == page * limit
  {
    (page - 1) * limit
  }

  /** The error the driver gives for a negative skip; the model does not fix its text. */
  const NegativeSkipError: Js.Error := Js.Error("MongoServerError", None, "skip value must be non-negative")

  /**
   * An order the store may return the matches in for one request: a permutation of them,
   * sorted on the one requested field. Campaigns with equal keys may come in any order, and
   * the store may pick a different one for each request.
   */
  ghost predicate StoreOrder(matching: seq<Campaign>, order: seq<Campaign>, field: string, direction: int)
  {
    multiset(order) == multiset(matching) && SortedBy(order, field, direction)
  }

  /**
   * The page a request gets when the store has arranged the `total` matches as `order`: a
   * negative skip is an error; otherwise the window of `order`, with `spent`, and the echoed
   * page and limit.
   */
  function ListPage(order: seq<Campaign>, total: nat, page: int, limit: int, now: int): Result<Listing, Js.Error>
  {
    var skip := Skip(page, limit);
    if skip < 0 then Err(NegativeSkipError)
    else Ok(Listing(WithSpent(Window(order, skip, limit), now), page, limit, total))
  }

  /**
   * What the store gives back for a query, with the ties arranged as `Sort` leaves them
   * (storage order): one of the answers StoreOrder allows.
   */
  function ListFromStore(docs: seq<Campaign>, q: Query, page: int, limit: int, sortField: string, sortOrder: string, now: int)
    : Result<Listing, Js.Error>
  {
    var matching := Select(docs, q);
    ListPage(Sort(matching, sortField, SortDirection(sortOrder)), |matching|, page, limit, now)
  }

  /**
   * Whatever order the store picks, a listing holds at most `limit` campaigns, each a match
   * of the query, stored unchanged and carrying its spent amount, in the requested order;
   * `total` counts every match, ignoring the page.
   */
  lemma ListingContents(docs: seq<Campaign>, q: Query, order: seq<Campaign>, page: int, limit: int,
                        sortField: string, sortOrder: string, now: int)
    requires page >= 1 && limit >= 1
    requires StoreOrder(Select(docs, q), order, sortField, SortDirection(sortOrder))
    ensures ListPage(order, |Select(docs, q)|, page, limit, now).Ok?
    ensures var l := ListPage(order, |Select(docs, q)|, page, limit, now).value;
      && l.page == page && l.limit == limit
      && l.total == |Select(docs, q)|
      && |l.campaigns| <= limit
      && (forall i :: 0 <= i < |l.campaigns| ==> l.campaigns[i].campaign in docs && Matches(q, l.campaigns[i].campaign))
      && (forall i :: 0 <= i < |l.campaigns| ==>
            l.campaigns[i].spent == SpentCalculator.CalculateSpent(l.campaigns[i].campaign.budget,
              l.campaigns[i].campaign.startDate, l.campaigns[i].campaign.endDate, now))
      && (forall i, j :: 0 <= i < j < |l.campaigns| ==>
            InOrder(sortField, SortDirection(sortOrder), l.campaigns[i].campaign, l.campaigns[j].campaign))
  {
    var matching := Select(docs, q);
    ListingOfSorted(docs, q, matching, order, page, limit, sortField, SortDirection(sortOrder), now);
  }

  /** The model's own answer is one of those: ListingContents holds for ListFromStore. */
  lemma StoreListingContents(docs: seq<Campaign>, q: Query, page: int, limit: int, sortField: string, sortOrder: string, now: int)
    requires page >= 1 && limit >= 1
    ensures ListFromStore(docs, q, page, limit, sortField, sortOrder, now).Ok?
    ensures var l := ListFromStore(docs, q, page, limit, sortField, sortOrder, now).value;
      && l.total == |Select(docs, q)| && |l.campaigns| <= limit
      && (forall i :: 0 <= i < |l.campaigns| ==> l.campaigns[i].campaign in docs && Matches(q, l.campaigns[i].campaign))
      && (forall i, j :: 0 <= i < j < |l.campaigns| ==>
            InOrder(sortField, SortDirection(sortOrder), l.campaigns[i].campaign, l.campaigns[j].campaign))
  {
    var order := Sort(Select(docs, q), sortField, SortDirection(sortOrder));
    ListingContents(docs, q, order, page, limit, sortField, sortOrder, now);
  }

  /** ListingContents for any sorted permutation of the matches. */
  lemma ListingOfSorted(docs: seq<Campaign>, q: Query, matching: seq<Campaign>, sorted: seq<Campaign>,
                        page: int, limit: int, field: string, direction: int, now: int)
    requires page >= 1 && limit >= 1
    requires forall c :: c in matching ==> c in docs && Matches(q, c)
    requires multiset(sorted) == multiset(matching) && SortedBy(sorted, field, direction)
    ensures var l := Listing(WithSpent(Window(sorted, Skip(page, limit), limit), now), page, limit, |matching|);
      && |l.campaigns| <= limit
      && (forall i :: 0 <= i < |l.campaigns| ==> l.campaigns[i].campaign in docs && Matches(q, l.campaigns[i].campaign))
      && (forall i :: 0 <= i < |l.campaigns| ==>
            l.campaigns[i].spent == SpentCalculator.CalculateSpent(l.campaigns[i].campaign.budget,
              l.campaigns[i].campaign.startDate, l.campaigns[i].campaign.endDate, now))
      && (forall i, j :: 0 <= i < j < |l.campaigns| ==>
            InOrder(field, direction, l.campaigns[i].campaign, l.campaigns[j].campaign))
  {
    var skip := Skip(page, limit);
    var w := Window(sorted, skip, limit);
    var l := Listing(WithSpent(w, now), page, limit, |matching|);
    WindowOfSorted(matching, sorted, w, skip);
    WindowInOrder(sorted, w, skip, field, direction);
    ListedCampaigns(docs, q, matching, w, l, now, field, direction);
  }

  /** The campaigns of a listing built from a sorted window of the matches. */
  lemma ListedCampaigns(docs: seq<Campaign>, q: Query, matching: seq<Campaign>, w: seq<Campaign>,
                        l: Listing, now: int, field: string, direction: int)
    requires forall c :: c in matching ==> c in docs && Matches(q, c)
    requires forall i :: 0 <= i < |w| ==> w[i] in matching
    requires SortedBy(w, field, direction)
    requires l.campaigns == WithSpent(w, now)
    ensures forall i :: 0 <= i < |l.campaigns| ==> l.campaigns[i].campaign in docs && Matches(q, l.campaigns[i].campaign)
    ensures forall i :: 0 <= i < |l.campaigns| ==>
      l.campaigns[i].spent == SpentCalculator.CalculateSpent(l.campaigns[i].campaign.budget,
        l.campaigns[i].campaign.startDate, l.campaigns[i].campaign.endDate, now)
    ensures forall i, j :: 0 <= i < j < |l.campaigns| ==>
      InOrder(field, direction, l.campaigns[i].campaign, l.campaigns[j].campaign)
  {
    assert forall i :: 0 <= i < |l.campaigns| ==> l.campaigns[i].campaign == w[i];
  }

  /** The window of a sorted permutation of the matches holds only matches, in sorted order. */
  lemma WindowOfSorted(matching: seq<Campaign>, sorted: seq<Campaign>, w: seq<Campaign>, skip: nat)
    requires multiset(sorted) == multiset(matching)
    requires forall i :: 0 <= i < |w| ==> skip + i < |sorted| && w[i] == sorted[skip + i]
    ensures forall i :: 0 <= i < |w| ==> w[i] in matching
  {
    forall i | 0 <= i < |w| ensures w[i] in matching {
      var c := w[i];
      assert skip + i < |sorted| && c == sorted[skip + i];
      assert sorted[skip + i] in multiset(sorted);
    }
  }

  /** A stretch of a sorted sequence is sorted. */
  lemma WindowInOrder(sorted: seq<Campaign>, w: seq<Campaign>, skip: nat, field: string, direction: int)
    requires SortedBy(sorted, field, direction)
    requires forall i :: 0 <= i < |w| ==> skip + i < |sorted| && w[i] == sorted[skip + i]
    ensures SortedBy(w, field, direction)
  {
    forall i, j | 0 <= i < j < |w| ensures InOrder(field, direction, w[i], w[j]) {
      var x, y := w[i], w[j];
      assert skip + i < skip + j < |sorted|;
      assert x == sorted[skip + i] && y == sorted[skip + j];
    }
  }

  /**
   * Page `page` of `limit` campaigns is the stretch of the order the store picked for that
   * request that starts after the first Skip(page, limit) = (page - 1) * limit of them.
   */
  lemma ListingWindow(docs: seq<Campaign>, q: Query, order: seq<Campaign>, page: int, limit: int,
                      sortField: string, sortOrder: string, now: int)
    requires page >= 1 && limit >= 1
    requires StoreOrder(Select(docs, q), order, sortField, SortDirection(sortOrder))
    ensures var l := ListPage(order, |Select(docs, q)|, page, limit, now);
      var skip := Skip(page, limit);
      && l.Ok?
      && l.value.total == |order|
      && (skip >= |order| ==> l.value.campaigns == [])
      && (skip + limit <= |order| ==> |l.value.campaigns| == limit)
      && (forall i :: 0 <= i < |l.value.campaigns| ==> l.value.campaigns[i].campaign == order[skip + i])
  {
    OrderLength(Select(docs, q), order, sortField, SortDirection(sortOrder));
    PageOfOrder(order, |order|, page, limit, now);
  }

  /** ListingWindow for any sequence of `total` campaigns. */
  lemma PageOfOrder(order: seq<Campaign>, total: nat, page: int, limit: int, now: int)
    requires page >= 1 && limit >= 1 && |order| == total
    ensures var l := ListPage(order, total, page, limit, now);
      var skip := Skip(page, limit);
      && l.Ok?
      && l.value.total == total
      && (skip >= |order| ==> l.value.campaigns == [])
      && (skip + limit <= |order| ==> |l.value.campaigns| == limit)
      && (forall i :: 0 <= i < |l.value.campaigns| ==> l.value.campaigns[i].campaign == order[skip + i])
  {
    var skip := Skip(page, limit);
    var w := Window(order, skip, limit);
    assert ListPage(order, total, page, limit, now) == Ok(Listing(WithSpent(w, now), page, limit, total));
  }

  lemma OrderLength(matching: seq<Campaign>, order: seq<Campaign>, field: string, direction: int)
    requires StoreOrder(matching, order, field, direction)
    ensures |order| == |matching|
  {
    assert |multiset(order)| == |multiset(matching)|;
  }

  /**
   * With 12 matches and 5 per page, page 2 holds the 6th to the 10th campaign of the order
   * the store picked for that request, and page 3 the last two.
   */
  lemma TwelveMatchesFivePerPage(docs: seq<Campaign>, q: Query, order: seq<Campaign>, sortField: string, sortOrder: string, now: int)
    requires |Select(docs, q)| == 12
    requires StoreOrder(Select(docs, q), order, sortField, SortDirection(sortOrder))
    ensures var l := ListPage(order, 12, 2, 5, now).value;
      l.total == 12 && |l.campaigns| == 5 && forall i :: 0 <= i < 5 ==> l.campaigns[i].campaign == order[5 + i]
    ensures |ListPage(order, 12, 3, 5, now).value.campaigns| == 2
  {
    ListingWindow(docs, q, order, 2, 5, sortField, sortOrder, now);
    ListingWindow(docs, q, order, 3, 5, sortField, sortOrder, now);
  }

  /**
   * Without a tie-break, pages from separate requests need not fit together: two campaigns
   * with equal keys may come as [a, b] for the request of page 1 and as [b, a] for the
   * request of page 2, so `a` is shown on both pages and `b` on neither.
   */
  lemma TiedPagesOverlap(a: Campaign, b: Campaign, field: string, direction: int, now: int)
    requires KeyLe(field, a, b) && KeyLe(field, b, a)
    ensures StoreOrder([a, b], [a, b], field, direction) && StoreOrder([a, b], [b, a], field, direction)
    ensures ListPage([a, b], 2, 1, 1, now).Ok? && ListPage([b, a], 2, 2, 1, now).Ok?
    ensures ListPage([a, b], 2, 1, 1, now).value.campaigns == [CampaignWithSpent(a, SpentCalculator.CalculateSpent(a.budget, a.startDate, a.endDate, now))]
    ensures ListPage([b, a], 2, 2, 1, now).value.campaigns == [CampaignWithSpent(a, SpentCalculator.CalculateSpent(a.budget, a.startDate, a.endDate, now))]
  {
    assert multiset([b, a]) == multiset([a, b]);
  }

  /** `{ [field]: direction, _id: 1 }`: the requested order, with equal keys ordered by id. */
  predicate InOrderById(field: string, direction: int, x: Campaign, y: Campaign)
  {
    InOrder(field, direction, x, y) && (InOrder(field, direction, y, x) ==> StrLe(x.id, y.id))
  }

  ghost predicate SortedById(s: seq<Campaign>, field: string, direction: int)
  {
    forall i, j :: 0 <= i < j < |s| ==> InOrderById(field, direction, s[i], s[j])
  }

  /** An order the store may return the matches in when the sort also names `_id`. */
  ghost predicate StoreOrderById(matching: seq<Campaign>, order: seq<Campaign>, field: string, direction: int)
  {
    multiset(order) == multiset(matching) && SortedById(order, field, direction)
  }

  /** No two different campaigns share an id, as `_id` guarantees for stored documents. */
  ghost predicate IdsIdentify(s: seq<Campaign>)
  {
    forall i, j :: 0 <= i < |s| && 0 <= j < |s| && s[i].id == s[j].id ==> s[i] == s[j]
  }

  lemma {:induction false} StrLeAntisymmetric(a: string, b: string)
    requires StrLe(a, b) && StrLe(b, a)
    ensures a == b
  {
    if a != [] && b != [] {
      StrLeAntisymmetric(a[1..], b[1..]);
      assert a == [a[0]] + a[1..] && b == [b[0]] + b[1..];
    }
  }

  /** A permutation of campaigns with distinct ids keeps them distinct. */
  lemma IdsIdentifyPermutation(matching: seq<Campaign>, order: seq<Campaign>)
    requires IdsIdentify(matching) && multiset(order) == multiset(matching)
    ensures IdsIdentify(order)
  {
    forall i, j | 0 <= i < |order| && 0 <= j < |order| && order[i].id == order[j].id
      ensures order[i] == order[j]
    {
      assert order[i] in multiset(matching) && order[j] in multiset(matching);
      var k :| 0 <= k < |matching| && matching[k] == order[i];
      var m :| 0 <= m < |matching| && matching[m] == order[j];
    }
  }

  /** Two orders sorted by key and then id, of the same campaigns with distinct ids, are equal. */
  lemma {:induction false} SortedByIdUnique(o1: seq<Campaign>, o2: seq<Campaign>, field: string, direction: int)
    requires multiset(o1) == multiset(o2) && IdsIdentify(o1)
    requires SortedById(o1, field, direction) && SortedById(o2, field, direction)
    ensures o1 == o2
    decreases |o1|
  {
    assert |o1| == |o2| by { assert |multiset(o1)| == |multiset(o2)|; }
    if o1 != [] {
      SameHead(o1, o2, field, direction);
      SameTailMultiset(o1, o2);
      TailSortedById(o1, field, direction);
      TailSortedById(o2, field, direction);
      TailIdsIdentify(o1);
      SortedByIdUnique(o1[1..], o2[1..], field, direction);
      assert o1 == [o1[0]] + o1[1..] && o2 == [o2[0]] + o2[1..];
    }
  }

  /** Both orders start with the same campaign: each head may precede the other, so their ids agree. */
  lemma SameHead(o1: seq<Campaign>, o2: seq<Campaign>, field: string, direction: int)
    requires o1 != [] && o2 != [] && multiset(o1) == multiset(o2) && IdsIdentify(o1)
    requires SortedById(o1, field, direction) && SortedById(o2, field, direction)
    ensures o1[0] == o2[0]
  {
    var x, y := o1[0], o2[0];
    assert y in multiset(o1) && x in multiset(o2);
    var k :| 0 <= k < |o1| && o1[k] == y;
    var m :| 0 <= m < |o2| && o2[m] == x;
    if k != 0 && m != 0 {
      assert InOrderById(field, direction, x, y) && InOrderById(field, direction, y, x);
      StrLeAntisymmetric(x.id, y.id);
    }
  }

  lemma SameTailMultiset(o1: seq<Campaign>, o2: seq<Campaign>)
    requires o1 != [] && o2 != [] && o1[0] == o2[0] && multiset(o1) == multiset(o2)
    ensures multiset(o1[1..]) == multiset(o2[1..])
  {
    DropHeadMultiset(o1);
    DropHeadMultiset(o2);
  }

  lemma DropHeadMultiset(o: seq<Campaign>)
    requires o != []
    ensures multiset(o[1..]) == multiset(o) - multiset{o[0]}
  {
    assert o == [o[0]] + o[1..];
    assert multiset(o) == multiset{o[0]} + multiset(o[1..]);
  }

  lemma TailSortedById(o: seq<Campaign>, field: string, direction: int)
    requires o != [] && SortedById(o, field, direction)
    ensures SortedById(o[1..], field, direction)
  {
    var t := o[1..];
    forall i, j | 0 <= i < j < |t| ensures InOrderById(field, direction, t[i], t[j]) {
      assert t[i] == o[i + 1] && t[j] == o[j + 1];
    }
  }

  lemma TailIdsIdentify(o: seq<Campaign>)
    requires o != [] && IdsIdentify(o)
    ensures IdsIdentify(o[1..])
  {
    var t := o[1..];
    forall i, j | 0 <= i < |t| && 0 <= j < |t| && t[i].id == t[j].id ensures t[i] == t[j] {
      assert t[i] == o[i + 1] && t[j] == o[j + 1];
    }
  }

  /** With `_id` in the sort, every request sees the matches in the same order. */
  lemma StoreOrderByIdUnique(matching: seq<Campaign>, o1: seq<Campaign>, o2: seq<Campaign>, field: string, direction: int)
    requires IdsIdentify(matching)
    requires StoreOrderById(matching, o1, field, direction) && StoreOrderById(matching, o2, field, direction)
    ensures o1 == o2
  {
    IdsIdentifyPermutation(matching, o1);
    SortedByIdUnique(o1, o2, field, direction);
  }

  lemma WindowsAdjoin(s: seq<Campaign>, skip: nat, limit: nat)
    requires limit >= 1
    ensures Window(s, skip, limit) + Window(s, skip + limit, limit) == Window(s, skip, 2 * limit)
  {
  }

  lemma WithSpentAppend(a: seq<Campaign>, b: seq<Campaign>, now: int)
    ensures WithSpent(a, now) + WithSpent(b, now) == WithSpent(a + b, now)
  {
    assert forall i :: 0 <= i < |a| ==> (a + b)[i] == a[i];
    assert forall i :: |a| <= i < |a| + |b| ==> (a + b)[i] == b[i - |a|];
  }

  /**
   * With `_id` in the sort, pages fetched by separate requests fit together: page `page` and
   * the next page form the stretch of 2 * limit matches after the first Skip(page, limit).
   */
  lemma ConsecutivePagesById(matching: seq<Campaign>, o1: seq<Campaign>, o2: seq<Campaign>,
                             field: string, direction: int, page: int, limit: int, now: int)
    requires page >= 1 && limit >= 1 && IdsIdentify(matching)
    requires StoreOrderById(matching, o1, field, direction) && StoreOrderById(matching, o2, field, direction)
    ensures ListPage(o1, |matching|, page, limit, now).Ok? && ListPage(o2, |matching|, page + 1, limit, now).Ok?
    ensures ListPage(o1, |matching|, page, limit, now).value.campaigns + ListPage(o2, |matching|, page + 1, limit, now).value.campaigns
         == WithSpent(Window(o1, Skip(page, limit), 2 * limit), now)
  {
    StoreOrderByIdUnique(matching, o1, o2, field, direction);
    var skip := Skip(page, limit);
    assert Skip(page + 1, limit) == skip + limit;
    var w1, w2 := Window(o1, skip, limit), Window(o1, skip + limit, limit);
    assert ListPage(o1, |matching|, page, limit, now) == Ok(Listing(WithSpent(w1, now), page, limit, |matching|));
    assert ListPage(o2, |matching|, page + 1, limit, now) == Ok(Listing(WithSpent(w2, now), page + 1, limit, |matching|));
    WindowsAdjoin(o1, skip, limit);
    WithSpentAppend(w1, w2, now);
  }
}
