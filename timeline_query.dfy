/**
 * `Twitter.API.Statuses.Timeline.TimelineQuery`: the URL query items of the timeline and
 * search requests. Percent-encoding of the search text is the parameter `urlEncode`.
 */
module TimelineQuery {
  import opened Wrappers

  /** The parameter names these requests use; `Wire` gives the name as sent. */
  datatype Name = Count | UserID | MaxID | SinceID | ExcludeReplies | IncludeExtAltText | TweetMode | Q

  function Wire(n: Name): string
  {
    match n
    case Count => "count"
    case UserID => "user_id"
    case MaxID => "max_id"
    case SinceID => "since_id"
    case ExcludeReplies => "exclude_replies"
    case IncludeExtAltText => "include_ext_alt_text"
    case TweetMode => "tweet_mode"
    case Q => "q"
  }

  datatype QueryItem = QueryItem(name: Name, value: string)

  datatype TimelineQuery = TimelineQuery(
    count: Option<int>,
    userID: Option<string>,
    maxID: Option<string>,
    sinceID: Option<string>,
    excludeReplies: Option<bool>,
    query: Option<string>)

  // ---------------------------------------------------------------- decimal rendering

  predicate IsDigit(c: char) { '0' <= c <= '9' }

  function DigitChar(d: nat): (c: char)
    requires d < 10
    ensures IsDigit(c) && (c as int) - ('0' as int) == d
  {
    (('0' as int) + d) as char
  }

  /** The decimal digits of `n`, most significant first, with no leading zero. */
  function Digits(n: nat): (s: string)
    ensures |s| >= 1 && (forall i :: 0 <= i < |s| ==> IsDigit(s[i]))
    ensures |s| > 1 ==> s[0] != '0'
    decreases n
  {
    if n < 10 then [DigitChar(n)] else Digits(n / 10) + [DigitChar(n % 10)]
  }

  /** `String(n)` for an `Int`: a minus sign for negative values, then the digits. */
  function DecimalString(n: int): (s: string)
    ensures |s| >= 1
    ensures n < 0 <==> s[0] == '-'
  {
    if n < 0 then "-" + Digits(-n) else Digits(n)
  }

  /** The value of a string of decimal digits. */
  function DigitsValue(s: string): nat
    requires forall i :: 0 <= i < |s| ==> IsDigit(s[i])
  {
    if s == [] then 0
    else
      assert IsDigit(s[|s| - 1]);
      DigitsValue(s[..|s| - 1]) * 10 + ((s[|s| - 1] as int) - ('0' as int))
  }

  /** Reading a decimal string back: the inverse of `DecimalString`. */
  function ParseDecimal(s: string): Option<int>
  {
    if s == [] then None
    else if s[0] == '-' then
      (if |s| > 1 && forall i :: 1 <= i < |s| ==> IsDigit(s[i]) then Some(0 - DigitsValue(s[1..])) else None)
    else if forall i :: 0 <= i < |s| ==> IsDigit(s[i]) then Some(DigitsValue(s) as int)
    else None
  }

  lemma {:induction false} DigitsValueOfDigits(n: nat)
    ensures DigitsValue(Digits(n)) == n
    decreases n
  {
    if n >= 10 {
      var s := Digits(n);
      assert s[..|s| - 1] == Digits(n / 10);
      DigitsValueOfDigits(n / 10);
    }
  }

  /** The count renders as a decimal string that reads back as the count. */
  lemma DecimalRoundTrip(n: int)
    ensures ParseDecimal(DecimalString(n)) == Some(n)
  {
    if n < 0 {
      assert DecimalString(n)[1..] == Digits(-n);
      DigitsValueOfDigits(-n);
    } else {
      DigitsValueOfDigits(n);
    }
  }

  // ---------------------------------------------------------------- query items

  /** The rank of a name in the order of `queryItems`; 7 for the name it never uses. */
  function Rank(n: Name): nat
  {
    match n
    case Count => 0
    case UserID => 1
    case MaxID => 2
    case SinceID => 3
    case ExcludeReplies => 4
    case IncludeExtAltText => 5
    case TweetMode => 6
    case Q => 7
  }

  /** Distinct names go out as distinct strings, and the rank tells names apart. */
  lemma WireInjective(m: Name, n: Name)
    ensures Wire(m) == Wire(n) <==> m == n
    ensures Rank(m) == Rank(n) <==> m == n
  {
  }

  function BoolString(b: bool): string { if b then "true" else "false" }
  function Verbatim(s: string): string { s }

  /** The item for an optional parameter, rendered: none when the parameter is unset. */
  function ItemIf<T>(name: Name, v: Option<T>, render: T -> string): (r: seq<QueryItem>)
    ensures |r| <= 1 && (|r| == 1 <==> v.Some?)
    ensures |r| == 1 ==> r[0] == QueryItem(name, render(v.value))
  {
    if v.Some? then [QueryItem(name, render(v.value))] else []
  }

  const AltTextItem := QueryItem(IncludeExtAltText, "true")
  const TweetModeItem := QueryItem(TweetMode, "extended")

  /** What `queryItems` lists: the set parameters in a fixed order, then the two fixed items. */
  function QueryItemsOf(q: TimelineQuery): seq<QueryItem>
  {
    ItemIf(Count, q.count, DecimalString) + ItemIf(UserID, q.userID, Verbatim) + ItemIf(MaxID, q.maxID, Verbatim)
    + ItemIf(SinceID, q.sinceID, Verbatim) + ItemIf(ExcludeReplies, q.excludeReplies, BoolString)
    + [AltTextItem, TweetModeItem]
  }

  /** `queryItems`, append by append; never nil, since the fixed items are always appended. */
  method QueryItems(q: TimelineQuery) returns (r: Option<seq<QueryItem>>)
    ensures r == Some(QueryItemsOf(q))
  {
    var items: seq<QueryItem> := [];
    if q.count.Some? {
      items := items + [QueryItem(Count, DecimalString(q.count.value))];
    }
    assert items == ItemIf(Count, q.count, DecimalString);
    ghost var spec := items;
    if q.userID.Some? {
      items := items + [QueryItem(UserID, q.userID.value)];
    }
    assert items == spec + ItemIf(UserID, q.userID, Verbatim);
    spec := items;
    if q.maxID.Some? {
      items := items + [QueryItem(MaxID, q.maxID.value)];
    }
    assert items == spec + ItemIf(MaxID, q.maxID, Verbatim);
    spec := items;
    if q.sinceID.Some? {
      items := items + [QueryItem(SinceID, q.sinceID.value)];
    }
    assert items == spec + ItemIf(SinceID, q.sinceID, Verbatim);
    spec := items;
    if q.excludeReplies.Some? {
      items := items + [QueryItem(ExcludeReplies, BoolString(q.excludeReplies.value))];
    }
    assert items == spec + ItemIf(ExcludeReplies, q.excludeReplies, BoolString);
    spec := items;
    items := items + [AltTextItem];
    items := items + [TweetModeItem];
    assert items == spec + [AltTextItem, TweetModeItem];
    if items == [] {
      return None;
    }
    return Some(items);
  }

  /** Names strictly follow the order of `queryItems`; in particular none repeats. */
  predicate Ordered(xs: seq<QueryItem>)
  {
    forall i, j :: 0 <= i < j < |xs| ==> Rank(xs[i].name) < Rank(xs[j].name)
  }

  predicate RankedBelow(xs: seq<QueryItem>, k: nat)
  {
    forall i :: 0 <= i < |xs| ==> Rank(xs[i].name) < k
  }

  lemma OrderedAppend(xs: seq<QueryItem>, ys: seq<QueryItem>, k: nat)
    requires Ordered(xs) && RankedBelow(xs, k)
    requires |ys| <= 1 && (|ys| == 1 ==> Rank(ys[0].name) == k)
    ensures Ordered(xs + ys) && RankedBelow(xs + ys, k + 1)
  {
  }

  /** The items of `queryItems` appear in its fixed order, each name at most once. */
  lemma QueryItemsOrdered(q: TimelineQuery)
    ensures Ordered(QueryItemsOf(q))
  {
    var a := ItemIf(Count, q.count, DecimalString);
    var b := ItemIf(UserID, q.userID, Verbatim);
    var c := ItemIf(MaxID, q.maxID, Verbatim);
    var d := ItemIf(SinceID, q.sinceID, Verbatim);
    var e := ItemIf(ExcludeReplies, q.excludeReplies, BoolString);
    OrderedAppend([], a, 0);
    assert [] + a == a;
    OrderedAppend(a, b, 1);
    OrderedAppend(a + b, c, 2);
    OrderedAppend(a + b + c, d, 3);
    OrderedAppend(a + b + c + d, e, 4);
    OrderedAppend(a + b + c + d + e, [AltTextItem], 5);
    OrderedAppend(a + b + c + d + e + [AltTextItem], [TweetModeItem], 6);
    assert a + b + c + d + e + [AltTextItem] + [TweetModeItem] == QueryItemsOf(q);
  }

  /** The item `queryItems` lists under a name, if any: the parameter rendered, or the fixed item. */
  function CandidateOf(q: TimelineQuery, n: Name): Option<QueryItem>
  {
    match n
    case Count => if q.count.Some? then Some(QueryItem(Count, DecimalString(q.count.value))) else None
    case UserID => if q.userID.Some? then Some(QueryItem(UserID, q.userID.value)) else None
    case MaxID => if q.maxID.Some? then Some(QueryItem(MaxID, q.maxID.value)) else None
    case SinceID => if q.sinceID.Some? then Some(QueryItem(SinceID, q.sinceID.value)) else None
    case ExcludeReplies => if q.excludeReplies.Some? then Some(QueryItem(ExcludeReplies, BoolString(q.excludeReplies.value))) else None
    case IncludeExtAltText => Some(AltTextItem)
    case TweetMode => Some(TweetModeItem)
    case Q => None
  }

  /**
   * A parameter is listed exactly when it is set, and then with its rendered value (the count in
   * decimal, `exclude_replies` as "true"/"false"); the fixed items are always listed, last.
   */
  lemma QueryItemsPresence(q: TimelineQuery, n: Name)
    ensures forall x :: x in QueryItemsOf(q) && x.name == n ==> CandidateOf(q, n) == Some(x)
    ensures CandidateOf(q, n).Some? ==> CandidateOf(q, n).value in QueryItemsOf(q)
    ensures |QueryItemsOf(q)| >= 2 && QueryItemsOf(q)[|QueryItemsOf(q)| - 2..] == [AltTextItem, TweetModeItem]
  {
    var a := ItemIf(Count, q.count, DecimalString);
    var b := ItemIf(UserID, q.userID, Verbatim);
    var c := ItemIf(MaxID, q.maxID, Verbatim);
    var d := ItemIf(SinceID, q.sinceID, Verbatim);
    var e := ItemIf(ExcludeReplies, q.excludeReplies, BoolString);
    var fixed := [AltTextItem, TweetModeItem];
    var all := QueryItemsOf(q);
    assert all == a + b + c + d + e + fixed;
    forall x | x in all && x.name == n
      ensures CandidateOf(q, n) == Some(x)
    {
      assert x in a || x in b || x in c || x in d || x in e || x in fixed;
    }
    CandidateListed(q, n, a, b, c, d, e);
    assert all[|all| - 2..] == fixed;
  }

  lemma CandidateListed(q: TimelineQuery, n: Name, a: seq<QueryItem>, b: seq<QueryItem>, c: seq<QueryItem>, d: seq<QueryItem>, e: seq<QueryItem>)
    requires a == ItemIf(Count, q.count, DecimalString) && b == ItemIf(UserID, q.userID, Verbatim)
    requires c == ItemIf(MaxID, q.maxID, Verbatim) && d == ItemIf(SinceID, q.sinceID, Verbatim)
    requires e == ItemIf(ExcludeReplies, q.excludeReplies, BoolString)
    ensures CandidateOf(q, n).Some? ==> CandidateOf(q, n).value in a + b + c + d + e + [AltTextItem, TweetModeItem]
  {
    var all := a + b + c + d + e + [AltTextItem, TweetModeItem];
    match n
    case Count => if q.count.Some? { assert all[0] == a[0]; }
    case UserID => if q.userID.Some? { assert all[|a|] == b[0]; }
    case MaxID => if q.maxID.Some? { assert all[|a + b|] == c[0]; }
    case SinceID => if q.sinceID.Some? { assert all[|a + b + c|] == d[0]; }
    case ExcludeReplies => if q.excludeReplies.Some? { assert all[|a + b + c + d|] == e[0]; }
    case IncludeExtAltText => assert all[|all| - 2] == AltTextItem;
    case TweetMode => assert all[|all| - 1] == TweetModeItem;
    case Q =>
  }

  /** `encodedQueryItems`: a single `q` item holding the encoded search text, or nil without one. */
  method EncodedQueryItems(q: TimelineQuery, urlEncode: string -> string) returns (r: Option<seq<QueryItem>>)
    ensures r.Some? <==> q.query.Some?
    ensures r.Some? ==> r.value == [QueryItem(Q, urlEncode(q.query.value))]
  {
    var items: seq<QueryItem> := [];
    if q.query.Some? {
      items := items + [QueryItem(Q, urlEncode(q.query.value))];
    }
    if items == [] {
      return None;
    }
    return Some(items);
  }

  /** `formQueryItems`, `contentType` and `body` are nil for every timeline query. */
  function FormQueryItems(q: TimelineQuery): (r: Option<seq<QueryItem>>)
    ensures r.None?
  {
    None
  }

  function ContentType(q: TimelineQuery): (r: Option<string>)
    ensures r.None?
  {
    None
  }

  function Body(q: TimelineQuery): (r: Option<seq<bv8>>)
    ensures r.None?
  {
    None
  }
}
