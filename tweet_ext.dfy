/**
 * The app's extensions of the older `Tweet` record: its property bags built from V1 and V2
 * wire tweets, the items offered to the share sheet, and the text shown with every short link
 * replaced by its expanded form.
 */
module TweetExt {
  import opened Wrappers
  import opened TwitterEntity
  import opened TwitterStore
  import opened TweetEntity
  import StatusProperty

  // ---------------------------------------------------------------- property bags

  /**
   * `Tweet.Property(entity:networkDate:)` for a V1 tweet. `parseSource` stands for the HTML parse
   * of the `source` field (the document's text, nil when parsing fails).
   */
  function PropertyV1(e: V1Tweet, networkDate: int, parseSource: string -> Option<string>): (p: TweetProperty)
    ensures p.id == e.idStr && p.createdAt == e.createdAt && p.networkDate == networkDate
    ensures p.text == (if e.fullText.Some? then e.fullText.value else if e.text.Some? then e.text.value else "")
    ensures p.conversationID.None? && p.lang.None? && !p.possiblySensitive
    ensures p.replyToTweetID == e.inReplyToStatusIDStr && p.inReplyToUserID == e.inReplyToUserIDStr
    ensures p.source == (if e.source.Some? then parseSource(e.source.value) else None)
  {
    TweetProperty(
      id := e.idStr,
      text := e.fullText.GetOr(e.text.GetOr("")),
      createdAt := e.createdAt,
      conversationID := None,
      replyToTweetID := e.inReplyToStatusIDStr,
      inReplyToUserID := e.inReplyToUserIDStr,
      lang := None,
      possiblySensitive := false,
      source := if e.source.Some? then parseSource(e.source.value) else None,
      networkDate := networkDate)
  }

  /** The two V1 mappers, this one and the status record's, agree on id, text, creation date, source and reply target. */
  lemma PropertyV1AgreesWithStatus(e: V1Tweet, networkDate: int, parseSource: string -> Option<string>)
    ensures var p, q := PropertyV1(e, networkDate, parseSource), StatusProperty.PropertyV1(e, networkDate, parseSource);
      p.id == q.id && p.text == q.text && p.createdAt == q.createdAt && p.source == q.source
      && p.replyToTweetID == q.replyToStatusID && p.inReplyToUserID == q.replyToUserID && p.networkDate == q.updatedAt
  {
  }

  /** `Tweet.Property(entity:replyToTweetID:networkDate:)` for a V2 tweet. */
  function PropertyV2(e: V2Tweet, replyToTweetID: Option<string>, networkDate: int): (p: TweetProperty)
    ensures p.id == e.id && p.text == e.text && p.createdAt == e.createdAt && p.networkDate == networkDate
    ensures p.conversationID == e.conversationID && p.lang == e.lang && p.source == e.source
    ensures p.replyToTweetID == replyToTweetID && p.inReplyToUserID == e.inReplyToUserID
    ensures p.possiblySensitive <==> e.possiblySensitive == Some(true)
  {
    TweetProperty(
      id := e.id,
      text := e.text,
      createdAt := e.createdAt,
      conversationID := e.conversationID,
      replyToTweetID := replyToTweetID,
      inReplyToUserID := e.inReplyToUserID,
      lang := e.lang,
      possiblySensitive := e.possiblySensitive.GetOr(false),
      source := e.source,
      networkDate := networkDate)
  }

  // ---------------------------------------------------------------- share sheet

  /** An item of `activityItems`: the status link or the text. */
  datatype ActivityItem = LinkItem(url: string) | TextItem(text: string)

  function StatusURL(username: string, id: string): string
  {
    "https://twitter.com/" + username + "/status/" + id
  }

  /** `activityItems`: the status link first, then the text unless it is empty. */
  method ActivityItems(tweet: Tweet) returns (items: seq<ActivityItem>)
    ensures 1 <= |items| <= 2
    ensures items[0] == LinkItem(StatusURL(tweet.author.state.username, tweet.id))
    ensures |items| == 2 <==> tweet.text != ""
    ensures |items| == 2 ==> items[1] == TextItem(tweet.text)
  {
    items := [];
    var tweetURL := StatusURL(tweet.author.state.username, tweet.id);
    items := items + [LinkItem(tweetURL)];
    if tweet.text != "" {
      items := items + [TextItem(tweet.text)];
    }
  }

  // ---------------------------------------------------------------- display text

  /** `pattern` occurs in `s` at position `i`. */
  predicate OccursAt(s: string, pattern: string, i: nat)
  {
    i + |pattern| <= |s| && s[i..i + |pattern|] == pattern
  }

  /**
   * `replacingOccurrences(of:with:)`: scanning left to right, every occurrence of `pattern` is
   * replaced and scanning resumes after it; an empty pattern replaces nothing.
   */
  function ReplaceAll(s: string, pattern: string, replacement: string): string
    decreases |s|
  {
    if pattern == [] || |s| < |pattern| then s
    else if s[..|pattern|] == pattern then replacement + ReplaceAll(s[|pattern|..], pattern, replacement)
    else [s[0]] + ReplaceAll(s[1..], pattern, replacement)
  }

  /** A string without an occurrence of the pattern is returned as it is. */
  lemma {:induction false} ReplaceAllAbsent(s: string, pattern: string, replacement: string)
    requires forall i :: 0 <= i <= |s| ==> !OccursAt(s, pattern, i)
    ensures ReplaceAll(s, pattern, replacement) == s
    decreases |s|
  {
    if pattern != [] && |s| >= |pattern| {
      assert !OccursAt(s, pattern, 0);
      forall i | 0 <= i <= |s[1..]|
        ensures !OccursAt(s[1..], pattern, i)
      {
        assert !OccursAt(s, pattern, i + 1);
        if i + |pattern| <= |s[1..]| {
          assert s[1..][i..i + |pattern|] == s[i + 1..i + 1 + |pattern|];
        }
      }
      ReplaceAllAbsent(s[1..], pattern, replacement);
    }
  }

  /** The first occurrence is replaced, and scanning resumes right after it. */
  lemma {:induction false} ReplaceAllFirst(prefix: string, pattern: string, rest: string, replacement: string)
    requires pattern != []
    requires forall i :: 0 <= i < |prefix| ==> !OccursAt(prefix + pattern + rest, pattern, i)
    ensures ReplaceAll(prefix + pattern + rest, pattern, replacement) == prefix + replacement + ReplaceAll(rest, pattern, replacement)
    decreases |prefix|
  {
    var s := prefix + pattern + rest;
    if prefix == [] {
      assert s == pattern + rest;
      assert s[..|pattern|] == pattern;
      assert s[|pattern|..] == rest;
      assert ReplaceAll(s, pattern, replacement) == replacement + ReplaceAll(s[|pattern|..], pattern, replacement);
    } else {
      var tail := prefix[1..] + pattern + rest;
      assert s[1..] == tail;
      assert !OccursAt(s, pattern, 0);
      assert s[..|pattern|] != pattern;
      assert ReplaceAll(s, pattern, replacement) == [s[0]] + ReplaceAll(tail, pattern, replacement);
      forall i | 0 <= i < |prefix[1..]|
        ensures !OccursAt(tail, pattern, i)
      {
        assert !OccursAt(s, pattern, i + 1);
        assert tail[i..i + |pattern|] == s[i + 1..i + 1 + |pattern|];
      }
      ReplaceAllFirst(prefix[1..], pattern, rest, replacement);
      assert [s[0]] + prefix[1..] == prefix;
    }
  }

  /** Replacing an occurrence by the same text changes nothing. */
  lemma {:induction false} ReplaceAllBySelf(s: string, pattern: string)
    ensures ReplaceAll(s, pattern, pattern) == s
    decreases |s|
  {
    if pattern != [] && |s| >= |pattern| {
      if s[..|pattern|] == pattern {
        ReplaceAllBySelf(s[|pattern|..], pattern);
        assert s == s[..|pattern|] + s[|pattern|..];
      } else {
        ReplaceAllBySelf(s[1..], pattern);
        assert s == [s[0]] + s[1..];
      }
    }
  }

  /** The text after the url entities, in entity order; entries lacking either link are skipped. */
  function Displayed(text: string, urls: seq<UrlEntity>): string
  {
    if urls == [] then text
    else
      var before := Displayed(text, urls[..|urls| - 1]);
      var url := urls[|urls| - 1];
      if url.url.Some? && url.expandedURL.Some? then ReplaceAll(before, url.url.value, url.expandedURL.value) else before
  }

  /** Without usable url entities the display text is the text. */
  lemma {:induction false} DisplayedWithoutLinks(text: string, urls: seq<UrlEntity>)
    requires forall i :: 0 <= i < |urls| ==> urls[i].url.None? || urls[i].expandedURL.None?
    ensures Displayed(text, urls) == text
  {
    if urls != [] {
      DisplayedWithoutLinks(text, urls[..|urls| - 1]);
    }
  }

  /** Entities that do not occur in the text, or that expand to themselves, leave it as it is. */
  lemma {:induction false} DisplayedUnchanged(text: string, urls: seq<UrlEntity>)
    requires forall i :: 0 <= i < |urls| && urls[i].url.Some? && urls[i].expandedURL.Some? ==>
      urls[i].expandedURL == urls[i].url || forall j :: 0 <= j <= |text| ==> !OccursAt(text, urls[i].url.value, j)
    ensures Displayed(text, urls) == text
  {
    if urls != [] {
      DisplayedUnchanged(text, urls[..|urls| - 1]);
      var url := urls[|urls| - 1];
      if url.url.Some? && url.expandedURL.Some? {
        if url.expandedURL == url.url {
          ReplaceAllBySelf(text, url.url.value);
        } else {
          ReplaceAllAbsent(text, url.url.value, url.expandedURL.value);
        }
      }
    }
  }

  /** `displayText`: the text rewritten by each url entity in turn. */
  method DisplayText(tweetText: string, urls: Option<seq<UrlEntity>>) returns (text: string)
    ensures text == Displayed(tweetText, urls.GetOr([]))
  {
    text := tweetText;
    var entities := urls.GetOr([]);
    for i := 0 to |entities|
      invariant text == Displayed(tweetText, entities[..i])
    {
      assert entities[..i + 1][..i] == entities[..i];
      var url := entities[i];
      if url.url.Some? && url.expandedURL.Some? {
        text := ReplaceAll(text, url.url.value, url.expandedURL.value);
      }
    }
    assert entities[..|entities|] == entities;
  }
}
