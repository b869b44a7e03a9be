/**
 * Status search: the queries the thread and search screens send, the V1 search flow with its
 * V2-only amendment, and the V2 search flow with the V1 refetch of statuses whose video or GIF
 * asset URL the V2 API leaves out. Network answers and the records the per-entity
 * `createOrMerge` returns are inputs.
 */
module Search {
  import opened Wrappers
  import opened TwitterEntity
  import opened TwitterStore
  import opened StatusProperty
  import opened TimelineLookup
  import TimelineQuery

  const DefaultSearchCount := 20
  const ConversationSearchCount := 50

  // ---------------------------------------------------------------- queries

  /** The V1 thread query: statuses to or from the author since the conversation root, retweets filtered out. */
  function ThreadQueryV1(conversationRootTweetID: string, authorUsername: string, maxID: Option<string>): (q: TimelineQuery.TimelineQuery)
    ensures q.count == Some(ConversationSearchCount) && q.maxID == maxID && q.sinceID == Some(conversationRootTweetID)
    ensures q.userID.None? && q.excludeReplies.None?
    ensures q.query == Some("to:" + authorUsername + " OR from:" + authorUsername + " -filter:retweets")
  {
    TimelineQuery.TimelineQuery(Some(ConversationSearchCount), None, maxID, Some(conversationRootTweetID), None,
                                Some("to:" + authorUsername + " OR from:" + authorUsername + " -filter:retweets"))
  }

  /** What the V1 thread query puts on the wire: count 50, the page bound, the root as `since_id`, then the fixed items. */
  lemma ThreadQueryV1Items(conversationRootTweetID: string, authorUsername: string, maxID: Option<string>)
    ensures TimelineQuery.QueryItemsOf(ThreadQueryV1(conversationRootTweetID, authorUsername, maxID))
         == [TimelineQuery.QueryItem(TimelineQuery.Count, "50")]
            + (if maxID.Some? then [TimelineQuery.QueryItem(TimelineQuery.MaxID, maxID.value)] else [])
            + [TimelineQuery.QueryItem(TimelineQuery.SinceID, conversationRootTweetID),
               TimelineQuery.AltTextItem, TimelineQuery.TweetModeItem]
  {
    assert TimelineQuery.Digits(5) == "5";
    assert TimelineQuery.Digits(50) == TimelineQuery.Digits(5) + ['0'];
    assert TimelineQuery.DecimalString(50) == "50";
    var q := ThreadQueryV1(conversationRootTweetID, authorUsername, maxID);
    assert TimelineQuery.ItemIf(TimelineQuery.Count, q.count, TimelineQuery.DecimalString) == [TimelineQuery.QueryItem(TimelineQuery.Count, "50")];
  }

  /** `Twitter.API.V2.Search.RecentTweetQuery`. */
  datatype RecentTweetQuery = RecentTweetQuery(
    query: string,
    maxResults: int,
    sinceID: Option<string>,
    startTime: Option<int>,
    nextToken: Option<string>)

  /** The plain search query: the text as typed, 20 results, no since or start bound. */
  function SearchQueryV2(searchText: string, nextToken: Option<string>): (q: RecentTweetQuery)
    ensures q.query == searchText && q.maxResults == DefaultSearchCount
    ensures q.sinceID.None? && q.startTime.None? && q.nextToken == nextToken
  {
    RecentTweetQuery(searchText, DefaultSearchCount, None, None, nextToken)
  }

  /** The V2 thread query: the conversation's statuses to or from the author, 50 results. */
  function ThreadQueryV2(conversationID: string, authorID: string, sinceID: Option<string>, startTime: Option<int>, nextToken: Option<string>): (q: RecentTweetQuery)
    ensures q.query == "conversation_id:" + conversationID + " (to:" + authorID + " OR from:" + authorID + ")"
    ensures q.maxResults == ConversationSearchCount
    ensures q.sinceID == sinceID && q.startTime == startTime && q.nextToken == nextToken
  {
    RecentTweetQuery("conversation_id:" + conversationID + " (to:" + authorID + " OR from:" + authorID + ")",
                     ConversationSearchCount, sinceID, startTime, nextToken)
  }

  // ---------------------------------------------------------------- the V1 search flow

  function IDsOf(statuses: seq<V1Tweet>): (ids: seq<string>)
    ensures |ids| == |statuses| && forall i :: 0 <= i < |statuses| ==> ids[i] == statuses[i].idStr
  {
    seq(|statuses|, i requires 0 <= i < |statuses| => statuses[i].idStr)
  }

  /**
   * `searchTwitterStatusV1(query:)` after the search answer arrived: the ids of its statuses are
   * looked up with the V2 API first (`lookup`, None when that failed, the failure swallowed);
   * `statusArray` are the records the per-status `createOrMerge` returned; the V2-only amendment
   * runs on them only when the lookup succeeded and the account's user record exists;
   * `attached` holds the records whose `managedObjectContext` is set.
   */
  method SearchStatusV1(statuses: Option<seq<V1Tweet>>, lookup: Option<DictContent>, me: Option<TwitterUser>,
                        statusArray: seq<TwitterStatus>, attached: set<TwitterStatus>)
    returns (lookupIDs: seq<string>, amended: bool)
    modifies set s | s in statusArray
    ensures lookupIDs == IDsOf(statuses.GetOr([]))
    ensures amended <==> lookup.Some? && me.Some?
    ensures forall s :: s in statusArray ==>
      s.state == (if amended then BackfilledV2(lookup.value, s.id, s in attached, old(s.state)) else old(s.state))
    ensures forall s :: s in statusArray ==> s.likeBy == old(s.likeBy) && s.repostBy == old(s.repostBy)
  {
    lookupIDs := IDsOf(statuses.GetOr([]));
    // amend the v2 only properties
    amended := lookup.Some? && me.Some?;
    if amended {
      UpdateStatusesV2(lookup.value, statusArray, attached);
    }
  }

  // ---------------------------------------------------------------- the V2 search flow

  /** The dictionary of one V2 search answer: the `data` tweets followed by the included ones, and the included entities. */
  function SearchDictionary(c: V2Content): DictContent
  {
    var includes := c.includes.GetOr(V2Includes(None, None, None, None, None));
    MakeDictContent(c.data.GetOr([]) + includes.tweets.GetOr([]), includes.users.GetOr([]), includes.media.GetOr([]),
                    includes.places.GetOr([]), includes.polls.GetOr([]))
  }

  /** A search answer is indexed exactly as a lookup gathering that single answer would index it. */
  lemma SearchDictionaryIsSingleLookup(c: V2Content)
    ensures SearchDictionary(c) == MakeDictContent(AllTweets([c]), AllUsers([c]), AllMedia([c]), AllPlaces([c]), AllPolls([c]))
  {
    var includes := c.includes.GetOr(V2Includes(None, None, None, None, None));
    assert [c][..0] == [];
    assert AllTweets([c]) == c.data.GetOr([]) + includes.tweets.GetOr([]);
    assert AllUsers([c]) == includes.users.GetOr([]);
    assert AllMedia([c]) == includes.media.GetOr([]);
    assert AllPlaces([c]) == includes.places.GetOr([]);
    assert AllPolls([c]) == includes.polls.GetOr([]);
  }

  /**
   * Under the last-wins indexing assumed for `MakeDictContent`, an included tweet wins over a
   * `data` tweet with the same id, since it comes later.
   */
  lemma IncludedTweetWins(c: V2Content, i: nat)
    requires c.includes.Some? && c.includes.value.tweets.Some? && i < |c.includes.value.tweets.value|
    requires forall j :: i < j < |c.includes.value.tweets.value| ==> c.includes.value.tweets.value[j].id != c.includes.value.tweets.value[i].id
    ensures SearchDictionary(c).tweetDict[c.includes.value.tweets.value[i].id] == c.includes.value.tweets.value[i]
  {
    var data, included := c.data.GetOr([]), c.includes.value.tweets.value;
    var all := data + included;
    assert all[|data| + i] == included[i];
    forall j | |data| + i < j < |all|
      ensures TweetID(all[j]) != TweetID(all[|data| + i])
    {
      assert all[j] == included[j - |data|];
    }
    IndexByLastWins(all, TweetID, |data| + i);
  }

  predicate IsVideoMedia(m: V2Media)
  {
    V2AttachmentKind(m) == Some(Video) || V2AttachmentKind(m) == Some(AnimatedGIF)
  }

  /** One of the tweet's media keys resolves to a video or an animated GIF. */
  predicate NeedsAssetURL(t: V2Tweet, mediaDict: map<string, V2Media>)
  {
    t.mediaKeys.Some? && exists k :: 0 <= k < |t.mediaKeys.value| && VideoKey(t.mediaKeys.value[k], mediaDict)
  }

  predicate VideoKey(key: string, mediaDict: map<string, V2Media>)
  {
    key in mediaDict && IsVideoMedia(mediaDict[key])
  }

  /** The ids to refetch from V1, tweet by tweet. */
  function RefetchSet(data: seq<V2Tweet>, mediaDict: map<string, V2Media>): set<string>
  {
    if data == [] then {}
    else RefetchSet(data[..|data| - 1], mediaDict) + (if NeedsAssetURL(data[|data| - 1], mediaDict) then {data[|data| - 1].id} else {})
  }

  /** An id is refetched exactly when some `data` tweet with that id has a video or GIF medium. */
  lemma {:induction false} RefetchSetMembers(data: seq<V2Tweet>, mediaDict: map<string, V2Media>, id: string)
    ensures id in RefetchSet(data, mediaDict) <==> exists t :: t in data && NeedsAssetURL(t, mediaDict) && t.id == id
  {
    if data != [] {
      var init := data[..|data| - 1];
      RefetchSetMembers(init, mediaDict, id);
      assert data == init + [data[|data| - 1]];
    }
  }

  /** The nested loops collecting the ids into a set: each tweet at most once, however many such media it has. */
  method RefetchStatusIDs(data: seq<V2Tweet>, mediaDict: map<string, V2Media>) returns (statusIDs: set<string>)
    ensures statusIDs == RefetchSet(data, mediaDict)
  {
    statusIDs := {};
    for i := 0 to |data|
      invariant statusIDs == RefetchSet(data[..i], mediaDict)
    {
      assert data[..i + 1][..i] == data[..i];
      var status := data[i];
      if status.mediaKeys.Some? {
        var mediaKeys := status.mediaKeys.value;
        ghost var before := statusIDs;
        for j := 0 to |mediaKeys|
          invariant statusIDs == before + (if exists k :: 0 <= k < j && VideoKey(mediaKeys[k], mediaDict) then {status.id} else {})
        {
          if mediaKeys[j] in mediaDict && IsVideoMedia(mediaDict[mediaKeys[j]]) {
            statusIDs := statusIDs + {status.id};
          }
        }
      }
    }
    assert data[..|data|] == data;
  }

  /**
   * `searchTwitterStatus(query:)` after the search answer arrived: the dictionary it persists, the
   * V1 refetch it asks for (None when there is nothing to refetch), and its result, which is the
   * answer whatever the refetch's outcome. `refetchOutcome` stands for that outcome; the source
   * only logs it, so nothing here depends on it.
   */
  method SearchStatusV2(content: V2Content, refetchOutcome: Result<bool, string>)
    returns (dictionary: DictContent, refetch: Option<set<string>>, result: Result<V2Content, string>)
    ensures dictionary == SearchDictionary(content)
    ensures refetch.None? <==> RefetchSet(content.data.GetOr([]), dictionary.mediaDict) == {}
    ensures refetch.Some? ==> refetch.value == RefetchSet(content.data.GetOr([]), dictionary.mediaDict)
    ensures result == Success(content)
  {
    dictionary := SearchDictionary(content);
    // query and update entity video/GIF attribute from V1 API
    var statusIDs := RefetchStatusIDs(content.data.GetOr([]), dictionary.mediaDict);
    refetch := None;
    if statusIDs != {} {
      // the refetch's outcome, failure included, is only logged
      refetch := Some(statusIDs);
    }
    result := Success(content);
  }
}
