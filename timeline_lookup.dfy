/**
 * The second lookup pass of the timeline service (`APIService+Timeline.swift`): status ids
 * are looked up again in batches of 100, the failed batches are dropped, and the answers are
 * gathered into a dictionary (V1) or a `DictContent` (V2) that then backfills persisted
 * records with what the first response lacked: like and repost flags and media (V1), polls
 * and reply settings (V2). The batch answers are inputs.
 */
module TimelineLookup {
  import opened Wrappers
  import opened SeqUtil
  import opened TwitterEntity
  import opened TwitterStore
  import opened StatusProperty

  /** The lookup endpoints accept at most this many ids. */
  const BatchSize := 100

  /**
   * `stride(from: 0, to: ids.count, by: 100).map { ids[$0 ..< min(ids.count, $0 + 100)] }`:
   * consecutive batches that concatenate to the ids, each non-empty and at most 100 long, all but
   * the last exactly 100.
   */
  function LookupBatches(ids: seq<string>): (r: seq<seq<string>>)
    ensures Flatten(r) == ids
    ensures r == [] <==> ids == []
    ensures forall i :: 0 <= i < |r| ==> 0 < |r[i]| <= BatchSize
    ensures forall i :: 0 <= i < |r| - 1 ==> |r[i]| == BatchSize
    ensures forall i :: 0 <= i < |r| ==> i * BatchSize < |ids| && r[i] == ids[i * BatchSize .. Min(|ids|, (i + 1) * BatchSize)]
  {
    ChunksFlatten(ids, BatchSize);
    ChunksSizes(ids, BatchSize);
    forall i | 0 <= i < |Chunks(ids, BatchSize)|
      ensures i * BatchSize < |ids| && Chunks(ids, BatchSize)[i] == ids[i * BatchSize .. Min(|ids|, (i + 1) * BatchSize)]
    {
      ChunksStride(ids, BatchSize, i);
    }
    Chunks(ids, BatchSize)
  }

  function Present<R>(o: Option<R>): Option<R> { o }

  /** `_responses.compactMap { $0 }`: the answers of the batches that did not fail, in batch order. */
  function SuccessfulResponses<R>(responses: seq<Option<R>>): (r: seq<R>)
    ensures |r| <= |responses|
    ensures forall x :: x in r ==> Some(x) in responses
    ensures forall i :: 0 <= i < |responses| && responses[i].Some? ==> responses[i].value in r
  {
    var r := CompactMap(responses, Present);
    assert forall i :: 0 <= i < |responses| ==> responses[i] in responses;
    r
  }

  /** Every answer can be dropped: without a successful batch there is nothing to gather. */
  lemma {:induction false} AllFailed<R>(responses: seq<Option<R>>)
    requires forall i :: 0 <= i < |responses| ==> responses[i].None?
    ensures SuccessfulResponses(responses) == []
  {
    if responses != [] {
      assert responses == [responses[0]] + responses[1..];
      CompactMapAppend([responses[0]], responses[1..], Present);
      AllFailed(responses[1..]);
    }
  }

  // ---------------------------------------------------------------- V1

  function V1TweetID(t: V1Tweet): string { t.idStr }

  /**
   * The `lookupDict` of `twitterBatchLookup`: every tweet of every answer assigned under its
   * id, in order, so that a later answer overwrites an earlier one with the same id.
   */
  method BuildLookupDict(responses: seq<seq<V1Tweet>>) returns (lookupDict: map<string, V1Tweet>)
    ensures lookupDict == IndexBy(Flatten(responses), V1TweetID)
  {
    lookupDict := map[];
    for i := 0 to |responses|
      invariant lookupDict == IndexBy(Flatten(responses[..i]), V1TweetID)
    {
      lookupDict := AssignAll(lookupDict, Flatten(responses[..i]), responses[i], V1TweetID);
      assert responses[..i + 1] == responses[..i] + [responses[i]];
      FlattenSnoc(responses[..i], responses[i]);
    }
    assert responses[..|responses|] == responses;
  }

  /** The inner loop: the entries of one answer assigned under their keys, one after another. */
  method AssignAll<V>(m: map<string, V>, ghost before: seq<V>, entries: seq<V>, key: V -> string)
    returns (r: map<string, V>)
    requires m == IndexBy(before, key)
    ensures r == IndexBy(before + entries, key)
  {
    r := m;
    ghost var done := before;
    for j := 0 to |entries|
      invariant done == before + entries[..j]
      invariant r == IndexBy(done, key)
    {
      var x := entries[j];
      assert entries[..j + 1] == entries[..j] + [x];
      IndexBySnoc(done, x, key);
      r := r[key(x) := x];
      done := done + [x];
    }
    assert entries[..|entries|] == entries;
  }

  lemma IndexBySnoc<V>(entries: seq<V>, x: V, key: V -> string)
    ensures IndexBy(entries + [x], key) == IndexBy(entries, key)[key(x) := x]
  {
    assert (entries + [x])[..|entries|] == entries;
  }

  /** The entry stored under an id is the last entry with that id. */
  lemma {:induction false} IndexByLastWins<V>(entries: seq<V>, key: V -> string, i: nat)
    requires i < |entries|
    requires forall j :: i < j < |entries| ==> key(entries[j]) != key(entries[i])
    ensures key(entries[i]) in IndexBy(entries, key) && IndexBy(entries, key)[key(entries[i])] == entries[i]
  {
    var n := |entries| - 1;
    var init := entries[..n];
    assert entries == init + [entries[n]];
    IndexBySnoc(init, entries[n], key);
    if i < n {
      assert init[i] == entries[i];
      assert forall j :: i < j < |init| ==> init[j] == entries[j];
      IndexByLastWins(init, key, i);
    }
  }

  /** `TwitterBatchLookupResponse.update(status:me:)`'s media rule: a GIF always replaces, anything else only fills an empty list. */
  predicate HasAnimatedGIF(attachments: seq<TwitterAttachment>)
  {
    exists i :: 0 <= i < |attachments| && attachments[i].kind == AnimatedGIF
  }

  function BackfilledAttachments(current: seq<TwitterAttachment>, lookup: Option<seq<TwitterAttachment>>): (r: seq<TwitterAttachment>)
    ensures lookup.None? ==> r == current
    ensures lookup.Some? && (HasAnimatedGIF(lookup.value) || current == []) ==> r == lookup.value
    ensures lookup.Some? && !HasAnimatedGIF(lookup.value) && current != [] ==> r == current
  {
    if lookup.Some? && HasAnimatedGIF(lookup.value) then lookup.value
    else if lookup.Some? && current == [] then lookup.value
    else current
  }

  function BackfilledFlag(s: set<TwitterUser>, flag: Option<bool>, me: TwitterUser): (r: set<TwitterUser>)
    ensures flag.None? ==> r == s
    ensures flag.Some? ==> r == Membership(s, flag.value, me)
  {
    if flag.Some? then Membership(s, flag.value, me) else s
  }

  /** The value of a record after the V1 backfill: its state and its liked-by and reposted-by sets. */
  datatype Backfill = Backfill(state: StatusState, likeBy: set<TwitterUser>, repostBy: set<TwitterUser>)

  /**
   * The V1 backfill of one record: no change when its id was not looked up; otherwise the like
   * and repost flags are set only when the answer has them, and the media by the rule above.
   */
  function BackfilledV1(lookupDict: map<string, V1Tweet>, id: string, me: TwitterUser, b: Backfill): (r: Backfill)
    ensures id !in lookupDict ==> r == b
    ensures id in lookupDict ==>
      && r.likeBy == BackfilledFlag(b.likeBy, lookupDict[id].favorited, me)
      && r.repostBy == BackfilledFlag(b.repostBy, lookupDict[id].retweeted, me)
      && r.state == b.state.(attachments := BackfilledAttachments(b.state.attachments, V1Attachments(lookupDict[id])))
  {
    if id !in lookupDict then b
    else
      var e := lookupDict[id];
      Backfill(b.state.(attachments := BackfilledAttachments(b.state.attachments, V1Attachments(e))),
               BackfilledFlag(b.likeBy, e.favorited, me), BackfilledFlag(b.repostBy, e.retweeted, me))
  }

  /** Backfilling twice from the same answers changes nothing more. */
  lemma BackfilledV1Idempotent(lookupDict: map<string, V1Tweet>, id: string, me: TwitterUser, b: Backfill)
    ensures BackfilledV1(lookupDict, id, me, BackfilledV1(lookupDict, id, me, b)) == BackfilledV1(lookupDict, id, me, b)
  {
    if id in lookupDict {
      var e := lookupDict[id];
      if e.favorited.Some? { MembershipIdempotent(b.likeBy, e.favorited.value, me); }
      if e.retweeted.Some? { MembershipIdempotent(b.repostBy, e.retweeted.value, me); }
    }
  }

  function ValueOf(s: TwitterStatus): Backfill
    reads s
  {
    Backfill(s.state, s.likeBy, s.repostBy)
  }

  /** `TwitterBatchLookupResponse.update(status:me:)`. */
  method UpdateStatusV1(lookupDict: map<string, V1Tweet>, status: TwitterStatus, me: TwitterUser)
    modifies status
    ensures ValueOf(status) == BackfilledV1(lookupDict, status.id, me, old(ValueOf(status)))
  {
    if status.id !in lookupDict {
      return;
    }
    var lookupStatus := lookupDict[status.id];
    // like state
    if lookupStatus.favorited.Some? {
      status.UpdateIsLike(lookupStatus.favorited.value, me);
    }
    // repost state
    if lookupStatus.retweeted.Some? {
      status.UpdateIsRepost(lookupStatus.retweeted.value, me);
    }
    // media
    var twitterAttachments := V1Attachments(lookupStatus);
    if twitterAttachments.Some? {
      if HasAnimatedGIF(twitterAttachments.value) {
        status.UpdateAttachments(twitterAttachments.value);
        return;
      }
      if status.state.attachments == [] {
        status.UpdateAttachments(twitterAttachments.value);
        return;
      }
    }
  }

  /** `TwitterBatchLookupResponse.update(statuses:me:)`: every listed record is backfilled once, however often it is listed. */
  method UpdateStatusesV1(lookupDict: map<string, V1Tweet>, statuses: seq<TwitterStatus>, me: TwitterUser)
    modifies set s | s in statuses
    ensures forall s :: s in statuses ==> ValueOf(s) == BackfilledV1(lookupDict, s.id, me, old(ValueOf(s)))
  {
    for i := 0 to |statuses|
      invariant forall s :: s in statuses[..i] ==> ValueOf(s) == BackfilledV1(lookupDict, s.id, me, old(ValueOf(s)))
      invariant forall s :: s in statuses && s !in statuses[..i] ==> ValueOf(s) == old(ValueOf(s))
    {
      var status := statuses[i];
      ghost var before := ValueOf(status);
      UpdateStatusV1(lookupDict, status, me);
      if status in statuses[..i] {
        BackfilledV1Idempotent(lookupDict, status.id, me, old(ValueOf(status)));
      }
      assert statuses[..i + 1] == statuses[..i] + [status];
    }
    assert statuses[..|statuses|] == statuses;
  }

  // ---------------------------------------------------------------- V2

  datatype V2Includes = V2Includes(
    tweets: Option<seq<V2Tweet>>,
    users: Option<seq<V2User>>,
    media: Option<seq<V2Media>>,
    places: Option<seq<V2Place>>,
    polls: Option<seq<V2Poll>>)

  /** A V2 lookup (or home timeline) answer: the requested tweets and the included entities. */
  datatype V2Content = V2Content(data: Option<seq<V2Tweet>>, includes: Option<V2Includes>)

  function IncludedTweets(c: V2Content): seq<V2Tweet>
  {
    if c.includes.Some? then c.includes.value.tweets.GetOr([]) else []
  }

  /**
   * The ids `twitterBatchLookupResponses(content:)` looks up: those of the tweets of `data`,
   * then those of the included tweets.
   */
  function HomeLookupIDs(c: V2Content): (ids: seq<string>)
    ensures |ids| == |c.data.GetOr([])| + |IncludedTweets(c)|
    ensures forall i :: 0 <= i < |c.data.GetOr([])| ==> ids[i] == c.data.GetOr([])[i].id
    ensures forall i :: 0 <= i < |IncludedTweets(c)| ==> ids[|c.data.GetOr([])| + i] == IncludedTweets(c)[i].id
  {
    var data, included := c.data.GetOr([]), IncludedTweets(c);
    seq(|data|, i requires 0 <= i < |data| => data[i].id) + seq(|included|, i requires 0 <= i < |included| => included[i].id)
  }

  // The entities of all answers, gathered answer by answer (the tweets: data, then included tweets).

  function AllTweets(rs: seq<V2Content>): seq<V2Tweet>
  {
    if rs == [] then [] else AllTweets(rs[..|rs| - 1]) + rs[|rs| - 1].data.GetOr([]) + IncludedTweets(rs[|rs| - 1])
  }

  function AllUsers(rs: seq<V2Content>): seq<V2User>
  {
    if rs == [] then []
    else AllUsers(rs[..|rs| - 1]) + (if rs[|rs| - 1].includes.Some? then rs[|rs| - 1].includes.value.users.GetOr([]) else [])
  }

  function AllMedia(rs: seq<V2Content>): seq<V2Media>
  {
    if rs == [] then []
    else AllMedia(rs[..|rs| - 1]) + (if rs[|rs| - 1].includes.Some? then rs[|rs| - 1].includes.value.media.GetOr([]) else [])
  }

  function AllPlaces(rs: seq<V2Content>): seq<V2Place>
  {
    if rs == [] then []
    else AllPlaces(rs[..|rs| - 1]) + (if rs[|rs| - 1].includes.Some? then rs[|rs| - 1].includes.value.places.GetOr([]) else [])
  }

  function AllPolls(rs: seq<V2Content>): seq<V2Poll>
  {
    if rs == [] then []
    else AllPolls(rs[..|rs| - 1]) + (if rs[|rs| - 1].includes.Some? then rs[|rs| - 1].includes.value.polls.GetOr([]) else [])
  }

  /**
   * `twitterBatchLookupV2`: the entities of every answer appended in answer order, then indexed
   * by id into a `DictContent`.
   */
  method BuildDictContent(responses: seq<V2Content>) returns (d: DictContent)
    ensures d == MakeDictContent(AllTweets(responses), AllUsers(responses), AllMedia(responses), AllPlaces(responses), AllPolls(responses))
  {
    var tweets: seq<V2Tweet> := [];
    var users: seq<V2User> := [];
    var media: seq<V2Media> := [];
    var places: seq<V2Place> := [];
    var polls: seq<V2Poll> := [];
    for i := 0 to |responses|
      invariant tweets == AllTweets(responses[..i]) && users == AllUsers(responses[..i]) && media == AllMedia(responses[..i])
      invariant places == AllPlaces(responses[..i]) && polls == AllPolls(responses[..i])
    {
      var response := responses[i];
      assert responses[..i + 1][..i] == responses[..i];
      if response.data.Some? {
        tweets := tweets + response.data.value;
      }
      if response.includes.Some? {
        var includes := response.includes.value;
        if includes.tweets.Some? { tweets := tweets + includes.tweets.value; }
        if includes.users.Some? { users := users + includes.users.value; }
        if includes.media.Some? { media := media + includes.media.value; }
        if includes.places.Some? { places := places + includes.places.value; }
        if includes.polls.Some? { polls := polls + includes.polls.value; }
      }
    }
    assert responses[..|responses|] == responses;
    d := MakeDictContent(tweets, users, media, places, polls);
  }

  /** Every tweet an answer carries, requested or included, ends up in the gathered tweets. */
  lemma {:induction false} AllTweetsContains(rs: seq<V2Content>, i: nat, t: V2Tweet)
    requires i < |rs|
    requires t in rs[i].data.GetOr([]) || t in IncludedTweets(rs[i])
    ensures t in AllTweets(rs)
  {
    if i < |rs| - 1 {
      assert rs[..|rs| - 1][i] == rs[i];
      AllTweetsContains(rs[..|rs| - 1], i, t);
    }
  }

  /** So the `DictContent` of the lookup has an entry for the id of every tweet of every answer. */
  lemma LookupIndexesEveryTweet(rs: seq<V2Content>, i: nat, t: V2Tweet)
    requires i < |rs|
    requires t in rs[i].data.GetOr([]) || t in IncludedTweets(rs[i])
    ensures t.id in MakeDictContent(AllTweets(rs), AllUsers(rs), AllMedia(rs), AllPlaces(rs), AllPolls(rs)).tweetDict
  {
    AllTweetsContains(rs, i, t);
  }

  /**
   * The V2 backfill of one record's state: no change when its id was not looked up or the
   * record has no managed object context (`hasContext`); otherwise a poll is attached only when
   * the answer has one, and reply settings are set only when present.
   */
  function BackfilledV2(d: DictContent, id: string, hasContext: bool, s: StatusState): (r: StatusState)
    ensures id !in d.tweetDict || !hasContext ==> r == s
    ensures id in d.tweetDict && hasContext ==>
      && r.poll == (if d.PollFor(d.tweetDict[id]).Some? then d.PollFor(d.tweetDict[id]) else s.poll)
      && r.replySettings == (if d.tweetDict[id].replySettings.Some? then Some(TwitterReplySettings(d.tweetDict[id].replySettings.value)) else s.replySettings)
      && r == s.(poll := r.poll, replySettings := r.replySettings)
  {
    if id !in d.tweetDict || !hasContext then s
    else
      var t := d.tweetDict[id];
      var s1 := if d.PollFor(t).Some? then s.(poll := d.PollFor(t)) else s;
      if t.replySettings.Some? then s1.(replySettings := Some(TwitterReplySettings(t.replySettings.value))) else s1
  }

  /** Backfilling twice from the same answers changes nothing more. */
  lemma BackfilledV2Idempotent(d: DictContent, id: string, hasContext: bool, s: StatusState)
    ensures BackfilledV2(d, id, hasContext, BackfilledV2(d, id, hasContext, s)) == BackfilledV2(d, id, hasContext, s)
  {
  }

  /**
   * `TwitterBatchLookupResponseV2.update(status:me:)`; the poll record is kept as its value.
   * `attached` holds the records whose `managedObjectContext` is set.
   */
  method UpdateStatusV2(d: DictContent, status: TwitterStatus, attached: set<TwitterStatus>)
    modifies status
    ensures status.state == BackfilledV2(d, status.id, status in attached, old(status.state))
    ensures status.likeBy == old(status.likeBy) && status.repostBy == old(status.repostBy)
  {
    if status.id !in d.tweetDict {
      return;
    }
    var lookupStatus := d.tweetDict[status.id];
    if status !in attached {
      return;
    }
    // poll
    var poll := d.PollFor(lookupStatus);
    if poll.Some? {
      status.AttachPoll(poll.value);
    }
    // reply settings
    if lookupStatus.replySettings.Some? {
      status.UpdateReplySettings(TwitterReplySettings(lookupStatus.replySettings.value));
    }
  }

  /** `TwitterBatchLookupResponseV2.update(statuses:me:)`. */
  method UpdateStatusesV2(d: DictContent, statuses: seq<TwitterStatus>, attached: set<TwitterStatus>)
    modifies set s | s in statuses
    ensures forall s :: s in statuses ==> s.state == BackfilledV2(d, s.id, s in attached, old(s.state))
    ensures forall s :: s in statuses ==> s.likeBy == old(s.likeBy) && s.repostBy == old(s.repostBy)
  {
    for i := 0 to |statuses|
      invariant forall s :: s in statuses[..i] ==> s.state == BackfilledV2(d, s.id, s in attached, old(s.state))
      invariant forall s :: s in statuses && s !in statuses[..i] ==> s.state == old(s.state)
      invariant forall s :: s in statuses ==> s.likeBy == old(s.likeBy) && s.repostBy == old(s.repostBy)
    {
      var status := statuses[i];
      UpdateStatusV2(d, status, attached);
      if status in statuses[..i] {
        BackfilledV2Idempotent(d, status.id, status in attached, old(status.state));
      }
      assert statuses[..i + 1] == statuses[..i] + [status];
    }
    assert statuses[..|statuses|] == statuses;
  }
}
