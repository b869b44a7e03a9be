/**
 * `persistDictContent`, the older reconciliation path: every tweet of a V2 dictionary response
 * whose author is included is handed to `createOrMergeTweet` together with the tweets it
 * replies to, retweets and quotes, as far as those are included too. The calls themselves are
 * recorded, not performed; the tweets preloaded into the context are their ids.
 */
module PersistDictContent {
  import opened Wrappers
  import opened TwitterEntity

  /** `APIService.CoreData.V2.TwitterInfo`: a tweet together with its author. */
  datatype TwitterInfo = TwitterInfo(tweet: V2Tweet, user: V2User)

  /** One `createOrMergeTweet` call, with the request user's record (its id) if it was found. */
  datatype CreateOrMergeTweetCall = CreateOrMergeTweetCall(
    requestTwitterUser: Option<string>,
    info: TwitterInfo,
    repliedToInfo: Option<TwitterInfo>,
    retweetedInfo: Option<TwitterInfo>,
    quotedInfo: Option<TwitterInfo>,
    networkDate: int)

  /** The author of a tweet, when it has an author id and the dictionary includes that user. */
  function AuthorOf(d: DictContent, t: V2Tweet): (r: Option<V2User>)
    ensures r.Some? <==> t.authorID.Some? && t.authorID.value in d.userDict
    ensures r.Some? ==> r.value == d.userDict[t.authorID.value]
  {
    if t.authorID.Some? && t.authorID.value in d.userDict then Some(d.userDict[t.authorID.value]) else None
  }

  /** A key of the tweet dictionary is persisted exactly when its tweet's author is included. */
  predicate Persisted(d: DictContent, k: string)
  {
    k in d.tweetDict && AuthorOf(d, d.tweetDict[k]).Some?
  }

  /** The target of a referenced entry: its type and id are set, the id is included, and so is the target's author. */
  function TargetOf(d: DictContent, r: ReferencedTweet): (info: Option<TwitterInfo>)
    ensures info.Some? <==> r.kind.Some? && r.id.Some? && r.id.value in d.tweetDict && AuthorOf(d, d.tweetDict[r.id.value]).Some?
    ensures info.Some? ==> info.value.tweet == d.tweetDict[r.id.value] && info.value.user == AuthorOf(d, info.value.tweet).value
  {
    if r.kind.None? || r.id.None? || r.id.value !in d.tweetDict then None
    else
      var target := d.tweetDict[r.id.value];
      match AuthorOf(d, target)
      case None => None
      case Some(user) => Some(TwitterInfo(target, user))
  }

  /** A referenced entry that counts for the relation `kind`. */
  predicate RefersTo(d: DictContent, r: ReferencedTweet, kind: ReferenceType)
  {
    r.kind == Some(kind) && TargetOf(d, r).Some?
  }

  /** The relation `kind` as the loop leaves it: the target of the last entry that counts for it. */
  function LastTarget(d: DictContent, refs: seq<ReferencedTweet>, kind: ReferenceType): Option<TwitterInfo>
  {
    if refs == [] then None
    else if RefersTo(d, refs[|refs| - 1], kind) then TargetOf(d, refs[|refs| - 1])
    else LastTarget(d, refs[..|refs| - 1], kind)
  }

  /** "Last match wins": the relation is unset exactly when no entry counts for it, and otherwise it is the target of the last one that does. */
  lemma {:induction false} LastTargetIsLast(d: DictContent, refs: seq<ReferencedTweet>, kind: ReferenceType)
    ensures LastTarget(d, refs, kind).None? <==> forall j :: 0 <= j < |refs| ==> !RefersTo(d, refs[j], kind)
    ensures LastTarget(d, refs, kind).Some? ==>
      exists j :: 0 <= j < |refs| && RefersTo(d, refs[j], kind) && LastTarget(d, refs, kind) == TargetOf(d, refs[j])
                  && forall j' :: j < j' < |refs| ==> !RefersTo(d, refs[j'], kind)
  {
    if refs != [] {
      var init := refs[..|refs| - 1];
      LastTargetIsLast(d, init, kind);
      assert forall j :: 0 <= j < |init| ==> init[j] == refs[j];
      if !RefersTo(d, refs[|refs| - 1], kind) && LastTarget(d, refs, kind).Some? {
        var j :| 0 <= j < |init| && RefersTo(d, init[j], kind) && LastTarget(d, init, kind) == TargetOf(d, init[j])
                 && forall j' :: j < j' < |init| ==> !RefersTo(d, init[j'], kind);
        assert RefersTo(d, refs[j], kind);
      }
    }
  }

  /** The inner loop over `referencedTweets`: each relation variable is overwritten by every entry that counts for it. */
  method ReferencedInfos(d: DictContent, refs: seq<ReferencedTweet>) returns (repliedTo: Option<TwitterInfo>, retweeted: Option<TwitterInfo>, quoted: Option<TwitterInfo>)
    ensures repliedTo == LastTarget(d, refs, RepliedTo)
    ensures retweeted == LastTarget(d, refs, Retweeted)
    ensures quoted == LastTarget(d, refs, Quoted)
  {
    repliedTo, retweeted, quoted := None, None, None;
    for i := 0 to |refs|
      invariant repliedTo == LastTarget(d, refs[..i], RepliedTo)
      invariant retweeted == LastTarget(d, refs[..i], Retweeted)
      invariant quoted == LastTarget(d, refs[..i], Quoted)
    {
      assert refs[..i + 1][..i] == refs[..i];
      var r := refs[i];
      if r.kind.Some? && r.id.Some? && r.id.value in d.tweetDict {
        var target := d.tweetDict[r.id.value];
        var author := AuthorOf(d, target);
        if author.Some? {
          var info := TwitterInfo(target, author.value);
          match r.kind.value {
            case RepliedTo => repliedTo := Some(info);
            case Retweeted => retweeted := Some(info);
            case Quoted => quoted := Some(info);
          }
        }
      }
    }
    assert refs[..|refs|] == refs;
  }

  /** The call made for a persisted key. */
  function CallFor(d: DictContent, k: string, requestTwitterUser: Option<string>, networkDate: int): CreateOrMergeTweetCall
    requires Persisted(d, k)
  {
    var tweet := d.tweetDict[k];
    var refs := if tweet.referencedTweets.Some? then tweet.referencedTweets.value else [];
    CreateOrMergeTweetCall(requestTwitterUser, TwitterInfo(tweet, AuthorOf(d, tweet).value),
      LastTarget(d, refs, RepliedTo), LastTarget(d, refs, Retweeted), LastTarget(d, refs, Quoted), networkDate)
  }

  predicate Distinct(xs: seq<string>)
  {
    forall i, j :: 0 <= i < j < |xs| ==> xs[i] != xs[j]
  }

  /**
   * `persistDictContent`. The dictionary is enumerated in an unspecified order; `order` is the
   * order in which the keys that are persisted were met. `preload` is the set of ids the cache
   * preload asks the store for.
   */
  method PersistDict(d: DictContent, requestTwitterUser: Option<string>, networkDate: int)
    returns (preload: set<string>, calls: seq<CreateOrMergeTweetCall>, ghost order: seq<string>)
    ensures preload == d.tweetDict.Keys
    ensures |calls| == |order| && Distinct(order)
    ensures forall k :: k in order <==> Persisted(d, k)
    ensures forall i :: 0 <= i < |order| ==> Persisted(d, order[i]) && calls[i] == CallFor(d, order[i], requestTwitterUser, networkDate)
  {
    preload := d.tweetDict.Keys;
    calls, order := [], [];
    var remaining := d.tweetDict.Keys;
    ghost var visited: set<string> := {};
    while remaining != {}
      invariant remaining + visited == d.tweetDict.Keys && remaining !! visited
      invariant |calls| == |order| && Distinct(order)
      invariant forall i :: 0 <= i < |order| ==> order[i] in visited && Persisted(d, order[i]) && calls[i] == CallFor(d, order[i], requestTwitterUser, networkDate)
      invariant forall k :: k in visited && Persisted(d, k) ==> k in order
      decreases remaining
    {
      var tweetID :| tweetID in remaining;
      var tweet := d.tweetDict[tweetID];
      remaining := remaining - {tweetID};
      visited := visited + {tweetID};
      var user := AuthorOf(d, tweet);
      if user.Some? {
        var info := TwitterInfo(tweet, user.value);
        var repliedTo, retweeted, quoted := ReferencedInfos(d, if tweet.referencedTweets.Some? then tweet.referencedTweets.value else []);
        calls := calls + [CreateOrMergeTweetCall(requestTwitterUser, info, repliedTo, retweeted, quoted, networkDate)];
        order := order + [tweetID];
      }
    }
  }
}
