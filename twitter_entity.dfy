/**
 * Wire entities of the two Twitter API generations, as decoded from JSON, and the
 * dictionary view (`Twitter.Response.V2.DictContent`) of a V2 response with its includes.
 * Only the fields the reconciliation core reads are kept. Dates are integer timestamps.
 */
module TwitterEntity {
  import opened Wrappers

  // ---------------------------------------------------------------- V1

  datatype Variant = Variant(bitrate: Option<int>, url: Option<string>)
  datatype VideoInfo = VideoInfo(durationMillis: Option<int>, variants: Option<seq<Variant>>)
  datatype Size = Size(w: Option<int>, h: Option<int>)
  /** `media.sizes`; only the `.large` size is ever read. */
  datatype Sizes = Sizes(large: Option<Size>)

  datatype V1Media = V1Media(
    mediaType: Option<string>,
    mediaURLHTTPS: Option<string>,
    videoInfo: Option<VideoInfo>,
    sizes: Option<Sizes>,
    extAltText: Option<string>)

  datatype ExtendedEntities = ExtendedEntities(media: Option<seq<V1Media>>)

  datatype V1Place = V1Place(
    id: string,
    fullName: Option<string>,
    name: Option<string>,
    country: Option<string>,
    countryCode: Option<string>)

  datatype V1User = V1User(
    idStr: string,
    name: string,
    screenName: string,
    userDescription: Option<string>,
    createdAt: Option<int>,
    location: Option<string>,
    profileBannerURL: Option<string>,
    profileImageURLHTTPS: Option<string>,
    protected: Option<bool>,
    url: Option<string>,
    verified: Option<bool>)

  datatype V1Tweet = V1Tweet(
    idStr: string,
    text: Option<string>,
    fullText: Option<string>,
    createdAt: int,
    favoriteCount: Option<int>,
    retweetCount: Option<int>,
    lang: Option<string>,
    source: Option<string>,
    inReplyToStatusIDStr: Option<string>,
    inReplyToUserIDStr: Option<string>,
    extendedEntities: Option<ExtendedEntities>,
    place: Option<V1Place>,
    favorited: Option<bool>,
    retweeted: Option<bool>)

  // ---------------------------------------------------------------- V2

  datatype PublicMetrics = PublicMetrics(retweetCount: int, replyCount: int, likeCount: int, quoteCount: int)

  datatype ReferenceType = RepliedTo | Quoted | Retweeted
  datatype ReferencedTweet = ReferencedTweet(kind: Option<ReferenceType>, id: Option<string>)

  /** A URL entity: `url` is the short (t.co) link, `expandedURL` the original one. */
  datatype UrlEntity = UrlEntity(url: Option<string>, expandedURL: Option<string>)
  datatype Entities = Entities(urls: Option<seq<UrlEntity>>, hashtags: Option<seq<string>>, mentions: Option<seq<string>>)

  datatype V2Tweet = V2Tweet(
    id: string,
    text: string,
    authorID: Option<string>,
    createdAt: int,
    lang: Option<string>,
    source: Option<string>,
    conversationID: Option<string>,
    inReplyToUserID: Option<string>,
    possiblySensitive: Option<bool>,
    publicMetrics: Option<PublicMetrics>,
    referencedTweets: Option<seq<ReferencedTweet>>,
    replySettings: Option<string>,
    entities: Option<Entities>,
    mediaKeys: Option<seq<string>>,
    pollID: Option<string>,
    placeID: Option<string>)

  datatype V2Media = V2Media(
    mediaKey: string,
    mediaType: string,
    url: Option<string>,
    previewImageURL: Option<string>,
    durationMS: Option<int>,
    width: Option<int>,
    height: Option<int>)

  datatype V2Place = V2Place(
    id: string,
    fullName: string,
    name: Option<string>,
    country: Option<string>,
    countryCode: Option<string>)

  datatype V2Poll = V2Poll(id: string, options: seq<string>)

  datatype V2User = V2User(
    id: string,
    name: string,
    username: string,
    description: Option<string>,
    createdAt: Option<int>,
    location: Option<string>,
    pinnedTweetID: Option<string>,
    profileImageURL: Option<string>,
    protected: Option<bool>,
    url: Option<string>,
    verified: Option<bool>)

  /** `Twitter.Response.V2.DictContent`: the entities of one V2 response, keyed by their ids. */
  datatype DictContent = DictContent(
    tweetDict: map<string, V2Tweet>,
    userDict: map<string, V2User>,
    mediaDict: map<string, V2Media>,
    placeDict: map<string, V2Place>,
    pollDict: map<string, V2Poll>)
  {
    /**
     * `media(for:)`, whose definition is not part of this model: assumed to be nil without
     * media keys, and otherwise the media of the keys that resolve, in key order.
     */
    function MediaFor(t: V2Tweet): (r: Option<seq<V2Media>>)
      ensures r.Some? <==> t.mediaKeys.Some?
      ensures r.Some? ==> forall v :: v in r.value ==>
        exists k :: k in t.mediaKeys.value && k in mediaDict && mediaDict[k] == v
      ensures r.Some? && (forall i :: 0 <= i < |t.mediaKeys.value| ==> t.mediaKeys.value[i] in mediaDict) ==>
        |r.value| == |t.mediaKeys.value| &&
        forall i :: 0 <= i < |r.value| ==> r.value[i] == mediaDict[t.mediaKeys.value[i]]
    {
      match t.mediaKeys
      case None => None
      case Some(keys) => Some(Resolve(keys, mediaDict))
    }

    /** `place(for:)`, assumed to be the entry of the tweet's place id, if any. */
    function PlaceFor(t: V2Tweet): (r: Option<V2Place>)
      ensures r.Some? <==> t.placeID.Some? && t.placeID.value in placeDict
    {
      if t.placeID.Some? && t.placeID.value in placeDict then Some(placeDict[t.placeID.value]) else None
    }

    /** `poll(for:)`, assumed to be the entry of the tweet's poll id, if any. */
    function PollFor(t: V2Tweet): (r: Option<V2Poll>)
      ensures r.Some? <==> t.pollID.Some? && t.pollID.value in pollDict
    {
      if t.pollID.Some? && t.pollID.value in pollDict then Some(pollDict[t.pollID.value]) else None
    }
  }

  /** The values of the keys that are present in `m`, in key order; a missing key is skipped. */
  function Resolve<V>(keys: seq<string>, m: map<string, V>): (r: seq<V>)
    ensures |r| <= |keys|
    ensures forall v :: v in r ==> exists k :: k in keys && k in m && m[k] == v
    ensures (forall i :: 0 <= i < |keys| ==> keys[i] in m) ==>
      |r| == |keys| && forall i :: 0 <= i < |keys| ==> r[i] == m[keys[i]]
  {
    if keys == [] then []
    else if keys[0] in m then [m[keys[0]]] + Resolve(keys[1..], m)
    else Resolve(keys[1..], m)
  }

  /** A map built by assigning the entries of `entries` one after another: a later entry wins. */
  function IndexBy<V>(entries: seq<V>, key: V -> string): map<string, V>
  {
    if entries == [] then map[]
    else IndexBy(entries[..|entries| - 1], key)[key(entries[|entries| - 1]) := entries[|entries| - 1]]
  }

  /** Every entry's key is present, and every present key holds an entry with that key. */
  lemma {:induction false} IndexByKeys<V>(entries: seq<V>, key: V -> string)
    ensures forall v :: v in entries ==> key(v) in IndexBy(entries, key)
    ensures forall k :: k in IndexBy(entries, key) ==>
      exists v :: v in entries && key(v) == k && IndexBy(entries, key)[k] == v
  {
    if entries != [] {
      var init := entries[..|entries| - 1];
      IndexByKeys(init, key);
      assert entries == init + [entries[|entries| - 1]];
    }
  }

  function TweetID(t: V2Tweet): string { t.id }
  function UserID(u: V2User): string { u.id }
  function MediaKey(m: V2Media): string { m.mediaKey }
  function PlaceID(p: V2Place): string { p.id }
  function PollID(p: V2Poll): string { p.id }

  /**
   * `DictContent(tweets:users:media:places:polls:)`, whose definition is not part of this
   * model: assumed to index each list by id, a later entry with the same id winning.
   */
  function MakeDictContent(tweets: seq<V2Tweet>, users: seq<V2User>, media: seq<V2Media>, places: seq<V2Place>, polls: seq<V2Poll>): (d: DictContent)
    ensures forall t :: t in tweets ==> t.id in d.tweetDict
    ensures forall k :: k in d.tweetDict ==> d.tweetDict[k] in tweets && d.tweetDict[k].id == k
  {
    IndexByKeys(tweets, TweetID);
    DictContent(IndexBy(tweets, TweetID), IndexBy(users, UserID), IndexBy(media, MediaKey), IndexBy(places, PlaceID), IndexBy(polls, PollID))
  }
}
