/**
 * The persisted Mastodon records the like toggle and the timeline persistence touch: users,
 * statuses, and the feeds (timeline memberships) attached to a status. A record is an object
 * whose remote id, relations and creation date are constants; a feed is kept as a value inside
 * the status it is attached to.
 */
module MastodonStore {
  import opened Wrappers
  import opened SeqUtil

  /** `Feed.Kind`; only the home kind is told apart by the timeline code. */
  datatype FeedKind = Home | OtherKind(rawValue: string)

  /** `Feed.Acct`: the account a feed belongs to. */
  datatype Acct = TwitterAcct(userID: string) | MastodonAcct(domain: string, userID: string)

  datatype Feed = Feed(acct: Acct, kind: FeedKind, hasMore: bool, createdAt: int, updatedAt: int)

  /** The position of the first feed of `kind` for `acct`, if any. */
  function FeedIndex(feeds: seq<Feed>, kind: FeedKind, acct: Acct): (r: Option<nat>)
    ensures r.Some? ==> r.value < |feeds| && feeds[r.value].kind == kind && feeds[r.value].acct == acct
                        && forall j :: 0 <= j < r.value ==> !(feeds[j].kind == kind && feeds[j].acct == acct)
    ensures r.None? <==> forall j :: 0 <= j < |feeds| ==> !(feeds[j].kind == kind && feeds[j].acct == acct)
  {
    if feeds == [] then None
    else if feeds[0].kind == kind && feeds[0].acct == acct then Some(0)
    else match FeedIndex(feeds[1..], kind, acct)
      case None => None
      case Some(i) => Some(i + 1)
  }

  /** `status.feed(kind:acct:)`: the first matching feed. */
  function FeedOf(feeds: seq<Feed>, kind: FeedKind, acct: Acct): (r: Option<Feed>)
    ensures r.Some? <==> FeedIndex(feeds, kind, acct).Some?
    ensures r.Some? ==> r.value == feeds[FeedIndex(feeds, kind, acct).value]
  {
    match FeedIndex(feeds, kind, acct)
    case None => None
    case Some(i) => Some(feeds[i])
  }

  class MastodonUser {
    const id: string
    const domain: string
    /** The users that follow this one. */
    var followedBy: set<MastodonUser>

    constructor (id: string, domain: string)
      ensures this.id == id && this.domain == domain && followedBy == {}
    {
      this.id := id;
      this.domain := domain;
      followedBy := {};
    }

    /** `update(isFollow:by:)`: `user` follows this user exactly when `isFollow`. */
    method UpdateIsFollow(isFollow: bool, user: MastodonUser)
      modifies this`followedBy
      ensures followedBy == Membership(old(followedBy), isFollow, user)
    {
      followedBy := Membership(followedBy, isFollow, user);
    }
  }

  class MastodonStatus {
    const id: string
    const domain: string
    const createdAt: int
    const author: MastodonUser
    const repost: MastodonStatus?
    var likeBy: set<MastodonUser>
    var likeCount: int
    var feeds: seq<Feed>

    constructor (id: string, domain: string, createdAt: int, author: MastodonUser, repost: MastodonStatus?, likeCount: int)
      ensures this.id == id && this.domain == domain && this.createdAt == createdAt
      ensures this.author == author && this.repost == repost
      ensures likeBy == {} && this.likeCount == likeCount && feeds == []
    {
      this.id := id;
      this.domain := domain;
      this.createdAt := createdAt;
      this.author := author;
      this.repost := repost;
      likeBy := {};
      this.likeCount := likeCount;
      feeds := [];
    }

    /** `update(isLike:by:)`: `user` is in `likeBy` exactly when `isLike`. */
    method UpdateIsLike(isLike: bool, user: MastodonUser)
      modifies this`likeBy
      ensures likeBy == Membership(old(likeBy), isLike, user)
    {
      likeBy := Membership(likeBy, isLike, user);
    }

    method UpdateLikeCount(count: int)
      modifies this`likeCount
      ensures likeCount == count
    {
      likeCount := count;
    }

    /** `attach(feed:)`. */
    method AttachFeed(feed: Feed)
      modifies this`feeds
      ensures feeds == old(feeds) + [feed]
    {
      feeds := feeds + [feed];
    }

    /** An update of the attached feed at position `i` (`feed.update(hasMore:)`, `feed.update(updatedAt:)`). */
    method UpdateFeed(i: nat, feed: Feed)
      requires i < |feeds|
      modifies this`feeds
      ensures feeds == old(feeds)[i := feed]
    {
      feeds := feeds[i := feed];
    }
  }

  /** A point query by domain and remote id: the first matching status. */
  function FindStatus(statuses: seq<MastodonStatus>, domain: string, id: string): (r: Option<MastodonStatus>)
    ensures r.Some? ==> r.value in statuses && r.value.domain == domain && r.value.id == id
    ensures r.None? ==> forall s :: s in statuses ==> !(s.domain == domain && s.id == id)
  {
    if statuses == [] then None
    else if statuses[0].domain == domain && statuses[0].id == id then Some(statuses[0])
    else FindStatus(statuses[1..], domain, id)
  }
}
