/**
 * The persisted Twitter records (`TwitterUser`, `TwitterStatus`) and the store that holds
 * them. A record is an object whose fields are updated in place; its remote id and the
 * relations fixed at insertion are constants. The store keeps its records in insertion
 * order, so a point query by remote id returns the first match.
 */
module TwitterStore {
  import opened Wrappers
  import opened TwitterEntity
  import opened SeqUtil

  datatype AttachmentKind = Photo | Video | AnimatedGIF

  /** `TwitterAttachment`; the `CGSize` is an opaque pair of integers. */
  datatype TwitterAttachment = TwitterAttachment(
    kind: AttachmentKind,
    width: int,
    height: int,
    assetURL: Option<string>,
    previewURL: Option<string>,
    durationMS: Option<int>,
    altDescription: Option<string>)

  datatype TwitterLocation = TwitterLocation(
    id: string,
    fullName: string,
    name: Option<string>,
    country: Option<string>,
    countryCode: Option<string>)

  datatype TwitterReplySettings = TwitterReplySettings(value: string)

  /** `TwitterStatus.Property`: the scalar properties of a status. */
  datatype Property = Property(
    id: string,
    text: string,
    likeCount: int,
    replyCount: int,
    repostCount: int,
    quoteCount: int,
    language: Option<string>,
    source: Option<string>,
    replyToStatusID: Option<string>,
    replyToUserID: Option<string>,
    createdAt: int,
    updatedAt: int)

  /** `TwitterUser.Property`: the scalar properties of a user. */
  datatype UserProperty = UserProperty(
    id: string,
    name: string,
    username: string,
    bioDescription: Option<string>,
    createdAt: Option<int>,
    location: Option<string>,
    pinnedTweetID: Option<string>,
    profileBannerURL: Option<string>,
    profileImageURL: Option<string>,
    protected: bool,
    url: Option<string>,
    verified: bool,
    networkDate: int)

  /** The value of every mutable scalar field of a status record. */
  datatype StatusState = StatusState(
    text: string,
    likeCount: int,
    replyCount: int,
    repostCount: int,
    quoteCount: int,
    language: Option<string>,
    source: Option<string>,
    replyToStatusID: Option<string>,
    replyToUserID: Option<string>,
    createdAt: int,
    updatedAt: int,
    entities: Option<Entities>,
    replySettings: Option<TwitterReplySettings>,
    conversationID: Option<string>,
    attachments: seq<TwitterAttachment>,
    location: Option<TwitterLocation>,
    poll: Option<V2Poll>)

  /** The value of every mutable field of a user record. */
  datatype UserState = UserState(
    name: string,
    username: string,
    bioDescription: Option<string>,
    createdAt: Option<int>,
    location: Option<string>,
    pinnedTweetID: Option<string>,
    profileBannerURL: Option<string>,
    profileImageURL: Option<string>,
    protected: bool,
    url: Option<string>,
    verified: bool,
    updatedAt: int)

  /** A state holding the scalar properties of `p`; `update(property:)`. */
  function WithProperty(s: StatusState, p: Property): (r: StatusState)
    ensures r.text == p.text && r.updatedAt == p.updatedAt && r.createdAt == p.createdAt
    ensures r.likeCount == p.likeCount && r.replyCount == p.replyCount
    ensures r.repostCount == p.repostCount && r.quoteCount == p.quoteCount
    ensures r.language == p.language && r.source == p.source
    ensures r.replyToStatusID == p.replyToStatusID && r.replyToUserID == p.replyToUserID
    ensures r.entities == s.entities && r.replySettings == s.replySettings && r.conversationID == s.conversationID
    ensures r.attachments == s.attachments && r.location == s.location && r.poll == s.poll
  {
    s.(text := p.text, likeCount := p.likeCount, replyCount := p.replyCount,
       repostCount := p.repostCount, quoteCount := p.quoteCount, language := p.language,
       source := p.source, replyToStatusID := p.replyToStatusID, replyToUserID := p.replyToUserID,
       createdAt := p.createdAt, updatedAt := p.updatedAt)
  }

  /** The state a user record has right after it is written from `p`. */
  function UserStateOf(p: UserProperty): (r: UserState)
    ensures r.updatedAt == p.networkDate && r.name == p.name && r.username == p.username
    ensures r.protected == p.protected && r.verified == p.verified
    ensures r.bioDescription == p.bioDescription && r.createdAt == p.createdAt && r.location == p.location
    ensures r.pinnedTweetID == p.pinnedTweetID && r.url == p.url
    ensures r.profileBannerURL == p.profileBannerURL && r.profileImageURL == p.profileImageURL
  {
    UserState(p.name, p.username, p.bioDescription, p.createdAt, p.location, p.pinnedTweetID,
              p.profileBannerURL, p.profileImageURL, p.protected, p.url, p.verified, p.networkDate)
  }

  /** A user record; its attribute values are held together in `state`. */
  class TwitterUser {
    const id: string
    var state: UserState

    /** `TwitterUser.insert(property:)`. */
    constructor (p: UserProperty)
      ensures id == p.id && state == UserStateOf(p)
    {
      id, state := p.id, UserStateOf(p);
    }

    /** `update(property:)`: overwrite every attribute from `p`. */
    method UpdateProperty(p: UserProperty)
      modifies this
      ensures state == UserStateOf(p)
    {
      state := UserStateOf(p);
    }
  }

  /**
   * A status record. The relations fixed at insertion are constants, the attribute values are
   * held together in `state`, and the to-many relations to users are sets.
   */
  class TwitterStatus {
    const id: string
    const author: TwitterUser
    const repost: TwitterStatus?
    const quote: TwitterStatus?
    const replyTo: TwitterStatus?
    var state: StatusState
    var likeBy: set<TwitterUser>
    var repostBy: set<TwitterUser>

    /** `TwitterStatus.insert(property:relationship:)`, with the initial state already built. */
    constructor (id: string, s: StatusState, author: TwitterUser, repost: TwitterStatus?, quote: TwitterStatus?, replyTo: TwitterStatus?)
      ensures this.id == id && state == s
      ensures this.author == author && this.repost == repost && this.quote == quote && this.replyTo == replyTo
      ensures likeBy == {} && repostBy == {}
    {
      this.id, this.author, this.repost, this.quote, this.replyTo := id, author, repost, quote, replyTo;
      state, likeBy, repostBy := s, {}, {};
    }

    /** `update(property:)`: overwrite the scalar properties, keep everything else. */
    method UpdateProperty(p: Property)
      modifies this
      ensures state == WithProperty(old(state), p)
      ensures likeBy == old(likeBy) && repostBy == old(repostBy)
    {
      state := WithProperty(state, p);
    }

    // The single-attribute setters `update(entities:)`, `update(replySettings:)`, ...

    method UpdateEntities(v: Option<Entities>)
      modifies this
      ensures state == old(state).(entities := v) && likeBy == old(likeBy) && repostBy == old(repostBy)
    {
      state := state.(entities := v);
    }

    method UpdateReplySettings(v: TwitterReplySettings)
      modifies this
      ensures state == old(state).(replySettings := Some(v)) && likeBy == old(likeBy) && repostBy == old(repostBy)
    {
      state := state.(replySettings := Some(v));
    }

    method UpdateConversationID(v: string)
      modifies this
      ensures state == old(state).(conversationID := Some(v)) && likeBy == old(likeBy) && repostBy == old(repostBy)
    {
      state := state.(conversationID := Some(v));
    }

    method UpdateReplyCount(v: int)
      modifies this
      ensures state == old(state).(replyCount := v) && likeBy == old(likeBy) && repostBy == old(repostBy)
    {
      state := state.(replyCount := v);
    }

    method UpdateLikeCount(v: int)
      modifies this
      ensures state == old(state).(likeCount := v) && likeBy == old(likeBy) && repostBy == old(repostBy)
    {
      state := state.(likeCount := v);
    }

    method UpdateAttachments(v: seq<TwitterAttachment>)
      modifies this
      ensures state == old(state).(attachments := v) && likeBy == old(likeBy) && repostBy == old(repostBy)
    {
      state := state.(attachments := v);
    }

    method UpdateLocation(v: TwitterLocation)
      modifies this
      ensures state == old(state).(location := Some(v)) && likeBy == old(likeBy) && repostBy == old(repostBy)
    {
      state := state.(location := Some(v));
    }

    /** `attach(poll:)`. */
    method AttachPoll(v: V2Poll)
      modifies this
      ensures state == old(state).(poll := Some(v)) && likeBy == old(likeBy) && repostBy == old(repostBy)
    {
      state := state.(poll := Some(v));
    }

    /** `update(isLike:by:)`: `user` is in `likeBy` exactly when `isLike`. */
    method UpdateIsLike(isLike: bool, user: TwitterUser)
      modifies this
      ensures likeBy == Membership(old(likeBy), isLike, user)
      ensures state == old(state) && repostBy == old(repostBy)
    {
      if isLike {
        if user !in likeBy { likeBy := likeBy + {user}; }
      } else {
        if user in likeBy { likeBy := likeBy - {user}; }
      }
    }

    /** `update(isRepost:by:)`: `user` is in `repostBy` exactly when `isRepost`. */
    method UpdateIsRepost(isRepost: bool, user: TwitterUser)
      modifies this
      ensures repostBy == Membership(old(repostBy), isRepost, user)
      ensures state == old(state) && likeBy == old(likeBy)
    {
      if isRepost {
        if user !in repostBy { repostBy := repostBy + {user}; }
      } else {
        if user in repostBy { repostBy := repostBy - {user}; }
      }
    }
  }

  /** The managed object context: every record inserted so far, in insertion order. */
  class Store {
    var statuses: seq<TwitterStatus>
    var users: seq<TwitterUser>
    /** The records of the store, as a frame. */
    ghost var Repr: set<object>

    constructor ()
      ensures statuses == [] && users == [] && Repr == {}
    {
      statuses, users, Repr := [], [], {};
    }
  }

  function StatusKey(s: TwitterStatus): string { s.id }
  function UserKey(u: TwitterUser): string { u.id }

  /** A fetch request with `fetchLimit = 1`: the first element whose key is `id`. */
  function FirstMatch<T>(xs: seq<T>, key: T -> string, id: string): (r: Option<T>)
    ensures r.Some? ==> r.value in xs && key(r.value) == id
  {
    if xs == [] then None
    else if key(xs[0]) == id then Some(xs[0])
    else FirstMatch(xs[1..], key, id)
  }

  /** The match is the element at the first index whose key is `id`, and there is none only when no key is `id`. */
  lemma {:induction false} FirstMatchIsFirst<T>(xs: seq<T>, key: T -> string, id: string)
    ensures FirstMatch(xs, key, id).None? <==> forall i :: 0 <= i < |xs| ==> key(xs[i]) != id
    ensures forall i :: 0 <= i < |xs| && key(xs[i]) == id && (forall j :: 0 <= j < i ==> key(xs[j]) != id) ==>
      FirstMatch(xs, key, id) == Some(xs[i])
  {
    if xs != [] {
      FirstMatchIsFirst(xs[1..], key, id);
      assert forall i :: 1 <= i < |xs| ==> xs[i] == xs[1..][i - 1];
    }
  }

  /** Inserting a record never changes which record an existing match resolves to. */
  lemma {:induction false} FirstMatchAppend<T>(xs: seq<T>, x: T, key: T -> string, id: string)
    ensures FirstMatch(xs, key, id).Some? ==> FirstMatch(xs + [x], key, id) == FirstMatch(xs, key, id)
    ensures FirstMatch(xs, key, id).None? ==> FirstMatch(xs + [x], key, id) == (if key(x) == id then Some(x) else None)
  {
    if xs == [] {
      assert xs + [x] == [x];
      assert [x][1..] == [];
    } else {
      assert (xs + [x])[1..] == xs[1..] + [x];
      FirstMatchAppend(xs[1..], x, key, id);
    }
  }
}
