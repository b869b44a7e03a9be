/**
 * `Persistence.TwitterStatus` for V2 payloads: the create-or-merge reconciliation of a
 * status, its reply-to / repost / quote targets and its author into the store, with the
 * identity caches shared by every nested call.
 */
module StatusV2 {
  import opened Wrappers
  import opened TwitterEntity
  import opened TwitterStore
  import opened StatusProperty
  import opened SeqUtil
  import opened Persistence
  import TwitterUserExt

  datatype Entity = Entity(status: V2Tweet, author: V2User)

  datatype PersistContextV2 = PersistContextV2(
    entity: Entity,
    repost: Option<Entity>,
    quote: Option<Entity>,
    replyTo: Option<Entity>,
    dictionary: DictContent,
    me: TwitterUser?,
    statusCache: PersistCache?<TwitterStatus>,
    userCache: PersistCache?<TwitterUser>,
    networkDate: int)
  {
    /** `entity(statusID:)`: the tweet and its author, when both are in the dictionary. */
    function EntityFor(statusID: string): (r: Option<Entity>)
      ensures r.Some? <==> statusID in dictionary.tweetDict && dictionary.tweetDict[statusID].authorID.Some?
                           && dictionary.tweetDict[statusID].authorID.value in dictionary.userDict
      ensures r.Some? ==> r.value.status == dictionary.tweetDict[statusID]
                          && r.value.author == dictionary.userDict[r.value.status.authorID.value]
    {
      if statusID in dictionary.tweetDict && dictionary.tweetDict[statusID].authorID.Some?
         && dictionary.tweetDict[statusID].authorID.value in dictionary.userDict
      then Some(Entity(dictionary.tweetDict[statusID], dictionary.userDict[dictionary.tweetDict[statusID].authorID.value]))
      else None
    }

    /** The context of a nested call: same dictionary, caches and date; no repost, no reply-to. */
    function Nested(e: Entity, quote: Option<Entity>): PersistContextV2
    {
      this.(entity := e, repost := None, quote := quote, replyTo := None)
    }

    function Id(): string { entity.status.id }
  }

  /** How deep the nesting of this context can go: nested calls drop `repost` and `replyTo`. */
  function Depth(ctx: PersistContextV2): (d: nat)
    ensures d <= 2
    ensures ctx.repost.None? && ctx.replyTo.None? && ctx.quote.None? <==> d == 0
  {
    if ctx.repost.Some? || ctx.replyTo.Some? then 2 else if ctx.quote.Some? then 1 else 0
  }

  /** Every nested context is strictly shallower, so the recursion stops after two levels. */
  lemma NestedIsShallower(ctx: PersistContextV2, e: Entity)
    ensures ctx.replyTo.Some? ==> Depth(ctx.Nested(e, None)) == 0 < Depth(ctx)
    ensures ctx.repost.Some? ==> Depth(ctx.Nested(e, ctx.quote)) <= 1 < Depth(ctx)
    ensures ctx.quote.Some? ==> Depth(ctx.Nested(e, None)) == 0 < Depth(ctx)
  {
  }

  function StatusIdOf(e: Option<Entity>): set<string> { if e.Some? then {e.value.status.id} else {} }
  function AuthorIdOf(e: Option<Entity>): set<string> { if e.Some? then {e.value.author.id} else {} }

  /** The ids of the targets of the context: reply-to, repost and quote. */
  function TargetIds(ctx: PersistContextV2): set<string>
  {
    StatusIdOf(ctx.replyTo) + StatusIdOf(ctx.repost) + StatusIdOf(ctx.quote)
  }

  /** The ids of the status records a reconcile of the context may change: the status and its targets. */
  function TouchedIds(ctx: PersistContextV2): set<string>
  {
    {ctx.Id()} + TargetIds(ctx)
  }

  /** The author ids of the targets. */
  function TargetAuthorIds(ctx: PersistContextV2): set<string>
  {
    AuthorIdOf(ctx.replyTo) + AuthorIdOf(ctx.repost) + AuthorIdOf(ctx.quote)
  }

  /** The author ids of the status and of its targets. */
  function AuthorIds(ctx: PersistContextV2): set<string>
  {
    {ctx.entity.author.id} + TargetAuthorIds(ctx)
  }

  /** `u` is the author of a record of `repr` whose id is one of `ids` (and so may be merged with it). */
  ghost predicate AuthorOfTouched(repr: set<object>, ids: set<string>, u: TwitterUser)
  {
    exists s: TwitterStatus :: s in repr && s.id in ids && s.author == u
  }

  /** Authorship of a touched record survives a larger footprint and more touched ids. */
  lemma AuthorOfTouchedGrows(repr0: set<object>, ids0: set<string>, repr1: set<object>, ids1: set<string>, u: TwitterUser)
    requires repr0 <= repr1 && ids0 <= ids1
    ensures AuthorOfTouched(repr0, ids0, u) ==> AuthorOfTouched(repr1, ids1, u)
  {
    if AuthorOfTouched(repr0, ids0, u) {
      var s: TwitterStatus :| s in repr0 && s.id in ids0 && s.author == u;
      assert s in repr1 && s.id in ids1;
    }
  }

  // ---------------------------------------------------------------- the record state rules

  /** The property bag of the incoming tweet (place and media are passed, and ignored). */
  function PropertyOf(ctx: PersistContextV2): Property
  {
    var t := ctx.entity.status;
    PropertyV2(t, ctx.entity.author, ctx.dictionary.PlaceFor(t), ctx.dictionary.MediaFor(t).GetOr([]), ctx.networkDate)
  }

  /** The state of a record right after `TwitterStatus.insert`: the property, the poll, nothing else. */
  function InsertedState(p: Property, poll: Option<V2Poll>): (s: StatusState)
    ensures WithProperty(s, p) == s && s.poll == poll
    ensures s.entities.None? && s.replySettings.None? && s.conversationID.None? && s.attachments == [] && s.location.None?
  {
    StatusState(p.text, p.likeCount, p.replyCount, p.repostCount, p.quoteCount, p.language, p.source,
                p.replyToStatusID, p.replyToUserID, p.createdAt, p.updatedAt, None, None, None, [], None, poll)
  }

  /** The media types that count as video when merging: video and animated GIF. */
  predicate IsVideoType(mediaType: string)
  {
    mediaType == KindName(AnimatedGIF) || mediaType == KindName(Video)
  }

  /** `media.contains(where: isVideo)`. */
  function HasVideo(media: seq<V2Media>): (r: bool)
    ensures r <==> exists i :: 0 <= i < |media| && IsVideoType(media[i].mediaType)
  {
    if media == [] then false
    else
      var rest := HasVideo(media[1..]);
      assert forall i :: 1 <= i < |media| ==> media[i] == media[1..][i - 1];
      IsVideoType(media[0].mediaType) || rest
  }

  /** The attachments after the media rule; attachments already holding a video stay as they are. */
  function MergedAttachments(old_: seq<TwitterAttachment>, media: Option<seq<V2Media>>): (r: seq<TwitterAttachment>)
    ensures media.None? ==> r == old_
    ensures media.Some? && HasVideo(media.value) && old_ != [] ==> r == old_
    ensures media.Some? && !(HasVideo(media.value) && old_ != []) ==> r == CompactMap(media.value, V2Attachment)
  {
    match media
    case None => old_
    case Some(m) => if HasVideo(m) && old_ != [] then old_ else CompactMap(m, V2Attachment)
  }

  /**
   * The private `update(twitterStatus:context:)` on a state: entities always; reply settings,
   * conversation id and location only when present; the reply count written twice, the
   * second time with the quote count; the media rule for attachments.
   */
  function ApplyUpdate(s: StatusState, t: V2Tweet, d: DictContent): (r: StatusState)
    ensures r.entities == t.entities
    ensures t.replySettings.Some? ==> r.replySettings == Some(TwitterReplySettings(t.replySettings.value))
    ensures t.replySettings.None? ==> r.replySettings == s.replySettings
    ensures t.conversationID.Some? ==> r.conversationID == t.conversationID
    ensures t.conversationID.None? ==> r.conversationID == s.conversationID
    ensures t.publicMetrics.Some? ==> r.replyCount == t.publicMetrics.value.quoteCount
    ensures t.publicMetrics.None? ==> r.replyCount == s.replyCount
    ensures r.attachments == MergedAttachments(s.attachments, d.MediaFor(t))
    ensures d.PlaceFor(t).Some? ==> r.location == Some(V2Location(d.PlaceFor(t).value))
    ensures d.PlaceFor(t).None? ==> r.location == s.location
    ensures r.text == s.text && r.likeCount == s.likeCount && r.repostCount == s.repostCount && r.quoteCount == s.quoteCount
    ensures r.updatedAt == s.updatedAt && r.createdAt == s.createdAt && r.poll == s.poll
    ensures r.language == s.language && r.source == s.source
    ensures r.replyToStatusID == s.replyToStatusID && r.replyToUserID == s.replyToUserID
  {
    PlaceStep(MediaStep(MetricsStep(ConversationStep(ReplySettingsStep(s.(entities := t.entities), t), t), t), t, d), t, d)
  }

  function ReplySettingsStep(s: StatusState, t: V2Tweet): StatusState
  {
    if t.replySettings.Some? then s.(replySettings := Some(TwitterReplySettings(t.replySettings.value))) else s
  }

  function ConversationStep(s: StatusState, t: V2Tweet): StatusState
  {
    if t.conversationID.Some? then s.(conversationID := t.conversationID) else s
  }

  function MetricsStep(s: StatusState, t: V2Tweet): StatusState
  {
    if t.publicMetrics.Some? then s.(replyCount := t.publicMetrics.value.replyCount).(replyCount := t.publicMetrics.value.quoteCount) else s
  }

  function MediaStep(s: StatusState, t: V2Tweet, d: DictContent): StatusState
  {
    s.(attachments := MergedAttachments(s.attachments, d.MediaFor(t)))
  }

  function PlaceStep(s: StatusState, t: V2Tweet, d: DictContent): StatusState
  {
    if d.PlaceFor(t).Some? then s.(location := Some(V2Location(d.PlaceFor(t).value))) else s
  }

  /** Running the update twice leaves the record as one run does. */
  lemma ApplyUpdateIdempotent(s: StatusState, t: V2Tweet, d: DictContent)
    ensures ApplyUpdate(ApplyUpdate(s, t, d), t, d) == ApplyUpdate(s, t, d)
  {
    var once := ApplyUpdate(s, t, d);
    var twice := ApplyUpdate(once, t, d);
    MergedAttachmentsIdempotent(s.attachments, d.MediaFor(t));
    assert twice.attachments == once.attachments;
    assert twice.replyCount == once.replyCount && twice.location == once.location;
    assert twice.replySettings == once.replySettings && twice.conversationID == once.conversationID;
  }

  /** The media rule applied to its own result changes nothing. */
  lemma MergedAttachmentsIdempotent(old_: seq<TwitterAttachment>, media: Option<seq<V2Media>>)
    ensures MergedAttachments(MergedAttachments(old_, media), media) == MergedAttachments(old_, media)
  {
  }

  /** The state after `merge`: nothing changes unless the network date is strictly later. */
  function MergedState(s: StatusState, ctx: PersistContextV2): (r: StatusState)
    ensures ctx.networkDate <= s.updatedAt ==> r == s
    ensures ctx.networkDate > s.updatedAt ==> r.updatedAt == ctx.networkDate
    ensures ctx.networkDate > s.updatedAt && ctx.dictionary.PollFor(ctx.entity.status).Some? ==>
      r.poll == ctx.dictionary.PollFor(ctx.entity.status)
    ensures ctx.networkDate > s.updatedAt && ctx.dictionary.PollFor(ctx.entity.status).None? ==> r.poll == s.poll
  {
    if ctx.networkDate > s.updatedAt then
      var withProperty := WithProperty(s, PropertyOf(ctx));
      var poll := ctx.dictionary.PollFor(ctx.entity.status);
      var withPoll := if poll.Some? then withProperty.(poll := poll) else withProperty;
      ApplyUpdate(withPoll, ctx.entity.status, ctx.dictionary)
    else s
  }

  /** `updatedAt` never moves back, and a second identical merge is stale and changes nothing. */
  lemma {:induction false} MergeMonotoneIdempotent(s: StatusState, ctx: PersistContextV2)
    ensures MergedState(s, ctx).updatedAt >= s.updatedAt
    ensures MergedState(MergedState(s, ctx), ctx) == MergedState(s, ctx)
  {
  }

  /** The user state after `TwitterUser.merge`: overwritten from the payload when it is newer. */
  function MergedUser(u: UserState, e: V2User, networkDate: int): (r: UserState)
    ensures networkDate <= u.updatedAt ==> r == u
    ensures networkDate > u.updatedAt ==> r == UserStateOf(TwitterUserExt.UserPropertyV2(e, networkDate))
  {
    if networkDate > u.updatedAt then UserStateOf(TwitterUserExt.UserPropertyV2(e, networkDate)) else u
  }

  /** The state a record created from `ctx` has. */
  function CreatedState(ctx: PersistContextV2): (s: StatusState)
    ensures s.updatedAt == ctx.networkDate && s.poll == ctx.dictionary.PollFor(ctx.entity.status)
  {
    ApplyUpdate(InsertedState(PropertyOf(ctx), ctx.dictionary.PollFor(ctx.entity.status)), ctx.entity.status, ctx.dictionary)
  }

  // ---------------------------------------------------------------- updating records in place

  /** The private `update(twitterStatus:context:)`, statement by statement. */
  method Update(status: TwitterStatus, ctx: PersistContextV2)
    modifies status
    ensures status.state == ApplyUpdate(old(status.state), ctx.entity.status, ctx.dictionary)
    ensures status.likeBy == old(status.likeBy) && status.repostBy == old(status.repostBy)
  {
    var t := ctx.entity.status;
    status.UpdateEntities(t.entities);
    if t.replySettings.Some? {
      status.UpdateReplySettings(TwitterReplySettings(t.replySettings.value));
    }
    if t.conversationID.Some? {
      status.UpdateConversationID(t.conversationID.value);
    }
    if t.publicMetrics.Some? {
      var metrics := t.publicMetrics.value;
      status.UpdateReplyCount(metrics.replyCount);
      status.UpdateReplyCount(metrics.quoteCount);
    }
    ghost var s4 := status.state;
    var media := ctx.dictionary.MediaFor(t);
    if media.Some? {
      var keep := HasVideo(media.value) && status.state.attachments != [];
      if !keep {
        status.UpdateAttachments(CompactMap(media.value, V2Attachment));
      }
    }
    assert status.state == MediaStep(s4, t, ctx.dictionary);
    var place := ctx.dictionary.PlaceFor(t);
    if place.Some? {
      status.UpdateLocation(V2Location(place.value));
    }
  }

  /** `TwitterUser.merge`: overwrite the user from the payload when the payload is newer. */
  method MergeUser(user: TwitterUser, e: V2User, networkDate: int)
    modifies user
    ensures user.state == MergedUser(old(user.state), e, networkDate)
  {
    if networkDate > user.state.updatedAt {
      user.UpdateProperty(TwitterUserExt.UserPropertyV2(e, networkDate));
    }
  }

  /** `merge(twitterStatus:context:)`: property, poll, update and author merge, all behind the date guard. */
  method Merge(status: TwitterStatus, ctx: PersistContextV2)
    modifies status, status.author
    ensures status.state == MergedState(old(status.state), ctx)
    ensures status.author.state == if ctx.networkDate > old(status.state.updatedAt)
                                   then MergedUser(old(status.author.state), ctx.entity.author, ctx.networkDate)
                                   else old(status.author.state)
    ensures status.likeBy == old(status.likeBy) && status.repostBy == old(status.repostBy)
  {
    if !(ctx.networkDate > status.state.updatedAt) {
      return;
    }
    status.UpdateProperty(PropertyOf(ctx));
    var poll := ctx.dictionary.PollFor(ctx.entity.status);
    if poll.Some? {
      status.AttachPoll(poll.value);
    }
    Update(status, ctx);
    MergeUser(status.author, ctx.entity.author, ctx.networkDate);
  }

  // ---------------------------------------------------------------- fetching

  /** A lookup through the cache when there is one (and then only there), else the first list match. */
  function Lookup<T>(xs: seq<T>, key: T -> string, d: map<string, T>, cached: bool, id: string): (r: Option<T>)
    ensures cached ==> (r.Some? <==> id in d) && (r.Some? ==> r.value == d[id])
    ensures !cached ==> r == FirstMatch(xs, key, id)
  {
    if cached then (if id in d then Some(d[id]) else None) else FirstMatch(xs, key, id)
  }

  function CacheMap<T>(cache: PersistCache?<T>): map<string, T>
    reads cache
  {
    if cache != null then cache.dictionary else map[]
  }

  /**
   * `fetch(in:context:)` for the status id `id`: with a cache, the cache alone is consulted
   * (a miss is "not found"); without one, the first stored record with that id.
   */
  function Fetched(store: Store, sc: PersistCache?<TwitterStatus>, id: string): Option<TwitterStatus>
    reads store, sc
  {
    Lookup(store.statuses, StatusKey, CacheMap(sc), sc != null, id)
  }

  /** With a cache, `fetch` consults only the cache; without one, it finds the first stored record with the id. */
  lemma FetchedRule(store: Store, sc: PersistCache?<TwitterStatus>, id: string)
    ensures sc != null ==> (Fetched(store, sc, id).Some? <==> id in sc.dictionary)
                           && (id in sc.dictionary ==> Fetched(store, sc, id) == Some(sc.dictionary[id]))
    ensures sc == null ==> (Fetched(store, sc, id).None? <==> forall i :: 0 <= i < |store.statuses| ==> store.statuses[i].id != id)
    ensures sc == null && Fetched(store, sc, id).Some? ==> (Fetched(store, sc, id).value in store.statuses
                                                          && Fetched(store, sc, id).value.id == id)
  {
    FirstMatchIsFirst(store.statuses, StatusKey, id);
  }

  /** The user fetch of `TwitterUser.createOrMerge`: the same rule, over users. */
  function FetchedUser(store: Store, uc: PersistCache?<TwitterUser>, id: string): (r: Option<TwitterUser>)
    reads store, uc
    ensures uc != null ==> (r.Some? <==> id in uc.dictionary) && (r.Some? ==> r.value == uc.dictionary[id])
    ensures uc == null && r.Some? ==> r.value in store.users && r.value.id == id
  {
    Lookup(store.users, UserKey, CacheMap(uc), uc != null, id)
  }

  /** With a cache, the user fetch consults only the cache; without one, it finds the first stored user with the id. */
  lemma FetchedUserRule(store: Store, uc: PersistCache?<TwitterUser>, id: string)
    ensures uc == null ==> (FetchedUser(store, uc, id).None? <==> forall i :: 0 <= i < |store.users| ==> store.users[i].id != id)
    ensures uc == null ==> forall i :: 0 <= i < |store.users| && store.users[i].id == id && (forall j :: 0 <= j < i ==> store.users[j].id != id) ==>
      FetchedUser(store, uc, id) == Some(store.users[i])
  {
    FirstMatchIsFirst(store.users, UserKey, id);
  }

  /** Under the store invariant, whatever a fetch finds is a record of the store with the id asked for. */
  lemma FetchedIds(store: Store, sc: PersistCache?<TwitterStatus>, uc: PersistCache?<TwitterUser>, id: string)
    requires Valid(store, sc, uc)
    ensures Fetched(store, sc, id).Some? ==> Fetched(store, sc, id).value.id == id && Fetched(store, sc, id).value in store.Repr
    ensures FetchedUser(store, uc, id).Some? ==> FetchedUser(store, uc, id).value.id == id && FetchedUser(store, uc, id).value in store.Repr
  {
    FirstMatchIsFirst(store.statuses, StatusKey, id);
    FirstMatchIsFirst(store.users, UserKey, id);
  }

  /** Growth that never changes an existing lookup: the list only gains a suffix, the cache only new keys. */
  predicate Grown<T(==)>(xs0: seq<T>, d0: map<string, T>, xs1: seq<T>, d1: map<string, T>)
  {
    xs0 <= xs1 && forall k :: k in d0 ==> k in d1 && d1[k] == d0[k]
  }

  lemma {:induction false} FirstMatchPrefix<T>(xs: seq<T>, ys: seq<T>, key: T -> string, id: string)
    requires xs <= ys
    requires FirstMatch(xs, key, id).Some?
    ensures FirstMatch(ys, key, id) == FirstMatch(xs, key, id)
  {
    if key(xs[0]) != id {
      assert xs[1..] <= ys[1..];
      FirstMatchPrefix(xs[1..], ys[1..], key, id);
    }
  }

  /** A lookup that found something finds the same thing after any growth. */
  lemma LookupKept<T>(xs0: seq<T>, d0: map<string, T>, xs1: seq<T>, d1: map<string, T>, key: T -> string, cached: bool, id: string)
    requires Grown(xs0, d0, xs1, d1)
    requires Lookup(xs0, key, d0, cached, id).Some?
    ensures Lookup(xs1, key, d1, cached, id) == Lookup(xs0, key, d0, cached, id)
  {
    if !cached {
      FirstMatchPrefix(xs0, xs1, key, id);
    }
  }

  /**
   * Every stored and cached record lies in `repr`, and so does the author of every status
   * (an author is a `const` of its status, so this needs no heap). Every cache entry sits
   * under its record's own id, as the only writes into the caches put it.
   */
  ghost predicate Footprint(repr: set<object>, xs: seq<TwitterStatus>, us: seq<TwitterUser>,
                            sd: map<string, TwitterStatus>, ud: map<string, TwitterUser>)
  {
    (forall i :: 0 <= i < |xs| ==> xs[i] in repr && xs[i].author in repr)
    && (forall i :: 0 <= i < |us| ==> us[i] in repr)
    && (forall k :: k in sd ==> sd[k] in repr && sd[k].author in repr && sd[k].id == k)
    && (forall k :: k in ud ==> ud[k] in repr && ud[k].id == k)
  }

  /**
   * The store invariant the reconcile keeps: the store and its caches lie outside the footprint,
   * and every stored or cached record, with the author of every status, lies inside it.
   */
  ghost predicate Valid(store: Store, sc: PersistCache?<TwitterStatus>, uc: PersistCache?<TwitterUser>)
    reads store, sc, uc
  {
    store !in store.Repr && (sc != null ==> sc !in store.Repr) && (uc != null ==> uc !in store.Repr)
    && Footprint(store.Repr, store.statuses, store.users, CacheMap(sc), CacheMap(uc))
  }

  /** Storing (and possibly caching) a status whose author is inside keeps the footprint closed. */
  lemma FootprintAddStatus(repr: set<object>, xs: seq<TwitterStatus>, us: seq<TwitterUser>,
                           sd: map<string, TwitterStatus>, ud: map<string, TwitterUser>, s: TwitterStatus, key: string)
    requires Footprint(repr, xs, us, sd, ud) && s.author in repr && key == s.id
    ensures Footprint(repr + {s}, xs + [s], us, sd, ud)
    ensures Footprint(repr + {s}, xs + [s], us, sd[key := s], ud)
  {
  }

  /** Storing (and possibly caching) a user keeps the footprint closed. */
  lemma FootprintAddUser(repr: set<object>, xs: seq<TwitterStatus>, us: seq<TwitterUser>,
                         sd: map<string, TwitterStatus>, ud: map<string, TwitterUser>, u: TwitterUser, key: string)
    requires Footprint(repr, xs, us, sd, ud) && key == u.id
    ensures Footprint(repr + {u}, xs, us + [u], sd, ud)
    ensures Footprint(repr + {u}, xs, us + [u], sd, ud[key := u])
    ensures u in repr ==> Footprint(repr, xs, us, sd, ud[key := u])
  {
  }

  // ---------------------------------------------------------------- creating records

  /**
   * `TwitterUser.createOrMerge`: the cached (or first stored) user merged from the payload,
   * or a new user inserted into the store.
   */
  method CreateOrMergeUser(store: Store, uc: PersistCache?<TwitterUser>, e: V2User, networkDate: int) returns (user: TwitterUser, isNewInsertion: bool)
    requires uc != null ==> forall k :: k in uc.dictionary ==> uc.dictionary[k] in store.Repr && uc.dictionary[k].id == k
    requires forall i :: 0 <= i < |store.users| ==> store.users[i] in store.Repr
    requires store !in store.Repr
    modifies store`users, store`Repr, store.Repr
    ensures old(store.users) <= store.users && user in store.Repr && store.Repr >= old(store.Repr) && user.id == e.id
    ensures forall u: TwitterUser :: u in old(store.Repr) && u != user ==> u.state == old(u.state)
    ensures forall s: TwitterStatus :: s in old(store.Repr) ==> s.state == old(s.state) && s.likeBy == old(s.likeBy) && s.repostBy == old(s.repostBy)
    ensures forall i :: 0 <= i < |store.users| ==> store.users[i] in store.Repr
    ensures fresh(store.Repr - old(store.Repr))
    ensures isNewInsertion <==> old(FetchedUser(store, uc, e.id)).None?
    ensures !isNewInsertion ==> user == old(FetchedUser(store, uc, e.id)).value
                                && store.users == old(store.users) && store.Repr == old(store.Repr)
    ensures !isNewInsertion ==> user.state == MergedUser(old(FetchedUser(store, uc, e.id).value.state), e, networkDate)
    ensures isNewInsertion ==> fresh(user) && user.id == e.id
                               && store.users == old(store.users) + [user] && store.Repr == old(store.Repr) + {user}
    ensures isNewInsertion ==> user.state == UserStateOf(TwitterUserExt.UserPropertyV2(e, networkDate))
  {
    var found := FetchedUser(store, uc, e.id);
    FirstMatchIsFirst(store.users, UserKey, e.id);
    if found.Some? {
      user := found.value;
      MergeUser(user, e, networkDate);
      isNewInsertion := false;
    } else {
      user := new TwitterUser(TwitterUserExt.UserPropertyV2(e, networkDate));
      store.users := store.users + [user];
      store.Repr := store.Repr + {user};
      isNewInsertion := true;
    }
  }

  /** `create(in:context:relationship:)`: insert a record and run the update on it. */
  method Create(store: Store, ctx: PersistContextV2, author: TwitterUser, repost: TwitterStatus?, quote: TwitterStatus?, replyTo: TwitterStatus?, poll: Option<V2Poll>) returns (status: TwitterStatus)
    requires poll == ctx.dictionary.PollFor(ctx.entity.status)
    modifies store`statuses, store`Repr
    ensures fresh(status) && status.id == ctx.Id() && store.statuses == old(store.statuses) + [status]
    ensures store.Repr == old(store.Repr) + {status}
    ensures status.author == author && status.repost == repost && status.quote == quote && status.replyTo == replyTo
    ensures status.state == CreatedState(ctx)
    ensures status.likeBy == {} && status.repostBy == {}
  {
    var property := PropertyOf(ctx);
    status := new TwitterStatus(property.id, InsertedState(property, poll), author, repost, quote, replyTo);
    store.statuses := store.statuses + [status];
    store.Repr := store.Repr + {status};
    Update(status, ctx);
  }

  /** One nested `createOrMerge` of the tree building: `target` reconciled with no repost and no reply-to. */
  method Resolve(store: Store, ctx: PersistContextV2, target: Option<Entity>, quote: Option<Entity>) returns (r: TwitterStatus?)
    requires Valid(store, ctx.statusCache, ctx.userCache)
    requires target.Some? ==> Depth(ctx.Nested(target.value, quote)) < Depth(ctx)
    modifies store, ctx.statusCache, ctx.userCache, store.Repr
    ensures Valid(store, ctx.statusCache, ctx.userCache)
    ensures Grown(old(store.statuses), old(CacheMap(ctx.statusCache)), store.statuses, CacheMap(ctx.statusCache))
    ensures old(store.users) <= store.users
    ensures store.Repr >= old(store.Repr) && fresh(store.Repr - old(store.Repr))
    ensures r != null <==> target.Some?
    ensures r != null ==> Fetched(store, ctx.statusCache, target.value.status.id) == Some(r)
    ensures target.Some? && quote.Some? ==> Fetched(store, ctx.statusCache, quote.value.status.id).Some?
    ensures forall s: TwitterStatus :: s in old(store.Repr) ==> s.likeBy == old(s.likeBy) && s.repostBy == old(s.repostBy)
    ensures forall s: TwitterStatus :: s in old(store.Repr) && s.id !in StatusIdOf(target) + StatusIdOf(quote) ==> s.state == old(s.state)
    ensures forall u: TwitterUser ::
      u in old(store.Repr) && u.id !in AuthorIdOf(target) + AuthorIdOf(quote) && !AuthorOfTouched(store.Repr, StatusIdOf(target) + StatusIdOf(quote), u) ==>
      u.state == old(u.state)
    decreases Depth(ctx), 0
  {
    r := null;
    if target.Some? {
      var nested := ctx.Nested(target.value, quote);
      assert TouchedIds(nested) == StatusIdOf(target) + StatusIdOf(quote);
      assert AuthorIds(nested) == AuthorIdOf(target) + AuthorIdOf(quote);
      var status, _, _ := CreateOrMerge(store, nested);
      r := status;
    }
  }

  /**
   * The repost (which carries the quote along) or, only when there is no repost, the quote:
   * the second half of the "build tree" part of `createOrMerge`.
   */
  method ResolveRepostOrQuote(store: Store, ctx: PersistContextV2) returns (repost: TwitterStatus?, quote: TwitterStatus?)
    requires Valid(store, ctx.statusCache, ctx.userCache)
    modifies store, ctx.statusCache, ctx.userCache, store.Repr
    ensures Valid(store, ctx.statusCache, ctx.userCache)
    ensures Grown(old(store.statuses), old(CacheMap(ctx.statusCache)), store.statuses, CacheMap(ctx.statusCache))
    ensures old(store.users) <= store.users
    ensures store.Repr >= old(store.Repr) && fresh(store.Repr - old(store.Repr))
    ensures repost != null <==> ctx.repost.Some?
    ensures quote != null <==> ctx.repost.None? && ctx.quote.Some?
    ensures repost != null ==> Fetched(store, ctx.statusCache, ctx.repost.value.status.id) == Some(repost)
    ensures quote != null ==> Fetched(store, ctx.statusCache, ctx.quote.value.status.id) == Some(quote)
    ensures ctx.quote.Some? ==> Fetched(store, ctx.statusCache, ctx.quote.value.status.id).Some?
    ensures forall s: TwitterStatus :: s in old(store.Repr) ==> s.likeBy == old(s.likeBy) && s.repostBy == old(s.repostBy)
    ensures forall s: TwitterStatus :: s in old(store.Repr) && s.id !in StatusIdOf(ctx.repost) + StatusIdOf(ctx.quote) ==> s.state == old(s.state)
    ensures forall u: TwitterUser ::
      u in old(store.Repr) && u.id !in AuthorIdOf(ctx.repost) + AuthorIdOf(ctx.quote)
      && !AuthorOfTouched(store.Repr, StatusIdOf(ctx.repost) + StatusIdOf(ctx.quote), u) ==>
      u.state == old(u.state)
    decreases Depth(ctx), 1
  {
    repost := Resolve(store, ctx, ctx.repost, ctx.quote);
    quote := null;
    if repost == null {
      quote := Resolve(store, ctx, ctx.quote, None);
    }
  }

  /**
   * The "build tree" part of `createOrMerge`: reply-to, then repost (which carries the quote
   * along), then the quote only when there is no repost.
   */
  method ResolveTargets(store: Store, ctx: PersistContextV2) returns (replyTo: TwitterStatus?, repost: TwitterStatus?, quote: TwitterStatus?)
    requires Valid(store, ctx.statusCache, ctx.userCache)
    modifies store, ctx.statusCache, ctx.userCache, store.Repr
    ensures Valid(store, ctx.statusCache, ctx.userCache)
    ensures Grown(old(store.statuses), old(CacheMap(ctx.statusCache)), store.statuses, CacheMap(ctx.statusCache))
    ensures old(store.users) <= store.users
    ensures store.Repr >= old(store.Repr) && fresh(store.Repr - old(store.Repr))
    ensures Resolved(store.statuses, CacheMap(ctx.statusCache), ctx.statusCache != null, ctx)
    ensures Linked(store.statuses, CacheMap(ctx.statusCache), ctx.statusCache != null, ctx, replyTo, repost, quote)
    ensures forall s: TwitterStatus :: s in old(store.Repr) ==> s.likeBy == old(s.likeBy) && s.repostBy == old(s.repostBy)
    ensures forall s: TwitterStatus :: s in old(store.Repr) && s.id !in TargetIds(ctx) ==> s.state == old(s.state)
    ensures forall u: TwitterUser :: u in old(store.Repr) && u.id !in TargetAuthorIds(ctx) && !AuthorOfTouched(store.Repr, TargetIds(ctx), u) ==>
      u.state == old(u.state)
    decreases Depth(ctx), 2
  {
    var sc := ctx.statusCache;
    replyTo := Resolve(store, ctx, ctx.replyTo, None);
    ghost var xs1, d1, repr1 := store.statuses, CacheMap(sc), store.Repr;
    repost, quote := ResolveRepostOrQuote(store, ctx);
    if replyTo != null {
      LookupKept(xs1, d1, store.statuses, CacheMap(sc), StatusKey, sc != null, ctx.replyTo.value.status.id);
    }
    forall u: TwitterUser | u in old(store.Repr) && !AuthorOfTouched(store.Repr, TargetIds(ctx), u)
      ensures !AuthorOfTouched(repr1, StatusIdOf(ctx.replyTo), u)
      ensures !AuthorOfTouched(store.Repr, StatusIdOf(ctx.repost) + StatusIdOf(ctx.quote), u)
    {
      AuthorOfTouchedGrows(repr1, StatusIdOf(ctx.replyTo), store.Repr, TargetIds(ctx), u);
      AuthorOfTouchedGrows(store.Repr, StatusIdOf(ctx.repost) + StatusIdOf(ctx.quote), store.Repr, TargetIds(ctx), u);
    }
  }

  /** Every target the context names can be fetched from the (list, cache) pair. */
  ghost predicate Resolved(xs: seq<TwitterStatus>, d: map<string, TwitterStatus>, cached: bool, ctx: PersistContextV2)
  {
    (ctx.replyTo.Some? ==> Lookup(xs, StatusKey, d, cached, ctx.replyTo.value.status.id).Some?)
    && (ctx.repost.Some? ==> Lookup(xs, StatusKey, d, cached, ctx.repost.value.status.id).Some?)
    && (ctx.quote.Some? ==> Lookup(xs, StatusKey, d, cached, ctx.quote.value.status.id).Some?)
  }

  /**
   * The relations of a status built from `ctx`: reply-to and repost exactly when the context has
   * them, the quote only when there is no repost, each one the record fetched for its id.
   */
  ghost predicate Linked(xs: seq<TwitterStatus>, d: map<string, TwitterStatus>, cached: bool, ctx: PersistContextV2,
                         replyTo: TwitterStatus?, repost: TwitterStatus?, quote: TwitterStatus?)
  {
    (replyTo != null <==> ctx.replyTo.Some?)
    && (repost != null <==> ctx.repost.Some?)
    && (quote != null <==> ctx.repost.None? && ctx.quote.Some?)
    && (replyTo != null ==> Lookup(xs, StatusKey, d, cached, ctx.replyTo.value.status.id) == Some(replyTo))
    && (repost != null ==> Lookup(xs, StatusKey, d, cached, ctx.repost.value.status.id) == Some(repost))
    && (quote != null ==> Lookup(xs, StatusKey, d, cached, ctx.quote.value.status.id) == Some(quote))
  }

  /** Growth keeps every target found and every relation linked. */
  lemma LinksKept(xs0: seq<TwitterStatus>, d0: map<string, TwitterStatus>, xs1: seq<TwitterStatus>, d1: map<string, TwitterStatus>,
                  cached: bool, ctx: PersistContextV2, replyTo: TwitterStatus?, repost: TwitterStatus?, quote: TwitterStatus?)
    requires Grown(xs0, d0, xs1, d1)
    ensures Resolved(xs0, d0, cached, ctx) ==> Resolved(xs1, d1, cached, ctx)
    ensures Linked(xs0, d0, cached, ctx, replyTo, repost, quote) ==> Linked(xs1, d1, cached, ctx, replyTo, repost, quote)
  {
    if ctx.replyTo.Some? && Lookup(xs0, StatusKey, d0, cached, ctx.replyTo.value.status.id).Some? {
      LookupKept(xs0, d0, xs1, d1, StatusKey, cached, ctx.replyTo.value.status.id);
    }
    if ctx.repost.Some? && Lookup(xs0, StatusKey, d0, cached, ctx.repost.value.status.id).Some? {
      LookupKept(xs0, d0, xs1, d1, StatusKey, cached, ctx.repost.value.status.id);
    }
    if ctx.quote.Some? && Lookup(xs0, StatusKey, d0, cached, ctx.quote.value.status.id).Some? {
      LookupKept(xs0, d0, xs1, d1, StatusKey, cached, ctx.quote.value.status.id);
    }
  }

  /** Every target of the context has been reconciled and can be fetched. */
  ghost predicate TargetsPersisted(store: Store, sc: PersistCache?<TwitterStatus>, ctx: PersistContextV2)
    reads store, sc
  {
    Resolved(store.statuses, CacheMap(sc), sc != null, ctx)
  }

  /** The relations of `status` are the records `fetch` finds for the targets of the context. */
  ghost predicate TargetsLinked(store: Store, sc: PersistCache?<TwitterStatus>, ctx: PersistContextV2, status: TwitterStatus)
    reads store, sc
  {
    Linked(store.statuses, CacheMap(sc), sc != null, ctx, status.replyTo, status.repost, status.quote)
  }

  /** The author step of the create branch: reconcile the author and cache it under its id. */
  method InsertAuthor(store: Store, sc: PersistCache?<TwitterStatus>, uc: PersistCache?<TwitterUser>, e: V2User, networkDate: int)
    returns (author: TwitterUser, isNewInsertion: bool)
    requires Valid(store, sc, uc)
    modifies store`users, store`Repr, store.Repr, uc
    ensures Valid(store, sc, uc)
    ensures store.statuses == old(store.statuses) && old(store.users) <= store.users
    ensures store.Repr >= old(store.Repr) && fresh(store.Repr - old(store.Repr))
    ensures author in store.Repr
    ensures isNewInsertion <==> old(FetchedUser(store, uc, e.id)).None?
    ensures !isNewInsertion ==> author == old(FetchedUser(store, uc, e.id)).value
    ensures isNewInsertion ==> fresh(author) && author.id == e.id
    ensures uc != null ==> uc.dictionary == old(uc.dictionary)[author.id := author]
    ensures author.id == e.id
    ensures forall u: TwitterUser :: u in old(store.Repr) && u.id != e.id ==> u.state == old(u.state)
    ensures forall s: TwitterStatus :: s in old(store.Repr) ==> s.state == old(s.state) && s.likeBy == old(s.likeBy) && s.repostBy == old(s.repostBy)
  {
    ghost var repr0, us0, ud0 := store.Repr, store.users, CacheMap(uc);
    author, isNewInsertion := CreateOrMergeUser(store, uc, e, networkDate);
    if uc != null {
      uc.Put(author.id, author);
    }
    FootprintAddUser(repr0, store.statuses, us0, CacheMap(sc), ud0, author, author.id);
  }

  /** The record step of the create branch: insert the record and cache it under its id. */
  method InsertRecord(store: Store, ctx: PersistContextV2, author: TwitterUser, replyTo: TwitterStatus?, repost: TwitterStatus?, quote: TwitterStatus?)
    returns (status: TwitterStatus)
    requires Valid(store, ctx.statusCache, ctx.userCache)
    requires author in store.Repr
    requires Fetched(store, ctx.statusCache, ctx.Id()).None?
    modifies store`statuses, store`Repr, ctx.statusCache
    ensures Valid(store, ctx.statusCache, ctx.userCache)
    ensures Grown(old(store.statuses), old(CacheMap(ctx.statusCache)), store.statuses, CacheMap(ctx.statusCache))
    ensures store.users == old(store.users) && store.Repr == old(store.Repr) + {status}
    ensures Fetched(store, ctx.statusCache, ctx.Id()) == Some(status)
    ensures fresh(status) && status.id == ctx.Id() && status.state == CreatedState(ctx)
    ensures status.author == author && status.replyTo == replyTo && status.repost == repost && status.quote == quote
    ensures status.likeBy == {} && status.repostBy == {}
  {
    var sc := ctx.statusCache;
    ghost var repr0, xs0, sd0 := store.Repr, store.statuses, CacheMap(sc);
    status := Create(store, ctx, author, repost, quote, replyTo, ctx.dictionary.PollFor(ctx.entity.status));
    if sc != null {
      sc.Put(status.id, status);
    } else {
      FirstMatchAppend(xs0, status, StatusKey, ctx.Id());
    }
    FootprintAddStatus(repr0, xs0, store.users, sd0, CacheMap(ctx.userCache), status, status.id);
  }

  /**
   * The create branch of `createOrMerge`: the poll, the author (reconciled and cached under its
   * id), the new record, and the record cached under its id.
   */
  method Insert(store: Store, ctx: PersistContextV2, replyTo: TwitterStatus?, repost: TwitterStatus?, quote: TwitterStatus?)
    returns (status: TwitterStatus, isNewInsertionAuthor: bool)
    requires Valid(store, ctx.statusCache, ctx.userCache)
    requires Fetched(store, ctx.statusCache, ctx.Id()).None?
    modifies store, ctx.statusCache, ctx.userCache, store.Repr
    ensures Valid(store, ctx.statusCache, ctx.userCache)
    ensures Grown(old(store.statuses), old(CacheMap(ctx.statusCache)), store.statuses, CacheMap(ctx.statusCache))
    ensures old(store.users) <= store.users
    ensures store.Repr >= old(store.Repr) && fresh(store.Repr - old(store.Repr))
    ensures Fetched(store, ctx.statusCache, ctx.Id()) == Some(status)
    ensures fresh(status) && status.id == ctx.Id() && status.state == CreatedState(ctx)
    ensures status.replyTo == replyTo && status.repost == repost && status.quote == quote
    ensures status.likeBy == {} && status.repostBy == {}
    ensures isNewInsertionAuthor <==> old(FetchedUser(store, ctx.userCache, ctx.entity.author.id)).None?
    ensures !isNewInsertionAuthor ==> status.author == old(FetchedUser(store, ctx.userCache, ctx.entity.author.id)).value
    ensures isNewInsertionAuthor ==> fresh(status.author) && status.author.id == ctx.entity.author.id
    ensures ctx.userCache != null ==> status.author.id in ctx.userCache.dictionary
                                      && ctx.userCache.dictionary[status.author.id] == status.author
    ensures forall u: TwitterUser :: u in old(store.Repr) && u.id != ctx.entity.author.id ==> u.state == old(u.state)
    ensures forall s: TwitterStatus :: s in old(store.Repr) ==> s.state == old(s.state) && s.likeBy == old(s.likeBy) && s.repostBy == old(s.repostBy)
  {
    var author;
    author, isNewInsertionAuthor := InsertAuthor(store, ctx.statusCache, ctx.userCache, ctx.entity.author, ctx.networkDate);
    status := InsertRecord(store, ctx, author, replyTo, repost, quote);
  }

  /**
   * The second half of `createOrMerge`: merge into the record `fetch` finds, or insert one.
   */
  method FetchOrCreate(store: Store, ctx: PersistContextV2, replyTo: TwitterStatus?, repost: TwitterStatus?, quote: TwitterStatus?)
    returns (status: TwitterStatus, isNewInsertion: bool, isNewInsertionAuthor: bool)
    requires Valid(store, ctx.statusCache, ctx.userCache)
    modifies store, ctx.statusCache, ctx.userCache, store.Repr
    ensures Valid(store, ctx.statusCache, ctx.userCache)
    ensures Grown(old(store.statuses), old(CacheMap(ctx.statusCache)), store.statuses, CacheMap(ctx.statusCache))
    ensures old(store.users) <= store.users
    ensures store.Repr >= old(store.Repr) && fresh(store.Repr - old(store.Repr))
    ensures Fetched(store, ctx.statusCache, ctx.Id()) == Some(status)
    ensures isNewInsertion <==> old(Fetched(store, ctx.statusCache, ctx.Id())).None?
    ensures !isNewInsertion ==> status == old(Fetched(store, ctx.statusCache, ctx.Id())).value && !isNewInsertionAuthor
    ensures !isNewInsertion ==> status.state == MergedState(old(Fetched(store, ctx.statusCache, ctx.Id()).value.state), ctx)
    ensures isNewInsertion ==> fresh(status) && status.id == ctx.Id() && status.state == CreatedState(ctx)
    ensures isNewInsertion ==> status.replyTo == replyTo && status.repost == repost && status.quote == quote
    ensures isNewInsertionAuthor ==> fresh(status.author) && status.author.id == ctx.entity.author.id
    ensures forall s: TwitterStatus :: s in old(store.Repr) ==> s.likeBy == old(s.likeBy) && s.repostBy == old(s.repostBy)
    ensures forall s: TwitterStatus :: s in old(store.Repr) && s.id != ctx.Id() ==> s.state == old(s.state)
    ensures forall u: TwitterUser :: u in old(store.Repr) && u.id != ctx.entity.author.id && !AuthorOfTouched(store.Repr, {ctx.Id()}, u) ==>
      u.state == old(u.state)
  {
    var found := Fetched(store, ctx.statusCache, ctx.Id());
    if found.Some? {
      status := found.value;
      FetchedRule(store, ctx.statusCache, ctx.Id());
      FetchedIds(store, ctx.statusCache, ctx.userCache, ctx.Id());
      Merge(status, ctx);
      assert AuthorOfTouched(store.Repr, {ctx.Id()}, status.author);
      return status, false, false;
    }
    status, isNewInsertionAuthor := Insert(store, ctx, replyTo, repost, quote);
    isNewInsertion := true;
  }

  /**
   * `createOrMerge(in:context:)`: the targets first, then the status itself. The targets are
   * persisted whether or not the status already exists; a status that can be fetched is merged
   * and reported as not inserted.
   */
  method CreateOrMerge(store: Store, ctx: PersistContextV2) returns (status: TwitterStatus, isNewInsertion: bool, isNewInsertionAuthor: bool)
    requires Valid(store, ctx.statusCache, ctx.userCache)
    modifies store, ctx.statusCache, ctx.userCache, store.Repr
    ensures Valid(store, ctx.statusCache, ctx.userCache)
    ensures Grown(old(store.statuses), old(CacheMap(ctx.statusCache)), store.statuses, CacheMap(ctx.statusCache))
    ensures old(store.users) <= store.users
    ensures store.Repr >= old(store.Repr) && fresh(store.Repr - old(store.Repr))
    ensures Fetched(store, ctx.statusCache, ctx.Id()) == Some(status)
    ensures old(Fetched(store, ctx.statusCache, ctx.Id())).Some? ==>
      !isNewInsertion && status == old(Fetched(store, ctx.statusCache, ctx.Id())).value
    ensures !isNewInsertion ==> !isNewInsertionAuthor
    ensures isNewInsertion ==> fresh(status) && status.id == ctx.Id() && status.state == CreatedState(ctx)
    ensures isNewInsertionAuthor ==> fresh(status.author) && status.author.id == ctx.entity.author.id
    ensures TargetsPersisted(store, ctx.statusCache, ctx)
    ensures isNewInsertion ==> TargetsLinked(store, ctx.statusCache, ctx, status)
    ensures old(Fetched(store, ctx.statusCache, ctx.Id())).Some? && ctx.Id() !in TargetIds(ctx) ==>
      status.state == MergedState(old(Fetched(store, ctx.statusCache, ctx.Id()).value.state), ctx)
    ensures forall s: TwitterStatus :: s in old(store.Repr) ==> s.likeBy == old(s.likeBy) && s.repostBy == old(s.repostBy)
    ensures forall s: TwitterStatus :: s in old(store.Repr) && s.id !in TouchedIds(ctx) ==> s.state == old(s.state)
    ensures forall u: TwitterUser :: u in old(store.Repr) && u.id !in AuthorIds(ctx) && !AuthorOfTouched(store.Repr, TouchedIds(ctx), u) ==>
      u.state == old(u.state)
    decreases Depth(ctx), 3
  {
    var sc := ctx.statusCache;
    ghost var xs0, d0 := store.statuses, CacheMap(sc);
    FetchedIds(store, sc, ctx.userCache, ctx.Id());
    var replyTo, repost, quote := ResolveTargets(store, ctx);
    ghost var xs1, d1, repr1 := store.statuses, CacheMap(sc), store.Repr;
    if old(Fetched(store, sc, ctx.Id())).Some? {
      LookupKept(xs0, d0, xs1, d1, StatusKey, sc != null, ctx.Id());
    }
    status, isNewInsertion, isNewInsertionAuthor := FetchOrCreate(store, ctx, replyTo, repost, quote);
    LinksKept(xs1, d1, store.statuses, CacheMap(sc), sc != null, ctx, replyTo, repost, quote);
    forall u: TwitterUser | u in old(store.Repr) && !AuthorOfTouched(store.Repr, TouchedIds(ctx), u)
      ensures !AuthorOfTouched(repr1, TargetIds(ctx), u) && !AuthorOfTouched(store.Repr, {ctx.Id()}, u)
    {
      AuthorOfTouchedGrows(repr1, TargetIds(ctx), store.Repr, TouchedIds(ctx), u);
      AuthorOfTouchedGrows(store.Repr, {ctx.Id()}, store.Repr, TouchedIds(ctx), u);
    }
  }
}
