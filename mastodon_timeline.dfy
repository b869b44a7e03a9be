/**
 * `persistMastodonTimelineResponse`: after the statuses of a Mastodon timeline answer are
 * persisted, the feed of the anchor status (the one the page was requested below) loses its
 * "has more" mark, and for the home timeline every status, oldest first, gets its author
 * followed by the account and its home feed refreshed or created; a feed created for the
 * oldest status of the page is marked "has more". The persisted statuses are inputs.
 */
module MastodonTimeline {
  import opened Wrappers
  import opened SeqUtil
  import opened MastodonStore
  import opened AuthContext

  datatype TimelinePersistContext = TimelinePersistContext(kind: FeedKind, maxID: Option<string>, authenticationContext: MastodonAuthenticationContext)

  function AcctOf(pc: TimelinePersistContext): Acct
  {
    MastodonAcct(pc.authenticationContext.domain, pc.authenticationContext.userID)
  }

  // ---------------------------------------------------------------- ordering by creation date

  predicate SortedByCreatedAt(xs: seq<MastodonStatus>)
  {
    forall i, j :: 0 <= i < j < |xs| ==> xs[i].createdAt <= xs[j].createdAt
  }

  function InsertByCreatedAt(x: MastodonStatus, xs: seq<MastodonStatus>): (r: seq<MastodonStatus>)
    requires SortedByCreatedAt(xs)
    ensures SortedByCreatedAt(r) && multiset(r) == multiset(xs) + multiset{x}
    ensures |r| == |xs| + 1
  {
    if xs == [] then [x]
    else if x.createdAt <= xs[0].createdAt then [x] + xs
    else
      var rest := InsertByCreatedAt(x, xs[1..]);
      assert xs == [xs[0]] + xs[1..];
      LowerBound(xs[0], x, xs[1..], rest);
      ConsSorted(xs[0], rest);
      [xs[0]] + rest
  }

  /** An element no later than a sorted tail and than `x` is no later than any element of their merge. */
  lemma LowerBound(h: MastodonStatus, x: MastodonStatus, tail: seq<MastodonStatus>, rest: seq<MastodonStatus>)
    requires SortedByCreatedAt([h] + tail) && h.createdAt <= x.createdAt
    requires multiset(rest) == multiset(tail) + multiset{x}
    ensures forall k :: 0 <= k < |rest| ==> h.createdAt <= rest[k].createdAt
  {
    forall k | 0 <= k < |rest|
      ensures h.createdAt <= rest[k].createdAt
    {
      assert rest[k] in multiset(rest);
      if rest[k] != x {
        assert rest[k] in multiset(tail);
        assert rest[k] in tail;
        var j :| 0 <= j < |tail| && tail[j] == rest[k];
        assert ([h] + tail)[0] == h && ([h] + tail)[j + 1] == tail[j];
      }
    }
  }

  lemma ConsSorted(h: MastodonStatus, rest: seq<MastodonStatus>)
    requires SortedByCreatedAt(rest)
    requires forall k :: 0 <= k < |rest| ==> h.createdAt <= rest[k].createdAt
    ensures SortedByCreatedAt([h] + rest)
  {
    forall i, j | 0 <= i < j < |rest| + 1
      ensures ([h] + rest)[i].createdAt <= ([h] + rest)[j].createdAt
    {
      if i > 0 {
        assert ([h] + rest)[i] == rest[i - 1];
      }
      assert ([h] + rest)[j] == rest[j - 1];
    }
  }

  /** `sorted(by: { $0.createdAt < $1.createdAt })`: the statuses in ascending creation date; ties stay in input order. */
  function SortByCreatedAt(xs: seq<MastodonStatus>): (r: seq<MastodonStatus>)
    ensures SortedByCreatedAt(r) && multiset(r) == multiset(xs) && |r| == |xs|
  {
    if xs == [] then []
    else
      assert xs == [xs[0]] + xs[1..];
      InsertByCreatedAt(xs[0], SortByCreatedAt(xs[1..]))
  }

  /** Sorting keeps the statuses of the page and so their authors. */
  lemma SortKeepsMembers(xs: seq<MastodonStatus>)
    ensures forall s :: s in SortByCreatedAt(xs) <==> s in xs
    ensures Authors(SortByCreatedAt(xs)) == Authors(xs)
  {
    var sorted := SortByCreatedAt(xs);
    forall s
      ensures s in sorted <==> s in xs
    {
      assert s in sorted <==> s in multiset(sorted);
    }
    forall u | u in Authors(sorted)
      ensures u in Authors(xs)
    {
      var s :| s in sorted && s.author == u;
      assert s in xs;
    }
    forall u | u in Authors(xs)
      ensures u in Authors(sorted)
    {
      var s :| s in xs && s.author == u;
      assert s in sorted;
    }
  }

  /** `sortedStatuses.first`. */
  function Oldest(xs: seq<MastodonStatus>): (r: Option<MastodonStatus>)
    ensures r.None? <==> xs == []
  {
    var sorted := SortByCreatedAt(xs);
    if sorted == [] then None else Some(sorted[0])
  }

  /** The oldest status is one of the page's, and none of the page is older. */
  lemma OldestIsEarliest(xs: seq<MastodonStatus>)
    requires xs != []
    ensures Oldest(xs).value in xs
    ensures forall s :: s in xs ==> Oldest(xs).value.createdAt <= s.createdAt
  {
    var sorted := SortByCreatedAt(xs);
    assert sorted[0] in multiset(sorted);
    forall s | s in xs
      ensures sorted[0].createdAt <= s.createdAt
    {
      assert s in multiset(sorted);
      var k :| 0 <= k < |sorted| && sorted[k] == s;
    }
  }

  // ---------------------------------------------------------------- the feed rules, on values

  /** The anchor rule: its feed for (kind, acct), if any, no longer "has more"; every other feed is kept. */
  function AnchoredFeeds(feeds: seq<Feed>, kind: FeedKind, acct: Acct): seq<Feed>
  {
    match FeedIndex(feeds, kind, acct)
    case None => feeds
    case Some(i) => feeds[i := feeds[i].(hasMore := false)]
  }

  /** What the anchor rule does to the feed for (kind, acct) and to the others. */
  lemma AnchoredFeedsRule(feeds: seq<Feed>, kind: FeedKind, acct: Acct)
    ensures var r := AnchoredFeeds(feeds, kind, acct);
      |r| == |feeds|
      && (FeedOf(feeds, kind, acct).Some? ==> FeedOf(r, kind, acct) == Some(FeedOf(feeds, kind, acct).value.(hasMore := false)))
      && (FeedOf(feeds, kind, acct).None? ==> r == feeds)
      && forall j :: 0 <= j < |feeds| && !(feeds[j].kind == kind && feeds[j].acct == acct) ==> r[j] == feeds[j]
  {
    match FeedIndex(feeds, kind, acct)
    case None =>
    case Some(i) =>
      FeedIndexUpdate(feeds, kind, acct, i, feeds[i].(hasMore := false));
  }

  /** Replacing the first matching feed by another matching one keeps it the first match. */
  lemma FeedIndexUpdate(feeds: seq<Feed>, kind: FeedKind, acct: Acct, i: nat, f: Feed)
    requires FeedIndex(feeds, kind, acct) == Some(i)
    requires f.kind == kind && f.acct == acct
    ensures FeedIndex(feeds[i := f], kind, acct) == Some(i)
  {
    var r := feeds[i := f];
    assert forall j :: 0 <= j < i ==> r[j] == feeds[j];
    assert r[i] == f;
  }

  /** A feed appended where none matched is the first match. */
  lemma FeedIndexAppend(feeds: seq<Feed>, kind: FeedKind, acct: Acct, f: Feed)
    requires FeedIndex(feeds, kind, acct).None?
    requires f.kind == kind && f.acct == acct
    ensures FeedIndex(feeds + [f], kind, acct) == Some(|feeds|)
  {
    var r := feeds + [f];
    assert forall j :: 0 <= j < |feeds| ==> r[j] == feeds[j];
    assert r[|feeds|] == f;
  }

  /**
   * The home rule for one status: an existing feed for (kind, acct) gets the new `updatedAt`;
   * otherwise a feed is appended, created at the status's date, marked "has more" exactly when
   * the status is the page's oldest.
   */
  function AttachedFeeds(feeds: seq<Feed>, kind: FeedKind, acct: Acct, createdAt: int, networkDate: int, isOldest: bool): seq<Feed>
  {
    match FeedIndex(feeds, kind, acct)
    case Some(i) => feeds[i := feeds[i].(updatedAt := networkDate)]
    case None => feeds + [Feed(acct, kind, isOldest, createdAt, networkDate)]
  }

  /** What the home rule does to the feed for (kind, acct) and to the others. */
  lemma AttachedFeedsRule(feeds: seq<Feed>, kind: FeedKind, acct: Acct, createdAt: int, networkDate: int, isOldest: bool)
    ensures var r := AttachedFeeds(feeds, kind, acct, createdAt, networkDate, isOldest);
      FeedOf(feeds, kind, acct).Some? ==>
        |r| == |feeds| && FeedOf(r, kind, acct) == Some(FeedOf(feeds, kind, acct).value.(updatedAt := networkDate))
        && forall j :: 0 <= j < |feeds| && !(feeds[j].kind == kind && feeds[j].acct == acct) ==> r[j] == feeds[j]
    ensures var r := AttachedFeeds(feeds, kind, acct, createdAt, networkDate, isOldest);
      FeedOf(feeds, kind, acct).None? ==>
        r == feeds + [Feed(acct, kind, isOldest, createdAt, networkDate)]
        && FeedOf(r, kind, acct) == Some(Feed(acct, kind, isOldest, createdAt, networkDate))
  {
    match FeedIndex(feeds, kind, acct)
    case Some(i) =>
      FeedIndexUpdate(feeds, kind, acct, i, feeds[i].(updatedAt := networkDate));
    case None =>
      FeedIndexAppend(feeds, kind, acct, Feed(acct, kind, isOldest, createdAt, networkDate));
  }

  /** Meeting the same status again in the page changes its feeds no further. */
  lemma AttachedFeedsIdempotent(feeds: seq<Feed>, kind: FeedKind, acct: Acct, createdAt: int, networkDate: int, isOldest: bool, again: bool)
    ensures AttachedFeeds(AttachedFeeds(feeds, kind, acct, createdAt, networkDate, isOldest), kind, acct, createdAt, networkDate, again)
         == AttachedFeeds(feeds, kind, acct, createdAt, networkDate, isOldest)
  {
    var once := AttachedFeeds(feeds, kind, acct, createdAt, networkDate, isOldest);
    match FeedIndex(feeds, kind, acct)
    case Some(i) =>
      FeedIndexUpdate(feeds, kind, acct, i, once[i]);
    case None =>
      FeedIndexAppend(feeds, kind, acct, Feed(acct, kind, isOldest, createdAt, networkDate));
  }

  // ---------------------------------------------------------------- the persistence steps

  /** The anchor query: the first persisted status of the account's domain with id `maxID`. */
  function AnchorOf(store: seq<MastodonStatus>, pc: TimelinePersistContext): (r: Option<MastodonStatus>)
    ensures pc.maxID.None? ==> r.None?
    ensures r.Some? ==> r.value in store && r.value.id == pc.maxID.value && r.value.domain == pc.authenticationContext.domain
  {
    if pc.maxID.None? then None else FindStatus(store, pc.authenticationContext.domain, pc.maxID.value)
  }

  function Authors(statuses: seq<MastodonStatus>): set<MastodonUser>
  {
    set s | s in statuses :: s.author
  }

  /** One step of the loop: the author is followed by the account, and the home rule is applied. */
  method AttachHomeFeed(status: MastodonStatus, isOldest: bool, me: Option<MastodonUser>, kind: FeedKind, acct: Acct, networkDate: int)
    modifies status`feeds, status.author`followedBy
    ensures status.feeds == AttachedFeeds(old(status.feeds), kind, acct, status.createdAt, networkDate, isOldest)
    ensures status.author.followedBy == if me.Some? then Membership(old(status.author.followedBy), true, me.value) else old(status.author.followedBy)
  {
    // set friendship
    if me.Some? {
      status.author.UpdateIsFollow(true, me.value);
    }
    // attach to feed
    var index := FeedIndex(status.feeds, kind, acct);
    if index.Some? {
      status.UpdateFeed(index.value, status.feeds[index.value].(updatedAt := networkDate));
    } else {
      var feed := Feed(acct, kind, false, status.createdAt, networkDate);
      status.AttachFeed(feed);
      // set hasMore on the oldest status if the feed is new
      if isOldest {
        status.UpdateFeed(|status.feeds| - 1, feed.(hasMore := true));
      }
    }
  }

  /** The loop invariant on the feeds: the statuses met so far carry the home rule, the others their feeds from before. */
  ghost predicate FeedsSoFar(sorted: seq<MastodonStatus>, done: set<MastodonStatus>, before: map<MastodonStatus, seq<Feed>>,
                             oldest: Option<MastodonStatus>, kind: FeedKind, acct: Acct, networkDate: int)
    reads set s | s in sorted
  {
    forall s :: s in sorted ==>
      (s in before &&
       s.feeds == if s in done then AttachedFeeds(before[s], kind, acct, s.createdAt, networkDate, oldest == Some(s)) else before[s])
  }

  /** The loop invariant on the authors: the authors met so far are followed by the account, the others keep their followers. */
  ghost predicate FollowedSoFar(sorted: seq<MastodonStatus>, followed: set<MastodonUser>, before: map<MastodonUser, set<MastodonUser>>,
                                me: Option<MastodonUser>)
    reads Authors(sorted)
  {
    forall u :: u in Authors(sorted) ==>
      (u in before &&
       u.followedBy == if me.Some? && u in followed then Membership(before[u], true, me.value) else before[u])
  }

  /** One turn of the loop, stated against the loop invariants. */
  method HomeStep(sorted: seq<MastodonStatus>, status: MastodonStatus, oldest: Option<MastodonStatus>, me: Option<MastodonUser>,
                  kind: FeedKind, acct: Acct, networkDate: int,
                  ghost done: set<MastodonStatus>, ghost followed: set<MastodonUser>,
                  ghost feeds0: map<MastodonStatus, seq<Feed>>, ghost follows0: map<MastodonUser, set<MastodonUser>>)
    requires status in sorted
    requires FeedsSoFar(sorted, done, feeds0, oldest, kind, acct, networkDate)
    requires FollowedSoFar(sorted, followed, follows0, me)
    modifies status`feeds, status.author`followedBy
    ensures FeedsSoFar(sorted, done + {status}, feeds0, oldest, kind, acct, networkDate)
    ensures FollowedSoFar(sorted, followed + {status.author}, follows0, me)
  {
    assert status.author in Authors(sorted);
    if me.Some? && status.author in followed {
      MembershipIdempotent(follows0[status.author], true, me.value);
    }
    if status in done {
      AttachedFeedsIdempotent(feeds0[status], kind, acct, status.createdAt, networkDate, oldest == Some(status), oldest == Some(status));
    }
    AttachHomeFeed(status, oldest == Some(status), me, kind, acct, networkDate);
  }

  /** The loop over the sorted page of the home timeline. */
  method AttachHomeFeeds(sorted: seq<MastodonStatus>, oldest: Option<MastodonStatus>, me: Option<MastodonUser>,
                         kind: FeedKind, acct: Acct, networkDate: int)
    modifies (set s | s in sorted)`feeds, Authors(sorted)`followedBy
    ensures forall s :: s in sorted ==> s.feeds == AttachedFeeds(old(s.feeds), kind, acct, s.createdAt, networkDate, oldest == Some(s))
    ensures forall u :: u in Authors(sorted) ==> u.followedBy == if me.Some? then Membership(old(u.followedBy), true, me.value) else old(u.followedBy)
  {
    ghost var feeds0 := map s | s in sorted :: s.feeds;
    ghost var follows0 := map u | u in Authors(sorted) :: u.followedBy;
    ghost var done: set<MastodonStatus> := {};
    ghost var followed: set<MastodonUser> := {};
    for i := 0 to |sorted|
      invariant forall k :: 0 <= k < i ==> sorted[k] in done
      invariant forall k :: 0 <= k < i ==> AuthorSeq(sorted)[k] in followed
      invariant FeedsSoFar(sorted, done, feeds0, oldest, kind, acct, networkDate)
      invariant FollowedSoFar(sorted, followed, follows0, me)
    {
      assert sorted[i].author in Authors(sorted);
      HomeStep(sorted, sorted[i], oldest, me, kind, acct, networkDate, done, followed, feeds0, follows0);
      PrefixGrows(sorted, i, done);
      PrefixGrows(AuthorSeq(sorted), i, followed);
      done := done + {sorted[i]};
      followed := followed + {sorted[i].author};
    }
    AuthorsCovered(sorted, followed);
  }

  /** Every author of the page is the author of some status at an index. */
  lemma AuthorsCovered(sorted: seq<MastodonStatus>, followed: set<MastodonUser>)
    requires forall k :: 0 <= k < |sorted| ==> AuthorSeq(sorted)[k] in followed
    ensures Authors(sorted) <= followed
  {
    forall u | u in Authors(sorted)
      ensures u in followed
    {
      var s :| s in sorted && s.author == u;
      var k :| 0 <= k < |sorted| && sorted[k] == s;
      assert AuthorSeq(sorted)[k] == u;
    }
  }

  function AuthorSeq(statuses: seq<MastodonStatus>): (r: seq<MastodonUser>)
    ensures |r| == |statuses| && forall k :: 0 <= k < |statuses| ==> r[k] == statuses[k].author
  {
    seq(|statuses|, k requires 0 <= k < |statuses| => statuses[k].author)
  }

  lemma PrefixGrows<T>(xs: seq<T>, i: nat, done: set<T>)
    requires i < |xs|
    requires forall k :: 0 <= k < i ==> xs[k] in done
    ensures forall k :: 0 <= k < i + 1 ==> xs[k] in done + {xs[i]}
  {
  }

  /** The anchor step: the anchor's feed for (kind, acct) no longer "has more". */
  method MarkAnchor(anchor: MastodonStatus, kind: FeedKind, acct: Acct)
    modifies anchor`feeds
    ensures anchor.feeds == AnchoredFeeds(old(anchor.feeds), kind, acct)
  {
    var index := FeedIndex(anchor.feeds, kind, acct);
    if index.Some? {
      anchor.UpdateFeed(index.value, anchor.feeds[index.value].(hasMore := false));
    }
  }

  /** The feeds of a status after the anchor step. */
  function AfterAnchor(s: MastodonStatus, anchor: Option<MastodonStatus>, feeds: seq<Feed>, kind: FeedKind, acct: Acct): seq<Feed>
  {
    if anchor == Some(s) then AnchoredFeeds(feeds, kind, acct) else feeds
  }

  /**
   * `persistMastodonTimelineResponse`, after the per-entity `createOrMerge`: `statuses` are the
   * persisted statuses of the answer in answer order, `store` the persisted statuses the anchor
   * query searches, `me` the account's user record if found.
   */
  method PersistTimelineFeeds(statuses: seq<MastodonStatus>, store: seq<MastodonStatus>, me: Option<MastodonUser>,
                              pc: TimelinePersistContext, networkDate: int)
    modifies (set s | s in store || s in statuses)`feeds, Authors(statuses)`followedBy
    ensures forall s :: s in store || s in statuses ==>
      s.feeds == (var anchored := AfterAnchor(s, AnchorOf(store, pc), old(s.feeds), pc.kind, AcctOf(pc));
                  if pc.kind == Home && s in statuses
                  then AttachedFeeds(anchored, pc.kind, AcctOf(pc), s.createdAt, networkDate, Oldest(statuses) == Some(s))
                  else anchored)
    ensures forall u :: u in Authors(statuses) ==>
      u.followedBy == if pc.kind == Home && me.Some? then Membership(old(u.followedBy), true, me.value) else old(u.followedBy)
  {
    // locate the anchor status
    var anchor := AnchorOf(store, pc);
    var acct := AcctOf(pc);
    // update the hasMore flag of the anchor status
    if anchor.Some? {
      MarkAnchor(anchor.value, pc.kind, acct);
    }
    assert forall s :: s in store || s in statuses ==> s.feeds == AfterAnchor(s, anchor, old(s.feeds), pc.kind, acct);

    match pc.kind
    case Home =>
      var sorted := SortByCreatedAt(statuses);
      var oldest := if sorted == [] then None else Some(sorted[0]);
      SortKeepsMembers(statuses);
      AttachHomeFeeds(sorted, oldest, me, pc.kind, acct, networkDate);
    case OtherKind(_) =>
  }
}
