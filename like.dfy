/**
 * The optimistic like toggle of `APIService.like`. The record is looked up, the like target is
 * the reposted status when there is one, and the "liked by me" flag and the like count are
 * toggled at once; then the like or undo request is sent, and its answer either confirms the
 * new state or rolls the flag and the count back exactly. The server's answer is an input, and
 * so is whether the record and the account are still found when the answer arrives.
 */
module Like {
  import opened Wrappers
  import opened SeqUtil
  import opened TwitterStore
  import opened MastodonStore
  import opened AuthContext

  datatype LikeError = BadRequest | RequestFailed(message: string)

  datatype LikeRequest =
    | TwitterLike(userID: string, statusID: string)
    | TwitterUndoLike(userID: string, statusID: string)
    | MastodonFavorite(domain: string, statusID: string, undo: bool)

  function Max0(n: int): int { if n < 0 then 0 else n }

  /** The count shown before the server answers: one less if it was liked, one more otherwise, never below 0. */
  function OptimisticCount(likedCount: int, isLiked: bool): (r: int)
    ensures r >= 0
    ensures likedCount >= 1 ==> r == likedCount + (if isLiked then -1 else 1)
    ensures likedCount < 1 && isLiked ==> r == 0
  {
    Max0(if isLiked then likedCount - 1 else likedCount + 1)
  }

  /** The status a like applies to: the original of a repost, the status itself otherwise. */
  function TwitterTarget(s: TwitterStatus): (t: TwitterStatus)
    ensures s.repost != null ==> t == s.repost
    ensures s.repost == null ==> t == s
  {
    if s.repost != null then s.repost else s
  }

  function MastodonTarget(s: MastodonStatus): (t: MastodonStatus)
    ensures s.repost != null ==> t == s.repost
    ensures s.repost == null ==> t == s
  {
    if s.repost != null then s.repost else s
  }

  function TwitterTargets(record: Option<TwitterStatus>): set<object>
  {
    if record.Some? then {TwitterTarget(record.value)} else {}
  }

  function MastodonTargets(record: Option<MastodonStatus>): set<object>
  {
    if record.Some? then {MastodonTarget(record.value)} else {}
  }

  /** The outcome of a like: a bad request when the record or the account was missing, else the server's answer. */
  function Outcome<T>(found: bool, response: Result<T, string>): (r: Result<T, LikeError>)
    ensures !found ==> r == Failure(BadRequest)
    ensures found && response.Success? ==> r == Success(response.value)
    ensures found && response.Failure? ==> r == Failure(RequestFailed(response.error))
  {
    if !found then Failure(BadRequest)
    else if response.Success? then Success(response.value) else Failure(RequestFailed(response.error))
  }

  /**
   * What a Twitter like does to its target and sends: nothing without the record or the
   * account; otherwise the like or undo request for the target, the optimistic toggle, and
   * then, when the record is found again, the server's flag or the exact rollback.
   */
  twostate predicate TwitterLikeEffect(record: Option<TwitterStatus>, me: Option<TwitterUser>, ctx: TwitterAuthenticationContext,
                                       response: Result<bool, string>, refound: bool, new request: Option<LikeRequest>)
    reads TwitterTargets(record)
  {
    && (record.None? || me.None? ==> request.None?)
    && (record.Some? && me.None? ==>
          TwitterTarget(record.value).state == old(TwitterTarget(record.value).state)
          && TwitterTarget(record.value).likeBy == old(TwitterTarget(record.value).likeBy))
    && (record.Some? && me.Some? ==>
          && var t, user := TwitterTarget(record.value), me.value;
          && var wasLiked := user in old(t.likeBy);
          && request == Some(if wasLiked then TwitterUndoLike(ctx.userID, t.id) else TwitterLike(ctx.userID, t.id))
          && t.repostBy == old(t.repostBy)
          && (!refound ==>
                t.likeBy == Membership(old(t.likeBy), !wasLiked, user)
                && t.state == old(t.state).(likeCount := OptimisticCount(old(t.state.likeCount), wasLiked)))
          && (refound && response.Success? ==>
                t.likeBy == Membership(old(t.likeBy), response.value, user)
                && t.state == old(t.state).(likeCount := OptimisticCount(old(t.state.likeCount), wasLiked)))
          && (refound && response.Failure? ==> t.likeBy == old(t.likeBy) && t.state == old(t.state)))
  }

  /**
   * `like(record:authenticationContext:)` for Twitter. `record` and `me` are the records the
   * lookup finds (nil when missing); `response` is the server's answer, carrying the liked flag;
   * `refound` says whether the second lookup finds them again.
   */
  method LikeTwitterStatus(record: Option<TwitterStatus>, me: Option<TwitterUser>, ctx: TwitterAuthenticationContext,
                           response: Result<bool, string>, refound: bool)
    returns (result: Result<bool, LikeError>, request: Option<LikeRequest>)
    modifies TwitterTargets(record)
    ensures result == Outcome(record.Some? && me.Some?, response)
    ensures TwitterLikeEffect(record, me, ctx, response, refound, request)
  {
    if record.None? || me.None? {
      return Failure(BadRequest), None;
    }
    var user := me.value;
    var status := TwitterTarget(record.value);
    // optimistic update
    var isLiked := user in status.likeBy;
    var likedCount := status.state.likeCount;
    var likeCount := if isLiked then likedCount - 1 else likedCount + 1;
    status.UpdateIsLike(!isLiked, user);
    status.UpdateLikeCount(Max0(likeCount));

    // like or undo like
    request := Some(if isLiked then TwitterUndoLike(ctx.userID, status.id) else TwitterLike(ctx.userID, status.id));
    result := if response.Success? then Success(response.value) else Failure(RequestFailed(response.error));

    if !refound {
      return;
    }
    match response
    case Success(liked) =>
      status.UpdateIsLike(liked, user);
      MembershipOverwrite(old(status.likeBy), !isLiked, liked, user);
    case Failure(_) =>
      // rollback
      status.UpdateIsLike(isLiked, user);
      status.UpdateLikeCount(likedCount);
      MembershipUndo(old(status.likeBy), !isLiked, user);
  }

  /** The status the Mastodon favourite endpoint answers with; only its like fields are read here. */
  datatype FavoriteReply = FavoriteReply(favourited: bool, favouritesCount: int)

  /**
   * The like flag and count the target carries once `Persistence.MastodonStatus.createOrMerge`
   * has merged the server's answer into the store; that merge is not part of this model.
   */
  datatype MergedLike = MergedLike(liked: bool, likeCount: int)

  /**
   * What a Mastodon like does to its target and sends: nothing without the record or the
   * account; otherwise the favourite or undo request for the target, the optimistic toggle,
   * and then, when the record is found again, the merged answer (lowered by one more after an
   * undo) or the exact rollback.
   */
  twostate predicate MastodonLikeEffect(record: Option<MastodonStatus>, me: Option<MastodonUser>, ctx: MastodonAuthenticationContext,
                                        response: Result<FavoriteReply, string>, merged: MergedLike, refound: bool, new request: Option<LikeRequest>)
    reads MastodonTargets(record)
  {
    && (record.None? || me.None? ==> request.None?)
    && (record.Some? && me.None? ==>
          MastodonTarget(record.value).likeCount == old(MastodonTarget(record.value).likeCount)
          && MastodonTarget(record.value).likeBy == old(MastodonTarget(record.value).likeBy))
    && (record.Some? && me.Some? ==>
          && var t, user := MastodonTarget(record.value), me.value;
          && var wasLiked := user in old(t.likeBy);
          && request == Some(MastodonFavorite(ctx.domain, t.id, wasLiked))
          && t.feeds == old(t.feeds)
          && (!refound ==>
                t.likeBy == Membership(old(t.likeBy), !wasLiked, user)
                && t.likeCount == OptimisticCount(old(t.likeCount), wasLiked))
          && (refound && response.Success? ==>
                t.likeBy == Membership(old(t.likeBy), merged.liked, user)
                && t.likeCount == (if wasLiked then Max0(merged.likeCount - 1) else merged.likeCount))
          && (refound && response.Failure? ==> t.likeBy == old(t.likeBy) && t.likeCount == old(t.likeCount)))
  }

  /**
   * `like(record:authenticationContext:)` for Mastodon. On success the answer is merged into
   * the target (`merged` is what that merge leaves), and after an undo the count is lowered
   * once more, because the server's count lags behind; on failure the flag and the count are
   * rolled back.
   */
  method LikeMastodonStatus(record: Option<MastodonStatus>, me: Option<MastodonUser>, ctx: MastodonAuthenticationContext,
                            response: Result<FavoriteReply, string>, merged: MergedLike, refound: bool)
    returns (result: Result<FavoriteReply, LikeError>, request: Option<LikeRequest>)
    modifies MastodonTargets(record)
    ensures result == Outcome(record.Some? && me.Some?, response)
    ensures MastodonLikeEffect(record, me, ctx, response, merged, refound, request)
  {
    if record.None? || me.None? {
      return Failure(BadRequest), None;
    }
    var user := me.value;
    var status := MastodonTarget(record.value);
    // optimistic update
    var isLiked := user in status.likeBy;
    var likedCount := status.likeCount;
    var likeCount := if isLiked then likedCount - 1 else likedCount + 1;
    status.UpdateIsLike(!isLiked, user);
    status.UpdateLikeCount(Max0(likeCount));

    // favourite or undo favourite
    request := Some(MastodonFavorite(ctx.domain, status.id, isLiked));
    result := if response.Success? then Success(response.value) else Failure(RequestFailed(response.error));

    if !refound {
      return;
    }
    match response
    case Success(_) =>
      // the merge of the answered status into the record
      status.UpdateIsLike(merged.liked, user);
      status.UpdateLikeCount(merged.likeCount);
      MembershipOverwrite(old(status.likeBy), !isLiked, merged.liked, user);
      if isLiked {
        status.UpdateLikeCount(Max0(status.likeCount - 1));
      }
    case Failure(_) =>
      // rollback
      status.UpdateIsLike(isLiked, user);
      status.UpdateLikeCount(likedCount);
      MembershipUndo(old(status.likeBy), !isLiked, user);
  }

  /** `StatusRecord`: a status of one of the two platforms, with the result of looking up its record. */
  datatype StatusRecord = TwitterRecord(twitter: Option<TwitterStatus>) | MastodonRecord(mastodon: Option<MastodonStatus>)

  function DispatchTargets(status: StatusRecord): set<object>
  {
    match status
    case TwitterRecord(r) => TwitterTargets(r)
    case MastodonRecord(r) => MastodonTargets(r)
  }

  /** Whether the status and the account belong to the same platform, the only pairings that act. */
  predicate SamePlatform(status: StatusRecord, ctx: AuthenticationContext)
  {
    (status.TwitterRecord? && ctx.TwitterContext?) || (status.MastodonRecord? && ctx.MastodonContext?)
  }

  /**
   * `like(status:authenticationContext:)`: a Twitter status with a Twitter account, or a
   * Mastodon status with a Mastodon account, is liked as above; any other pairing does nothing.
   * The outcome is the error thrown, if any, and the request sent, if any.
   */
  method LikeStatus(status: StatusRecord, ctx: AuthenticationContext,
                    twitterMe: Option<TwitterUser>, twitterResponse: Result<bool, string>,
                    mastodonMe: Option<MastodonUser>, mastodonResponse: Result<FavoriteReply, string>, merged: MergedLike, refound: bool)
    returns (error: Option<LikeError>, request: Option<LikeRequest>)
    modifies DispatchTargets(status)
    ensures !SamePlatform(status, ctx) ==> error.None? && request.None? && unchanged(DispatchTargets(status))
    ensures status.TwitterRecord? && ctx.TwitterContext? ==>
      && var outcome := Outcome(status.twitter.Some? && twitterMe.Some?, twitterResponse);
      && error == (if outcome.Failure? then Some(outcome.error) else None)
      && TwitterLikeEffect(status.twitter, twitterMe, ctx.twitter, twitterResponse, refound, request)
    ensures status.MastodonRecord? && ctx.MastodonContext? ==>
      && var outcome := Outcome(status.mastodon.Some? && mastodonMe.Some?, mastodonResponse);
      && error == (if outcome.Failure? then Some(outcome.error) else None)
      && MastodonLikeEffect(status.mastodon, mastodonMe, ctx.mastodon, mastodonResponse, merged, refound, request)
  {
    match (status, ctx)
    case (TwitterRecord(record), TwitterContext(c)) =>
      var result;
      result, request := LikeTwitterStatus(record, twitterMe, c, twitterResponse, refound);
      error := if result.Failure? then Some(result.error) else None;
    case (MastodonRecord(record), MastodonContext(c)) =>
      var result;
      result, request := LikeMastodonStatus(record, mastodonMe, c, mastodonResponse, merged, refound);
      error := if result.Failure? then Some(result.error) else None;
    case _ =>
      error, request := None, None;
  }
}
