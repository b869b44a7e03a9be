/**
 * The profile screen's view model: the outputs it publishes for the profile user, and the
 * friendship between that user and the account's own user. A user record is a value here,
 * with its optional metrics and its optional follower and follow-request relations given by
 * the ids of their members; record identity is id equality.
 */
module Profile {
  import opened Wrappers
  import opened TwitterStore
  import opened TwitterUserExt

  /** `metrics`: each count is optional. */
  datatype UserMetrics = UserMetrics(followingCount: Option<int>, followersCount: Option<int>, listedCount: Option<int>)

  datatype ProfileUser = ProfileUser(
    id: string,
    state: UserState,
    metrics: Option<UserMetrics>,
    followingFrom: Option<set<string>>,
    followRequestSentFrom: Option<set<string>>)

  datatype Friendship = Following | Pending | NoFriendship

  /** `relation.flatMap { $0.contains(user) } ?? false`: an absent relation holds nobody. */
  predicate HoldsUser(relation: Option<set<string>>, id: string)
  {
    relation.Some? && id in relation.value
  }

  /** The friendship of two distinct users: a pending request wins over following. */
  function FriendshipOf(user: ProfileUser, current: ProfileUser): Friendship
  {
    if HoldsUser(user.followRequestSentFrom, current.id) then Pending
    else if HoldsUser(user.followingFrom, current.id) then Following
    else NoFriendship
  }

  /** Each friendship value, exactly when its condition holds. */
  lemma FriendshipCases(user: ProfileUser, current: ProfileUser)
    ensures FriendshipOf(user, current) == Pending <==> user.followRequestSentFrom.Some? && current.id in user.followRequestSentFrom.value
    ensures FriendshipOf(user, current) == Following <==>
      !HoldsUser(user.followRequestSentFrom, current.id) && user.followingFrom.Some? && current.id in user.followingFrom.value
    ensures FriendshipOf(user, current) == NoFriendship <==>
      !HoldsUser(user.followRequestSentFrom, current.id) && !HoldsUser(user.followingFrom, current.id)
  {
  }

  /** A count of the metrics, nil when there are no metrics. */
  function Count(metrics: Option<UserMetrics>, pick: UserMetrics -> Option<int>): (r: Option<int>)
    ensures metrics.None? ==> r.None?
    ensures metrics.Some? ==> r == pick(metrics.value)
  {
    if metrics.None? then None else pick(metrics.value)
  }

  function FollowingCount(m: UserMetrics): Option<int> { m.followingCount }
  function FollowersCount(m: UserMetrics): Option<int> { m.followersCount }
  function ListedCount(m: UserMetrics): Option<int> { m.listedCount }

  class ProfileViewModel {
    var userID: Option<string>
    var bannerImageURL: Option<Url>
    var avatarImageURL: Option<Url>
    var protected: Option<bool>
    var verified: Option<bool>
    var name: Option<string>
    var username: Option<string>
    var bioDescription: Option<string>
    var url: Option<string>
    var location: Option<string>
    var friendsCount: Option<int>
    var followersCount: Option<int>
    var listedCount: Option<int>
    var friendship: Option<Friendship>

    /** The user's identity and flags, or nil. */
    ghost predicate ShowsIdentity(twitterUser: Option<ProfileUser>)
      reads this`userID, this`protected, this`verified, this`name, this`username
    {
      if twitterUser.None? then userID.None? && protected.None? && verified.None? && name.None? && username.None?
      else
        var u := twitterUser.value;
        userID == Some(u.id) && protected == Some(u.state.protected) && verified == Some(u.state.verified)
        && name == Some(u.state.name) && username == Some(u.state.username)
    }

    /** The user's free-text attributes, or nil. */
    ghost predicate ShowsTexts(twitterUser: Option<ProfileUser>)
      reads this`bioDescription, this`url, this`location
    {
      if twitterUser.None? then bioDescription.None? && url.None? && location.None?
      else
        var u := twitterUser.value;
        bioDescription == u.state.bioDescription && url == u.state.url && location == u.state.location
    }

    /** The banner as parsed, and the avatar URL of the original size; nil without a user. */
    ghost predicate ShowsImages(twitterUser: Option<ProfileUser>, parse: string -> Option<Url>)
      reads this`bannerImageURL, this`avatarImageURL
    {
      if twitterUser.None? then bannerImageURL.None? && avatarImageURL.None?
      else
        var u := twitterUser.value;
        && bannerImageURL == (if u.state.profileBannerURL.Some? then parse(u.state.profileBannerURL.value) else None)
        && IsAvatarImageURL(avatarImageURL, u.state.profileImageURL, parse, Original)
    }

    /** The metrics' counts; nil without a user or without metrics. */
    ghost predicate ShowsCounts(twitterUser: Option<ProfileUser>)
      reads this`friendsCount, this`followersCount, this`listedCount
    {
      var metrics := if twitterUser.Some? then twitterUser.value.metrics else None;
      friendsCount == Count(metrics, FollowingCount) && followersCount == Count(metrics, FollowersCount)
      && listedCount == Count(metrics, ListedCount)
    }

    /** Every output follows `twitterUser`: nil for a nil user, the user's attributes otherwise. */
    ghost predicate Shows(twitterUser: Option<ProfileUser>, parse: string -> Option<Url>)
      reads this
    {
      ShowsIdentity(twitterUser) && ShowsTexts(twitterUser) && ShowsImages(twitterUser, parse) && ShowsCounts(twitterUser)
    }

    /** `init()`: no user, every output nil. */
    constructor ()
      ensures Shows(None, _ => None) && friendship.None?
    {
      userID, bannerImageURL, avatarImageURL, protected, verified := None, None, None, None, None;
      name, username, bioDescription, url, location := None, None, None, None, None;
      friendsCount, followersCount, listedCount, friendship := None, None, None, None;
    }

    /** `update(twitterUser:)`: every output from the user, or nil. The friendship is not touched. */
    method UpdateUser(twitterUser: Option<ProfileUser>, parse: string -> Option<Url>)
      modifies this
      ensures Shows(twitterUser, parse)
      ensures friendship == old(friendship)
    {
      UpdateIdentity(twitterUser);
      UpdateImages(twitterUser, parse);
      UpdateTexts(twitterUser);
      UpdateCounts(twitterUser);
    }

    method UpdateIdentity(twitterUser: Option<ProfileUser>)
      modifies this`userID, this`protected, this`verified, this`name, this`username
      ensures ShowsIdentity(twitterUser)
    {
      if twitterUser.None? {
        userID, protected, verified, name, username := None, None, None, None, None;
      } else {
        var u := twitterUser.value;
        userID, protected, verified := Some(u.id), Some(u.state.protected), Some(u.state.verified);
        name, username := Some(u.state.name), Some(u.state.username);
      }
    }

    method UpdateImages(twitterUser: Option<ProfileUser>, parse: string -> Option<Url>)
      modifies this`bannerImageURL, this`avatarImageURL
      ensures ShowsImages(twitterUser, parse)
    {
      if twitterUser.None? {
        bannerImageURL, avatarImageURL := None, None;
      } else {
        var u := twitterUser.value;
        bannerImageURL := if u.state.profileBannerURL.Some? then parse(u.state.profileBannerURL.value) else None;
        avatarImageURL := AvatarImageURL(u.state.profileImageURL, parse, Original);
      }
    }

    method UpdateTexts(twitterUser: Option<ProfileUser>)
      modifies this`bioDescription, this`url, this`location
      ensures ShowsTexts(twitterUser)
    {
      if twitterUser.None? {
        bioDescription, url, location := None, None, None;
      } else {
        var u := twitterUser.value;
        bioDescription, url, location := u.state.bioDescription, u.state.url, u.state.location;
      }
    }

    method UpdateCounts(twitterUser: Option<ProfileUser>)
      modifies this`friendsCount, this`followersCount, this`listedCount
      ensures ShowsCounts(twitterUser)
    {
      var metrics := if twitterUser.Some? then twitterUser.value.metrics else None;
      friendsCount := if metrics.Some? then metrics.value.followingCount else None;
      followersCount := if metrics.Some? then metrics.value.followersCount else None;
      listedCount := if metrics.Some? then metrics.value.listedCount else None;
    }

    /**
     * `update(twitterUser:currentTwitterUser:)`: nil without a profile user; unchanged without the
     * current user; nil on the account's own profile; otherwise the friendship of the two.
     */
    method UpdateFriendship(twitterUser: Option<ProfileUser>, currentTwitterUser: Option<ProfileUser>)
      modifies this`friendship
      ensures twitterUser.None? ==> friendship.None?
      ensures twitterUser.Some? && currentTwitterUser.None? ==> friendship == old(friendship)
      ensures twitterUser.Some? && currentTwitterUser.Some? && twitterUser.value.id == currentTwitterUser.value.id ==> friendship.None?
      ensures twitterUser.Some? && currentTwitterUser.Some? && twitterUser.value.id != currentTwitterUser.value.id ==>
        friendship == Some(FriendshipOf(twitterUser.value, currentTwitterUser.value))
    {
      if twitterUser.None? {
        friendship := None;
        return;
      }
      if currentTwitterUser.None? {
        return;
      }
      var user, current := twitterUser.value, currentTwitterUser.value;
      if user.id == current.id {
        friendship := None;
      } else {
        var isFollowing := user.followingFrom.Some? && current.id in user.followingFrom.value;
        var isPending := user.followRequestSentFrom.Some? && current.id in user.followRequestSentFrom.value;
        friendship := Some(if isPending then Pending else if isFollowing then Following else NoFriendship);
      }
    }

    /** The subscriber of `setup()`: both updates, in that order, for the latest pair of users. */
    method Refresh(twitterUser: Option<ProfileUser>, currentTwitterUser: Option<ProfileUser>, parse: string -> Option<Url>)
      modifies this
      ensures Shows(twitterUser, parse)
      ensures twitterUser.None? ==> friendship.None?
      ensures twitterUser.Some? && currentTwitterUser.None? ==> friendship == old(friendship)
      ensures twitterUser.Some? && currentTwitterUser.Some? && twitterUser.value.id == currentTwitterUser.value.id ==> friendship.None?
      ensures twitterUser.Some? && currentTwitterUser.Some? && twitterUser.value.id != currentTwitterUser.value.id ==>
        friendship == Some(FriendshipOf(twitterUser.value, currentTwitterUser.value))
    {
      UpdateUser(twitterUser, parse);
      UpdateFriendship(twitterUser, currentTwitterUser);
    }
  }
}
