/**
 * `AuthenticationContext`: the signed-in account of one platform, derived from a stored
 * authentication index. Deriving a Twitter OAuth authorization can fail (it decrypts stored
 * secrets with the app secret); that step is the parameter `authorize`.
 */
module AuthContext {
  import opened Wrappers

  datatype Platform = Twitter | Mastodon | NoPlatform

  datatype TwitterAuthentication = TwitterAuthentication(objectID: string, userID: string)
  datatype MastodonAuthentication = MastodonAuthentication(objectID: string, domain: string, userID: string, userAccessToken: string)

  datatype AuthenticationIndex = AuthenticationIndex(
    platform: Platform,
    twitterAuthentication: Option<TwitterAuthentication>,
    mastodonAuthentication: Option<MastodonAuthentication>)

  /** `Twitter.API.OAuth.Authorization`, kept abstract. */
  datatype TwitterAuthorization = TwitterAuthorization(token: string)
  datatype MastodonAuthorization = MastodonAuthorization(accessToken: string)

  datatype TwitterAuthenticationContext = TwitterAuthenticationContext(
    authenticationRecord: string, userID: string, authorization: TwitterAuthorization)
  datatype MastodonAuthenticationContext = MastodonAuthenticationContext(
    authenticationRecord: string, domain: string, userID: string, authorization: MastodonAuthorization)

  datatype AuthenticationContext =
    | TwitterContext(twitter: TwitterAuthenticationContext)
    | MastodonContext(mastodon: MastodonAuthenticationContext)

  datatype UserIdentifier =
    | TwitterUserIdentifier(id: string)
    | MastodonUserIdentifier(domain: string, id: string)

  /** `TwitterAuthenticationContext.init?`: nil when no authorization can be derived. */
  function MakeTwitterContext(a: TwitterAuthentication, authorize: TwitterAuthentication -> Option<TwitterAuthorization>)
    : (r: Option<TwitterAuthenticationContext>)
    ensures r.Some? <==> authorize(a).Some?
    ensures r.Some? ==> r.value.userID == a.userID && r.value.authenticationRecord == a.objectID
                        && r.value.authorization == authorize(a).value
  {
    match authorize(a)
    case None => None
    case Some(authorization) => Some(TwitterAuthenticationContext(a.objectID, a.userID, authorization))
  }

  /** `MastodonAuthenticationContext.init`: domain and user id copied unchanged, the token wrapped. */
  function MakeMastodonContext(a: MastodonAuthentication): (r: MastodonAuthenticationContext)
    ensures r.domain == a.domain && r.userID == a.userID && r.authenticationRecord == a.objectID
    ensures r.authorization.accessToken == a.userAccessToken
  {
    MastodonAuthenticationContext(a.objectID, a.domain, a.userID, MastodonAuthorization(a.userAccessToken))
  }

  /** `AuthenticationContext.init?(authenticationIndex:appSecret:)`. */
  function Make(index: AuthenticationIndex, authorize: TwitterAuthentication -> Option<TwitterAuthorization>)
    : (r: Option<AuthenticationContext>)
    ensures index.platform.NoPlatform? ==> r.None?
    ensures index.platform.Twitter? ==> (r.Some? <==> index.twitterAuthentication.Some?
                                                      && authorize(index.twitterAuthentication.value).Some?)
    ensures index.platform.Mastodon? ==> (r.Some? <==> index.mastodonAuthentication.Some?)
    ensures r.Some? && index.platform.Twitter? ==>
      r.value.TwitterContext? && r.value.twitter.userID == index.twitterAuthentication.value.userID
    ensures r.Some? && index.platform.Mastodon? ==> r.value == MastodonContext(MakeMastodonContext(index.mastodonAuthentication.value))
  {
    match index.platform
    case Twitter =>
      if index.twitterAuthentication.None? then None
      else (match MakeTwitterContext(index.twitterAuthentication.value, authorize)
            case None => None
            case Some(c) => Some(TwitterContext(c)))
    case Mastodon =>
      if index.mastodonAuthentication.None? then None
      else Some(MastodonContext(MakeMastodonContext(index.mastodonAuthentication.value)))
    case NoPlatform => None
  }

  /** `twitterAuthenticationContext`. */
  function TwitterAuthenticationContextOf(c: AuthenticationContext): (r: Option<TwitterAuthenticationContext>)
    ensures r.Some? <==> c.TwitterContext?
  {
    if c.TwitterContext? then Some(c.twitter) else None
  }

  /** `mastodonAuthenticationContext`. */
  function MastodonAuthenticationContextOf(c: AuthenticationContext): (r: Option<MastodonAuthenticationContext>)
    ensures r.Some? <==> c.MastodonContext?
  {
    if c.MastodonContext? then Some(c.mastodon) else None
  }

  /** `userIdentifier`: the user id for Twitter, the domain and user id for Mastodon. */
  function UserIdentifierOf(c: AuthenticationContext): (r: UserIdentifier)
    ensures c.TwitterContext? ==> r == TwitterUserIdentifier(c.twitter.userID)
    ensures c.MastodonContext? ==> r == MastodonUserIdentifier(c.mastodon.domain, c.mastodon.userID)
  {
    match c
    case TwitterContext(t) => TwitterUserIdentifier(t.userID)
    case MastodonContext(m) => MastodonUserIdentifier(m.domain, m.userID)
  }

  /** Exactly one of the two projections is present, and it gives back the wrapped context. */
  lemma ProjectionsExclusive(c: AuthenticationContext)
    ensures TwitterAuthenticationContextOf(c).Some? != MastodonAuthenticationContextOf(c).Some?
    ensures c.TwitterContext? ==> TwitterContext(TwitterAuthenticationContextOf(c).value) == c
    ensures c.MastodonContext? ==> MastodonContext(MastodonAuthenticationContextOf(c).value) == c
  {
  }

  /**
   * A context built from an index belongs to the index's platform: its matching projection is
   * present and the other one is absent, and its user identifier names the stored user.
   */
  lemma MadeContextMatchesPlatform(index: AuthenticationIndex, authorize: TwitterAuthentication -> Option<TwitterAuthorization>)
    requires Make(index, authorize).Some?
    ensures index.platform.Twitter? ==>
      && TwitterAuthenticationContextOf(Make(index, authorize).value).Some?
      && MastodonAuthenticationContextOf(Make(index, authorize).value).None?
      && UserIdentifierOf(Make(index, authorize).value) == TwitterUserIdentifier(index.twitterAuthentication.value.userID)
    ensures index.platform.Mastodon? ==>
      && MastodonAuthenticationContextOf(Make(index, authorize).value).Some?
      && TwitterAuthenticationContextOf(Make(index, authorize).value).None?
      && UserIdentifierOf(Make(index, authorize).value)
         == MastodonUserIdentifier(index.mastodonAuthentication.value.domain, index.mastodonAuthentication.value.userID)
  {
  }
}
