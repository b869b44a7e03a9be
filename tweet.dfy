/**
 * The older `Tweet` record of the persistent store: a class whose fields are assigned once by
 * `insert` and then updated in place by the relationship and bookkeeping methods.
 */
module TweetEntity {
  import opened Wrappers
  import opened TwitterStore
  import opened SeqUtil

  /**
   * `Tweet.Property`: the scalar fields of a tweet, and the date of the response they came from.
   * `replyToTweetID` is what the app's property initialisers pass; `insert` does not read it.
   */
  datatype TweetProperty = TweetProperty(
    id: string,
    text: string,
    createdAt: int,
    conversationID: Option<string>,
    replyToTweetID: Option<string>,
    inReplyToUserID: Option<string>,
    lang: Option<string>,
    possiblySensitive: bool,
    source: Option<string>,
    networkDate: int)

  /** `TweetMetrics`: counts that may be unknown. */
  datatype TweetMetrics = TweetMetrics(likeCount: Option<int>, quoteCount: Option<int>, replyCount: Option<int>, retweetCount: Option<int>)

  /** Media and timeline index records are only referred to here, by an identity. */
  datatype MediaRef = MediaRef(key: string)
  datatype TimelineIndexRef = TimelineIndexRef(key: string)

  /** The metrics `setupMetricsIfNeeds` creates: every count unknown. */
  const EmptyMetrics := TweetMetrics(None, None, None, None)

  class Tweet {
    var id: string
    var text: string
    var createdAt: int
    var conversationID: Option<string>
    var inReplyToUserID: Option<string>
    var lang: Option<string>
    var possiblySensitive: bool
    var source: Option<string>
    var updatedAt: int

    var author: TwitterUser
    var media: Option<MediaRef>
    var metrics: Option<TweetMetrics>
    var retweet: Tweet?
    var quote: Tweet?
    var timelineIndexes: set<TimelineIndexRef>
    /** `likeBy` / `retweetBy`; an absent set is the empty set. */
    var likeBy: set<TwitterUser>
    var retweetBy: set<TwitterUser>

    /**
     * `insert(into:property:...)`: the scalar fields are the property's, `updatedAt` is its
     * network date, and each optional inverse relation holds just the given object, or nothing.
     */
    constructor Insert(property: TweetProperty, author: TwitterUser, media: Option<MediaRef>, metrics: TweetMetrics,
                       retweet: Tweet?, quote: Tweet?, timelineIndex: Option<TimelineIndexRef>,
                       likeBy: TwitterUser?, retweetBy: TwitterUser?)
      ensures updatedAt == property.networkDate
      ensures id == property.id && text == property.text && createdAt == property.createdAt
      ensures conversationID == property.conversationID && inReplyToUserID == property.inReplyToUserID
      ensures lang == property.lang && possiblySensitive == property.possiblySensitive && source == property.source
      ensures this.author == author && this.media == media && this.metrics == Some(metrics)
      ensures this.retweet == retweet && this.quote == quote
      ensures timelineIndexes == if timelineIndex.Some? then {timelineIndex.value} else {}
      ensures this.likeBy == if likeBy != null then {likeBy} else {}
      ensures this.retweetBy == if retweetBy != null then {retweetBy} else {}
    {
      updatedAt := property.networkDate;
      id := property.id;
      text := property.text;
      createdAt := property.createdAt;
      conversationID := property.conversationID;
      inReplyToUserID := property.inReplyToUserID;
      lang := property.lang;
      possiblySensitive := property.possiblySensitive;
      source := property.source;
      this.author := author;
      this.media := media;
      this.metrics := Some(metrics);
      timelineIndexes := if timelineIndex.Some? then {timelineIndex.value} else {};
      this.retweet := retweet;
      this.quote := quote;
      this.likeBy := if likeBy != null then {likeBy} else {};
      this.retweetBy := if retweetBy != null then {retweetBy} else {};
    }

    /** `setupMetricsIfNeeds()`: creates empty metrics when there are none, and never replaces existing ones. */
    method SetupMetricsIfNeeds()
      modifies this`metrics
      ensures old(metrics).Some? ==> metrics == old(metrics)
      ensures old(metrics).None? ==> metrics == Some(EmptyMetrics)
    {
      if metrics.None? {
        metrics := Some(EmptyMetrics);
      }
    }

    /** `update(liked:twitterUser:)`: only `likeBy` changes, and `twitterUser` is in it exactly when `liked`. */
    method UpdateLiked(liked: bool, twitterUser: TwitterUser)
      modifies this`likeBy
      ensures likeBy == Membership(old(likeBy), liked, twitterUser)
    {
      if liked {
        if twitterUser !in likeBy {
          likeBy := likeBy + {twitterUser};
        }
      } else {
        if twitterUser in likeBy {
          likeBy := likeBy - {twitterUser};
        }
      }
    }

    /** `update(retweeted:twitterUser:)`: only `retweetBy` changes, and `twitterUser` is in it exactly when `retweeted`. */
    method UpdateRetweeted(retweeted: bool, twitterUser: TwitterUser)
      modifies this`retweetBy
      ensures retweetBy == Membership(old(retweetBy), retweeted, twitterUser)
    {
      if retweeted {
        if twitterUser !in retweetBy {
          retweetBy := retweetBy + {twitterUser};
        }
      } else {
        if twitterUser in retweetBy {
          retweetBy := retweetBy - {twitterUser};
        }
      }
    }

    /** `didUpdate(at:)`: only `updatedAt` changes, to exactly the given date. */
    method DidUpdate(networkDate: int)
      modifies this`updatedAt
      ensures updatedAt == networkDate
    {
      updatedAt := networkDate;
    }
  }
}
