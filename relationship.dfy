/**
 * The relationship a user has with the account: the `Relationship` cases in priority order,
 * their one-bit options in a 64-bit option set, the set computed for a pair of users, the
 * case of highest priority left after excluding some, and the view model's published flags.
 * A user record is its identity and the identities in its relationship sets; a membership
 * test on a set of records is a test on identities.
 */
module Relationship {
  import Wrappers

  /** The cases in order; a later case has the higher priority. `None` is hidden from the UI. */
  datatype Relationship = IsMyself | FollowingBy | None | Follow | Request | Pending | Following | Muting | BlockingBy | Blocking | Suspended

  const AllCases: seq<Relationship> := [IsMyself, FollowingBy, None, Follow, Request, Pending, Following, Muting, BlockingBy, Blocking, Suspended]

  function RawValue(r: Relationship): nat
  {
    match r
    case IsMyself => 0
    case FollowingBy => 1
    case None => 2
    case Follow => 3
    case Request => 4
    case Pending => 5
    case Following => 6
    case Muting => 7
    case BlockingBy => 8
    case Blocking => 9
    case Suspended => 10
  }

  /** `allCases` lists each case at its raw value. */
  lemma AllCasesAtRawValue(r: Relationship)
    ensures RawValue(r) < |AllCases| && AllCases[RawValue(r)] == r
  {
  }

  /**
   * A `RelationshipOptionSet`, as the set of the bit positions its raw value has set: `contains`
   * is inclusion, `insert` union, `subtracting` difference.
   */
  type OptionSet = set<nat>

  /** `option`: the single bit `1 << rawValue`. */
  function Option(r: Relationship): OptionSet
  {
    {RawValue(r)}
  }

  predicate Contains(s: OptionSet, o: OptionSet) { o <= s }
  function Insert(s: OptionSet, o: OptionSet): OptionSet { s + o }
  function Subtracting(s: OptionSet, o: OptionSet): OptionSet { s - o }

  /** The options of distinct cases are distinct single bits. */
  lemma OptionsDisjoint(a: Relationship, b: Relationship)
    ensures a != b <==> Option(a) !! Option(b)
  {
    AllCasesAtRawValue(a);
    AllCasesAtRawValue(b);
  }

  /** `relationship(except:)`: the case of highest priority that the set holds once `except` is subtracted, if any. */
  method RelationshipExcept(s: OptionSet, except: OptionSet) returns (r: Wrappers.Option<Relationship>)
    ensures r.Some? ==> Contains(Subtracting(s, except), Option(r.value))
    ensures r.Some? ==> forall c :: RawValue(c) > RawValue(r.value) ==> !Contains(Subtracting(s, except), Option(c))
    ensures r.None? <==> forall c :: !Contains(Subtracting(s, except), Option(c))
  {
    var set_ := Subtracting(s, except);
    var i := |AllCases|;
    while i > 0
      invariant 0 <= i <= |AllCases|
      invariant forall c :: RawValue(c) >= i ==> !Contains(set_, Option(c))
    {
      i := i - 1;
      var action := AllCases[i];
      AllCasesAtRawValue(action);
      forall c | RawValue(c) == i ensures c == action {
        AllCasesAtRawValue(c);
      }
      if Contains(set_, Option(action)) {
        return Wrappers.Some(action);
      }
    }
    return Wrappers.None;
  }

  // ---------------------------------------------------------------- the option set of a pair of users

  /** A Mastodon user is identified by id and domain. */
  datatype MastodonKey = MastodonKey(id: string, domain: string)

  /** The records' relationship sets, by the identities of their members. */
  datatype UserFacts<K> = UserFacts(
    key: K,
    isProtected: bool,
    followingBy: set<K>,
    followRequestSentFrom: set<K>,
    mutingBy: set<K>,
    blockingBy: set<K>)

  /** `UserObject`; `isProtected` is the Twitter `protected` or the Mastodon `locked` flag. */
  datatype UserObject = Twitter(twitter: UserFacts<string>) | Mastodon(mastodon: UserFacts<MastodonKey>)

  /** `user` is the account itself: the same Twitter id, or the same Mastodon id and domain. */
  predicate IsSelf(user: UserObject, me: UserObject)
  {
    (user.Twitter? && me.Twitter? && user.twitter.key == me.twitter.key)
    || (user.Mastodon? && me.Mastodon? && user.mastodon.key.id == me.mastodon.key.id && user.mastodon.key.domain == me.mastodon.key.domain)
  }

  predicate SamePlatform(user: UserObject, me: UserObject)
  {
    (user.Twitter? && me.Twitter?) || (user.Mastodon? && me.Mastodon?)
  }

  /** The facts about two distinct users of one platform. */
  datatype Facts = Facts(isProtected: bool, isFollowingBy: bool, isFollowing: bool, isPending: bool, isMuting: bool, isBlockingBy: bool, isBlocking: bool)

  function FactsOf<K>(user: UserFacts<K>, me: UserFacts<K>): Facts
  {
    Facts(user.isProtected, user.key in me.followingBy, me.key in user.followingBy, me.key in user.followRequestSentFrom,
          me.key in user.mutingBy, user.key in me.blockingBy, me.key in user.blockingBy)
  }

  function PairFacts(user: UserObject, me: UserObject): Facts
    requires SamePlatform(user, me)
  {
    if user.Twitter? then FactsOf(user.twitter, me.twitter) else FactsOf(user.mastodon, me.mastodon)
  }

  /** Whether the option set of `user` seen by `me` holds `c`. */
  predicate Expected(user: UserObject, me: UserObject, c: Relationship)
  {
    if !SamePlatform(user, me) then c == None
    else if IsSelf(user, me) then c == IsMyself
    else Holds(PairFacts(user, me), c)
  }

  /** Whether the facts about two distinct users of one platform put `c` in their option set. */
  predicate Holds(f: Facts, c: Relationship)
  {
    match c
    case Follow => true
    case Request => f.isProtected
    case FollowingBy => f.isFollowingBy
    case Following => f.isFollowing
    case Pending => f.isPending
    case Muting => f.isMuting
    case BlockingBy => f.isBlockingBy
    case Blocking => f.isBlocking
    case IsMyself => false
    case None => false
    case Suspended => false
  }

  /** The bits of the eleven cases. */
  const CaseBits: set<nat> := {0, 1, 2, 3, 4, 5, 6, 7, 8, 9, 10}

  /** `optionSet(user:me:)`: the set holds exactly the expected cases, and no other bit. */
  method OptionSetOf(user: UserObject, me: UserObject) returns (optionSet: OptionSet)
    ensures forall c :: Contains(optionSet, Option(c)) <==> Expected(user, me, c)
    ensures optionSet <= CaseBits
  {
    if !SamePlatform(user, me) {
      optionSet := Option(None);
      forall c ensures Contains(optionSet, Option(c)) <==> c == None { OptionsDisjoint(c, None); }
      return;
    }
    if IsSelf(user, me) {
      optionSet := Option(IsMyself);
      forall c ensures Contains(optionSet, Option(c)) <==> c == IsMyself { OptionsDisjoint(c, IsMyself); }
      return;
    }
    var f := PairFacts(user, me);
    optionSet := Option(Follow);
    optionSet := InsertWhen(optionSet, f.isProtected, Request);
    optionSet := InsertWhen(optionSet, f.isFollowingBy, FollowingBy);
    optionSet := InsertWhen(optionSet, f.isFollowing, Following);
    optionSet := InsertWhen(optionSet, f.isPending, Pending);
    optionSet := InsertWhen(optionSet, f.isMuting, Muting);
    optionSet := InsertWhen(optionSet, f.isBlockingBy, BlockingBy);
    optionSet := InsertWhen(optionSet, f.isBlocking, Blocking);
    assert optionSet == FactBits(f);
    FactBitsMembers(user, me);
  }

  /** One step of the builder: `if condition { optionSet.insert(c.option) }`. */
  method InsertWhen(optionSet: OptionSet, condition: bool, c: Relationship) returns (r: OptionSet)
    ensures r == optionSet + (if condition then Option(c) else {})
  {
    r := optionSet;
    if condition {
      r := Insert(r, Option(c));
    }
  }

  /** The bits the builder sets for two distinct users of one platform. */
  function FactBits(f: Facts): OptionSet
  {
    Option(Follow) + (if f.isProtected then Option(Request) else {}) + (if f.isFollowingBy then Option(FollowingBy) else {})
    + (if f.isFollowing then Option(Following) else {}) + (if f.isPending then Option(Pending) else {})
    + (if f.isMuting then Option(Muting) else {}) + (if f.isBlockingBy then Option(BlockingBy) else {})
    + (if f.isBlocking then Option(Blocking) else {})
  }

  lemma FactBitsMembers(user: UserObject, me: UserObject)
    requires SamePlatform(user, me) && !IsSelf(user, me)
    ensures forall c :: Contains(FactBits(PairFacts(user, me)), Option(c)) <==> Expected(user, me, c)
    ensures FactBits(PairFacts(user, me)) <= CaseBits
  {
    var f := PairFacts(user, me);
    FactBitsWithinCases(f);
    forall c ensures Contains(FactBits(f), Option(c)) <==> Holds(f, c) {
      FactBitsMember(f, c);
      assert Contains(FactBits(f), Option(c)) <==> RawValue(c) in FactBits(f);
    }
  }

  lemma FactBitsWithinCases(f: Facts)
    ensures FactBits(f) <= CaseBits
  {
    forall c ensures Option(c) <= CaseBits {
      AllCasesAtRawValue(c);
    }
  }

  lemma FactBitsMember(f: Facts, c: Relationship)
    ensures RawValue(c) in FactBits(f) <==> Holds(f, c)
  {
    match c
    case Follow =>
    case Request =>
    case FollowingBy =>
    case Following =>
    case Pending =>
    case Muting =>
    case BlockingBy =>
    case Blocking =>
    case IsMyself =>
    case None =>
    case Suspended =>
  }

  // ---------------------------------------------------------------- the view model

  class RelationshipViewModel {
    var isMyself: bool
    var optionSet: Wrappers.Option<OptionSet>
    var isFollowing: bool
    var isFollowingBy: bool
    var isMuting: bool
    var isBlocking: bool
    var isBlockingBy: bool

    constructor ()
      ensures optionSet.None? && !isMyself && !isFollowing && !isFollowingBy && !isMuting && !isBlocking && !isBlockingBy
    {
      isMyself, optionSet := false, Wrappers.None;
      isFollowing, isFollowingBy, isMuting, isBlocking, isBlockingBy := false, false, false, false, false;
    }

    /** `reset()`: every flag false and no option set. */
    method Reset()
      modifies this
      ensures optionSet.None? && !isMyself && !isFollowing && !isFollowingBy && !isMuting && !isBlocking && !isBlockingBy
    {
      isMyself := false;
      isFollowingBy := false;
      isFollowing := false;
      isMuting := false;
      isBlockingBy := false;
      isBlocking := false;
      optionSet := Wrappers.None;
    }

    /** `update(user:me:)`: without both users a reset; otherwise the option set of the pair, and each flag its membership. */
    method Update(user: Wrappers.Option<UserObject>, me: Wrappers.Option<UserObject>)
      modifies this
      ensures user.None? || me.None? ==>
        optionSet.None? && !isMyself && !isFollowing && !isFollowingBy && !isMuting && !isBlocking && !isBlockingBy
      ensures user.Some? && me.Some? ==>
        && optionSet.Some?
        && (forall c :: Contains(optionSet.value, Option(c)) <==> Expected(user.value, me.value, c))
        && isMyself == Expected(user.value, me.value, IsMyself)
        && isFollowingBy == Expected(user.value, me.value, FollowingBy)
        && isFollowing == Expected(user.value, me.value, Following)
        && isMuting == Expected(user.value, me.value, Muting)
        && isBlockingBy == Expected(user.value, me.value, BlockingBy)
        && isBlocking == Expected(user.value, me.value, Blocking)
    {
      if user.None? || me.None? {
        Reset();
        return;
      }
      var s := OptionSetOf(user.value, me.value);
      isMyself := Contains(s, Option(IsMyself));
      isFollowingBy := Contains(s, Option(FollowingBy));
      isFollowing := Contains(s, Option(Following));
      isMuting := Contains(s, Option(Muting));
      isBlockingBy := Contains(s, Option(BlockingBy));
      isBlocking := Contains(s, Option(Blocking));
      optionSet := Wrappers.Some(s);
    }
  }
}
