/**
 * `Twitter.Entity.Trend.Place`: a trend location whose identity, equality and hash are all its
 * `woeid` (Yahoo "where on earth" id).
 */
module TrendPlace {
  import opened Wrappers

  datatype PlaceType = PlaceType(code: int, name: string)

  datatype Place = Place(
    name: string,
    woeid: int,
    parentID: int,
    placeType: Option<PlaceType>,
    country: Option<string>,
    countryCode: Option<string>,
    fullName: Option<string>,
    url: Option<string>)

  /** `Identifiable.id`. */
  function Id(p: Place): int { p.woeid }

  /** The custom `==`: places compare by `woeid` only. */
  predicate Equal(a: Place, b: Place)
  {
    a.woeid == b.woeid
  }

  /**
   * `hash(into:)`: the hasher is fed `woeid` and nothing else; `combine` stands for the
   * (unseen) hasher state after combining one integer.
   */
  function Hash(p: Place, combine: int -> int): int
  {
    combine(p.woeid)
  }

  /** Equality agrees with identity: two places are equal exactly when their ids are. */
  lemma EqualIffSameId(a: Place, b: Place)
    ensures Equal(a, b) <==> Id(a) == Id(b)
  {
  }

  /** Equal places hash alike, whatever the hasher. */
  lemma HashConsistent(a: Place, b: Place, combine: int -> int)
    requires Equal(a, b)
    ensures Hash(a, combine) == Hash(b, combine)
  {
  }

  /** `==` is an equivalence relation. */
  lemma EqualIsEquivalence(a: Place, b: Place, c: Place)
    ensures Equal(a, a)
    ensures Equal(a, b) ==> Equal(b, a)
    ensures Equal(a, b) && Equal(b, c) ==> Equal(a, c)
  {
  }

  /** Changing every other field keeps a place equal to the original. */
  lemma EqualIgnoresOtherFields(p: Place, name: string, parentID: int, placeType: Option<PlaceType>,
                                country: Option<string>, countryCode: Option<string>, fullName: Option<string>, url: Option<string>)
    ensures Equal(p, Place(name, p.woeid, parentID, placeType, country, countryCode, fullName, url))
  {
  }
}
