/**
 * `TwitterUser.Property` initialisers from the two API generations, and the avatar URL
 * rewriting of a user's profile image.
 */
module TwitterUserExt {
  import opened Wrappers
  import opened TwitterEntity
  import opened TwitterStore

  /** V1 user: no pinned tweet; `protected` and `verified` default to false. */
  function UserPropertyV1(e: V1User, networkDate: int): (p: UserProperty)
    ensures p.id == e.idStr && p.name == e.name && p.username == e.screenName && p.networkDate == networkDate
    ensures p.pinnedTweetID.None?
    ensures p.profileBannerURL == e.profileBannerURL && p.profileImageURL == e.profileImageURLHTTPS
    ensures p.protected <==> e.protected == Some(true)
    ensures p.verified <==> e.verified == Some(true)
  {
    UserProperty(e.idStr, e.name, e.screenName, e.userDescription, e.createdAt, e.location, None,
                 e.profileBannerURL, e.profileImageURLHTTPS, e.protected.GetOr(false), e.url,
                 e.verified.GetOr(false), networkDate)
  }

  /** V2 user: no banner URL; `protected` and `verified` default to false. */
  function UserPropertyV2(e: V2User, networkDate: int): (p: UserProperty)
    ensures p.id == e.id && p.name == e.name && p.username == e.username && p.networkDate == networkDate
    ensures p.pinnedTweetID == e.pinnedTweetID && p.profileBannerURL.None?
    ensures p.profileImageURL == e.profileImageURL
    ensures p.protected <==> e.protected == Some(true)
    ensures p.verified <==> e.verified == Some(true)
  {
    UserProperty(e.id, e.name, e.username, e.description, e.createdAt, e.location, e.pinnedTweetID,
                 None, e.profileImageURL, e.protected.GetOr(false), e.url, e.verified.GetOr(false),
                 networkDate)
  }

  // ---------------------------------------------------------------- avatar URL

  /**
   * A parsed URL: everything before the path, the path components, and the path extension of
   * the last component (without its dot). Parsing itself is a parameter of the operations below.
   */
  datatype Url = Url(root: string, components: seq<string>, pathExtension: string)

  function LastPathComponent(u: Url): string
  {
    if u.components == [] then "" else u.components[|u.components| - 1]
  }

  function DeletingLastPathComponent(u: Url): (r: Url)
    ensures r.root == u.root && r.pathExtension == u.pathExtension
    ensures u.components != [] ==> r.components + [LastPathComponent(u)] == u.components
  {
    if u.components == [] then u else u.(components := u.components[..|u.components| - 1])
  }

  datatype ProfileImageSize = Original | ReasonablySmall | Bigger | Normal | Mini

  function RawValue(s: ProfileImageSize): string
  {
    match s
    case Original => "original"
    case ReasonablySmall => "reasonably_small"
    case Bigger => "bigger"
    case Normal => "normal"
    case Mini => "mini"
  }

  /** `suffixedSizes`, in the order in which their suffixes are stripped. */
  const SuffixedSizes: seq<ProfileImageSize> := [ReasonablySmall, Bigger, Normal, Mini]

  /** The suffix a size adds to an image identifier. */
  function Suffix(s: ProfileImageSize): string
  {
    "_" + RawValue(s)
  }

  predicate HasSuffix(s: string, suffix: string)
  {
    |suffix| <= |s| && s[|s| - |suffix|..] == suffix
  }

  /** `s` without `suffix` when it ends with it, and `s` itself otherwise. */
  function WithoutSuffix(s: string, suffix: string): (r: string)
    ensures HasSuffix(s, suffix) ==> r + suffix == s
    ensures !HasSuffix(s, suffix) ==> r == s
  {
    if HasSuffix(s, suffix) then s[..|s| - |suffix|] else s
  }

  /** `String.deleteSuffix(_:)`, on the value the mutating method rewrites. */
  method DeleteSuffix(s: string, suffix: string) returns (r: string)
    ensures HasSuffix(s, suffix) ==> r + suffix == s && |r| == |s| - |suffix|
    ensures !HasSuffix(s, suffix) ==> r == s
    ensures r == WithoutSuffix(s, suffix)
  {
    r := s;
    if !HasSuffix(r, suffix) {
      return;
    }
    r := r[..|r| - |suffix|];
  }

  /** The identifier after stripping the suffixes of `sizes` once each, in order. */
  function StripSizeSuffixes(identifier: string, sizes: seq<ProfileImageSize>): string
  {
    if sizes == [] then identifier
    else WithoutSuffix(StripSizeSuffixes(identifier, sizes[..|sizes| - 1]), Suffix(sizes[|sizes| - 1]))
  }

  /** The size suffix `avatarImageURL(size:)` appends: none for the original size. */
  function SizedIdentifier(identifier: string, size: ProfileImageSize): (r: string)
    ensures size == Original ==> r == identifier
    ensures size != Original ==> r == identifier + Suffix(size)
  {
    if size == Original then identifier else identifier + "_" + RawValue(size)
  }

  /**
   * `r` is the avatar URL of `size` for the profile image URL: nil without a parsable profile
   * image URL; otherwise the same root, parent path and extension, with the last component's
   * size suffixes stripped and the suffix of `size` appended.
   */
  predicate IsAvatarImageURL(r: Option<Url>, profileImageURL: Option<string>, parse: string -> Option<Url>, size: ProfileImageSize)
  {
    && (r.None? <==> profileImageURL.None? || parse(profileImageURL.value).None?)
    && (r.Some? ==>
          && var u := parse(profileImageURL.value).value;
          && r.value.root == u.root && r.value.pathExtension == u.pathExtension
          && r.value.components == DeletingLastPathComponent(u).components
                                 + [SizedIdentifier(StripSizeSuffixes(LastPathComponent(u), SuffixedSizes), size)])
  }

  /** `avatarImageURL(size:)`. */
  method AvatarImageURL(profileImageURL: Option<string>, parse: string -> Option<Url>, size: ProfileImageSize)
    returns (r: Option<Url>)
    ensures IsAvatarImageURL(r, profileImageURL, parse, size)
  {
    if profileImageURL.None? {
      return None;
    }
    var parsed := parse(profileImageURL.value);
    if parsed.None? {
      return None;
    }
    var imageURL := parsed.value;
    var pathExtension := imageURL.pathExtension;
    imageURL := imageURL.(pathExtension := "");

    var imageIdentifier := LastPathComponent(imageURL);
    imageURL := DeletingLastPathComponent(imageURL);
    for i := 0 to |SuffixedSizes|
      invariant imageIdentifier == StripSizeSuffixes(LastPathComponent(parsed.value), SuffixedSizes[..i])
    {
      assert SuffixedSizes[..i + 1][..i] == SuffixedSizes[..i];
      imageIdentifier := DeleteSuffix(imageIdentifier, "_" + RawValue(SuffixedSizes[i]));
    }
    assert SuffixedSizes[..|SuffixedSizes|] == SuffixedSizes;

    if size == Original {
      imageURL := imageURL.(components := imageURL.components + [imageIdentifier]);
    } else {
      imageURL := imageURL.(components := imageURL.components + [imageIdentifier + "_" + RawValue(size)]);
    }

    imageURL := imageURL.(pathExtension := pathExtension);
    return Some(imageURL);
  }

  /** An identifier that ends with none of the size suffixes. */
  predicate Unsuffixed(identifier: string)
  {
    forall i :: 0 <= i < |SuffixedSizes| ==> !HasSuffix(identifier, Suffix(SuffixedSizes[i]))
  }

  /** The position of a suffixed size in `SuffixedSizes`. */
  function SuffixedIndex(size: ProfileImageSize): (k: nat)
    requires size != Original
    ensures k < |SuffixedSizes| && SuffixedSizes[k] == size
  {
    match size
    case ReasonablySmall => 0
    case Bigger => 1
    case Normal => 2
    case Mini => 3
  }

  /** The suffixes are listed from longest to shortest, and none ends with a later one. */
  lemma SuffixesDistinct(i: nat, j: nat)
    requires i < j < |SuffixedSizes|
    ensures |Suffix(SuffixedSizes[j])| <= |Suffix(SuffixedSizes[i])|
    ensures !HasSuffix(Suffix(SuffixedSizes[i]), Suffix(SuffixedSizes[j]))
  {
    var a, b := Suffix(SuffixedSizes[i]), Suffix(SuffixedSizes[j]);
    assert a[|a| - 1] != b[|b| - 1] || a[|a| - 2] != b[|b| - 2];
  }

  /** Two suffixes of one string: the shorter is a suffix of the longer. */
  lemma SuffixOfSuffix(s: string, a: string, b: string)
    requires HasSuffix(s, a) && HasSuffix(s, b) && |a| <= |b|
    ensures HasSuffix(b, a)
  {
    assert b[|b| - |a|..] == s[|s| - |a|..];
  }

  lemma {:induction false} StripUnsuffixed(x: string, n: nat)
    requires Unsuffixed(x) && n <= |SuffixedSizes|
    ensures StripSizeSuffixes(x, SuffixedSizes[..n]) == x
  {
    if n > 0 {
      assert SuffixedSizes[..n][..n - 1] == SuffixedSizes[..n - 1];
      StripUnsuffixed(x, n - 1);
    }
  }

  /**
   * Resizing: the suffix of a suffixed size, appended to an identifier without one, is stripped
   * again, so the avatar URL of an already sized image is the URL of the requested size.
   */
  lemma {:induction false} StripSizedIdentifier(x: string, size: ProfileImageSize)
    requires Unsuffixed(x) && size != Original
    ensures StripSizeSuffixes(x + Suffix(size), SuffixedSizes) == x
  {
    var s := x + Suffix(size);
    var k := SuffixedIndex(size);
    assert HasSuffix(s, Suffix(size)) by { assert s[|s| - |Suffix(size)|..] == Suffix(size); }
    forall j | 0 <= j < k
      ensures !HasSuffix(s, Suffix(SuffixedSizes[j]))
    {
      SuffixesDistinct(j, k);
      if HasSuffix(s, Suffix(SuffixedSizes[j])) {
        SuffixOfSuffix(s, Suffix(size), Suffix(SuffixedSizes[j]));
      }
    }
    forall n | 0 <= n <= k
      ensures StripSizeSuffixes(s, SuffixedSizes[..n]) == s
    {
      StripKept(s, n);
    }
    assert SuffixedSizes[..k + 1][..k] == SuffixedSizes[..k];
    assert StripSizeSuffixes(s, SuffixedSizes[..k + 1]) == x;
    StripFrom(x, s, k + 1);
    assert SuffixedSizes[..|SuffixedSizes|] == SuffixedSizes;
  }

  lemma {:induction false} StripKept(s: string, n: nat)
    requires n <= |SuffixedSizes|
    requires forall j :: 0 <= j < n ==> !HasSuffix(s, Suffix(SuffixedSizes[j]))
    ensures StripSizeSuffixes(s, SuffixedSizes[..n]) == s
  {
    if n > 0 {
      assert SuffixedSizes[..n][..n - 1] == SuffixedSizes[..n - 1];
      StripKept(s, n - 1);
    }
  }

  lemma {:induction false} StripFrom(x: string, s: string, m: nat)
    requires Unsuffixed(x) && m <= |SuffixedSizes|
    requires StripSizeSuffixes(s, SuffixedSizes[..m]) == x
    ensures StripSizeSuffixes(s, SuffixedSizes) == x
    decreases |SuffixedSizes| - m
  {
    if m < |SuffixedSizes| {
      assert SuffixedSizes[..m + 1][..m] == SuffixedSizes[..m];
      assert !HasSuffix(x, Suffix(SuffixedSizes[m]));
      StripFrom(x, s, m + 1);
    } else {
      assert SuffixedSizes[..m] == SuffixedSizes;
    }
  }

  /** Each suffix is stripped at most once: a doubled suffix leaves one copy. */
  lemma StripOnce(x: string)
    requires Unsuffixed(x)
    ensures StripSizeSuffixes(x + Suffix(Mini) + Suffix(Mini), SuffixedSizes) == x + Suffix(Mini)
  {
    var s := x + Suffix(Mini) + Suffix(Mini);
    assert HasSuffix(s, Suffix(Mini)) by { assert s[|s| - |Suffix(Mini)|..] == Suffix(Mini); }
    forall j | 0 <= j < 3
      ensures !HasSuffix(s, Suffix(SuffixedSizes[j]))
    {
      SuffixesDistinct(j, 3);
      if HasSuffix(s, Suffix(SuffixedSizes[j])) {
        SuffixOfSuffix(s, Suffix(Mini), Suffix(SuffixedSizes[j]));
      }
    }
    StripKept(s, 3);
    assert SuffixedSizes[..4] == SuffixedSizes;
    assert SuffixedSizes[..4][..3] == SuffixedSizes[..3];
    assert s[..|s| - |Suffix(Mini)|] == x + Suffix(Mini);
  }
}
