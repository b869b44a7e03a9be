/**
 * Mapping of Twitter wire entities to `TwitterStatus.Property` and to the attachment and
 * location values stored on a status record, for both API generations.
 */
module StatusProperty {
  import opened Wrappers
  import opened TwitterEntity
  import opened TwitterStore
  import opened SeqUtil

  // ---------------------------------------------------------------- V1

  /**
   * The V1 property bag. `parseSource` stands for the HTML parse of the `source` field
   * (the text of the document body, nil when parsing fails).
   */
  function PropertyV1(e: V1Tweet, networkDate: int, parseSource: string -> Option<string>): (p: Property)
    ensures p.id == e.idStr && p.createdAt == e.createdAt && p.updatedAt == networkDate
    ensures e.fullText.Some? ==> p.text == e.fullText.value
    ensures e.fullText.None? && e.text.Some? ==> p.text == e.text.value
    ensures e.fullText.None? && e.text.None? ==> p.text == ""
    ensures p.likeCount == (if e.favoriteCount.Some? then e.favoriteCount.value else 0)
    ensures p.repostCount == (if e.retweetCount.Some? then e.retweetCount.value else 0)
    ensures p.replyCount == 0 && p.quoteCount == 0
    ensures p.language == e.lang
    ensures e.source.None? ==> p.source.None?
    ensures p.replyToStatusID == e.inReplyToStatusIDStr && p.replyToUserID == e.inReplyToUserIDStr
  {
    Property(
      id := e.idStr,
      text := e.fullText.GetOr(e.text.GetOr("")),
      likeCount := e.favoriteCount.GetOr(0),
      replyCount := 0,
      repostCount := e.retweetCount.GetOr(0),
      quoteCount := 0,
      language := e.lang,
      source := if e.source.Some? then parseSource(e.source.value) else None,
      replyToStatusID := e.inReplyToStatusIDStr,
      replyToUserID := e.inReplyToUserIDStr,
      createdAt := e.createdAt,
      updatedAt := networkDate)
  }

  /** The wire `type` string of each attachment kind. */
  function KindName(k: AttachmentKind): (r: string)
    ensures KindOfType(r) == Some(k)
  {
    match k
    case Photo => "photo"
    case Video => "video"
    case AnimatedGIF => "animated_gif"
  }

  /** The `attachmentKind` switch shared by V1 and V2 media. */
  function KindOfType(t: string): (r: Option<AttachmentKind>)
    ensures r.Some? <==> (t == "photo" || t == "video" || t == "animated_gif")
  {
    if t == "photo" then Some(Photo)
    else if t == "video" then Some(Video)
    else if t == "animated_gif" then Some(AnimatedGIF)
    else None
  }

  function V1AttachmentKind(m: V1Media): (r: Option<AttachmentKind>)
    ensures m.mediaType.None? ==> r.None?
    ensures m.mediaType.Some? ==> r == KindOfType(m.mediaType.value)
  {
    match m.mediaType
    case None => None
    case Some(t) => KindOfType(t)
  }

  function Bitrate(v: Variant): int { v.bitrate.GetOr(0) }

  /**
   * The index `max(by:)` lands on when scanning `vs[i..]` with `best` as the running maximum:
   * the running maximum is replaced only by a strictly higher bitrate.
   */
  function MaxIndexFrom(vs: seq<Variant>, best: nat, i: nat): (r: nat)
    requires best < i <= |vs|
    requires forall j :: 0 <= j < i ==> Bitrate(vs[j]) <= Bitrate(vs[best])
    requires forall j :: 0 <= j < best ==> Bitrate(vs[j]) < Bitrate(vs[best])
    ensures r < |vs|
    ensures forall j :: 0 <= j < |vs| ==> Bitrate(vs[j]) <= Bitrate(vs[r])
    ensures forall j :: 0 <= j < r ==> Bitrate(vs[j]) < Bitrate(vs[r])
    decreases |vs| - i
  {
    if i == |vs| then best
    else if Bitrate(vs[best]) < Bitrate(vs[i]) then MaxIndexFrom(vs, i, i + 1)
    else MaxIndexFrom(vs, best, i + 1)
  }

  /** `variants.max(by: { bitrate($0) < bitrate($1) })`: the first variant of highest bitrate. */
  function MaxByBitrate(vs: seq<Variant>): (r: Option<Variant>)
    ensures r.None? <==> vs == []
    ensures r.Some? ==> (exists i :: 0 <= i < |vs| && vs[i] == r.value
                          && (forall j :: 0 <= j < |vs| ==> Bitrate(vs[j]) <= Bitrate(vs[i]))
                          && (forall j :: 0 <= j < i ==> Bitrate(vs[j]) < Bitrate(vs[i])))
  {
    if vs == [] then None else Some(vs[MaxIndexFrom(vs, 0, 1)])
  }

  /** The variants of a video, or none. */
  function Variants(m: V1Media): seq<Variant>
  {
    if m.videoInfo.Some? && m.videoInfo.value.variants.Some? then m.videoInfo.value.variants.value else []
  }

  /** `attachmentAssetURL`: the photo itself, or the URL of a highest-bitrate variant. */
  function AssetURL(m: V1Media): (r: Option<string>)
    ensures V1AttachmentKind(m).None? ==> r.None?
    ensures V1AttachmentKind(m) == Some(Photo) ==> r == m.mediaURLHTTPS
    ensures V1AttachmentKind(m).Some? && V1AttachmentKind(m) != Some(Photo) ==>
      (Variants(m) == [] ==> r.None?) &&
      (Variants(m) != [] ==> (exists i :: 0 <= i < |Variants(m)| && r == Variants(m)[i].url
                                && forall j :: 0 <= j < |Variants(m)| ==> Bitrate(Variants(m)[j]) <= Bitrate(Variants(m)[i])))
  {
    match V1AttachmentKind(m)
    case None => None
    case Some(k) =>
      if k == Photo then m.mediaURLHTTPS
      else
        var best := MaxByBitrate(Variants(m));
        if best.Some? then best.value.url else None
  }

  /** `attachmentPreviewURL`: nil for a photo, the still image for a video or GIF. */
  function PreviewURL(m: V1Media): (r: Option<string>)
    ensures V1AttachmentKind(m).None? || V1AttachmentKind(m) == Some(Photo) ==> r.None?
    ensures V1AttachmentKind(m).Some? && V1AttachmentKind(m) != Some(Photo) ==> r == m.mediaURLHTTPS
  {
    match V1AttachmentKind(m)
    case None => None
    case Some(k) => if k == Photo then None else m.mediaURLHTTPS
  }

  /** The large size of a medium, when both dimensions are known. */
  function LargeSize(m: V1Media): Option<(int, int)>
  {
    if m.sizes.Some? && m.sizes.value.large.Some? && m.sizes.value.large.value.w.Some? && m.sizes.value.large.value.h.Some?
    then Some((m.sizes.value.large.value.w.value, m.sizes.value.large.value.h.value))
    else None
  }

  /** One V1 medium as an attachment: needs a kind and a large size with width and height. */
  function V1Attachment(m: V1Media): (r: Option<TwitterAttachment>)
    ensures r.Some? <==> V1AttachmentKind(m).Some? && LargeSize(m).Some?
    ensures r.Some? ==> (r.value.kind == V1AttachmentKind(m).value
                          && (r.value.width, r.value.height) == LargeSize(m).value
                          && r.value.assetURL == AssetURL(m) && r.value.previewURL == PreviewURL(m)
                          && r.value.altDescription == m.extAltText)
  {
    match V1AttachmentKind(m)
    case None => None
    case Some(kind) =>
      match LargeSize(m)
      case None => None
      case Some(wh) =>
        Some(TwitterAttachment(kind, wh.0, wh.1, AssetURL(m), PreviewURL(m),
          if m.videoInfo.Some? then m.videoInfo.value.durationMillis else None, m.extAltText))
  }

  /** `twitterAttachments`: nil without extended media, otherwise the convertible media in order. */
  function V1Attachments(e: V1Tweet): (r: Option<seq<TwitterAttachment>>)
    ensures r.Some? <==> e.extendedEntities.Some? && e.extendedEntities.value.media.Some?
    ensures r.Some? ==> forall a :: a in r.value ==>
      exists m :: m in e.extendedEntities.value.media.value && V1Attachment(m) == Some(a)
    ensures r.Some? ==> forall m :: m in e.extendedEntities.value.media.value && V1Attachment(m).Some? ==>
      V1Attachment(m).value in r.value
  {
    if e.extendedEntities.Some? && e.extendedEntities.value.media.Some?
    then Some(CompactMap(e.extendedEntities.value.media.value, V1Attachment))
    else None
  }

  /** `twitterLocation`: present only when the place and its full name are. */
  function V1Location(e: V1Tweet): (r: Option<TwitterLocation>)
    ensures r.Some? <==> e.place.Some? && e.place.value.fullName.Some?
    ensures r.Some? ==> (r.value.id == e.place.value.id && r.value.fullName == e.place.value.fullName.value
                          && r.value.name == e.place.value.name && r.value.country == e.place.value.country
                          && r.value.countryCode == e.place.value.countryCode)
  {
    match e.place
    case None => None
    case Some(place) =>
      match place.fullName
      case None => None
      case Some(fullName) => Some(TwitterLocation(place.id, fullName, place.name, place.country, place.countryCode))
  }

  // ---------------------------------------------------------------- V2

  /**
   * The id of the first referenced entry of kind `k`; nil when there is none (or when that
   * first entry carries no id: later entries are never looked at).
   */
  function FirstOfKind(refs: seq<ReferencedTweet>, k: ReferenceType): (r: Option<string>)
    ensures (forall i :: 0 <= i < |refs| ==> refs[i].kind != Some(k)) ==> r.None?
    ensures forall i :: 0 <= i < |refs| && refs[i].kind == Some(k) && (forall j :: 0 <= j < i ==> refs[j].kind != Some(k)) ==>
      r == refs[i].id
  {
    if refs == [] then None
    else if refs[0].kind == Some(k) then refs[0].id
    else
      var r := FirstOfKind(refs[1..], k);
      assert forall i :: 1 <= i < |refs| ==> refs[i] == refs[1..][i - 1];
      r
  }

  function RepliedToID(t: V2Tweet): Option<string> { FirstOfKind(t.referencedTweets.GetOr([]), RepliedTo) }
  function QuoteID(t: V2Tweet): Option<string> { FirstOfKind(t.referencedTweets.GetOr([]), Quoted) }
  function RepostID(t: V2Tweet): Option<string> { FirstOfKind(t.referencedTweets.GetOr([]), Retweeted) }

  /** Adding entries behind the first entry of a kind does not change what is found for it. */
  lemma {:induction false} FirstOfKindPrefix(refs: seq<ReferencedTweet>, more: seq<ReferencedTweet>, k: ReferenceType)
    requires exists i :: 0 <= i < |refs| && refs[i].kind == Some(k)
    ensures FirstOfKind(refs + more, k) == FirstOfKind(refs, k)
  {
    if refs[0].kind != Some(k) {
      assert (refs + more)[1..] == refs[1..] + more;
      var i :| 0 <= i < |refs| && refs[i].kind == Some(k);
      assert refs[1..][i - 1] == refs[i];
      FirstOfKindPrefix(refs[1..], more, k);
    }
  }

  /**
   * The V2 property bag. The place and media of the tweet are accepted and not used,
   * as in the source.
   */
  function PropertyV2(status: V2Tweet, author: V2User, place: Option<V2Place>, media: seq<V2Media>, networkDate: int): (p: Property)
    ensures p.id == status.id && p.text == status.text && p.createdAt == status.createdAt && p.updatedAt == networkDate
    ensures status.publicMetrics.None? ==> p.likeCount == 0 && p.replyCount == 0 && p.repostCount == 0 && p.quoteCount == 0
    ensures status.publicMetrics.Some? ==>
      var m := status.publicMetrics.value;
      p.likeCount == m.likeCount && p.replyCount == m.replyCount && p.repostCount == m.retweetCount && p.quoteCount == m.quoteCount
    ensures p.replyToStatusID == RepliedToID(status) && p.replyToUserID == status.inReplyToUserID
    ensures p.language == status.lang && p.source == status.source
  {
    var m := status.publicMetrics;
    Property(
      id := status.id,
      text := status.text,
      likeCount := if m.Some? then m.value.likeCount else 0,
      replyCount := if m.Some? then m.value.replyCount else 0,
      repostCount := if m.Some? then m.value.retweetCount else 0,
      quoteCount := if m.Some? then m.value.quoteCount else 0,
      language := status.lang,
      source := status.source,
      replyToStatusID := RepliedToID(status),
      replyToUserID := status.inReplyToUserID,
      createdAt := status.createdAt,
      updatedAt := networkDate)
  }

  function V2AttachmentKind(m: V2Media): Option<AttachmentKind> { KindOfType(m.mediaType) }

  /** V2 `twitterAttachment`: needs a kind and both dimensions; V2 media carry no alt text here. */
  function V2Attachment(m: V2Media): (r: Option<TwitterAttachment>)
    ensures r.Some? <==> V2AttachmentKind(m).Some? && m.width.Some? && m.height.Some?
    ensures r.Some? ==> r.value == TwitterAttachment(V2AttachmentKind(m).value, m.width.value, m.height.value,
      m.url, m.previewImageURL, m.durationMS, None)
  {
    match V2AttachmentKind(m)
    case None => None
    case Some(kind) =>
      if m.width.Some? && m.height.Some?
      then Some(TwitterAttachment(kind, m.width.value, m.height.value, m.url, m.previewImageURL, m.durationMS, None))
      else None
  }

  /** V2 `twitterLocation`: total, field by field. */
  function V2Location(p: V2Place): (r: TwitterLocation)
    ensures r.id == p.id && r.fullName == p.fullName && r.name == p.name && r.country == p.country && r.countryCode == p.countryCode
  {
    TwitterLocation(p.id, p.fullName, p.name, p.country, p.countryCode)
  }
}
