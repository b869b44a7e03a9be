# TwidereX core, modelled in Dafny

A model of the data core of the TwidereX iOS client (Twitter and Mastodon), with proofs
about it. It covers:

- **V2 status reconciliation.** `Persistence.TwitterStatus.createOrMerge` receives a V2
  tweet with its author and its reply-to, repost and quote targets. It reconciles all of
  them into the persistent store, through identity caches (`PersistCache`) that every
  nested call shares. An existing record is merged only when the network date is newer.
  A new record is inserted, and it and its author are cached.
- **Property mapping.** V1 and V2 wire tweets and users become `TwitterStatus.Property` and
  `TwitterUser.Property`. The mapping also covers attachments (kind, asset URL of the
  highest bitrate, preview URL), locations, and the first-referenced-id rule.
- **Timeline backfill.** Ids are looked up again in batches of 100; failed batches are
  dropped. The answers are gathered into a lookup dictionary (V1) or a `DictContent` (V2).
  They then backfill persisted records: like and repost flags and media (V1), polls and
  reply settings (V2).
- **Mastodon timeline persistence.** The anchor status's feed loses its "has more" mark.
  For the home timeline, statuses are walked oldest first. Each status's author becomes
  followed by the account, and the status's home feed is refreshed or created.
- **Older persistence path and search.** `persistDictContent` keeps a tweet only when its
  author is included, and for references the last match wins. The search screens build
  their queries, amend V1 results with a V2 lookup, and refetch from V1 the statuses whose
  video or GIF asset V2 leaves out.
- **Optimistic like toggle.** The Twitter and Mastodon records flip their flag and count at
  once. A failed request rolls both back exactly.
- **The older `Tweet` record** and its extensions: property bags, share items and the
  display text with expanded links.
- **View models.** The relationship option set and its priority selection; the profile
  outputs and the friendship rule.
- **Smaller pieces:**
  - authentication-context projections;
  - timeline query-item serialisation;
  - Twitter error-code decoding;
  - chunked media upload with progress accounting;
  - key-only equality of trend places;
  - avatar URL size rewriting.

Records that the source updates in place are classes: `TwitterStatus`, `TwitterUser`,
`MastodonStatus`, `MastodonUser`, `Tweet`, `Store`, `PersistCache` and the view models.
Their methods carry `modifies` clauses. Each such method is tied to a pure function of the
old state, for example `ApplyUpdate`, `MergedState`, `BackfilledV1` and `AttachedFeeds`,
and the lemmas are proved about those functions. Wire entities and results are datatypes.
Code made of expressions is functions; code with loops is methods with loop invariants.

## Model

| member | source | states |
|---|---|---|
| Persistence.PersistCache.constructor | TwidereSDK/Sources/TwidereCore/Persistence/Persistence.swift:31-33 | a new cache holds exactly the given entries, none by default |
| Persistence.PersistCache.Get | TwidereSDK/Sources/TwidereCore/Persistence/Persistence.swift:29 | a key is found exactly when it is stored, with the stored record |
| Persistence.PersistCache.Put | TwidereSDK/Sources/TwidereCore/Persistence/Persistence.swift:29 | after a put, the key yields the new record and every other key yields what it did before |
| StatusV2.PersistContextV2.EntityFor | TwidereSDK/Sources/TwidereCore/Persistence/Twitter/Persistence+TwitterStatus+V2.swift:66-75 | an entity exists exactly when the tweet, its author id and the author are all in the dictionary, and it is made of those two |
| StatusV2.Depth | TwidereSDK/Sources/TwidereCore/Persistence/Twitter/Persistence+TwitterStatus+V2.swift:85-140 | nesting depth is at most 2, and it is 0 exactly when no target is present |
| StatusV2.NestedIsShallower | TwidereSDK/Sources/TwidereCore/Persistence/Twitter/Persistence+TwitterStatus+V2.swift:85-140 | each nested context (no repost, no reply-to, the quote only in a repost's context) is strictly shallower, so the recursion ends |
| StatusV2.InsertedState | TwidereSDK/Sources/TwidereCore/Persistence/Twitter/Persistence+TwitterStatus+V2.swift:218-222 | a freshly inserted record holds the property and the poll, and no entities, reply settings, conversation, attachments or location |
| StatusV2.HasVideo | TwidereSDK/Sources/TwidereCore/Persistence/Twitter/Persistence+TwitterStatus+V2.swift:302 | true exactly when some medium is a video or an animated GIF |
| StatusV2.MergedAttachments | TwidereSDK/Sources/TwidereCore/Persistence/Twitter/Persistence+TwitterStatus+V2.swift:297-312 | without media the attachments stay; video media never replace non-empty attachments; otherwise the converted media replace them |
| StatusV2.ApplyUpdate | TwidereSDK/Sources/TwidereCore/Persistence/Twitter/Persistence+TwitterStatus+V2.swift:272-319 | entities are always set; reply settings, conversation id and location only when present; the reply count ends as the quote count; every other field is unchanged |
| StatusV2.ApplyUpdateIdempotent | TwidereSDK/Sources/TwidereCore/Persistence/Twitter/Persistence+TwitterStatus+V2.swift:272-319 | running the update twice gives the same state as running it once |
| StatusV2.MergedAttachmentsIdempotent | TwidereSDK/Sources/TwidereCore/Persistence/Twitter/Persistence+TwitterStatus+V2.swift:297-312 | the media rule applied to its own result changes nothing |
| StatusV2.MergedState | TwidereSDK/Sources/TwidereCore/Persistence/Twitter/Persistence+TwitterStatus+V2.swift:227-258 | a network date no later than `updatedAt` changes nothing; a later one sets `updatedAt` and attaches the poll when the dictionary has one |
| StatusV2.MergeMonotoneIdempotent | TwidereSDK/Sources/TwidereCore/Persistence/Twitter/Persistence+TwitterStatus+V2.swift:231 | `updatedAt` never decreases, and merging the same payload a second time changes nothing |
| StatusV2.MergedUser | TwidereSDK/Sources/TwidereCore/Persistence/Twitter/Persistence+TwitterStatus+V2.swift:260-269 | the author is overwritten from the payload exactly when the payload is newer |
| StatusV2.CreatedState | TwidereSDK/Sources/TwidereCore/Persistence/Twitter/Persistence+TwitterStatus+V2.swift:206-225 | a created record is dated by the network date and carries the dictionary's poll |
| StatusV2.Update | TwidereSDK/Sources/TwidereCore/Persistence/Twitter/Persistence+TwitterStatus+V2.swift:272-319 | the statement-by-statement update leaves the record in `ApplyUpdate` of its old state, and the like and repost sets are untouched |
| StatusV2.MergeUser | TwidereSDK/Sources/TwidereCore/Persistence/Twitter/Persistence+TwitterStatus+V2.swift:261-269 | the user record ends in `MergedUser` of its old state |
| StatusV2.Merge | TwidereSDK/Sources/TwidereCore/Persistence/Twitter/Persistence+TwitterStatus+V2.swift:227-270 | the record ends in `MergedState` of its old state; its author is merged only behind the same date guard |
| StatusV2.Lookup | TwidereSDK/Sources/TwidereCore/Persistence/Twitter/Persistence+TwitterStatus+V2.swift:190-202 | with a cache only the cache is consulted; without one, the first stored match is used |
| StatusV2.FetchedRule | TwidereSDK/Sources/TwidereCore/Persistence/Twitter/Persistence+TwitterStatus+V2.swift:186-203 | with a cache, a status is found exactly when its id is cached; without one, it is found exactly when a stored record has the id, and it is the first such record |
| StatusV2.FetchedIds | TwidereSDK/Sources/TwidereCore/Persistence/Twitter/Persistence+TwitterStatus+V2.swift:186-203 | under the store invariant, a fetched status or user has the id asked for and belongs to the store |
| StatusV2.FetchedUser | TwidereSDK/Sources/TwidereCore/Persistence/Twitter/Persistence+TwitterStatus+V2.swift:158-166 | with a cache, a user is found exactly when its id is cached, and it is the cached one; without one, a found user is a stored user with the id |
| StatusV2.FetchedUserRule | TwidereSDK/Sources/TwidereCore/Persistence/Twitter/Persistence+TwitterStatus+V2.swift:158-166 | without a cache, no user is found exactly when no stored user has the id; otherwise the first stored user with the id is found |
| StatusV2.FirstMatchPrefix | TwidereSDK/Sources/TwidereCore/Persistence/Twitter/Persistence+TwitterStatus+V2.swift:193-197 | growing the store behind a match never changes that match |
| StatusV2.LookupKept | TwidereSDK/Sources/TwidereCore/Persistence/Twitter/Persistence+TwitterStatus+V2.swift:190-202 | a lookup that succeeded keeps its result when the store only gains records and the cache only gains keys |
| StatusV2.LinksKept | TwidereSDK/Sources/TwidereCore/Persistence/Twitter/Persistence+TwitterStatus+V2.swift:85-142 | targets already resolved and linked stay so while later targets are reconciled |
| StatusV2.CreateOrMergeUser | TwidereSDK/Sources/TwidereCore/Persistence/Twitter/Persistence+TwitterStatus+V2.swift:158-167 | the author is new exactly when the lookup misses; a found author is merged; a new one is inserted from the payload; the author has the payload's id; no other user and no status changes |
| StatusV2.Create | TwidereSDK/Sources/TwidereCore/Persistence/Twitter/Persistence+TwitterStatus+V2.swift:206-225 | a fresh record is appended to the store with the given relations, in `CreatedState` |
| StatusV2.Resolve | TwidereSDK/Sources/TwidereCore/Persistence/Twitter/Persistence+TwitterStatus+V2.swift:85-101 | a present target is reconciled in a nested context and can then be fetched; the store invariant is kept and the store only grows; only the statuses and authors with the target's or its quote's ids change |
| StatusV2.ResolveRepostOrQuote | TwidereSDK/Sources/TwidereCore/Persistence/Twitter/Persistence+TwitterStatus+V2.swift:103-140 | the repost is reconciled exactly when present; the quote only without a repost, then nested in the repost's context; both can be fetched afterwards; only the statuses and authors with their ids change |
| StatusV2.ResolveTargets | TwidereSDK/Sources/TwidereCore/Persistence/Twitter/Persistence+TwitterStatus+V2.swift:85-140 | reply-to and repost are linked exactly when present; the quote is linked only without a repost; every target can be fetched afterwards; only the statuses and authors with target ids change |
| StatusV2.InsertAuthor | TwidereSDK/Sources/TwidereCore/Persistence/Twitter/Persistence+TwitterStatus+V2.swift:158-168 | the author is reconciled, has the payload's id and is cached under it; users with other ids and all statuses keep their state |
| StatusV2.InsertRecord | TwidereSDK/Sources/TwidereCore/Persistence/Twitter/Persistence+TwitterStatus+V2.swift:169-177 | the new record is inserted with the relations and cached under its id, after which `fetch` finds it |
| StatusV2.Insert | TwidereSDK/Sources/TwidereCore/Persistence/Twitter/Persistence+TwitterStatus+V2.swift:145-179 | the create branch: a fresh record that `fetch` finds; the author is new exactly when its lookup missed, and it is cached; users with other ids and every existing status keep their state |
| StatusV2.FetchOrCreate | TwidereSDK/Sources/TwidereCore/Persistence/Twitter/Persistence+TwitterStatus+V2.swift:142-179 | it inserts exactly when `fetch` misses; a merged record reports no new author; the result is then fetchable; no like or repost relation changes; other statuses keep their state, and so do users that neither author it nor are the payload's author |
| StatusV2.CreateOrMerge | TwidereSDK/Sources/TwidereCore/Persistence/Twitter/Persistence+TwitterStatus+V2.swift:78-180 | every target is persisted even when the status exists; an existing status (whose id is not one of its targets') ends in `MergedState` of its old state and is reported as not inserted; a new one is linked to its targets; no like or repost relation changes; only the statuses and users with the ids of the status, its targets and their authors change; the store invariant holds |
| StatusProperty.PropertyV1 | TwidereSDK/Sources/TwidereCore/Persistence/Twitter/Extension/TwitterStatus+Property.swift:19-43 | full text over text, else empty; absent like and repost counts are 0; the source is the parsed HTML text; the reply target is copied |
| StatusProperty.KindName | TwidereSDK/Sources/TwidereCore/Persistence/Twitter/Extension/TwitterStatus+Property.swift:87-95 | the wire names "photo", "video" and "animated_gif" |
| StatusProperty.KindOfType | TwidereSDK/Sources/TwidereCore/Persistence/Twitter/Extension/TwitterStatus+Property.swift:87-95 | a type maps to a kind exactly when it is that kind's wire name; every other type maps to nil |
| StatusProperty.V1AttachmentKind | TwidereSDK/Sources/TwidereCore/Persistence/Twitter/Extension/TwitterStatus+Property.swift:87-95 | nil without a media type, else the shared switch |
| StatusProperty.MaxIndexFrom | TwidereSDK/Sources/TwidereCore/Persistence/Twitter/Extension/TwitterStatus+Property.swift:101-102 | the scan lands on a variant of highest bitrate, and on the first one when bitrates tie |
| StatusProperty.MaxByBitrate | TwidereSDK/Sources/TwidereCore/Persistence/Twitter/Extension/TwitterStatus+Property.swift:101-102 | nil for no variants; otherwise a variant at least as high as every other, and no earlier variant is as high |
| StatusProperty.AssetURL | TwidereSDK/Sources/TwidereCore/Persistence/Twitter/Extension/TwitterStatus+Property.swift:97-104 | a photo gives its own URL; a video or GIF gives the URL of its highest-bitrate variant; anything else gives nil |
| StatusProperty.PreviewURL | TwidereSDK/Sources/TwidereCore/Persistence/Twitter/Extension/TwitterStatus+Property.swift:106-113 | nil for a photo or an unknown kind; the still image for a video or GIF |
| StatusProperty.V1Attachment | TwidereSDK/Sources/TwidereCore/Persistence/Twitter/Extension/TwitterStatus+Property.swift:52-67 | an attachment exists exactly when the kind and both large dimensions are known |
| StatusProperty.V1Attachments | TwidereSDK/Sources/TwidereCore/Persistence/Twitter/Extension/TwitterStatus+Property.swift:47-69 | nil without extended media; otherwise the convertible media, in order |
| StatusProperty.V1Location | TwidereSDK/Sources/TwidereCore/Persistence/Twitter/Extension/TwitterStatus+Property.swift:71-83 | present exactly when the place and its full name are |
| StatusProperty.FirstOfKind | TwidereSDK/Sources/TwidereCore/Persistence/Twitter/Extension/TwitterStatus+Property.swift:145-191 | the id of the first referenced entry of the kind, and nil when no entry has that kind |
| StatusProperty.FirstOfKindPrefix | TwidereSDK/Sources/TwidereCore/Persistence/Twitter/Extension/TwitterStatus+Property.swift:145-159 | entries behind the first one of a kind never change what is found |
| StatusProperty.PropertyV2 | TwidereSDK/Sources/TwidereCore/Persistence/Twitter/Extension/TwitterStatus+Property.swift:120-141 | counts are 0 without public metrics; the reply target is the replied-to id; place and media are ignored |
| StatusProperty.V2Attachment | TwidereSDK/Sources/TwidereCore/Persistence/Twitter/Extension/TwitterStatus+Property.swift:195-208 | an attachment exists exactly when the kind and both dimensions are known |
| StatusProperty.V2Location | TwidereSDK/Sources/TwidereCore/Persistence/Twitter/Extension/TwitterStatus+Property.swift:221-229 | the place's fields, one by one |
| TwitterEntity.DictContent.MediaFor | TwidereSDK/Sources/TwidereCore/Persistence/Twitter/Persistence+TwitterStatus+V2.swift:297 | assumed `media(for:)`, whose definition is not part of this model: media exactly when the tweet has media keys; each one is stored under one of its keys; when every key resolves, the media of the keys in key order |
| TwitterEntity.DictContent.PlaceFor | TwidereSDK/Sources/TwidereCore/Persistence/Twitter/Persistence+TwitterStatus+V2.swift:315 | assumed `place(for:)`, whose definition is not part of this model: a place exactly when the tweet's place id is in the dictionary |
| TwitterEntity.DictContent.PollFor | TwidereSDK/Sources/TwidereCore/Persistence/Twitter/Persistence+TwitterStatus+V2.swift:242 | assumed `poll(for:)`, whose definition is not part of this model: a poll exactly when the tweet's poll id is in the dictionary |
| TwitterEntity.Resolve | TwidereSDK/Sources/TwidereCore/Persistence/Twitter/Persistence+TwitterStatus+V2.swift:297 | the assumed key lookup behind `media(for:)`: no more values than keys, each stored under one of the keys, a missing key skipped; when all keys resolve, exactly their values in key order |
| TwitterEntity.IndexByKeys | TwidereSDK/Sources/TwidereCore/Service/APIService/APIService+Status+Search.swift:173-179 | every entry's key is indexed, and each indexed key holds an entry with that key |
| TwitterEntity.MakeDictContent | TwidereSDK/Sources/TwidereCore/Service/APIService/Timeline/APIService+Timeline.swift:332-338 | the assumed last-wins `DictContent` initializer: every tweet is indexed under its id, and each entry is one of the tweets under its own id |
| TwitterStore.WithProperty | TwidereSDK/Sources/TwidereCore/Persistence/Twitter/Persistence+TwitterStatus+V2.swift:233-240 | assumed `update(property:)`, whose definition is not part of this model: every scalar property (text, counts, language, source, reply-to ids, dates) is overwritten, and the relations, attachments, location and poll are kept |
| TwitterStore.UserStateOf | TwidereSDK/Sources/TwidereCore/Persistence/Twitter/Persistence+TwitterStatus+V2.swift:158-166 | a written user is dated by the network date and carries every attribute of the property (names, bio, dates, location, pinned id, URLs, flags) |
| TwitterStore.TwitterUser.constructor | TwidereSDK/Sources/TwidereCore/Persistence/Twitter/Persistence+TwitterStatus+V2.swift:158-166 | an inserted user has the property's id and state |
| TwitterStore.TwitterUser.UpdateProperty | TwidereSDK/Sources/TwidereCore/Persistence/Twitter/Persistence+TwitterStatus+V2.swift:261-269 | every attribute is overwritten from the property |
| TwitterStore.TwitterStatus.constructor | TwidereSDK/Sources/TwidereCore/Persistence/Twitter/Persistence+TwitterStatus+V2.swift:218-222 | an inserted status has the id, state and relations given, and no likers or reposters |
| TwitterStore.TwitterStatus.UpdateProperty | TwidereSDK/Sources/TwidereCore/Persistence/Twitter/Persistence+TwitterStatus+V2.swift:240 | the state becomes `WithProperty` of the old one |
| TwitterStore.TwitterStatus.UpdateEntities | TwidereSDK/Sources/TwidereCore/Persistence/Twitter/Persistence+TwitterStatus+V2.swift:277 | only the entities change |
| TwitterStore.TwitterStatus.UpdateReplySettings | TwidereSDK/Sources/TwidereCore/Persistence/Twitter/Persistence+TwitterStatus+V2.swift:283-285 | only the reply settings change |
| TwitterStore.TwitterStatus.UpdateConversationID | TwidereSDK/Sources/TwidereCore/Persistence/Twitter/Persistence+TwitterStatus+V2.swift:288 | only the conversation id changes |
| TwitterStore.TwitterStatus.UpdateReplyCount | TwidereSDK/Sources/TwidereCore/Persistence/Twitter/Persistence+TwitterStatus+V2.swift:292-293 | only the reply count changes |
| TwitterStore.TwitterStatus.UpdateLikeCount | TwidereX/Service/APIService/APIService+Like.swift:221 | only the like count changes |
| TwitterStore.TwitterStatus.UpdateAttachments | TwidereSDK/Sources/TwidereCore/Persistence/Twitter/Persistence+TwitterStatus+V2.swift:311 | only the attachments change |
| TwitterStore.TwitterStatus.UpdateLocation | TwidereSDK/Sources/TwidereCore/Persistence/Twitter/Persistence+TwitterStatus+V2.swift:317 | only the location changes |
| TwitterStore.TwitterStatus.AttachPoll | TwidereSDK/Sources/TwidereCore/Persistence/Twitter/Persistence+TwitterStatus+V2.swift:255 | only the poll changes |
| TwitterStore.TwitterStatus.UpdateIsLike | TwidereSDK/Sources/TwidereCore/Service/APIService/Timeline/APIService+Timeline.swift:142-144 | the user likes the status exactly when the flag says so; nothing else changes |
| TwitterStore.TwitterStatus.UpdateIsRepost | TwidereSDK/Sources/TwidereCore/Service/APIService/Timeline/APIService+Timeline.swift:146-148 | the user reposted the status exactly when the flag says so; nothing else changes |
| TwitterStore.Store.constructor | TwidereSDK/Sources/TwidereCore/Persistence/Twitter/Persistence+TwitterStatus+V2.swift:79 | a new store is empty |
| TwitterStore.FirstMatch | TwidereSDK/Sources/TwidereCore/Persistence/Twitter/Persistence+TwitterStatus+V2.swift:193-197 | a match is a stored record with the id |
| TwitterStore.FirstMatchIsFirst | TwidereSDK/Sources/TwidereCore/Persistence/Twitter/Persistence+TwitterStatus+V2.swift:193-197 | there is no match exactly when no record has the id; otherwise the match is the record at the first such index |
| TwitterStore.FirstMatchAppend | TwidereSDK/Sources/TwidereCore/Persistence/Twitter/Persistence+TwitterStatus+V2.swift:193-197 | inserting a record never changes an existing match, and it becomes the match only for an id nothing else had |
| SeqUtil.CompactMap | TwidereSDK/Sources/TwidereCore/Persistence/Twitter/Persistence+TwitterStatus+V2.swift:310 | the present results, in order, never more than the inputs |
| SeqUtil.CompactMapAppend | TwidereSDK/Sources/TwidereCore/Service/APIService/Timeline/APIService+Timeline.swift:192 | `compactMap` distributes over concatenation, so the input order is kept |
| SeqUtil.CompactMapTotal | TwidereSDK/Sources/TwidereCore/Service/APIService/Timeline/APIService+Timeline.swift:192 | a function that never fails keeps every element |
| SeqUtil.Chunks | TwidereSDK/Sources/TwidereCore/Service/APIService/Timeline/APIService+Timeline.swift:178-180 | the stride slices of the input |
| SeqUtil.ChunksFlatten | TwidereSDK/Sources/TwidereCore/Service/APIService/Timeline/APIService+Timeline.swift:178-180 | concatenating the chunks gives back the input |
| SeqUtil.ChunksSizes | TwidereSDK/Sources/TwidereCore/Service/APIService/Timeline/APIService+Timeline.swift:178-180 | every chunk is non-empty and at most the stride long, and all but the last are exactly that long |
| SeqUtil.ChunksStride | TwidereSDK/Sources/TwidereComposeUI/ComposeContent/ViewModel/AttachmentViewModel+Upload.swift:16-20 | chunk i is the slice from i times the size to the lesser of the end and (i+1) times the size |
| SeqUtil.Membership | TwidereX/Service/APIService/APIService+Like.swift:220 | the element is a member exactly when marked so, and every other element keeps its membership |
| SeqUtil.MembershipIdempotent | TwidereSDK/Sources/TwidereCore/Service/APIService/Timeline/APIService+Timeline.swift:142-148 | marking the same membership twice changes nothing more |
| SeqUtil.MembershipUndo | TwidereX/Service/APIService/APIService+Like.swift:275-278 | marking the opposite membership restores a set that had the opposite membership |
| SeqUtil.MembershipOverwrite | TwidereX/Service/APIService/APIService+Like.swift:271-273 | a later marking overrides an earlier one |
| TimelineLookup.LookupBatches | TwidereSDK/Sources/TwidereCore/Service/APIService/Timeline/APIService+Timeline.swift:178-180 | consecutive batches that concatenate to the ids, each non-empty and at most 100 long, all but the last exactly 100 |
| TimelineLookup.SuccessfulResponses | TwidereSDK/Sources/TwidereCore/Service/APIService/Timeline/APIService+Timeline.swift:182-192 | the answers of the batches that did not fail, in batch order |
| TimelineLookup.AllFailed | TwidereSDK/Sources/TwidereCore/Service/APIService/Timeline/APIService+Timeline.swift:192 | when every batch fails, nothing is gathered |
| TimelineLookup.BuildLookupDict | TwidereSDK/Sources/TwidereCore/Service/APIService/Timeline/APIService+Timeline.swift:223-228 | the dictionary indexes every tweet of every answer under its id, in order |
| TimelineLookup.AssignAll | TwidereSDK/Sources/TwidereCore/Service/APIService/Timeline/APIService+Timeline.swift:225-227 | the inner loop continues the same in-order indexing |
| TimelineLookup.IndexByLastWins | TwidereSDK/Sources/TwidereCore/Service/APIService/Timeline/APIService+Timeline.swift:223-228 | the entry stored under an id is the last entry with that id |
| TimelineLookup.BackfilledAttachments | TwidereSDK/Sources/TwidereCore/Service/APIService/Timeline/APIService+Timeline.swift:150-164 | a GIF always replaces; other media only fill an empty list; no looked-up media keeps the attachments |
| TimelineLookup.BackfilledFlag | TwidereSDK/Sources/TwidereCore/Service/APIService/Timeline/APIService+Timeline.swift:142-148 | an absent flag changes nothing; a present one sets the account's membership |
| TimelineLookup.BackfilledV1 | TwidereSDK/Sources/TwidereCore/Service/APIService/Timeline/APIService+Timeline.swift:138-165 | no change for an id that was not looked up; otherwise the flags and media rules above |
| TimelineLookup.BackfilledV1Idempotent | TwidereSDK/Sources/TwidereCore/Service/APIService/Timeline/APIService+Timeline.swift:138-165 | backfilling twice from the same answers changes nothing more |
| TimelineLookup.UpdateStatusV1 | TwidereSDK/Sources/TwidereCore/Service/APIService/Timeline/APIService+Timeline.swift:138-165 | the record ends in `BackfilledV1` of its old value |
| TimelineLookup.UpdateStatusesV1 | TwidereSDK/Sources/TwidereCore/Service/APIService/Timeline/APIService+Timeline.swift:167-171 | every listed record is backfilled once, however often it is listed, and no other record changes |
| TimelineLookup.HomeLookupIDs | TwidereSDK/Sources/TwidereCore/Service/APIService/Timeline/APIService+Timeline.swift:199-204 | the ids of the `data` tweets, then those of the included tweets |
| TimelineLookup.BuildDictContent | TwidereSDK/Sources/TwidereCore/Service/APIService/Timeline/APIService+Timeline.swift:305-338 | the entities of every answer, appended in answer order, then indexed |
| TimelineLookup.AllTweetsContains | TwidereSDK/Sources/TwidereCore/Service/APIService/Timeline/APIService+Timeline.swift:311-317 | every requested or included tweet of an answer is gathered |
| TimelineLookup.LookupIndexesEveryTweet | TwidereSDK/Sources/TwidereCore/Service/APIService/Timeline/APIService+Timeline.swift:311-338 | the lookup's dictionary has an entry for every tweet of every answer |
| TimelineLookup.BackfilledV2 | TwidereSDK/Sources/TwidereCore/Service/APIService/Timeline/APIService+Timeline.swift:243-267 | no change for an id that was not looked up or a record without a context; a poll only when the answer has one; reply settings only when present |
| TimelineLookup.BackfilledV2Idempotent | TwidereSDK/Sources/TwidereCore/Service/APIService/Timeline/APIService+Timeline.swift:243-267 | backfilling twice changes nothing more |
| TimelineLookup.UpdateStatusV2 | TwidereSDK/Sources/TwidereCore/Service/APIService/Timeline/APIService+Timeline.swift:243-267 | the record ends in `BackfilledV2` of its old state; a record outside the store (nil context) is left alone |
| TimelineLookup.UpdateStatusesV2 | TwidereSDK/Sources/TwidereCore/Service/APIService/Timeline/APIService+Timeline.swift:269-273 | every listed record is backfilled once, according to whether it is in the store |
| MastodonStore.FeedIndex | TwidereSDK/Sources/TwidereCore/Service/APIService/Timeline/APIService+Timeline.swift:84 | the position of the first feed for (kind, acct), and none exactly when no feed matches |
| MastodonStore.FeedOf | TwidereSDK/Sources/TwidereCore/Service/APIService/Timeline/APIService+Timeline.swift:84 | the feed at that position |
| MastodonStore.MastodonUser.constructor | TwidereSDK/Sources/TwidereCore/Service/APIService/Timeline/APIService+Timeline.swift:55-59 | a new user has no followers |
| MastodonStore.MastodonUser.UpdateIsFollow | TwidereSDK/Sources/TwidereCore/Service/APIService/Timeline/APIService+Timeline.swift:96 | the user is followed by the other exactly when the flag says so |
| MastodonStore.MastodonStatus.constructor | TwidereSDK/Sources/TwidereCore/Service/APIService/Timeline/APIService+Timeline.swift:55-59 | a new status has the given fields, no likers and no feeds |
| MastodonStore.MastodonStatus.UpdateIsLike | TwidereX/Service/APIService/APIService+Like.swift:313 | the user likes the status exactly when the flag says so |
| MastodonStore.MastodonStatus.UpdateLikeCount | TwidereX/Service/APIService/APIService+Like.swift:314 | the like count becomes the given count |
| MastodonStore.MastodonStatus.AttachFeed | TwidereSDK/Sources/TwidereCore/Service/APIService/Timeline/APIService+Timeline.swift:111-112 | the feed is appended to the status's feeds |
| MastodonStore.MastodonStatus.UpdateFeed | TwidereSDK/Sources/TwidereCore/Service/APIService/Timeline/APIService+Timeline.swift:85 | only the feed at the position changes |
| MastodonStore.FindStatus | TwidereSDK/Sources/TwidereCore/Service/APIService/Timeline/APIService+Timeline.swift:70-76 | a found status has the domain and id, and nothing is found only when no stored status has both |
| MastodonTimeline.InsertByCreatedAt | TwidereSDK/Sources/TwidereCore/Service/APIService/Timeline/APIService+Timeline.swift:91 | inserting into a sorted page keeps it sorted by creation date and adds exactly the one status |
| MastodonTimeline.SortByCreatedAt | TwidereSDK/Sources/TwidereCore/Service/APIService/Timeline/APIService+Timeline.swift:91 | the page sorted by creation date, as a permutation |
| MastodonTimeline.SortKeepsMembers | TwidereSDK/Sources/TwidereCore/Service/APIService/Timeline/APIService+Timeline.swift:91 | sorting keeps exactly the statuses of the page, and so their authors |
| MastodonTimeline.Oldest | TwidereSDK/Sources/TwidereCore/Service/APIService/Timeline/APIService+Timeline.swift:92 | the first status of the sorted page, nil exactly for an empty page |
| MastodonTimeline.OldestIsEarliest | TwidereSDK/Sources/TwidereCore/Service/APIService/Timeline/APIService+Timeline.swift:91-92 | the oldest status is one of the page's, and no status of the page is older |
| MastodonTimeline.AnchoredFeedsRule | TwidereSDK/Sources/TwidereCore/Service/APIService/Timeline/APIService+Timeline.swift:83-86 | the feed for (kind, acct), if any, no longer "has more", and every other feed is kept |
| MastodonTimeline.AttachedFeedsRule | TwidereSDK/Sources/TwidereCore/Service/APIService/Timeline/APIService+Timeline.swift:100-118 | an existing feed gets the network date; otherwise one feed is appended, created at the status's date and marked "has more" exactly for the oldest status |
| MastodonTimeline.AttachedFeedsIdempotent | TwidereSDK/Sources/TwidereCore/Service/APIService/Timeline/APIService+Timeline.swift:100-118 | meeting the same status again changes its feeds no further |
| MastodonTimeline.AnchorOf | TwidereSDK/Sources/TwidereCore/Service/APIService/Timeline/APIService+Timeline.swift:68-77 | nil without `maxID`; otherwise the first stored status of the account's domain with that id |
| MastodonTimeline.AttachHomeFeed | TwidereSDK/Sources/TwidereCore/Service/APIService/Timeline/APIService+Timeline.swift:95-118 | the author becomes followed by the account, when there is one, and the status's feeds follow the home rule |
| MastodonTimeline.HomeStep | TwidereSDK/Sources/TwidereCore/Service/APIService/Timeline/APIService+Timeline.swift:93-119 | one turn of the home loop keeps both loop invariants |
| MastodonTimeline.AttachHomeFeeds | TwidereSDK/Sources/TwidereCore/Service/APIService/Timeline/APIService+Timeline.swift:93-119 | every status of the page carries the home rule, and every author is followed by the account |
| MastodonTimeline.MarkAnchor | TwidereSDK/Sources/TwidereCore/Service/APIService/Timeline/APIService+Timeline.swift:83-86 | the anchor's feeds become `AnchoredFeeds` of its old feeds |
| MastodonTimeline.PersistTimelineFeeds | TwidereSDK/Sources/TwidereCore/Service/APIService/Timeline/APIService+Timeline.swift:67-123 | the anchor rule and then, for the home kind only, the home rule on every status with its authors followed; other kinds attach no feeds |
| PersistDictContent.AuthorOf | TwidereX/Service/APIService/Persist/APIService+Persist+DictContent.swift:65-66 | an author exactly when the tweet has an author id that the dictionary includes |
| PersistDictContent.TargetOf | TwidereX/Service/APIService/Persist/APIService+Persist+DictContent.swift:74-78 | a target exactly when the entry's type and id are set, the id is included, and so is its author |
| PersistDictContent.LastTargetIsLast | TwidereX/Service/APIService/Persist/APIService+Persist+DictContent.swift:80-84 | a relation is unset exactly when no entry counts for it, and otherwise it is the target of the last entry that does |
| PersistDictContent.ReferencedInfos | TwidereX/Service/APIService/Persist/APIService+Persist+DictContent.swift:73-85 | the inner loop leaves each relation at `LastTarget` |
| PersistDictContent.PersistDict | TwidereX/Service/APIService/Persist/APIService+Persist+DictContent.swift:48-98 | the preload asks for exactly the dictionary's keys; each tweet with an included author gets exactly one call, with its relations, and no other tweet gets one |
| Search.ThreadQueryV1 | TwidereSDK/Sources/TwidereCore/Service/APIService/APIService+Status+Search.swift:35-40 | count 50, the root id as `sinceID`, and the text `to:U OR from:U -filter:retweets` |
| Search.ThreadQueryV1Items | TwidereSDK/Sources/TwidereCore/Service/APIService/APIService+Status+Search.swift:35-40 | the query items sent: count "50", the page bound if any, the root as `since_id`, then the fixed items |
| Search.SearchQueryV2 | TwidereSDK/Sources/TwidereCore/Service/APIService/APIService+Status+Search.swift:115-121 | the text as typed, 20 results, no since or start bound |
| Search.ThreadQueryV2 | TwidereSDK/Sources/TwidereCore/Service/APIService/APIService+Status+Search.swift:137-143 | the conversation query, 50 results, with the bounds passed through |
| Search.IDsOf | TwidereSDK/Sources/TwidereCore/Service/APIService/APIService+Status+Search.swift:58 | the ids of the statuses, one for one, in order |
| Search.SearchStatusV1 | TwidereSDK/Sources/TwidereCore/Service/APIService/APIService+Status+Search.swift:58-98 | the V2 lookup asks for the ids of the answer; the amendment runs exactly when the lookup succeeded and the account's user exists |
| Search.SearchDictionaryIsSingleLookup | TwidereSDK/Sources/TwidereCore/Service/APIService/APIService+Status+Search.swift:173-179 | the search dictionary is the one a lookup gathering this single answer would build |
| Search.IncludedTweetWins | TwidereSDK/Sources/TwidereCore/Service/APIService/APIService+Status+Search.swift:174 | under the assumed last-wins `DictContent` initializer, an included tweet overrides a `data` tweet with the same id when no later included tweet has that id |
| Search.RefetchSetMembers | TwidereSDK/Sources/TwidereCore/Service/APIService/APIService+Status+Search.swift:197-210 | an id is refetched exactly when a `data` tweet with that id has a video or GIF medium |
| Search.RefetchStatusIDs | TwidereSDK/Sources/TwidereCore/Service/APIService/APIService+Status+Search.swift:197-210 | the nested loops collect exactly the refetch set |
| Search.SearchStatusV2 | TwidereSDK/Sources/TwidereCore/Service/APIService/APIService+Status+Search.swift:172-223 | the refetch is requested exactly when its set is non-empty, and the answer is returned whatever the refetch's outcome |
| Like.OptimisticCount | TwidereX/Service/APIService/APIService+Like.swift:218-221 | one less when it was liked, one more otherwise, never below 0 |
| Like.Outcome | TwidereX/Service/APIService/APIService+Like.swift:204-285 | a bad request without the record or the account; otherwise the server's answer, or its error as a failed request |
| Like.TwitterTarget | TwidereX/Service/APIService/APIService+Like.swift:216 | the reposted status, or the status itself |
| Like.MastodonTarget | TwidereX/Service/APIService/APIService+Like.swift:309 | the reposted status, or the status itself |
| Like.LikeTwitterStatus | TwidereX/Service/APIService/APIService+Like.swift:204-285 | the result is `Outcome` of the lookups and the answer; without the record or the account it sends nothing; otherwise it sends the like or undo request for the target, toggles at once, then confirms with the server's flag or rolls the flag and count back exactly |
| Like.LikeMastodonStatus | TwidereX/Service/APIService/APIService+Like.swift:297-378 | the result is `Outcome`; the same request and toggle; on success the state the merge of the answer left (an input) is kept, with the count lowered once more after an undo; failure rolls back exactly |
| Like.LikeStatus | TwidereX/Service/APIService/APIService+Like.swift:174-192 | a same-platform pair returns the callee's error and has the callee's request and effect; any other pairing does nothing |
| TweetEntity.Tweet.Insert | CoreDataStack/Entity/Twitter/Tweet/Tweet.swift:65-107 | the scalar fields are the property's, `updatedAt` is its network date, and each optional relation holds just the given object |
| TweetEntity.Tweet.SetupMetricsIfNeeds | CoreDataStack/Entity/Twitter/Tweet/Tweet.swift:127-134 | empty metrics are created when absent, and existing ones are never replaced |
| TweetEntity.Tweet.UpdateLiked | CoreDataStack/Entity/Twitter/Tweet/Tweet.swift:136-146 | only `likeBy` changes, and the user is in it exactly when liked |
| TweetEntity.Tweet.UpdateRetweeted | CoreDataStack/Entity/Twitter/Tweet/Tweet.swift:148-158 | only `retweetBy` changes, and the user is in it exactly when retweeted |
| TweetEntity.Tweet.DidUpdate | CoreDataStack/Entity/Twitter/Tweet/Tweet.swift:160-162 | only `updatedAt` changes, to the given date |
| TweetExt.PropertyV1 | TwidereX/Extension/CoreDataStack/Tweet.swift:14-32 | full text over text, else empty; the parsed source; the reply target; no conversation, language or sensitivity |
| TweetExt.PropertyV1AgreesWithStatus | TwidereX/Extension/CoreDataStack/Tweet.swift:14-32 | this V1 mapper and the status record's agree on id, text, creation date, source and reply target |
| TweetExt.PropertyV2 | TwidereX/Extension/CoreDataStack/Tweet.swift:34-47 | the wire fields with the given reply target; sensitive exactly when the wire says true |
| TweetExt.ActivityItems | TwidereX/Extension/CoreDataStack/Tweet.swift:51-62 | the status link first, then the text unless it is empty |
| TweetExt.ReplaceAllAbsent | TwidereX/Extension/CoreDataStack/Tweet.swift:66-73 | a text without the pattern is returned as it is |
| TweetExt.ReplaceAllFirst | TwidereX/Extension/CoreDataStack/Tweet.swift:66-73 | the first occurrence is replaced and scanning resumes right after it |
| TweetExt.ReplaceAllBySelf | TwidereX/Extension/CoreDataStack/Tweet.swift:66-73 | replacing a pattern by itself changes nothing |
| TweetExt.DisplayedWithoutLinks | TwidereX/Extension/CoreDataStack/Tweet.swift:66-73 | without usable url entities the display text is the text |
| TweetExt.DisplayedUnchanged | TwidereX/Extension/CoreDataStack/Tweet.swift:66-73 | entities absent from the text, or expanding to themselves, leave it unchanged |
| TweetExt.DisplayText | TwidereX/Extension/CoreDataStack/Tweet.swift:66-73 | the text rewritten by each url entity in turn |
| TwitterUserExt.UserPropertyV1 | TwidereX/Extension/CoreDataStack/TwitterUser.swift:13-29 | no pinned tweet; `protected` and `verified` default to false |
| TwitterUserExt.UserPropertyV2 | TwidereX/Extension/CoreDataStack/TwitterUser.swift:31-47 | no banner URL; `protected` and `verified` default to false |
| TwitterUserExt.DeletingLastPathComponent | TwidereX/Extension/CoreDataStack/TwitterUser.swift:70-71 | the same root, one path component fewer |
| TwitterUserExt.WithoutSuffix | TwidereX/Extension/CoreDataStack/TwitterUser.swift:89-93 | with the suffix removed exactly when the string ends with it |
| TwitterUserExt.DeleteSuffix | TwidereX/Extension/CoreDataStack/TwitterUser.swift:89-93 | the mutating method leaves `WithoutSuffix` |
| TwitterUserExt.SizedIdentifier | TwidereX/Extension/CoreDataStack/TwitterUser.swift:76-81 | no suffix for the original size; the size's suffix otherwise |
| TwitterUserExt.AvatarImageURL | TwidereX/Extension/CoreDataStack/TwitterUser.swift:64-86 | nil without a parsable image URL; otherwise the same root, parent path and extension, with the size suffixes stripped and the requested one appended |
| TwitterUserExt.SuffixesDistinct | TwidereX/Extension/CoreDataStack/TwitterUser.swift:51-60 | the suffixes are listed longest first, and none ends with a later one |
| TwitterUserExt.StripSizedIdentifier | TwidereX/Extension/CoreDataStack/TwitterUser.swift:70-81 | resizing an already sized image gives the URL of the requested size |
| TwitterUserExt.StripOnce | TwidereX/Extension/CoreDataStack/TwitterUser.swift:72-74 | each suffix is stripped at most once, so a doubled suffix leaves one copy |
| Relationship.AllCasesAtRawValue | TwidereSDK/Sources/TwidereCore/ViewModel/RelationshipViewModel.swift:17-28 | `allCases` lists each case at its raw value |
| Relationship.OptionsDisjoint | TwidereSDK/Sources/TwidereCore/ViewModel/RelationshipViewModel.swift:30-32 | two cases have disjoint options exactly when they differ |
| Relationship.RelationshipExcept | TwidereSDK/Sources/TwidereCore/ViewModel/RelationshipViewModel.swift:74-81 | the highest-priority case left after subtracting, and nil exactly when none is left |
| Relationship.OptionSetOf | TwidereSDK/Sources/TwidereCore/ViewModel/RelationshipViewModel.swift:201-278 | a case is in the set exactly when it is expected for the pair: `none` across platforms, `isMyself` alone for the account itself, otherwise `follow` and the facts that hold |
| Relationship.FactBitsMembers | TwidereSDK/Sources/TwidereCore/ViewModel/RelationshipViewModel.swift:243-275 | for two distinct same-platform users, the built set holds exactly the cases whose facts hold |
| Relationship.FactBitsMember | TwidereSDK/Sources/TwidereCore/ViewModel/RelationshipViewModel.swift:249-275 | each case's bit is set exactly when its fact holds |
| Relationship.RelationshipViewModel.constructor | TwidereSDK/Sources/TwidereCore/ViewModel/RelationshipViewModel.swift:188-196 | a new view model starts reset |
| Relationship.RelationshipViewModel.Reset | TwidereSDK/Sources/TwidereCore/ViewModel/RelationshipViewModel.swift:188-196 | every flag is false and there is no option set |
| Relationship.RelationshipViewModel.Update | TwidereSDK/Sources/TwidereCore/ViewModel/RelationshipViewModel.swift:167-186 | without both users it resets; otherwise the option set and each flag match the expected relationship |
| Profile.FriendshipCases | TwidereX/Scene/Profile/ProfileViewModel.swift:184-186 | pending exactly when a follow request was sent; following exactly when not pending and followed; none otherwise |
| Profile.Count | TwidereX/Scene/Profile/ProfileViewModel.swift:166-168 | nil without metrics, else the picked count |
| Profile.ProfileViewModel.constructor | TwidereX/Scene/Profile/ProfileViewModel.swift:42-61 | every output is nil, and so is the friendship |
| Profile.ProfileViewModel.UpdateUser | TwidereX/Scene/Profile/ProfileViewModel.swift:155-169 | every output follows the user, or is nil without one; the avatar is the original-size avatar URL; the friendship is not touched |
| Profile.ProfileViewModel.UpdateFriendship | TwidereX/Scene/Profile/ProfileViewModel.swift:171-188 | nil without a profile user; unchanged without the current user; nil on the account's own profile; otherwise the friendship rule |
| Profile.ProfileViewModel.Refresh | TwidereX/Scene/Profile/ProfileViewModel.swift:101-108 | both updates, in order, for the latest pair of users, the avatar being the original-size avatar URL |
| AuthContext.MakeTwitterContext | TwidereSDK/Sources/TwidereCore/Model/AuthenticationContext.swift:78-84 | nil exactly when no authorization can be derived; otherwise the stored ids with that authorization |
| AuthContext.MakeMastodonContext | TwidereSDK/Sources/TwidereCore/Model/AuthenticationContext.swift:93-98 | domain and user id are copied unchanged |
| AuthContext.Make | TwidereSDK/Sources/TwidereCore/Model/AuthenticationContext.swift:20-34 | nil without a platform; otherwise a context exactly when the platform's authentication is stored and, for Twitter, authorization succeeds |
| AuthContext.TwitterAuthenticationContextOf | TwidereSDK/Sources/TwidereCore/Model/AuthenticationContext.swift:38-41 | present exactly for a Twitter context |
| AuthContext.MastodonAuthenticationContextOf | TwidereSDK/Sources/TwidereCore/Model/AuthenticationContext.swift:43-46 | present exactly for a Mastodon context |
| AuthContext.UserIdentifierOf | TwidereSDK/Sources/TwidereCore/Model/AuthenticationContext.swift:63-70 | the user id for Twitter; the domain and user id for Mastodon |
| AuthContext.ProjectionsExclusive | TwidereSDK/Sources/TwidereCore/Model/AuthenticationContext.swift:38-46 | exactly one projection is present, and it gives back the wrapped context |
| AuthContext.MadeContextMatchesPlatform | TwidereSDK/Sources/TwidereCore/Model/AuthenticationContext.swift:20-46 | a built context's matching projection is present and the other absent, and its identifier names the stored user |
| TimelineQuery.DigitChar | TwidereSDK/Sources/TwitterSDK/API/Twitter+API+Statuses+Timeline.swift:49 | a digit character |
| TimelineQuery.Digits | TwidereSDK/Sources/TwitterSDK/API/Twitter+API+Statuses+Timeline.swift:49 | non-empty decimal digits, with no leading zero |
| TimelineQuery.DecimalString | TwidereSDK/Sources/TwitterSDK/API/Twitter+API+Statuses+Timeline.swift:49 | a minus sign exactly for negative counts, then the digits |
| TimelineQuery.DecimalRoundTrip | TwidereSDK/Sources/TwitterSDK/API/Twitter+API+Statuses+Timeline.swift:48-50 | the rendered count reads back as the count |
| TimelineQuery.WireInjective | TwidereSDK/Sources/TwitterSDK/API/Twitter+API+Statuses+Timeline.swift:46-68 | distinct parameter names go out as distinct strings |
| TimelineQuery.ItemIf | TwidereSDK/Sources/TwitterSDK/API/Twitter+API+Statuses+Timeline.swift:48-62 | no item for an unset parameter; one rendered item for a set one |
| TimelineQuery.QueryItems | TwidereSDK/Sources/TwitterSDK/API/Twitter+API+Statuses+Timeline.swift:46-68 | never nil; the items are the set parameters in order, then the two fixed items |
| TimelineQuery.QueryItemsOrdered | TwidereSDK/Sources/TwitterSDK/API/Twitter+API+Statuses+Timeline.swift:46-68 | the items follow the fixed order, each name at most once |
| TimelineQuery.QueryItemsPresence | TwidereSDK/Sources/TwitterSDK/API/Twitter+API+Statuses+Timeline.swift:46-68 | a parameter is listed exactly when set, with its rendered value; the fixed items are always listed, last |
| TimelineQuery.EncodedQueryItems | TwidereSDK/Sources/TwitterSDK/API/Twitter+API+Statuses+Timeline.swift:69-76 | a single `q` item with the encoded text, or nil without a text |
| TimelineQuery.FormQueryItems | TwidereSDK/Sources/TwitterSDK/API/Twitter+API+Statuses+Timeline.swift:77 | always nil |
| TimelineQuery.ContentType | TwidereSDK/Sources/TwitterSDK/API/Twitter+API+Statuses+Timeline.swift:78 | always nil |
| TimelineQuery.Body | TwidereSDK/Sources/TwitterSDK/API/Twitter+API+Statuses+Timeline.swift:79 | always nil |
| TwitterAPIError.FromCode | TwidereSDK/Sources/TwitterAPI/API/Error/Twitter+API+Error+TwitterAPIError.swift:23-29 | 88 is a rate limit, 326 a temporarily locked account, anything else a custom error carrying the code and message |
| TwitterAPIError.FromErrorResponse | TwidereSDK/Sources/TwitterAPI/API/Error/Twitter+API+Error+TwitterAPIError.swift:31-37 | nil for an empty list; otherwise the decoding of the first error |
| TwitterAPIError.FromCodeRoundTrip | TwidereSDK/Sources/TwitterAPI/API/Error/Twitter+API+Error+TwitterAPIError.swift:13-29 | a decoded error re-decodes to itself from its code and message |
| TwitterAPIError.FromErrorResponseFirstOnly | TwidereSDK/Sources/TwitterAPI/API/Error/Twitter+API+Error+TwitterAPIError.swift:31-37 | errors after the first never influence the decoding |
| TrendPlace.EqualIffSameId | TwidereSDK/Sources/TwitterSDK/Entity/Twitter+Entity+Trend+Place.swift:46-48 | two places are equal exactly when their ids are |
| TrendPlace.HashConsistent | TwidereSDK/Sources/TwitterSDK/Entity/Twitter+Entity+Trend+Place.swift:46-52 | equal places hash alike, whatever the hasher |
| TrendPlace.EqualIsEquivalence | TwidereSDK/Sources/TwitterSDK/Entity/Twitter+Entity+Trend+Place.swift:46-48 | `==` is reflexive, symmetric and transitive |
| TrendPlace.EqualIgnoresOtherFields | TwidereSDK/Sources/TwitterSDK/Entity/Twitter+Entity+Trend+Place.swift:46-48 | changing any other field keeps a place equal to the original |
| Upload.MaxPayloadSizeInBytes | TwidereSDK/Sources/TwidereComposeUI/ComposeContent/ViewModel/AttachmentViewModel+Upload.swift:24-30 | 5 MiB for an image |
| Upload.TotalBytesIsFlattenLength | TwidereSDK/Sources/TwidereComposeUI/ComposeContent/ViewModel/AttachmentViewModel+Upload.swift:41 | the reduce over chunk lengths is the length of the concatenated chunks |
| Upload.MakeSliceResult | TwidereSDK/Sources/TwidereComposeUI/ComposeContent/ViewModel/AttachmentViewModel+Upload.swift:32-44 | the chunks and type as given, with the total their summed length |
| Upload.Slice | TwidereSDK/Sources/TwidereComposeUI/ComposeContent/ViewModel/AttachmentViewModel+Upload.swift:91-97 | chunks that concatenate to the data, each non-empty and at most 1 MiB, all but the last exactly 1 MiB; the total is the data's size |
| Upload.Progress.constructor | TwidereSDK/Sources/TwidereComposeUI/ComposeContent/ViewModel/AttachmentViewModel+Upload.swift:123-124 | both counters start at 0 |
| Upload.Appends | TwidereSDK/Sources/TwidereComposeUI/ComposeContent/ViewModel/AttachmentViewModel+Upload.swift:138-147 | one APPEND per chunk, in order, each carrying its index |
| Upload.Repeat | TwidereSDK/Sources/TwidereComposeUI/ComposeContent/ViewModel/AttachmentViewModel+Upload.swift:149-166 | n copies of the request |
| Upload.FinalizeCalls | TwidereSDK/Sources/TwidereComposeUI/ComposeContent/ViewModel/AttachmentViewModel+Upload.swift:149-166 | the number of FINALIZE calls until the first answer without processing info, if any comes |
| Upload.FinalizeCallsAt | TwidereSDK/Sources/TwidereComposeUI/ComposeContent/ViewModel/AttachmentViewModel+Upload.swift:149-166 | the first answer without processing info, after answers with it, fixes the count |
| Upload.UploadMedia | TwidereSDK/Sources/TwidereComposeUI/ComposeContent/ViewModel/AttachmentViewModel+Upload.swift:114-170 | a bad request with nothing sent without an output or slice; otherwise the total is chunks + 2 and is never exceeded; success exactly when INIT, every APPEND and a FINALIZE succeed, with the requests in order and the progress complete |

## Left out

- The persistent store is a sequence of records in insertion order, and a fetch without a cache finds the first match in that order. The source fetches through `TwitterStatus.sortedFetchRequest`, whose sort order is not part of this model, so which of several records with one id is found may differ. A cache miss with a store hit inserts a duplicate record, as the source does.
- The `catch` branch of the cache-less `fetch`, which returns nil after a failed Core Data fetch, is left out: a fetch never fails in the model.
- Several per-entity calls are not part of this model; each is modelled by an assumption:
  - `TwitterUser.createOrMerge`/`merge`: a cache-or-first-match lookup, then a merge behind the same date guard or an insert of the `Property`.
  - `TwitterPoll.createOrMerge`: the poll is kept as its wire value.
  - `TwitterStatus.insert` (the create step) and `update(property:)`: a new record holding the property, and an overwrite of every scalar property (`TwitterStore.WithProperty`).
  - `TwitterAttachment.Kind.rawValue`, which the video test of `merge` compares with a media type, is not part of this model's sources. `StatusProperty.KindName` assumes it is the wire name that `attachmentKind` matches ("photo", "video", "animated_gif").
  - `Twitter.Response.V2.DictContent(tweets:users:media:places:polls:)`: `TwitterEntity.MakeDictContent` assumes that each list is indexed by id with a later entry winning. An initializer built on `Dictionary(uniqueKeysWithValues:)` would trap on a duplicate id instead; `Search.IncludedTweetWins` holds only under the assumption.
  - `media(for:)`, `place(for:)` and `poll(for:)` of `DictContent`: `TwitterEntity.DictContent.MediaFor` assumes that keys without a medium are skipped, the others kept in key order; place and poll are plain lookups.
  - `TwitterReplySettings(value:)`: a wrapper of the raw value.
  - `Feed.insert` and `attach(feed:)`: an appended feed value.
  - `update(isFollow:by:)`, `update(isLike:by:)` and the other setters: they change exactly their field.
- The poll re-attach in `merge` assumes `status.managedObjectContext` is non-nil. The V2 backfill does model that guard: a record outside the store is left alone.
- `Persistence.Twitter.persist` (used by the V2 search) and the per-status V1 `createOrMerge` of the V1 search are not part of this model. Their records are inputs.
- `createOrMergeTweet` of the older persistence path is recorded as calls, not performed.
- The request user's record, the account's user record and every network answer are inputs, as are errors and the refetch's outcome.
- Like.LikeMastodonStatus: `MastodonStatus.createOrMerge` of the server's answer is not part of this model; the like flag and count it leaves on the target are the input `merged`, and the model states what happens after it.
- Swift `Dictionary` enumeration order is unspecified. `PersistDict` picks the next key nondeterministically and states its result for every order.
- HTML parsing of the tweet `source`, URL parsing, percent-encoding (`urlEncode`), the hasher and OAuth authorization (`authorize`) are parameters.
- Concurrency is not modelled (`parallelMap`, `async`/`await`, `performChanges`); batches are taken in order.
- The JPEG compression loop of `slice()` and the `Task.sleep` between FINALIZE polls are left out.
- Upload.UploadMedia: the finalize answers are a finite list. Running out of answers ends with the model's own `NotFinalized` error, where the source would keep polling.
- `Int64` counts and ids are unbounded integers; no overflow is modelled.
- A nil to-many relation (`likeBy`, `followingBy`, ...) is the empty set, and a feed is a value inside its status.
- The sort in `persistMastodonTimelineResponse` is an insertion sort that keeps ties in input order. Swift's `sorted(by:)` does not promise that.
- `replacingOccurrences(of:with:)` is a left-to-right scan without overlapping matches. An empty pattern replaces nothing.
- The `replyToTweetID` of `Tweet.Property` has no field in the record that `insert` writes, so it is kept in the property only.
- The V2 lookup of the V1 search is an input that is either an answer or a failure; `twitterBatchLookupV2` cannot throw in the code shown.
- UI strings (`Relationship.title`, localised labels), the Combine publishers and the `ManagedObjectObserver` wiring of the view models are left out.
- Relationship.OptionSetOf: the option set is the set of its bit positions, not the 64-bit `Int` raw value. Bits beyond 10 never occur.
- Relationship.OptionSetOf: the `if isMyself { insert(.isMyself) }` step after the guard is dead code (`isMyself` is false there), so it is left out.
- Record identity in the relationship and profile view models is id equality (for Mastodon, id and domain).
- `ProfileViewModel.init(twitterUser:)` is not a separate constructor; `Refresh` performs the same updates. The profile observers are left out.
- `AuthenticationContext.user(in:)` is a Core Data fetch and is left out.
