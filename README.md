# Photo feed client: optimistic comments, upload gate, cursor feed

A Dafny model of the client half of a photo-and-comments web app. Users
upload photos, browse them in an infinitely scrolling feed and comment on
them. The model covers the client's own rules:

- **Optimistic comments** (`OptimisticComment`, hooks/useAddComment.ts).
  The feed cache is a value: a list of pages, each holding photos with a
  comment preview and a comment count. A new comment is applied to every
  cached copy of its photo before the server answers. The provisional
  comment goes to the head of the preview, the preview is cut back to
  three, and the count goes up by one. If the server call fails, the
  snapshot taken just before is restored. The cache is the class
  `QueryCache`, whose one field its methods overwrite. The updater is the
  pure function `ApplyOptimistic`. The model assumes that `QueryCache.data`
  is the feed's entry. The code addresses a different key, so as written
  neither the update nor the rollback reaches the feed (see "## Left out").
- **Upload form** (`PhotoUpload`, components/PhotoUpload.tsx). The file
  gate checks the type first and the size second. The class `UploadForm`
  holds the four state fields `file`, `title`, `description` and
  `previewUrl`, and its methods are the handlers that set and clear them.
- **Comment box** (`CommentSection`, components/CommentSection.tsx).
  Trimming and blank-dropping of a submission, the relative-time buckets,
  and the "+ N more comments" line.
- **Feed query** (`FeedQuery`, hooks/usePhotos.ts). Option defaults, the
  query key, and the request parameters. These are built by appending to a
  `SearchParams` object. Also the cursor protocol that chains page fetches.
- **Gallery** (`PhotoGallery`, components/PhotoGallery.tsx). Flattening of
  the pages, the guard on fetching the next page, and the precedence of
  the loading, error, empty and grid views.
- **Card** (`PhotoCard`, components/PhotoCard.tsx). File-size unit,
  comment label, dimensions line and alt text.

`Wrappers` holds `Option`. `JsString` models the JavaScript built-ins the
code relies on: `trim`, `startsWith`, and the decimal rendering of a number.

Where the design and the code differ, the model follows the code:

- The design asks that a failed mutation's rollback not discard other
  mutations still in flight. The code restores the whole cache snapshot it
  took. Assuming `QueryCache.data` is the feed's entry, a failure therefore
  discards a later mutation's provisional comment.
  `OptimisticComment.InterleavedRollback` states this.
- The "+ N more comments" line is rendered inside the block that exists
  only when the preview is non-empty. So it needs a non-empty preview as
  well as a count above three (`CommentSection.MoreComments`).

## Model

| member | source | states |
|---|---|---|
| JsString.Trim | components/CommentSection.tsx:22-28 | `trim()`: the result is no longer than the input, and it neither starts nor ends with whitespace |
| JsString.TrimIsInfix | components/CommentSection.tsx:27-28 | the trimmed text is the infix left after dropping a whitespace-only prefix and suffix |
| JsString.TrimEmptyIff | components/CommentSection.tsx:22 | a string trims to empty exactly when it is all whitespace |
| JsString.NatToString | hooks/useAddComment.ts:35 | a number's decimal rendering is non-empty, all digits, and has no leading zero |
| JsString.DecimalValueOfNatToString | hooks/useAddComment.ts:35 | reading the decimal rendering back gives the number again |
| JsString.NatToStringInjective | hooks/useAddComment.ts:35 | distinct numbers render to distinct strings |
| FeedQuery.ResolveOptions | hooks/usePhotos.ts:43 | a missing `sortBy` becomes `createdAt`, a missing `order` becomes `desc`, and given options are kept |
| FeedQuery.QueryKey | hooks/usePhotos.ts:46 | the key has three parts: `photos`, the sort name and the order name |
| FeedQuery.QueryKeyInjective | hooks/usePhotos.ts:46 | two keys are equal exactly when their sort and order are equal |
| FeedQuery.SearchParamsFor | hooks/usePhotos.ts:48-56 | parameters `sortBy`, `order`, `limit=12` in that order, then `cursor` last exactly when the page parameter is non-null and non-empty |
| FeedQuery.ServerReadsParams | hooks/usePhotos.ts:48-56 | looked up by name, the parameters give the sort, the order, limit 12, and the page parameter as cursor only when it is truthy |
| FeedQuery.SearchParams.constructor | hooks/usePhotos.ts:48-52 | a new parameter object holds exactly its initial entries |
| FeedQuery.SearchParams.Append | hooks/usePhotos.ts:55 | `append` adds one entry at the end and keeps the rest |
| FeedQuery.RequestParams | hooks/usePhotos.ts:47-56 | the parameters built by appending in place are exactly `SearchParamsFor` |
| FeedQuery.FirstPage | hooks/usePhotos.ts:67 | the first page is fetched with the null initial parameter (`InitialPageParam`), which satisfies the cursor protocol |
| FeedQuery.AppendPage | hooks/usePhotos.ts:66 | a next page is appended after the old pages, and its parameter is the last page's `nextCursor` |
| FeedQuery.HasNextPageFollowsNewestPage | hooks/usePhotos.ts:66 | a next page exists exactly when the newest page announced a non-null `nextCursor`, for the first page and after each appended page |
| FeedQuery.AppendPageChained | hooks/usePhotos.ts:66-67 | appending a page keeps the protocol: each later page's parameter is the previous page's `nextCursor` |
| FeedQuery.LaterPagesRequestedWithCursor | hooks/usePhotos.ts:54-67 | every later page is requested with the cursor of the page before it |
| FeedQuery.FirstPageRequestedWithoutCursor | hooks/usePhotos.ts:54-67 | the first page is requested without a cursor |
| PhotoGallery.Flatten | components/PhotoGallery.tsx:44 | the visible list holds as many photos as the pages together, and starts with the first page's photos |
| PhotoGallery.FlattenAppend | components/PhotoGallery.tsx:44 | flattening maps concatenation of page lists to concatenation of photo lists |
| PhotoGallery.FlattenMembership | components/PhotoGallery.tsx:44 | a photo is visible exactly when some page holds it |
| PhotoGallery.FlattenEmpty | components/PhotoGallery.tsx:44-46 | the visible list is empty exactly when every page is empty |
| PhotoGallery.VisiblePhotos | components/PhotoGallery.tsx:44 | with no data, nothing is visible; with data, the visible list is the flattened pages |
| PhotoGallery.AppendPageExtendsVisible | components/PhotoGallery.tsx:44 | fetching the next page only appends its photos after those already visible |
| PhotoGallery.ShouldFetchNextPage | components/PhotoGallery.tsx:17-21 | fetch exactly when the sentinel is in view, a next page exists, and none is being fetched |
| PhotoGallery.FetchOnlyWithCursor | components/PhotoGallery.tsx:18 | a fetch happens only when the last cached page announced a non-null cursor |
| PhotoGallery.GalleryView | components/PhotoGallery.tsx:23-80 | loading beats error, error beats empty; the grid shows the visible photos, a spinner iff fetching, and the end line iff there is no next page |
| PhotoGallery.EndOfFeedShown | components/PhotoGallery.tsx:78-80 | "No more photos to load" shows exactly when there is no next page and the list is non-empty |
| OptimisticComment.AuthorOrAnonymous | hooks/useAddComment.ts:37 | a missing or empty name becomes `Anonymous`; any other name is kept |
| OptimisticComment.ProvisionalComment | hooks/useAddComment.ts:34-39 | the id starts with `temp-` followed by the clock reading; content, author and time come from the submission |
| OptimisticComment.ProvisionalIdsDistinct | hooks/useAddComment.ts:35 | provisional comments made at different milliseconds have different ids |
| OptimisticComment.Preview | hooks/useAddComment.ts:52 | the new preview has 1 to 3 comments, starts with the new one, and continues with the old preview's first comments |
| OptimisticComment.WithComment | hooks/useAddComment.ts:50-54 | the target photo's count goes up by one, its preview is exactly the first min(n+1, 3) of the new comment followed by the old preview of n, and all its other fields are kept |
| OptimisticComment.UpdatePhotos | hooks/useAddComment.ts:48-56 | same length; photos with other ids are unchanged; each target photo gets the comment |
| OptimisticComment.UpdatePages | hooks/useAddComment.ts:46-57 | same number of pages; each page keeps its pagination and has its photos updated |
| OptimisticComment.ApplyOptimistic | hooks/useAddComment.ts:41-59 | absent data stays absent; page parameters and page count are kept |
| OptimisticComment.OptimisticUpdateAt | hooks/useAddComment.ts:41-59 | on every page, a non-target photo is unchanged; a target photo has count + 1 and a preview of exactly the first min(n+1, 3) of the new comment followed by its old preview of n; all its other fields are unchanged |
| OptimisticComment.UpdateChangesIffCached | hooks/useAddComment.ts:46-56 | the update changes the cache exactly when the target photo is cached on some page |
| OptimisticComment.UpdatePhotosCommute | hooks/useAddComment.ts:48-56 | on a photo list, updates for two different photos commute |
| OptimisticComment.UpdatesCommute | hooks/useAddComment.ts:41-59 | on the whole cache, updates for two different photos commute |
| OptimisticComment.TwoCommentsSamePhoto | hooks/useAddComment.ts:52-53 | two comments on one photo raise its count by 2, and its preview starts with the later comment, then the earlier one |
| OptimisticComment.UpdatePhotosAppend | hooks/useAddComment.ts:48-56 | updating a concatenated photo list is the same as updating each part |
| OptimisticComment.UpdateCommutesWithFlatten | hooks/useAddComment.ts:46-56 | the visible feed after the update equals the old visible feed with each photo updated in place |
| OptimisticComment.QueryCache.constructor | hooks/useAddComment.ts:12 | the cache starts with the given data |
| OptimisticComment.QueryCache.OnMutate | hooks/useAddComment.ts:29-62 | the returned snapshot is the old data, and the new data is the optimistic update of the old |
| OptimisticComment.QueryCache.OnError | hooks/useAddComment.ts:63-66 | a captured snapshot is restored exactly; with no snapshot the cache is left as it is |
| OptimisticComment.QueryCache.Mutate | hooks/useAddComment.ts:29-68 | on success the cache holds the optimistic update; on failure it is exactly what it was before |
| OptimisticComment.InterleavedRollback | hooks/useAddComment.ts:32-66 | on one cache entry, if a first mutation fails after a second began, the entry returns to the first snapshot, which discards the second comment whenever its photo is cached |
| PhotoUpload.IsImage | components/PhotoUpload.tsx:20 | a type is an image type exactly when it is `image/` followed by anything |
| PhotoUpload.UnderTenMiB | components/PhotoUpload.tsx:26 | `size / 1024 / 1024 < 10` holds exactly when size < 10485760 |
| PhotoUpload.CheckFile | components/PhotoUpload.tsx:19-39 | accepted iff the type starts with `image/` and size < 10 MiB; a non-image is rejected as such; an image of 10 MiB or more is rejected as too large |
| PhotoUpload.TypeCheckedFirst | components/PhotoUpload.tsx:20-30 | an oversize non-image reports the type error |
| PhotoUpload.UploadForm.constructor | components/PhotoUpload.tsx:12-15 | the form starts with no file, empty title and description, and no preview |
| PhotoUpload.UploadForm.BeforeUpload | components/PhotoUpload.tsx:19-40 | returns the gate's verdict; an accepted file is stored and a rejected one changes nothing; the other fields are kept; a stored file always passed the gate |
| PhotoUpload.UploadForm.PreviewLoaded | components/PhotoUpload.tsx:34-36 | the reader's result becomes the preview; nothing else changes |
| PhotoUpload.UploadForm.EditTitle | components/PhotoUpload.tsx:118 | only the title changes |
| PhotoUpload.UploadForm.EditDescription | components/PhotoUpload.tsx:125 | only the description changes |
| PhotoUpload.UploadForm.HandleUpload | components/PhotoUpload.tsx:42-59 | with no file nothing is sent; otherwise file, title and description are sent; success resets all four fields, and failure keeps them |
| PhotoUpload.UploadForm.Remove | components/PhotoUpload.tsx:61-64 | clears the file and the preview, and keeps the title and description |
| CommentSection.Submission | components/CommentSection.tsx:21-29 | nothing is sent iff the text is all whitespace; content is the trimmed text; the author is the trimmed name, or absent iff the name is all whitespace |
| CommentSection.SubmittedContentTrimmed | components/CommentSection.tsx:27 | submitted content is non-empty and has no surrounding whitespace |
| CommentSection.ProvisionalAuthor | components/CommentSection.tsx:28 | the provisional comment shows the trimmed name, or `Anonymous` when the name field was blank |
| CommentSection.CommentForm.constructor | components/CommentSection.tsx:17-18 | both fields start empty |
| CommentSection.CommentForm.Submit | components/CommentSection.tsx:21-36 | sends the normalised submission through the cache mutation; the text is cleared only on success; the name is kept; the cache rolls back on failure |
| CommentSection.DiffInSeconds | components/CommentSection.tsx:41 | the result is the floor of the millisecond difference divided by 1000 |
| CommentSection.FormatTimeAgo | components/CommentSection.tsx:38-52 | under 60 s (negatives included) is just now; minutes 1..59, hours 1..23 and days 1..6 in their ranges, each the floor of the difference in its unit; a week or more is a calendar date |
| CommentSection.Render | components/CommentSection.tsx:43-46 | every bucket but the calendar date has a text; under a minute it is `just now`; otherwise it is the count in decimal, without a leading zero and reading back as the count, followed by `m ago`, `h ago` or `d ago` |
| CommentSection.TimeAgoOfTimestamps | components/CommentSection.tsx:40-46 | a timestamp in the future reads as just now; the minutes, hours and days shown are the floor of the millisecond difference divided by 60000, 3600000 and 86400000 |
| CommentSection.TimeAgoMonotone | components/CommentSection.tsx:43-46 | a larger difference never gets a smaller unit, or a smaller count in the same unit |
| CommentSection.MoreComments | components/CommentSection.tsx:56-81 | the line shows iff the preview is non-empty and the count exceeds 3, with N = count - 3 |
| CommentSection.MoreCommentsAfterOptimistic | components/CommentSection.tsx:77-80 | after an optimistic comment, a shown line counts one more |
| PhotoCard.FormatFileSize | components/PhotoCard.tsx:27-31 | B below 1024, KB in [1024, 1048576), MB from 1048576; the amount times the unit is the byte count; KB and MB amounts are at least 1, and B and KB amounts are below 1024 |
| PhotoCard.ByteSizeText | components/PhotoCard.tsx:28 | below 1024 bytes the text is the whole number followed by ` B` |
| PhotoCard.UnitMonotone | components/PhotoCard.tsx:28-30 | the unit never decreases as the byte count grows |
| PhotoCard.CommentLabel | components/PhotoCard.tsx:89 | `comment` iff the count is 1, `comments` otherwise |
| PhotoCard.AltText | components/PhotoCard.tsx:45 | never empty; the title when there is one, otherwise `Photo` |
| PhotoCard.DimensionsAsWritten | components/PhotoCard.tsx:79-83 | the dimensions show iff both are present and non-zero, and then carry the photo's width and height; a stray "0" shows iff the first zero operand is reached |
| PhotoCard.ZeroWidthRendersZero | components/PhotoCard.tsx:79 | width 0 and height 480 render a stray "0" |
| PhotoCard.Dimensions | components/PhotoCard.tsx:79-83 | as intended: shown with both values iff both are present and non-zero, otherwise nothing |
| PhotoCard.DimensionsDifferOnlyByStrayZero | components/PhotoCard.tsx:79-83 | the written and the intended forms differ exactly when the written one leaks the zero |

## Left out

- Network calls (`fetch` in hooks/useAddComment.ts:15-27 and hooks/usePhotos.ts:58-64): each becomes a success flag passed to the method that awaits it. Response parsing and error messages are not modelled.
- Query-key resolution. The mutation reads and writes the key `['photos']` (hooks/useAddComment.ts:30-41). The feed lives under `['photos', sortBy, order]` (hooks/usePhotos.ts:46). The model takes `QueryCache.data` to be the feed's entry and does not model how the query client matches keys. With exact key matching, as `getQueryData` and `setQueryData` do, the code as written finds no data under `['photos']`. `previousData` is then undefined and the updater returns its undefined input, so the feed is not updated. The guard at hooks/useAddComment.ts:64 then skips the restore. So in the code as written neither the optimistic comment nor the rollback reaches the feed. The comment only appears after the refetch in `onSettled`.
- Query-client internals: `cancelQueries` (hooks/useAddComment.ts:30) and the refetch after `invalidateQueries` in `onSettled` (:69-71). After a success the model keeps the optimistic state.
- Clocks: `Date.now()` and `toISOString()` are the parameters `nowMs` and `nowIso`. The difference in `formatTimeAgo` is computed from millisecond inputs. An invalid date (NaN) is not modelled.
- Locale formatting: `toLocaleDateString` for comments a week old or more (`CalendarDate` has no text) and `formatDate` (components/PhotoCard.tsx:19-25).
- Floating-point text: `toFixed(1)` for KB and MB. The model keeps the unit and the exact amount before rounding.
- Serialisation of the parameters into the query string: percent-encoding and `toString`.
- UI-only parts: the `FileReader` read itself (only its result arriving is modelled), `useInView`, JSX layout, styling, `message` toasts, the `imageError` flag of the card, and the 1000-character `maxLength` of the comment text area.
- lib/cloudinary.ts, hooks/useUploadPhoto.ts, app/page.tsx, app/providers.tsx and the server routes are not part of this model. The image store runs the transforms remotely. The upload hook only builds form data. The page and providers are layout and configuration. Pagination, soft-delete and persistence happen on the server.

## Findings

| source | as written | input that shows it | evidently intended | confidence | as-written member | corrected member |
|---|---|---|---|---|---|---|
| components/PhotoCard.tsx:79 | `photo.width && photo.height && <span>` evaluates to the number 0 when a size is 0, and React renders that 0 as text | width 0, height 480: the metadata row shows a lone "0" | render nothing unless both sizes are known and non-zero | low: the image store reports positive sizes, so a 0 is unlikely in practice; not executed | PhotoCard.ZeroWidthRendersZero | PhotoCard.Dimensions |
