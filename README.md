# Post Scribe WordPress Forge: the publishing core in Dafny

Post Scribe generates a blog article for a topic and publishes it to a
WordPress site through the WordPress REST API. This project models the two
services that do that work, and proves properties of the model:

- `src/services/postGenerator.ts` (`generatePost`). It fills a fixed Italian
  template around the topic. It derives five tags and a placeholder image URL
  stamped with the current time. The result is modelled by the pure
  `PostGenerator.GeneratePost`.
- `src/services/wordpressApi.ts`. This file does the following:
  - It normalises the site URL.
  - It discovers the REST root among three candidates.
  - It authenticates with three `Basic` credential variants.
  - It checks publishing rights. When no roles are known, it creates a test
    draft to check them.
  - It lists categories.
  - It resolves tag names to tag ids, creating missing tags.
  - It uploads the featured image.
  - It assembles and sends the post.

The remote site is a class, `Remote.Site`. It holds the tables the REST API
changes (tags, posts, media) and a log of every request, oldest first. How the
site answers each kind of request is fixed by its `Config`.

Each workflow function of `wordpressApi.ts` has two halves:

- a module-level `method` that takes the `Site` and sends its requests
  through the site's methods, with loops that keep their invariants;
- pure specification functions of the configuration and the old state
  (`Discover`, `Authenticate`, `Permission`, `Resolve`, `Publish`, and the
  functions giving the new tables and the requests sent).

Each method's `ensures` ties its result, every table it may change and the
requests it sent to those functions. The lemmas then state what the
functions promise.

Modules:

| file | module | what |
|---|---|---|
| Wrappers.dfy | Wrappers | `Option`, `Result` |
| Text.dfy | Text | JavaScript `\s`, `trim`, `replace(/\s/g,'')`, `replace(/\s+/g,'-')`, ASCII `toLowerCase`, `split(' ')[0]`, `String(n)`, `parseInt` |
| Base64.dfy | Base64 | `btoa` (RFC 4648 section 4 over Latin-1) and its inverse |
| Payload.dfy | Payload | `GeneratedPost`, the post body and its SEO `meta` |
| Remote.dfy | Remote | the WordPress site: stored tables, configured answers, request log |
| WordPressApi.dfy | WordPressApi | URL normalisation, endpoint discovery, authentication |
| Tags.dfy | Tags | `getOrCreateTags` |
| Publisher.dfy | Publisher | permission check, categories, image upload, publication |
| PostGenerator.dfy | PostGenerator | `generatePost` |

## Model

| member | source | states |
|---|---|---|
| Text.RemoveSpacesShape | src/services/wordpressApi.ts:28 | removing `\s` leaves no white space, adds no character, and changes nothing in a string without white space |
| Text.RemoveSpacesAppend | src/services/wordpressApi.ts:28 | a global replace works piecewise over a concatenation |
| Text.TrimStartShape | src/services/wordpressApi.ts:25 | the leading part `trim` drops is all white space; what it keeps is a suffix that does not start with white space |
| Text.TrimEndShape | src/services/wordpressApi.ts:25 | the trailing part `trim` drops is all white space; what it keeps is a prefix that does not end with white space |
| Text.TrimThenRemoveSpaces | src/services/wordpressApi.ts:25-28 | removing all white space after `trim` gives the same string as without the `trim` |
| Text.LowerPointwise | src/services/wordpressApi.ts:327 | `toLowerCase` maps each character on its own and keeps the length |
| Text.LowerIdempotent | src/services/wordpressApi.ts:327 | lower-casing twice is lower-casing once |
| Text.LowerAppend | src/services/wordpressApi.ts:327 | lower-casing distributes over concatenation |
| Text.HyphenateShape | src/services/wordpressApi.ts:343 | `replace(/\s+/g,'-')` leaves no white space, never lengthens, and changes nothing without white space |
| Text.HyphenateRun | src/services/wordpressApi.ts:343 | a maximal run of white space becomes exactly one `-` |
| Text.HyphenateLower | src/services/wordpressApi.ts:343 | hyphenating then lower-casing equals lower-casing then hyphenating |
| Text.FirstWord | src/services/postGenerator.ts:38 | `split(' ')[0]` is a prefix with no space, followed by a space unless it is the whole string |
| Text.NatToString | src/services/postGenerator.ts:46 | the decimal text of a number is a non-empty digit string |
| Text.NatToStringValue | src/services/postGenerator.ts:46 | the digits denote the number written |
| Text.ParseIntNatToString | src/services/wordpressApi.ts:403 | `parseInt` reads back a number's decimal text |
| Text.ParseInt | src/services/wordpressApi.ts:403 | models `parseInt` with no radix: white space, one sign, a `0x` prefix, then the longest digit run; its properties are the two rows below and `Text.DigitPrefix` |
| Text.ParseIntNaN | src/services/wordpressApi.ts:403 | `parseInt` gives `NaN` exactly when no decimal digit follows the white space and sign, or `0x` is followed by no hexadecimal digit |
| Text.DigitPrefix | src/services/wordpressApi.ts:403 | `parseInt` reads the longest digit prefix, which ends at the first non-digit |
| Base64.Btoa | src/services/wordpressApi.ts:105 | `btoa` succeeds exactly on Latin-1 text |
| Base64.Encode | src/services/wordpressApi.ts:105 | the encoding's length is a multiple of four |
| Base64.SextetRoundTrip | src/services/wordpressApi.ts:105 | each 6-bit value's alphabet character reads back as that value |
| Base64.DecodeEncode | src/services/wordpressApi.ts:105 | decoding undoes `btoa` on every Latin-1 string |
| Base64.BtoaInjective | src/services/wordpressApi.ts:105-121 | two credentials with the same `btoa` are equal |
| WordPressApi.DropTrailingSlash | src/services/wordpressApi.ts:36 | at most one trailing `/` is removed, and one always is when present |
| WordPressApi.WithScheme | src/services/wordpressApi.ts:31-33 | `https://` is prefixed exactly when neither scheme starts the string |
| WordPressApi.NormalizeUrl | src/services/wordpressApi.ts:24-40 | models `normalizeUrl`: trim, remove white space, add `https://` when there is no scheme, drop one trailing slash; its properties are the two rows below |
| WordPressApi.NormalizeUrlShape | src/services/wordpressApi.ts:24-40 | the normalised URL has no white space and is the space-free input, with `https://` added when there is no scheme and at most one trailing slash removed |
| WordPressApi.NormalizeUrlScheme | src/services/wordpressApi.ts:24-40 | the normalised URL starts with a scheme exactly when the input has something after its scheme |
| WordPressApi.FirstAccepted | src/services/wordpressApi.ts:53-73 | the index found is accepted, and every earlier candidate is not; none is found exactly when no candidate is accepted |
| WordPressApi.Attempted | src/services/wordpressApi.ts:53-73 | the candidates tried are a prefix of the list |
| WordPressApi.DiscoverOrder | src/services/wordpressApi.ts:43-76 | the first answering REST root among `/wp-json/wp/v2`, `/wp-json`, `/?rest_route=/wp/v2` is chosen; discovery fails exactly when none answers |
| WordPressApi.ProbeInOrder | src/services/wordpressApi.ts:53-73 | probes the URLs in order, stops at the first answer, and logs exactly the URLs tried |
| WordPressApi.TestWordPressEndpoints | src/services/wordpressApi.ts:43-76 | returns `Discover` and sends exactly the probes up to the first answer |
| WordPressApi.Latin1Variants | src/services/wordpressApi.ts:100-125 | Latin-1 credentials give three Latin-1 variants, so `btoa` throws on all or on none |
| WordPressApi.AuthHeaders | src/services/wordpressApi.ts:100-125 | the headers exist exactly when username and password are Latin-1, and are `Basic` plus the base64 of each variant |
| WordPressApi.AuthenticateOrder | src/services/wordpressApi.ts:127-156 | the variants are tried verbatim, trimmed, then with the password's white space removed; the first accepted wins |
| WordPressApi.AuthenticateFailure | src/services/wordpressApi.ts:100-156 | a non-Latin-1 character fails before any request; otherwise authentication fails exactly when all three headers are refused |
| WordPressApi.AuthenticatedHeaderDecodes | src/services/wordpressApi.ts:100-142 | the accepted header is `Basic ` plus text that decodes to one of the three variants |
| WordPressApi.HeaderDecodes | src/services/wordpressApi.ts:105 | a `Basic` header decodes back to its credential |
| WordPressApi.TryHeaders | src/services/wordpressApi.ts:127-154 | sends `/users/me` with each header in turn, stops at the first accepted, and logs exactly those requests |
| WordPressApi.TestAuthentication | src/services/wordpressApi.ts:93-157 | returns the user and the header `Authenticate` picks, or its error, and sends exactly `AuthRequests` |
| Publisher.DecideRule | src/services/wordpressApi.ts:160-273 | discovery and authentication errors pass through; otherwise the check is refused exactly when roles are known and none may publish |
| Publisher.PermissionRule | src/services/wordpressApi.ts:160-273 | the check passes exactly when discovery and authentication succeed and the roles are empty or include a publishing role |
| Publisher.SessionRule | src/services/wordpressApi.ts:167-268 | a passed check carries the discovered endpoint, the accepted header and the user with the roles decided on |
| Publisher.ProbeNeverDecides | src/services/wordpressApi.ts:208-258 | the test draft's answer, 403 included, and whether its deletion works never change the check's outcome |
| Publisher.EmptyRolesAlwaysPass | src/services/wordpressApi.ts:208-258 | with no roles known, an authenticated user always passes and the draft test is made |
| Publisher.DetailedRolesOnlyWhenEmpty | src/services/wordpressApi.ts:181-205 | `/users/{id}` is read, and can matter, only when `/users/me` lists no roles; with roles there is no draft test |
| Publisher.ProbeResidue | src/services/wordpressApi.ts:213-236 | the check leaves at most one post behind, the test draft, exactly when its creation succeeded and its deletion did not |
| Publisher.ReadRoles | src/services/wordpressApi.ts:172-205 | the roles are `/users/me`'s, else a non-empty detailed list; `/users/{id}` is requested only when `/users/me` has none |
| Publisher.ProbeDrafting | src/services/wordpressApi.ts:211-236 | creates the test draft and deletes it when creation succeeded; the posts table changes only when deletion fails |
| Publisher.CheckRoles | src/services/wordpressApi.ts:172-268 | returns `Decide` and leaves the posts as `PostsAfter` says |
| Publisher.CheckFromEndpoint | src/services/wordpressApi.ts:167-268 | after discovery: authentication, then the roles; returns `Decide`, leaves the posts as `PostsAfter` says, and sends exactly `AfterDiscoveryRequests` |
| Publisher.CheckUserPermissions | src/services/wordpressApi.ts:160-273 | returns `Permission`, leaves the posts as `PostsAfterCheck` says, and sends exactly `PermissionRequests` |
| Publisher.CategoryRefs | src/services/wordpressApi.ts:296-299 | one `{id, name}` per category, in order, with its id and name |
| Publisher.ListingRule | src/services/wordpressApi.ts:275-304 | the listing succeeds exactly when the check passes and `/categories` answers 2xx; a failed check is thrown on |
| Publisher.GetWordPressCategories | src/services/wordpressApi.ts:275-304 | returns `CategoryListing`; the only requests are the check's and one `/categories` |
| Publisher.ChosenCategoryIsSent | src/components/WordPressCredentials.tsx:146 | a category picked from the list and passed as `id.toString()` is the post's one category |
| Publisher.MediaFilename | src/services/wordpressApi.ts:474 | models the upload's file name: the title hyphenated, lower-cased, plus `.jpg`; its property is the row below |
| Publisher.MediaFilenameIsSlug | src/services/wordpressApi.ts:474 | the image file name is the title's slug plus `.jpg`, with no white space |
| Publisher.UploadImageToWordPress | src/services/wordpressApi.ts:457-501 | a failed download sends no upload; a 2xx upload adds one media item named from the title, with the title as title and alt text; every other outcome leaves media unchanged |
| Publisher.PublishedTagsExist | src/services/wordpressApi.ts:376-404 | every tag id sent names a tag the site stores after the tag run, and there are no more ids than names |
| Publisher.PublishedImage | src/services/wordpressApi.ts:385-406 | the image is featured exactly when it was downloaded, uploaded with 2xx and got a non-zero id |
| Publisher.PublishWithSession | src/services/wordpressApi.ts:376-450 | runs the tags, the image and the post: the tag table and next id are the tag run's, the media table gains the image exactly when its upload worked, a 2xx answer stores exactly the assembled payload under the next post id, and the requests are the tag run's, the image's and the post's |
| Publisher.PublishToWordPress | src/services/wordpressApi.ts:363-455 | returns `Publish`; a failed check is thrown on with tags and media untouched; otherwise the tag table, media table, next ids and posts are those of the steps after the check, a created post follows the check's residue, and the requests are the check's followed by the tag run's, the image's and the post's |
| Publisher.PublishPassed | src/services/wordpressApi.ts:373-450 | after a passed check, the outcome, the tag table, the media table and the requests are those of the steps that follow it |
| Tags.Slug | src/services/wordpressApi.ts:343 | a tag slug has no white space and is no longer than the name |
| Tags.SlugStable | src/services/wordpressApi.ts:343 | a slug is its own slug |
| Tags.Find | src/services/wordpressApi.ts:326-328 | the match is the first tag whose name is equal ignoring case; none exactly when no name matches |
| Tags.FindExtend | src/services/wordpressApi.ts:326-328 | appending tags does not change an existing first match |
| Tags.FindAppended | src/services/wordpressApi.ts:326-350 | a created tag is found by its name next time |
| Tags.ResolveGrows | src/services/wordpressApi.ts:316-358 | the tag table, ids and requests only grow; every new tag's id lies between the old and the new next id; no more ids than names are collected |
| Tags.Step | src/services/wordpressApi.ts:317-357 | models one iteration: a thrown search skips the name, a 2xx search with a match reuses its id, otherwise the tag is created and its id kept when creation succeeds; its properties are `StepFinds`, `StepExisting` and `StepFails` |
| Tags.Resolve | src/services/wordpressApi.ts:316-358 | models the loop over the names, one `Step` each, in order; its properties are the `Resolve*`, `SkipFailed` and `Idempotent` rows |
| Tags.IdsAreKnown | src/services/wordpressApi.ts:316-358 | every collected id is the id of a stored tag |
| Tags.StepFinds | src/services/wordpressApi.ts:317-354 | when the site answers, one name yields exactly one id, that of its first match, created if missing |
| Tags.StepFails | src/services/wordpressApi.ts:338-357 | a name whose search throws, or whose creation fails with no match to reuse, leaves the table, next id and ids unchanged |
| Tags.SkipFailed | src/services/wordpressApi.ts:316-358 | a name whose request fails is skipped and nothing else changes: the tag table, next id and ids equal those of the run without that name |
| Tags.OnlyFailedOmitted | src/services/wordpressApi.ts:316-358 | when every other name is answered, a failing name costs only its own id: one id per other name, in order, each the id of that name's match |
| Tags.ResolveFinds | src/services/wordpressApi.ts:306-361 | when the site answers every request, each name gets exactly one id, in order, the id of its match in the final table |
| Tags.ResolveExisting | src/services/wordpressApi.ts:316-335 | against a table holding every name, nothing is created and the ids are those of the matches |
| Tags.Idempotent | src/services/wordpressApi.ts:306-361 | resolving the same names twice creates nothing the second time and returns the same ids |
| Tags.CaseVariantsShareTag | src/services/wordpressApi.ts:326-328 | `AI`, `ai`, `Guide` on an empty site create two tags and return ids 1, 1, 2 |
| Tags.ResolveOne | src/services/wordpressApi.ts:317-357 | one iteration against the site: the table, next id, collected id and requests are those of `Step` |
| Tags.GetOrCreateTags | src/services/wordpressApi.ts:306-361 | the site's table, next id and the returned ids are those of `Resolve`, and the requests sent are its requests |
| Payload.BuildPayload | src/services/wordpressApi.ts:394-432 | models the `postData` object; its properties are the `Payload` lemmas below |
| Payload.BuildMeta | src/services/wordpressApi.ts:407-431 | models the `meta` object; its properties are `YoastFields`, `AioseoFallback`, `AioseoOverrides`, `EmptyIsMissing` and `KeywordRule` |
| Payload.OrElse | src/services/wordpressApi.ts:413-419 | `a \|\| b` yields `a` when it is a non-empty string, else `b` |
| Payload.PayloadCarriesPost | src/services/wordpressApi.ts:398-404 | the title, content, excerpt and tag ids are sent unchanged |
| Payload.StatusRule | src/services/wordpressApi.ts:395-396 | status is `future` exactly for a date later than now, else `publish` |
| Payload.DateAlwaysSent | src/services/wordpressApi.ts:405 | a given date is sent even when it is past and the status is `publish` |
| Payload.NoDateWithoutPublishDate | src/services/wordpressApi.ts:405 | no date key without a date |
| Payload.CategoryRule | src/services/wordpressApi.ts:403 | at most one category; none for an empty id; the number itself for a decimal id |
| Payload.CategoryNaN | src/services/wordpressApi.ts:403 | a non-empty category id `parseInt` cannot read is still sent, as the one category `null` |
| Payload.FeaturedMediaRule | src/services/wordpressApi.ts:406 | `featured_media` is sent exactly for a non-zero id |
| Payload.YoastFields | src/services/wordpressApi.ts:409-410 | the Yoast fields carry the SEO title and meta description |
| Payload.AioseoFallback | src/services/wordpressApi.ts:413-419 | with missing or empty AIOSEO fields, every AIOSEO, Open Graph and Twitter field falls back to the legacy text |
| Payload.AioseoOverrides | src/services/wordpressApi.ts:413-419 | non-empty AIOSEO fields win everywhere |
| Payload.EmptyIsMissing | src/services/wordpressApi.ts:413-423 | empty AIOSEO strings give the same meta as missing ones |
| Payload.KeywordRule | src/services/wordpressApi.ts:415-430 | keywords and the single keyphrase (score 100) are the focus keyphrase, else the first tag, else empty |
| PostGenerator.GeneratePost | src/services/postGenerator.ts:2-57 | models `generatePost` for a topic and the moment `now`; its properties are the rows below |
| PostGenerator.TitlesStartWithTopic | src/services/postGenerator.ts:9-10 | both titles start with the topic and differ |
| PostGenerator.TextsMentionTopic | src/services/postGenerator.ts:12-35 | the body, the excerpt and the meta description mention the topic |
| PostGenerator.TopicTagsShape | src/services/postGenerator.ts:37-43 | five tags: the topic's first word lower-cased (a space-free lower-case prefix of the lower-cased topic, the whole of a one-word topic), then `guida`, `consigli`, `2024`, `informazioni` |
| PostGenerator.ImageUrlRoundTrip | src/services/postGenerator.ts:46 | the image URL is the picsum base followed by the time, which reads back |
| PostGenerator.ImageUrlsDiffer | src/services/postGenerator.ts:46 | different moments give different image URLs |
| PostGenerator.GeneratedMeta | src/services/postGenerator.ts:48-56 | a generated post publishes with the SEO fields falling back to its texts and the first tag as keyword |
| Remote.Site.Get | src/services/wordpressApi.ts:56-68 | an unauthenticated GET answers exactly for a live URL and is logged |
| Remote.Site.ReadMe | src/services/wordpressApi.ts:132-142 | `/users/me` returns the user exactly for an accepted header |
| Remote.Site.ReadUser | src/services/wordpressApi.ts:186-201 | `/users/{id}` answers with the configured detailed roles, or none, and is logged |
| Remote.Site.CreateDraft | src/services/wordpressApi.ts:213-227 | a 2xx draft creation stores the draft under the next id |
| Remote.Site.DeletePost | src/services/wordpressApi.ts:229-232 | a working delete removes exactly that post |
| Remote.Site.ListCategories | src/services/wordpressApi.ts:282-293 | `/categories` answers as configured with the stored categories, and is logged |
| Remote.Site.SearchTags | src/services/wordpressApi.ts:319-325 | the tag search throws, is refused or returns the table |
| Remote.Site.CreateTag | src/services/wordpressApi.ts:338-350 | a 2xx creation stores the tag with its slug under the next id |
| Remote.Site.Download | src/services/wordpressApi.ts:466-469 | the image download succeeds exactly for a downloadable URL, and is logged |
| Remote.Site.UploadMedia | src/services/wordpressApi.ts:483-496 | a 2xx upload stores the media item under the next id |
| Remote.Site.CreatePost | src/services/wordpressApi.ts:436-448 | a 2xx creation stores the payload under the next id |
| Remote.WithoutAbsent | src/services/wordpressApi.ts:229-232 | deleting an id no post has changes nothing |

## Left out

- Console logging, the `Content-Type` headers and the error text of thrown
  messages are not modelled. Errors are the `Failure` values.
- JSON bodies are not parsed. Each reply is a 2xx with a body, a non-2xx
  status, or no reply when `fetch` or `json()` throws (`Remote.Reply`). A
  non-2xx answer whose `json()` throws (for example at
  `src/services/wordpressApi.ts:443`) ends as the same failure as the status
  alone.
- Remote.Site.CreatePost: a 2xx answer whose `json()` throws is read as
  `NoResponse`, so the model stores no post although the server created one
  (publication throws at `src/services/wordpressApi.ts:448`). The same holds
  for the test draft (line 227; the draft is then not deleted), a created tag
  (line 348) and an uploaded image (line 494). The model's tables hold only
  what the source saw acknowledged.
- The REST site is a stand-in driven by a fixed `Config`. The network,
  timing and concurrent changes to the site are not modelled.
- Remote.Site.SearchTags: returns the whole tag table. WordPress's `search`
  filtering and pagination are not modelled. Matching is then done by
  `existingTags.find` as in the source. `encodeURIComponent` of the term is
  not modelled.
- Text.Lower: `toLowerCase` lower-cases the ASCII letters only. Unicode case
  mapping is not modelled.
- Text.ParseInt: reads arbitrarily large numbers exactly. JavaScript's
  rounding above 2^53 is not modelled.
- The `publishDate` and `Date.now()` values are integer parameters (`now`,
  milliseconds). `new Date()`, `toISOString` and invalid dates are not
  modelled, and the date is sent as that number.
- `checkWordPressSiteConnectivity` only logs and rethrows. It is folded
  into `TestWordPressEndpoints`.
- The `setTimeout` delay and the log line in `generatePost` are left out.
- `GeneratedPost.aioseoTags` is carried but never read, as in the source.
- Publisher.UploadImageToWordPress: the image `Blob` and the `FormData`
  encoding are not modelled. The upload is a `MediaItem` with file name,
  title and alt text, sent with the `Authorization` value only.
- The React pages, the saved-sites service (Supabase) and the other
  components are not part of this model. `WordPressCredentials.tsx` is only
  used to state how a chosen category id reaches the post.
