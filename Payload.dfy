/** The post record handed to the publisher and the JSON body the publisher
    submits to `POST {endpoint}/posts`, built by a pure function. */
module Payload {
  import opened Wrappers
  import opened Text

  /** The generated article. The four AIOSEO fields are optional: None is
      JavaScript's `undefined`. */
  datatype GeneratedPost = GeneratedPost(
    title: string,
    content: string,
    excerpt: string,
    seoTitle: string,
    metaDescription: string,
    tags: seq<string>,
    imageUrl: string,
    aioseoTitle: Option<string>,
    aioseoDescription: Option<string>,
    focusKeyphrase: Option<string>,
    aioseoTags: Option<seq<string>>)

  /** The `status` sent with the post: published at once, or scheduled. */
  datatype Status = Publish | Future

  /** One entry of the `_aioseo_keyphrases` array; the field holds the
      `JSON.stringify` of a one-entry array, kept here as its structure. */
  datatype Keyphrase = Keyphrase(
    keyphrase: string,
    score: int,
    basicActive: bool,
    titleActive: bool,
    descriptionActive: bool)

  /** The `meta` object: the Yoast fields and the AIOSEO fields. */
  datatype Meta = Meta(
    yoastTitle: string,
    yoastMetadesc: string,
    aioseoTitle: string,
    aioseoDescription: string,
    aioseoKeywords: string,
    ogTitle: string,
    ogDescription: string,
    twitterTitle: string,
    twitterDescription: string,
    keyphrases: seq<Keyphrase>)

  /** The body of the post creation request. `categories` holds the numbers
      `parseInt` produced (None is `NaN`, which JSON writes as `null`); `date`
      is the requested instant in milliseconds, written by `toISOString`; an
      absent optional field is a key the object does not have. */
  datatype PostPayload = PostPayload(
    title: string,
    content: string,
    excerpt: string,
    status: Status,
    categories: seq<Option<int>>,
    tags: seq<nat>,
    date: Option<int>,
    featuredMedia: Option<nat>,
    meta: Meta)

  /** JavaScript `a || b` where `a` is an optional string: both `undefined`
      and the empty string are falsy. */
  function OrElse(a: Option<string>, b: string): (r: string)
    ensures a.Some? && a.value != "" ==> r == a.value
    ensures a.None? || a.value == "" ==> r == b
  {
    if a.Some? && a.value != "" then a.value else b
  }

  /** `post.tags[0]`, which is `undefined` for an empty list. */
  function FirstTag(tags: seq<string>): (r: Option<string>)
    ensures r.Some? <==> tags != []
    ensures r.Some? ==> r.value == tags[0]
  {
    if tags == [] then None else Some(tags[0])
  }

  /** `post.focusKeyphrase || post.tags[0] || ''` */
  function Keyword(post: GeneratedPost): string {
    OrElse(post.focusKeyphrase, OrElse(FirstTag(post.tags), ""))
  }

  function BuildMeta(post: GeneratedPost): Meta {
    Meta(
      yoastTitle := post.seoTitle,
      yoastMetadesc := post.metaDescription,
      aioseoTitle := OrElse(post.aioseoTitle, post.seoTitle),
      aioseoDescription := OrElse(post.aioseoDescription, post.metaDescription),
      aioseoKeywords := Keyword(post),
      ogTitle := OrElse(post.aioseoTitle, post.title),
      ogDescription := OrElse(post.aioseoDescription, post.excerpt),
      twitterTitle := OrElse(post.aioseoTitle, post.title),
      twitterDescription := OrElse(post.aioseoDescription, post.excerpt),
      keyphrases := [Keyphrase(Keyword(post), 100, true, true, true)])
  }

  /** `publishDate && publishDate > new Date()` */
  predicate IsScheduled(publishDate: Option<int>, now: int) {
    publishDate.Some? && publishDate.value > now
  }

  /** `categoryId ? [parseInt(categoryId)] : []` */
  function Categories(categoryId: string): seq<Option<int>> {
    if categoryId == "" then [] else [ParseInt(categoryId)]
  }

  /** `featuredMediaId && { featured_media: featuredMediaId }`: the upload's id
      is dropped when it is missing or 0. */
  function FeaturedMedia(mediaId: Option<nat>): Option<nat> {
    if mediaId.Some? && mediaId.value != 0 then mediaId else None
  }

  /** The `postData` object assembled before the final request. */
  function BuildPayload(post: GeneratedPost, categoryId: string, publishDate: Option<int>,
                        now: int, tagIds: seq<nat>, mediaId: Option<nat>): PostPayload
  {
    PostPayload(
      title := post.title,
      content := post.content,
      excerpt := post.excerpt,
      status := if IsScheduled(publishDate, now) then Future else Publish,
      categories := Categories(categoryId),
      tags := tagIds,
      date := publishDate,
      featuredMedia := FeaturedMedia(mediaId),
      meta := BuildMeta(post))
  }

  /** The article's own text and the resolved tag ids are sent unchanged. */
  lemma PayloadCarriesPost(post: GeneratedPost, categoryId: string, publishDate: Option<int>,
                           now: int, tagIds: seq<nat>, mediaId: Option<nat>)
    ensures var p := BuildPayload(post, categoryId, publishDate, now, tagIds, mediaId);
      p.title == post.title && p.content == post.content && p.excerpt == post.excerpt &&
      p.tags == tagIds
  {
  }

  /** The post is scheduled exactly when a date later than now is given;
      otherwise it is published at once. */
  lemma StatusRule(post: GeneratedPost, categoryId: string, publishDate: Option<int>,
                   now: int, tagIds: seq<nat>, mediaId: Option<nat>)
    ensures var p := BuildPayload(post, categoryId, publishDate, now, tagIds, mediaId);
      (p.status == Future <==> publishDate.Some? && publishDate.value > now) &&
      (p.status == Publish <==> publishDate.None? || publishDate.value <= now)
  {
  }

  /** The `date` key is sent whenever a date is given, also when that date is
      not in the future and the status is therefore `publish`. */
  lemma DateAlwaysSent(post: GeneratedPost, categoryId: string, d: int,
                       now: int, tagIds: seq<nat>, mediaId: Option<nat>)
    requires d <= now
    ensures var p := BuildPayload(post, categoryId, Some(d), now, tagIds, mediaId);
      p.status == Publish && p.date == Some(d)
  {
  }

  /** Without a date there is no `date` key. */
  lemma NoDateWithoutPublishDate(post: GeneratedPost, categoryId: string,
                                 now: int, tagIds: seq<nat>, mediaId: Option<nat>)
    ensures var p := BuildPayload(post, categoryId, None, now, tagIds, mediaId);
      p.status == Publish && p.date.None?
  {
  }

  /** At most one category: none for an empty id, and the number the id's
      text denotes otherwise. */
  lemma CategoryRule(categoryId: string, n: nat)
    ensures |Categories(categoryId)| <= 1
    ensures Categories(categoryId) == [] <==> categoryId == ""
    ensures Categories(NatToString(n)) == [Some(n)]
  {
    ParseIntNatToString(n);
  }

  /** A non-empty category id that `parseInt` cannot read, such as `abc` or
      ` -x`, is still sent, as the one category `null`. */
  lemma CategoryNaN(categoryId: string)
    requires categoryId != ""
    requires var u := Unsigned(categoryId); u == [] || !IsDigit(u[0])
    ensures Categories(categoryId) == [None]
  {
    ParseIntNaN(categoryId);
  }

  /** `featured_media` is present exactly when the upload gave a non-zero id,
      and then it is that id. */
  lemma FeaturedMediaRule(mediaId: Option<nat>)
    ensures FeaturedMedia(mediaId).Some? <==> mediaId.Some? && mediaId.value != 0
    ensures FeaturedMedia(mediaId).Some? ==> FeaturedMedia(mediaId) == mediaId
  {
  }

  /** The Yoast fields always carry the legacy SEO title and description. */
  lemma YoastFields(post: GeneratedPost)
    ensures BuildMeta(post).yoastTitle == post.seoTitle
    ensures BuildMeta(post).yoastMetadesc == post.metaDescription
  {
  }

  /** With no usable AIOSEO title or description (missing or empty), every
      AIOSEO title and description field falls back to the legacy one. */
  lemma AioseoFallback(post: GeneratedPost)
    requires post.aioseoTitle.None? || post.aioseoTitle == Some("")
    requires post.aioseoDescription.None? || post.aioseoDescription == Some("")
    ensures var m := BuildMeta(post);
      m.aioseoTitle == post.seoTitle && m.aioseoDescription == post.metaDescription &&
      m.ogTitle == post.title && m.twitterTitle == post.title &&
      m.ogDescription == post.excerpt && m.twitterDescription == post.excerpt
  {
  }

  /** A non-empty AIOSEO title or description wins over every fallback. */
  lemma AioseoOverrides(post: GeneratedPost, t: string, d: string)
    requires t != "" && d != ""
    requires post.aioseoTitle == Some(t) && post.aioseoDescription == Some(d)
    ensures var m := BuildMeta(post);
      m.aioseoTitle == t && m.ogTitle == t && m.twitterTitle == t &&
      m.aioseoDescription == d && m.ogDescription == d && m.twitterDescription == d
  {
  }

  /** An empty AIOSEO field produces the same meta object as a missing one. */
  lemma EmptyIsMissing(post: GeneratedPost)
    ensures BuildMeta(post.(aioseoTitle := Some(""), aioseoDescription := Some(""),
                            focusKeyphrase := Some("")))
         == BuildMeta(post.(aioseoTitle := None, aioseoDescription := None,
                            focusKeyphrase := None))
  {
  }

  /** The keywords field and the keyphrase both hold the focus keyphrase, else
      the first tag, else the empty string. */
  lemma KeywordRule(post: GeneratedPost)
    ensures var m := BuildMeta(post);
      m.aioseoKeywords == Keyword(post) &&
      |m.keyphrases| == 1 && m.keyphrases[0].keyphrase == Keyword(post) &&
      m.keyphrases[0].score == 100
    ensures post.focusKeyphrase.Some? && post.focusKeyphrase.value != "" ==>
      Keyword(post) == post.focusKeyphrase.value
    ensures (post.focusKeyphrase.None? || post.focusKeyphrase == Some("")) ==>
      Keyword(post) == (if post.tags == [] then "" else post.tags[0])
  {
  }
}
