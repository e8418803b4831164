/** `generatePost` of `src/services/postGenerator.ts`: the simulated article
    generator. Every text is a fixed Italian template around the topic; the
    tags are the topic's first word, lower-cased, and four fixed words; the
    image is a placeholder whose URL carries the current time. */
module PostGenerator {
  import opened Wrappers
  import opened Text
  import opened Payload

  const TitleSuffix: string := ": Guida Completa e Consigli Utili"
  const SeoTitleSuffix: string := " - Tutto quello che devi sapere nel 2024"

  /** The five pieces of the article body between the four mentions of the topic. */
  const Body0: string :=
    "\n    <h2>Introduzione</h2>\n    <p>In questo articolo esploreremo a fondo il tema di <strong>"
  const Body1: string :=
    "</strong>, fornendo informazioni complete e aggiornate per aiutarti a comprendere meglio " +
    "questo argomento.</p>\n    \n    <h2>Cosa devi sapere su "
  const Body2: string :=
    "</h2>\n    <p>Lorem ipsum dolor sit amet, consectetur adipiscing elit. Sed do eiusmod tempor " +
    "incididunt ut labore et dolore magna aliqua. Ut enim ad minim veniam, quis nostrud " +
    "exercitation ullamco laboris.</p>\n    \n    <h3>Punti chiave:</h3>\n    <ul>\n      " +
    "<li>Primo punto importante riguardo "
  const Body3: string :=
    "</li>\n      <li>Secondo aspetto fondamentale da considerare</li>\n      <li>Terzo elemento " +
    "che fa la differenza</li>\n    </ul>\n    \n    <h2>Benefici e Vantaggi</h2>\n    <p>Duis " +
    "aute irure dolor in reprehenderit in voluptate velit esse cillum dolore eu fugiat nulla " +
    "pariatur. Excepteur sint occaecat cupidatat non proident.</p>\n    \n    " +
    "<h2>Conclusioni</h2>\n    <p>In conclusione, "
  const Body4: string :=
    " rappresenta un aspetto importante che merita la nostra attenzione. Speriamo che questa " +
    "guida ti sia stata utile per approfondire l'argomento.</p>\n  "

  const ExcerptHead: string := "Scopri tutto quello che c'\U{E8} da sapere su "
  const ExcerptTail: string := " con la nostra guida completa. Consigli pratici e informazioni aggiornate."
  const DescriptionHead: string := "Guida completa su "
  const DescriptionTail: string :=
    ". Scopri benefici, consigli pratici e tutto quello che devi sapere. Informazioni aggiornate " +
    "e affidabili."

  /** The fixed tags that follow the topic's first word. */
  const FixedTags: seq<string> := ["guida", "consigli", "2024", "informazioni"]

  const ImageBase: string := "https://picsum.photos/800/400?random="

  function Title(topic: string): string {
    topic + TitleSuffix
  }

  function SeoTitle(topic: string): string {
    topic + SeoTitleSuffix
  }

  function Content(topic: string): string {
    Body0 + (topic + (Body1 + (topic + (Body2 + (topic + (Body3 + (topic + Body4)))))))
  }

  function Excerpt(topic: string): string {
    ExcerptHead + (topic + ExcerptTail)
  }

  function MetaDescription(topic: string): string {
    DescriptionHead + (topic + DescriptionTail)
  }

  /** `topic.split(' ')[0].toLowerCase()` followed by the fixed tags. */
  function TopicTags(topic: string): seq<string> {
    [Lower(FirstWord(topic))] + FixedTags
  }

  /** The placeholder image for the moment `now`, in milliseconds since the epoch. */
  function ImageUrl(now: nat): string {
    ImageBase + NatToString(now)
  }

  /** The generated article; the AIOSEO fields are left unset. */
  function GeneratePost(topic: string, now: nat): GeneratedPost {
    GeneratedPost(
      title := Title(topic),
      content := Content(topic),
      excerpt := Excerpt(topic),
      seoTitle := SeoTitle(topic),
      metaDescription := MetaDescription(topic),
      tags := TopicTags(topic),
      imageUrl := ImageUrl(now),
      aioseoTitle := None,
      aioseoDescription := None,
      focusKeyphrase := None,
      aioseoTags := None)
  }

  /** `w` occurs in `s`. */
  predicate Mentions(s: string, w: string) {
    exists i :: 0 <= i <= |s| && StartsWith(s[i..], w)
  }

  lemma MentionsMiddle(a: string, w: string, b: string)
    ensures Mentions(a + (w + b), w)
  {
    var s := a + (w + b);
    assert s[|a|..] == w + b;
    assert (w + b)[..|w|] == w;
  }

  /** Both titles start with the topic, and they differ right after it. */
  lemma TitlesStartWithTopic(topic: string)
    ensures StartsWith(Title(topic), topic) && StartsWith(SeoTitle(topic), topic)
    ensures Title(topic) != SeoTitle(topic)
  {
    assert Title(topic)[..|topic|] == topic;
    assert SeoTitle(topic)[..|topic|] == topic;
    assert Title(topic)[|topic|] == ':' && SeoTitle(topic)[|topic|] == ' ';
  }

  /** The body, the excerpt and the meta description each mention the topic. */
  lemma TextsMentionTopic(topic: string)
    ensures Mentions(Content(topic), topic)
    ensures Mentions(Excerpt(topic), topic)
    ensures Mentions(MetaDescription(topic), topic)
  {
    MentionsMiddle(Body0, topic, Body1 + (topic + (Body2 + (topic + (Body3 + (topic + Body4))))));
    MentionsMiddle(ExcerptHead, topic, ExcerptTail);
    MentionsMiddle(DescriptionHead, topic, DescriptionTail);
  }

  /** No upper-case ASCII letter. */
  predicate NoUpper(s: string) {
    forall i :: 0 <= i < |s| ==> !('A' <= s[i] <= 'Z')
  }

  /** Five tags: the topic's first word, lower-cased, then the fixed four. The
      first is a lower-cased prefix of the topic without a space; for a
      one-word topic it is the whole topic, lower-cased. */
  lemma TopicTagsShape(topic: string)
    ensures var tags := TopicTags(topic);
      |tags| == 5 && tags[1..] == ["guida", "consigli", "2024", "informazioni"] &&
      ' ' !in tags[0] && NoUpper(tags[0]) && StartsWith(Lower(topic), tags[0]) &&
      (' ' !in topic ==> tags[0] == Lower(topic))
  {
    var w := FirstWord(topic);
    var first := Lower(w);
    LowerPointwise(w);
    assert forall i :: 0 <= i < |w| ==> first[i] != ' ' by {
      forall i | 0 <= i < |w| ensures first[i] != ' ' {
        assert w[i] in w;
      }
    }
    assert topic == w + topic[|w|..];
    LowerAppend(w, topic[|w|..]);
    assert Lower(topic)[..|first|] == first;
    if ' ' !in topic {
      assert w == topic;
    }
  }

  /** The image URL is the fixed base followed by the time, which `parseInt`
      reads back, so different moments give different URLs. */
  lemma ImageUrlRoundTrip(now: nat)
    ensures StartsWith(ImageUrl(now), ImageBase)
    ensures ParseInt(ImageUrl(now)[|ImageBase|..]) == Some(now)
  {
    var u := ImageUrl(now);
    assert u[..|ImageBase|] == ImageBase;
    assert u[|ImageBase|..] == NatToString(now);
    ParseIntNatToString(now);
  }

  lemma ImageUrlsDiffer(a: nat, b: nat)
    requires a != b
    ensures ImageUrl(a) != ImageUrl(b)
  {
    ImageUrlRoundTrip(a);
    ImageUrlRoundTrip(b);
  }

  /** With the AIOSEO fields unset, the SEO metadata sent with the post falls
      back to the generated texts, and the keyword is the first tag. */
  lemma GeneratedMeta(topic: string, now: nat)
    ensures var p := GeneratePost(topic, now);
      var m := BuildMeta(p);
      m.yoastTitle == p.seoTitle && m.yoastMetadesc == p.metaDescription &&
      m.aioseoTitle == p.seoTitle && m.aioseoDescription == p.metaDescription &&
      m.ogTitle == p.title && m.twitterTitle == p.title &&
      m.ogDescription == p.excerpt && m.twitterDescription == p.excerpt &&
      m.aioseoKeywords == p.tags[0] && Keyword(p) == p.tags[0]
  {
    var p := GeneratePost(topic, now);
    AioseoFallback(p);
    KeywordRule(p);
  }
}
