/** Content records the card and story views render: copied fields plus the
    fixed attribution lines. */
module Patterns {
  import opened News
  import opened Text

  const AttributionLine1: string := "Summarized News Story by"
  const AttributionLine2: string := "The Gist - AI News App"
  /** The separator between source and category, character for character as
      the source file holds it: a space, U+00E2, U+20AC, U+00A2, a space
      (the UTF-8 bytes of a bullet read back as Windows-1252). */
  const MetadataSeparator: string := " \U{E2}\U{20AC}\U{A2} "

  datatype Attribution = Attribution(line1: string, line2: string, metadata: string)
  datatype NewsCardContent = NewsCardContent(title: string, summary: string, attribution: Attribution)

  datatype StoryHeader = StoryHeader(source: string, showMenu: bool, showClose: bool)
  datatype CardAttribution = CardAttribution(line1: string, line2: string)
  datatype StoryCard = StoryCard(title: string, summary: string, attribution: CardAttribution)
  datatype StoryActions = StoryActions(showLike: bool, showFollow: bool, showShare: bool)
  datatype StoryContent = StoryContent(header: StoryHeader, card: StoryCard, actions: StoryActions)

  /** The card content: title and summary unshortened, the two attribution
      lines, and `source • category` as metadata. */
  function FormatNewsCardContent(news: NewsItem): (r: NewsCardContent)
    ensures r.title == news.title && r.summary == news.summary
    ensures r.attribution.line1 == AttributionLine1 && r.attribution.line2 == AttributionLine2
    ensures StartsWith(r.attribution.metadata, news.source + MetadataSeparator)
    ensures EndsWith(r.attribution.metadata, news.category)
    ensures |r.attribution.metadata| == |news.source| + |MetadataSeparator| + |news.category|
  {
    NewsCardContent(
      news.title,
      news.summary,
      Attribution(AttributionLine1, AttributionLine2, news.source + MetadataSeparator + news.category))
  }

  /** For sources of one length the metadata line tells source and category
      apart: equal metadata means equal source and equal category. */
  lemma MetadataDeterminesSourceAndCategory(a: NewsItem, b: NewsItem)
    requires |a.source| == |b.source|
    requires FormatNewsCardContent(a).attribution.metadata == FormatNewsCardContent(b).attribution.metadata
    ensures a.source == b.source && a.category == b.category
  {
    var m := FormatNewsCardContent(a).attribution.metadata;
    var k := |a.source|;
    var sep := |MetadataSeparator|;
    assert a.source == m[..k] == b.source;
    assert a.category == m[k + sep..] == b.category;
  }

  /** The story content: the source in the header with menu and close shown,
      title and summary with the two attribution lines, every action shown. */
  function FormatStoryContent(news: NewsItem): (r: StoryContent)
    ensures r.header.source == news.source && r.header.showMenu && r.header.showClose
    ensures r.card.title == news.title && r.card.summary == news.summary
    ensures r.card.attribution.line1 == AttributionLine1 && r.card.attribution.line2 == AttributionLine2
    ensures r.actions.showLike && r.actions.showFollow && r.actions.showShare
  {
    StoryContent(
      StoryHeader(news.source, true, true),
      StoryCard(news.title, news.summary, CardAttribution(AttributionLine1, AttributionLine2)),
      StoryActions(true, true, true))
  }

  /** A story and a card built from one item show the same title, summary
      and attribution lines. */
  lemma StoryAgreesWithCard(news: NewsItem)
    ensures var s := FormatStoryContent(news);
            var c := FormatNewsCardContent(news);
            s.card.title == c.title && s.card.summary == c.summary
            && s.card.attribution.line1 == c.attribution.line1
            && s.card.attribution.line2 == c.attribution.line2
  {
  }
}
