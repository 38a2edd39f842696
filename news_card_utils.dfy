/** The text a news card shows, derived from one news item: a shortened
    summary and title, the category in capitals and the source as it is. */
module NewsCardUtils {
  import opened Text
  import opened News

  /** Characters of summary shown before the ellipsis. */
  const SummaryLimit: nat := 120
  /** Characters of title shown before the ellipsis. */
  const TitleLimit: nat := 80

  datatype CardText = CardText(
    formattedSummary: string,
    categoryText: string,
    sourceText: string,
    titleText: string)

  /** The card's text fields (the date field is not part of this model). */
  function FormatNewsCardContent(news: NewsItem): (r: CardText)
    ensures |news.summary| <= SummaryLimit ==> r.formattedSummary == news.summary
    ensures |news.summary| > SummaryLimit ==>
              |r.formattedSummary| == SummaryLimit + 3
              && r.formattedSummary == news.summary[..SummaryLimit] + "..."
    ensures StartsWith(news.summary, r.formattedSummary[..if |news.summary| <= SummaryLimit then |news.summary| else SummaryLimit])
    ensures |news.title| <= TitleLimit ==> r.titleText == news.title
    ensures |news.title| > TitleLimit ==> r.titleText == news.title[..TitleLimit] + "..."
    ensures |r.titleText| <= TitleLimit + 3
    ensures |r.categoryText| == |news.category|
    ensures forall i :: 0 <= i < |news.category| ==> r.categoryText[i] == UpperChar(news.category[i])
    ensures r.sourceText == news.source
  {
    CardText(
      Truncate(news.summary, SummaryLimit),
      ToUpperCase(news.category),
      news.source,
      Truncate(news.title, TitleLimit))
  }

  /** Formatting is stable: a card built from an item whose summary, title
      and category already are the card's text shows that same text. */
  lemma FormatIsStable(news: NewsItem)
    ensures var c := FormatNewsCardContent(news);
            var again := FormatNewsCardContent(news.(summary := c.formattedSummary, title := c.titleText, category := c.categoryText));
            again == c
  {
    var c := FormatNewsCardContent(news);
    TruncateIdempotent(news.summary, SummaryLimit);
    TruncateIdempotent(news.title, TitleLimit);
    ToUpperCaseIdempotent(news.category);
  }
}
