/** The mobile news card's local copy of the card formatter. */
module MobileNewsCard {
  import opened Text
  import opened News
  import NewsCardUtils

  /** `formatContent`: the same four text fields, computed from the same
      limits 120 and 80 (the date field is not part of this model). */
  function FormatContent(news: NewsItem): (r: NewsCardUtils.CardText)
    ensures |news.summary| <= 120 ==> r.formattedSummary == news.summary
    ensures |news.summary| > 120 ==> r.formattedSummary == news.summary[..120] + "..."
    ensures |news.title| <= 80 ==> r.titleText == news.title
    ensures |news.title| > 80 ==> r.titleText == news.title[..80] + "..."
    ensures |r.formattedSummary| <= 123 && |r.titleText| <= 83
    ensures r.categoryText == ToUpperCase(news.category)
    ensures r.sourceText == news.source
  {
    NewsCardUtils.CardText(
      if |news.summary| > 120 then news.summary[..120] + "..." else news.summary,
      ToUpperCase(news.category),
      news.source,
      if |news.title| > 80 then news.title[..80] + "..." else news.title)
  }

  /** The local copy and the shared formatter agree on every item. */
  lemma FormatContentMatchesShared(news: NewsItem)
    ensures FormatContent(news) == NewsCardUtils.FormatNewsCardContent(news)
  {
  }
}
