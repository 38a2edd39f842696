/** The news record every client shares: one story of the feed. */
module News {
  datatype NewsItem = NewsItem(
    id: string,
    title: string,
    summary: string,
    imageUrl: string,
    source: string,
    category: string,
    pubDate: string,
    url: string)
}
