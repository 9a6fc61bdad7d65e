/** The news items the client lists, filters, bookmarks and likes. */
module NewsItems {
  /**
   * A news item: the hash that keys it in the bookmark store, its categories
   * and its publication date as sent by the server; the other fields are
   * carried along unchanged.
   */
  datatype NewsItem = NewsItem(itemHash: string, categories: seq<string>, published: string,
                               details: map<string, string>)
}
