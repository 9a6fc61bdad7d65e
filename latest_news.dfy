/**
 * The route handling of the latest-news screen
 * (app/src/screen/news/LatestNewsScreen.tsx): the `category` and `time`
 * parameters become the filter hook's initial state, the loaded pages become
 * one list, and the next page is fetched only when there is one and no fetch
 * is running.
 */
module LatestNews {
  import opened Wrappers
  import opened Strings
  import opened Sequences
  import opened NewsItems
  import opened Categories
  import opened NewsFilters

  /**
   * `initialCategories`: a non-empty `category` parameter, upper-cased, names a
   * supported category; the "ALL" test sits inside the supported-list test.
   */
  function InitialCategories(category: Option<string>): (r: Option<set<string>>)
    ensures r.Some? <==> category.Some? && category.value != "" && ToUpper(category.value) in SupportedCategories
    ensures r.Some? ==> r.value == {ToUpper(category.value)}
  {
    if category.Some? && category.value != "" then
      var upper := ToUpper(category.value);
      if upper in SupportedCategories then
        if upper == "ALL" then Some(SupportedSet) else Some({upper})
      else None
    else None
  }

  /** The "ALL" branch never fires: "all" and "ALL" give no initial categories. */
  lemma AllParameterIsIgnored()
    ensures InitialCategories(Some("all")) == None
    ensures InitialCategories(Some("ALL")) == None
  {
    AllIsNotSupported();
    assert ToUpper("all") == "ALL";
    assert ToUpper("ALL") == "ALL";
  }

  /** A supported category, in any letter case, starts the screen filtered to that one category. */
  lemma CategoryParameterFilters(category: string)
    requires category != [] && ToUpper(category) in SupportedCategories
    ensures InitialCategories(Some(category)) == Some({ToUpper(category)})
    ensures CategoryFilterApplies(InitialCategories(Some(category)).value)
  {
    SupportedCategoriesAreDescribed();
  }

  const AllowedTimeFilters: seq<string> := ["all", "today", "48h", "96h", "7d", "14d"]

  /** `initialTime`: the `time` parameter when it is one of the allowed filters. */
  function InitialTime(time: Option<string>): (r: Option<string>)
    ensures r.Some? <==> time.Some? && time.value in AllowedTimeFilters
    ensures r.Some? ==> r == time
  {
    if time.Some? && time.value != "" && time.value in AllowedTimeFilters then time else None
  }

  /** The time filter handed to the hook: `initialTime || "all"`. */
  function StartingTimeFilter(time: Option<string>): (r: string)
    ensures r in AllowedTimeFilters
  {
    match InitialTime(time)
    case Some(t) => t
    case None => "all"
  }

  /** Every time filter the route can start with is "all" or one that has a cutoff. */
  lemma StartingTimeFilterHasCutoff(time: Option<string>, now: int)
    ensures StartingTimeFilter(time) == "all" || Cutoff(StartingTimeFilter(time), now).Some?
    ensures time.Some? && time.value !in AllowedTimeFilters ==> StartingTimeFilter(time) == "all"
  {
  }

  /** `allNewsData`: every loaded page's news, page after page; no pages gives none. */
  function AllNewsData(pages: Option<seq<seq<NewsItem>>>): (r: seq<NewsItem>)
    ensures pages.None? ==> r == []
  {
    match pages
    case None => []
    case Some(p) => Flatten(p)
  }

  /** Loading one more page appends its news after everything already listed. */
  lemma NextPageAppends(pages: seq<seq<NewsItem>>, page: seq<NewsItem>)
    ensures AllNewsData(Some(pages + [page])) == AllNewsData(Some(pages)) + page
  {
    FlattenAppend(pages, [page]);
    assert Flatten([page]) == page + Flatten([page][1..]);
    assert [page][1..] == [];
  }

  /** Item `j` of page `k` appears at its page's offset in the flattened list. */
  lemma PageOrderKept(pages: seq<seq<NewsItem>>, k: nat, j: nat)
    requires k < |pages| && j < |pages[k]|
    ensures TotalLength(pages[..k]) + j < |AllNewsData(Some(pages))|
    ensures AllNewsData(Some(pages))[TotalLength(pages[..k]) + j] == pages[k][j]
  {
    FlattenPosition(pages, k, j);
  }

  /** `handleLoadMore`: whether `fetchNextPage` is called. */
  function LoadMore(hasNextPage: bool, isFetchingNextPage: bool): (fetch: bool)
    ensures fetch ==> hasNextPage
    ensures fetch ==> !isFetchingNextPage
    ensures hasNextPage && !isFetchingNextPage ==> fetch
  {
    hasNextPage && !isFetchingNextPage
  }
}
