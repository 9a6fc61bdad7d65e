/**
 * The news list filter hook (app/src/hooks/useNewsFilters.ts): the selected
 * category set and time filter, the cutoff the time filter stands for, the
 * two filter stages over the news list, and the category actions.
 */
module NewsFilters {
  import opened Wrappers
  import opened Strings
  import opened NewsItems
  import opened Categories
  import opened Sequences

  const HourMs := 60 * 60 * 1000
  const DayMs := 24 * HourMs

  /** `new Set(SUPPORTED_CATEGORIES)`, the default and the select-all set. */
  const SupportedSet: set<string> := set c | c in SupportedCategories

  lemma SupportedSetSize()
    ensures SupportedSet == {"INDIA", "TECH", "WORLD", "SPORTS", "BUSINESS", "CRICKET", "HEALTH", "TOP"}
    ensures |SupportedSet| == |SupportedCategories| == 8
  {
    var s1: set<string> := {"INDIA"};
    var s2 := s1 + {"TECH"};
    assert "TECH" !in s1;
    var s3 := s2 + {"WORLD"};
    assert "WORLD" !in s2;
    var s4 := s3 + {"SPORTS"};
    assert "SPORTS" !in s3;
    var s5 := s4 + {"BUSINESS"};
    assert "BUSINESS" !in s4;
    var s6 := s5 + {"CRICKET"};
    assert "CRICKET" !in s5;
    var s7 := s6 + {"HEALTH"};
    assert "HEALTH" !in s6;
    var s8 := s7 + {"TOP"};
    assert "TOP" !in s7;
    assert SupportedSet == s8;
  }

  /**
   * The cutoff instant, in milliseconds, for a time filter at time `now`; "all"
   * and every value outside the listed ones give no cutoff.
   */
  function Cutoff(timeFilter: string, now: int): (r: Option<int>)
    ensures timeFilter == "today" ==> r == Some(now - 24 * HourMs)
    ensures timeFilter == "48h" ==> r == Some(now - 48 * HourMs)
    ensures timeFilter == "96h" ==> r == Some(now - 96 * HourMs)
    ensures timeFilter == "7d" ==> r == Some(now - 7 * DayMs)
    ensures timeFilter == "14d" ==> r == Some(now - 14 * DayMs)
    ensures r.Some? <==> timeFilter in {"today", "48h", "96h", "7d", "14d"}
  {
    if timeFilter == "all" then None
    else if timeFilter == "today" then Some(now - 24 * HourMs)
    else if timeFilter == "48h" then Some(now - 48 * HourMs)
    else if timeFilter == "96h" then Some(now - 96 * HourMs)
    else if timeFilter == "7d" then Some(now - 7 * DayMs)
    else if timeFilter == "14d" then Some(now - 14 * DayMs)
    else None
  }

  /** The category stage runs only when some, but not all, categories are selected. */
  predicate CategoryFilterApplies(selected: set<string>)
  {
    0 < |selected| < |SupportedCategories|
  }

  /** One of the item's categories, upper-cased, is selected. */
  predicate MatchesCategory(item: NewsItem, selected: set<string>)
  {
    exists i :: 0 <= i < |item.categories| && ToUpper(item.categories[i]) in selected
  }

  /** The item's date parses (`parseDate` gives `None` for an invalid date) and is not before the cutoff. */
  predicate PublishedSince(item: NewsItem, cutoff: int, parseDate: string -> Option<int>)
  {
    parseDate(item.published).Some? && parseDate(item.published).value >= cutoff
  }

  /** `filteredNewsData`: the category stage, then the time stage. */
  function Filtered(news: seq<NewsItem>, selected: set<string>, timeFilter: string, now: int,
                    parseDate: string -> Option<int>): seq<NewsItem>
  {
    if |news| == 0 then []
    else
      var byCategory := if CategoryFilterApplies(selected) then Filter(news, x => MatchesCategory(x, selected)) else news;
      var cutoff := Cutoff(timeFilter, now);
      if cutoff.Some? then Filter(byCategory, x => PublishedSince(x, cutoff.value, parseDate)) else byCategory
  }

  /**
   * An item survives exactly when it passes each stage that applies: the
   * category stage when some but not all categories are chosen, the time stage
   * when the time filter has a cutoff.
   */
  lemma FilteredMembership(news: seq<NewsItem>, selected: set<string>, timeFilter: string, now: int,
                           parseDate: string -> Option<int>, item: NewsItem)
    ensures item in Filtered(news, selected, timeFilter, now, parseDate) <==>
      item in news &&
      (CategoryFilterApplies(selected) ==> MatchesCategory(item, selected)) &&
      (Cutoff(timeFilter, now).Some? ==> PublishedSince(item, Cutoff(timeFilter, now).value, parseDate))
  {
  }

  /** The result keeps the input's order and only leaves items out; no input gives no output. */
  lemma FilteredIsSubsequence(news: seq<NewsItem>, selected: set<string>, timeFilter: string, now: int,
                              parseDate: string -> Option<int>)
    ensures IsSubsequence(Filtered(news, selected, timeFilter, now, parseDate), news)
    ensures news == [] ==> Filtered(news, selected, timeFilter, now, parseDate) == []
  {
    if news != [] {
      var cat := x => MatchesCategory(x, selected);
      var cutoff := Cutoff(timeFilter, now);
      if CategoryFilterApplies(selected) && cutoff.Some? {
        var time := x => PublishedSince(x, cutoff.value, parseDate);
        assert Filtered(news, selected, timeFilter, now, parseDate) == Filter(Filter(news, cat), time);
        var both := x => cat(x) && time(x);
        FilterTwice(news, cat, time, both);
        FilterIsSubsequence(news, both);
      } else if CategoryFilterApplies(selected) {
        FilterIsSubsequence(news, cat);
      } else if cutoff.Some? {
        FilterIsSubsequence(news, x => PublishedSince(x, cutoff.value, parseDate));
      } else {
        SubsequenceOfItself(news);
      }
    }
  }

  /** With no category choice in force and the "all" time filter, the list comes back whole. */
  lemma NoActiveFilterKeepsAll(news: seq<NewsItem>, selected: set<string>, now: int, parseDate: string -> Option<int>)
    requires !CategoryFilterApplies(selected)
    ensures Filtered(news, selected, "all", now, parseDate) == news
  {
  }

  /** `toggleCategory` on a copy of the set. */
  function Toggled(selected: set<string>, category: string): (r: set<string>)
    ensures category in r <==> category !in selected
    ensures forall c :: c != category ==> (c in r <==> c in selected)
  {
    if category in selected then selected - {category} else selected + {category}
  }

  lemma ToggleTwice(selected: set<string>, category: string)
    ensures Toggled(Toggled(selected, category), category) == selected
  {
  }

  /** Selecting everything or nothing switches the category stage off. */
  lemma SelectAllOrNoneShowsEveryCategory()
    ensures !CategoryFilterApplies(SupportedSet)
    ensures !CategoryFilterApplies({})
  {
    SupportedSetSize();
  }

  /** The hook's state: the selected categories and the selected time filter. */
  class FilterState {
    var selectedCategories: set<string>
    var selectedTimeFilter: string

    /** The hook's initial state; a given category set (even an empty one) is used as it is. */
    constructor (initialTimeFilter: string, initialCategories: Option<set<string>>)
      ensures selectedCategories == (if initialCategories.Some? then initialCategories.value else SupportedSet)
      ensures selectedTimeFilter == initialTimeFilter
    {
      selectedCategories := if initialCategories.Some? then initialCategories.value else SupportedSet;
      selectedTimeFilter := initialTimeFilter;
    }

    function FilteredNewsData(news: seq<NewsItem>, now: int, parseDate: string -> Option<int>): seq<NewsItem>
      reads this
    {
      Filtered(news, selectedCategories, selectedTimeFilter, now, parseDate)
    }

    /** `hasActiveFilters`: the category stage is in force. */
    function HasActiveFilters(): (b: bool)
      reads this
      ensures !b ==> forall news, now, parseDate ::
        Filtered(news, selectedCategories, "all", now, parseDate) == news
    {
      CategoryFilterApplies(selectedCategories)
    }

    /** `hasActiveSort`: a time filter other than "all"; only such a filter can have a cutoff. */
    function HasActiveSort(): (b: bool)
      reads this
      ensures !b ==> forall now :: Cutoff(selectedTimeFilter, now).None?
      ensures (exists now :: Cutoff(selectedTimeFilter, now).Some?) ==> b
    {
      selectedTimeFilter != "all"
    }

    method ToggleCategory(category: string)
      modifies this
      ensures selectedCategories == Toggled(old(selectedCategories), category)
      ensures selectedTimeFilter == old(selectedTimeFilter)
    {
      selectedCategories := Toggled(selectedCategories, category);
    }

    method ClearAllCategories()
      modifies this
      ensures selectedCategories == {}
      ensures selectedTimeFilter == old(selectedTimeFilter)
    {
      selectedCategories := {};
    }

    method SelectAllCategories()
      modifies this
      ensures selectedCategories == SupportedSet
      ensures selectedTimeFilter == old(selectedTimeFilter)
    {
      selectedCategories := SupportedSet;
    }

    method SetSelectedTimeFilter(timeFilter: string)
      modifies this
      ensures selectedTimeFilter == timeFilter
      ensures selectedCategories == old(selectedCategories)
    {
      selectedTimeFilter := timeFilter;
    }
  }
}
