/**
 * The news categories the app offers (app/src/lib/constants/categories.ts):
 * the supported list, the icon, description and display-name tables (which
 * also carry "ALL"), and the lookups with their fallbacks.
 */
module Categories {
  import opened Strings

  const SupportedCategories: seq<string> :=
    ["INDIA", "TECH", "WORLD", "SPORTS", "BUSINESS", "CRICKET", "HEALTH", "TOP"]

  const CategoryIcons: map<string, string> := map[
    "ALL" := "globe-outline",
    "INDIA" := "location-outline",
    "TECH" := "laptop-outline",
    "WORLD" := "earth-outline",
    "SPORTS" := "football-outline",
    "BUSINESS" := "business-outline",
    "CRICKET" := "baseball-outline",
    "HEALTH" := "medical-outline",
    "TOP" := "trending-up-outline"]

  const CategoryDescriptions: map<string, string> := map[
    "ALL" := "All news from all sources",
    "INDIA" := "News from India",
    "TECH" := "Technology and innovation",
    "WORLD" := "International news",
    "SPORTS" := "Sports news and updates",
    "BUSINESS" := "Business and finance",
    "CRICKET" := "Cricket news and scores",
    "HEALTH" := "Health and wellness",
    "TOP" := "Top trending stories"]

  const CategoryDisplayNames: map<string, string> := map[
    "ALL" := "All Categories",
    "INDIA" := "India",
    "TECH" := "Tech",
    "WORLD" := "World",
    "SPORTS" := "Sports",
    "BUSINESS" := "Business",
    "CRICKET" := "Cricket",
    "HEALTH" := "Health",
    "TOP" := "Top"]

  const DefaultIcon := "newspaper-outline"
  const DefaultDescription := "News category"

  /** `table[key] || fallback`: a missing key or an empty value falls back. */
  function LookupOr(table: map<string, string>, key: string, fallback: string): (r: string)
    ensures key in table && table[key] != "" ==> r == table[key]
    ensures !(key in table && table[key] != "") ==> r == fallback
  {
    if key in table && table[key] != "" then table[key] else fallback
  }

  /** `getCategoryIcon`. */
  function CategoryIcon(category: string): (r: string)
    ensures category in CategoryIcons ==> r == CategoryIcons[category]
    ensures category !in CategoryIcons ==> r == DefaultIcon
  {
    LookupOr(CategoryIcons, category, DefaultIcon)
  }

  /** `getCategoryDescription`. */
  function CategoryDescription(category: string): (r: string)
    ensures category in CategoryDescriptions ==> r == CategoryDescriptions[category]
    ensures category !in CategoryDescriptions ==> r == DefaultDescription
  {
    LookupOr(CategoryDescriptions, category, DefaultDescription)
  }

  /**
   * `getCategoryDisplayName`: the table's name, else the first character
   * followed by the rest in lower case, and "" for "".
   */
  function CategoryDisplayName(category: string): (r: string)
    ensures category in CategoryDisplayNames ==> r == CategoryDisplayNames[category]
    ensures category !in CategoryDisplayNames && category == "" ==> r == ""
    ensures category !in CategoryDisplayNames && category != "" ==>
      |r| == |category| && r[0] == category[0] && r[1..] == ToLower(category[1..])
  {
    if category in CategoryDisplayNames && CategoryDisplayNames[category] != "" then CategoryDisplayNames[category]
    else if category == "" then ""
    else [category[0]] + ToLower(category[1..])
  }

  /** Every supported category has an icon, a description and a display name of its own. */
  lemma SupportedCategoriesAreDescribed()
    ensures |SupportedCategories| == 8
    ensures forall i, j :: 0 <= i < j < |SupportedCategories| ==> SupportedCategories[i] != SupportedCategories[j]
    ensures forall c :: c in SupportedCategories ==>
      c in CategoryIcons && c in CategoryDescriptions && c in CategoryDisplayNames &&
      CategoryIcon(c) != DefaultIcon && CategoryDescription(c) != DefaultDescription
  {
  }

  /** "ALL" has table entries but is not a supported category; the tables hold nothing else. */
  lemma AllIsNotSupported()
    ensures "ALL" !in SupportedCategories
    ensures "ALL" in CategoryIcons && "ALL" in CategoryDescriptions && "ALL" in CategoryDisplayNames
    ensures CategoryIcons.Keys == (set c | c in SupportedCategories) + {"ALL"}
    ensures CategoryDescriptions.Keys == CategoryIcons.Keys && CategoryDisplayNames.Keys == CategoryIcons.Keys
  {
  }

  /** An unknown upper-case key is shown capitalised: "SCIENCE" reads "Science". */
  lemma DisplayNameOfUnknown()
    ensures CategoryDisplayName("SCIENCE") == "Science"
    ensures CategoryIcon("SCIENCE") == DefaultIcon
    ensures CategoryDescription("SCIENCE") == DefaultDescription
  {
    assert ToLower("CIENCE") == "cience";
  }
}
