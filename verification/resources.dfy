/** The resource library: free-text search over a resource's title and description,
    combined with a category filter. */
module Resources {
  import opened JsString
  import opened Seqs

  datatype Resource = Resource(
    id: int,
    title: string,
    category: string,
    author: string,
    downloads: int,
    image: string,
    description: string)

  /** The category selector's "no filter" entry. */
  const AllCategories := "All"

  /** `matchesSearch`: the lower-cased query occurs in the title or the description. */
  predicate MatchesSearch(r: Resource, query: string) {
    var q := ToLower(query);
    Includes(ToLower(r.title), q) || Includes(ToLower(r.description), q)
  }

  /** `matchesCategory`: "All" is selected or the resource has exactly that category. */
  predicate MatchesCategory(r: Resource, selectedCategory: string) {
    selectedCategory == AllCategories || r.category == selectedCategory
  }

  predicate Shown(r: Resource, query: string, selectedCategory: string) {
    MatchesSearch(r, query) && MatchesCategory(r, selectedCategory)
  }

  /** `filteredResources`: the resources passing both tests, in list order. */
  function FilterResources(resources: seq<Resource>, query: string, selectedCategory: string): (out: seq<Resource>)
    ensures IsSubsequence(out, resources)
    ensures forall r :: r in out <==>
      && r in resources
      && (Includes(ToLower(r.title), ToLower(query)) || Includes(ToLower(r.description), ToLower(query)))
      && (selectedCategory == AllCategories || r.category == selectedCategory)
    ensures forall r ::
      multiset(out)[r] == if Shown(r, query, selectedCategory) then multiset(resources)[r] else 0
  {
    Filter(resources, r => Shown(r, query, selectedCategory))
  }

  /** Author and category text are not searched: a resource whose title and description
      miss the query is hidden whatever its author and category say. */
  lemma AuthorAndCategoryNotSearched(resources: seq<Resource>, r: Resource, query: string,
                                     selectedCategory: string, author: string, category: string)
    requires !Includes(ToLower(r.title), ToLower(query))
    requires !Includes(ToLower(r.description), ToLower(query))
    ensures r.(author := author, category := category) !in FilterResources(resources, query, selectedCategory)
  {
  }

  /** With an empty query and "All" selected, every resource is shown. */
  lemma NoFilterShowsAll(resources: seq<Resource>)
    ensures FilterResources(resources, "", AllCategories) == resources
  {
    forall i | 0 <= i < |resources| ensures Shown(resources[i], "", AllCategories) {
      IncludesEmpty(ToLower(resources[i].title));
    }
    FilterKeepsAll(resources, r => Shown(r, "", AllCategories));
  }

  /** For a fixed query, the list for one category is a subsequence, and so a subset, of
      the list for "All". */
  lemma CategoryFilterNarrows(resources: seq<Resource>, query: string, selectedCategory: string)
    ensures IsSubsequence(FilterResources(resources, query, selectedCategory), FilterResources(resources, query, AllCategories))
    ensures forall r :: r in FilterResources(resources, query, selectedCategory) ==> r in FilterResources(resources, query, AllCategories)
  {
    FilterMonotone(resources, r => Shown(r, query, selectedCategory), r => Shown(r, query, AllCategories));
  }
}
