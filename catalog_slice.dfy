/**
 * The catalogue filter (frontend/src/store/slices/catalogSlice.ts): the products
 * the .NET API returned, the selected category and search term, the filtered list
 * the shop shows, and the request flags of the three fetch thunks. The thunks'
 * HTTP calls are left out; their reducers take the payload as a parameter.
 */
module CatalogSlice {
  import opened Wrappers
  import opened Text
  import opened Sequences
  import opened ShopTypes

  /** The catalogue slice's state as a value. */
  datatype Catalog = Catalog(
    categories: seq<Category>,
    products: seq<Product>,
    selectedCategory: Option<Category>,
    filteredProducts: seq<Product>,
    loading: bool,
    error: Option<string>,
    searchTerm: string)

  const InitialCatalog := Catalog([], [], None, [], false, None, "")

  // ---------------------------------------------------------------- the filters

  /** `product.categoryId === category.id`. */
  predicate InCategory(categoryId: int, p: Product) {
    p.categoryId == categoryId
  }

  /** The lower-cased name or category name contains the lower-cased term. */
  predicate MatchesTerm(termLower: string, p: Product) {
    Includes(ToLower(p.name), termLower) || Includes(ToLower(p.categoryName), termLower)
  }

  /** The products of the selected category, or all of them when none is selected. */
  function CategoryRestricted(products: seq<Product>, selected: Option<Category>): (r: seq<Product>)
    ensures IsSubsequence(r, products)
    ensures forall p :: p in r <==> p in products && (selected.Some? ==> InCategory(selected.value.id, p))
  {
    if selected.Some? then
      var inCategory := (p: Product) => InCategory(selected.value.id, p);
      FilterMembers(products, inCategory);
      FilterIsSubsequence(products, inCategory);
      Filter(products, inCategory)
    else
      SubsequenceReflexive(products);
      products
  }

  /** `setSearchTerm`'s list: the category restriction, then the term filter when the term is not empty. */
  function SearchFiltered(products: seq<Product>, selected: Option<Category>, term: string): seq<Product> {
    var restricted := CategoryRestricted(products, selected);
    var lower := ToLower(term);
    if lower != "" then Filter(restricted, (p: Product) => MatchesTerm(lower, p)) else restricted
  }

  /** Both filters at once, as a single test on a product. */
  predicate Shown(selected: Option<Category>, term: string, p: Product) {
    && (selected.Some? ==> InCategory(selected.value.id, p))
    && (term != "" ==> MatchesTerm(ToLower(term), p))
  }

  /** The two-step search list is the single filter by both tests, so it keeps the products' order. */
  lemma SearchIsOneFilter(products: seq<Product>, selected: Option<Category>, term: string)
    ensures SearchFiltered(products, selected, term) == Filter(products, (p: Product) => Shown(selected, term, p))
    ensures IsSubsequence(SearchFiltered(products, selected, term), products)
  {
    var shown := (p: Product) => Shown(selected, term, p);
    var lower := ToLower(term);
    var matches := (p: Product) => MatchesTerm(lower, p);
    if selected.Some? {
      var inCategory := (p: Product) => InCategory(selected.value.id, p);
      if lower != "" {
        FilterOfFilter(products, inCategory, matches, shown);
      } else {
        assert forall p :: inCategory(p) == shown(p);
        FilterOfFilter(products, inCategory, (p: Product) => true, shown);
        FilterAllKept(Filter(products, inCategory), (p: Product) => true);
      }
    } else {
      var always := (p: Product) => true;
      if lower != "" {
        FilterAllKept(products, always);
        FilterOfFilter(products, always, matches, shown);
      } else {
        FilterAllKept(products, shown);
      }
    }
    FilterIsSubsequence(products, shown);
  }

  /** A product is shown exactly when it is in the list and passes both tests. */
  lemma SearchMembership(products: seq<Product>, selected: Option<Category>, term: string, p: Product)
    ensures p in SearchFiltered(products, selected, term) <==> p in products && Shown(selected, term, p)
  {
    SearchIsOneFilter(products, selected, term);
    FilterMembers(products, (p: Product) => Shown(selected, term, p));
  }

  /** With an empty term the search is the category restriction alone. */
  lemma EmptyTermIsCategoryRestriction(products: seq<Product>, selected: Option<Category>)
    ensures SearchFiltered(products, selected, "") == CategoryRestricted(products, selected)
  {
  }

  // ---------------------------------------------------------------- the reducers

  function AfterSetSelectedCategory(c: Catalog, selected: Option<Category>): Catalog {
    c.(selectedCategory := selected, filteredProducts := CategoryRestricted(c.products, selected))
  }

  function AfterSetSearchTerm(c: Catalog, term: string): Catalog {
    c.(searchTerm := term, filteredProducts := SearchFiltered(c.products, c.selectedCategory, term))
  }

  function AfterClearFilters(c: Catalog): Catalog {
    c.(selectedCategory := None, searchTerm := "", filteredProducts := c.products)
  }

  function AfterClearError(c: Catalog): Catalog {
    c.(error := None)
  }

  /** Every pending case. */
  function AfterPending(c: Catalog): Catalog {
    c.(loading := true, error := None)
  }

  /** Every rejected case, with the rejection's message. */
  function AfterRejected(c: Catalog, message: string): Catalog {
    c.(loading := false, error := Some(message))
  }

  function AfterCategoriesFetched(c: Catalog, categories: seq<Category>): Catalog {
    c.(loading := false, categories := categories)
  }

  function AfterCategoryProductsFetched(c: Catalog, products: seq<Product>): Catalog {
    c.(loading := false, filteredProducts := products)
  }

  function AfterAllProductsFetched(c: Catalog, products: seq<Product>): Catalog {
    c.(loading := false, products := products,
       filteredProducts := if c.selectedCategory.None? then products else c.filteredProducts)
  }

  // ---------------------------------------------------------------- what the reducers promise

  /** The shown list is an order-preserving subsequence of the products. */
  predicate FilteredFromProducts(c: Catalog) {
    IsSubsequence(c.filteredProducts, c.products)
  }

  /** Selecting a category shows exactly its products, in order, whatever the search term. */
  lemma SelectCategoryShowsItsProducts(c: Catalog, selected: Option<Category>)
    ensures var d := AfterSetSelectedCategory(c, selected);
      && FilteredFromProducts(d)
      && (selected.None? ==> d.filteredProducts == c.products)
      && (forall p :: p in d.filteredProducts <==> p in c.products && (selected.Some? ==> p.categoryId == selected.value.id))
      && d.searchTerm == c.searchTerm
  {
  }

  /** Searching shows exactly the selected category's products that match the term, in order. */
  lemma SearchShowsMatches(c: Catalog, term: string)
    ensures var d := AfterSetSearchTerm(c, term);
      && FilteredFromProducts(d)
      && (forall p :: p in d.filteredProducts <==> p in c.products && Shown(c.selectedCategory, term, p))
      && d.selectedCategory == c.selectedCategory
  {
    SearchIsOneFilter(c.products, c.selectedCategory, term);
    forall p ensures p in AfterSetSearchTerm(c, term).filteredProducts <==> p in c.products && Shown(c.selectedCategory, term, p) {
      SearchMembership(c.products, c.selectedCategory, term, p);
    }
  }

  /** Clearing the filters shows every product; clearing twice is clearing once. */
  lemma ClearFiltersShowsAll(c: Catalog)
    ensures AfterClearFilters(c).filteredProducts == c.products
    ensures FilteredFromProducts(AfterClearFilters(c))
    ensures AfterClearFilters(AfterClearFilters(c)) == AfterClearFilters(c)
  {
    SubsequenceReflexive(c.products);
  }

  /** After clearing, searching with an empty term changes nothing. */
  lemma ClearedSearchIsIdentity(c: Catalog)
    ensures AfterSetSearchTerm(AfterClearFilters(c), "") == AfterClearFilters(c)
  {
  }

  /** The request reducers move only the loading flag and the error. */
  lemma RequestFlags(c: Catalog, message: string)
    ensures AfterPending(c).loading && AfterPending(c).error.None?
    ensures !AfterRejected(c, message).loading && AfterRejected(c, message).error == Some(message)
    ensures AfterPending(c).(loading := c.loading, error := c.error) == c
    ensures AfterRejected(c, message).(loading := c.loading, error := c.error) == c
  {
  }

  /** The filter, clear and request reducers keep the shown list a subsequence of the products. */
  lemma ReducersKeepFilteredFromProducts(c: Catalog, selected: Option<Category>, term: string,
                                         message: string, categories: seq<Category>)
    requires FilteredFromProducts(c)
    ensures FilteredFromProducts(AfterSetSelectedCategory(c, selected))
    ensures FilteredFromProducts(AfterSetSearchTerm(c, term))
    ensures FilteredFromProducts(AfterClearFilters(c))
    ensures FilteredFromProducts(AfterClearError(c))
    ensures FilteredFromProducts(AfterPending(c))
    ensures FilteredFromProducts(AfterRejected(c, message))
    ensures FilteredFromProducts(AfterCategoriesFetched(c, categories))
  {
    SearchIsOneFilter(c.products, c.selectedCategory, term);
    SubsequenceReflexive(c.products);
  }

  /** With no category selected, loading all products shows them all. */
  lemma AllProductsShownWithoutCategory(c: Catalog, products: seq<Product>)
    requires c.selectedCategory.None?
    ensures AfterAllProductsFetched(c, products).filteredProducts == products
    ensures FilteredFromProducts(AfterAllProductsFetched(c, products))
  {
    SubsequenceReflexive(products);
  }

  /**
   * With a category selected, loading all products keeps the list shown before, which
   * need not come from the new products: the subsequence invariant does not survive.
   */
  lemma AllProductsKeepStaleListWithCategory()
    ensures var old_ := Catalog([], [], Some(Category(1, "c", None, [])), [Product(7, "p", 1.0, 1, "c", None, None)], false, None, "");
      var fetched := AfterAllProductsFetched(old_, []);
      && fetched.filteredProducts == old_.filteredProducts
      && !FilteredFromProducts(fetched)
  {
  }

  /** Loading a category's products shows the payload as it came, not a filter of the products. */
  lemma CategoryProductsShowPayload(c: Catalog, products: seq<Product>)
    ensures AfterCategoryProductsFetched(c, products).filteredProducts == products
    ensures AfterCategoryProductsFetched(c, products).products == c.products
  {
  }

  // ---------------------------------------------------------------- the slice

  /** The catalogue slice's draft state, updated in place by the reducers. */
  class CatalogState {
    var categories: seq<Category>
    var products: seq<Product>
    var selectedCategory: Option<Category>
    var filteredProducts: seq<Product>
    var loading: bool
    var error: Option<string>
    var searchTerm: string

    /** The state as a value. */
    function State(): Catalog
      reads this
    {
      Catalog(categories, products, selectedCategory, filteredProducts, loading, error, searchTerm)
    }

    /** `initialState`. */
    constructor()
      ensures State() == InitialCatalog
    {
      categories := [];
      products := [];
      selectedCategory := None;
      filteredProducts := [];
      loading := false;
      error := None;
      searchTerm := "";
    }

    /** `setSelectedCategory`. */
    method SetSelectedCategory(selected: Option<Category>)
      modifies this
      ensures State() == AfterSetSelectedCategory(old(State()), selected)
    {
      selectedCategory := selected;
      if selected.None? {
        filteredProducts := products;
      } else {
        filteredProducts := CategoryRestricted(products, selected);
      }
    }

    /** `setSearchTerm`. */
    method SetSearchTerm(term: string)
      modifies this
      ensures State() == AfterSetSearchTerm(old(State()), term)
    {
      searchTerm := term;
      var searchLower := ToLower(term);
      var productsToFilter := CategoryRestricted(products, selectedCategory);
      if searchLower != "" {
        filteredProducts := Filter(productsToFilter, (p: Product) => MatchesTerm(searchLower, p));
      } else {
        filteredProducts := productsToFilter;
      }
    }

    /** `clearFilters`. */
    method ClearFilters()
      modifies this
      ensures State() == AfterClearFilters(old(State()))
    {
      selectedCategory := None;
      searchTerm := "";
      filteredProducts := products;
    }

    /** `clearError`. */
    method ClearError()
      modifies this
      ensures State() == AfterClearError(old(State()))
    {
      error := None;
    }

    /** The `pending` case of every fetch thunk. */
    method FetchPending()
      modifies this
      ensures State() == AfterPending(old(State()))
    {
      loading := true;
      error := None;
    }

    /** The `rejected` case of every fetch thunk, with the rejection's message. */
    method FetchRejected(message: string)
      modifies this
      ensures State() == AfterRejected(old(State()), message)
    {
      loading := false;
      error := Some(message);
    }

    /** `fetchCategories.fulfilled`. */
    method CategoriesFetched(payload: seq<Category>)
      modifies this
      ensures State() == AfterCategoriesFetched(old(State()), payload)
    {
      loading := false;
      categories := payload;
    }

    /** `fetchProductsByCategory.fulfilled`. */
    method CategoryProductsFetched(payload: seq<Product>)
      modifies this
      ensures State() == AfterCategoryProductsFetched(old(State()), payload)
    {
      loading := false;
      filteredProducts := payload;
    }

    /** `fetchAllProducts.fulfilled`. */
    method AllProductsFetched(payload: seq<Product>)
      modifies this
      ensures State() == AfterAllProductsFetched(old(State()), payload)
    {
      loading := false;
      products := payload;
      if selectedCategory.None? {
        filteredProducts := payload;
      }
    }
  }
}
