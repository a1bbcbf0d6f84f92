/**
 * ProductCatalogApi/Services/CategoryService.cs: cache-aside reads of the
 * category list and unvalidated writes that invalidate it. The table is a map
 * from id to row; the database-generated id of a new row is a parameter.
 */
module Categories {
  import opened Wrappers
  import opened CatalogModels
  import Products

  /** The cached category list, when there is one, is the table's content. */
  predicate CategoriesCoherent(entries: map<string, CacheValue>, rows: map<int, CatalogCategory>) {
    AllCategoriesKey in entries ==> entries[AllCategoriesKey] == CategoryList(rows.Values)
  }

  /** Every row is stored under its own id. */
  predicate RowsKeyed(rows: map<int, CatalogCategory>) {
    forall id | id in rows :: rows[id].id == id
  }

  /**
   * The two services share one cache without disturbing each other: what the
   * product service writes or evicts leaves the category list coherent, and what
   * this service evicts leaves the product list coherent.
   */
  lemma ServicesKeepEachOthersEntries(entries: map<string, CacheValue>, categories: map<int, CatalogCategory>,
                                      products: map<int, CatalogProduct>, listed: set<CatalogProduct>)
    requires CategoriesCoherent(entries, categories) && Products.ProductsCoherent(entries, products)
    ensures CategoriesCoherent(entries - {AllProductsKey}, categories)
    ensures CategoriesCoherent(entries[AllProductsKey := ProductList(listed)], categories)
    ensures Products.ProductsCoherent(entries - {AllCategoriesKey}, products)
  {
    CacheKeysDistinct();
  }

  /**
   * The product rows left once the database's cascade has deleted the rows of
   * category `categoryId` (ProductCatalogContext.cs configures `OnDelete(Cascade)`).
   */
  function CascadeDeleted(products: map<int, CatalogProduct>, categoryId: int): (r: map<int, CatalogProduct>)
    ensures forall pid :: pid in r <==> pid in products && products[pid].categoryId != categoryId
    ensures forall pid | pid in r :: r[pid] == products[pid]
  {
    map pid | pid in products && products[pid].categoryId != categoryId :: products[pid]
  }

  /**
   * Deleting a category that still has products cascades to them, yet only the
   * category list is evicted: a cached product list goes on listing the deleted rows.
   */
  lemma CascadeLeavesProductListStale(entries: map<string, CacheValue>, products: map<int, CatalogProduct>,
                                      categoryId: int, pid: int)
    requires Products.ProductsCoherent(entries, products) && AllProductsKey in entries
    requires pid in products && products[pid].categoryId == categoryId
    ensures !Products.ProductsCoherent(entries - {AllCategoriesKey}, CascadeDeleted(products, categoryId))
  {
    CacheKeysDistinct();
    var left := CascadeDeleted(products, categoryId);
    assert products[pid] in entries[AllProductsKey].products;
    assert products[pid] !in left.Values;
  }

  /** The category service, over its table and the cache it shares with the product service. */
  class CategoryService {
    var rows: map<int, CatalogCategory>
    const cache: Cache

    predicate Valid()
      reads this, cache
    {
      CategoriesCoherent(cache.entries, rows) && RowsKeyed(rows)
    }

    constructor(rows: map<int, CatalogCategory>, cache: Cache)
      requires CategoriesCoherent(cache.entries, rows) && RowsKeyed(rows)
      ensures this.rows == rows && this.cache == cache && Valid()
    {
      this.rows := rows;
      this.cache := cache;
    }

    /** `GetAllCategoriesAsync`: a cached list is returned as it is; on a miss the table is read and cached. */
    method GetAllCategories() returns (categories: set<CatalogCategory>)
      requires Valid()
      modifies cache
      ensures Valid() && categories == rows.Values
      ensures CategoriesIn(old(cache.entries), AllCategoriesKey).Some? ==> cache.entries == old(cache.entries)
      ensures CategoriesIn(old(cache.entries), AllCategoriesKey).None? ==>
        cache.entries == old(cache.entries)[AllCategoriesKey := CategoryList(rows.Values)]
    {
      var cached := CategoriesIn(cache.entries, AllCategoriesKey);
      if cached.Some? {
        return cached.value;
      }
      categories := rows.Values;
      cache.Set(AllCategoriesKey, CategoryList(categories));
    }

    /** `GetCategoryByIdAsync`, straight from the table. */
    method GetCategoryById(id: int) returns (category: Option<CatalogCategory>)
      ensures category.Some? <==> id in rows
      ensures category.Some? ==> category.value == rows[id]
    {
      category := if id in rows then Some(rows[id]) else None;
    }

    /** `CreateCategoryAsync`: no validation; insert, then evict the list. */
    method CreateCategory(category: CatalogCategory, newId: int) returns (created: CatalogCategory)
      requires Valid() && newId !in rows
      modifies this, cache
      ensures Valid()
      ensures created == category.(id := newId) && rows == old(rows)[newId := created]
      ensures cache.entries == old(cache.entries) - {AllCategoriesKey}
    {
      created := category.(id := newId);
      rows := rows[newId := created];
      cache.Remove(AllCategoriesKey);
    }

    /** `UpdateCategoryAsync`: a missing id gives null and changes nothing; otherwise store under the id and evict. */
    method UpdateCategory(id: int, category: CatalogCategory) returns (updated: Option<CatalogCategory>)
      requires Valid()
      modifies this, cache
      ensures Valid()
      ensures id !in old(rows) ==> updated.None? && rows == old(rows) && cache.entries == old(cache.entries)
      ensures id in old(rows) ==>
        && updated == Some(category.(id := id))
        && rows == old(rows)[id := category.(id := id)]
        && cache.entries == old(cache.entries) - {AllCategoriesKey}
    {
      if id !in rows {
        return None;
      }
      var withId := category.(id := id);
      rows := rows[id := withId];
      cache.Remove(AllCategoriesKey);
      updated := Some(withId);
    }

    /** `DeleteCategoryAsync`: the list is evicted exactly when a row was deleted. */
    method DeleteCategory(id: int) returns (deleted: bool)
      requires Valid()
      modifies this, cache
      ensures Valid()
      ensures deleted <==> id in old(rows)
      ensures rows == old(rows) - {id}
      ensures cache.entries == if deleted then old(cache.entries) - {AllCategoriesKey} else old(cache.entries)
    {
      deleted := id in rows;
      if deleted {
        rows := rows - {id};
        cache.Remove(AllCategoriesKey);
      }
    }
  }
}
