/**
 * The .NET catalogue's entities (ProductCatalogApi/Models/Category.cs) and the
 * in-memory cache the services share. The cache holds, under a string key, a
 * list of products or a list of categories; an entry may also vanish on its own
 * when it expires, which `Remove` models as well.
 */
module CatalogModels {
  import opened Wrappers

  /** A product row. `Name` and `Unit` are reference strings and may be null. */
  datatype CatalogProduct = CatalogProduct(
    id: int,
    name: Option<string>,
    price: real,
    unit: Option<string>,
    description: Option<string>,
    categoryId: int)

  /** A category row. */
  datatype CatalogCategory = CatalogCategory(id: int, name: Option<string>, description: Option<string>)

  /** What a cache entry holds. */
  datatype CacheValue = ProductList(products: set<CatalogProduct>) | CategoryList(categories: set<CatalogCategory>)

  const AllProductsKey: string := "all_products"
  const AllCategoriesKey: string := "all_categories"

  /** The two services cache under different keys. */
  lemma CacheKeysDistinct()
    ensures AllProductsKey != AllCategoriesKey
  {
    assert AllProductsKey[4] != AllCategoriesKey[4];
  }

  /** `GetAsync<IEnumerable<Product>>`: a hit only when the entry is a product list, since a failed cast is caught as a miss. */
  function ProductsIn(entries: map<string, CacheValue>, key: string): (r: Option<set<CatalogProduct>>)
    ensures r.Some? <==> key in entries && entries[key].ProductList?
    ensures r.Some? ==> entries[key] == ProductList(r.value)
  {
    if key in entries && entries[key].ProductList? then Some(entries[key].products) else None
  }

  /** `GetAsync<IEnumerable<Category>>`, likewise. */
  function CategoriesIn(entries: map<string, CacheValue>, key: string): (r: Option<set<CatalogCategory>>)
    ensures r.Some? <==> key in entries && entries[key].CategoryList?
    ensures r.Some? ==> entries[key] == CategoryList(r.value)
  {
    if key in entries && entries[key].CategoryList? then Some(entries[key].categories) else None
  }

  /** The memory cache. */
  class Cache {
    var entries: map<string, CacheValue>

    constructor()
      ensures entries == map[]
    {
      entries := map[];
    }

    /** `SetAsync`: store or overwrite the entry. */
    method Set(key: string, value: CacheValue)
      modifies this
      ensures entries == old(entries)[key := value]
    {
      entries := entries[key := value];
    }

    /** `RemoveAsync`, and equally the expiry of an entry. */
    method Remove(key: string)
      modifies this
      ensures entries == old(entries) - {key}
    {
      entries := entries - {key};
    }
  }
}
