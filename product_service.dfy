/**
 * ProductCatalogApi/Services/ProductService.cs: cache-aside reads of the product
 * list, validated writes that invalidate it, and reads that bypass the cache.
 * The repository's table is a map from id to row; the database-generated id of
 * a new row is a parameter.
 */
module Products {
  import opened Wrappers
  import opened CatalogModels
  import opened ProductValidation

  /** The `ArgumentException("Invalid product data")` a write with invalid data throws. */
  datatype ServiceError = InvalidProductData

  /** The cached product list, when there is one, is the table's content. */
  predicate ProductsCoherent(entries: map<string, CacheValue>, rows: map<int, CatalogProduct>) {
    AllProductsKey in entries ==> entries[AllProductsKey] == ProductList(rows.Values)
  }

  /** Every row is stored under its own id. */
  predicate RowsKeyed(rows: map<int, CatalogProduct>) {
    forall id | id in rows :: rows[id].id == id
  }

  /** Once the product list is evicted, the cache says nothing about products, whatever the table holds. */
  lemma EvictionRestoresCoherence(entries: map<string, CacheValue>, rows: map<int, CatalogProduct>)
    ensures ProductsCoherent(entries - {AllProductsKey}, rows)
  {
  }

  /** An entry expiring never breaks coherence. */
  lemma ExpiryKeepsCoherence(entries: map<string, CacheValue>, rows: map<int, CatalogProduct>, key: string)
    requires ProductsCoherent(entries, rows)
    ensures ProductsCoherent(entries - {key}, rows)
  {
    if AllProductsKey in entries - {key} {
      assert (entries - {key})[AllProductsKey] == entries[AllProductsKey];
    }
  }

  /** `ProductRepository.UpdateAsync`: name, price, category and unit are copied onto the stored row; its id and description stay. */
  function UpdatedRow(existing: CatalogProduct, product: CatalogProduct): (r: CatalogProduct)
    ensures r.id == existing.id && r.description == existing.description
    ensures r.name == product.name && r.price == product.price && r.categoryId == product.categoryId && r.unit == product.unit
  {
    existing.(name := product.name, price := product.price, categoryId := product.categoryId, unit := product.unit)
  }

  /** The product service, over its table and the cache it shares with the category service. */
  class ProductService {
    var rows: map<int, CatalogProduct>
    const cache: Cache

    predicate Valid()
      reads this, cache
    {
      ProductsCoherent(cache.entries, rows) && RowsKeyed(rows)
    }

    constructor(rows: map<int, CatalogProduct>, cache: Cache)
      requires ProductsCoherent(cache.entries, rows) && RowsKeyed(rows)
      ensures this.rows == rows && this.cache == cache && Valid()
    {
      this.rows := rows;
      this.cache := cache;
    }

    /**
     * `GetAllProductsAsync`: a cached list is returned as it is; on a miss the table
     * is read and cached. Either way the caller gets the table's content.
     */
    method GetAllProducts() returns (products: set<CatalogProduct>)
      requires Valid()
      modifies cache
      ensures Valid() && products == rows.Values
      ensures ProductsIn(old(cache.entries), AllProductsKey).Some? ==> cache.entries == old(cache.entries)
      ensures ProductsIn(old(cache.entries), AllProductsKey).None? ==>
        cache.entries == old(cache.entries)[AllProductsKey := ProductList(rows.Values)]
    {
      var cached := ProductsIn(cache.entries, AllProductsKey);
      if cached.Some? {
        return cached.value;
      }
      products := rows.Values;
      cache.Set(AllProductsKey, ProductList(products));
    }

    /** `GetProductByIdAsync`, straight from the table. */
    method GetProductById(id: int) returns (product: Option<CatalogProduct>)
      ensures product.Some? <==> id in rows
      ensures product.Some? ==> product.value == rows[id]
    {
      product := if id in rows then Some(rows[id]) else None;
    }

    /** `GetProductsByCategoryAsync`, straight from the table. */
    method GetProductsByCategory(categoryId: int) returns (products: set<CatalogProduct>)
      ensures forall p :: p in products <==> p in rows.Values && p.categoryId == categoryId
    {
      products := set p | p in rows.Values && p.categoryId == categoryId;
    }

    /** `SearchProductsAsync`, straight from the table; the database's text match is the parameter `matches`. */
    method SearchProducts(term: string, matches: (CatalogProduct, string) -> bool) returns (products: set<CatalogProduct>)
      ensures forall p :: p in products <==> p in rows.Values && matches(p, term)
    {
      products := set p | p in rows.Values && matches(p, term);
    }

    /** `CreateProductAsync`: invalid data throws before anything changes; otherwise insert, then evict the list. */
    method CreateProduct(product: CatalogProduct, newId: int) returns (r: Result<CatalogProduct, ServiceError>)
      requires Valid() && newId !in rows
      modifies this, cache
      ensures Valid()
      ensures !MeetsAllRules(product) ==>
        r == Failure(InvalidProductData) && rows == old(rows) && cache.entries == old(cache.entries)
      ensures MeetsAllRules(product) ==>
        && r == Success(product.(id := newId))
        && rows == old(rows)[newId := product.(id := newId)]
        && cache.entries == old(cache.entries) - {AllProductsKey}
    {
      var valid := IsValidProduct(product);
      if !valid {
        return Failure(InvalidProductData);
      }
      var created := product.(id := newId);
      rows := rows[newId := created];
      cache.Remove(AllProductsKey);
      r := Success(created);
    }

    /**
     * `UpdateProductAsync`: a missing id gives null before the data is looked at;
     * invalid data then throws; otherwise the stored row takes the new fields and
     * the list is evicted.
     */
    method UpdateProduct(id: int, product: CatalogProduct) returns (r: Result<Option<CatalogProduct>, ServiceError>)
      requires Valid()
      modifies this, cache
      ensures Valid()
      ensures id !in old(rows) ==> r == Success(None) && rows == old(rows) && cache.entries == old(cache.entries)
      ensures id in old(rows) && !MeetsAllRules(product) ==>
        r == Failure(InvalidProductData) && rows == old(rows) && cache.entries == old(cache.entries)
      ensures id in old(rows) && MeetsAllRules(product) ==>
        && r == Success(Some(UpdatedRow(old(rows)[id], product.(id := id))))
        && rows == old(rows)[id := UpdatedRow(old(rows)[id], product.(id := id))]
        && cache.entries == old(cache.entries) - {AllProductsKey}
    {
      if id !in rows {
        return Success(None);
      }
      var valid := IsValidProduct(product);
      if !valid {
        return Failure(InvalidProductData);
      }
      var withId := product.(id := id);
      var updated := UpdatedRow(rows[withId.id], withId);
      rows := rows[id := updated];
      cache.Remove(AllProductsKey);
      r := Success(Some(updated));
    }

    /** `DeleteProductAsync`: the list is evicted exactly when a row was deleted. */
    method DeleteProduct(id: int) returns (deleted: bool)
      requires Valid()
      modifies this, cache
      ensures Valid()
      ensures deleted <==> id in old(rows)
      ensures rows == old(rows) - {id}
      ensures cache.entries == if deleted then old(cache.entries) - {AllProductsKey} else old(cache.entries)
    {
      deleted := id in rows;
      if deleted {
        rows := rows - {id};
        cache.Remove(AllProductsKey);
      }
    }
  }
}
