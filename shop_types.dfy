/** The shapes the React shop passes around (frontend/src/types/index.ts and the cart's own interfaces). */
module ShopTypes {
  import opened Wrappers

  /** A catalogue product as the .NET API sends it; `unit` and `description` may be missing. */
  datatype Product = Product(
    id: int,
    name: string,
    price: real,
    categoryId: int,
    categoryName: string,
    unit: Option<string>,
    description: Option<string>)

  /** A catalogue category. */
  datatype Category = Category(id: int, name: string, description: Option<string>, products: seq<Product>)

  /** One cart line; `id` and `productId` are both the product's id. */
  datatype CartItem = CartItem(
    id: int,
    productId: int,
    productName: string,
    categoryId: int,
    categoryName: string,
    price: real,
    unit: string,
    quantity: int,
    totalPrice: real)

  /** The checkout form's fields. */
  datatype CustomerInfo = CustomerInfo(firstName: string, lastName: string, email: string, address: string)

  /** A JSON value as the order service returns it, for the fields the shop types as `any`. */
  datatype Json =
    | JsonNull
    | JsonBool(b: bool)
    | JsonNumber(n: real)
    | JsonString(s: string)
    | JsonArray(elements: seq<Json>)
    | JsonObject(members: seq<(string, Json)>)

  /** The unit a product without one is sold in ("unit", in Hebrew). */
  const DefaultUnit: string := "יח׳"
}
