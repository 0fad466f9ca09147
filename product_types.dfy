/** The records of lib/types/product.ts that the cart store uses. */
module ProductTypes {
  import opened UserTypes

  datatype Product = Product(
    id: string,
    name: string,
    description: string,
    price: Price,
    sizes: seq<string>,
    league: string,
    season: string,
    stock: int)

  /** One cart line: a product in one size, with the price copied from the product when the line was made. */
  datatype CartItem = CartItem(
    id: string,
    productId: string,
    product: Product,
    quantity: int,
    size: string,
    price: Price)
}
