/** The product shapes the customer pages receive, as they use them: a product
    with its ordered list of variants, each variant a colour and size with its
    own price and stock. */
module CatalogTypes {

  datatype Variant = Variant(
    id: string,
    color: string,
    size: string,
    price: int,
    stockQuantity: int,
    imageUrl: string)

  datatype Product = Product(
    id: string,
    name: string,
    description: string,
    imageUrl: string,
    categoryId: string,
    categoryName: string,
    variants: seq<Variant>)
}
