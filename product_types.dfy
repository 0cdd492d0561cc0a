/** The records exchanged between the store and the mock backend
    (src/types/product.ts). */
module ProductTypes {
  import opened Wrappers

  /** Timestamps are ISO-8601 strings produced by the clock; the model treats
      them as opaque text supplied by the caller. */
  type Timestamp = string

  /** A price is a JavaScript number; it is only ever copied, never computed. */
  type Price = real

  datatype Product = Product(
    id: string,
    name: string,
    description: string,
    price: Price,
    category: string,
    inStock: bool,
    createdAt: Timestamp,
    updatedAt: Timestamp)

  /** Everything a client supplies to create a product. */
  datatype CreateProductData = CreateProductData(
    name: string,
    description: string,
    price: Price,
    category: string,
    inStock: bool)

  /** A partial patch: the `id` to update plus any subset of the creation
      fields; `None` means the key was omitted. */
  datatype UpdateProductData = UpdateProductData(
    id: string,
    name: Option<string>,
    description: Option<string>,
    price: Option<Price>,
    category: Option<string>,
    inStock: Option<bool>)

  /** The envelope every successful service call resolves to. */
  datatype ApiResponse<+T> = ApiResponse(data: T, message: string, success: bool)

  /** The creation fields of a product: what a patch can overwrite. */
  function Attributes(p: Product): CreateProductData {
    CreateProductData(p.name, p.description, p.price, p.category, p.inStock)
  }

  /** The patch that writes every field of `data` onto the product `id`. */
  function FullPatch(id: string, data: CreateProductData): UpdateProductData {
    UpdateProductData(id, Some(data.name), Some(data.description), Some(data.price),
                      Some(data.category), Some(data.inStock))
  }
}
