/** Entities of the storefront catalogue and the shape of an API response. */
module Models {

  datatype Option<+T> = None | Some(value: T)

  /** A product category. Only the fields the controllers look at are kept. */
  datatype Category = Category(id: int, name: string)

  /** A brand; products refer to it by `brandId`. */
  datatype Brand = Brand(id: int, name: string)

  /** A product; `categoryId` and `brandId` are foreign keys checked on create and update. */
  datatype Product = Product(id: int, name: string, categoryId: int, brandId: int)

  /** The key each entity carries, and the same entity with the store-assigned key written in. */
  function CategoryKey(c: Category): int { c.id }
  function WithCategoryId(c: Category, id: int): Category { c.(id := id) }
  function BrandKey(b: Brand): int { b.id }
  function WithBrandId(b: Brand, id: int): Brand { b.(id := id) }
  function ProductKey(p: Product): int { p.id }
  function WithProductId(p: Product, id: int): Product { p.(id := id) }

  /** A row of the image table: the public URL of the stored file and the owning product. */
  datatype ProductImage = ProductImage(id: int, imageUrl: string, productId: int)

  /** An uploaded form file; its bytes are not modelled, only the client-side file name. */
  datatype FormFile = FormFile(fileName: string)

  /** The outcome of a controller action: an HTTP status and, where there is one, its payload. */
  datatype Response<+T> =
    | Ok(body: T)                 // 200
    | Created(id: int, body: T)   // 201, with the id the location header points at
    | NoContent                   // 204
    | BadRequest(message: string) // 400
    | NotFound(message: string)   // 404
}
