/**
 * The product controller: product CRUD with category and brand checks, and the image
 * sub-resource (multi-file upload, list by product, delete by image id).
 *
 * Each action checks its guards in the order the controller does; that order decides
 * which status comes back, and only the success path writes.
 */
module ProductApi {
  import opened Models
  import opened EntityStore
  import opened ImageRepository
  import opened ImagePaths
  import opened Blobs

  const InvalidModelState := "invalid model state"
  const MissingReference := "Category or Brand not found"
  const MismatchedId := "Mismatched Product ID"
  const ProductNotFound := "Product not found"
  const NoFileUploaded := "No file uploaded"

  /** The blob path upload writes for the `k`-th file. */
  function StoredPathAt(files: seq<FormFile>, tokens: seq<string>, k: int): string
    requires 0 <= k < |files| && |tokens| == |files|
  {
    UploadPath(StoredFileName(tokens[k], files[k].fileName))
  }

  /** The blob paths written for the first `n` files. */
  function StoredPaths(files: seq<FormFile>, tokens: seq<string>, n: int): set<string>
    requires 0 <= n <= |files| && |tokens| == |files|
  {
    if n == 0 then {} else StoredPaths(files, tokens, n - 1) + {StoredPathAt(files, tokens, n - 1)}
  }

  /** The image row upload records for the `k`-th file, given the id the store assigned. */
  function UploadedImage(productId: int, files: seq<FormFile>, tokens: seq<string>, k: int, id: int): ProductImage
    requires 0 <= k < |files| && |tokens| == |files|
  {
    ProductImage(id, ImageUrl(StoredFileName(tokens[k], files[k].fileName)), productId)
  }

  /** The rows upload records for the first `n` files, the store numbering them from `firstId`. */
  function UploadedImages(productId: int, files: seq<FormFile>, tokens: seq<string>, firstId: int, n: int)
    : (rows: seq<ProductImage>)
    requires 0 <= n <= |files| && |tokens| == |files|
    ensures |rows| == n
  {
    if n == 0 then []
    else UploadedImages(productId, files, tokens, firstId, n - 1)
         + [UploadedImage(productId, files, tokens, n - 1, firstId + n - 1)]
  }

  /** The `k`-th recorded row belongs to the `k`-th file and carries the `k`-th new id. */
  lemma {:induction false} UploadedImagesAt(productId: int, files: seq<FormFile>, tokens: seq<string>,
                                            firstId: int, n: int, k: int)
    requires 0 <= k < n <= |files| && |tokens| == |files|
    ensures UploadedImages(productId, files, tokens, firstId, n)[k]
              == UploadedImage(productId, files, tokens, k, firstId + k)
  {
    if k < n - 1 {
      UploadedImagesAt(productId, files, tokens, firstId, n - 1, k);
    }
  }

  /** The path written for any one of the first `n` files is among the paths written for them. */
  lemma {:induction false} StoredPathsHas(files: seq<FormFile>, tokens: seq<string>, n: int, k: int)
    requires 0 <= k < n <= |files| && |tokens| == |files|
    ensures StoredPathAt(files, tokens, k) in StoredPaths(files, tokens, n)
  {
    if k < n - 1 {
      StoredPathsHas(files, tokens, n - 1, k);
    }
  }

  /** Each recorded row's URL, turned back into a path as image deletion does, names a written file. */
  lemma UploadedUrlResolves(productId: int, files: seq<FormFile>, tokens: seq<string>, firstId: int, n: int, k: int)
    requires 0 <= k < n <= |files| && |tokens| == |files|
    ensures DeletePath(UploadedImages(productId, files, tokens, firstId, n)[k].imageUrl) in StoredPaths(files, tokens, n)
  {
    UploadedImagesAt(productId, files, tokens, firstId, n, k);
    DeletePathOfImageUrl(StoredFileName(tokens[k], files[k].fileName));
    StoredPathsHas(files, tokens, n, k);
  }

  /** One pass of the upload loop extends the collected rows and the written paths by the next file. */
  lemma UploadStep(productId: int, files: seq<FormFile>, tokens: seq<string>, firstId: int, i: int,
                   rows0: seq<ProductImage>, files0: set<string>, collected: seq<ProductImage>,
                   added: ProductImage)
    requires 0 <= i < |files| && |tokens| == |files|
    requires collected == UploadedImages(productId, files, tokens, firstId, i)
    requires added == ProductImage(firstId + i, ImageUrl(StoredFileName(tokens[i], files[i].fileName)), productId)
    ensures collected + [added] == UploadedImages(productId, files, tokens, firstId, i + 1)
    ensures rows0 + UploadedImages(productId, files, tokens, firstId, i + 1) == rows0 + collected + [added]
    ensures files0 + StoredPaths(files, tokens, i + 1)
            == files0 + StoredPaths(files, tokens, i) + {UploadPath(StoredFileName(tokens[i], files[i].fileName))}
  {
  }

  class ProductApiController {
    const products: Table<Product>
    const categories: Table<Category>
    const brands: Table<Brand>
    const images: ProductImageRepository
    const blobs: BlobStore

    ghost predicate Valid()
      reads this, products, categories, brands, images
    {
      && products.Valid() && categories.Valid() && brands.Valid() && images.Valid()
      && products.idOf == ProductKey && products.stamp == WithProductId
      && categories.idOf == CategoryKey && brands.idOf == BrandKey
    }

    constructor (products: Table<Product>, categories: Table<Category>, brands: Table<Brand>,
                 images: ProductImageRepository, blobs: BlobStore)
      ensures this.products == products && this.categories == categories && this.brands == brands
      ensures this.images == images && this.blobs == blobs
    {
      this.products := products;
      this.categories := categories;
      this.brands := brands;
      this.images := images;
      this.blobs := blobs;
    }

    /** Every product, as stored. */
    method GetAll() returns (res: Response<map<int, Product>>)
      ensures res.Ok? && res.body == products.rows
    {
      return Ok(products.rows);
    }

    /** 404 exactly when no product has that id; otherwise 200 with that product. */
    method Get(id: int) returns (res: Response<Product>)
      requires Valid()
      ensures res.NotFound? <==> id !in products.rows
      ensures id in products.rows ==> res == Ok(products.rows[id])
      ensures res.Ok? ==> res.body.id == id
    {
      var product := products.GetById(id);
      if product.None? {
        return NotFound("");
      }
      return Ok(product.value);
    }

    /**
     * 400 with no write when the model state is invalid or the category or brand is
     * absent; otherwise one product is inserted under a fresh id and 201 carries it.
     */
    method Create(modelStateValid: bool, product: Product) returns (res: Response<Product>)
      requires Valid()
      modifies products
      ensures Valid()
      ensures !modelStateValid ==> res == BadRequest(InvalidModelState)
      ensures (modelStateValid && (product.categoryId !in categories.rows || product.brandId !in brands.rows))
                ==> res == BadRequest(MissingReference)
      ensures res.Created? <==>
                modelStateValid && product.categoryId in categories.rows && product.brandId in brands.rows
      ensures !res.Created? ==> products.rows == old(products.rows)
      ensures products.nextId == if res.Created? then old(products.nextId) + 1 else old(products.nextId)
      ensures res.Created? ==>
                && res.id == old(products.nextId) && res.id !in old(products.rows)
                && res.body == product.(id := res.id)
                && products.rows == old(products.rows)[res.id := res.body]
    {
      if !modelStateValid {
        return BadRequest(InvalidModelState);
      }
      var category := categories.GetById(product.categoryId);
      var brand := brands.GetById(product.brandId);
      if category.None? || brand.None? {
        return BadRequest(MissingReference);
      }
      var id, created := products.Add(product);
      return Created(id, created);
    }

    /**
     * 400 on an id mismatch before any lookup; then 404 when the product is absent;
     * then 400 when the category or brand is absent; only then the row is replaced (204).
     */
    method Update(id: int, product: Product) returns (res: Response<Product>)
      requires Valid()
      modifies products
      ensures Valid()
      ensures id != product.id ==> res == BadRequest(MismatchedId)
      ensures id == product.id && id !in old(products.rows) ==> res == NotFound("")
      ensures (&& id == product.id && id in old(products.rows)
               && (product.categoryId !in categories.rows || product.brandId !in brands.rows))
                ==> res == BadRequest(MissingReference)
      ensures res.NoContent? <==>
                && id == product.id && id in old(products.rows)
                && product.categoryId in categories.rows && product.brandId in brands.rows
      ensures products.rows == if res.NoContent? then old(products.rows)[id := product] else old(products.rows)
      ensures products.nextId == old(products.nextId)
    {
      if id != product.id {
        return BadRequest(MismatchedId);
      }
      var exist := products.GetById(id);
      if exist.None? {
        return NotFound("");
      }
      var category := categories.GetById(product.categoryId);
      var brand := brands.GetById(product.brandId);
      if category.None? || brand.None? {
        return BadRequest(MissingReference);
      }
      var _ := products.Update(product);
      return NoContent;
    }

    /** 404 with nothing removed when the product is absent; otherwise it is removed (204). */
    method Delete(id: int) returns (res: Response<Product>)
      requires Valid()
      modifies products
      ensures Valid()
      ensures res == if id in old(products.rows) then NoContent else NotFound("")
      ensures products.rows == old(products.rows) - {id}
      ensures products.nextId == old(products.nextId)
    {
      var exist := products.GetById(id);
      if exist.None? {
        return NotFound("");
      }
      var _ := products.Delete(id);
      return NoContent;
    }

    /**
     * 404 for a missing product (even with no files), then 400 for an empty file list;
     * neither writes anything. Otherwise every file is stored and recorded, and 200
     * returns the new image rows in file order.
     */
    method UploadImages(productId: int, files: seq<FormFile>, tokens: seq<string>)
      returns (res: Response<seq<ProductImage>>)
      requires images.Valid()
      requires |tokens| == |files|
      modifies images, blobs
      ensures images.Valid()
      ensures productId !in products.rows ==> res == NotFound(ProductNotFound)
      ensures productId in products.rows && files == [] ==> res == BadRequest(NoFileUploaded)
      ensures res.Ok? <==> productId in products.rows && files != []
      ensures !res.Ok? ==>
                && images.images == old(images.images) && images.nextId == old(images.nextId)
                && blobs.files == old(blobs.files)
      ensures res.Ok? ==>
                && |res.body| == |files|
                && images.images == old(images.images) + res.body
                && images.nextId == old(images.nextId) + |files|
                && (forall k :: 0 <= k < |files| ==>
                      res.body[k] == UploadedImage(productId, files, tokens, k, old(images.nextId) + k))
                && blobs.files == old(blobs.files) + StoredPaths(files, tokens, |files|)
      ensures res.Ok? ==> forall k :: 0 <= k < |res.body| ==> DeletePath(res.body[k].imageUrl) in blobs.files
    {
      var product := products.GetById(productId);
      if product.None? {
        return NotFound(ProductNotFound);
      }
      if files == [] {
        return BadRequest(NoFileUploaded);
      }
      var imageList := SaveImageFiles(productId, files, tokens);
      forall k | 0 <= k < |files|
        ensures imageList[k] == UploadedImage(productId, files, tokens, k, old(images.nextId) + k)
        ensures DeletePath(imageList[k].imageUrl) in StoredPaths(files, tokens, |files|)
      {
        UploadedImagesAt(productId, files, tokens, old(images.nextId), |files|, k);
        UploadedUrlResolves(productId, files, tokens, old(images.nextId), |files|, k);
      }
      return Ok(imageList);
    }

    /**
     * The upload loop: file by file, in order, the bytes go to `images/products/{token}_{name}`
     * and one image row of the product, with the matching URL, is inserted and collected.
     */
    method SaveImageFiles(productId: int, files: seq<FormFile>, tokens: seq<string>)
      returns (imageList: seq<ProductImage>)
      requires images.Valid()
      requires |tokens| == |files|
      modifies images, blobs
      ensures images.Valid()
      ensures imageList == UploadedImages(productId, files, tokens, old(images.nextId), |files|)
      ensures images.images == old(images.images) + imageList
      ensures images.nextId == old(images.nextId) + |files|
      ensures blobs.files == old(blobs.files) + StoredPaths(files, tokens, |files|)
    {
      ghost var firstId, rows0, files0 := images.nextId, images.images, blobs.files;
      imageList := [];
      var i := 0;
      while i < |files|
        invariant 0 <= i <= |files|
        invariant images.Valid()
        invariant images.nextId == firstId + i
        invariant imageList == UploadedImages(productId, files, tokens, firstId, i)
        invariant images.images == rows0 + imageList
        invariant blobs.files == files0 + StoredPaths(files, tokens, i)
      {
        var added := SaveImageFile(productId, StoredFileName(tokens[i], files[i].fileName));
        UploadStep(productId, files, tokens, firstId, i, rows0, files0, imageList, added);
        imageList := imageList + [added];
        i := i + 1;
      }
    }

    /**
     * One pass of the upload loop: the bytes go to `images/products/{fileName}` and an image
     * row of the product with URL `/images/products/{fileName}` is inserted and returned.
     */
    method SaveImageFile(productId: int, fileName: string) returns (added: ProductImage)
      requires images.Valid()
      modifies images, blobs
      ensures images.Valid()
      ensures added == ProductImage(old(images.nextId), ImageUrl(fileName), productId)
      ensures images.images == old(images.images) + [added]
      ensures images.nextId == old(images.nextId) + 1
      ensures blobs.files == old(blobs.files) + {UploadPath(fileName)}
    {
      blobs.Save(UploadPath(fileName));
      var img := ProductImage(0, ImageUrl(fileName), productId);
      added := images.Add(img);
    }

    /** 200 with exactly this product's images, in store order; possibly empty. */
    method GetImages(productId: int) returns (res: Response<seq<ProductImage>>)
      requires images.Valid()
      ensures res.Ok?
      ensures forall x :: x in res.body <==> x in images.images && x.productId == productId
      ensures IdsAscending(res.body)
    {
      var found := images.GetByProductId(productId);
      return Ok(found);
    }

    /**
     * 404 with no change when the image is absent. Otherwise the file its URL names is
     * deleted if it exists, the row is removed either way, and 204 comes back.
     */
    method DeleteImage(imageId: int) returns (res: Response<ProductImage>)
      requires images.Valid()
      modifies images, blobs
      ensures images.Valid()
      ensures res == if old(images.GetById(imageId)).Some? then NoContent else NotFound("")
      ensures images.nextId == old(images.nextId)
      ensures res.NotFound? ==> images.images == old(images.images) && blobs.files == old(blobs.files)
      ensures res.NoContent? ==>
                && images.images == Filter(old(images.images), (x: ProductImage) => x.id != imageId)
                && (forall x :: x in images.images <==> x in old(images.images) && x.id != imageId)
                && blobs.files == old(blobs.files) - {DeletePath(old(images.GetById(imageId)).value.imageUrl)}
    {
      var img := images.GetById(imageId);
      if img.None? {
        return NotFound("");
      }
      DeleteImageFile(DeletePath(img.value.imageUrl));
      var _ := images.Delete(imageId);
      return NoContent;
    }

    /** Removes the file at `filePath` when there is one; a missing file is not an error. */
    method DeleteImageFile(filePath: string)
      modifies blobs
      ensures blobs.files == old(blobs.files) - {filePath}
    {
      if blobs.Exists(filePath) {
        blobs.Delete(filePath);
      }
    }
  }
}
