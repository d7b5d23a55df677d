/**
 * Request sequences over fresh tables that combine several actions: the dangling
 * category reference that category deletion allows, and a two-file upload followed by a
 * listing and an image deletion. The short tokens stand for generated GUIDs.
 */
module Scenarios {
  import opened Models
  import opened EntityStore
  import opened ImageRepository
  import opened ImagePaths
  import opened Blobs
  import opened ProductApi
  import opened CategoryApi

  /** A product controller over empty tables and an empty file area. */
  method NewProductApi(categories: Table<Category>) returns (api: ProductApiController)
    requires categories.Valid() && categories.idOf == CategoryKey
    ensures api.categories == categories
    ensures fresh(api.products) && fresh(api.brands) && fresh(api.images) && fresh(api.blobs)
    ensures api.Valid()
    ensures api.products.rows == map[] && api.products.nextId == 1
    ensures api.brands.rows == map[] && api.brands.nextId == 1
    ensures api.images.images == [] && api.images.nextId == 1 && api.blobs.files == {}
  {
    var brands := new Table<Brand>(BrandKey, WithBrandId);
    var products := new Table<Product>(ProductKey, WithProductId);
    var images := new ProductImageRepository();
    var blobs := new BlobStore();
    api := new ProductApiController(products, categories, brands, images, blobs);
  }

  /**
   * A category controller and a product controller sharing one category table, which holds
   * one category; the brand table holds one brand, and there are no products yet.
   */
  method NewShopWithCategory() returns (categoryApi: CategoryApiController, productApi: ProductApiController,
                                        categoryId: int, brandId: int)
    ensures categoryApi.categories == productApi.categories
    ensures fresh(productApi.products) && fresh(productApi.categories) && fresh(productApi.brands)
    ensures categoryApi.Valid() && productApi.Valid()
    ensures categoryId in productApi.categories.rows && brandId in productApi.brands.rows
    ensures productApi.products.rows == map[]
  {
    var categories := new Table<Category>(CategoryKey, WithCategoryId);
    categoryApi := new CategoryApiController(categories);
    productApi := NewProductApi(categories);
    var rpg := categoryApi.PostCategory(Category(0, "RPG"));
    categoryId := rpg.id;
    var created;
    brandId, created := productApi.brands.Add(Brand(0, "Acme"));
  }

  /** Deleting a category that a product refers to succeeds and leaves the product as it was. */
  method DanglingCategoryScenario()
  {
    var categoryApi, productApi, categoryId, brandId := NewShopWithCategory();
    var created := productApi.Create(true, Product(0, "Sword", categoryId, brandId));
    var sword := Product(created.id, "Sword", categoryId, brandId);
    var got := productApi.Get(created.id);
    assert got == Ok(sword);

    var deleted := categoryApi.DeleteCategory(categoryId);
    assert deleted == NoContent && categoryId !in productApi.categories.rows;
    got := productApi.Get(created.id);
    assert got == Ok(sword);
  }

  /** A product controller whose tables hold one product, with no images and no files. */
  method NewShopWithProduct() returns (api: ProductApiController, productId: int)
    ensures fresh(api.products) && fresh(api.categories) && fresh(api.brands)
    ensures fresh(api.images) && fresh(api.blobs)
    ensures api.Valid() && productId in api.products.rows
    ensures api.images.images == [] && api.images.nextId == 1 && api.blobs.files == {}
  {
    var categories := new Table<Category>(CategoryKey, WithCategoryId);
    api := NewProductApi(categories);
    var created;
    productId, created := api.products.Add(Product(0, "Sword", 1, 1));
  }

  /** A deleted product's id is not handed out again: the next create gets a new one. */
  method DeletedIdNotReusedScenario()
  {
    var _, productApi, categoryId, brandId := NewShopWithCategory();
    var first := productApi.Create(true, Product(0, "Sword", categoryId, brandId));
    var deleted := productApi.Delete(first.id);
    assert deleted == NoContent;
    var second := productApi.Create(true, Product(0, "Shield", categoryId, brandId));
    assert second.Created? && second.id != first.id;
    var got := productApi.Get(first.id);
    assert got.NotFound?;
  }

  /** An existing product with no files: 400, and nothing is written. */
  method EmptyUploadScenario()
  {
    var api, productId := NewShopWithProduct();
    var none := api.UploadImages(productId, [], []);
    assert none == BadRequest(NoFileUploaded);
    assert api.images.images == [] && api.blobs.files == {};
  }

  /**
   * A product with two uploaded images, `front.png` and `back.png`, whose tokens stand for
   * two generated GUIDs: the two rows and the two written files, and nothing else.
   */
  method ShopWithTwoImages() returns (api: ProductApiController, productId: int, front: ProductImage, back: ProductImage)
    ensures fresh(api.images) && fresh(api.blobs)
    ensures api.images.Valid() && productId in api.products.rows
    ensures api.images.images == [front, back] && front.id != back.id
    ensures front.productId == productId && back.productId == productId
    ensures front.imageUrl == ImageUrl(StoredFileName("9b1d", "front.png"))
    ensures back.imageUrl == ImageUrl(StoredFileName("4e7a", "back.png"))
    ensures api.blobs.files == {UploadPath(StoredFileName("9b1d", "front.png")), UploadPath(StoredFileName("4e7a", "back.png"))}
  {
    api, productId := NewShopWithProduct();
    var files := [FormFile("front.png"), FormFile("back.png")];
    var tokens := ["9b1d", "4e7a"];
    var uploaded := api.UploadImages(productId, files, tokens);
    front, back := uploaded.body[0], uploaded.body[1];
    assert StoredPaths(files, tokens, 2) == {StoredPathAt(files, tokens, 0), StoredPathAt(files, tokens, 1)};
  }

  /** Two files uploaded to a product give two rows with distinct URLs, listed back together. */
  method UploadTwoImagesScenario()
  {
    var api, productId, front, back := ShopWithTwoImages();
    ImageUrlsDistinct("9b1d", "front.png", "4e7a", "back.png");
    assert front.imageUrl != back.imageUrl;

    var listed := api.GetImages(productId);
    assert forall x :: x in listed.body <==> x == front || x == back;
  }

  /** Deleting one of two uploaded images removes its row and its file, and nothing else. */
  method DeleteUploadedImageScenario()
  {
    var api, _, front, back := ShopWithTwoImages();
    var backPath := UploadPath(StoredFileName("4e7a", "back.png"));
    UploadPathsDistinct("9b1d", "front.png", "4e7a", "back.png");

    var gone := api.DeleteImage(front.id);
    assert gone == NoContent;
    DeletePathOfImageUrl(StoredFileName("9b1d", "front.png"));
    assert api.blobs.files == {backPath};
    assert forall x :: x in api.images.images <==> x == back;
  }
}
