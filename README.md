# gaming_shop_api catalogue core, modelled in Dafny

This project models the request handling of a storefront's catalogue backend. It covers
the product controller, the category controller and the product image repository.

- Each controller action is a method. It returns a `Response` (200 `Ok`, 201 `Created`,
  204 `NoContent`, 400 `BadRequest`, 404 `NotFound`) and changes only the tables it names
  in `modifies`.
- The guards run in the same order as in the controllers. Each contract says which status
  comes back for which table contents, and exactly how the tables change. Every failure
  path leaves them unchanged.
- The product, category and brand tables sit behind repositories whose code is not part of
  this model. `EntityStore.Table` stands for them: a map from id to row, where every row
  carries its own key, plus an identity counter. Only inserts move the counter, so every
  inserted id is fresh and a deleted id is never handed out again.
- The image table is modelled in detail. `ImageRepository.ProductImageRepository` keeps its
  rows in store order, with ids strictly ascending. Filtering by product, looking up by id,
  inserting and deleting are each specified exactly.
- The file area under the web root is `Blobs.BlobStore`, a set of relative paths.
- Upload names each file `{token}_{name}`, writes it to `images/products/{token}_{name}`
  and records the URL `/images/products/{token}_{name}`. `ImagePaths` proves two things
  about this. Image deletion turns the URL back into the same path the upload wrote. And
  distinct underscore-free tokens always give distinct URLs and path strings.
- `Scenarios` states short request sequences over fresh tables, and their outcomes are
  verified. One shows the dangling category reference that category deletion allows.
  Another shows that a deleted product's id is not handed out again. Others show the empty
  upload, a two-file upload with its listing, and the deletion of one uploaded image.

Modules: `Models` (entities, `Response`), `EntityStore`, `ImageRepository`, `Blobs`,
`ImagePaths`, `ProductApi`, `CategoryApi`, `Scenarios`.

## Model

| member | source | states |
|---|---|---|
| `ProductApi.ProductApiController.GetAll` | gaming_shop_api/Controllers/ProductAPIController.cs:32-36 | 200 with the product table as stored |
| `ProductApi.ProductApiController.Get` | gaming_shop_api/Controllers/ProductAPIController.cs:40-46 | 404 exactly when no product has the id; otherwise 200 with that product, whose own id is the one asked for |
| `ProductApi.ProductApiController.Create` | gaming_shop_api/Controllers/ProductAPIController.cs:51-64 | 400 for invalid model state, then 400 when the category or brand is absent, with no write and the id counter kept; otherwise 201 with one product inserted under the counter's next id, never used before, stamped with that id, the counter advanced by one, and nothing else changed |
| `ProductApi.ProductApiController.Update` | gaming_shop_api/Controllers/ProductAPIController.cs:69-86 | 400 on path/body id mismatch before any lookup; then 404 for an absent product; then 400 for an absent category or brand; the row is replaced (204) only when all three checks pass, and the rows are unchanged otherwise; the id counter never moves |
| `ProductApi.ProductApiController.Delete` | gaming_shop_api/Controllers/ProductAPIController.cs:91-99 | 404 with no change when absent; otherwise that product alone is removed and 204; the id counter never moves, so the id is not reused |
| `ProductApi.ProductApiController.UploadImages` | gaming_shop_api/Controllers/ProductAPIController.cs:104-137 | 404 for a missing product even with no files, then 400 for no files, neither writing; otherwise 200 with N rows for N files, appended in file order, row k with the k-th new id, this product id and URL `/images/products/{token_k}_{name_k}`, and exactly the N upload paths added to the file area; every returned row's URL, turned back into a path as image deletion does, names a file now in the file area |
| `ProductApi.ProductApiController.SaveImageFiles` | gaming_shop_api/Controllers/ProductAPIController.cs:113-134 | the loop: the collected rows are exactly the per-file rows in order, they are appended to the image table, the identity counter moves by N, and the written paths are exactly the N upload paths |
| `ProductApi.ProductApiController.SaveImageFile` | gaming_shop_api/Controllers/ProductAPIController.cs:117-133 | one file: a file is written at `images/products/{fileName}` and one row with the next id, URL `/images/products/{fileName}` and the product id is appended and returned |
| `ProductApi.UploadedImagesAt` | gaming_shop_api/Controllers/ProductAPIController.cs:126-133 | the k-th collected row belongs to the k-th file and carries the k-th new id |
| `ProductApi.StoredPathsHas` | gaming_shop_api/Controllers/ProductAPIController.cs:115-124 | the path written for any one of the first n files is among the paths written for them |
| `ProductApi.UploadedUrlResolves` | gaming_shop_api/Controllers/ProductAPIController.cs:117-126 | the URL recorded for the k-th file, turned back into a path as image deletion does, is one of the paths the upload wrote |
| `ProductApi.ProductApiController.GetImages` | gaming_shop_api/Controllers/ProductAPIController.cs:141-145 | 200 with exactly the image rows of that product, in ascending id order; empty when there are none |
| `ProductApi.ProductApiController.DeleteImage` | gaming_shop_api/Controllers/ProductAPIController.cs:150-163 | 404 with no change when the image is absent; otherwise that row alone is removed, the file its URL names is removed from the file area, and 204 |
| `ProductApi.ProductApiController.DeleteImageFile` | gaming_shop_api/Controllers/ProductAPIController.cs:157-159 | the file at the derived path is gone afterwards and no other file is touched; a missing file is not an error |
| `ImagePaths.DeletePathOfImageUrl` | gaming_shop_api/Controllers/ProductAPIController.cs:117-162 | the path image deletion derives from an uploaded URL, with leading slashes trimmed and `/` mapped to the separator, is exactly the path upload wrote |
| `ImagePaths.TokenOfStoredFileName` | gaming_shop_api/Controllers/ProductAPIController.cs:117 | an underscore-free token is recovered from `{token}_{name}` as the text before the first underscore |
| `ImagePaths.StoredFileNameInjective` | gaming_shop_api/Controllers/ProductAPIController.cs:117 | for underscore-free tokens, `{token}_{name}` determines both token and name |
| `ImagePaths.ImageUrlsDistinct` | gaming_shop_api/Controllers/ProductAPIController.cs:117-126 | distinct underscore-free tokens give distinct image URLs whatever the file names |
| `ImagePaths.UploadPathsDistinct` | gaming_shop_api/Controllers/ProductAPIController.cs:117-118 | distinct underscore-free tokens give distinct stored path strings whatever the file names |
| `ImagePaths.TrimStartSpec` | gaming_shop_api/Controllers/ProductAPIController.cs:157 | trimming drops a prefix made only of `/`, and what is left does not start with `/` |
| `ImagePaths.ReplaceCharSpec` | gaming_shop_api/Controllers/ProductAPIController.cs:157 | replacement keeps the length and changes exactly the occurrences of the replaced character |
| `ImagePaths.ReplaceCharSame` | gaming_shop_api/Controllers/ProductAPIController.cs:157 | with `/` as the separator, the replacement leaves the path as it is |
| `CategoryApi.CategoryApiController.GetCategories` | gaming_shop_api/Controllers/CategoryAPIController.cs:21-25 | 200 with the whole category table, unchanged |
| `CategoryApi.CategoryApiController.GetCategory` | gaming_shop_api/Controllers/CategoryAPIController.cs:29-35 | 404 exactly when the id is absent; otherwise 200 with that category, whose own id is the one asked for |
| `CategoryApi.CategoryApiController.PostCategory` | gaming_shop_api/Controllers/CategoryAPIController.cs:39-43 | always 201; exactly one category is inserted under the counter's next id, never used before, and carries that id; the counter advances by one |
| `CategoryApi.CategoryApiController.PutCategory` | gaming_shop_api/Controllers/CategoryAPIController.cs:47-54 | 404 with no change when the path id is absent; otherwise 204 and the body is written under its own id, never compared with the path id, so with a differing body id the path row stays as it was; the id counter never moves |
| `CategoryApi.CategoryApiController.DeleteCategory` | gaming_shop_api/Controllers/CategoryAPIController.cs:58-65 | 404 with no change when absent; otherwise only that category is removed and 204; no product is looked at; the id counter never moves |
| `ImageRepository.ProductImageRepository.GetByProductId` | gaming_shop_api/Repositories/ProductImageRepository.cs:14-19 | exactly the rows whose product id matches, in ascending id order; empty when none match |
| `ImageRepository.ProductImageRepository.GetById` | gaming_shop_api/Repositories/ProductImageRepository.cs:21-24 | a row with that id when there is one, None exactly when no row has it |
| `ImageRepository.ProductImageRepository.Add` | gaming_shop_api/Repositories/ProductImageRepository.cs:26-31 | the row is appended with the next identity and returned; every earlier row stays; the new id was unused and a later lookup by it returns the row |
| `ImageRepository.ProductImageRepository.Delete` | gaming_shop_api/Repositories/ProductImageRepository.cs:33-40 | false and no change when the id is absent; otherwise true, exactly that row is gone and all others stay in order |
| `ImageRepository.Filter` | gaming_shop_api/Repositories/ProductImageRepository.cs:16-18 | the filter result holds exactly the input elements that pass the test, both directions |
| `ImageRepository.FilterKeepsIdsAscending` | gaming_shop_api/Repositories/ProductImageRepository.cs:16-18 | filtering keeps rows in ascending id order |
| `ImageRepository.FindById` | gaming_shop_api/Repositories/ProductImageRepository.cs:23 | the lookup finds a row with the id, or None exactly when no row has it |
| `ImageRepository.FindByIdFindsRow` | gaming_shop_api/Repositories/ProductImageRepository.cs:23 | in an ascending table, the lookup by a row's id returns that very row |
| `ImageRepository.AscendingIdsBelow` | gaming_shop_api/Repositories/ProductImageRepository.cs:28-29 | in the image table an earlier row always has a smaller id than a later one |
| `ImageRepository.AppendIdsAscending` | gaming_shop_api/Repositories/ProductImageRepository.cs:28-29 | appending a row numbered above the last keeps the table ascending |
| `EntityStore.Table.GetById` | gaming_shop_api/Repositories/ICategoryRepository.cs:8 | a row exactly when the id is in the table, and then the row stored under it, which carries that id |
| `EntityStore.Table.Add` | gaming_shop_api/Repositories/ICategoryRepository.cs:9 | inserts under the next identity, which no row has, stores the entity stamped with that id, returns it, and advances the counter by one |
| `EntityStore.Table.Update` | gaming_shop_api/Repositories/ICategoryRepository.cs:10 | replaces the row under the key the entity carries when present, otherwise changes nothing, and reports which; the counter never moves |
| `EntityStore.Table.Delete` | gaming_shop_api/Repositories/ICategoryRepository.cs:11 | removes the row under the id and reports whether there was one; the counter never moves |
| `Blobs.BlobStore.Exists` | gaming_shop_api/Controllers/ProductAPIController.cs:158 | true exactly when a file is stored at the path |
| `Blobs.BlobStore.Save` | gaming_shop_api/Controllers/ProductAPIController.cs:120-124 | afterwards a file is stored at the path, created or overwritten, and every other file stays |
| `Blobs.BlobStore.Delete` | gaming_shop_api/Controllers/ProductAPIController.cs:159 | afterwards no file is stored at the path, and every other file stays |

## Left out

- Role checks (`[Authorize(Roles = "Admin")]`) are not modelled. The framework applies them before an action runs.
- `ModelState.IsValid` is a boolean input of `Create`. The framework's automatic 400 for invalid bodies on every action is not modelled. The model-state payload of that 400 is replaced by a fixed message.
- Responses keep only the status, the payload and the created id. Location headers and the other response details are left out. A `NotFound()` without a message is `NotFound("")`.
- `Task`/`await` and overlapping requests are not modelled. Each action runs as one sequential method.
- The database context and `SaveChangesAsync` are left out. Store failures, and the 500 they would cause, are not modelled.
- Identity assignment is a counter that starts at 1 and is never reused.
- `EntityStore.Table.Update`: on an absent key it changes nothing. The real outcome depends on the unseen repository and store.
- Deleting a product does not touch the image table. Whether the store cascades to image rows depends on a database configuration that is not part of this model.
- Upload has no partial-failure path. An exception part-way through a batch is not modelled, so the model has no policy for it.
- `UploadImages`: the generated GUID tokens are passed in as `tokens`, one per file. The method requires as many tokens as files.
- A null file list is the empty sequence.
- File names are opaque strings. The client's file name is used as given, and path normalisation (`..` and repeated separators) is not modelled. So `ImagePaths.UploadPathsDistinct` and the effect of `DeleteImage` on the file area hold for path strings, not for the files the operating system resolves them to. With a name such as `x/../B_c`, two different path strings can name one file, or a path can leave the web root.
- File I/O failures are not modelled. A `FileStream` or `File.Delete` that throws would end the action with a 500, and in `DeleteImage` that happens before the row is removed.
- File bytes are not modelled. `Directory.CreateDirectory` and the overwrite-on-create mode are not modelled either. Saving a file adds its path to a set, and deleting removes it.
- Paths are relative to the web root. The current directory and the `wwwroot` segment are left out.
- The directory separator is fixed to `/`. The special cases of `Path.Combine` (rooted or separator-ending arguments) are left out. Neither arises here: no combined segment starts with a separator.
- The image table's store order is taken to be ascending id order. The store itself promises no order.
- The entities keep only the fields the controllers read. Product.cs, Category.cs and Brand.cs are not part of this model.
- `ProductImage` has no `Product` navigation property in the model.
- The brand controller and the product, category and brand repository implementations are not part of this model. Their tables are `EntityStore.Table`.
