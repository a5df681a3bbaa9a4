/** `ProductsController`: paginated list and CRUD over Products, with an optional image. */
module ProductsController {
  import opened Common
  import opened Tables
  import opened Pagination
  import opened Images
  import opened Data

  const NotFoundMessage := "Product not found."

  /** `ProductModel`, the form of create and update (it has no category field). */
  datatype ProductModel = ProductModel(
    name: string,
    description: Option<string>,
    price: real,
    stockQuantity: int,
    imageUrl: Option<string>)

  /** GET api/Products. */
  function GetProducts(db: Store, pageNumber: int, pageSize: int): (r: Response<Envelope<Row<Product>>>)
    reads db
    ensures r.Ok? || r.BadRequest?
    ensures r.BadRequest? <==> pageNumber < 1 || pageSize < 1
    ensures r.BadRequest? ==> r.message == InvalidPageMessage
    ensures r.Ok? ==> IsPage(r.body, |db.products.rows|, db.products.rows, pageNumber, pageSize)
  {
    ListResponse(|db.products.rows|, db.products.rows, pageNumber, pageSize)
  }

  /** GET api/Products/{id}. */
  method GetProduct(db: Store, id: int) returns (r: Response<Row<Product>>)
    requires db.Valid()
    ensures r.Ok? <==> id in AsMap(db.products.rows)
    ensures r.Ok? ==> r.body == Row(id, AsMap(db.products.rows)[id])
    ensures !r.Ok? ==> r == NotFound(Some(NotFoundMessage))
  {
    var k := Locate(db.products.rows, id);
    if k.None? {
      return NotFound(Some(NotFoundMessage));
    }
    AsMapAt(db.products.rows, k.value);
    return Ok(db.products.rows[k.value]);
  }

  /**
   * POST api/Products: save the image if one is sent (500 and no row when
   * that fails), then insert the form's columns with no category.
   */
  method CreateProduct(db: Store, product: ProductModel, image: Upload) returns (r: Response<Row<Product>>)
    requires db.Valid()
    modifies db`products
    ensures db.Valid()
    ensures image.Failed? ==>
      r == ServerError(UploadErrorMessage, image.details) && db.products == old(db.products)
    ensures !image.Failed? ==>
      var id := old(db.products.nextId);
      var url := if image.Saved? then Some(ImageUrl(ImagesPrefix, image.guid, image.fileName)) else product.imageUrl;
      var created := Product(product.name, product.description, product.price, product.stockQuantity, None, url);
      && id !in AsMap(old(db.products).rows)
      && AsMap(db.products.rows) == AsMap(old(db.products).rows)[id := created]
      && r == Created(Row(id, created))
  {
    var imageUrl := AttachImage(ImagesPrefix, image, product.imageUrl);
    if imageUrl.Failure? {
      return ServerError(UploadErrorMessage, imageUrl.error);
    }
    var newProduct := Product(product.name, product.description, product.price, product.stockQuantity, None, imageUrl.value);
    var id := db.products.nextId;
    db.products := Insert(db.products, newProduct);
    return Created(Row(id, newProduct));
  }

  /**
   * PUT api/Products/{id}: 404 first; then the image (500 leaves the row
   * as it was); then name, description, price and stock are overwritten.
   * The category is kept, and so is the image URL when no file is sent.
   */
  method UpdateProduct(db: Store, id: int, product: ProductModel, image: Upload) returns (r: Response<Row<Product>>)
    requires db.Valid()
    modifies db`products
    ensures db.Valid()
    ensures id !in AsMap(old(db.products).rows) ==>
      r == NotFound(Some(NotFoundMessage)) && db.products == old(db.products)
    ensures id in AsMap(old(db.products).rows) && image.Failed? ==>
      r == ServerError(UploadErrorMessage, image.details) && db.products == old(db.products)
    ensures id in AsMap(old(db.products).rows) && !image.Failed? ==>
      var before := AsMap(old(db.products).rows)[id];
      var url := if image.Saved? then Some(ImageUrl(ImagesPrefix, image.guid, image.fileName)) else before.imageUrl;
      && r == NoContent
      && AsMap(db.products.rows) == AsMap(old(db.products).rows)[id :=
           Product(product.name, product.description, product.price, product.stockQuantity, before.categoryId, url)]
      && db.products.nextId == old(db.products.nextId)
  {
    var k := Locate(db.products.rows, id);
    if k.None? {
      return NotFound(Some(NotFoundMessage));
    }
    AsMapAt(db.products.rows, k.value);
    var existing := db.products.rows[k.value].value;
    var imageUrl := AttachImage(ImagesPrefix, image, existing.imageUrl);
    if imageUrl.Failure? {
      return ServerError(UploadErrorMessage, imageUrl.error);
    }
    existing := existing.(imageUrl := imageUrl.value);
    existing := existing.(name := product.name, description := product.description);
    existing := existing.(price := product.price, stockQuantity := product.stockQuantity);
    db.products := Replace(db.products, k.value, existing);
    return NoContent;
  }

  /** DELETE api/Products/{id}. */
  method DeleteProduct(db: Store, id: int) returns (r: Response<Row<Product>>)
    requires db.Valid()
    modifies db`products
    ensures db.Valid()
    ensures id !in AsMap(old(db.products).rows) ==>
      r == NotFound(Some(NotFoundMessage)) && db.products == old(db.products)
    ensures id in AsMap(old(db.products).rows) ==>
      && r == NoContent
      && AsMap(db.products.rows) == AsMap(old(db.products).rows) - {id}
      && db.products.nextId == old(db.products.nextId)
  {
    var k := Locate(db.products.rows, id);
    if k.None? {
      return NotFound(Some(NotFoundMessage));
    }
    db.products := Delete(db.products, k.value);
    return NoContent;
  }
}
