/**
 * `OrderItemsController`: paginated list and CRUD over OrderItems, with
 * an optional image. Quantity and subtotal are stored as sent, unchecked
 * against the product's price or stock.
 */
module OrderItemsController {
  import opened Common
  import opened Tables
  import opened Pagination
  import opened Images
  import opened Data

  const NotFoundMessage := "Order item not found."

  /** `OrderItemModel`, the form of create and update. */
  datatype OrderItemModel = OrderItemModel(
    orderId: Option<int>,
    productId: Option<int>,
    quantity: int,
    subtotal: real,
    imageUrl: Option<string>)

  /** GET api/OrderItems. */
  function GetOrderItems(db: Store, pageNumber: int, pageSize: int): (r: Response<Envelope<Row<OrderItem>>>)
    reads db
    ensures r.Ok? || r.BadRequest?
    ensures r.BadRequest? <==> pageNumber < 1 || pageSize < 1
    ensures r.BadRequest? ==> r.message == InvalidPageMessage
    ensures r.Ok? ==> IsPage(r.body, |db.orderItems.rows|, db.orderItems.rows, pageNumber, pageSize)
  {
    ListResponse(|db.orderItems.rows|, db.orderItems.rows, pageNumber, pageSize)
  }

  /** GET api/OrderItems/{id}. */
  method GetOrderItem(db: Store, id: int) returns (r: Response<Row<OrderItem>>)
    requires db.Valid()
    ensures r.Ok? <==> id in AsMap(db.orderItems.rows)
    ensures r.Ok? ==> r.body == Row(id, AsMap(db.orderItems.rows)[id])
    ensures !r.Ok? ==> r == NotFound(Some(NotFoundMessage))
  {
    var k := Locate(db.orderItems.rows, id);
    if k.None? {
      return NotFound(Some(NotFoundMessage));
    }
    AsMapAt(db.orderItems.rows, k.value);
    return Ok(db.orderItems.rows[k.value]);
  }

  /** POST api/OrderItems: the image (500 and no row on failure), then the form's columns as sent. */
  method CreateOrderItem(db: Store, orderItemModel: OrderItemModel, image: Upload) returns (r: Response<Row<OrderItem>>)
    requires db.Valid()
    modifies db`orderItems
    ensures db.Valid()
    ensures image.Failed? ==>
      r == ServerError(UploadErrorMessage, image.details) && db.orderItems == old(db.orderItems)
    ensures !image.Failed? ==>
      var id := old(db.orderItems.nextId);
      var url := if image.Saved? then Some(ImageUrl(ImagesPrefix, image.guid, image.fileName)) else orderItemModel.imageUrl;
      var created := OrderItem(orderItemModel.orderId, orderItemModel.productId, orderItemModel.quantity, orderItemModel.subtotal, url);
      && id !in AsMap(old(db.orderItems).rows)
      && AsMap(db.orderItems.rows) == AsMap(old(db.orderItems).rows)[id := created]
      && r == Created(Row(id, created))
  {
    var imageUrl := AttachImage(ImagesPrefix, image, orderItemModel.imageUrl);
    if imageUrl.Failure? {
      return ServerError(UploadErrorMessage, imageUrl.error);
    }
    var orderItem := OrderItem(orderItemModel.orderId, orderItemModel.productId, orderItemModel.quantity, orderItemModel.subtotal, imageUrl.value);
    var id := db.orderItems.nextId;
    db.orderItems := Insert(db.orderItems, orderItem);
    return Created(Row(id, orderItem));
  }

  /**
   * PUT api/OrderItems/{id}: 404 first; the columns are overwritten on the
   * fetched row, then the image is saved, and a failed save answers 500
   * before anything is stored. The image URL is kept when no file is sent.
   */
  method UpdateOrderItem(db: Store, id: int, orderItemModel: OrderItemModel, image: Upload) returns (r: Response<Row<OrderItem>>)
    requires db.Valid()
    modifies db`orderItems
    ensures db.Valid()
    ensures id !in AsMap(old(db.orderItems).rows) ==>
      r == NotFound(Some(NotFoundMessage)) && db.orderItems == old(db.orderItems)
    ensures id in AsMap(old(db.orderItems).rows) && image.Failed? ==>
      r == ServerError(UploadErrorMessage, image.details) && db.orderItems == old(db.orderItems)
    ensures id in AsMap(old(db.orderItems).rows) && !image.Failed? ==>
      var before := AsMap(old(db.orderItems).rows)[id];
      var url := if image.Saved? then Some(ImageUrl(ImagesPrefix, image.guid, image.fileName)) else before.imageUrl;
      && r == NoContent
      && AsMap(db.orderItems.rows) == AsMap(old(db.orderItems).rows)[id :=
           OrderItem(orderItemModel.orderId, orderItemModel.productId, orderItemModel.quantity, orderItemModel.subtotal, url)]
      && db.orderItems.nextId == old(db.orderItems.nextId)
  {
    var k := Locate(db.orderItems.rows, id);
    if k.None? {
      return NotFound(Some(NotFoundMessage));
    }
    AsMapAt(db.orderItems.rows, k.value);
    var existing := db.orderItems.rows[k.value].value;
    existing := existing.(orderId := orderItemModel.orderId, productId := orderItemModel.productId);
    existing := existing.(quantity := orderItemModel.quantity, subtotal := orderItemModel.subtotal);
    var imageUrl := AttachImage(ImagesPrefix, image, existing.imageUrl);
    if imageUrl.Failure? {
      return ServerError(UploadErrorMessage, imageUrl.error);
    }
    existing := existing.(imageUrl := imageUrl.value);
    db.orderItems := Replace(db.orderItems, k.value, existing);
    return NoContent;
  }

  /** DELETE api/OrderItems/{id}. */
  method DeleteOrderItem(db: Store, id: int) returns (r: Response<Row<OrderItem>>)
    requires db.Valid()
    modifies db`orderItems
    ensures db.Valid()
    ensures id !in AsMap(old(db.orderItems).rows) ==>
      r == NotFound(Some(NotFoundMessage)) && db.orderItems == old(db.orderItems)
    ensures id in AsMap(old(db.orderItems).rows) ==>
      && r == NoContent
      && AsMap(db.orderItems.rows) == AsMap(old(db.orderItems).rows) - {id}
      && db.orderItems.nextId == old(db.orderItems.nextId)
  {
    var k := Locate(db.orderItems.rows, id);
    if k.None? {
      return NotFound(Some(NotFoundMessage));
    }
    db.orderItems := Delete(db.orderItems, k.value);
    return NoContent;
  }
}
