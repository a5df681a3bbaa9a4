/**
 * `OrdersController`: paginated list and CRUD over Orders, with an
 * optional image. The total amount is stored as sent; it is never derived
 * from the order's items.
 */
module OrdersController {
  import opened Common
  import opened Tables
  import opened Pagination
  import opened Images
  import opened Data

  const NotFoundMessage := "Order not found."

  /** `OrderModel`, the form of create and update. */
  datatype OrderModel = OrderModel(
    orderDate: int,
    customerId: Option<int>,
    totalAmount: real,
    imageUrl: Option<string>)

  /** GET api/Orders. */
  function GetOrders(db: Store, pageNumber: int, pageSize: int): (r: Response<Envelope<Row<Order>>>)
    reads db
    ensures r.Ok? || r.BadRequest?
    ensures r.BadRequest? <==> pageNumber < 1 || pageSize < 1
    ensures r.BadRequest? ==> r.message == InvalidPageMessage
    ensures r.Ok? ==> IsPage(r.body, |db.orders.rows|, db.orders.rows, pageNumber, pageSize)
  {
    ListResponse(|db.orders.rows|, db.orders.rows, pageNumber, pageSize)
  }

  /** GET api/Orders/{id}. */
  method GetOrder(db: Store, id: int) returns (r: Response<Row<Order>>)
    requires db.Valid()
    ensures r.Ok? <==> id in AsMap(db.orders.rows)
    ensures r.Ok? ==> r.body == Row(id, AsMap(db.orders.rows)[id])
    ensures !r.Ok? ==> r == NotFound(Some(NotFoundMessage))
  {
    var k := Locate(db.orders.rows, id);
    if k.None? {
      return NotFound(Some(NotFoundMessage));
    }
    AsMapAt(db.orders.rows, k.value);
    return Ok(db.orders.rows[k.value]);
  }

  /** POST api/Orders: the image (500 and no row on failure), then the form's columns as sent. */
  method CreateOrder(db: Store, order: OrderModel, image: Upload) returns (r: Response<Row<Order>>)
    requires db.Valid()
    modifies db`orders
    ensures db.Valid()
    ensures image.Failed? ==>
      r == ServerError(UploadErrorMessage, image.details) && db.orders == old(db.orders)
    ensures !image.Failed? ==>
      var id := old(db.orders.nextId);
      var url := if image.Saved? then Some(ImageUrl(ImagesPrefix, image.guid, image.fileName)) else order.imageUrl;
      var created := Order(order.orderDate, order.customerId, order.totalAmount, url);
      && id !in AsMap(old(db.orders).rows)
      && AsMap(db.orders.rows) == AsMap(old(db.orders).rows)[id := created]
      && r == Created(Row(id, created))
  {
    var imageUrl := AttachImage(ImagesPrefix, image, order.imageUrl);
    if imageUrl.Failure? {
      return ServerError(UploadErrorMessage, imageUrl.error);
    }
    var model := Order(order.orderDate, order.customerId, order.totalAmount, imageUrl.value);
    var id := db.orders.nextId;
    db.orders := Insert(db.orders, model);
    return Created(Row(id, model));
  }

  /**
   * PUT api/Orders/{id}: 404 first; then the image (500 leaves the row as
   * it was); then date, customer and total are overwritten. The image URL
   * is kept when no file is sent.
   */
  method UpdateOrder(db: Store, id: int, order: OrderModel, image: Upload) returns (r: Response<Row<Order>>)
    requires db.Valid()
    modifies db`orders
    ensures db.Valid()
    ensures id !in AsMap(old(db.orders).rows) ==>
      r == NotFound(Some(NotFoundMessage)) && db.orders == old(db.orders)
    ensures id in AsMap(old(db.orders).rows) && image.Failed? ==>
      r == ServerError(UploadErrorMessage, image.details) && db.orders == old(db.orders)
    ensures id in AsMap(old(db.orders).rows) && !image.Failed? ==>
      var before := AsMap(old(db.orders).rows)[id];
      var url := if image.Saved? then Some(ImageUrl(ImagesPrefix, image.guid, image.fileName)) else before.imageUrl;
      && r == NoContent
      && AsMap(db.orders.rows) == AsMap(old(db.orders).rows)[id :=
           Order(order.orderDate, order.customerId, order.totalAmount, url)]
      && db.orders.nextId == old(db.orders.nextId)
  {
    var k := Locate(db.orders.rows, id);
    if k.None? {
      return NotFound(Some(NotFoundMessage));
    }
    AsMapAt(db.orders.rows, k.value);
    var existing := db.orders.rows[k.value].value;
    var imageUrl := AttachImage(ImagesPrefix, image, existing.imageUrl);
    if imageUrl.Failure? {
      return ServerError(UploadErrorMessage, imageUrl.error);
    }
    existing := existing.(imageUrl := imageUrl.value);
    existing := existing.(orderDate := order.orderDate, customerId := order.customerId);
    existing := existing.(totalAmount := order.totalAmount);
    db.orders := Replace(db.orders, k.value, existing);
    return NoContent;
  }

  /** DELETE api/Orders/{id}. */
  method DeleteOrder(db: Store, id: int) returns (r: Response<Row<Order>>)
    requires db.Valid()
    modifies db`orders
    ensures db.Valid()
    ensures id !in AsMap(old(db.orders).rows) ==>
      r == NotFound(Some(NotFoundMessage)) && db.orders == old(db.orders)
    ensures id in AsMap(old(db.orders).rows) ==>
      && r == NoContent
      && AsMap(db.orders.rows) == AsMap(old(db.orders).rows) - {id}
      && db.orders.nextId == old(db.orders.nextId)
  {
    var k := Locate(db.orders.rows, id);
    if k.None? {
      return NotFound(Some(NotFoundMessage));
    }
    db.orders := Delete(db.orders, k.value);
    return NoContent;
  }
}
