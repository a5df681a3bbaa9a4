/**
 * `CustomerController`. As written, its listing counts the Categories
 * table while paging the Customers table, its lookup answers with the
 * category message, and its POST creates a Category; there is no endpoint
 * that creates a customer.
 */
module CustomerController {
  import opened Common
  import opened Tables
  import opened Pagination
  import opened Data
  import CategoriesController

  const NotFoundMessage := "Category not found."

  /** `Customermodel`, the request body of update. */
  datatype CustomerModel = CustomerModel(
    firstName: string,
    lastName: string,
    email: Option<string>,
    phone: string)

  /**
   * GET api/Customer: totalRecords and totalPages come from the number of
   * categories; the data are a page of customers.
   */
  function GetCustomers(db: Store, pageNumber: int, pageSize: int): (r: Response<Envelope<Row<Customer>>>)
    reads db
    ensures r.Ok? || r.BadRequest?
    ensures r.BadRequest? <==> pageNumber < 1 || pageSize < 1
    ensures r.BadRequest? ==> r.message == InvalidPageMessage
    ensures r.Ok? ==> IsPage(r.body, |db.categories.rows|, db.customers.rows, pageNumber, pageSize)
  {
    ListResponse(|db.categories.rows|, db.customers.rows, pageNumber, pageSize)
  }

  /** GET api/Customer/{id} (the second `GetCustomers` overload). */
  method GetCustomer(db: Store, id: int) returns (r: Response<Row<Customer>>)
    requires db.Valid()
    ensures r.Ok? <==> id in AsMap(db.customers.rows)
    ensures r.Ok? ==> r.body == Row(id, AsMap(db.customers.rows)[id])
    ensures !r.Ok? ==> r == NotFound(Some(NotFoundMessage))
  {
    var k := Locate(db.customers.rows, id);
    if k.None? {
      return NotFound(Some(NotFoundMessage));
    }
    AsMapAt(db.customers.rows, k.value);
    return Ok(db.customers.rows[k.value]);
  }

  /** POST api/Customer: inserts a Category, exactly as POST api/Categories does. */
  method CreateCategory(db: Store, category: CategoriesController.CategoryModel) returns (r: Response<Row<Category>>)
    requires db.Valid()
    modifies db`categories
    ensures db.Valid()
    ensures db.customers == old(db.customers)
    ensures var id := old(db.categories.nextId);
      && id !in AsMap(old(db.categories).rows)
      && AsMap(db.categories.rows) == AsMap(old(db.categories).rows)[id := Category(category.name)]
      && r == Ok(Row(id, Category(category.name)))
  {
    r := CategoriesController.CreateCategory(db, category);
  }

  /** PUT api/Customer/{id}: overwrite the four columns; answers 200 with the row. */
  method UpdateCustomers(db: Store, id: int, customers: CustomerModel) returns (r: Response<Row<Customer>>)
    requires db.Valid()
    modifies db`customers
    ensures db.Valid()
    ensures id !in AsMap(old(db.customers).rows) ==>
      r == NotFound(None) && db.customers == old(db.customers)
    ensures id in AsMap(old(db.customers).rows) ==>
      var updated := Customer(customers.firstName, customers.lastName, customers.email, customers.phone);
      && r == Ok(Row(id, updated))
      && AsMap(db.customers.rows) == AsMap(old(db.customers).rows)[id := updated]
      && db.customers.nextId == old(db.customers.nextId)
  {
    var k := Locate(db.customers.rows, id);
    if k.None? {
      return NotFound(None);
    }
    var existing := db.customers.rows[k.value].value;
    existing := existing.(firstName := customers.firstName);
    existing := existing.(lastName := customers.lastName);
    existing := existing.(email := customers.email);
    existing := existing.(phone := customers.phone);
    db.customers := Replace(db.customers, k.value, existing);
    return Ok(Row(id, existing));
  }

  /** DELETE api/Customer/{id}. */
  method DeleteCustomer(db: Store, id: int) returns (r: Response<Row<Customer>>)
    requires db.Valid()
    modifies db`customers
    ensures db.Valid()
    ensures id !in AsMap(old(db.customers).rows) ==>
      r == NotFound(None) && db.customers == old(db.customers)
    ensures id in AsMap(old(db.customers).rows) ==>
      && r == NoContent
      && AsMap(db.customers.rows) == AsMap(old(db.customers).rows) - {id}
      && db.customers.nextId == old(db.customers.nextId)
  {
    var k := Locate(db.customers.rows, id);
    if k.None? {
      return NotFound(None);
    }
    db.customers := Delete(db.customers, k.value);
    return NoContent;
  }
}
