/**
 * `EmployeesController`: paginated list and CRUD over Employees. It is
 * the one controller that validates its input: first and last name must
 * be neither null nor empty.
 */
module EmployeesController {
  import opened Common
  import opened Tables
  import opened Pagination
  import opened Images
  import opened Data

  const NotFoundMessage := "Employee not found."
  const NamesRequiredMessage := "First name and last name are required."

  /** `Employeemodel`; the two names may arrive null. */
  datatype EmployeeModel = EmployeeModel(
    firstName: Option<string>,
    lastName: Option<string>,
    role: string,
    salary: real,
    imageUrl: Option<string>)

  /** `string.IsNullOrEmpty`. */
  predicate IsNullOrEmpty(s: Option<string>)
  {
    s.None? || s.value == ""
  }

  /** GET api/Employees. */
  function GetEmployees(db: Store, pageNumber: int, pageSize: int): (r: Response<Envelope<Row<Employee>>>)
    reads db
    ensures r.Ok? || r.BadRequest?
    ensures r.BadRequest? <==> pageNumber < 1 || pageSize < 1
    ensures r.BadRequest? ==> r.message == InvalidPageMessage
    ensures r.Ok? ==> IsPage(r.body, |db.employees.rows|, db.employees.rows, pageNumber, pageSize)
  {
    ListResponse(|db.employees.rows|, db.employees.rows, pageNumber, pageSize)
  }

  /** GET api/Employees/{id}; every employee returned has both names. */
  method GetEmployee(db: Store, id: int) returns (r: Response<Row<Employee>>)
    requires db.Valid()
    ensures r.Ok? <==> id in AsMap(db.employees.rows)
    ensures r.Ok? ==> r.body == Row(id, AsMap(db.employees.rows)[id])
    ensures r.Ok? ==> r.body.value.firstName != "" && r.body.value.lastName != ""
    ensures !r.Ok? ==> r == NotFound(Some(NotFoundMessage))
  {
    var k := Locate(db.employees.rows, id);
    if k.None? {
      return NotFound(Some(NotFoundMessage));
    }
    AsMapAt(db.employees.rows, k.value);
    return Ok(db.employees.rows[k.value]);
  }

  /**
   * POST api/Employees: 400 unless both names are given, then the image
   * (500 and no row when it fails), then a new row with the form's columns.
   */
  method CreateEmployee(db: Store, employee: EmployeeModel, image: Upload) returns (r: Response<Row<Employee>>)
    requires db.Valid()
    modifies db`employees
    ensures db.Valid()
    ensures IsNullOrEmpty(employee.firstName) || IsNullOrEmpty(employee.lastName) ==>
      r == BadRequest(NamesRequiredMessage) && db.employees == old(db.employees)
    ensures !IsNullOrEmpty(employee.firstName) && !IsNullOrEmpty(employee.lastName) && image.Failed? ==>
      r == ServerError(UploadErrorMessage, image.details) && db.employees == old(db.employees)
    ensures !IsNullOrEmpty(employee.firstName) && !IsNullOrEmpty(employee.lastName) && !image.Failed? ==>
      var id := old(db.employees.nextId);
      var url := if image.Saved? then Some(ImageUrl(EmployeeImagesPrefix, image.guid, image.fileName)) else employee.imageUrl;
      var created := Employee(employee.firstName.value, employee.lastName.value, employee.role, employee.salary, url);
      && id !in AsMap(old(db.employees).rows)
      && AsMap(db.employees.rows) == AsMap(old(db.employees).rows)[id := created]
      && r == Created(Row(id, created))
  {
    if IsNullOrEmpty(employee.firstName) || IsNullOrEmpty(employee.lastName) {
      return BadRequest(NamesRequiredMessage);
    }
    var imageUrl := AttachImage(EmployeeImagesPrefix, image, employee.imageUrl);
    if imageUrl.Failure? {
      return ServerError(UploadErrorMessage, imageUrl.error);
    }
    var model := Employee(employee.firstName.value, employee.lastName.value, employee.role, employee.salary, imageUrl.value);
    var id := db.employees.nextId;
    db.employees := Insert(db.employees, model);
    return Created(Row(id, model));
  }

  /**
   * PUT api/Employees/{id}: 404 is decided before the names are checked;
   * the columns are overwritten on the fetched row, then the image is
   * saved, and a failed save answers 500 before anything is stored.
   */
  method UpdateEmployee(db: Store, id: int, employee: EmployeeModel, image: Upload) returns (r: Response<Row<Employee>>)
    requires db.Valid()
    modifies db`employees
    ensures db.Valid()
    ensures id !in AsMap(old(db.employees).rows) ==>
      r == NotFound(Some(NotFoundMessage)) && db.employees == old(db.employees)
    ensures id in AsMap(old(db.employees).rows) && (IsNullOrEmpty(employee.firstName) || IsNullOrEmpty(employee.lastName)) ==>
      r == BadRequest(NamesRequiredMessage) && db.employees == old(db.employees)
    ensures id in AsMap(old(db.employees).rows) && !IsNullOrEmpty(employee.firstName) && !IsNullOrEmpty(employee.lastName) && image.Failed? ==>
      r == ServerError(UploadErrorMessage, image.details) && db.employees == old(db.employees)
    ensures id in AsMap(old(db.employees).rows) && !IsNullOrEmpty(employee.firstName) && !IsNullOrEmpty(employee.lastName) && !image.Failed? ==>
      var before := AsMap(old(db.employees).rows)[id];
      var url := if image.Saved? then Some(ImageUrl(EmployeeImagesPrefix, image.guid, image.fileName)) else before.imageUrl;
      && r == NoContent
      && AsMap(db.employees.rows) == AsMap(old(db.employees).rows)[id :=
           Employee(employee.firstName.value, employee.lastName.value, employee.role, employee.salary, url)]
      && db.employees.nextId == old(db.employees.nextId)
  {
    var k := Locate(db.employees.rows, id);
    if k.None? {
      return NotFound(Some(NotFoundMessage));
    }
    if IsNullOrEmpty(employee.firstName) || IsNullOrEmpty(employee.lastName) {
      return BadRequest(NamesRequiredMessage);
    }
    AsMapAt(db.employees.rows, k.value);
    var existing := db.employees.rows[k.value].value;
    existing := existing.(firstName := employee.firstName.value, lastName := employee.lastName.value);
    existing := existing.(role := employee.role, salary := employee.salary);
    var imageUrl := AttachImage(EmployeeImagesPrefix, image, existing.imageUrl);
    if imageUrl.Failure? {
      return ServerError(UploadErrorMessage, imageUrl.error);
    }
    existing := existing.(imageUrl := imageUrl.value);
    db.employees := Replace(db.employees, k.value, existing);
    return NoContent;
  }

  /** DELETE api/Employees/{id}. */
  method DeleteEmployee(db: Store, id: int) returns (r: Response<Row<Employee>>)
    requires db.Valid()
    modifies db`employees
    ensures db.Valid()
    ensures id !in AsMap(old(db.employees).rows) ==>
      r == NotFound(Some(NotFoundMessage)) && db.employees == old(db.employees)
    ensures id in AsMap(old(db.employees).rows) ==>
      && r == NoContent
      && AsMap(db.employees.rows) == AsMap(old(db.employees).rows) - {id}
      && db.employees.nextId == old(db.employees.nextId)
  {
    var k := Locate(db.employees.rows, id);
    if k.None? {
      return NotFound(Some(NotFoundMessage));
    }
    db.employees := Delete(db.employees, k.value);
    return NoContent;
  }
}
