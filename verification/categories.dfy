/** `CategoriesController`: paginated list and CRUD over the Categories table. */
module CategoriesController {
  import opened Common
  import opened Tables
  import opened Pagination
  import opened Data

  /** Page size when the query string gives none. */
  const DefaultPageSize := 5
  const NotFoundMessage := "Category not found."

  /** `Categorymodel`, the request body of create and update. */
  datatype CategoryModel = CategoryModel(name: string)

  /** GET api/Categories: count the Categories table and return one page of it. */
  function GetCategories(db: Store, pageNumber: int, pageSize: int): (r: Response<Envelope<Row<Category>>>)
    reads db
    ensures r.Ok? || r.BadRequest?
    ensures r.BadRequest? <==> pageNumber < 1 || pageSize < 1
    ensures r.BadRequest? ==> r.message == InvalidPageMessage
    ensures r.Ok? ==> IsPage(r.body, |db.categories.rows|, db.categories.rows, pageNumber, pageSize)
  {
    ListResponse(|db.categories.rows|, db.categories.rows, pageNumber, pageSize)
  }

  /** GET api/Categories/{id}. */
  method GetCategory(db: Store, id: int) returns (r: Response<Row<Category>>)
    requires db.Valid()
    ensures r.Ok? <==> id in AsMap(db.categories.rows)
    ensures r.Ok? ==> r.body == Row(id, AsMap(db.categories.rows)[id])
    ensures !r.Ok? ==> r == NotFound(Some(NotFoundMessage))
  {
    var k := Locate(db.categories.rows, id);
    if k.None? {
      return NotFound(Some(NotFoundMessage));
    }
    AsMapAt(db.categories.rows, k.value);
    return Ok(db.categories.rows[k.value]);
  }

  /** POST api/Categories: a new row with a fresh id and the given name (200, not 201). */
  method CreateCategory(db: Store, category: CategoryModel) returns (r: Response<Row<Category>>)
    requires db.Valid()
    modifies db`categories
    ensures db.Valid()
    ensures var id := old(db.categories.nextId);
      && id !in AsMap(old(db.categories).rows)
      && AsMap(db.categories.rows) == AsMap(old(db.categories).rows)[id := Category(category.name)]
      && r == Ok(Row(id, Category(category.name)))
  {
    var model := Category(category.name);
    var id := db.categories.nextId;
    db.categories := Insert(db.categories, model);
    return Ok(Row(id, model));
  }

  /** PUT api/Categories/{id}: overwrite the name; answers 200 with the row. */
  method UpdateCategory(db: Store, id: int, category: CategoryModel) returns (r: Response<Row<Category>>)
    requires db.Valid()
    modifies db`categories
    ensures db.Valid()
    ensures id !in AsMap(old(db.categories).rows) ==>
      r == NotFound(None) && db.categories == old(db.categories)
    ensures id in AsMap(old(db.categories).rows) ==>
      && r == Ok(Row(id, Category(category.name)))
      && AsMap(db.categories.rows) == AsMap(old(db.categories).rows)[id := Category(category.name)]
      && db.categories.nextId == old(db.categories.nextId)
  {
    var k := Locate(db.categories.rows, id);
    if k.None? {
      return NotFound(None);
    }
    var existing := db.categories.rows[k.value].value;
    existing := existing.(name := category.name);
    db.categories := Replace(db.categories, k.value, existing);
    return Ok(Row(id, existing));
  }

  /** DELETE api/Categories/{id}. */
  method DeleteCategory(db: Store, id: int) returns (r: Response<Row<Category>>)
    requires db.Valid()
    modifies db`categories
    ensures db.Valid()
    ensures id !in AsMap(old(db.categories).rows) ==>
      r == NotFound(None) && db.categories == old(db.categories)
    ensures id in AsMap(old(db.categories).rows) ==>
      && r == NoContent
      && AsMap(db.categories.rows) == AsMap(old(db.categories).rows) - {id}
      && db.categories.nextId == old(db.categories.nextId)
  {
    var k := Locate(db.categories.rows, id);
    if k.None? {
      return NotFound(None);
    }
    db.categories := Delete(db.categories, k.value);
    return NoContent;
  }
}

/**
 * Creating "Dairy" in an empty store gives it id 1; looking up id 1 and
 * listing the first page of five both return it.
 */
module CategoriesScenario {
  import opened Common
  import opened Tables
  import opened Pagination
  import opened Data
  import opened CategoriesController

  method DairyScenario() returns (page: Response<Envelope<Row<Category>>>)
    ensures page == Ok(Envelope(1, 1, 5, 1, [Row(1, Category("Dairy"))]))
  {
    var db := new Store();
    var created := CreateCategory(db, CategoryModel("Dairy"));
    assert created == Ok(Row(1, Category("Dairy")));
    var fetched := GetCategory(db, 1);
    assert fetched == Ok(Row(1, Category("Dairy")));
    assert db.categories.rows == [Row(1, Category("Dairy"))] by {
      CountMatchesKeys(db.categories.rows);
      assert AsMap(db.categories.rows) == map[1 := Category("Dairy")];
      AsMapAt(db.categories.rows, 0);
    }
    assert TotalPages(1, 5) == 1;
    assert Window(db.categories.rows, 0, 5) == db.categories.rows;
    page := GetCategories(db, 1, DefaultPageSize);
  }
}
