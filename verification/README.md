# SuperMarketSystem server controllers, modelled in Dafny

This project models the ASP.NET Core backend of SuperMarketSystem, a small
inventory and order management service. It covers the seven API controllers:
six resource controllers (Categories, Customer, Products, Employees, Orders,
OrderItems) and the Authentication controller.

- **Resource controllers.** Each one offers a paginated listing, a lookup by
  id, create, update and delete over one table of the database context.
- **Authentication controller.** It signs users up, giving the first user the
  "Admin" role and every later one "User". It logs users in by issuing a
  one-hour token that carries their name and role claims.

How the model is built:

- **Tables.** The database context is the class `Data.Store`, with one field
  per table. A table (`Tables.Table`) holds its rows in primary-key order and
  the next identity value. Contracts use the view `Tables.AsMap`, which maps
  each primary key to that row's columns.
- **Controllers.** Each controller is one module of methods that take the
  store. Every method that writes has a `modifies` clause naming only its own
  table, so the other five tables are unchanged by construction. Each method's
  `ensures` gives the response and the new table for every branch of the
  source: not found, validation failure, upload failure and success.
- **Pagination.** The rule is written once, in `Pagination.Paginate`. The
  predicate `Pagination.IsPage` describes a page independently of how it is
  computed, and every listing endpoint is proved to return a page in that
  sense. Rows are listed in ascending primary-key order, the order the model
  keeps them in.
- **Image uploads.** The outcome of an upload is an input (`Images.Upload`):
  no file, a file saved under a given GUID and file name, or a failure with
  its exception message. The stored URL is `prefix + guid + "_" + fileName`.
  The prefix is `/images/` for products, orders and order items, and
  `/Images/Employee/` for employees.
- **Identity store.** `Identity.IdentityStore` holds the users (by name) and
  the set of existing roles. A ghost field records the name of the first
  user whose sign-up succeeded. Its invariant makes the first-user-is-Admin
  rule checkable across any sequence of sign-ups.

Resource-specific behaviour that the model reproduces as written:

- The Customer listing counts the Categories table while paging the Customers
  table.
- The Customer lookup's 404 message is "Category not found.".
- POST on the Customer controller creates a Category. No endpoint creates a
  customer.
- Product create never sets a category, and product update keeps the existing
  one.
- Only the Employees controller validates names. Its update checks for a
  missing id (404) before it checks the names (400).
- Create copies the client's `ImageUrl` form field when no file is sent.
  Update ignores that field and keeps the stored URL.
- Category and Customer create answer 200 with the row. The other creates
  answer 201. Category and Customer update answer 200 with the row; the other
  updates answer 204. These status codes follow what the actions return. The
  actions' own documentation disagrees for Categories and Customer: it
  declares 201 for create and 204 for update
  (`SuperMarketSystem.Server/Controllers/CategoriesController.cs:81-84` and
  `:105-109`, `CustomerController.cs:77-80` and `:101-105`).

## Model

| member | source | states |
|---|---|---|
| `Pagination.Paginate` | SuperMarketSystem.Server/Controllers/CategoriesController.cs:32-50 | page number or size below 1 gives exactly the 400 message; otherwise the envelope is a page (`IsPage`): it echoes the request, totalRecords is the count passed in, totalPages is the ceiling, and data are the rows from offset (pageNumber-1)*pageSize, at most pageSize of them, and fewer only at the end of the table |
| `Pagination.TotalPages` | SuperMarketSystem.Server/Controllers/CategoriesController.cs:48 | the page count is the least number of pages that hold all records: pages*size >= n and (pages-1)*size < n |
| `Pagination.Window` | SuperMarketSystem.Server/Controllers/CategoriesController.cs:38-41 | Skip/Take: length is min(count, rows left after offset), 0 past the end; element k is row offset+k |
| `Pagination.BeyondLastPageIsEmpty` | SuperMarketSystem.Server/Controllers/CategoriesController.cs:37-49 | on a table of n rows, a page's data are empty if and only if its number exceeds totalPages |
| `Pagination.ListResponse` | SuperMarketSystem.Server/Controllers/CategoriesController.cs:32-52 | the shared list endpoint: always 200 or 400; 400 with the refusal message exactly when the page number or size is below 1; otherwise 200 with an envelope that is a page of the rows (`IsPage`) over the given record count |
| `Pagination.FirstPagesArePrefix` | SuperMarketSystem.Server/Controllers/CategoriesController.cs:38-41 | the data of pages 1..k, each as `Paginate` returns it for the listing, concatenated are the first min(k*size, n) rows |
| `Pagination.PagesCoverTable` | SuperMarketSystem.Server/Controllers/CategoriesController.cs:37-49 | the data of pages 1..totalPages, each as `Paginate` returns it, concatenated give back the whole table, each row once and in order |
| `Pagination.Wrap32` | SuperMarketSystem.Server/Controllers/CategoriesController.cs:39 | 32-bit wrap-around: the result is in int range and congruent to the input modulo 2^32 |
| `Pagination.Int32Window` | SuperMarketSystem.Server/Controllers/CategoriesController.cs:38-41 | the rows the source fetches with a 32-bit offset; they agree with the page's data whenever the offset fits in an int |
| `Pagination.Int32OffsetWraps` | SuperMarketSystem.Server/Controllers/CategoriesController.cs:39 | page 65537 of size 65536 of a one-row table should be empty, but the 32-bit offset wraps to 0 and returns the row |
| `Tables.Locate` | SuperMarketSystem.Server/Controllers/CategoriesController.cs:66 | lookup by primary key finds a position exactly when the key is in the table, and the row there has that key |
| `Tables.Insert` | SuperMarketSystem.Server/Controllers/CategoriesController.cs:93-94 | adding a row uses a key not yet in the table; the table map gains exactly that key with the new columns; keys stay ascending |
| `Tables.Replace` | SuperMarketSystem.Server/Controllers/CategoriesController.cs:117-120 | overwriting a row changes the map at that key only; the identity value and the row count are kept |
| `Tables.Delete` | SuperMarketSystem.Server/Controllers/CategoriesController.cs:140-141 | removing a row removes exactly its key from the map; the row count drops by one |
| `Tables.CountMatchesKeys` | SuperMarketSystem.Server/Controllers/CategoriesController.cs:37 | the counted rows are the distinct keys of the table: count equals the number of keys |
| `Tables.AsMapAt` | SuperMarketSystem.Server/Controllers/CategoriesController.cs:66-73 | the row found at a position is the one the table map holds for its key |
| `Tables.AsMapReplace` | SuperMarketSystem.Server/Controllers/CategoriesController.cs:117-120 | overwriting the columns at one position updates the table map at that row's key only |
| `Tables.AsMapRemove` | SuperMarketSystem.Server/Controllers/CategoriesController.cs:140 | dropping one position removes exactly that row's key from the table map |
| `Images.ImageUrl` | SuperMarketSystem.Server/Controllers/ProductsController.cs:101-112 | the URL is laid out as the folder prefix, then the GUID, one '_', then the file name, with nothing else in it (the same formula with "/Images/Employee/" at EmployeesController.cs:104-115) |
| `Images.ImageUrlRoundTrip` | SuperMarketSystem.Server/Controllers/ProductsController.cs:101-112 | for a GUID without '_', parsing prefix + guid + "_" + fileName gives back the GUID and the file name |
| `Images.ImageUrlsDistinct` | SuperMarketSystem.Server/Controllers/ProductsController.cs:102 | uploads with different (GUID, file name) pairs never share a URL, for GUIDs without '_' (true of `Guid.ToString()`) |
| `Images.AttachImage` | SuperMarketSystem.Server/Controllers/ProductsController.cs:89-118 | a failure exactly when the save failed, carrying its exception message; no file keeps the current URL; a saved file gives a URL that starts with the prefix and that `ParseImageUrl` takes back to the GUID and file name (for an underscore-free GUID) |
| `Data.Store.constructor` | SuperMarketSystem.Server/DATA/ApplicationDBContext.cs:12-17 | the six tables start empty and the store invariant holds |
| `CategoriesController.GetCategories` | SuperMarketSystem.Server/Controllers/CategoriesController.cs:30-53 | 400 exactly for invalid paging; otherwise a page of Categories whose totalRecords is the Categories count |
| `CategoriesController.GetCategory` | SuperMarketSystem.Server/Controllers/CategoriesController.cs:64-74 | 200 with the stored row exactly when the id exists, else 404 "Category not found." |
| `CategoriesController.CreateCategory` | SuperMarketSystem.Server/Controllers/CategoriesController.cs:86-97 | a fresh id is added with the given name and nothing else changes; 200 with the new row |
| `CategoriesController.UpdateCategory` | SuperMarketSystem.Server/Controllers/CategoriesController.cs:112-123 | absent id: 404 and the table is unchanged; otherwise only that row's name changes; 200 with the row |
| `CategoriesController.DeleteCategory` | SuperMarketSystem.Server/Controllers/CategoriesController.cs:135-144 | absent id: 404 and the table is unchanged; otherwise exactly that id is removed; 204 |
| `CategoriesScenario.DairyScenario` | SuperMarketSystem.Server/Controllers/CategoriesController.cs:30-97 | creating "Dairy" in an empty store gives id 1, which lookup returns and the first page of five lists, with totalRecords 1 and totalPages 1 |
| `CustomerController.GetCustomers` | SuperMarketSystem.Server/Controllers/CustomerController.cs:26-49 | 400 exactly for invalid paging; otherwise data page the Customers table while totalRecords and totalPages come from the Categories count |
| `CustomerController.GetCustomer` | SuperMarketSystem.Server/Controllers/CustomerController.cs:60-70 | 200 with the stored customer exactly when the id exists, else 404 with the message "Category not found." |
| `CustomerController.CreateCategory` | SuperMarketSystem.Server/Controllers/CustomerController.cs:82-93 | inserts a Category with the given name under a fresh id; the Customers table is unchanged |
| `CustomerController.UpdateCustomers` | SuperMarketSystem.Server/Controllers/CustomerController.cs:108-122 | absent id: 404, unchanged; otherwise first name, last name, email and phone are overwritten; 200 with the row |
| `CustomerController.DeleteCustomer` | SuperMarketSystem.Server/Controllers/CustomerController.cs:134-143 | absent id: 404, unchanged; otherwise exactly that customer is removed; 204 |
| `ProductsController.GetProducts` | SuperMarketSystem.Server/Controllers/ProductsController.cs:28-52 | 400 exactly for invalid paging; otherwise a page of Products with the Products count |
| `ProductsController.GetProduct` | SuperMarketSystem.Server/Controllers/ProductsController.cs:64-74 | 200 with the stored product exactly when the id exists, else 404 "Product not found." |
| `ProductsController.CreateProduct` | SuperMarketSystem.Server/Controllers/ProductsController.cs:87-134 | failed upload: 500 and no row; otherwise a fresh-id row with the form's name, description, price and stock, no category, and the URL "/images/" + guid + "_" + name (or the form's URL without a file); 201 |
| `ProductsController.UpdateProduct` | SuperMarketSystem.Server/Controllers/ProductsController.cs:150-199 | absent id: 404, unchanged; failed upload: 500, unchanged; otherwise name, description, price and stock are overwritten, the category is kept, and the URL changes only when a file is saved; 204 |
| `ProductsController.DeleteProduct` | SuperMarketSystem.Server/Controllers/ProductsController.cs:211-222 | absent id: 404, unchanged; otherwise exactly that id is removed; 204 |
| `EmployeesController.GetEmployees` | SuperMarketSystem.Server/Controllers/EmployeesController.cs:28-51 | 400 exactly for invalid paging; otherwise a page of Employees with the Employees count |
| `EmployeesController.GetEmployee` | SuperMarketSystem.Server/Controllers/EmployeesController.cs:63-73 | 200 with the stored employee exactly when the id exists, and that employee has both names; else 404 "Employee not found." |
| `EmployeesController.CreateEmployee` | SuperMarketSystem.Server/Controllers/EmployeesController.cs:85-136 | null or empty first or last name (`IsNullOrEmpty`, the model of `string.IsNullOrEmpty`): 400 and no row; failed upload: 500 and no row; otherwise a fresh-id row with the names, role, salary and the URL "/Images/Employee/" + guid + "_" + name (or the form's URL without a file); 201 |
| `EmployeesController.UpdateEmployee` | SuperMarketSystem.Server/Controllers/EmployeesController.cs:142-195 | absent id: 404 even when the names are empty; then a null or empty name (`IsNullOrEmpty`): 400; failed upload: 500; in those three cases the table is unchanged; otherwise names, role and salary are overwritten and the URL changes only when a file is saved; 204 |
| `EmployeesController.DeleteEmployee` | SuperMarketSystem.Server/Controllers/EmployeesController.cs:207-218 | absent id: 404, unchanged; otherwise exactly that id is removed; 204 |
| `OrdersController.GetOrders` | SuperMarketSystem.Server/Controllers/OrdersController.cs:28-53 | 400 exactly for invalid paging; otherwise a page of Orders with the Orders count |
| `OrdersController.GetOrder` | SuperMarketSystem.Server/Controllers/OrdersController.cs:65-78 | 200 with the stored order exactly when the id exists, else 404 "Order not found." |
| `OrdersController.CreateOrder` | SuperMarketSystem.Server/Controllers/OrdersController.cs:90-135 | failed upload: 500 and no row; otherwise a fresh-id row with date, customer and total exactly as sent (the total is not derived from items) and the "/images/" URL; 201 |
| `OrdersController.UpdateOrder` | SuperMarketSystem.Server/Controllers/OrdersController.cs:151-198 | absent id: 404, unchanged; failed upload: 500, unchanged; otherwise date, customer and total are overwritten and the URL changes only when a file is saved; 204 |
| `OrdersController.DeleteOrder` | SuperMarketSystem.Server/Controllers/OrdersController.cs:211-222 | absent id: 404, unchanged; otherwise exactly that id is removed; 204 |
| `OrderItemsController.GetOrderItems` | SuperMarketSystem.Server/Controllers/OrderItemsController.cs:28-53 | 400 exactly for invalid paging; otherwise a page of OrderItems with the OrderItems count |
| `OrderItemsController.GetOrderItem` | SuperMarketSystem.Server/Controllers/OrderItemsController.cs:63-76 | 200 with the stored item exactly when the id exists, else 404 "Order item not found." |
| `OrderItemsController.CreateOrderItem` | SuperMarketSystem.Server/Controllers/OrderItemsController.cs:86-132 | failed upload: 500 and no row; otherwise a fresh-id row with order, product, quantity and subtotal as sent, not validated by the controller, and the "/images/" URL; 201 |
| `OrderItemsController.UpdateOrderItem` | SuperMarketSystem.Server/Controllers/OrderItemsController.cs:138-186 | absent id: 404, unchanged; failed upload: 500 with nothing saved; otherwise order, product, quantity and subtotal are overwritten and the URL changes only when a file is saved; 204 |
| `OrderItemsController.DeleteOrderItem` | SuperMarketSystem.Server/Controllers/OrderItemsController.cs:197-209 | absent id: 404, unchanged; otherwise exactly that id is removed; 204 |
| `Identity.IdentityStore.constructor` | SuperMarketSystem.Server/Controllers/AuthenticationController.cs:16-17 | no users and no roles; the sign-up invariant holds |
| `Identity.AssignedRole` | SuperMarketSystem.Server/Controllers/AuthenticationController.cs:54-70 | the new user's role is "Admin" or "User"; it is "Admin" exactly when that role does not exist yet; either way "Admin" exists afterwards |
| `Identity.RegisterNewUser` | SuperMarketSystem.Server/Controllers/AuthenticationController.cs:54-70 | adding a new name with the role the role checks pick ("Admin" while it does not exist, else "User") and creating that role keeps the sign-up invariant, with the first such user recorded as the admin |
| `Identity.SoleAdminIsFirstUser` | SuperMarketSystem.Server/Controllers/AuthenticationController.cs:54-70 | under the sign-up invariant every user has exactly one role, and holds "Admin" exactly when it was the first successful sign-up |
| `AuthenticationController.SignUp` | SuperMarketSystem.Server/Controllers/AuthenticationController.cs:30-75 | existing name: 404 "Username already exists", nothing changes; failed creation: 500, no user and no role; otherwise the user is added with exactly "Admin" if that role did not exist (and it is created) or exactly "User" (creating it if missing), and the first successful sign-up is recorded as the admin; the invariant is kept |
| `AuthenticationController.Login` | SuperMarketSystem.Server/Controllers/AuthenticationController.cs:80-116 | a token exactly when the user exists and the password matches, else the same Unauthorized for both failures; claims are Name, Jti, then one Role claim per role in order, and their roles are the user's roles; expiry is now + 1 hour |
| `AuthenticationController.SignUpScenario` | SuperMarketSystem.Server/Controllers/AuthenticationController.cs:30-116 | in its contract: alice's sign-up succeeds with roles exactly ["Admin"], bob's succeeds with exactly ["User"], alice again gets the 404 answer, the wrong password gives Unauthorized, and alice's token carries only "Admin" |

## Findings

| source | as written | input that shows it | evidently intended | confidence | as-written member | corrected member |
|---|---|---|---|---|---|---|
| SuperMarketSystem.Server/Controllers/CategoriesController.cs:39 (same expression in every list endpoint) | `(pageNumber - 1) * pageSize` is evaluated in unchecked 32-bit `int`, so the offset wraps | pageNumber = 65537, pageSize = 65536 on a one-row table: the offset wraps to 0 and the row is returned | a page past the last one has empty data, with totalRecords and totalPages still filled in | medium (depends on the project not enabling checked arithmetic), not executed | `Pagination.Int32Window` (shown by `Pagination.Int32OffsetWraps`) | `Pagination.Paginate` (with `Pagination.BeyondLastPageIsEmpty`) |

## Left out

- The relational store. EF Core change tracking, `SaveChangesAsync` and transactions are left out, and so is async execution.
- `AuthenticationController.SignUp`, `Identity.SoleAdminIsFirstUser`: requests are modelled one at a time, and the sole-Admin invariant `Identity.Registry` holds only for sign-ups that do not overlap. Two overlapping first sign-ups can both find that "Admin" does not exist (`AuthenticationController.cs:54`). The second role creation then either fails with its result ignored, which leaves two Admins, or throws on the unique role name, which answers 500 for a user stored without a role.
- Eager loading (`Include`) of Category, Customer, OrderItems, Order and Product. It is a read-time join and does not change which rows are returned.
- `OrdersController.GetOrders`, `OrdersController.GetOrder`, `OrderItemsController.GetOrderItems`, `OrderItemsController.GetOrderItem`: JSON serialization of the response is not modelled. `Order.OrderItems` (`Models/Order.cs:9`) and the loaded `OrderItem.Order` form a cycle, and the JSON options set no reference handling (`Program.cs:47`). As written, these endpoints therefore fail with 500 on an order that has an item, or on an item that has an order, where the model answers 200 with the page or row. This holds unless `OrderItem.Order` is excluded from serialization; `Models/OrderItem.cs` is not part of this model.
- The store's default row order is unspecified. The model lists rows in ascending primary-key order.
- Delete does not model referential integrity: no cascade and no restrict. A row is removed whatever refers to it.
- `OrdersController.CreateOrder`, `OrdersController.UpdateOrder`, `OrderItemsController.CreateOrderItem` and `OrderItemsController.UpdateOrderItem`: the database's foreign-key check on insert and update is not modelled. A customer, order or product id that names no row is stored as sent and answered 201/204, where the database would reject the write and the unhandled exception would answer 500 with nothing saved.
- Image uploads as file I/O: directory creation, the file copy, `Path.GetFileName` and `Guid.NewGuid()`. The sanitised file name, the GUID and whether the save succeeded are inputs.
- An uploaded file that is left on disk when the later database write fails is not modelled, because there is no file system in the model.
- The time and the token id are inputs. `DateTime.Now` is a number of seconds, and the `Jti` GUID is a string.
- JWT construction, HMAC-SHA256 signing, issuer and audience are left out. A token is its claim list and its expiry.
- `UserManager`/`RoleManager` are modelled only as the identity store. Password hashing, password policy and user-name normalisation are left out. The password check is equality on the stored credential, name lookup is exact, and `CreateAsync`'s outcome is an input. The results of `RoleManager.CreateAsync` and `AddToRoleAsync` are ignored by the source and are taken to succeed.
- The security stamp and the e-mail are stored but never read. The model keeps the e-mail and drops the stamp.
- HTTP routing, model binding, `[Authorize]` on Categories, CORS, Swagger and static files are left out. Request bodies arrive as the DTO datatypes. Framework-level required-field validation is not modelled.
- `Math.Ceiling(totalRecords / (double)pageSize)` is modelled with integer ceiling division. The two agree for every non-negative 32-bit input.
- Page number, page size and all other integers are unbounded in the model. The only exception is the 32-bit offset overflow shown under Findings.
- Decimal columns (price, salary, amounts) are `real`. Nothing computes with them.
- Default values of the paging query parameters (5 for Categories, 10 for the other listings) are not modelled: every listing takes both numbers as arguments. The Categories scenario passes `CategoriesController.DefaultPageSize`.
- The React client is left out.
