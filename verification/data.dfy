/**
 * The database context: one table per entity. Each entity's columns other
 * than its identity are a datatype; decimals are `real`, `DateTime` is a
 * number of seconds, nullable columns are `Option`s.
 */
module Data {
  import opened Common
  import opened Tables

  datatype Category = Category(name: string)

  datatype Customer = Customer(
    firstName: string,
    lastName: string,
    email: Option<string>,
    phone: string)

  datatype Product = Product(
    name: string,
    description: Option<string>,
    price: real,
    stockQuantity: int,
    categoryId: Option<int>,
    imageUrl: Option<string>)

  datatype Order = Order(
    orderDate: int,
    customerId: Option<int>,
    totalAmount: real,
    imageUrl: Option<string>)

  datatype OrderItem = OrderItem(
    orderId: Option<int>,
    productId: Option<int>,
    quantity: int,
    subtotal: real,
    imageUrl: Option<string>)

  datatype Employee = Employee(
    firstName: string,
    lastName: string,
    role: string,
    salary: real,
    imageUrl: Option<string>)

  /** Every stored employee has a non-empty first and last name. */
  ghost predicate EmployeesNamed(t: Table<Employee>)
  {
    forall id :: id in AsMap(t.rows) ==>
      AsMap(t.rows)[id].firstName != "" && AsMap(t.rows)[id].lastName != ""
  }

  /** `ApplicationDBContext`: the six entity tables. */
  class Store {
    var categories: Table<Category>
    var customers: Table<Customer>
    var products: Table<Product>
    var orders: Table<Order>
    var orderItems: Table<OrderItem>
    var employees: Table<Employee>

    ghost predicate Valid()
      reads this
    {
      && WellFormed(categories)
      && WellFormed(customers)
      && WellFormed(products)
      && WellFormed(orders)
      && WellFormed(orderItems)
      && WellFormed(employees)
      && EmployeesNamed(employees)
    }

    constructor ()
      ensures Valid()
      ensures categories == Empty() && customers == Empty() && products == Empty()
      ensures orders == Empty() && orderItems == Empty() && employees == Empty()
    {
      categories := Empty();
      customers := Empty();
      products := Empty();
      orders := Empty();
      orderItems := Empty();
      employees := Empty();
    }
  }
}
