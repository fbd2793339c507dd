/** The storefront's stored entities, as the pages read them from and write them
    to the browser's key-value store ("users", "products", "cart", "orders",
    "currentUser"). JSON numbers are modelled as unbounded integers. */
module Model {

  datatype Option<+T> = None | Some(value: T)

  /** The ways a handler refuses: no signed-in user, the wrong kind of user,
      an empty cart, a registered e-mail, a failed login. */
  datatype StoreError = Unauthenticated | Forbidden | EmptyCart | DuplicateEmail | InvalidCredentials

  /** The outcome of a handler: a value, or an error together with the route the
      page navigates to (None when it stays where it is). */
  datatype Result<+T> = Ok(value: T) | Err(error: StoreError, redirect: Option<string>)

  /** The reserved admin identity is recognised by this e-mail alone. */
  const AdminEmail: string := "admin@samskruti.edu"

  /** A calendar day as `Date` reports it: full year, month counted from 0
      (`getMonth`), day of the month from 1 (`getDate`). */
  datatype Date = Date(year: int, month: int, day: int)

  datatype ProductType = Records | Booklets

  datatype Product = Product(
    id: string,
    name: string,
    kind: ProductType,
    price: int,
    stock: int,
    description: string)

  /** A cart line is the product's fields spread into a record with a quantity. */
  datatype CartItem = CartItem(
    id: string,
    name: string,
    kind: ProductType,
    price: int,
    stock: int,
    description: string,
    quantity: int)

  datatype User = User(
    id: string,
    name: string,
    rollNo: string,
    email: string,
    password: string,
    registeredAt: Date)

  datatype PaymentMethod = Upi | Cash

  datatype Order = Order(
    id: string,
    userId: string,
    userName: string,
    userEmail: string,
    rollNo: string,
    items: seq<CartItem>,
    total: int,
    paymentMethod: PaymentMethod,
    status: string,
    createdAt: Date)

  /** The status every new order is created with. */
  const Pending: string := "Pending"

  function Max(a: int, b: int): int {
    if a < b then b else a
  }
}
