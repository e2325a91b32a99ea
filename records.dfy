/** The shop's persistent entities as plain records.  A row's own id is the key
    under which its table stores it, except where a field below says otherwise.
    `deleted` is the soft-delete flag: such rows stay in their table and every
    read skips them. */
module Records {
  import opened Common
  import opened Roles

  /** An exact decimal amount (`BigDecimal`). */
  type Money = real

  /** An opaque clock value (`LocalDateTime`). */
  type Timestamp = nat

  /** A review rating (`Double`): carried unchanged, never computed with. */
  type Rating = real

  datatype Region = Region(name: string, country: string, deleted: bool)

  datatype Wine = Wine(name: string, price: Money, grapeVariety: string, regionId: Id, deleted: bool)

  /** A row of the role table. */
  datatype RoleRow = RoleRow(name: RoleName, deleted: bool)

  datatype User = User(
    username: string,
    password: string,
    email: string,
    firstName: string,
    lastName: string,
    roles: set<Role>)

  /** A shopping cart; its table key is the id of its user (`@MapsId`). */
  datatype ShoppingCart = ShoppingCart(userId: Id)

  /** A cart line.  Its primary key IS `wineId` (`@MapsId` on the wine), and
      `cartId` is the id of the owning cart, hence of the owning user. */
  datatype CartItem = CartItem(wineId: Id, cartId: Id, quantity: int)

  datatype OrderStatus =
    | Pending
    | AwaitingPayment
    | Confirmed
    | Shipping
    | Delivered
    | Completed
    | Canceled
    | Declined
    | Refunded

  datatype Order = Order(
    userId: Id,
    status: OrderStatus,
    total: Money,
    orderDate: Timestamp,
    shippingAddress: string,
    deleted: bool)

  /** An order line with the wine's price copied in at checkout. */
  datatype OrderItem = OrderItem(id: Id, orderId: Id, wineId: Id, quantity: int, price: Money, deleted: bool)

  datatype Review = Review(id: Id, text: string, rating: Rating, wineId: Id, userId: Id, timestamp: Timestamp)
}
