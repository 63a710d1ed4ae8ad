/** The records the authorization layer reads: users, orders, the read-only
    store that holds them, the request context, and the kinds of error the
    resolvers throw. */
module Schema {
  import opened Wrappers

  /** Record identifiers are strings (Prisma ids). */
  type Id = string

  /** A permission label such as "ADMIN" or "PERMISSIONUPDATE". */
  type Permission = string

  const ADMIN: Permission := "ADMIN"
  const PERMISSIONUPDATE: Permission := "PERMISSIONUPDATE"

  /** A user; `permissions` is an array in the source, so order and
      duplicates are kept. */
  datatype User = User(id: Id, name: string, email: string, permissions: seq<Permission>)

  /** An order; `owner` is the source's `order.user.id`. */
  datatype Order = Order(id: Id, owner: Id, total: int)

  /** The store, as seen by the query resolvers: each id maps to its record. */
  datatype Store = Store(users: map<Id, User>, orders: map<Id, Order>)

  /** Every record is filed under its own id. */
  predicate ValidStore(s: Store) {
    (forall k :: k in s.users ==> s.users[k].id == k) &&
    (forall k :: k in s.orders ==> s.orders[k].id == k)
  }

  /** The request context: `ctx.request.userId` and `ctx.request.user`. */
  datatype Context = Context(userId: Option<Id>, user: Option<User>)

  /** `ctx.request.userId` is truthy: present and not the empty string. */
  predicate LoggedIn(ctx: Context) {
    ctx.userId.Some? && ctx.userId.value != ""
  }

  /** Whenever a user id is present the user record is loaded too; the
      resolvers that read `ctx.request.user` rely on it. */
  predicate ValidContext(ctx: Context) {
    LoggedIn(ctx) ==> ctx.user.Some?
  }

  /** What the resolvers and validators throw, by failure kind. */
  datatype Error =
    | Unauthenticated
    | InsufficientPermissions(needed: seq<Permission>, held: seq<Permission>)
    | TooShort(field: string, min: int)
    | TooLong(field: string, max: int)
    | NoSuchOrder(id: Id)
    | OrderAccessDenied
}
