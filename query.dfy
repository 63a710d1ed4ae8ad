/** The guarded query resolvers of `src/resolvers/Query.js`. Each runs its
    checks in order over the request context and then reads the store,
    which it never writes. */
module Query {
  import opened Wrappers
  import opened Schema
  import opened Utils

  /** The labels `users` accepts: any one of them suffices. */
  const USERS_PERMISSIONS: seq<Permission> := [ADMIN, PERMISSIONUPDATE]

  /** `me`: no user when logged out, otherwise the stored user with the
      caller's id (none when there is no such user). */
  function Me(ctx: Context, store: Store): (r: Option<User>)
    ensures !LoggedIn(ctx) ==> r == None
    ensures LoggedIn(ctx) ==> (r.Some? <==> ctx.userId.value in store.users)
    ensures r.Some? ==> LoggedIn(ctx) && r.value == store.users[ctx.userId.value]
  {
    if !LoggedIn(ctx) then None
    else if ctx.userId.value in store.users then Some(store.users[ctx.userId.value])
    else None
  }

  /** In a well-formed store, `me` returns the caller's own record. */
  lemma MeIsCaller(ctx: Context, store: Store)
    requires ValidStore(store)
    requires Me(ctx, store).Some?
    ensures Me(ctx, store).value.id == ctx.userId.value
  {
  }

  /** `users`: the whole user table, for a logged-in caller holding ADMIN or
      PERMISSIONUPDATE. */
  function Users(ctx: Context, store: Store): (r: Result<map<Id, User>, Error>)
    requires ValidContext(ctx)
    ensures !LoggedIn(ctx) ==> r == Err(Unauthenticated)
    ensures r.Ok? <==> LoggedIn(ctx) && Shares(ctx.user.value.permissions, USERS_PERMISSIONS)
    ensures r.Ok? ==> r.value == store.users
    ensures LoggedIn(ctx) && !Shares(ctx.user.value.permissions, USERS_PERMISSIONS) ==>
              r == Err(InsufficientPermissions(USERS_PERMISSIONS, ctx.user.value.permissions))
  {
    if !LoggedIn(ctx) then Err(Unauthenticated)
    else match HasPermission(ctx.user.value, USERS_PERMISSIONS)
      case Fail(e) => Err(e)
      case Pass => Ok(store.users)
  }

  /** `users` succeeds exactly for a logged-in caller with ADMIN or with
      PERMISSIONUPDATE. */
  lemma UsersAccessRule(ctx: Context, store: Store)
    requires ValidContext(ctx)
    ensures Users(ctx, store).Ok? <==>
              LoggedIn(ctx) && (ADMIN in ctx.user.value.permissions || PERMISSIONUPDATE in ctx.user.value.permissions)
  {
  }

  /** A rejected `users` call has not looked at the store: its outcome is
      the same whatever the store holds. */
  lemma UsersRejectsBeforeReading(ctx: Context, store: Store, other: Store)
    requires ValidContext(ctx)
    requires Users(ctx, store).Err?
    ensures Users(ctx, other) == Users(ctx, store)
  {
  }

  /** `order`: logged in, then the order exists, then the caller both owns
      it and holds ADMIN. */
  function Order(ctx: Context, id: Id, store: Store): (r: Result<Schema.Order, Error>)
    requires ValidContext(ctx)
    ensures !LoggedIn(ctx) ==> r == Err(Unauthenticated)
    ensures LoggedIn(ctx) && id !in store.orders ==> r == Err(NoSuchOrder(id))
    ensures r.Ok? <==> LoggedIn(ctx) && id in store.orders &&
                       store.orders[id].owner == ctx.userId.value && ADMIN in ctx.user.value.permissions
    ensures r.Ok? ==> r.value == store.orders[id]
    ensures LoggedIn(ctx) && id in store.orders && r.Err? ==> r == Err(OrderAccessDenied)
  {
    if !LoggedIn(ctx) then Err(Unauthenticated)
    else if id !in store.orders then Err(NoSuchOrder(id))
    else
      var order := store.orders[id];
      var ownsOrder := order.owner == ctx.userId.value;
      var hasPermissionToSeeOrder := ADMIN in ctx.user.value.permissions;
      if !ownsOrder || !hasPermissionToSeeOrder then Err(OrderAccessDenied)
      else Ok(order)
  }

  /** An owner without ADMIN is denied their own order. */
  lemma OrderDeniesNonAdminOwner(ctx: Context, id: Id, store: Store)
    requires ValidContext(ctx) && LoggedIn(ctx)
    requires id in store.orders && store.orders[id].owner == ctx.userId.value
    requires ADMIN !in ctx.user.value.permissions
    ensures Order(ctx, id, store) == Err(OrderAccessDenied)
  {
  }

  /** An ADMIN is denied an order someone else owns. */
  lemma OrderDeniesNonOwnerAdmin(ctx: Context, id: Id, store: Store)
    requires ValidContext(ctx) && LoggedIn(ctx)
    requires id in store.orders && store.orders[id].owner != ctx.userId.value
    requires ADMIN in ctx.user.value.permissions
    ensures Order(ctx, id, store) == Err(OrderAccessDenied)
  {
  }

  /** In a well-formed store the order returned is the one asked for, and
      it belongs to the caller. */
  lemma OrderIsRequested(ctx: Context, id: Id, store: Store)
    requires ValidContext(ctx) && ValidStore(store)
    requires Order(ctx, id, store).Ok?
    ensures Order(ctx, id, store).value.id == id
    ensures Order(ctx, id, store).value.owner == ctx.userId.value
  {
  }

  /** A logged-out `order` call does not depend on the store. */
  lemma OrderRejectsLoggedOutBeforeReading(ctx: Context, id: Id, store: Store, other: Store)
    requires ValidContext(ctx) && !LoggedIn(ctx)
    ensures Order(ctx, id, other) == Order(ctx, id, store)
  {
  }

  /** `orders`: the caller's orders, and only theirs. */
  function Orders(ctx: Context, store: Store): (r: Result<map<Id, Schema.Order>, Error>)
    ensures r.Err? <==> !LoggedIn(ctx)
    ensures r.Err? ==> r.error == Unauthenticated
    ensures r.Ok? ==> forall k :: k in r.value ==>
              k in store.orders && r.value[k] == store.orders[k] && r.value[k].owner == ctx.userId.value
    ensures r.Ok? ==> forall k :: k in store.orders && store.orders[k].owner == ctx.userId.value ==> k in r.value
  {
    if !LoggedIn(ctx) then Err(Unauthenticated)
    else
      var userId := ctx.userId.value;
      Ok(map k | k in store.orders && store.orders[k].owner == userId :: store.orders[k])
  }
}
