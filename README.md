# Authorization layer of the sick-fits storefront backend

This project models the authorization layer of a GraphQL storefront backend
and proves its access rules. It has two validators, `hasPermission` and
`checkCharacters`. It has the guarded query resolvers `me`, `users`, `order`
and `orders`. It has the item mutations `createItem`, `updateItem` and
`deleteItem`.

- `wrappers.dfy`: `Option`, `Result` and `Outcome`. An `Outcome` is a check
  that either passes or fails with the error the source would throw.
- `schema.dfy`: users, orders, and the store as a read-only map from id to
  record. It also holds the request context `(userId, user)` and the error
  kinds. `LoggedIn` is JavaScript truthiness of `ctx.request.userId`: the
  id is present and not the empty string.
- `utils.dfy`: `HasPermission`, built from `Matched` (the source's `filter`),
  and `CheckCharacters`.
- `query.dfy`: the resolvers as total functions over a context and a store.
  Each returns a value or a typed error.
- `mutation.dfy`: the mutations as the requests they hand to the store.
  `Record` is a JavaScript object with in-place `delete`. `UpdateItem` copies
  the arguments into a fresh `Record` and deletes `id` from the copy.

Where the design notes and the code disagree, the model follows the code:

- With an empty required list, `hasPermission` fails. The design says such
  a list means "no restriction".
- `createItem` checks nothing (the source has a TODO for it). The design
  wants an authenticated session.
- `order` requires ownership AND `ADMIN`, so an owner without `ADMIN` is
  refused. The design notes flag this as probably meant to be OR. The model
  keeps the source's rule and proves both denials as written.
- Permissions are held as an ordered list that may repeat labels, as in the
  source. The design describes a set.

## Model

| member | source | states |
|---|---|---|
| Utils.Matched | src/utils.js:2-4 | the filtered labels are exactly those held that are also needed, each drawn from the held list (multiset inclusion) |
| Utils.HasPermission | src/utils.js:1-15 | passes iff some held label is also needed; otherwise fails with the needed and the held labels, and has no other outcome |
| Utils.HasPermissionAnyOf | src/utils.js:2-5 | one shared label suffices, however many other needed labels are missing |
| Utils.HasPermissionEmptyFails | src/utils.js:2-5 | an empty required list or a user with no labels always fails |
| Utils.HasPermissionMonotone | src/utils.js:2-5 | passing is kept when labels are added to the user or to the required list |
| Utils.CheckCharacters | src/utils.js:17-26 | passes iff min < length < max with falsy bounds defaulted to 5 and 15; a length at or below min reports the minimum error, otherwise a length at or above max reports the maximum error |
| Utils.CheckCharactersZeroIsAbsent | src/utils.js:18-19 | a zero bound behaves exactly like an absent one |
| Utils.CheckCharactersDefaults | src/utils.js:18-25 | with default bounds exactly the lengths 6..14 pass; length 5 is too short and 15 too long |
| Utils.CheckCharactersBoundsExclusive | src/utils.js:20-25 | a length equal to either bound is rejected |
| Utils.CheckCharactersMinimumFirst | src/utils.js:20-25 | when both bounds are violated the minimum-length error is the one reported |
| Query.Me | src/resolvers/Query.js:8-16 | null when logged out; otherwise the stored user under the caller's id, null if there is none |
| Query.MeIsCaller | src/resolvers/Query.js:13-15 | in a store filed by id, the user returned has the caller's id |
| Query.Users | src/resolvers/Query.js:17-26 | not logged in fails first; then fails with insufficient permissions unless ADMIN or PERMISSIONUPDATE is shared; otherwise returns the whole user table |
| Query.UsersAccessRule | src/resolvers/Query.js:19-25 | succeeds iff logged in and holding ADMIN or PERMISSIONUPDATE |
| Query.UsersRejectsBeforeReading | src/resolvers/Query.js:19-25 | a rejected call gives the same outcome for every store, so the store is not consulted |
| Query.Order | src/resolvers/Query.js:27-47 | checks login, then existence, then access, each failure taking precedence; succeeds iff the caller owns the order and holds ADMIN, returning the stored order |
| Query.OrderDeniesNonAdminOwner | src/resolvers/Query.js:40-44 | an owner without ADMIN is denied |
| Query.OrderDeniesNonOwnerAdmin | src/resolvers/Query.js:40-44 | an ADMIN who does not own the order is denied |
| Query.OrderIsRequested | src/resolvers/Query.js:33-46 | in a store filed by id, the order returned has the requested id and belongs to the caller |
| Query.OrderRejectsLoggedOutBeforeReading | src/resolvers/Query.js:29-31 | a logged-out call gives the same outcome for every store |
| Query.Orders | src/resolvers/Query.js:48-58 | fails exactly when logged out; otherwise returns every stored order owned by the caller, unchanged, and no other |
| Mutation.TargetId | src/resolvers/Mutation.js:18-20 | the update and delete target is the `id` argument, absent when the argument is |
| Mutation.Patch | src/resolvers/Mutation.js:13-15 | the patch has no `id` key, keeps every other argument with its value, and adds no key |
| Mutation.PatchRestoresArgs | src/resolvers/Mutation.js:13-15 | restoring `id` into the patch gives back the arguments |
| Mutation.Record.Copy | src/resolvers/Mutation.js:13 | the spread makes a fresh object with the same properties |
| Mutation.Record.Delete | src/resolvers/Mutation.js:15 | the object loses exactly that key |
| Mutation.UpdateItem | src/resolvers/Mutation.js:11-22 | leaves the argument object unchanged and asks the store to update the item at `args.id` with the patch |
| Mutation.CreateItem | src/resolvers/Mutation.js:2-10 | passes exactly the arguments as the new item's data |
| Mutation.DeleteItem | src/resolvers/Mutation.js:23-30 | looks the item at `args.id` up, then deletes the item at `args.id` |
| Mutation.MutationsUnguarded | src/resolvers/Mutation.js:2-29 | create and delete never fail and give the same requests for every context: no login, ownership or permission check |

## Left out

- `items`, `item` and `itemsConnection` (src/resolvers/Query.js:5-7) forward
  straight to the database and contain no logic.
- Prisma query semantics, the `info` selection set and the `{ id title }`
  projection. The store is an abstract map, and `orders` returns the
  caller's orders as a map keyed by id, so list order is not modelled.
- `async`/`await`: every resolver is a sequential function.
- Error-message text. Errors carry their kind and the relevant values
  instead.
- A context with a user id but no loaded user record: `Users` and `Order`
  require `ValidContext`. The source would crash with a TypeError there.
- Mutation.DeleteItem: the result of the lookup is discarded in the source,
  so the model records only the request, not its answer.
- Mutation.UpdateItem: does not model the store's answer. The resolver
  returns that answer unchanged.
- Utils.CheckCharacters: `value.length` is taken as the number of Dafny
  characters, not UTF-16 code units. A bound is an integer or absent
  (`undefined`/`null`); other falsy JavaScript values (`NaN`, `""`) are
  not modelled.
- Session and reset tokens, the cart, checkout and payment. They are not
  part of this model.
