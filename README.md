# Blog-post CRUD service: permissions, item store, cache and post list

This project models the core of a small Go service for blog posts ("items"), together
with its browser-side post list:

- **Role permissions** (`internal/permissions/user/user.go`). A role's permissions are a
  bit mask: 1 view, 2 create, 4 update, 8 delete, 16 view-all. Admin content needs
  bits 1 and 16. `GetView` maps "admin" to 31, "user" to 7 and every other identifier
  to 1. `Value` hands the mask to the database as a column value and `Scan` reads it
  back. As written, `Value` returns a plain `int`, which the driver refuses (see Findings).
- **Permission checks and gates** (`internal/permissions/permissionhandler.go`). The
  `Can*` checks fill a user's unset view from `GetView(Identifier)` on first use.
  `FilterItemsForUser` and three content accessors are built on them. Five request
  gates either call the next handler or answer 401.
- **Item table** (`internal/db/db.go`). Create, list, read, update (merging three
  fields), delete and delete-all, over a table keyed by item ID.
- **Cached handlers** (`internal/handlers.go`). The HTTP endpoints over that table.
  Single-item reads use a Redis cache keyed `"item:" + id`. Update and delete drop
  the key after a successful write.
- **The `app` package** (`app/app.go`). A second copy of the service with a
  three-field item, a save-style update and no cache. Its update handler replaces
  the body's ID with a newly generated one, so it always adds a row.
- **The post list** (`frontend/static/main_page/mainPage.js`). A `posts` array,
  mirrored into local storage after each change, plus an add/edit mode.

State that the source changes in place becomes a class: `ItemTable`, `Server`,
`ItemStore`, `PostBoard`, `User`, and `PermissionCell` (the variable `Scan` writes
through). Their methods' contracts give the complete new state. `User` has only a
constructor: the checks that fill its view are the module-level methods of
`Permissions`, as they are package functions in the source.
The global database handle is reduced to a map from ID to row. Redis is a map from
key to cached JSON. Decisions and tables are functions and lemmas.

Modelling choices:
- Library calls become parameters. `uuid.New()` is a `freshId` argument; it is
  required to be non-nil and not yet in the table. `uuid.Parse` is a `parse`
  argument.
- A UUID is its canonical 36-character text. This makes `id.String()` the identity
  and `"item:" + id` injective.
- A Go `int` mask is an integer in the 64-bit range. `Bit` is defined by arithmetic
  shifting, so negative masks read exactly as Go's `&` reads them
  (`BitOfTwosComplement`).
- Three expressions in the source do not compile, and the model adopts the evident
  reading of each. `item.Author == ""` (`internal/db/db.go` lines 35 and 71) compares
  a `user.User` struct with a string; the model reads it as an empty username.
  `u.Permissions == nil` (`internal/permissions/permissionhandler.go` line 11) tests a
  struct against `nil`; the model reads it as "not filled in yet". `model.User`
  (`internal/db/db.go` line 25) is not declared in package `model`; the model has no
  migration.
- `model.Item.Author` is a `user.User` struct. The model keeps only the author's
  username. The source copies the whole struct in
  `UpdateItem` and writes every field of it into the returned and cached JSON.
- The user's `Permissions` view is modelled as `Option`, with `None` meaning "not
  filled in yet".

Behaviour of the code worth knowing:
- No session registry exists in the code: no token issuing, expiry, revocation or
  sweep.
- Denials answer 401, not 403.
- Every identifier other than "admin" and "user", the default role included, may
  view non-admin content.
- The view, update and delete gates look up the permissions of the item's author,
  not of the requester. So any requester may delete an item whose author is "admin"
  (`DeleteGateIgnoresRequester`).

## Model

| member | source | states |
|---|---|---|
| Users.GetView | awesomeProject/internal/permissions/user/user.go:49-58 | the five capability answers of every identifier's mask equal the policy table row of its role: admin everything, user view/create/update, anyone else view only |
| Users.RolesAreNested | awesomeProject/internal/permissions/user/user.go:29-58 | capabilities strictly grow from the default role to "user" to "admin" |
| Users.ViewAdminImpliesViewAndViewAll | awesomeProject/internal/permissions/user/user.go:29-35 | for every mask, viewing admin content implies plain viewing and view-all |
| Users.EveryRoleMayView | awesomeProject/internal/permissions/user/user.go:49-58 | every mask GetView hands out has the view bit |
| Users.BitOfTwosComplement | awesomeProject/internal/permissions/user/user.go:29-35 | the bit tests read a negative mask as its 64-bit two's-complement pattern |
| Users.DBPermissionView.CanView | awesomeProject/internal/permissions/user/user.go:29-31 | `p&1 != 0 && (!isAdminContent \|\| p&16 != 0)` on the mask, negative masks included (BitOfTwosComplement); each role's answers are stated by GetView |
| Users.DBPermissionView.CanCreate | awesomeProject/internal/permissions/user/user.go:32 | `p&2 != 0` on the mask, negative masks included (BitOfTwosComplement); each role's answers are stated by GetView |
| Users.DBPermissionView.CanUpdate | awesomeProject/internal/permissions/user/user.go:33 | `p&4 != 0` on the mask, negative masks included (BitOfTwosComplement); each role's answers are stated by GetView |
| Users.DBPermissionView.CanDelete | awesomeProject/internal/permissions/user/user.go:34 | `p&8 != 0` on the mask, negative masks included (BitOfTwosComplement); each role's answers are stated by GetView |
| Users.DBPermissionView.CanViewAll | awesomeProject/internal/permissions/user/user.go:35 | `p&16 != 0` on the mask, negative masks included (BitOfTwosComplement); each role's answers are stated by GetView |
| Users.MinusOneGrantsEverything | awesomeProject/internal/permissions/user/user.go:29-47 | a scanned mask of -1 grants every capability |
| Users.DBPermissionView.Value | awesomeProject/internal/permissions/user/user.go:37-39 | the column value is the mask itself as a Go int |
| Users.DBPermissionView.Int64Value | awesomeProject/internal/permissions/user/user.go:37-39 | the corrected column value: the mask as an int64 |
| Users.ColumnWrite | awesomeProject/internal/permissions/user/user.go:37-38 | a Valuer's result of a driver type is written unchanged; a plain Go int is refused with "non-Value type int returned from Value" |
| Users.Scanned | awesomeProject/internal/permissions/user/user.go:41-47 | Scan yields a view exactly for an int64 column value, carrying that value |
| Users.PermissionCell.Scan | awesomeProject/internal/permissions/user/user.go:41-47 | an int64 replaces the mask with no error; any other type returns the error and leaves the view unchanged |
| Users.ValueWriteRefused | awesomeProject/internal/permissions/user/user.go:37-47 | for every view, the column write of Value's plain int is refused, and Scan would refuse that value too |
| Users.ValueScanRoundTrip | awesomeProject/internal/permissions/user/user.go:37-47 | for every view, the int64 value is written unchanged and scans back to the same view |
| Users.WriteAndScan | awesomeProject/internal/permissions/user/user.go:37-47 | for the two values the source can produce: a plain int fails the write and keeps the variable; an int64 is stored in it |
| Users.StoreAndLoad | awesomeProject/internal/permissions/user/user.go:37-47 | as written, storing a view through Value fails and the variable keeps its view |
| Users.StoreAndLoadInt64 | awesomeProject/internal/permissions/user/user.go:37-47 | corrected, storing through the int64 value and scanning back leaves that view without error |
| Users.PermissionCell.constructor | awesomeProject/internal/permissions/user/user.go:25-27 | the variable holds the given view |
| Users.User.constructor | awesomeProject/internal/permissions/user/user.go:9-15 | the user carries the given id, username, identifier, identifier id and view |
| Permissions.EffectiveView | awesomeProject/internal/permissions/permissionhandler.go:10-13 | an unset view is the policy row of the user's identifier |
| Permissions.CanView | awesomeProject/internal/permissions/permissionhandler.go:10-15 | fills an unset view with GetView(identifier), keeps a set one, answers that view's CanView |
| Permissions.CanCreate | awesomeProject/internal/permissions/permissionhandler.go:17-22 | fills an unset view once, keeps a set one, answers CanCreate of it |
| Permissions.CanUpdate | awesomeProject/internal/permissions/permissionhandler.go:24-29 | fills an unset view once, keeps a set one, answers CanUpdate of it |
| Permissions.CanDelete | awesomeProject/internal/permissions/permissionhandler.go:31-36 | fills an unset view once, keeps a set one, answers CanDelete of it |
| Permissions.CanViewAll | awesomeProject/internal/permissions/permissionhandler.go:38-43 | fills an unset view once, keeps a set one, answers CanViewAll of it |
| Permissions.ViewIsFilledOnce | awesomeProject/internal/permissions/permissionhandler.go:17-22 | after a first check, changing the identifier does not change the answer |
| Permissions.FilterItemsForUser | awesomeProject/internal/permissions/permissionhandler.go:45-53 | returns all items in order when the user may view, none otherwise; with no items the view stays unset |
| Permissions.FilterKeepsAllForUnsetView | awesomeProject/internal/permissions/permissionhandler.go:45-53 | for a user whose view is unset, filtering returns every item |
| Permissions.GetAdminOnlyContent | awesomeProject/internal/permissions/permissionhandler.go:55-60 | admin-only content exactly when admin content may be viewed, else "" and "not authorized" |
| Permissions.UserView | awesomeProject/internal/permissions/permissionhandler.go:62-67 | user-level content exactly when viewing is granted, else "" and "not authorized" |
| Permissions.AdminView | awesomeProject/internal/permissions/permissionhandler.go:69-74 | admin-level content exactly when admin content may be viewed, else "" and "not authorized" |
| Permissions.CanViewHandler | awesomeProject/internal/permissions/permissionhandler.go:76-86 | forwards for every item present in the context, since every author may view; panics without one |
| Permissions.CanCreateHandler | awesomeProject/internal/permissions/permissionhandler.go:88-98 | forwards iff the requester's name is "admin" or "user", otherwise 401 without forwarding |
| Permissions.CanUpdateHandler | awesomeProject/internal/permissions/permissionhandler.go:100-110 | forwards iff the item's author is "admin" or "user", otherwise 401 |
| Permissions.CanDeleteHandler | awesomeProject/internal/permissions/permissionhandler.go:112-122 | forwards iff the item's author is "admin", otherwise 401 |
| Permissions.CanViewAllHandler | awesomeProject/internal/permissions/permissionhandler.go:124-134 | forwards iff the requester's name is "admin", otherwise 401 |
| Permissions.DeleteGateIgnoresRequester | awesomeProject/internal/permissions/permissionhandler.go:112-134 | the delete decision depends on the author alone; a requester refused view-all may still delete an admin's item |
| Model.Marshal | awesomeProject/internal/model/item.go:8-16 | the JSON object of an item, one member per json tag, six in all |
| Model.MarshalFields | awesomeProject/internal/model/item.go:8-16 | each of the six json-tagged fields is read back from its own member |
| Model.MarshalRoundTrip | awesomeProject/internal/model/item.go:8-16 | decoding an item's JSON gives the item back |
| Model.MarshalInjective | awesomeProject/internal/model/item.go:8-16 | distinct items have distinct JSON |
| Db.ItemTable.constructor | awesomeProject/internal/db/db.go:14 | an empty table, every row filed under its own ID and none under the nil ID |
| Store.ListAll | awesomeProject/internal/db/db.go:48-55 | the whole-table query returns one element per row: each element is the row of a distinct key, and every key is used |
| Db.ItemTable.CreateItem | awesomeProject/internal/db/db.go:34-46 | missing name or author: error, table unchanged; a nil ID takes the fresh ID, others are kept; inserts unless the key is taken |
| Db.ItemTable.GetAllItems | awesomeProject/internal/db/db.go:48-55 | every stored row exactly once, each filed under its own ID, no two with the same ID |
| Db.ItemTable.GetItemByID | awesomeProject/internal/db/db.go:57-68 | the row for a present ID, "record not found" for an absent one |
| Db.ItemTable.UpdateItem | awesomeProject/internal/db/db.go:70-91 | rejects missing fields, then an absent ID (the nil ID included, since no row has it), changing nothing; otherwise replaces only name, author and content of that row |
| Db.Merged | awesomeProject/internal/db/db.go:83-85 | the merged row keeps ID and identifiers and takes the update's three fields |
| Db.ItemTable.DeleteItemByID | awesomeProject/internal/db/db.go:93-100 | removes exactly that key and succeeds when it is absent |
| Db.ItemTable.DeleteAllItems | awesomeProject/internal/db/db.go:102-108 | the table is empty |
| Handlers.CacheKeyInjective | awesomeProject/internal/handlers.go:73 | distinct items never share a cache key |
| Handlers.PathId | awesomeProject/internal/handlers.go:65-66 | the identifier is parse applied to the path after "/items/" (stated by ItemPathNamesItem) |
| Handlers.CacheKey | awesomeProject/internal/handlers.go:73 | the key is "item:" followed by the 36-character ID |
| Handlers.ItemPathNamesItem | awesomeProject/internal/handlers.go:65-66 | the path "/items/" + id names exactly that id |
| Handlers.Server.constructor | awesomeProject/internal/handlers.go:17-20 | starts from the given table and an empty cache, which is coherent |
| Handlers.Server.CreateItemHandler | awesomeProject/internal/handlers.go:22-41 | 405 for a non-POST, 400 for bad JSON, 201 with the stored item exactly when it is valid and its ID is free, otherwise 500 with the table's error (missing fields or duplicate key); the cache is untouched and stays coherent |
| Handlers.Server.GetAllItemsHandler | awesomeProject/internal/handlers.go:43-57 | 405 for a non-GET, else 200 with the JSON of every row |
| Handlers.Server.GetItemByIDHandler | awesomeProject/internal/handlers.go:59-106 | a hit answers the cached value without the table; a miss answers and caches a present row, or 404 caching nothing; under a coherent cache the answer is the table's current row |
| Handlers.Server.UpdateItemHandler | awesomeProject/internal/handlers.go:108-139 | the path ID overrides the body's; a failed update answers 500 and leaves table and cache alone; a successful one merges the row and then drops its key |
| Handlers.Server.DeleteItemByIDHandler | awesomeProject/internal/handlers.go:141-164 | 405 or 400 change nothing; otherwise deletes the row, then its cache key |
| Handlers.Server.DeleteAllItemsHandler | awesomeProject/internal/handlers.go:166-177 | 405 for a non-DELETE; else empties the table and leaves the cache as it was |
| Handlers.Server.DeleteAllItemsInvalidating | awesomeProject/internal/handlers.go:166-177 | empties the table, drops the key of every deleted row, keeps the cache coherent |
| Handlers.StaleReadAfterDeleteAll | awesomeProject/internal/handlers.go:166-177 | create, read, delete all, read: the second read answers 200 with the deleted item |
| Handlers.FreshReadAfterDeleteAll | awesomeProject/internal/handlers.go:166-177 | the same steps with the invalidating delete-all: the second read answers 404 |
| App.ItemStore.constructor | awesomeProject/app/app.go:21 | an empty table, every row filed under its own ID |
| App.ItemStore.CreateItem | awesomeProject/app/app.go:40-52 | missing fields error and change nothing; a nil ID takes the fresh ID; inserts exactly when that ID is free |
| App.ItemStore.GetAllItems | awesomeProject/app/app.go:54-61 | every stored row exactly once, no two with the same ID |
| App.ItemStore.GetItemByID | awesomeProject/app/app.go:63-74 | the row for a present ID, "record not found" otherwise |
| App.ItemStore.UpdateItem | awesomeProject/app/app.go:76-85 | rejects missing fields; a Nil ID is inserted, a duplicate key once a Nil row exists; any other ID has the whole item saved under it, without an existence check |
| App.ItemStore.DeleteItemByID | awesomeProject/app/app.go:87-94 | removes exactly that key, succeeding when absent |
| App.ItemStore.DeleteAllItems | awesomeProject/app/app.go:96-102 | the table is empty |
| App.ItemStore.HandleCreateItem | awesomeProject/app/app.go:104-132 | OPTIONS changes nothing; 400 for bad JSON or missing fields; 201 with the stored item exactly when its ID is free, 500 when it is taken |
| App.ItemStore.HandleGetAllItems | awesomeProject/app/app.go:134-151 | OPTIONS answers nothing else; otherwise 200 with every row once |
| App.ItemStore.HandleGetItemByID | awesomeProject/app/app.go:153-181 | 400 for an unparseable id, the row for a present one, 404 otherwise |
| App.ItemStore.HandleUpdateItem | awesomeProject/app/app.go:183-215 | a valid body is saved under the fresh ID: one row more, every existing row unchanged |
| App.ItemStore.HandleDeleteItemByID | awesomeProject/app/app.go:217-238 | 400 for an unparseable id with no change, else that key removed and 204 |
| App.ItemStore.HandleDeleteAllItems | awesomeProject/app/app.go:240-254 | OPTIONS changes nothing; otherwise the table is empty and 204 |
| MainPage.FindIndex | awesomeProject/frontend/static/main_page/mainPage.js:45 | the index of the first post with the id, or -1 exactly when none has it |
| MainPage.Find | awesomeProject/frontend/static/main_page/mainPage.js:92 | the first post with the id: no earlier post has it; absent exactly when none has it |
| MainPage.WithoutId | awesomeProject/frontend/static/main_page/mainPage.js:68 | keeps exactly the posts whose id differs |
| MainPage.WithoutIdAppend | awesomeProject/frontend/static/main_page/mainPage.js:68 | filtering distributes over concatenation, so kept posts stay in order |
| MainPage.WithoutAbsentId | awesomeProject/frontend/static/main_page/mainPage.js:68 | deleting an id no post has changes nothing |
| MainPage.Edited | awesomeProject/frontend/static/main_page/mainPage.js:46 | only the edited post changes: it keeps its id and takes the form's three fields |
| MainPage.PostBoard.Editing | awesomeProject/frontend/static/main_page/mainPage.js:44 | JavaScript truthiness of currentEditId: set and not the empty string |
| MainPage.PostBoard.constructor | awesomeProject/frontend/static/main_page/mainPage.js:13-14 | the stored list or [] and not editing |
| MainPage.PostBoard.Submit | awesomeProject/frontend/static/main_page/mainPage.js:38-63 | editing: the post named by currentEditId takes the form fields, the count is kept, edit mode ends; adding: exactly one post is appended; storage then equals the list |
| MainPage.PostBoard.ClickDelete | awesomeProject/frontend/static/main_page/mainPage.js:66-70 | every post with the id removed, the rest in order, then saved |
| MainPage.PostBoard.ClickEdit | awesomeProject/frontend/static/main_page/mainPage.js:71-80 | enters edit mode for an id some post has and returns that post's fields for the form |
| MainPage.PostBoard.DeleteAll | awesomeProject/frontend/static/main_page/mainPage.js:83-87 | the list and the stored copy are empty |
| MainPage.PostBoard.ViewById | awesomeProject/frontend/static/main_page/mainPage.js:89-101 | the first post with the id, or none exactly when no post has it |
| MainPage.PostBoard.CancelEdit | awesomeProject/frontend/static/main_page/mainPage.js:107-112 | leaves edit mode and changes nothing else |

## Findings

| source | as written | input that shows it | evidently intended | confidence | as-written member | corrected member |
|---|---|---|---|---|---|---|
| awesomeProject/internal/handlers.go:166-177 | `DeleteAllItemsHandler` empties the table but does not delete any `"item:"` cache key, unlike the update and delete handlers | POST an item X; GET /items/X, which fills the cache; DELETE all; GET /items/X answers 200 with X's JSON although the table is empty | drop the cached copy of every deleted row, so that the read answers 404 | medium, not executed | Handlers.StaleReadAfterDeleteAll | Handlers.Server.DeleteAllItemsInvalidating |
| awesomeProject/internal/permissions/user/user.go:37-39 | `Value` returns the mask as a plain Go `int`, which is not one of the driver value types, so every column write of a view, and thus every item write carrying an author, is refused | any item write: `Author` is an embedded `user.User` (awesomeProject/internal/model/item.go:11), so `DB.Create` in `CreateItem` and `DB.Save` in `UpdateItem` pass its `Permissions` (e.g. the mask 7) through `Value`, and the write fails with "non-Value type int returned from Value" (given the evident reading of `item.Author == ""`, without which db.go does not compile) | return `int64(pv.Permissions)`, which is written unchanged and scans back to the same view | medium, not executed | Users.ValueWriteRefused | Users.ValueScanRoundTrip |

## Left out

- Session handling (`internal/session.go`), startup and routing (`main.go`, `cmd/api-server/main.go`), `InitDB`, and the login, admin and user page scripts are not part of this model. The session code stores nothing and has no expiry logic.
- HTTP framing is left out: headers (CORS included), the text format of `http.Error`, and JSON as bytes. A request is its method, path or "id" parameter, and decoded body. JSON is a list of members with no escaping or byte encoding.
- Storage and cache failures are left out: gorm or MySQL errors other than "record not found" and a duplicate key, and Redis errors. The branches that answer 500 for them are not modelled. Delete and delete-all cannot fail on an in-memory table.
- Redis's 10-minute expiry of cached items is not modelled. An entry stays until it is deleted.
- Concurrency is left out: the unused `sync.Mutex` in `app.go`, concurrent requests, and races between a cache fill and an invalidation.
- `uuid.New` and `uuid.Parse` are parameters, not definitions. Other accepted UUID spellings (braces, `urn:uuid:`, upper case) are left to the `parse` argument.
- The column write of a `Valuer` is reduced to its type check (`ColumnWrite`); the driver's other conversions and time values are left out, and the INT column is assumed to hand back the value written (a real database would convert a string, float or bool, and an older driver may return a text-protocol INT as bytes). `Scan`'s `int(v)` assumes Go's 64-bit `int`.
- `model.Item`'s `Permissions` interface field and its `GetPermissions` accessor carry no logic and are left out. `Author` keeps only the username, so the JSON of an item lacks the author's other fields, which the source copies and serialises.
- In `mainPage.js`: rendering, `alert`, `form.reset` and button labels are left out. The form fields and `Date.now()` are parameters. An edit submitted after its post was deleted writes to index -1, which no array operation sees, so the list is unchanged.
- Db.ItemTable.CreateItem, Db.ItemTable.UpdateItem: succeed on valid input although, as written, the embedded author's `Permissions` column makes every item write fail (see Findings); with `Author` reduced to the username, the model has no such column and states the writes as they behave once `Value` returns an `int64`.
- Store.ListAll: returns the rows in the order the scan picks them. The source's query has no ORDER BY, so the model states no order.
