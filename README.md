# Winehood shop core in Dafny

This project models the core of the Winehood wine shop's backend.

- **Checkout.** A user's shopping cart becomes a PENDING order. The order carries the cart's total and one order line per cart line, and each line copies the wine's price. In the model the cart is then emptied. The source as written leaves the cart's lines in the table (see "## Findings"); the model uses the corrected clear.
- **Cart.** Adding a wine overwrites its line's quantity. Updating or deleting a line checks that it belongs to the caller's own cart.
- **Catalogue.** The wine and region catalogues use soft delete, and a wine needs a live region.
- **Search.** Wine search conjoins the predicates of keyed specification providers.
- **Reviews.** A review needs a live wine.
- **Accounts.** Registration refuses a taken username. Role names are resolved case-insensitively. The profile update re-encodes the password.
- **Small pure parts.** The password rule `.{8,35}`, the role authority string, and the exception handler's statuses and response bodies.

The store is one `Store.Database` object with one field per table:

- **Maps from id to record:** regions, wines, roles, users, carts and orders.
- **Sequences in insertion order:** cart lines, order lines and reviews.
- **Counters:** one per table, handing out new keys.

Two keys are shared:

- a cart is stored under its user's id;
- a cart line is stored under its wine's id.

So a wine can be in at most one cart of the whole shop. Adding it to a second cart collides on the key and is reported as `DuplicateKey`.

Soft delete is a `deleted` flag. Every read skips flagged rows. Deleting a wine also removes its reviews: the wine's review collection has `orphanRemoval`, and a review has no soft delete.

`Database.Valid()` is the set of integrity constraints every service method keeps:

- keys are below their counter;
- references point at stored rows;
- cart-line keys are unique;
- role names are unique.

The service methods modify only the tables they name. Each one states its whole new state and its error cases, including the exception messages.

The modules and the Java sources they model (paths relative to `src/main/java/com/example/winehood/`):

| module | file | source |
|---|---|---|
| `Common` | `common.dfy` | option and result types, exception kinds, decimal rendering of ids |
| `Roles` | `roles.dfy` | `model/Role.java`, `mapper/UserMapper.java` |
| `Records` | `records.dfy` | the entities under `model/` |
| `Store` | `store.dfy` | the repositories, as tables |
| `OrderService` | `orders.dfy` | `service/order/OrderServiceImpl.java` |
| `CartService` | `carts.dfy` | `service/shoppingcart/ShoppingCartServiceImpl.java` |
| `WineSearch` | `wine_search.dfy` | `repository/wine/WineSpecificationBuilder.java`, `WineSpecificationProviderManager.java`, `spec/NameSpecificationProvider.java` |
| `WineService` | `wines.dfy` | `service/wine/WineServiceImpl.java` |
| `RegionService` | `regions.dfy` | `service/region/RegionServiceImpl.java` |
| `ReviewService` | `reviews.dfy` | `service/review/ReviewServiceImpl.java` |
| `UserService` | `users.dfy` | `service/user/UserServiceImpl.java` |
| `Passwords` | `passwords.dfy` | `validation/PasswordValidator.java` |
| `ErrorHandling` | `errors.dfy` | `exception/CustomGlobalExceptionHandler.java` |

## Model

| member | source | states |
|---|---|---|
| Store.ItemIndex | src/main/java/com/example/winehood/model/CartItem.java:25-36 | The cart-line lookup by key (the wine id) returns the first position holding that key, or none when no line has it. |
| Store.CartItemsOf | src/main/java/com/example/winehood/repository/cartitem/CartItemRepository.java:11 | The lines of a cart are exactly the table's lines whose cart id is that cart. |
| OrderService.OrderItemsFor | src/main/java/com/example/winehood/service/order/OrderServiceImpl.java:124-135 | One order line per cart line. Each references the order, keeps the wine and quantity, copies the wine's current price and takes a fresh key rather than the cart line's id (mapping at mapper/OrderItemMapper.java:15-17). |
| OrderService.SnapshotTotal | src/main/java/com/example/winehood/service/order/OrderServiceImpl.java:114-135 | The sum of price times quantity over the new order lines equals the cart total computed by calculateTotalOrderPrice (a sum from zero of price times quantity). |
| OrderService.ClearCart | src/main/java/com/example/winehood/service/order/OrderServiceImpl.java:137-140 | Corrected clear: a line remains exactly when it was in the table and belongs to another cart. |
| OrderService.ClearCartEffect | src/main/java/com/example/winehood/service/order/OrderServiceImpl.java:137-140 | After the corrected clear the cart has no lines, and every other cart has exactly the lines it had, in order. |
| OrderService.ClearAsWrittenKeepsLines | src/main/java/com/example/winehood/service/order/OrderServiceImpl.java:137-140 | As written, the clear only empties the in-memory inverse collection, so a one-line cart still has its line in the table afterwards. |
| OrderService.ClearCartSound | src/main/java/com/example/winehood/service/order/OrderServiceImpl.java:137-140 | Clearing a cart keeps cart-line keys unique and references sound. |
| OrderService.AppendOrderItemsSound | src/main/java/com/example/winehood/service/order/OrderServiceImpl.java:124-135 | Saving the new order and its lines keeps order-line keys unique, below the counter, and pointing at stored orders. |
| OrderService.CreateAndSaveOrder | src/main/java/com/example/winehood/service/order/OrderServiceImpl.java:108-122 | The saved order is PENDING and belongs to the cart's user. Its total is the cart total, and its date and address come from the request. It is stored under a fresh key; no other order changes. |
| OrderService.CreateAndSaveOrderItems | src/main/java/com/example/winehood/service/order/OrderServiceImpl.java:124-135 | The order-line table grows by exactly the lines `OrderItemsFor` describes. |
| OrderService.ClearShoppingCart | src/main/java/com/example/winehood/service/order/OrderServiceImpl.java:137-140 | Corrected clear (see "## Findings"): the cart-line table becomes `ClearCart` of its old contents. The cart has no lines left, and the cart itself stays. |
| OrderService.CreateOrder | src/main/java/com/example/winehood/service/order/OrderServiceImpl.java:38-51 | Succeeds iff the user has a cart with at least one line. Otherwise it returns not-found ("Shopping cart not found for user Id: ") or the DataProcessing error for an empty cart, and no table or key counter changes. On success it saves the order and its lines and, with the corrected clear (see "## Findings"), empties the cart; the lines' price times quantity sums to the order's total. |
| OrderService.FindOrder | src/main/java/com/example/winehood/service/order/OrderServiceImpl.java:89-93 | Returns the live order, or "Order not found for id: " iff there is none. |
| OrderService.GetOrders | src/main/java/com/example/winehood/service/order/OrderServiceImpl.java:54-61 | Returns exactly the user's live orders. If there are none it fails with "No orders found for user with id: " instead of returning an empty answer. |
| OrderService.UpdateOrderStatus | src/main/java/com/example/winehood/service/order/OrderServiceImpl.java:64-68 | Any status replaces any other, with no transition check, and every other field and order is unchanged. An unknown order is not-found and changes nothing. |
| OrderService.GetOrderItemsByOrderId | src/main/java/com/example/winehood/service/order/OrderServiceImpl.java:71-74 | Exactly the live lines of that order; an unknown order has none. |
| OrderService.FindOrderItem | src/main/java/com/example/winehood/service/order/OrderServiceImpl.java:95-99 | A live line with that key, or none iff no live line has it. |
| OrderService.GetOrderItemByIdAndOrderId | src/main/java/com/example/winehood/service/order/OrderServiceImpl.java:77-81 | A missing line is not-found, with a message that quotes the order id. A line of another order is a DataProcessing error. Under unique keys it succeeds iff the line exists and belongs to the order (ownership check at lines 142-147). |
| CartService.ToCartItemDto | src/main/java/com/example/winehood/mapper/CartItemMapper.java:14-16 | The DTO's id and wine id are both the line's key, the wine id. It carries the wine's name and the quantity. |
| CartService.ToCartItemDtos | src/main/java/com/example/winehood/service/shoppingcart/ShoppingCartServiceImpl.java:120-124 | One DTO per line, position by position. |
| CartService.FindShoppingCart | src/main/java/com/example/winehood/service/shoppingcart/ShoppingCartServiceImpl.java:44-49 | Returns the cart iff it exists, otherwise "Can't find ShoppingCart for userId: ". The cart id is the user's id, and the items are exactly the DTOs of the cart's lines from the per-cart query. |
| CartService.ValidateCartItemBelongsToUser | src/main/java/com/example/winehood/service/shoppingcart/ShoppingCartServiceImpl.java:95-111 | A missing key is "Can't find CartItem with cartItemId: ". A line in another cart is the not-found "does not belong" error. Under unique keys it succeeds iff the line is the caller's. |
| CartService.CreateShoppingCart | src/main/java/com/example/winehood/service/shoppingcart/ShoppingCartServiceImpl.java:37-41 | Stores a cart under the user's id with no lines. A user who already has a cart collides on the key, and nothing changes. |
| CartService.AddWineToShoppingCart | src/main/java/com/example/winehood/service/shoppingcart/ShoppingCartServiceImpl.java:52-66 | The wine is checked first: a missing or deleted wine is "Can't find Wine with wineId: ". Then a user without a cart is "Can't find ShoppingCart for userId: ", and a wine in another cart collides on the key. On success the table becomes `SetLine`, and nothing changes on error. |
| CartService.SetLineResult | src/main/java/com/example/winehood/service/shoppingcart/ShoppingCartServiceImpl.java:57-63 | After an add, the cart holds exactly one line for the wine, with the requested quantity: the old quantity is overwritten, not added to. Keys stay unique. |
| CartService.SetLineSize | src/main/java/com/example/winehood/service/shoppingcart/ShoppingCartServiceImpl.java:57-63 | An existing line keeps the line count; a new wine adds exactly one line (createNewCartItem at lines 113-118). |
| CartService.SetLineIdempotent | src/main/java/com/example/winehood/service/shoppingcart/ShoppingCartServiceImpl.java:57-63 | Adding the same wine with the same quantity twice gives the same table as adding it once. |
| CartService.LastWriteWins | src/main/java/com/example/winehood/service/shoppingcart/ShoppingCartServiceImpl.java:57-63 | A second add of a wine gives the table a single add with the second quantity would give. |
| CartService.SetLineSound | src/main/java/com/example/winehood/service/shoppingcart/ShoppingCartServiceImpl.java:57-63 | An add keeps cart-line keys unique and references sound. |
| CartService.OtherCartsUnchangedBySetLine | src/main/java/com/example/winehood/service/shoppingcart/ShoppingCartServiceImpl.java:57-63 | An add to one cart leaves every other cart's lines exactly as they were. |
| CartService.UpdateWineInShoppingCart | src/main/java/com/example/winehood/service/shoppingcart/ShoppingCartServiceImpl.java:69-75 | Succeeds iff the caller's cart holds a line with that key; otherwise it is not-found and nothing changes. The error is exactly `ValidateCartItemBelongsToUser`'s: "Can't find CartItem with cartItemId: " for a missing line, or "CartItem does not belong to this user's ShoppingCart" for another user's line (lines 95-111). On success only that line's quantity is overwritten. |
| CartService.UpdateLineEffect | src/main/java/com/example/winehood/service/shoppingcart/ShoppingCartServiceImpl.java:69-75 | An update leaves every other cart's lines exactly as they were. |
| CartService.DeleteWineFromShoppingCart | src/main/java/com/example/winehood/service/shoppingcart/ShoppingCartServiceImpl.java:78-81 | Succeeds iff the caller's cart holds a line with that key; otherwise it is not-found and nothing changes. The error is exactly `ValidateCartItemBelongsToUser`'s, with the same two messages. On success exactly that line leaves the table. |
| CartService.RemoveLine | src/main/java/com/example/winehood/service/shoppingcart/ShoppingCartServiceImpl.java:80 | Deleting a row shortens the table by exactly one. |
| CartService.RemoveLineSound | src/main/java/com/example/winehood/service/shoppingcart/ShoppingCartServiceImpl.java:80 | A delete keeps cart-line keys unique and references sound. |
| CartService.RemoveLineDropsWine | src/main/java/com/example/winehood/service/shoppingcart/ShoppingCartServiceImpl.java:80 | After a delete no line holds that wine. |
| CartService.RemoveLineOtherCarts | src/main/java/com/example/winehood/service/shoppingcart/ShoppingCartServiceImpl.java:78-81 | A delete leaves every other cart's lines exactly as they were. |
| CartService.WineInAtMostOneCart | src/main/java/com/example/winehood/model/CartItem.java:25-36 | Because a line's key is its wine's id, two lines for the same wine are in the same cart. |
| CartService.NoLinesOfUnknownCart | src/main/java/com/example/winehood/service/shoppingcart/ShoppingCartServiceImpl.java:37-41 | A cart that is not stored has no lines, so a new cart starts empty. |
| WineSearch.MatchAll | src/main/java/com/example/winehood/repository/wine/WineSpecificationBuilder.java:18 | `Specification.where(null)` accepts every wine. |
| WineSearch.And | src/main/java/com/example/winehood/repository/wine/WineSpecificationBuilder.java:20-29 | The conjunction accepts a wine iff both parts do. |
| WineSearch.NameProvider | src/main/java/com/example/winehood/repository/wine/spec/NameSpecificationProvider.java:11-21 | The key is "name", and the predicate accepts a wine iff its name is one of the values. |
| WineSearch.FindProvider | src/main/java/com/example/winehood/repository/wine/WineSpecificationProviderManager.java:16-22 | Succeeds iff some provider has the key. The result is the first such provider in list order. An unknown key is IllegalArgument "No specification provider found for key: ". |
| WineSearch.AddGroup | src/main/java/com/example/winehood/repository/wine/WineSpecificationBuilder.java:19-29 | A group takes part only when it is non-null and non-empty. It then conjoins its provider's predicate or fails with the lookup's error; otherwise the specification is unchanged. |
| WineSearch.BuildMeaning | src/main/java/com/example/winehood/repository/wine/WineSpecificationBuilder.java:17-32 | The build succeeds iff every present group's key ("name", "grapeVariety", "region") has a provider. It then accepts a wine iff every present group's predicate does. Otherwise the error is "No specification provider found for key: " plus the first unresolvable key, in the order name, grapeVariety, region. |
| WineSearch.NoGroupsMatchAll | src/main/java/com/example/winehood/repository/wine/WineSpecificationBuilder.java:18-31 | With every group null or empty, the search accepts every wine. |
| WineSearch.AddingGroupNarrows | src/main/java/com/example/winehood/repository/wine/WineSpecificationBuilder.java:19-30 | Adding a non-empty group never lets more wines through. |
| WineSearch.AppendKeepsLookup | src/main/java/com/example/winehood/repository/wine/WineSpecificationProviderManager.java:17-19 | Registering another provider after the others never changes the provider found for a key that was already found. |
| WineSearch.NameParamsAsSet | src/main/java/com/example/winehood/repository/wine/spec/NameSpecificationProvider.java:18-21 | Reordering or repeating the name values does not change which wines match. |
| WineSearch.NameParamsMonotone | src/main/java/com/example/winehood/repository/wine/spec/NameSpecificationProvider.java:18-21 | Adding a name value never drops a wine from the match. |
| WineSearch.SearchByNameOnly | src/main/java/com/example/winehood/repository/wine/WineSpecificationBuilder.java:19-21 | With the name provider registered and only names given, a wine matches iff its name is one of them. |
| WineService.ToWineDto | src/main/java/com/example/winehood/mapper/WineMapper.java:14-26 | The DTO copies the wine's fields, and its region id is the wine's region's id. |
| WineService.FindById | src/main/java/com/example/winehood/service/wine/WineServiceImpl.java:38-41 | Returns the wine iff it is a live row, otherwise "Can't find wine by id: " (lookup at lines 75-78). |
| WineService.FindAll | src/main/java/com/example/winehood/service/wine/WineServiceImpl.java:44-47 | Exactly the live wines. |
| WineService.FindAllByRegionId | src/main/java/com/example/winehood/service/wine/WineServiceImpl.java:50-53 | Exactly the live wines whose region id is the argument, without their region. |
| WineService.SearchByParameters | src/main/java/com/example/winehood/service/wine/WineServiceImpl.java:69-73 | Exactly the live wines the built specification accepts, or the build's error. |
| WineService.Save | src/main/java/com/example/winehood/service/wine/WineServiceImpl.java:31-35 | Succeeds iff the request's region is live (`getRegionsFromDto`, lines 80-84, the same lookup as `RegionService.FindById`); otherwise that not-found error, and nothing changes. The wine is stored under a fresh key and references that region. |
| WineService.UpdateById | src/main/java/com/example/winehood/service/wine/WineServiceImpl.java:56-61 | The wine is checked before the region (looked up as `RegionService.FindById` does), and either missing is not-found with nothing changed. Otherwise the wine takes the request's fields and region and keeps its key. |
| WineService.DeleteById | src/main/java/com/example/winehood/service/wine/WineServiceImpl.java:64-66 | Soft delete of a live wine: its flag is set and its reviews are removed (`orphanRemoval` at model/Wine.java:36-37), with no other table changed. Afterwards `FindById` fails and `FindAll` omits it. An id with no live row changes nothing. |
| WineService.SaveThenFind | src/main/java/com/example/winehood/service/wine/WineServiceImpl.java:31-41 | A saved wine is found with the saved fields and is listed under its region. |
| WineService.RegionListingsPartition | src/main/java/com/example/winehood/service/wine/WineServiceImpl.java:50-53 | A live wine is listed under its own region and under no other. |
| WineService.SearchWithinListing | src/main/java/com/example/winehood/service/wine/WineServiceImpl.java:69-73 | A search returns only wines of the full listing. With no groups it returns the full listing. |
| RegionService.ToRegionDto | src/main/java/com/example/winehood/service/region/RegionServiceImpl.java:31 | The DTO carries the id, name and country. |
| RegionService.FindById | src/main/java/com/example/winehood/service/region/RegionServiceImpl.java:29-32 | Returns the region iff it is a live row, otherwise "Can't find region by id: " (lines 52-55). |
| RegionService.FindAll | src/main/java/com/example/winehood/service/region/RegionServiceImpl.java:35-38 | Exactly the live regions. |
| RegionService.Save | src/main/java/com/example/winehood/service/region/RegionServiceImpl.java:23-26 | A live region with the request's name and country is stored under a fresh key. |
| RegionService.UpdateById | src/main/java/com/example/winehood/service/region/RegionServiceImpl.java:41-45 | A missing region is not-found and nothing changes. Otherwise it takes the request's name and country and keeps its id. |
| RegionService.DeleteById | src/main/java/com/example/winehood/service/region/RegionServiceImpl.java:48-50 | Soft delete: only the flag changes, and afterwards `FindById` fails and `FindAll` omits the region. |
| RegionService.SaveThenFind | src/main/java/com/example/winehood/service/region/RegionServiceImpl.java:23-32 | A saved region is found with the saved name and country. |
| RegionService.DeleteHidesOnlyThatRegion | src/main/java/com/example/winehood/service/region/RegionServiceImpl.java:48-50 | Deleting one region changes what `FindById` answers for no other region. |
| ReviewService.ToReviewDto | src/main/java/com/example/winehood/service/review/ReviewServiceImpl.java:35 | The DTO carries every field of the review. |
| ReviewService.Save | src/main/java/com/example/winehood/service/review/ReviewServiceImpl.java:28-36 | Succeeds iff the wine is live; otherwise "Can't find wine by id: " and no review is stored. The new review references the wine and the caller, carries the request's text and rating and the save-time clock reading, and is appended under a fresh key. |
| ReviewService.FindAllReviewsByWineId | src/main/java/com/example/winehood/service/review/ReviewServiceImpl.java:39-42 | Exactly that wine's reviews; an unknown wine has none, which is not an error. |
| Store.ReviewsWithoutWine | src/main/java/com/example/winehood/model/Wine.java:36-37 | The reviews kept when a wine is removed are exactly those of the other wines. |
| ReviewService.DeleteWineDropsReviews | src/main/java/com/example/winehood/service/review/ReviewServiceImpl.java:39-42 | After a wine's removal its review listing is empty, and no other wine's listing changes. |
| ReviewService.SaveThenList | src/main/java/com/example/winehood/service/review/ReviewServiceImpl.java:28-42 | A saved review is appended last to its wine's listing, and no other wine's listing changes. |
| UserService.ToResponse | src/main/java/com/example/winehood/mapper/UserMapper.java:17-18 | The response copies the user's fields and turns the roles into their names. |
| UserService.UpperCase | src/main/java/com/example/winehood/service/user/UserServiceImpl.java:57 | Upper-casing keeps the length and maps each ASCII lower-case letter to its capital. |
| UserService.UpperCaseIdempotent | src/main/java/com/example/winehood/service/user/UserServiceImpl.java:57 | Upper-casing twice is upper-casing once. |
| UserService.ResolveRoleNamesOk | src/main/java/com/example/winehood/service/user/UserServiceImpl.java:56-58 | The role-name stream succeeds iff every name, upper-cased, is a role name. |
| UserService.ResolveRoleNamesValue | src/main/java/com/example/winehood/service/user/UserServiceImpl.java:56-58 | The resolved set holds exactly the role names of the given names. |
| UserService.ResolveRoleNamesError | src/main/java/com/example/winehood/service/user/UserServiceImpl.java:56-58 | A failure is the `valueOf` error of the first name that is no role name. |
| UserService.LowerCaseAdminResolves | src/main/java/com/example/winehood/service/user/UserServiceImpl.java:56-58 | "admin", "Admin" and "ADMIN" resolve to ADMIN; "user" and "admin" resolve to both roles. |
| UserService.UnknownRoleRefused | src/main/java/com/example/winehood/service/user/UserServiceImpl.java:57 | "guest" throws "No enum constant ...RoleName.GUEST". |
| UserService.RolesNamed | src/main/java/com/example/winehood/service/user/UserServiceImpl.java:89-91 | Exactly the live role rows whose name is in the set. |
| UserService.RolesNamedSize | src/main/java/com/example/winehood/service/user/UserServiceImpl.java:89-91 | Under unique role names, no more roles are found than names asked for. |
| UserService.RegisteredUserRoles | src/main/java/com/example/winehood/service/user/UserServiceImpl.java:43-44 | A new user's roles are at most the USER role, and exactly USER when a live USER row exists. |
| UserService.GetUser | src/main/java/com/example/winehood/service/user/UserServiceImpl.java:93-96 | Returns the stored user iff there is one, otherwise "User not found with ID: ". |
| UserService.Register | src/main/java/com/example/winehood/service/user/UserServiceImpl.java:33-50 | A taken username is refused with "User with username X already exists", and nothing is saved. Otherwise the user is stored under a fresh key with the ENCODED password and the live USER role rows, and gets an empty cart under the same key. |
| UserService.UpdateUserRoles | src/main/java/com/example/winehood/service/user/UserServiceImpl.java:53-70 | An unknown user is not-found. A bad name is the `valueOf` IllegalArgument error of the first name that is no role name. No matching live role is "No matching roles found for the provided names.". Nothing changes on error. Otherwise the user's roles are replaced by exactly the matched rows. |
| UserService.UpdateProfile | src/main/java/com/example/winehood/service/user/UserServiceImpl.java:78-87 | Succeeds iff the caller is still stored; otherwise it is not-found and nothing changes. The caller takes the request's fields and the re-encoded password and keeps their roles. |
| Roles.Authority | src/main/java/com/example/winehood/model/Role.java:27-42 | The authority is "ROLE_" followed by the role's name. |
| Roles.AuthorityValues | src/main/java/com/example/winehood/model/Role.java:40-47 | ADMIN gives "ROLE_ADMIN" and USER gives "ROLE_USER". |
| Roles.AuthorityInjective | src/main/java/com/example/winehood/model/Role.java:41 | Distinct role names give distinct authorities. |
| Roles.ValueOf | src/main/java/com/example/winehood/model/Role.java:44-47 | Succeeds iff the string is exactly a constant's name, otherwise IllegalArgument "No enum constant com.example.winehood.model.Role.RoleName.s". |
| Roles.ValueOfName | src/main/java/com/example/winehood/model/Role.java:44-47 | `valueOf` inverts `name()`. |
| Roles.MapRolesToStrings | src/main/java/com/example/winehood/mapper/UserMapper.java:24-29 | The output is the set of the roles' names. Each name is "ADMIN" or "USER", an empty input gives an empty output, and the output is no larger than the input. |
| Passwords.IsValidMeaning | src/main/java/com/example/winehood/validation/PasswordValidator.java:10-17 | The full match of `.{8,35}` (greedy run plus backtracking) accepts a value iff it has 8 to 35 characters and no line terminator. |
| Passwords.LengthBoundaries | src/main/java/com/example/winehood/validation/PasswordValidator.java:10 | Lengths 8 and 35 pass; 7 and 36 do not. |
| Passwords.WholeValueMatched | src/main/java/com/example/winehood/validation/PasswordValidator.java:17 | A value over 35 characters is refused although its first 35 would pass. |
| Passwords.LineBreakRefused | src/main/java/com/example/winehood/validation/PasswordValidator.java:10-17 | A line feed or carriage return anywhere refuses the value. |
| Passwords.Examples | src/main/java/com/example/winehood/validation/PasswordValidator.java:10-17 | "password" passes; "passwor" and "pass\nword" do not. |
| ErrorHandling.Code | src/main/java/com/example/winehood/exception/CustomGlobalExceptionHandler.java:39-72 | Every status used is a 4xx code. |
| ErrorHandling.HandlerStatus | src/main/java/com/example/winehood/exception/CustomGlobalExceptionHandler.java:39-72 | Not-found gives 404, registration 409, access-denied 403, and constraint-violation or data-processing 400. Each is an iff. Kinds without a handler give none. |
| ErrorHandling.PutThenGet | src/main/java/com/example/winehood/exception/CustomGlobalExceptionHandler.java:76-79 | After a put, the key reads back the new value and every other key reads as before. |
| ErrorHandling.PutNewKey | src/main/java/com/example/winehood/exception/CustomGlobalExceptionHandler.java:76-79 | A put of a new key appends it last. |
| ErrorHandling.PutOldKey | src/main/java/com/example/winehood/exception/CustomGlobalExceptionHandler.java:76-79 | A put of a present key keeps the key order. |
| ErrorHandling.PutKeepsKeysDistinct | src/main/java/com/example/winehood/exception/CustomGlobalExceptionHandler.java:76-79 | Puts never duplicate a key. |
| ErrorHandling.ResponseBody.Put | src/main/java/com/example/winehood/exception/CustomGlobalExceptionHandler.java:76-79 | The body's entries become the put of the old entries. |
| ErrorHandling.ThreeFreshPuts | src/main/java/com/example/winehood/exception/CustomGlobalExceptionHandler.java:76-79 | Three puts of distinct keys into an empty body keep their order and values. |
| ErrorHandling.GetObjectResponseEntity | src/main/java/com/example/winehood/exception/CustomGlobalExceptionHandler.java:74-81 | The response has the handler's status code. The body keys are timestamp, status and message in that order, holding the clock reading, the status and the exception's message. |
| ErrorHandling.HandleException | src/main/java/com/example/winehood/exception/CustomGlobalExceptionHandler.java:39-72 | A handled kind gives its status and a body whose message is the exception's message. |
| ErrorHandling.GetErrorMessage | src/main/java/com/example/winehood/exception/CustomGlobalExceptionHandler.java:83-90 | A field error renders as the field, a space and the message; any other error as its message. |
| ErrorHandling.FieldErrorRoundTrip | src/main/java/com/example/winehood/exception/CustomGlobalExceptionHandler.java:83-90 | For a field name without spaces, the rendering splits back into field and message at its first space. |
| ErrorHandling.ErrorMessages | src/main/java/com/example/winehood/exception/CustomGlobalExceptionHandler.java:32-34 | One message per binding error, in order. |
| ErrorHandling.HandleMethodArgumentNotValid | src/main/java/com/example/winehood/exception/CustomGlobalExceptionHandler.java:24-37 | The body keys are timestamp, status and errors in that order. The body's status is BAD_REQUEST, the errors are the messages in order, and the response carries the status code passed in. |

## Left out

- Controllers, security (JWT, BCrypt, the filter chain, `@PreAuthorize`), configuration and the MapStruct mappers' generated code are left out. The field copies the mappers imply are inlined.
- The password encoder is a parameter `encode`; the model records only that its output is stored.
- The clock is a parameter: `LocalDateTime.now()` becomes the `now` argument, and order dates come from the request.
- Pagination and sorting are left out. Every listing is the full filtered table, and a page is a slice of it.
- `@Transactional` atomicity, concurrency and ORM flush ordering are left out. Each service method is one atomic step.
- Review ratings are `Double`. They are carried unchanged and never computed with.
- Prices are `BigDecimal`, modelled as exact `real`s.
- The text of the store's primary-key violation is not modelled. `DuplicateKey` stands for it, and the messages chosen are the model's own.
- The "grapeVariety" and "region" specification providers are not part of this model. Their source is not available, so they are taken as values of `WineSearch.Provider`.
- `UserService.UpperCase`: only ASCII letters are upper-cased. Java's `toUpperCase` also maps other letters, and its result depends on the default locale.
- Role-name, username and wine-name comparisons are exact string equality. Database collation is not modelled.
- The `User` entity's source is not part of this model, so its fields are inferred from the register DTO, the mapper and the services. The same holds for the `RegionDto`, `CartItemDto` and order-item DTO shapes.
- A null password, which throws a `NullPointerException` in the validator, is not modelled; strings are never null here.
- The validator context plays no part in `Passwords.IsValid`, as in the source.
- `findAllByRegionId` does not look at whether the region itself is deleted, and neither does the model.
- `UpdateProfile` does not check that a changed username is free, because the source does not check it either.
- Provider lookup is a function, so it leaves the provider list unchanged by construction.
- `ErrorHandling.HandleException` returns no response for `IllegalArgumentException` and duplicate keys. They have no handler here; the framework's default handling is not part of this model.
- Request validation annotations (`@Positive`, `@Length`, `@NotBlank`, field matching) appear only as preconditions. An example is `quantity > 0` on the cart methods.
- `OrderService.OrderItemsFor`: the source builds the order lines from the cart's `HashSet` and collects them into another set, so which generated key each line gets follows hash order. The model hands out keys in cart-line table order, which is one of the possible outcomes. The order total and each line's contents do not depend on this choice.
- `Store.Database.Valid` constrains only what the services rely on. The database's other column constraints are not modelled.

## Findings

| source | as written | input that shows it | evidently intended | confidence | as-written member | corrected member |
|---|---|---|---|---|---|---|
| src/main/java/com/example/winehood/service/order/OrderServiceImpl.java:137-140 | `clearShoppingCart` empties `shoppingCart.getCartItems()` and saves the cart. That collection is the inverse side of the association (`mappedBy`, cascade PERSIST/MERGE, no orphan removal, model/ShoppingCart.java:34-39), so no cart-line row is deleted. | A user whose cart holds one line (wine 1, quantity 2) checks out: the line is still in the cart-line table afterwards. | After a successful checkout the cart has no lines left, while the cart itself stays. | not executed | OrderService.ClearAsWrittenKeepsLines | OrderService.ClearCartEffect |
