# MeniuMate API — a verified model of its handlers

MeniuMate is a small forum API in ASP.NET Core. Menus (`Meniu`) hold dishes, and
dishes hold comments. Administrators maintain menus and dishes, and forum users
comment on dishes. Accounts live in an ASP.NET Identity store. They obtain JWT
access and refresh tokens by logging in. An account carries a `ForceRelogin`
flag: logout sets it, login clears it, and a refresh is refused while it is set.

This project models, in Dafny:

- **Accounts** (`auth.dfy`, module `Auth`).
  - The identity store as a map from account id to account, with a unique
    user-name index.
  - Register, login, refresh (`api/accessToken`) and logout. Each is a function
    from the store to the answer and the new store.
  - The class `AccountStore`, whose methods make the same updates in place and
    are proved equal to those functions.
  - The `Authorization: Bearer <token>` parsing of logout (section 2.1 of
    RFC 6750). It uses the exact .NET `Trim`, modelled in `text.dfy` (module
    `Text`) with .NET's white-space set.
- **Sessions** (`session.dfy`, module `Session`): the order-dependent behaviour
  of these handlers over any sequence of requests.
  - A successful logout makes every later refresh for that account fail until
    a later successful login.
  - Logout is idempotent.
  - Login makes refresh work again.
- **Shared HTTP vocabulary** (`http.dfy`, module `Http`): status codes,
  responses, the authenticated caller and its `sub` claim (section 4.1.2 of
  RFC 7519). It also holds the `[Authorize(Roles = ...)]` gate and the
  validation filter that runs after it.
- **Tables** (`data.dfy`, module `Data`).
  - The three tables, with referential integrity (`Linked`) as the invariant of
    the database class `ForumDb`.
  - The route-scoped lookups: a dish only under its own menu; a comment only
    under its own dish and that dish's own menu.
  - The read handlers (list and get for each entity).
  - The cascade that removes a menu's dishes and a dish's comments.
- **Validators** (`validators.dfy`, module `Validators`): the FluentValidation
  rules of the six request bodies. `NotEmpty` refuses empty and all-white-space
  strings. `Length(min, max)` and `InclusiveBetween` include both ends. The
  earlier revision in `Program.cs` declares the same bounds, so one set of
  predicates serves both revisions.
- **Write handlers of the current revision** (`meniu_endpoints.dfy`,
  `dish_endpoints.dfy`, `comment_endpoints.dfy`).
  - Each handler is a method that changes the `ForumDb` in place.
  - Each method states the whole new state for every branch: role gate,
    validation, not found, forbidden and success.
  - Comment update and delete apply the admin-or-owner rule (`MayModify`).
- **Write handlers of the earlier revision** in `Program.cs`
  (`legacy_endpoints.dfy`, module `LegacyEndPoints`).
  - These have no role gate and no ownership check.
  - New rows get no owner.
  - Only the validation filter stands in front of them.

Time (`DateTime.UtcNow`) and the id the database assigns to a new row are
parameters of the create handlers (`now`, `newId`, with `newId` not yet in use).
The token service and the password check are parameters too, and so is the
set of account ids that the menu's required owner foreign key refers to
(`accounts` of `MeniuEndPoints.CreateMeniu`).

Owner ids are compared with C# string equality (`CommentEndPoints.cs:94`,
`:115`): exact and case-sensitive, and a missing `sub` equals a missing owner.
`CommentEndPoints.OwnershipIsCaseSensitive` and
`CommentEndPoints.MissingSubMatchesMissingOwner` state the consequences.

User names, unlike owner ids, are looked up through the identity store's
normaliser (`FindByNameAsync` compares normalised names). The normaliser is a
field of the store (`Directory.normalize`), so "alice" and "Alice" find the
same account whenever the normaliser maps them alike, as the default
upper-invariant one does.

String lengths in the validators are .NET lengths: UTF-16 code units, so a
character outside the Basic Multilingual Plane counts twice (`Text.Utf16Length`).

## Model

| member | source | states |
|---|---|---|
| Http.RoleGate | MeniuEndPoints.cs:36 | the request passes exactly when the caller holds the role; an anonymous caller gets 401 and only then; an authenticated caller without the role gets 403 |
| Http.Admit | MeniuEndPoints.cs:17-36 | the handler runs exactly when the caller holds the role and the body is valid; a missing role is answered as by the role gate, before validation; a valid role holder with an invalid body gets a validation problem |
| Text.Utf16Length | CommentEndPoints.cs:129 | the .NET length lies between the number of characters and twice that, and equals it for text inside the Basic Multilingual Plane |
| Text.Utf16LengthOfChar | CommentEndPoints.cs:129 | one character counts one code unit inside the Basic Multilingual Plane and two (a surrogate pair) outside it |
| Text.Utf16LengthAppend | CommentEndPoints.cs:129 | the length of a concatenation is the sum of the lengths (by induction on the first part) |
| Text.TrimStart | Auth/AuthEndpoints.cs:94 | the result is a suffix of the input; everything removed is white space; the result does not start with white space |
| Text.TrimEnd | Auth/AuthEndpoints.cs:94 | the result is a prefix of the input; everything removed is white space; the result does not end with white space |
| Text.Trim | Auth/AuthEndpoints.cs:94 | the result has no leading or trailing white space and is no longer than the input; an already trimmed string is returned unchanged |
| Text.TrimStartPadding | Auth/AuthEndpoints.cs:94 | leading white space before a trimmed string is removed exactly (by induction on the padding) |
| Text.TrimEndPadding | Auth/AuthEndpoints.cs:94 | trailing white space after a trimmed string is removed exactly (by induction on the padding) |
| Text.TrimPadding | Auth/AuthEndpoints.cs:94 | trimming a trimmed string wrapped in any white space gives that string back |
| Auth.FindByName | Auth/AuthEndpoints.cs:15 | a found id names an account whose user name normalises as the given one; no result means that no account's user name normalises so |
| Auth.LoginIgnoresNameVariant | Auth/AuthEndpoints.cs:38-46 | two user names that normalise alike give the same login answer and store |
| Auth.RegisterRefusesNameVariant | Auth/AuthEndpoints.cs:15-18 | a name that normalises as a stored account's name is refused with "User name already taken." and no change |
| Auth.Register | Auth/AuthEndpoints.cs:13-33 | a taken name (after normalisation) gives 422 "User name already taken." and no change; success exactly when the name is free, the store's create succeeds and the id is new; success adds exactly one account (that name and email, role ForumUser, no forced relogin), indexes it under its name and returns 201 with its id, name and email; every failure is 422 and changes nothing; the index stays consistent |
| Auth.Login | Auth/AuthEndpoints.cs:36-57 | success exactly when the name is known (after normalisation) and the password checks; an unknown name and a wrong password give the same 422 message and change nothing; success clears that account's `ForceRelogin` and nothing else, and returns an access token for (name, id, roles) and a refresh token for the id |
| Auth.Refresh | Auth/AuthEndpoints.cs:60-85 | success exactly when the token parses, carries a `sub` naming an account, and that account has no forced relogin; success issues a new pair for that account; every failure is 422; the "Invalid token" message comes exactly for a parsed token with a missing or unknown `sub`; the store is never changed |
| Auth.BearerToken | Auth/AuthEndpoints.cs:90-94 | a token is extracted exactly when the header starts with "Bearer "; the token is trimmed and no longer than the rest of the header |
| Auth.BearerTokenRoundTrip | Auth/AuthEndpoints.cs:90-94 | "Bearer " followed by a trimmed token wrapped in any white space yields that token |
| Auth.BearerTokenOf | Auth/AuthEndpoints.cs:90-94 | "Bearer " followed by a trimmed token yields exactly that token |
| Auth.BearerSubject | Auth/AuthEndpoints.cs:90-100 | a subject is found exactly when the header has a bearer token that parses with a non-empty `sub`, and it is that `sub` |
| Auth.Logout | Auth/AuthEndpoints.cs:88-109 | success exactly when the header names a subject with an account; every failure is a bare 401 with no change; success answers "Logged out successfully." and sets `ForceRelogin` on that account only |
| Auth.AccountStore.constructor | Auth/AuthEndpoints.cs:13 | the injected `UserManager` store: it starts empty and consistent, with the given user-name normaliser |
| Auth.AccountStore.PostRegister | Auth/AuthEndpoints.cs:13-33 | the in-place register (create, then add the role) answers and leaves the store exactly as `Auth.Register` |
| Auth.AccountStore.PostLogin | Auth/AuthEndpoints.cs:36-57 | the in-place login answers and leaves the store exactly as `Auth.Login` |
| Auth.AccountStore.PostLogout | Auth/AuthEndpoints.cs:88-109 | the in-place logout, check by check, answers and leaves the store exactly as `Auth.Logout` |
| Session.Apply | Auth/AuthEndpoints.cs:10-110 | any one account request keeps the store consistent and removes no account |
| Session.Run | Auth/AuthEndpoints.cs:10-110 | any sequence of account requests keeps the store consistent and removes no account |
| Session.ApplyKeepsRevocation | Auth/AuthEndpoints.cs:48 | a set `ForceRelogin` survives every single request except a successful login of that account |
| Session.RevokedUntilLogin | Auth/AuthEndpoints.cs:105-106 | a set `ForceRelogin` survives any sequence of requests that contains no successful login of that account (by induction on the sequence) |
| Session.RefreshRefusedAfterLogout | Auth/AuthEndpoints.cs:73-76 | after a successful logout, any refresh token for that subject is refused with a bare 422, after any requests that do not log the account in again |
| Session.LogoutIdempotent | Auth/AuthEndpoints.cs:105-108 | logging out twice with the same header gives the same answer and store as logging out once |
| Session.LoginReenablesRefresh | Auth/AuthEndpoints.cs:48-49 | after a successful login, a refresh token naming that account is accepted |
| Session.AliceRegisters | Auth/AuthEndpoints.cs:13-33 | registering a name in an empty store yields 201 and a store holding exactly that account, indexed under its normalised name |
| Session.AliceLogsIn | Auth/AuthEndpoints.cs:36-57 | on that store a wrong password gives the 422 message and the right one 200 with the account's tokens, the store unchanged |
| Session.RefreshTokenAsBearer | Auth/AuthEndpoints.cs:90-100 | a refresh token sent as "Bearer <token>" names its own account as the subject |
| Session.AliceLogsOut | Auth/AuthEndpoints.cs:88-109 | on that store a logout whose header names the account answers 200 and sets only its `ForceRelogin` |
| Session.AliceRefreshRefused | Auth/AuthEndpoints.cs:73-76 | once its `ForceRelogin` is set, the account's refresh token gets a bare 422 |
| Session.RegisterLoginLogoutRefresh | Auth/AuthEndpoints.cs:13-109 | register, a wrong-password login, a good login, a logout with the issued refresh token and a refresh with it give 201, 422, 200, 200 and 422 |
| Data.CommentRouteIsUnique | CommentEndPoints.cs:86-88 | a comment is found under at most one (menu, dish) route |
| Data.StoredCommentIsReachable | CommentEndPoints.cs:46-48 | in a linked database every stored comment is found under its own dish and that dish's menu |
| Data.ListMenius | MeniuEndPoints.cs:19-23 | one DTO (id, name, description) per stored menu, and nothing else; as many DTOs as menus (also `Program.cs:22-26`) |
| Data.MeniuListSize | MeniuEndPoints.cs:21-22 | the menu list has as many entries as there are menus (by induction on the table) |
| Data.GetMeniu | MeniuEndPoints.cs:26-33 | found exactly when a menu has the id, with its DTO; otherwise a bare 404 (also `Program.cs:29-36`) |
| Data.ListDishes | DishEndPoints.cs:19-33 | a bare 404 exactly when the menu is missing; otherwise exactly the DTOs of the dishes of that menu (also `Program.cs:91-105`) |
| Data.GetDish | DishEndPoints.cs:36-46 | found exactly when the dish exists and belongs to that menu; otherwise 404 "Dish not found in this meniu" (also `Program.cs:108-118`) |
| Data.ListedDishIsFound | DishEndPoints.cs:19-46 | a DTO is in a menu's dish list exactly when the single-dish lookup under that menu returns it |
| Data.ListComments | CommentEndPoints.cs:21-38 | a missing menu gives 404 "Meniu not found"; then a dish outside the menu gives 404 "Dish not found in this meniu"; otherwise exactly the DTOs of that dish's comments (also `Program.cs:186-203`) |
| Data.GetComment | CommentEndPoints.cs:41-54 | found exactly when the comment, its dish and that dish's menu all match the route; otherwise 404 "Comment not found" (also `Program.cs:206-219`) |
| Data.ListedCommentIsFound | CommentEndPoints.cs:21-54 | a DTO is in a dish's comment list exactly when the single-comment lookup returns it |
| Data.RemoveMeniu | MeniuEndPoints.cs:76-77 | removes the menu, exactly the dishes of that menu and exactly the comments on those dishes; every other row is unchanged; links stay intact |
| Data.RemoveDish | DishEndPoints.cs:102-103 | removes the dish and exactly its comments; menus and every other row are unchanged; links stay intact |
| Data.ForumDb.constructor | Data/ForumDbContext.cs:8-13 | the database context with its three tables starts empty and linked |
| Data.ForumDb.DeleteMeniu | MeniuEndPoints.cs:76-77 | the in-place removal leaves the tables exactly as `Data.RemoveMeniu` |
| Data.ForumDb.DeleteDish | DishEndPoints.cs:102-103 | the in-place removal leaves the tables exactly as `Data.RemoveDish` |
| Data.ForumDb.DeleteComment | CommentEndPoints.cs:118-119 | removes exactly that comment; menus and dishes are unchanged |
| Validators.DishUpdateRulesAreStricter | DishEndPoints.cs:109-128 | every dish update body the update validator admits also passes the create validator (with a valid name) |
| Validators.ShortDescriptionOnlyOnCreate | DishEndPoints.cs:114-124 | a five-character description passes the create validator but not the update validator |
| Validators.EmojiCommentAccepted | CommentEndPoints.cs:129 | three emoji are six UTF-16 code units and so pass the 5..500 length rule of a comment |
| Validators.BlankCommentRefused | CommentEndPoints.cs:129 | five spaces meet the length rule but are refused as empty |
| MeniuEndPoints.CreateMeniu | MeniuEndPoints.cs:36-52 | gate or validation failure: that status and no change; a caller whose `sub` is missing or names no account: the save of the required `UserId` foreign key throws, 500 and no change; otherwise adds exactly one menu (the body's name and description, dated now, owned by the caller's `sub`) and returns 201 with its DTO |
| MeniuEndPoints.UpdateMeniu | MeniuEndPoints.cs:55-67 | gate or validation failure: no change; a missing menu: bare 404 and no change; otherwise only the description changes and 200 returns the DTO |
| MeniuEndPoints.DeleteMeniu | MeniuEndPoints.cs:70-80 | gate failure: no change; a missing menu: bare 404 and no change; otherwise 204 and the tables become `Data.RemoveMeniu` of the old tables |
| DishEndPoints.CreateDish | DishEndPoints.cs:49-71 | gate or validation failure: no change; a missing menu: 404 "Meniu not found" and no change; otherwise adds exactly one dish of that menu owned by the caller's `sub`, 201 with its DTO |
| DishEndPoints.UpdateDish | DishEndPoints.cs:74-91 | gate or validation failure: no change; a dish not in that menu: bare 404 and no change; otherwise only description, price, ingredients and availability change and 200 returns the DTO |
| DishEndPoints.DeleteDish | DishEndPoints.cs:94-106 | gate failure: no change; a dish not in that menu: bare 404 and no change; otherwise 204 and the tables become `Data.RemoveDish` of the old tables |
| CommentEndPoints.MayModify | CommentEndPoints.cs:93-95 | the admin-or-owner guard of update and delete (also lines 114-116): the Admin role, or the caller's `sub` equal to the stored owner under C# string equality; its properties are `CommentEndPoints.AdminOrOwner` |
| CommentEndPoints.AdminOrOwner | CommentEndPoints.cs:93-95 | for every caller and comment: an admin may modify it; a caller without the Admin role may exactly when its `sub` equals the stored owner (also lines 114-116) |
| CommentEndPoints.OwnershipIsCaseSensitive | CommentEndPoints.cs:93-95 | a non-admin whose `sub` differs from the owner only in letter case may not modify the comment; the exact id may |
| CommentEndPoints.MissingSubMatchesMissingOwner | CommentEndPoints.cs:114-116 | a caller without `sub` may modify a comment stored without an owner |
| CommentEndPoints.CreateComment | CommentEndPoints.cs:57-78 | gate or validation failure: no change; a dish not in that menu: 404 "Dish not found" and no change; otherwise adds exactly one comment on that dish owned by the caller's `sub`, 201 with its DTO |
| CommentEndPoints.UpdateComment | CommentEndPoints.cs:81-103 | gate or validation failure: no change; a comment off the route: 404 "Comment not found" even for a stranger; a caller neither admin nor owner: 403 and no change; otherwise only content and rating change and 200 returns the DTO |
| CommentEndPoints.DeleteComment | CommentEndPoints.cs:107-122 | gate failure: no change; a comment off the route: bare 404; neither admin nor owner: 403 and no change; otherwise removes exactly that comment, 204 |
| LegacyEndPoints.Screen | Program.cs:19 | the handler runs exactly when the body is valid; otherwise a validation problem |
| LegacyEndPoints.GateMatchesScreenForRoleHolder | Program.cs:39 | for a caller holding the role, the current revision admits exactly what the earlier revision admits |
| LegacyEndPoints.CreateMeniu | Program.cs:39-54 | validation failure: no change; otherwise adds exactly one menu with no owner, 201 with its DTO |
| LegacyEndPoints.UpdateMeniu | Program.cs:57-69 | validation failure or a missing menu (bare 404): no change; otherwise only the description changes, 200 |
| LegacyEndPoints.DeleteMeniu | Program.cs:72-82 | for anybody: a missing menu gives a bare 404 and no change; otherwise 204 and `Data.RemoveMeniu` |
| LegacyEndPoints.CreateDish | Program.cs:121-142 | validation failure: no change; a missing menu: 404 "Meniu not found"; otherwise adds exactly one dish of that menu with no owner, 201 |
| LegacyEndPoints.UpdateDish | Program.cs:145-162 | validation failure or a dish not in that menu (bare 404): no change; otherwise only description, price, ingredients and availability change, 200 |
| LegacyEndPoints.DeleteDish | Program.cs:165-177 | for anybody: a dish not in that menu gives a bare 404; otherwise 204 and `Data.RemoveDish` |
| LegacyEndPoints.CreateComment | Program.cs:222-242 | validation failure: no change; a dish not in that menu: 404 "Dish not found"; otherwise adds exactly one comment with no owner, 201 |
| LegacyEndPoints.UpdateComment | Program.cs:245-263 | validation failure or a comment off the route (404 "Comment not found"): no change; otherwise, for any caller, only content and rating change, 200 |
| LegacyEndPoints.DeleteComment | Program.cs:267-278 | for any caller: a comment off the route gives a bare 404; otherwise exactly that comment is removed, 204 |

The validator predicates (`Validators.ValidCreateMeniu`, `ValidUpdateMeniu`,
`ValidCreateDish`, `ValidUpdateDish`, `ValidCreateComment`,
`ValidUpdateComment`) transcribe `MeniuEndPoints.cs:83-98`,
`DishEndPoints.cs:109-128`, `CommentEndPoints.cs:125-141` and
`Program.cs:284-338`. The handlers above use them through `Http.Admit` and
`LegacyEndPoints.Screen`.

## Left out

- Token service internals: signing, expiry and claim layout of `JwtTokenService`
  are not part of this model. The service is a parameter: two token makers and a
  partial refresh-token parser.
- Password hashing and `CheckPasswordAsync`: a parameter predicate on (account
  id, password).
- Auth.Register: the register password and the identity store's own user-name
  and password policies are summed up by the `createSucceeds` parameter.
- Auth.FindByName, Auth.Login, Auth.Register: the user-name normaliser is a
  parameter of the store; what it does (upper-invariant by default) is not
  modelled, only that it is applied on every lookup and on the index.
- Auth.Register: `AddToRoleAsync` is assumed to succeed. Its result is ignored
  by the handler too.
- Auth.Login, Auth.Logout: the store update that clears or sets `ForceRelogin`
  (`UpdateAsync`, `Auth/AuthEndpoints.cs:49` and `:106`) is assumed to succeed.
  The handlers ignore its result, so if it failed, logout would still answer
  200 while the flag stayed clear and a later refresh would succeed; the
  session lemmas (`Session.RevokedUntilLogin`, `Session.RefreshRefusedAfterLogout`,
  `Session.LogoutIdempotent`) rely on this assumption.
- Auth.BearerToken: the prefix test is ordinal. .NET's culture-sensitive
  `StartsWith(string)` is not modelled.
- Access tokens stay valid until they expire, even after logout. Only refresh
  looks at `ForceRelogin`, and token expiry is outside the model.
- Null strings in request bodies: DTO fields are always present strings. In the
  menu, dish and comment bodies a null would fail `NotEmpty` exactly as an empty
  string does. The account bodies (`Auth/AuthEndpoints.cs:113-117`) have no
  validator, so a null user name reaches `FindByNameAsync`, which throws; those
  nulls are not modelled.
- Prices are `real`. The handlers only compare them with zero and copy them.
- The cascade on delete comes from Entity Framework's convention for required
  navigations (`Dish.Meniu`, `Comment.Dish`). The database schema is not part of
  this model.
- The comment and dish entity files declare no `UserId`, yet the current
  handlers set one. Both records carry an optional owner here.
- The earlier revision creates menus without the owner that the current
  `Meniu` entity requires. That revision's rows have no owner in the model.
- HTTP plumbing is not modelled: routing, response bodies of the validation
  problem, `Created` location headers, async execution and concurrency. Each
  handler is one atomic step on the tables.
- Host setup (service registration and `app.Run`) has no behaviour to model.
- The actual role-name strings of `ForumRoles` are not modelled. Only the
  distinctness of "Admin" and "ForumUser" matters.
- Order of list results: the list handlers return the rows in database order
  (no query sorts them); the model returns sets, so order is not modelled.
