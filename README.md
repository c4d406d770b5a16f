# Chiya Sathi web client, modelled in Dafny

Chiya Sathi is a cafe table-ordering web application. Customers pick a table
number, browse the menu and follow their order. The owner works through
several screens:

- a dashboard of today's orders and revenue;
- an order board with pending, preparing, ready and history tabs;
- a menu editor.

Next.js route handlers stand between the browser and an external backend.
They check the `auth_token` cookie, forward requests with a bearer token and
relay the backend's answers.

This project models the client's own rules and proves properties about them:

- **Order rules.** Order statuses and the owner's actions. How orders are
  split into tabs and counted. Today's revenue. The "time ago" label.
- **Menu editor.** Items grouped by category. The collapse toggle. Validating
  and sending the add/edit form. Deletion.
- **Customer home page.** Choosing the active order. The trimmed table number
  kept in `localStorage`.
- **Toast queue.** A shared id counter, append on `toast`, and removal by id
  when a toast expires.
- **Proxy routes.** The response rules of the authenticated proxies in
  lib/server-api.ts, and of the login and register routes.
- **Session store.** `localStorage` as a map: logout, table reset, and the
  stored user after a profile-picture upload.
- **Bottom navigation.** The "active" rule and the icon switch of the two
  layouts.

How the pieces are modelled:

- The backend is a function parameter `backend: Request -> Outcome`. An
  outcome is either a transport failure or a status with an optionally
  parsed JSON body. `res.ok` is derived from the status (200-299).
- A page's own `fetch` is a `ClientOutcome`: the call threw, or it answered
  with `ok` and a body.
- Pages whose handlers update component state are classes. Their fields are
  the React state, and their methods are the handlers.
- Pure rules are functions, with lemmas relating them to reference
  definitions.

Modules, one file each:

- Shared modules:
  - `Wrappers`, `Seqs`: `Option` and an order-keeping `Filter`.
  - `Text`: JavaScript `trim`, `startsWith` and `String(n)`.
  - `Json`: JSON values, and `JSON.stringify`/`JSON.parse` on strings.
  - `Http`: requests, outcomes and responses.
  - `Types`, `Constants`: lib/types.ts and lib/constants.ts.
  - `Toasts`: the toast queue.
  - `Pages`: client outcomes and reactions.
  - `Session`: `localStorage` and the stored user.
  - `Nav`: the bottom-navigation rule.
  - `Cookies`: the cookie store.
- One module per core source file: `ServerApi`, `LoginRoute`,
  `RegisterRoute`, `OwnerOrders`, `OwnerHome`, `OwnerMenu`, `CustomerHome`,
  `OwnerProfile`, `CustomerProfile`, `OwnerLayout` and `CustomerLayout`.

Two behaviours of the code are worth stating up front:

- **Cancelling a preparing order.** The program declares the five order
  statuses (lib/types.ts:24-29) but no transitions between them. The model
  defines its own reference lifecycle, `Types.CanTransition`, in which
  pending and preparing orders can be cancelled. The order board
  (app/owner/orders/page.tsx:196-235) never offers cancelling a preparing
  order; `OwnerOrders.ActionsFollowLifecycle` states that exception.
- **Gateway errors.** When the backend cannot be reached, the proxies in
  lib/server-api.ts answer 502 "Backend unavailable". A backend that itself
  answers 502 with the message "Backend unavailable" gives the same
  response, so a caller cannot tell the two apart
  (`ServerApi.GatewayErrorsIndistinguishable`).

## Model

| member | source | states |
|---|---|---|
| Types.TerminalIffNoTransition | lib/types.ts:24-29 | over the five statuses declared there, served and cancelled are exactly those with no next status in `Types.CanTransition`, the model's own reference lifecycle (the program defines no transitions) |
| Constants.CategoriesComplete | lib/constants.ts:7 | the category list holds each of the four categories exactly once |
| Constants.TablesTotal | lib/constants.ts:9-38 | the colour, badge and text tables have an entry for all five statuses (and the same keys); the icon table has one for all four categories |
| Constants.ImageUrl | lib/constants.ts:40-44 | a URL exists iff the path is a non-empty string; a path starting with "http" comes back unchanged; any other path is appended to the origin, so the URL ends with the path |
| Constants.BackendOriginIsHttp | lib/constants.ts:2 | the default backend origin starts with "http" |
| Constants.ImageUrlIdempotent | lib/constants.ts:40-44 | with an origin starting with "http", applying `imageUrl` to its own result changes nothing |
| Text.Trim | app/owner/menu/page.tsx:79 | `trim()` gives a string no longer than its input that neither starts nor ends with JavaScript whitespace |
| Text.TrimEmptyIff | app/owner/menu/page.tsx:79 | a string trims to "" iff it consists only of JavaScript whitespace |
| Text.TrimIdempotent | app/customer/page.tsx:55-57 | trimming a trimmed string changes nothing |
| Text.NatToDecimal | app/owner/orders/page.tsx:14 | a count prints as a non-empty string of digits without a leading zero |
| Text.IntToDecimal | app/owner/menu/page.tsx:54 | `String(price)` starts with a minus sign iff the price is negative |
| Text.DecimalRoundTrip | app/owner/menu/page.tsx:54 | the digits of `String(n)` read back as `n` |
| Text.NatToDecimalInjective | app/owner/orders/page.tsx:14-17 | different counts print differently |
| Text.PrefixesComparable | app/owner/layout.tsx:62 | two prefixes of one pathname are prefixes of each other |
| Json.MessageOr | lib/server-api.ts:25 | `data?.message ?? default`: the default when `message` is missing or null, and the member's own value otherwise |
| Json.ReadQuotedRoundTrip | app/owner/profile/page.tsx:42 | `JSON.parse` reads a string written by `JSON.stringify` back exactly, whatever text follows it |
| Json.QuoteInjective | app/owner/profile/page.tsx:42 | different strings are written as different JSON literals |
| Json.SurrogatePair | app/owner/profile/page.tsx:21 | a `\u` surrogate pair read by `JSON.parse` stands for one character beyond U+FFFF from which both halves are recovered |
| Json.SkipSpace | app/owner/profile/page.tsx:21 | `JSON.parse` skips exactly the leading JSON whitespace and nothing after it |
| Json.QuotedIsJsonText | app/owner/profile/page.tsx:21 | `JSON.parse` accepts every string `JSON.stringify` writes |
| Json.SkipKeyedMember | app/owner/profile/page.tsx:21 | an object member written as `"name":value` is read past, and reading goes on exactly as the separator after it says |
| Toasts.Expired | components/ToastProvider.tsx:32 | the filtered list holds exactly the toasts without that id, and is no longer than before |
| Toasts.ExpiredMembers | components/ToastProvider.tsx:31-33 | a toast remains after expiring `id` iff it was shown and has another id |
| Toasts.ExpireAbsentIsNoop | components/ToastProvider.tsx:31-33 | expiring an id that is no longer shown leaves the list unchanged |
| Toasts.ExpiredKeepsOrder | components/ToastProvider.tsx:32 | expiry keeps the ids in strictly increasing order |
| Toasts.IdCounter.constructor | components/ToastProvider.tsx:23 | the shared counter starts at 0, so the first id issued is 1 |
| Toasts.ToastProvider.constructor | components/ToastProvider.tsx:26 | a provider starts with no toasts |
| Toasts.ToastProvider.Push | components/ToastProvider.tsx:28-30 | the id is the previous counter plus one; the toast is appended after the unchanged earlier toasts; ids stay strictly increasing and never exceed the counter |
| Toasts.ToastProvider.Expire | components/ToastProvider.tsx:31-33 | the list loses exactly the toasts with that id and keeps the others in order; the id invariant is preserved |
| Toasts.Emit | components/ToastProvider.tsx:15-17 | outside a provider `toast` changes nothing; inside one it appends the toast with the next id |
| Pages.NoticeText | app/owner/menu/page.tsx:108 | `data?.message ?? fallback`: the toast shows the body's `message` whenever it is a string, and the fallback when it is missing or not a string |
| ServerApi.ProxyRequest | lib/server-api.ts:12-145 | the request goes to `SERVER_API_BASE + path` with `Authorization: Bearer <token>`; GET and DELETE send no body, POST and PUT send the JSON body with `Content-Type: application/json`, a form upload sends the form under the caller's method; only POST and PUT set a content type |
| ServerApi.Relay | lib/server-api.ts:22-35 | a transport failure gives 502 "Backend unavailable"; delete maps 204 to `{ok: true}`; a non-ok answer keeps its status with the backend message or the default; an ok answer is relayed as parsed |
| ServerApi.Proxy | lib/server-api.ts:12-35 | without a non-empty token: 401 "Unauthorized" and no backend call; otherwise exactly the proxy's request is sent and its outcome relayed |
| ServerApi.BackendCalledIffToken | lib/server-api.ts:13-16 | the backend is called iff a non-empty token is present |
| ServerApi.RelaysBackendError | lib/server-api.ts:23-28 | a backend error is relayed with the backend's own status and message |
| ServerApi.UnparsedErrorGetsDefault | lib/server-api.ts:22-28 | an error whose body does not parse gets "Request failed" (or "Delete failed" for delete) |
| ServerApi.OnlyDeleteShortCircuits204 | lib/server-api.ts:111-113 | only the delete proxy turns 204 into `{ok: true}`; the others relay the body |
| ServerApi.GatewayErrorsIndistinguishable | lib/server-api.ts:30-35 | a transport failure and a backend 502 "Backend unavailable" produce the same response |
| LoginRoute.Login | app/api/auth/login/route.ts:7-61 | missing or falsy credentials (or an unparsed body) iff 400 "Email and password are required" with no backend call and no cookie; otherwise the body is forwarded once, and the response and the cookie are those the backend's outcome for that request gives; a cookie is set only on a 200 answer with a truthy token |
| LoginRoute.LoginCookie | app/api/auth/login/route.ts:52-59 | the auth cookie is set iff the backend answered ok with a truthy `token`, and its value is that token |
| LoginRoute.LoginResponse | app/api/auth/login/route.ts:32-61 | 502 "Login service unavailable: " plus the error text; a relayed status with the backend message or "Login failed"; or `{ok, user: data ?? null, token: token ?? null}` |
| LoginRoute.EmptyCredentialsRefused | app/api/auth/login/route.ts:10-15 | an empty email or password is refused without calling the backend |
| LoginRoute.NoTokenNoCookie | app/api/auth/login/route.ts:52-61 | a successful login without a token sets no cookie and answers `token: null` |
| RegisterRoute.CopyForm | app/api/auth/register/route.ts:16-21 | the loop builds exactly the incoming entries other than `confirmPassword`, in order |
| RegisterRoute.NoConfirmPasswordForwarded | app/api/auth/register/route.ts:18 | no forwarded entry has the key `confirmPassword` |
| RegisterRoute.OtherKeysKept | app/api/auth/register/route.ts:19 | for every other key, all its entries (repeats included) are forwarded in order |
| RegisterRoute.RegisterResponse | app/api/auth/register/route.ts:35-59 | 502 "Signup service unavailable: " plus the error text; a relayed status with the backend message or "Signup failed"; or `{ok, message ?? "Signup successful", user ?? null}` |
| RegisterRoute.Register | app/api/auth/register/route.ts:6-32 | unparseable form data iff no backend call, answered 400 "Invalid form data"; otherwise the filtered form is posted to the register endpoint |
| OwnerOrders.MinutesToHours | app/owner/orders/page.tsx:15 | whole hours from whole minutes equal whole hours from milliseconds |
| OwnerOrders.HoursToDays | app/owner/orders/page.tsx:17 | whole days from whole hours equal whole days from milliseconds |
| OwnerOrders.TimeAgo | app/owner/orders/page.tsx:10-17 | under one minute (negative included) is "just now"; minutes, hours and days hold exactly for their ranges with the count bounded by the difference; an unparseable date gives "NaNd ago" |
| OwnerOrders.ElapsedText | app/owner/orders/page.tsx:13-17 | the label is "just now" exactly for the under-a-minute bucket; every other label ends in " ago" |
| OwnerOrders.ElapsedTextInjective | app/owner/orders/page.tsx:13-17 | different buckets give different labels |
| OwnerOrders.TabOf | app/owner/orders/page.tsx:40-53 | every status belongs to exactly one tab |
| OwnerOrders.Filtered | app/owner/orders/page.tsx:40-53 | a tab lists exactly the orders of its statuses (served or cancelled for history) |
| OwnerOrders.TabsPartition | app/owner/orders/page.tsx:40-62 | the four tabs' sizes add up to the number of orders and together they hold every order as often as the list does |
| OwnerOrders.Counts | app/owner/orders/page.tsx:55-62 | each badge is the length of its tab's list and the badges add up to the number of orders |
| OwnerOrders.OrderActions | app/owner/orders/page.tsx:196-235 | every button a card offers is a transition of the reference lifecycle, and a card has no button iff its order is served or cancelled |
| OwnerOrders.ActionsFollowLifecycle | app/owner/orders/page.tsx:196-235 | an action is offered iff it is a transition of the reference lifecycle `Types.CanTransition`, except cancelling a preparing order |
| OwnerOrders.TerminalOffersNothing | app/owner/orders/page.tsx:196-235 | an order has no status button iff it is served or cancelled |
| OwnerOrders.DeleteOnlyTerminal | app/owner/orders/page.tsx:236-264 | delete, offered only on the history tab, applies only to served or cancelled orders |
| OwnerOrders.UpdateStatusReaction | app/owner/orders/page.tsx:64-78 | success toasts "Order marked <status>" and refetches; a refused request does nothing; a throw toasts "Failed to update" |
| OwnerOrders.OwnerOrdersPage.constructor | app/owner/orders/page.tsx:22-24 | no orders, the pending tab, no delete pending |
| OwnerOrders.OwnerOrdersPage.Shown | app/owner/orders/page.tsx:40-53 | the board lists exactly the loaded orders of the selected tab, in load order (the tab's filter of the orders) |
| OwnerOrders.OwnerOrdersPage.FetchOrders | app/owner/orders/page.tsx:26-32 | the orders are replaced by a returned list and kept otherwise |
| OwnerOrders.OwnerOrdersPage.SelectTab | app/owner/orders/page.tsx:111 | the chosen tab becomes current |
| OwnerOrders.OwnerOrdersPage.AskDelete | app/owner/orders/page.tsx:254-257 | confirmation is asked for a shown history order, which is served or cancelled |
| OwnerOrders.OwnerOrdersPage.CancelDelete | app/owner/orders/page.tsx:241 | the confirmation is dropped |
| OwnerOrders.OwnerOrdersPage.DeleteOrder | app/owner/orders/page.tsx:80-93 | an ok answer clears the confirmation, toasts and refetches; a refused one changes nothing; a throw only toasts "Delete failed" |
| OwnerHome.TodayOrders | app/owner/page.tsx:39-44 | exactly the orders created on the current day |
| OwnerHome.TodayRevenue | app/owner/page.tsx:46-50 | the sum of the totals of today's non-cancelled orders; its contract is carried by `OwnerHome.RevenueIsSumOfContributions` (equal to an independent per-order sum) and the append, insertion and empty-revenue lemmas below |
| OwnerHome.SumTotalsAppend | app/owner/page.tsx:47-49 | the left fold of totals over a concatenation is the sum of the two folds |
| OwnerHome.RevenueAppend | app/owner/page.tsx:39-50 | today's revenue of a concatenation is the sum of the parts' revenues |
| OwnerHome.RevenueSingle | app/owner/page.tsx:39-50 | a single order contributes its total iff it is from today and not cancelled |
| OwnerHome.RevenueIsSumOfContributions | app/owner/page.tsx:46-50 | today's revenue equals the sum, over all orders, of the totals of today's non-cancelled ones |
| OwnerHome.NoQualifyingOrderNoRevenue | app/owner/page.tsx:46-50 | revenue is 0 when no order is both from today and not cancelled |
| OwnerHome.IgnoredOrderKeepsRevenue | app/owner/page.tsx:39-50 | inserting a cancelled order or one from another day anywhere leaves the revenue unchanged |
| OwnerHome.CountedOrderAddsTotal | app/owner/page.tsx:39-50 | inserting one of today's live orders adds exactly its total |
| OwnerHome.ActiveOrders | app/owner/page.tsx:52-56 | exactly the pending and preparing orders; ready, served and cancelled are excluded |
| OwnerHome.DashboardActionsAgree | app/owner/page.tsx:170-199 | pending and preparing cards offer exactly the order board's actions; there is no "served" button |
| OwnerHome.ActiveCardsHaveActions | app/owner/page.tsx:170-199 | every card the dashboard shows has at least one action |
| OwnerHome.UpdateNotice | app/owner/page.tsx:66-71 | the toast is an error iff the target is cancelled ("Order declined"); otherwise a success "Order marked <status>" |
| OwnerHome.DashboardUpdateReaction | app/owner/page.tsx:58-77 | success toasts and refetches; a refused request does nothing; a throw toasts "Failed to update order" |
| OwnerHome.OwnerHomePage.constructor | app/owner/page.tsx:11 | no orders at first |
| OwnerHome.OwnerHomePage.FetchOrders | app/owner/page.tsx:22-28 | the orders are replaced by a returned list and kept otherwise |
| OwnerMenu.GroupIntoEntries | app/owner/menu/page.tsx:134-140 | after the reduce each visited category holds its items and other entries are untouched |
| OwnerMenu.Grouped | app/owner/menu/page.tsx:134-140 | every category has a group holding exactly its items in list order |
| OwnerMenu.GroupsPartition | app/owner/menu/page.tsx:134-140 | the group sizes add up to the number of items and every item is in exactly one group |
| OwnerMenu.ToggleCollapse | app/owner/menu/page.tsx:130-132 | the category's flag flips (missing read as false) and every other entry is unchanged |
| OwnerMenu.ToggleTwice | app/owner/menu/page.tsx:130-132 | toggling a category twice restores every section's state |
| OwnerMenu.FormEntries | app/owner/menu/page.tsx:85-89 | the form sends the trimmed name, the raw price, the category, and the image only if chosen |
| OwnerMenu.PlanSubmit | app/owner/menu/page.tsx:78-95 | refused iff the trimmed name or price is empty; otherwise PUT to `/api/menu/<id>` when editing, POST to `/api/menu` when adding |
| OwnerMenu.BlankFieldRejected | app/owner/menu/page.tsx:79-82 | a whitespace-only name or price is refused |
| OwnerMenu.SentNameIsTrimmed | app/owner/menu/page.tsx:86 | a sent name is non-empty, has no whitespace at either end and is stable under trimming |
| OwnerMenu.Sent | app/owner/menu/page.tsx:79-82 | a request goes out iff the form is not refused |
| OwnerMenu.MenuPage.constructor | app/owner/menu/page.tsx:15-27 | no items, loading, modal closed, nothing collapsed, no delete pending, empty form, not saving |
| OwnerMenu.MenuPage.FetchMenu | app/owner/menu/page.tsx:29-37 | items replaced by a returned list, kept otherwise; loading ends in every case |
| OwnerMenu.MenuPage.OpenAdd | app/owner/menu/page.tsx:43-50 | empty name and price, Tea, no image or preview, adding |
| OwnerMenu.MenuPage.OpenEdit | app/owner/menu/page.tsx:52-59 | the item's name, `String(price)`, category and image URL as preview, editing that item |
| OwnerMenu.MenuPage.CloseModal | app/owner/menu/page.tsx:61-66 | the modal closes and forgets the edited item |
| OwnerMenu.MenuPage.TypeName | app/owner/menu/page.tsx:334 | only the name field changes |
| OwnerMenu.MenuPage.TypePrice | app/owner/menu/page.tsx:348 | only the price field changes |
| OwnerMenu.MenuPage.PickCategory | app/owner/menu/page.tsx:361-365 | only the category changes |
| OwnerMenu.MenuPage.ChooseImage | app/owner/menu/page.tsx:68-76 | a chosen file becomes the image with its object URL as preview; no file changes nothing |
| OwnerMenu.MenuPage.HandleSubmit | app/owner/menu/page.tsx:78-115 | a refused form sends nothing and toasts "Name and price required"; otherwise the planned request is sent; only success closes the modal, toasts "Item updated!"/"Item added!" and refetches; saving is false afterwards |
| OwnerMenu.MenuPage.Save | app/owner/menu/page.tsx:84-115 | once the form passed: success closes the modal and toasts "Item updated!" when editing, "Item added!" otherwise, with a refetch; a refused request toasts the message or "Failed" and keeps the modal; a throw toasts "Failed to save"; saving is false afterwards |
| OwnerMenu.MenuPage.AskDelete | app/owner/menu/page.tsx:255-257 | confirmation is asked for the item |
| OwnerMenu.MenuPage.CancelDelete | app/owner/menu/page.tsx:241 | the confirmation is dropped |
| OwnerMenu.MenuPage.HandleDelete | app/owner/menu/page.tsx:117-128 | an ok answer clears the confirmation, toasts "Item deleted" and refetches; a refused one changes nothing; a throw only toasts "Delete failed" |
| OwnerMenu.MenuPage.Toggle | app/owner/menu/page.tsx:130-132 | the collapse map becomes the toggled map |
| CustomerHome.FindActive | app/customer/page.tsx:38-45 | the result is a pending, preparing or ready order of the list; none iff no order qualifies |
| CustomerHome.FindActiveIsFirst | app/customer/page.tsx:39-44 | the result is the first qualifying order |
| CustomerHome.FinishedNeverActive | app/customer/page.tsx:40-44 | served and cancelled orders are never chosen |
| CustomerHome.CustomerHomePage.constructor | app/customer/page.tsx:22-30 | the stored user, and the stored table number when it is not empty (else ""); panel closed, no active order |
| CustomerHome.CustomerHomePage.CheckOrder | app/customer/page.tsx:33-50 | a found order becomes active; finding none keeps the previous one |
| CustomerHome.CustomerHomePage.OpenTableInput | app/customer/page.tsx:131-132 | the table panel opens |
| CustomerHome.CustomerHomePage.CancelTableInput | app/customer/page.tsx:173 | the table panel closes |
| CustomerHome.CustomerHomePage.TypeTable | app/customer/page.tsx:158 | the input holds the typed text |
| CustomerHome.CustomerHomePage.Shown | app/customer/page.tsx:203-239 | the menu section iff a table is set, the prompt iff none is; never both |
| CustomerHome.CustomerHomePage.HandleSetTable | app/customer/page.tsx:54-61 | blank input changes neither storage nor state; otherwise storage and state hold the trimmed input, the input clears, the panel closes and the menu section shows |
| Session.LocalStorage.GetItem | app/owner/profile/page.tsx:22-23 | a value iff the key is stored, and then the stored value |
| Session.LocalStorage.SetItem | app/owner/profile/page.tsx:42 | only that key changes |
| Session.LocalStorage.RemoveItem | app/owner/profile/page.tsx:55-60 | only that key goes |
| Session.TruthyItem | app/customer/page.tsx:28-29 | a stored value counts iff it is present and not empty |
| Session.SerializeUser | app/owner/profile/page.tsx:42 | `JSON.stringify(user)` with the members in declaration order; `Session.ParseSerializedUser` reads it back as the same user, `Session.SerializeUserInjective` makes it injective and `Session.StoredUserIsJsonText` makes it JSON text |
| Session.ParseUser | app/owner/profile/page.tsx:20-21 | `JSON.parse` of a stored user in the layout `Session.SerializeUser` writes, none for other text; `Session.ParsedUserIsJsonText` shows it accepts only JSON text and `Session.ParseSerializedUser` that it inverts the serialiser |
| Session.ParseSerializedUser | app/owner/profile/page.tsx:20-21 | the user stored after an upload is read back as the same user on the next visit |
| Session.SerializeUserInjective | app/owner/profile/page.tsx:42 | different users are stored as different text |
| Session.ParsedUserIsJsonText | app/owner/profile/page.tsx:20-21 | every text the pages read a user from is one `JSON.parse` accepts |
| Session.StoredUserIsJsonText | app/owner/profile/page.tsx:42 | the text an upload stores is JSON text, so the next visit's `JSON.parse` succeeds |
| Session.UploadedPicture | app/owner/profile/page.tsx:39 | a picture is taken only from an ok answer whose `data.profilePicture` is a non-empty string, and every such answer gives one |
| Session.UploadNotice | app/owner/profile/page.tsx:43-48 | success toasts "Profile picture updated!"; a refused upload shows the message or "Upload failed"; a throw shows "Upload failed" |
| Session.RefusedUploadShowsMessage | app/owner/profile/page.tsx:44-45 | a refused upload with a string message shows that message |
| Session.UploadedUser | app/owner/profile/page.tsx:40 | a successful upload yields the old user with only the picture replaced |
| Session.UploadChangesOnlyPicture | app/owner/profile/page.tsx:40-42 | the new user differs from the old only in a non-empty picture, and stores and reloads unchanged |
| OwnerProfile.OwnerProfilePage.constructor | app/owner/profile/page.tsx:18-25 | the stored user; the cafe name and address from storage (or "") when no user is stored or the stored text is JSON, and "" when `JSON.parse` would throw; whenever a user is read, the cafe fields are loaded |
| OwnerProfile.OwnerProfilePage.HandleUpload | app/owner/profile/page.tsx:29-52 | success replaces only the picture and stores the serialised new user; failure changes neither; uploading is false afterwards |
| OwnerProfile.OwnerProfilePage.HandleLogout | app/owner/profile/page.tsx:54-60 | exactly the six session and cafe keys are removed; every other key stays |
| CustomerProfile.LogoutKeepsCafeDetails | app/customer/profile/page.tsx:50-54 | the customer's logout keys are the owner's minus the cafe name and address |
| CustomerProfile.CustomerProfilePage.constructor | app/customer/profile/page.tsx:16-21 | the stored user, not uploading |
| CustomerProfile.CustomerProfilePage.HandleUpload | app/customer/profile/page.tsx:25-48 | as on the owner's page |
| CustomerProfile.CustomerProfilePage.HandleLogout | app/customer/profile/page.tsx:50-58 | exactly auth_token, auth_user, userRole and tableId are removed |
| CustomerProfile.CustomerProfilePage.ResetTable | app/customer/profile/page.tsx:60-63 | only tableId is removed, with the info toast "Table number reset" |
| Nav.AtMostOneActive | app/owner/layout.tsx:58-62 | with well-separated hrefs no pathname highlights two items |
| OwnerLayout.NavIcon | app/owner/layout.tsx:13-43 | an icon iff the type is home, orders, menu or profile |
| OwnerLayout.EveryItemHasIcon | app/owner/layout.tsx:6-11 | every item of the owner's bar has an icon |
| OwnerLayout.HomeActiveIffExact | app/owner/layout.tsx:59-61 | Home is active iff the pathname is exactly "/owner" |
| OwnerLayout.PrefixTestIsLoose | app/owner/layout.tsx:62 | "/owner/menuX" highlights Menu: the test is a plain prefix test |
| OwnerLayout.ItemsWellSeparated | app/owner/layout.tsx:6-11 | no non-home href is a prefix of another or of "/owner" |
| OwnerLayout.OneActiveAtMost | app/owner/layout.tsx:58-62 | at most one item of the owner's bar is active for any pathname |
| CustomerLayout.NavIcon | app/customer/layout.tsx:12-36 | an icon iff the type is home, menu or profile; there is no orders icon |
| CustomerLayout.EveryItemHasIcon | app/customer/layout.tsx:6-10 | every item of the customer's bar has an icon |
| CustomerLayout.ActiveRule | app/customer/layout.tsx:53-56 | Home iff the pathname is exactly "/customer"; Menu and Profile iff it starts with their href |
| CustomerLayout.ItemsWellSeparated | app/customer/layout.tsx:6-10 | the Menu and Profile hrefs are not prefixes of each other or of "/customer" |
| CustomerLayout.OneActiveAtMost | app/customer/layout.tsx:52-56 | at most one item of the customer's bar is active for any pathname |
| Cookies.Store | app/owner/profile/page.tsx:61 | a script write that would create or replace an HttpOnly cookie changes nothing; any other write (every header write) stores the new value and flag or, when expired, evicts; no other cookie changes |
| Cookies.TokenOf | lib/server-api.ts:7-10 | the proxies see a token iff the `auth_token` cookie exists, and it is that cookie's value |
| Cookies.AfterLogin | app/api/auth/login/route.ts:52-59 | a string token from the login route is stored as the HttpOnly `auth_token` cookie; otherwise the cookies are unchanged |
| Cookies.ClientLogout | app/owner/profile/page.tsx:61 | the script write `auth_token=; max-age=0` leaves an HttpOnly `auth_token` in place and otherwise removes `auth_token` only |
| Cookies.ClientLogoutKeepsToken | app/customer/profile/page.tsx:56 | after login then logout as written, the token survives and every proxy still calls the backend with it |
| Cookies.ServerLogout | app/owner/profile/page.tsx:61 | expiring the cookie by header leaves no token and no other cookie changed |
| Cookies.ServerLogoutSignsOut | lib/server-api.ts:13-16 | after the corrected logout every proxy answers 401 without calling the backend |

## Left out

- Rendering, CSS classes, routing (`router.push`), and the static pages are
  not modelled: app/customer/menu/page.tsx, next.config.ts and the thin API
  routes that only call lib/server-api.ts. The dashboard's and customer
  page's avatar, greeting and cafe name are display only and also not
  modelled.
- Not modelled: the 10-second polling intervals, the toast's 4-second
  `setTimeout` and the 8-second abort timeouts of the auth routes. They are
  timing. Toast expiry is the explicit `Expire(id)` call, and polling is
  repeated `FetchOrders` calls.
- `Date.now()` and `Date` parsing are parameters:
  - `timeAgo` takes the elapsed milliseconds, with None for an unparseable
    date.
  - The dashboard takes a day key function `dayOf` and the current day.
- JSON numbers are integers. Prices and totals are in the smallest currency
  unit. Floating point and the exponent form `String(n)` uses from 1e21 up
  are not modelled.
- Environment overrides of the base URLs (`NEXT_PUBLIC_API_BASE`,
  `NEXT_PUBLIC_BACKEND_ORIGIN`, `API_BASE_URL`): the model uses the
  defaults.
- `URL.createObjectURL` and `URL.revokeObjectURL` are not modelled: the
  object URL is a parameter and revocation is a side effect without state
  here.
- Not modelled: form fields and `FormData` transport. A file is
  identified by its name.
- `data.data` in a fetched reply is taken to be a list of well-formed
  orders or menu items. The `reply` parameter is None when it is falsy or
  the call threw.
- Items whose category is not one of the four categories cannot occur in
  the model.
- Pages.NoticeText: a non-string `message` is shown as the fallback text.
  JavaScript would show the value itself.
- Session.UploadedPicture: a truthy `profilePicture` that is not a string
  is treated as a failed upload, because the user record holds a string.
- Session.ParseUser reads only the member layout that
  `Session.SerializeUser` writes (the field order of lib/types.ts).
  `JSON.parse` accepts any layout, and the spread in the upload keeps the
  stored user's own key order. On JSON text of another layout the pages
  hold no user, while the owner's profile still loads the cafe fields as
  the source does.
- Json.ReadString refuses a `\u` escape of a lone surrogate, which
  `JSON.parse` accepts: a string here holds Unicode scalar values only.
  Json.IsJsonText inherits this for such text.
- Cookies.AfterLogin sets the cookie only for a string token. A truthy
  non-string token is not modelled.
- Cookie domain, path, Secure and SameSite attributes, and cookie expiry
  over time, are not modelled.
- The cart builder and the order-status notification logic are not part
  of this model.
- OwnerProfile.OwnerProfilePage.HandleUpload and
  CustomerProfile.CustomerProfilePage.HandleUpload require a loaded user.
  The upload control is rendered only after the user has loaded.
- OwnerMenu.MenuPage.HandleSubmit, OwnerProfile.OwnerProfilePage.HandleUpload
  and CustomerProfile.CustomerProfilePage.HandleUpload require that no save
  or upload is running. Their buttons are disabled meanwhile.

## Findings

| source | as written | input that shows it | evidently intended | confidence | as-written member | corrected member |
|---|---|---|---|---|---|---|
| app/owner/profile/page.tsx:61 | logout clears `auth_token` with a `document.cookie` write, but the login route set that cookie HttpOnly (app/api/auth/login/route.ts:53-58), and section 5.3 of RFC 6265 forbids a non-HTTP API from replacing an HttpOnly cookie | log in (backend answers ok with token "t"), log out, then call any proxied route: the cookie still holds "t" and the proxy forwards it | logging out signs the browser out, so the proxies answer 401 | high (not executed) | Cookies.ClientLogoutKeepsToken | Cookies.ServerLogoutSignsOut |
| app/customer/profile/page.tsx:56 | the same `document.cookie` write on the customer's logout | as above | as above | high (not executed) | Cookies.ClientLogoutKeepsToken | Cookies.ServerLogoutSignsOut |
