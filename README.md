# EmporiumVipani business rules in Dafny

EmporiumVipani is a small multi-vendor shop. An Express and MongoDB server serves products, orders, sellers, users, Razorpay payments and an admin dashboard. Two browser storefronts sit on top of it. `public/app.js` is an Alpine.js store, with its widget library in `public/components.js`. `src/app.js` is a demo `AppStore`, with its own form validator, e-mail helpers and form handlers.

This project models the business rules of both halves and proves what they promise:

- **Server.** The collections become maps inside one `Db.Database` object. Each route handler is a method that reads and updates them.
  - Order creation runs its item loop one product at a time, saving stock and sales as it goes. Cancellation restocks in a loop.
  - Payment confirmation is a signature gate followed by a status change.
  - The account rules are decision chains over the same maps: register, login, bearer tokens and role guards, the seller lifecycle that gates product creation, the wishlist toggle, and the profile update.
- **Clients.** The cart is a sequence of lines, and both stores' mutations are values assigned to it.
  - Each store is a class whose methods update its fields: cart, filters, shown products, promo code, orders, user and sellers.
  - The widget library's notification list, event bus, expiring key/value store and table sort toggle are classes too.
  - Pagination and multi-field search are functions.

Each module follows one source file:

| module | file |
|---|---|
| `UserModel` | `server/models/User.js` |
| `Validators` | `server/utils/validators.js` |
| `AuthMiddleware` | `server/middleware/auth.js` |
| `AuthRoutes` | `server/routes/auth.js` |
| `OrderRoutes` | `server/routes/orders.js` |
| `PaymentRoutes` | `server/routes/payments.js` |
| `ProductRoutes` | `server/routes/products.js` |
| `SellerRoutes` | `server/routes/sellers.js` |
| `AdminRoutes` | `server/routes/admin.js` |
| `UserRoutes` | `server/routes/users.js` |
| `Storefront` | `public/app.js` |
| `Widgets` | `public/components.js` |
| `DemoStore` | `src/app.js` |
| `FormValidator` | `src/components.js` |
| `EmailConfig` | `src/email-config.js` |
| `FormHandlers` | `src/form-handlers.js` |

The other modules are shared:

- `Wrappers`: options and replies.
- `Strings`: JavaScript string helpers. These are `trim`, ASCII `toLowerCase`, `split`, `join`, `includes`, number formatting and the `\s` whitespace set.
- `Sorting`: stable sorts and filters.
- `Pricing`: the order pricing rule and rounded shares.
- `Records`: products and orders.
- `Db`: the in-memory database.
- `Cart`: the cart both stores keep.

Conventions:

- A JavaScript value that may be missing or falsy is an `Option`, and `Truthy` is its truthiness.
- Money is whole rupees.
- Ratings are integer hundredths of a star.
- Percentage rates use integer arithmetic: floor for the 5% bulk discount, round-half-up for promo codes.
- A reply is a status and a message. A success body that carries no `message` field has the message `OK`.

## Model

| member | source | states |
|---|---|---|
| UserModel.SellerStatusName | server/models/User.js:56-60 | a seller status is stored as one of the four enum spellings |
| UserModel.SellerStatusNameInjective | server/models/User.js:56-60 | two statuses share a spelling exactly when they are the same status |
| UserModel.ToJSON | server/models/User.js:115-119 | the public view keeps the id, e-mail, role and seller profile |
| UserModel.ToJSONForgetsOnlyPassword | server/models/User.js:115-119 | two users have the same public view exactly when they differ at most in the password |
| UserModel.NewUser | server/models/User.js:4-94 | a registered user starts as an active customer with the default seller profile (pending, unverified), a lower-cased e-mail, a trimmed name and no orders or wishlist |
| UserModel.PreSave | server/models/User.js:97-107 | the save hook replaces the password by its hash when the password was modified, and changes nothing else |
| UserModel.SavedPasswordMatches | server/models/User.js:97-112 | after the first save, `matchPassword` accepts the password the user registered with |
| UserModel.MatchPassword | server/models/User.js:110-112 | `matchPassword` holds exactly when the entered password hashes to the stored hash; SavedPasswordMatches and AuthRoutes.LoginKeepsPassword state what it accepts |
| UserModel.UnmodifiedSaveKeepsMatch | server/models/User.js:97-112 | a save that does not touch the password leaves `matchPassword` answering as before |
| AuthMiddleware.BearerToken | server/middleware/auth.js:8 | the token is the second space-separated word of the header; it is never empty and holds no space |
| AuthMiddleware.BearerIgnoresScheme | server/middleware/auth.js:8-10 | whatever the first word, the word after the first space is the token, and any further words are ignored |
| AuthMiddleware.OneWordHeaderHasNoToken | server/middleware/auth.js:8-15 | a header of one word carries no token |
| AuthMiddleware.VerifyToken | server/middleware/auth.js:6-28 | the request passes exactly when a token is present and verifies, with the token's user id and no role; otherwise 401 "No token provided" or 401 "Invalid token" |
| AuthMiddleware.VerifyAdmin | server/middleware/auth.js:33-53 | passes exactly an existing admin and records the admin role; an unknown user gives 500, any other role 403 |
| AuthMiddleware.VerifySeller | server/middleware/auth.js:58-78 | passes exactly an existing verified seller; an unknown user gives 500, anyone else 403 |
| AuthMiddleware.AdminChain | server/middleware/auth.js:6-53 | the admin routes' guard chain passes exactly a verified token whose user exists and is an admin; it refuses a missing token and an invalid one with 401, an unknown user with 500 and a non-admin with 403, each with its message |
| AuthRoutes.GenerateToken | server/routes/auth.js:8-12 | the token carries the user id and the configured lifetime, seven days when none is set |
| AuthRoutes.RegisterCheck | server/routes/auth.js:17-50 | the register checks in their order (all fields given, passwords agree, e-mail pattern, e-mail free); the request gets through exactly when all pass, and 409 exactly when only the e-mail is taken |
| AuthRoutes.ShortPasswordPassesRegisterChecks | server/routes/auth.js:17-50 | the route never applies the six-character password rule: a three-character password gets through its checks |
| AuthRoutes.Register | server/routes/auth.js:17-76 | a refused request changes nothing; an accepted one that passes schema validation stores exactly one new user, built by the schema and hashed by the save hook, answers 201 with a token and the public view, and keeps e-mails unique; one that fails validation answers 500 and stores nothing; a refusal carries no token and no user |
| AuthRoutes.FindByEmail | server/routes/auth.js:94 | finds a stored user with exactly this e-mail exactly when one exists |
| AuthRoutes.LoginCheck | server/routes/auth.js:81-117 | the login checks in their order: missing fields 400, unknown e-mail or wrong password 401, an inactive account 403; admits exactly an existing active user whose password matches |
| AuthRoutes.Login | server/routes/auth.js:81-139 | only an admitted login changes the store, and then only that user's last-login time |
| AuthRoutes.LoginKeepsPassword | server/routes/auth.js:119-121 | recording the login time keeps the stored hash, so the same password logs in again |
| AuthRoutes.Logout | server/routes/auth.js:144-150 | logout always answers 200 "Logged out successfully" |
| AuthRoutes.VerifyTokenRoute | server/routes/auth.js:155-187 | answers the public view exactly for a verifying token whose user exists; every failure is a 401, with `No token provided`, `Invalid token` or `User not found` as the case may be |
| Pricing.BulkDiscount | server/routes/orders.js:79 | above 1000 the discount is the largest whole amount not above 5% of the total, and positive; at or below 1000 it is 0 |
| Pricing.OrderTotals | server/routes/orders.js:78-80 | shipping is 0 above 1000 and 50 otherwise, the discount is the bulk discount, total = subtotal + shipping - discount, and a non-negative subtotal gives non-negative totals |
| Pricing.ThresholdIsNotMonotone | server/routes/orders.js:78-80 | crossing the threshold makes a larger cart cheaper: 1000 costs 1050 and 1001 costs 951 |
| Pricing.TotalMonotoneAboveThreshold | server/routes/orders.js:78-80 | above the threshold a larger subtotal never gives a smaller total |
| Pricing.TieredShipping | public/app.js:412-417 | shipping is 0 above 5000, 100 above 2000 and 200 otherwise |
| Pricing.RoundedShare | public/app.js:419-423 | a percentage share is the nearest whole amount, halves rounding up |
| Pricing.RoundedShareBounds | public/app.js:419-423 | a share of at most 100% of a non-negative total lies between 0 and the total |
| Records.ProductSchemaValid | server/models/Product.js:5-94 | the validators a product save runs: name and description given and within 120 and 2000 characters, a non-negative price and stock, a listed category and status; ProductRoutes.CreateProduct and UpdateProduct store a product only when they hold, and answer 500 otherwise |
| Records.OrderSchemaValid | server/models/Order.js:35-96 | the validators an order save runs: every quantity at least 1, non-negative amounts, all four address parts given, a listed payment method and status; OrderRoutes.Finish creates an order only when they hold |
| OrderRoutes.LineFor | server/routes/orders.js:58-69 | an order line records the product's price, the requested quantity and their product as its total |
| OrderRoutes.Shifted | server/routes/orders.js:72-73 | taking units out lowers the stock and raises the sales by the same amount and changes nothing else |
| OrderRoutes.ShiftedTwice | server/routes/orders.js:72-73 | two shifts are one shift by the sum, and a shift by 0 changes nothing |
| OrderRoutes.TakeItems | server/routes/orders.js:40-75 | the item loop, a fold of one lookup, stock check, line and save per item; TakeItemsLines, TakeItemsEffect, SubtotalIsLinesTotal, StoppedStaysStopped and StoppedKeepsEarlierSaves state what it records and saves |
| OrderRoutes.TakeItemsLines | server/routes/orders.js:40-69 | the item loop records one line per item, in order, with the item's product and quantity, and every item when it does not stop |
| OrderRoutes.SubtotalIsLinesTotal | server/routes/orders.js:58-59 | the subtotal is the sum of price times quantity over the processed lines |
| OrderRoutes.TakeItemsEffect | server/routes/orders.js:40-75 | the loop keeps the same products and shifts each one by its units over the recorded lines |
| OrderRoutes.TakeItemsKeepsStock | server/routes/orders.js:51-56 | the stock check keeps every stock non-negative |
| OrderRoutes.StoppedStaysStopped | server/routes/orders.js:43-56 | once an item is missing or short of stock, the later items change nothing |
| OrderRoutes.StoppedKeepsEarlierSaves | server/routes/orders.js:40-75 | when the loop stops at some item, the products saved for the items before it stay saved |
| OrderRoutes.Restock | server/routes/orders.js:226-231 | the restoration loop, one `$inc` per order line; RestockEffect and CancelInvertsIntake state what it restores |
| OrderRoutes.RestockEffect | server/routes/orders.js:226-231 | cancelling gives every product back its units over the order's lines and keeps the same products |
| OrderRoutes.CancelInvertsIntake | server/routes/orders.js:40-75 | restoring the lines the item loop recorded gives back exactly the products it started from |
| OrderRoutes.SubtotalNonNegative | server/routes/orders.js:58-59 | with non-negative prices and quantities the subtotal is not negative |
| OrderRoutes.NegativeQuantityRaisesStock | server/routes/orders.js:51-73 | a negative quantity passes the stock check and raises the stock |
| OrderRoutes.OrderNumber | server/routes/orders.js:83 | the order number is `ORD` and at most six digits of the clock, nine characters once the clock has six digits |
| OrderRoutes.PaymentMethodOf | server/routes/orders.js:99 | the requested payment method, or `COD` when it is falsy |
| OrderRoutes.NewOrder | server/routes/orders.js:86-104 | a new order is pending with a pending payment, holds the processed lines and the server's totals |
| OrderRoutes.Finish | server/routes/orders.js:86-108 | after the loop, the order is created exactly when the user exists, a payment object was sent, the schema accepts it and the order number is free |
| OrderRoutes.CreateOrder | server/routes/orders.js:13-125 | no items or no street and city gives 400 and changes nothing; otherwise the products are those the item loop leaves; a stopped loop answers its reply, and a completed one stores the order and appends its id to the user's orders |
| OrderRoutes.GetOrderAsWritten | server/routes/orders.js:161-193 | the order is returned to its owner or to a caller whose request carries the admin role; 404 for an unknown order, 403 otherwise |
| OrderRoutes.AdminBypassUnreachable | server/routes/orders.js:175 | behind the token guard the request carries no role, so as written only the owner reads an order |
| OrderRoutes.AdminRefusedOthersOrder | server/routes/orders.js:175-180 | a stored admin is refused another customer's order with 403 |
| OrderRoutes.GetOrder | server/routes/orders.js:161-193 | with the role read from the stored user, the owner or an admin reads the order; 404 for an unknown order, otherwise 403 |
| OrderRoutes.GetOrderAdminSeesAll | server/routes/orders.js:175 | an admin reads every order, anyone else exactly their own |
| OrderRoutes.CancelOrder | server/routes/orders.js:198-248 | 404 for an unknown order, 403 for another user's, 400 outside pending and confirmed, each changing nothing; otherwise the stock is restored and the status becomes `cancelled` |
| PaymentRoutes.GatewayOptionsFor | server/routes/payments.js:19-24 | the gateway amount is the order amount in paise (a whole multiple of 100 that divides back to it), in INR, with the order id as receipt and capture on |
| PaymentRoutes.CreatePaymentOrder | server/routes/payments.js:15-39 | the gateway's order is passed on with 200; a gateway failure answers 500 "Failed to create payment order" |
| PaymentRoutes.SignedMessage | server/routes/payments.js:50 | the signed message is the gateway order id, a `|`, then the payment id |
| PaymentRoutes.SignedMessageSplits | server/routes/payments.js:50 | splitting the message at `|` gives back the gateway order id first when it holds no `|` |
| PaymentRoutes.SignedMessageInjective | server/routes/payments.js:50 | for gateway order ids without `|`, the message determines both ids |
| PaymentRoutes.SignedMessageAmbiguous | server/routes/payments.js:50 | without that restriction two different id pairs share a message |
| PaymentRoutes.SignatureValid | server/routes/payments.js:50-56 | the signature is accepted exactly when it equals the HMAC of the signed message under the secret; VerifyPayment states what an accepted and a refused signature do |
| PaymentRoutes.Confirmed | server/routes/payments.js:65-68 | a verified payment records both gateway ids, completes the payment and confirms the order, whatever its prior status, and changes nothing else |
| PaymentRoutes.VerifyPayment | server/routes/payments.js:44-83 | a signature mismatch answers 400 and touches nothing; a valid one for an unknown order answers 500; otherwise the order is confirmed as above |
| ProductRoutes.ListingQuery | server/routes/products.js:13-26 | the listing always asks for `active`; it filters by category exactly when one is given and is not `all`, and searches exactly when a search text is given |
| ProductRoutes.Matches | server/routes/products.js:13-26 | a product matches exactly when it has the query's status and category and, when a search is given, its name or description holds the search text ignoring case, letter by letter; an occurrence as typed is a match |
| ProductRoutes.MatchesIgnoresCase | server/routes/products.js:23-24 | lower-casing the search text changes no answer, as with the `i` flag |
| ProductRoutes.ListingShowsOnlyActive | server/routes/products.js:13-18 | every listed product is active, and with no search and no (or `all`) category every active product is listed |
| ProductRoutes.SortFor | server/routes/products.js:29-33 | each recognised `sortBy` picks its order, and anything else sorts by sales |
| ProductRoutes.Arranged | server/routes/products.js:29-40 | the listing is a permutation of the found products, by price rising for `price-low`, by price, rating or creation time falling for `price-high`, `rating` and `newest`, and by sales falling for anything else |
| ProductRoutes.CeilDiv | server/routes/products.js:54 | the page count is the least number of pages of `limit` that holds every product |
| ProductRoutes.Paging | server/routes/products.js:11-54 | limit defaults to 12 and page to 1, skip = (page - 1) * limit, and the page count covers the total (none for a limit of 0) |
| ProductRoutes.PagesTile | server/routes/products.js:36 | each page starts right after the products of the page before, and the first page skips none |
| ProductRoutes.CreateProductCheck | server/routes/products.js:103-118 | the checks in order: an unknown caller fails with 500, a caller who is not a verified seller gets 403, missing fields 400; the product is created exactly when all pass |
| ProductRoutes.FreeProductRefused | server/routes/products.js:113 | a price of 0 counts as missing, so a free product is refused with 400 |
| ProductRoutes.NewProduct | server/routes/products.js:121-129 | the stored product belongs to the caller, starts active with no sales, and takes the given fields with no images by default |
| ProductRoutes.CreateProduct | server/routes/products.js:98-143 | a refused request changes nothing; an accepted one stores exactly the new product |
| ProductRoutes.ApplyPatch | server/routes/products.js:167-173 | each whitelisted field that is given replaces the stored one, and every other field is unchanged |
| ProductRoutes.ApplyPatchIdempotent | server/routes/products.js:167-173 | an empty update changes nothing, and an update applied twice is applied once |
| ProductRoutes.UpdateProduct | server/routes/products.js:148-189 | 404 for an unknown product and 403 for another seller's, each changing nothing; otherwise the product becomes the patched one |
| ProductRoutes.DeleteProduct | server/routes/products.js:194-226 | 404 for an unknown product and 403 for another seller's, each changing nothing; otherwise exactly that product is removed |
| SellerRoutes.Enrol | server/routes/sellers.js:33-42 | the applicant becomes a seller with a pending, unverified profile holding the given business details, and nothing else about the user changes |
| SellerRoutes.ApplyCheck | server/routes/sellers.js:15-30 | missing business name or description gives 400; the application goes ahead exactly when both are given and the user exists and is not yet a seller; an existing seller gets 400 |
| SellerRoutes.Apply | server/routes/sellers.js:9-58 | a refused application changes nothing; an accepted one answers 201 with the user's public form and stores the enrolled user and nothing else |
| SellerRoutes.NoSecondApplication | server/routes/sellers.js:25-30 | once an application was accepted, a second one is refused as already a seller |
| SellerRoutes.ViewOf | server/routes/sellers.js:70 | the seller projection keeps the id, the seller profile and the e-mail |
| SellerRoutes.ListSellers | server/routes/sellers.js:63-83 | the listing holds exactly the sellers whose status is the requested one (approved when none is given), each in the projected form |
| SellerRoutes.DefaultListIsApproved | server/routes/sellers.js:65-70 | without a status, a user is listed exactly when it is an approved seller |
| SellerRoutes.Projected | server/routes/sellers.js:90 | the projection the route loads keeps every user but drops the role |
| SellerRoutes.WithRole | server/routes/sellers.js:90-92 | a projection that also selects the role keeps every user with its role |
| SellerRoutes.GetSellerFrom | server/routes/sellers.js:92-102 | over loaded records, the seller is returned exactly when its record says its role is seller; otherwise 404 |
| SellerRoutes.GetSellerAsWritten | server/routes/sellers.js:88-110 | as written, every request answers 404, since the selected fields leave the role out |
| SellerRoutes.GetSeller | server/routes/sellers.js:88-110 | with the role selected, a user is returned exactly when it is a seller, in the projected form; otherwise 404 |
| SellerRoutes.ListedSellerNotFetchable | server/routes/sellers.js:63-110 | every seller the default listing returns is fetched by the corrected route as listed, and refused by the route as written |
| AdminRoutes.RevenueAt | server/routes/admin.js:16-18 | the sum of the order totals does not depend on which order is taken first |
| AdminRoutes.RevenueAdd | server/routes/admin.js:16-18 | storing a new order adds its total to the revenue |
| AdminRoutes.RevenueNonNegative | server/routes/admin.js:16-18 | with no negative total, the revenue is never negative |
| AdminRoutes.GetDashboard | server/routes/admin.js:11-36 | a refused caller gets the admin gate's reply; an admin gets the counts of users, products and orders and the sum of the order totals, which is 0 with no orders |
| AdminRoutes.PendingSellers | server/routes/admin.js:43-46 | the query: exactly the sellers whose status is pending, each in its public form |
| AdminRoutes.PendingSellersRoute | server/routes/admin.js:41-59 | behind `verifyToken` and `verifyAdmin`: a refused caller gets the gate's reply and no data; an admin gets 200 and the pending sellers |
| AdminRoutes.PendingSellersGuarded | server/routes/admin.js:41 | without a token the answer is 401 `No token provided`, a signed-in non-admin gets 403 `Admin access required`, and whatever is returned is a pending seller |
| AdminRoutes.Approve | server/routes/admin.js:66-73 | approval sets the status to approved and verified, and changes nothing else |
| AdminRoutes.Reject | server/routes/admin.js:94-98 | rejection sets the status to rejected, keeps `verified` as it was, and changes nothing else |
| AdminRoutes.UpdateSeller | server/routes/admin.js:66-98 | an unknown id changes nothing and returns nothing; a known one stores and returns the updated user |
| AdminRoutes.ApproveSeller | server/routes/admin.js:64-87 | a refused caller changes nothing; for an admin the answer is 200, even for an unknown id, and a known user is approved |
| AdminRoutes.RejectSeller | server/routes/admin.js:92-112 | a refused caller changes nothing; for an admin the answer is 200 and a known user is rejected |
| AdminRoutes.ApproveOpensSellerGate | server/routes/admin.js:66-73 | after approval, the user can create products exactly when its role is seller |
| AdminRoutes.RejectKeepsSellerGateOpen | server/routes/admin.js:94-98 | rejecting a seller approved before leaves `verified` set, so it can still create products |
| AdminRoutes.SellerLifecycle | server/routes/admin.js:41-73 | after applying, a user is pending, not in the default listing and cannot sell; after approval it is off the pending list, listed, and can sell |
| UserRoutes.RemoveAll | server/routes/users.js:81 | the filtered wishlist holds exactly the other ids, no longer than before |
| UserRoutes.RemoveAllAppend | server/routes/users.js:81 | filtering works piece by piece on a concatenation |
| UserRoutes.RemoveAllAbsent | server/routes/users.js:81 | filtering out an id the wishlist does not hold changes nothing |
| UserRoutes.RemoveAllCounts | server/routes/users.js:81 | filtering removes every copy of the id and keeps every other id as often as before |
| UserRoutes.Toggle | server/routes/users.js:79-85 | a held product is taken out and a missing one put in |
| UserRoutes.ToggleAbsentAppends | server/routes/users.js:84 | a missing product is appended once at the end |
| UserRoutes.TogglePresentRemoves | server/routes/users.js:81 | a held product loses every copy and nothing else changes |
| UserRoutes.ToggleTwiceRestores | server/routes/users.js:79-85 | toggling a missing product twice gives the wishlist back |
| UserRoutes.ToggleTwiceDeduplicates | server/routes/users.js:79-85 | toggling a held product twice leaves exactly one copy of it, at the end |
| UserRoutes.ToggleWishlist | server/routes/users.js:75-101 | an unknown user gets 500 and nothing changes; otherwise the toggled wishlist is stored and returned, and nothing else changes |
| UserRoutes.Populate | server/routes/users.js:57 | the populated wishlist holds only stored products the wishlist names, no more of them than ids |
| UserRoutes.PopulateComplete | server/routes/users.js:57 | every stored product the wishlist names is in the populated wishlist |
| UserRoutes.GetWishlist | server/routes/users.js:55-70 | an existing user gets its populated wishlist; an unknown one gets 500 |
| UserRoutes.GetProfile | server/routes/users.js:9-24 | an existing user gets its public form; an unknown one gets 500 |
| UserRoutes.ApplyProfile | server/routes/users.js:31-36 | each given field replaces the stored one, the name trimmed; password, role, seller profile and every other field are unchanged |
| UserRoutes.ApplyProfileIdempotent | server/routes/users.js:31-36 | an empty update changes nothing, and an update applied twice is applied once |
| UserRoutes.UpdateProfile | server/routes/users.js:29-50 | an unknown user or a given field failing its schema validator gets 500 and nothing changes; otherwise the updated user is stored and returned |
| Validators.ValidateEmail | server/utils/validators.js:5-8 | true exactly when the address matches the pattern: a non-empty local part, one `@`, and a domain with a dot that has text on either side, with no whitespace or `@` anywhere else |
| Validators.PatternGivesScan | server/utils/validators.js:6 | a matching address holds no whitespace, exactly one `@` after the first character, and a dot at least two characters after it and two before the end |
| Validators.ScanGivesPattern | server/utils/validators.js:6 | an address with that shape matches the pattern; with PatternGivesScan this is an if-and-only-if |
| Validators.ValidatePassword | server/utils/validators.js:10-13 | true exactly when a password is given with at least 6 characters |
| Validators.ValidatePhone | server/utils/validators.js:15-18 | true exactly when the text is 7 to 15 characters, each a digit, `+`, `-` or whitespace |
| Validators.MatchesClasses | server/utils/validators.js:22-28 | a text matches a fixed pattern of character classes exactly when it has the pattern's length and each character is in its class |
| Validators.RepeatMatches | server/utils/validators.js:16 | a repeated class matches exactly the texts all of whose characters are in it |
| Validators.ValidateGSTNumber | server/utils/validators.js:20-24 | true exactly when the text is 15 characters: two digits, a valid PAN number, a non-zero digit or capital, `Z`, and a digit or capital |
| Validators.GstLayout | server/utils/validators.js:22 | the GST pattern splits into its pieces, the middle ten being the PAN pattern |
| Validators.ValidatePANNumber | server/utils/validators.js:26-30 | true exactly when the text is 10 characters: five capitals, four digits, one capital |
| Validators.DomainSuffixShape | server/models/User.js:18 | the domain ending of the schema pattern starts with a dot, is at least 3 characters and holds only word characters and dots |
| Validators.SchemaEmailPassesValidateEmail | server/models/User.js:18 | every address the user schema accepts is also accepted by the route validator |
| Validators.ShortDomainOnlyPassesRouteCheck | server/models/User.js:18 | the converse fails: `a@b.c` passes the route validator but not the schema |
| Cart.FindItem | public/app.js:366 | the product found is in the catalogue and has the id; nothing is found exactly when no product has it |
| Cart.LineIndex | public/app.js:369 | the first cart line of the product, or none exactly when no line holds it |
| Cart.AddLine | public/app.js:365-382 | an unknown product leaves the cart as it is; a product already in the cart gains one on its first line; a new one is appended with quantity 1 |
| Cart.RemoveLines | public/app.js:384-387 | the cart keeps exactly the lines of other products |
| Cart.ChangeQuantity | public/app.js:389-398 | a product not in the cart changes nothing; otherwise its first line takes the change, and every line of it goes once the quantity is no longer positive |
| Cart.CountAppend | public/app.js:400-406 | count and total of two carts joined are the sums of their counts and totals |
| Cart.CountReplace | public/app.js:400-406 | replacing one line moves count and total by the difference of that line |
| Cart.CountRemove | public/app.js:384-402 | removing a product lowers the count by its quantity |
| Cart.RemoveLinesAppend | public/app.js:385 | removal works piece by piece on a concatenation |
| Cart.RemoveLinesAbsent | public/app.js:385 | removing a product the cart does not hold changes nothing |
| Cart.RemoveLinesKeepsWellFormed | public/app.js:384-387 | removal keeps the cart at one line per product with positive quantities |
| Cart.AddLineKeepsWellFormed | public/app.js:365-382 | adding keeps the cart at one line per product with positive quantities |
| Cart.ChangeQuantityKeepsWellFormed | public/app.js:389-398 | a quantity change keeps the cart at one line per product with positive quantities |
| Cart.AddLineCounts | public/app.js:365-406 | adding a known product raises the count by one and the total by its price |
| Cart.ChangeQuantityCounts | public/app.js:389-402 | a change leaving the quantity positive moves the count by the change; otherwise the product leaves the cart with all its quantity |
| Cart.WellFormedBounds | public/app.js:400-406 | in a well-formed cart the count is at least the number of lines, and with non-negative prices the total is never negative |
| Cart.RemoveUndoesAdd | public/app.js:365-387 | removing a product undoes adding it to a cart that did not hold it |
| Storefront.Arrange | public/app.js:323-341 | the sort step only reorders: the same products, as often as before |
| Storefront.SearchHit | public/app.js:313-320 | a product is found exactly when the search trims to nothing or its name, description or category holds the search ignoring case, letter by letter |
| Storefront.SearchIgnoresCase | public/app.js:313-320 | the search finds the same products as its lower-cased form |
| Storefront.SelectedMembers | public/app.js:306-321 | the category and search steps keep exactly the matching products, none more often than in the catalogue |
| Storefront.Filtered | public/app.js:305-344 | the filtered list is a reordering of the selection |
| Storefront.KeepKeep | public/app.js:309-321 | two filters in a row are one filter by both tests |
| Storefront.KeepAll | public/app.js:309-321 | filters by the same test give the same result |
| Storefront.RelevanceKeepsCatalogueOrder | public/app.js:337-340 | with `relevance` or an unknown sort the matching products keep catalogue order |
| Storefront.FilteredMembers | public/app.js:305-344 | whatever the sort, the list holds exactly the matching products of the catalogue, none twice more than there |
| Storefront.SortsOrder | public/app.js:324-336 | `price-low` lists by rising price, `price-high` by falling price, `rating` by falling rating and `newest` by falling id |
| Storefront.LookupPromo | public/app.js:421-426 | a lookup finds a rate exactly for the table's own codes, and an inherited member exactly for the object's inherited keys |
| Storefront.AppliedPromoAsWritten | public/app.js:425-433 | as written, a code is applied exactly when its lookup is not undefined |
| Storefront.DiscountAsWritten | public/app.js:419-423 | as written, no applied code gives a discount of 0 |
| Storefront.InheritedPromoAccepted | public/app.js:421-426 | the code `constructor` is accepted, and its discount is not a number |
| Storefront.AppliedPromo | public/app.js:425-433 | a code is applied exactly when it is one of the table's own |
| Storefront.Discount | public/app.js:419-423 | no code or an unknown one gives 0; a table code gives the rounded share of the total at its rate, between 0 and the total |
| Storefront.PromoAgreesOffPrototype | public/app.js:419-433 | off the inherited keys, the intended rule and the code as written agree |
| Storefront.Shipping | public/app.js:412-417 | the shipping is the tiered charge on the cart total |
| Storefront.FinalTotal | public/app.js:435-437 | total plus shipping minus discount, never below the shipping or above total plus shipping |
| Storefront.ValidatePhone | public/app.js:484-487 | true exactly when the text has at least ten digits and each character is a digit, whitespace, `-`, `(` or `)`, or a leading `+`; an accepted phone has at least ten characters |
| Storefront.Trimmed | public/app.js:494-499 | a present field reads as its trimmed text, an absent one as nothing |
| Storefront.CheckoutErrors | public/app.js:501-520 | the errors are among the five keys, and an absent name, e-mail, phone or address is always reported; CheckoutErrorsMeaning gives each key's exact condition |
| Storefront.CheckoutErrorsMeaning | public/app.js:501-520 | each error key is set exactly when its trimmed field fails its check, and the cart key exactly when the cart is empty |
| Storefront.ItemsOf | public/app.js:539-544 | one order item per cart line, with its product id, name, quantity and price |
| Storefront.CheckoutOrder | public/app.js:531-555 | the order's id is `ORD-` and the time, status pending, items and totals from the cart, and a customer whose fields are the trimmed form fields and passed the checks |
| Storefront.Store.constructor | public/app.js:295-299 | the store starts with the catalogue, an empty cart, the default filters and every product shown |
| Storefront.Store.ApplyFilters | public/app.js:305-344 | the shown list becomes the filtered catalogue and nothing else changes |
| Storefront.Store.SetFilters | public/app.js:346-359 | the filters are set and the shown list refiltered; nothing else changes |
| Storefront.Store.AddToCart | public/app.js:365-382 | the cart becomes the cart with the product added; nothing else changes |
| Storefront.Store.RemoveFromCart | public/app.js:384-387 | the cart loses the product's lines; nothing else changes |
| Storefront.Store.UpdateQuantity | public/app.js:389-398 | the cart takes the quantity change; nothing else changes |
| Storefront.Store.ApplyPromoCode | public/app.js:425-433 | the applied code becomes the code when it is in the table and nothing otherwise; nothing else changes |
| Storefront.Store.HandleCheckout | public/app.js:489-570 | a failing form records its errors and keeps cart and orders; a passing one records the order and empties the cart once the backend accepts it, and keeps both when it does not |
| Storefront.RemoveLinesReplace | public/app.js:393-396 | changing a product's line before removing it does not change what removal leaves |
| Storefront.CheckoutNeedsCart | public/app.js:518-520 | an empty cart always fails the checkout |
| DemoStore.WithFilter | src/app.js:322-323 | the named filter takes the value and the other two are kept |
| DemoStore.SortKey | src/app.js:301-316 | `price-low` sorts by price, `price-high` by price falling, and any unknown key by sales falling |
| DemoStore.SearchHit | src/app.js:292-297 | a product is found exactly when the search is empty or its name or description holds the search ignoring case, letter by letter |
| DemoStore.SearchIgnoresCase | src/app.js:292-297 | the search finds the same products as its lower-cased form |
| DemoStore.SelectedMembers | src/app.js:284-298 | the category and search steps keep exactly the matching products, none more often than in the catalogue |
| DemoStore.Filtered | src/app.js:283-320 | the result is sorted by the chosen key and is a reordering of the selection |
| DemoStore.FilteredProducts | src/app.js:283-320 | the result holds exactly the matching products, and by default the best-selling come first |
| DemoStore.Shipping | src/app.js:347-349 | a flat 50 on a non-empty cart and nothing on an empty one |
| DemoStore.Discount | src/app.js:351-354 | the bulk discount on the cart total, never negative and never above the total |
| DemoStore.FinalTotal | src/app.js:356-358 | total plus shipping minus discount |
| DemoStore.FinalTotalBounds | src/app.js:347-358 | for a cart the store builds, the amount due is between 0 and total plus shipping, and 0 for an empty cart |
| DemoStore.LoginName | src/app.js:370 | the name is the e-mail up to its first `@`, or the whole e-mail when it has none |
| DemoStore.FindSeller | src/app.js:360-362 | the seller found is in the list and has the id; none is found exactly when no seller has it |
| DemoStore.FindDense | src/app.js:360-362 | with ids numbered from 1, the seller with id k is the k-th, and ids out of range find none |
| DemoStore.FindShifted | src/app.js:360-362 | with ids numbered from any start, each id in range finds its seller and the others find none |
| DemoStore.AppStore.constructor | src/app.js:13-62 | the initial state: empty cart, nobody logged in, the seeded catalogue and sellers, the default filters and every product shown |
| DemoStore.AppStore.Subscribe | src/app.js:231-233 | the callback is appended to the listeners and nothing else changes |
| DemoStore.AppStore.AddToCart | src/app.js:240-257 | the cart becomes the cart with the product added, and the store stays well formed |
| DemoStore.AppStore.RemoveFromCart | src/app.js:259-262 | the cart loses the product's lines, and the store stays well formed |
| DemoStore.AppStore.UpdateQuantity | src/app.js:264-275 | the cart takes the quantity change, and the store stays well formed |
| DemoStore.AppStore.ClearCart | src/app.js:277-280 | the cart is empty and nothing else changes |
| DemoStore.AppStore.FilterProducts | src/app.js:283-320 | the shown list becomes the filtered catalogue and nothing else changes |
| DemoStore.AppStore.SetFilter | src/app.js:322-325 | one filter is replaced and the shown list refiltered |
| DemoStore.AppStore.Login | src/app.js:365-380 | a login succeeds exactly when e-mail and password are both given, and then records the user with the derived name; a failed one changes nothing |
| DemoStore.AppStore.Logout | src/app.js:382-388 | nobody is logged in and nothing else changes |
| DemoStore.AppStore.PlaceOrder | src/app.js:391-433 | when the e-mail step fails nothing changes; otherwise the cart is emptied and the last order records the order number the e-mail step generates at that time and the amount due for the old cart |
| DemoStore.AppStore.RegisterSeller | src/app.js:436-467 | a pending, unverified seller with the next id is appended and returned |
| DemoStore.RegisteredSellerFound | src/app.js:444-453 | a registered seller's id was free; afterwards it finds that seller and every other id finds what it found before |
| FormValidator.JsString | src/components.js:209-214 | a given field reads as itself and a missing one as the text `undefined` |
| FormValidator.LowerCharKeepsMarks | src/components.js:210 | lower-casing neither makes nor unmakes whitespace, `@` or `.` |
| FormValidator.PieceLower | src/components.js:210 | a piece of the e-mail pattern is one after lower-casing exactly when it was one before |
| FormValidator.SplitsAtLower | src/components.js:210 | a split of the e-mail pattern survives lower-casing in both directions |
| FormValidator.EmailIgnoresCase | src/components.js:210 | the e-mail pattern accepts the lower-cased text exactly when it accepts the text |
| FormValidator.IsEmail | src/components.js:209-211 | true exactly when the field is given and matches the shared e-mail pattern |
| FormValidator.IsPhone | src/components.js:213-215 | true exactly when the field is given with 7 to 15 characters, each a digit, `+`, `-` or whitespace |
| FormValidator.IsNotEmpty | src/components.js:217-219 | true exactly when the field is given and holds a character that is not whitespace |
| FormValidator.OrderFormErrors | src/components.js:221-238 | the errors are among the four keys, and an absent field is always reported; OrderFormErrorsMeaning gives each key's exact condition |
| FormValidator.OrderFormErrorsMeaning | src/components.js:221-238 | each error key is set exactly when its field fails its check, and the form passes exactly when all four pass |
| EmailConfig.OrderSummary | src/email-config.js:131-135 | one summary line per cart line, in cart order |
| EmailConfig.SummaryLine | src/email-config.js:131-135 | a summary line begins with the product name; SummaryLineReadable shows that the rest reads back as the quantity and the line amount |
| EmailConfig.SummaryLineReadable | src/email-config.js:133 | a line is `name (xQ) ₹A`: the name, ` (x`, digits that read back as the quantity (a minus sign first when it is negative), `) ₹`, and digits that read back as price times quantity |
| EmailConfig.SummaryAfterAdd | src/email-config.js:131-135 | adding a new product adds one summary line at the end |
| EmailConfig.CalculateOrderTotals | src/email-config.js:137-145 | the subtotal is the cart total, shipping defaults to 50 and discount to 0, and the total is subtotal plus shipping minus discount |
| EmailConfig.TotalsAgreeWithStore | src/email-config.js:137-145 | with the store's shipping and discount the total is the amount the store charges; with the defaults it is the cart total plus 50 |
| EmailConfig.JoinLines | src/email-config.js:50 | no items join to the empty text |
| EmailConfig.LinesRecoverable | src/email-config.js:50 | items free of line breaks can be split back out from the joined text |
| EmailConfig.OrElse | src/email-config.js:46-61 | a truthy field is kept and a falsy one replaced by its default |
| EmailConfig.ShownOr | src/email-config.js:52-53 | a non-zero amount is kept and zero replaced by its default text |
| EmailConfig.Formatted | src/email-config.js:41-62 | the id is `ORD` and the last six digits of the clock; a truthy name, address, payment method or notes is kept and a falsy one becomes `Guest`, `Not provided`, `COD` or empty; a shipping of 0 is shown as `₹50` and a discount of 0 as `₹0`, any other amount as itself; e-mail, phone, subtotal and total pass through; the items are joined by line breaks, so lines without one split back |
| EmailConfig.StoreOrderData | src/app.js:397-409 | the data the demo store submits carries the cart's summary and the amount it charges |
| EmailConfig.PlacedOrderEmail | src/email-config.js:41-62 | an order the demo store places has a 9-character id, its items readable line by line, the amount charged, shipping 50, the discount as a number or the zero label, and the name and payment defaults |
| FormHandlers.Piece | src/form-handlers.js:40-42 | the k-th piece, or the empty text past the end |
| FormHandlers.SplitAddress | src/form-handlers.js:38-43 | the street is the address up to its first comma, the comma itself not included; an address without a comma is all street; no part holds a comma |
| FormHandlers.SplitAddressPieces | src/form-handlers.js:38-43 | for any number of comma-free pieces joined by commas, the street is the first, city, state and postal code are the second to fourth or empty when missing, and any further pieces are dropped |
| FormHandlers.SplitAddressRoundTrip | src/form-handlers.js:38-43 | four comma-free parts joined by commas split back into the same parts |
| FormHandlers.ServerAddress | src/form-handlers.js:38-43 | the four parts are sent as the route's address fields |
| FormHandlers.ServerAddressCheck | src/form-handlers.js:38-43 | the order route accepts the split address exactly when street and city are non-empty, so an address typed without a comma is refused |
| FormHandlers.PayloadItems | src/form-handlers.js:30-33 | one item per cart line with its product id and quantity |
| FormHandlers.CheckoutRequest | src/form-handlers.js:22-48 | a request is sent exactly when the form validator finds no error, with the cart's items, the split address and the payment method and notes |
| FormHandlers.NextStep | src/form-handlers.js:51-121 | cash on delivery clears the cart at once; anything else opens the payment window for the total in paise, in INR |
| FormHandlers.PaymentAmountMatchesGateway | src/form-handlers.js:115-121 | the payment window asks for the amount and currency of the gateway order the server creates |
| FormHandlers.SellerApplicationGuard | src/form-handlers.js:86-90 | the application proceeds exactly when name, description and e-mail are all given |
| FormHandlers.OtpRequestGuard | src/form-handlers.js:211-214 | the request proceeds exactly when an identifier is given |
| FormHandlers.OtpVerifyGuard | src/form-handlers.js:233-236 | verification proceeds exactly when a code is given |
| FormHandlers.SetKeyGuard | src/form-handlers.js:256-263 | setting the key proceeds exactly when the key is given and equals its confirmation; each refusal has its message |
| FormHandlers.KeyLoginGuard | src/form-handlers.js:283-286 | the login proceeds exactly when identifier and key are both given |
| Widgets.FormEmail | public/components.js:203-206 | the form's e-mail check accepts exactly what the route validator accepts |
| Widgets.FormPhone | public/components.js:208-211 | true exactly when the text has 10 to 15 digits, whatever else it holds; an accepted text is at least 10 characters |
| Widgets.FormName | public/components.js:213-215 | true exactly when a name is given that trims to at least 3 characters |
| Widgets.FormAddress | public/components.js:217-219 | true exactly when an address is given that trims to at least 10 characters |
| Widgets.PhoneChecksDisagree | public/components.js:208-211 | the form's phone check and the route's disagree both ways: 7 to 9 digits pass only the route's, and 10 to 15 digits after a `(` pass only the form's |
| Widgets.SlicePos | public/components.js:346 | a slice position is clamped to the length, counting from the end when negative |
| Widgets.JsSlice | public/components.js:346 | a slice between non-negative bounds is the sub-sequence between the bounds clamped to the length, and up to 0 it is empty |
| Widgets.PageCount | public/components.js:341 | the page count is the least number of pages of the page size holding every item |
| Widgets.Paginate | public/components.js:340-353 | the current page defaults to 1; the counts are the item count and the page count; there is a next page exactly when the page is below the count and a previous one exactly when it is above 1 |
| Widgets.PageData | public/components.js:342-346 | page k from 1 holds the items between (k - 1) and k pages, clamped to the end; page 0 holds nothing; no page is page 1 |
| Widgets.PageSizes | public/components.js:340-353 | pages before the last are full, the last holds 1 to a page of items, and pages past it are empty |
| Widgets.PagesUpToPrefix | public/components.js:342-346 | the first k pages together are the first k pages' worth of items |
| Widgets.PagesPartition | public/components.js:340-353 | all the pages in order give back the items |
| Widgets.FilterByMultipleFields | public/components.js:400-410 | without a search text every item is kept; with one, the items some field of which holds the lower-cased text, in order |
| Widgets.ToLowerIdempotent | public/components.js:403 | lower-casing twice is lower-casing once |
| Widgets.FilterMeaning | public/components.js:400-410 | an item is kept exactly when some listed field's text holds the term, the term's case does not matter, and no fields keep nothing |
| Widgets.KeepNone | public/components.js:404-409 | a test nothing passes keeps nothing |
| Widgets.NewNotification | public/components.js:420-438 | each option not given takes its default: an id from the clock, `Notification`, an empty message, `info`, 5000 |
| Widgets.Dismissed | public/components.js:449-451 | every remaining notification has another id and was there before, and every one with another id remains |
| Widgets.DismissUndoesAdd | public/components.js:440-451 | removing a notification with a new id just added gives the list back |
| Widgets.NotificationCenter.constructor | public/components.js:418 | the center starts with no notification |
| Widgets.NotificationCenter.Add | public/components.js:420-447 | the new notification is appended and its id returned |
| Widgets.NotificationCenter.Remove | public/components.js:449-451 | the list loses the notifications with that id |
| Widgets.NotificationCenter.GetAll | public/components.js:453-455 | the list as it is |
| Widgets.NotificationCenter.Clear | public/components.js:457-459 | the list is empty |
| Widgets.JsRem | public/components.js:556-565 | JavaScript's `%`: the remainder of a non-negative number, and a remainder between -n and 0 for a negative one |
| Widgets.RemBelowTwice | public/components.js:556-565 | below n the remainder is the number itself, and below twice n it is the number less n |
| Widgets.NextSlide | public/components.js:552-559 | from a shown slide or none (-1) the next slide is a slide; it is the following one, or the first after the last |
| Widgets.PrevSlide | public/components.js:561-568 | from a shown slide the previous slide is a slide; it is the one before, or the last before the first |
| Widgets.SlidesWrap | public/components.js:552-568 | next and previous stay within the slides and undo each other; the last slide is followed by the first, the first preceded by the last, and a missing current slide (-1) is followed by the first |
| Widgets.Clicked | public/components.js:638-644 | the clicked column becomes the sort column; a second click on it flips the direction and a new column sorts ascending |
| Widgets.ClickTwice | public/components.js:638-644 | clicking the sort column twice restores the state, and clicking a new column twice sorts it descending |
| Widgets.TableSort.constructor | public/components.js:595 | no sort column, ascending |
| Widgets.TableSort.SortTable | public/components.js:638-644 | the state becomes the clicked state |
| Widgets.ExpiryFor | public/components.js:669 | no expiry exactly when no minutes or 0 are given; otherwise the time plus the minutes in milliseconds |
| Widgets.Lookup | public/components.js:674-685 | a value is found exactly when it is stored and not expired |
| Widgets.Live | public/components.js:697-706 | the records kept are exactly the stored ones not expired |
| Widgets.LookupAfterSet | public/components.js:665-685 | a value set without expiry is found; one set with an expiry is found up to it and not after; other keys are unaffected |
| Widgets.StorageManager.constructor | public/components.js:664 | no record |
| Widgets.StorageManager.Set | public/components.js:665-672 | the key is stored with the value, the time and its expiry |
| Widgets.StorageManager.Get | public/components.js:674-685 | the lookup's answer; an expired record is removed, and otherwise nothing changes |
| Widgets.StorageManager.Remove | public/components.js:687-689 | the key is gone and nothing else changes |
| Widgets.StorageManager.Clear | public/components.js:691-695 | every record is gone |
| Widgets.StorageManager.GetAll | public/components.js:697-706 | every key maps to its lookup's answer, and the expired records are removed |
| Widgets.Handlers | public/components.js:730 | an event nobody registered has no handlers |
| Widgets.Registered | public/components.js:716-721 | the callback is appended to the event's handlers and no other event's handlers change |
| Widgets.Unregistered | public/components.js:723-727 | the event's handlers lose exactly that callback, and no other event's handlers change |
| Widgets.OffUndoesOn | public/components.js:716-727 | on a registered event, removing a callback just added gives the handlers back |
| Widgets.KeptWithout | public/components.js:725 | filtering out a callback just appended gives the list back |
| Widgets.EmitInOrder | public/components.js:716-733 | handlers run in the order they were registered |
| Widgets.EventBus.constructor | public/components.js:714 | no event |
| Widgets.EventBus.On | public/components.js:716-721 | the handlers become the registered ones |
| Widgets.EventBus.Off | public/components.js:723-727 | the handlers become the unregistered ones |
| Widgets.EventBus.Emit | public/components.js:729-733 | the event's handlers run once each, in order |
| Widgets.EventBus.Clear | public/components.js:735-741 | a named event loses its handlers; with no name every event does |
| Strings.Trim | public/app.js:494-499 | `trim()` gives the text between some all-whitespace start and some all-whitespace end, and that text is empty exactly when the text is all whitespace and otherwise starts and ends with a non-space, so the start and the end are exactly the leading and trailing whitespace |
| Strings.TrimIdempotent | public/app.js:494-499 | trimming twice is trimming once |
| Strings.Contains | public/app.js:317-319 | `includes` holds exactly when the text occurs at some index |
| Strings.Split | src/form-handlers.js:39-42 | `split` gives one more piece than there are separators, none holding a separator |
| Strings.JoinSplit | src/form-handlers.js:39-42 | joining the pieces again gives back the text |
| Strings.SplitJoin | src/email-config.js:50 | parts free of the separator, joined and split again, are the parts |
| Strings.Digits | public/app.js:486 | dropping the non-digits leaves only digits, no more than the text holds, and changes an all-digit text not at all |
| Strings.DigitsAppend | public/app.js:486 | dropping the non-digits works piece by piece, so the digits keep their order |
| Strings.DigitsKeepsEveryDigit | public/app.js:486 | every digit of the text stays, as often as it occurs; with DigitsAppend, which keeps the order, this fixes the result |
| Strings.LastChars | src/email-config.js:41 | `slice(-k)` keeps the last k characters, or all of a shorter text |
| Strings.ParseNatToString | src/email-config.js:133 | a rendered number reads back as itself |
| Sorting.SortBy | public/app.js:324-341 | the numeric-comparator sort orders by its key and keeps the same elements as often as before |
| Sorting.SortByStable | public/app.js:324-341 | elements with equal keys keep their original order |
| Sorting.Keep | public/app.js:310 | `filter` keeps exactly the elements passing the test, in order, and all of them when every one passes |
| Sorting.KeepIn | public/app.js:310 | an element is kept exactly when it is present and passes the test |
| Sorting.KeepAppend | public/app.js:310 | filtering works piece by piece on a concatenation |

## Left out

- The OTP and safe-key login flow. The client's auth handlers call `startOtpFlow`, `verifyOtpCode`, `setSafeKey`, `loginWithKey` and `extendSession`, but `src/app.js` defines none of them and no server route implements them. `server/models/OtpToken.js` is a schema only. The model keeps the handlers' local input guards (`FormHandlers.*Guard`) and nothing after them.
- Hashing, token signing, HMAC, the Razorpay SDK, e-mail delivery and the clock. Each is a function or value parameter: `hash`, `sign`, `verify`, `hmac`, e-mail results, `now`. The model proves how the routes use them, not the algorithms themselves.
- Mongoose: queries, populate, save and `runValidators` are modelled on maps with the semantics the routes rely on. Error paths other than a missing record (database failures) are left out.
- The remaining routes are plain lookups: GET /api/orders (the caller's orders sorted by creation time), GET /api/products/:id and GET /api/sellers/:id/products.
- Concurrency. Two order requests can both pass the stock check before either saves. Every route runs atomically here.
- Express plumbing, CORS, rate limiting and the server start-up are not part of this model. Neither are the network clients and local-storage fallbacks of the storefronts.
- DOM and UI work: toasts, modals, loading overlays, skeletons, the pagination markup, the carousel and table rendering, and form field highlighting.
- Timers: notification auto-dismiss, debounce and autoplay.
- The data table's row sort. Only its column and direction toggle is modelled (`Widgets.Clicked`).
- Floating-point arithmetic. Ratings are integer hundredths, so the rating sorts compare those. `toLocaleString` formatting and the e-mail timestamp are left out.
- Notification `actions` are not stored, since they hold callbacks. Neither are the avatar and location fields of the demo sellers.
- The demo store's local-storage load and save are left out. At start-up the store holds the seeded catalogue and sellers.
- `StorageManager` keeps only its own `app_` keys. Other local-storage keys are outside this model; `clear` leaves them alone in the source.
- `Widgets.EventBus`: an event name that is an inherited key of a JavaScript object, such as `constructor`, makes `on` throw in the source. The model treats every name as a fresh key.
- `Widgets.Paginate`: requires a positive page size. With 0 the source divides by zero and returns `Infinity` pages.
- `Widgets.NextSlide` and `Widgets.PrevSlide` require at least one slide. With none the source computes `NaN`.
- Case folding is ASCII only: `toLowerCase` here maps `A`-`Z` and leaves every other character alone, where JavaScript applies the full Unicode mapping (the Kelvin sign becomes `k`, for instance). A string is a sequence of characters, so its length counts characters rather than UTF-16 code units; a name of two emoji has length 2 here and 4 in the source.
- AuthRoutes.Register: its 500 reply carries `User validation failed`, the start of the message Mongoose raises; the field-by-field details Mongoose appends are not modelled.
- ProductRoutes.CreateProductCheck: a request field is `None` both when it is absent and when it is sent as JSON `null`. The source refuses only an absent stock (`stock === undefined`), so `"stock": null` passes that check and reaches `Product.create`; the model refuses it with 400.
- ProductRoutes.ApplyPatch: for the same reason, a whitelisted field sent as `null` passes the source's `!== undefined` test and is written; the model keeps the stored value.
- UserRoutes.ApplyProfile: a profile field sent as `null` is passed to `findByIdAndUpdate` in the source and written; the model keeps the stored value.
- UserRoutes.UpdateProfile: `{"name": null}` fails the schema's required validator in the source, which answers 500; the model reads it as an absent name and answers 200 with the name unchanged.
- ProductRoutes.Arranged: the database does not fix the order of products with equal sort keys. The model keeps the order they were found in.
- The product search text is used as a regular expression in the source. It is modelled as a case-insensitive substring match of name or description.

## Findings

| source | as written | input that shows it | evidently intended | confidence | as-written member | corrected member |
|---|---|---|---|---|---|---|
| server/routes/orders.js:175 | the admin bypass reads `req.user.role`, which `verifyToken` never sets | an admin asking for another customer's order gets 403 | admins may read every order | not executed | OrderRoutes.AdminRefusedOthersOrder | OrderRoutes.GetOrder |
| server/routes/sellers.js:90-92 | the projection `name seller email phone` leaves out `role`, so the role check always fails | any approved seller that GET /api/sellers lists is answered 404 by GET /api/sellers/:id | a stored seller is returned | not executed | SellerRoutes.ListedSellerNotFetchable | SellerRoutes.GetSeller |
| public/app.js:421-426 | `promoCodes[code]` also finds members every object inherits | the code `constructor` is accepted and the discount and final total become `NaN` | only the table's own codes are accepted | not executed | Storefront.InheritedPromoAccepted | Storefront.AppliedPromo |
