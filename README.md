# frdbackend core in Dafny

This project models the decision logic of the frdbackend Express/Mongoose back end:

- **Gym bookings.** Create bookings, cancel them, and produce the branch reports: members and booked slots.
- **Shop orders.** Cash on delivery, Stripe and Razorpay, including payment verification and cancellation. Orders interact with the users' carts.
- **Product catalogue.** Add, update and remove products, and build the listing query.
- **User accounts.** Registration, login with one-time passcodes (OTPs), OTP sending and verification, and the admin login.
- **Two user schemas.** Each carries its own copy of the OTP state machine.

The model's representations:

- **Collections.** Each collection is an in-memory table that the handlers update as one atomic step each:
  - bookings: a sequence, where a booking's id is its position;
  - orders: a map keyed by order id, plus the next id;
  - carts: a map from user id to cart;
  - products: a map keyed by id;
  - users: a map from email to a user object.
- **Handlers.** Each handler is a method of a store class. Its contract states every outcome, in the order the handler tests them:
  - the error returned;
  - the new contents of the table.
- **Time.** Instants are integer milliseconds.
- **Request fields.** The product fields that the handlers test for truthiness, compare strictly or pass to `Number(...)` are `JsValue`s: absent, `null`, a string, an integer or a boolean. So are the OTPs entered by users and the `success` flag of a Stripe verification. Booking fields, emails, passwords and query parameters are plain strings or optional strings, where an empty string stands for an absent field. A string is a sequence of Unicode characters; where a handler uses JavaScript's `length`, it is counted in UTF-16 code units.
- **External services become parameters.** Mail delivery, the payment gateways, image upload, `JSON.parse`, bcrypt, JWT, `validator.isEmail`, the random draw and the clock are not modelled as services. What they answer comes in as a parameter.

Modules:

| module | file | models |
|---|---|---|
| `BookingModel` | booking_model.dfy | `models/bookingModel.js`: the booking document, the date setter, the status default, required fields |
| `BookingController` | booking_controller.dfy | `controllers/bookingController.js` |
| `OrderController` | order_controller.dfy | `controllers/orderController.js` |
| `ProductController` | product_controller.dfy | `controllers/productController.js` |
| `UserController` | user_controller.dfy | `controllers/userController.js` |
| `UserModel` | user_model.dfy | `models/userModel.js`: the user document and its boolean OTP methods |
| `OrderModel` | order_model.dfy | `models/orderModel.js`, which defines a second user schema with object-returning OTP methods |
| `Otp` | otp.dfy | the code format and lifetime shared by both user schemas |
| `Query` | query.dfy | the database `find(filter)` and descending `sort` the handlers use |
| `JsValues`, `Decimal`, `Wrappers` | js_values.dfy, decimal.dfy, wrappers.dfy | JavaScript truthiness, `Number(...)` and `toString()` on integers, Option/Result |

Main results:

- **No double booking.** At most one confirmed booking exists per (gym, facility, UTC day, time slot). This is an invariant of `BookingStore`, kept by `CreateBooking` and `CancelBooking`. The schema's index does not enforce it; `SchemaAdmitsDoubleBooking` shows this.
- **Members report.** It groups the gym's bookings by email. Each entry holds the number of bookings under that email, the earliest `createdAt`, and the first booking's name and phone. Entries are sorted latest first; entries with the same first booking keep the order in which their emails first occur.
- **Slots report.** A slot appears in the booked-slots report exactly when `createBooking` would refuse it. The report fails with a server error when a booking of that day names its facility after an `Object.prototype` member, such as "constructor", which `createBooking` accepts.
- **Stripe line items.** They charge 100 × (items subtotal + delivery charge) paise.
- **Razorpay receipt.** It leads back to the order it was made for.
- **Registration with an OTP always fails.** Account creation in `registerUser` is therefore unreachable.
- **OTP lifetime.** A fresh OTP is accepted up to and including its expiry instant. A successful verification spends it.

## Model

| member | source | states |
|---|---|---|
| BookingModel.DayStart | models/bookingModel.js:11-16 | the stored date is a whole number of days and the start of the UTC day containing the given instant |
| BookingModel.DayStartUnique | models/bookingModel.js:13-15 | the day start is the only multiple of a day within the day ending at the instant |
| BookingModel.DayStartIdempotent | models/bookingModel.js:13-15 | normalising an already normalised date leaves it unchanged (the controller normalises before the setter runs again) |
| BookingModel.SameDaySameStart | models/bookingModel.js:13-15 | two instants of the same UTC day normalise to the same value |
| BookingModel.InWindowIffSameDay | controllers/bookingController.js:21-27 | an instant lies in [start, start + 86399999] exactly when its day start is `start` |
| BookingModel.SchemaValid | models/bookingModel.js:6-21 | the schema's `required` string fields (gym, facility, time slot, name, email, phone) are present and non-empty; every stored booking satisfies it (`BookingStore.Valid`) |
| BookingModel.NewBooking | models/bookingModel.js:5-26 | a new booking is confirmed by default and carries the normalised date and the given gym, facility, slot and email |
| BookingModel.SchemaAdmitsDoubleBooking | models/bookingModel.js:32 | the non-unique index admits two schema-valid confirmed bookings of one slot |
| BookingController.FindConflict | controllers/bookingController.js:33-42 | returns the first confirmed booking of the gym, facility and slot inside the day window; None exactly when there is none |
| BookingController.OccupiesIffSameSlot | controllers/bookingController.js:21-42 | the conflict query matches exactly the confirmed bookings of the same gym, facility, UTC day and slot as the booking about to be stored |
| BookingController.AppendKeepsNoDoubleBooking | controllers/bookingController.js:58-69 | appending a booking that clashes with no confirmed booking keeps at most one confirmed booking per slot |
| BookingController.CancelKeepsNoDoubleBooking | controllers/bookingController.js:236-238 | cancelling a booking cannot create a double booking |
| BookingController.CountEmail | controllers/bookingController.js:144-160 | the booking count of an email is positive exactly when some booking has that email |
| BookingController.FirstCreated | controllers/bookingController.js:151-159 | the first booking of an email is the minimum `createdAt` among its bookings and is attained |
| BookingController.FirstIndex | controllers/bookingController.js:146-153 | the entry's name and phone come from the first booking under that email |
| BookingController.IndexOfEmail | controllers/bookingController.js:145-146 | the map lookup finds the entry with that email, or reports that none exists |
| BookingController.GroupNewEmail | controllers/bookingController.js:146-153 | a booking with a new email opens an entry with count 1, and the entries stay a grouping of the bookings seen so far |
| BookingController.GroupKnownEmail | controllers/bookingController.js:154-159 | a booking with a known email increments the count and lowers `firstBooking` if earlier, keeping the grouping |
| BookingController.GroupPrefix | controllers/bookingController.js:144-161 | one step of the forEach extends the grouping from `g[..i]` to `g[..i+1]` |
| BookingController.GroupByEmail | controllers/bookingController.js:143-161 | the loop yields one entry per distinct email, each with its count, earliest `createdAt`, name and phone, in the order the emails first occur (the Map's key order) |
| BookingController.GroupedBySorted | controllers/bookingController.js:163 | sorting the entries keeps them distinct and a grouping of the same bookings |
| BookingController.GroupMembers | controllers/bookingController.js:140-163 | the members list of a gym: grouped by email and sorted by `firstBooking`, latest first, entries with equal `firstBooking` in the order their emails first occur (the stable `Array.prototype.sort` over the Map's values) |
| BookingController.OrderPrefix | controllers/bookingController.js:144-161 | one step of the forEach keeps the entries in the order their emails first occur |
| BookingController.FirstSeenSnoc | controllers/bookingController.js:144-146 | a further booking does not move the first occurrence of an email already seen |
| BookingController.OrderNew | controllers/bookingController.js:146-153 | a new email's entry goes last, after every email seen before it |
| BookingController.OrderKnown | controllers/bookingController.js:154-159 | updating a known email's entry keeps the entries' order |
| BookingController.SlotsFor | controllers/bookingController.js:199-205 | a slot is listed for a facility exactly when some queried booking has that facility and slot |
| BookingController.CollectStep | controllers/bookingController.js:200-205 | one step of the forEach keeps the per-facility arrays equal to the slots of the bookings seen so far |
| BookingController.CollectBookedSlots | controllers/bookingController.js:199-205 | fails exactly when some queried booking's facility names an inherited member of `{}` (`ObjectProtoKey`), where `push` throws; otherwise every queried facility gets a key, and each key's array is non-empty and equals `SlotsFor` of that facility |
| BookingController.ObjectProtoKey | controllers/bookingController.js:199-204 | the facility names for which `bookedSlots[facility]` on a plain `{}` is an inherited, truthy `Object.prototype` member without `push` |
| BookingController.BookedSlotsAreConflicts | controllers/bookingController.js:189-196 | a slot is reported booked exactly when `createBooking`'s conflict query would find a booking for it |
| BookingController.MissingRequired | controllers/bookingController.js:10 | the falsy-field check of `createBooking`: gym, facility, date, time slot, name, email or phone absent or empty |
| BookingController.GymBookings | controllers/bookingController.js:122 | `find({ gym })`: exactly the stored bookings of that gym, in collection order (also line 140) |
| BookingController.DayBookings | controllers/bookingController.js:189-196 | exactly the stored confirmed bookings of the gym whose date lies in the day's window |
| BookingController.UserBookings | controllers/bookingController.js:106 | `find({ userId })`: exactly the stored bookings made under that user id |
| BookingController.ResolveUserId | controllers/bookingController.js:95-104 | the user id is the body's, else the query's, else the authenticated user's; no id when none is present |
| BookingController.BookingStore.constructor | models/bookingModel.js:3-29 | the collection starts empty and free of double bookings |
| BookingController.BookingStore.CreateBooking | controllers/bookingController.js:5-77 | in order: missing fields, then an unparseable date, then a conflict (with the conflicting booking's id, date and slot), each leaving the store unchanged; otherwise exactly one confirmed booking with the normalised date is appended. The no-double-booking invariant is kept |
| BookingController.BookingStore.CancelBooking | controllers/bookingController.js:215-292 | not found, then another gym's booking, then already cancelled, each with no change; otherwise only that booking's status becomes cancelled, and a failed email still reports success |
| BookingController.BookingStore.GetBranchMembers | controllers/bookingController.js:131-169 | no gym gives an error; otherwise the members list of the gym's bookings |
| BookingController.BookingStore.GetBookedSlots | controllers/bookingController.js:172-212 | missing gym or date gives an error, an unparseable date a server error; a server error also exactly when one of the day's confirmed bookings has a facility named after an `Object.prototype` member; otherwise a key for exactly the facilities booked that day, each holding `SlotsFor` that facility over the day's confirmed bookings |
| BookingController.BookingStore.GetUserBookings | controllers/bookingController.js:92-112 | no resolvable user id gives an error; otherwise that user's bookings, latest first |
| BookingController.BookingStore.GetBranchBookings | controllers/bookingController.js:114-128 | no gym gives an error; otherwise the gym's bookings, latest first |
| Query.Filter | controllers/bookingController.js:106 | `find` returns only documents the filter accepts, and all of them |
| Query.FilterAppend | controllers/bookingController.js:106 | `find` over two runs of documents is the concatenation of `find` over each; with `FilterSingle`, the result is the accepted documents in collection order, each as often as it occurs |
| Query.FilterSingle | controllers/bookingController.js:106 | `find` keeps a single document exactly when the filter accepts it |
| Query.InsertDesc | controllers/bookingController.js:163 | inserting into a latest-first list keeps it sorted and adds exactly that element |
| Query.SortDesc | controllers/bookingController.js:106 | `.sort({ key: -1 })` returns a permutation of its input ordered by the key, largest first |
| Query.InsertKeepsDistinct | controllers/bookingController.js:163 | inserting an entry with a new email keeps the entries distinct by email |
| Query.SortKeepsDistinct | controllers/bookingController.js:163 | sorting keeps entries distinct by email |
| Query.InsertDescTies | controllers/bookingController.js:163 | inserting an entry ranked before everything already sorted keeps entries of equal key in rank order |
| Query.SortDescTies | controllers/bookingController.js:163 | the sort is stable: entries of equal key come out in their input order |
| OrderController.ClearCart | controllers/orderController.js:47 | `cartData` of that user becomes empty; the other carts are unchanged and no user is created |
| OrderController.SetPaid | controllers/orderController.js:120 | only `payment` of that order becomes true; the other orders are unchanged and no order is created |
| OrderController.ItemLines | controllers/orderController.js:77-86 | one line per item, in order, with currency "inr", the item's name, unit amount price × 100 and the item's quantity |
| OrderController.DeliveryLine | controllers/orderController.js:88-97 | the line pushed after the items: currency "inr", "Delivery Charges", 100 × the delivery charge of 10, quantity 1 |
| OrderController.Subtotal | controllers/orderController.js:76-86 | the reference cost of the items, the sum of price × quantity, against which `ChargedItems` and `StripeCharge` are proved |
| OrderController.ChargedItems | controllers/orderController.js:77-86 | the item lines charge 100 × the items' subtotal |
| OrderController.StripeCharge | controllers/orderController.js:77-97 | with the delivery line, the session charges 100 × (subtotal + 10) paise |
| OrderController.NewOrder | controllers/orderController.js:33-42 | the order document each place handler builds: the user, items, address and amount given, the payment method, unpaid, dated now, status "Order Placed" (also lines 63-72, 139-148) |
| OrderController.Receipt | controllers/orderController.js:156 | `_id.toString()`: a non-empty digit string without a leading zero |
| OrderController.ReceiptOrder | controllers/orderController.js:179 | the order a Razorpay receipt names: a digit string reads as that order id, anything else names no order; `ReceiptRoundTrip` is its round trip with `Receipt` |
| OrderController.ReceiptRoundTrip | controllers/orderController.js:156 | the receipt of a Razorpay order reads back as that order's id |
| OrderController.OrderStore.constructor | controllers/orderController.js:1-2 | no orders, with the users' carts as given |
| OrderController.OrderStore.Save | controllers/orderController.js:44-45 | a saved order gets a fresh id; nothing else changes |
| OrderController.OrderStore.PlaceOrder | controllers/orderController.js:29-55 | stores a COD order, unpaid, with status "Order Placed", under a fresh id, and empties the user's cart |
| OrderController.OrderStore.PlaceOrderStripe | controllers/orderController.js:58-112 | stores an unpaid Stripe order with status "Order Placed" before the session; lines are the items plus a delivery line of 1000 paise × 1, items + 1 long; the cart is kept |
| OrderController.OrderStore.PlaceOrderRazorpay | controllers/orderController.js:135-171 | stores an unpaid Razorpay order with status "Order Placed"; the options carry amount × 100, "INR" and a receipt naming the new order |
| OrderController.OrderStore.VerifyStripe | controllers/orderController.js:115-132 | exactly the string "true" sets `payment` and empties the cart; anything else deletes the order |
| OrderController.OrderStore.VerifyRazorpay | controllers/orderController.js:173-190 | gateway status "paid" sets `payment` on the receipt's order and empties the cart; otherwise nothing changes |
| OrderController.OrderStore.UpdateStatus | controllers/orderController.js:219-230 | sets the status to any value, unguarded, and changes no other field |
| OrderController.OrderStore.CancelOrder | controllers/orderController.js:233-284 | not found, then already "Cancelled", then "Delivered", each with no change; otherwise only the status becomes "Cancelled", and it stays so when the email fails |
| ProductController.Clamp | controllers/productController.js:65 | `Math.min(100, Math.max(0, n))` lies in [0, 100] and is the identity on that range |
| ProductController.DiscountOf | controllers/productController.js:65 | the stored discount is the clamped number, and NaN exactly when the input is not a number |
| ProductController.MissingRequired | controllers/productController.js:19 | the falsy-field check of `addProduct`: name, description, category or sub-category empty, or a falsy price |
| ProductController.ZeroPriceTextAccepted | controllers/productController.js:19-24 | a price sent as the text "0" passes the check and converts to 0, while a JSON number 0 is refused as a missing field |
| ProductController.DiscountInput | controllers/productController.js:15 | `discount = 0`: the default replaces only an absent discount |
| ProductController.DiscountDefaultsToZero | controllers/productController.js:15 | an absent discount is stored as 0 |
| ProductController.StoredDiscountInRange | controllers/productController.js:15-65 | any numeric discount input is stored within [0, 100] |
| ProductController.IsBestseller | controllers/productController.js:62 | `bestseller` is true only for the string "true" (a boolean `true` in a JSON body gives false) |
| ProductController.NullFieldsConverted | controllers/productController.js:123-129 | a JSON `null` discount passes the `!== undefined` test and is stored as 0; a `null` bestseller is stored as false |
| ProductController.UpdateObject | controllers/productController.js:120-130 | the body's fields are copied; price is converted only when truthy, discount clamped and bestseller coerced only when supplied, and images replaced only when new files exist |
| ProductController.BuildListQuery | controllers/productController.js:177-189 | the filter matches the category only when given and not "All", the sub-category only when given, and a positive discount only for onDiscount "true"; the sort has one key (discount, price, else date) with direction 1 exactly for "asc", defaulting to date descending |
| ProductController.IdText | controllers/productController.js:89 | the id field as text; a value that is not a string fails the ObjectId cast |
| ProductController.ProductStore.constructor | models/productModel.js:3-18 | no products |
| ProductController.ProductStore.AddProduct | controllers/productController.js:5-84 | missing text or falsy price, then bad sizes, then a non-numeric price or discount, each with no change; otherwise one product with bestseller iff "true" and a clamped discount is added |
| ProductController.ProductStore.UpdateProduct | controllers/productController.js:87-172 | missing id, then bad sizes, then an id that is not a castable string (server error), then an update object the casts or validators reject (server error, whether or not the product exists), then not found, each with no change; otherwise only that product is replaced by the updated one |
| ProductController.ProductStore.RemoveProduct | controllers/productController.js:212-245 | missing id, then an id that does not cast (server error), then not found, each with no change; otherwise that product is removed and returned |
| JsValues.Truthy | controllers/productController.js:19 | the falsy values of a body field: absent, `null`, the empty string, 0 and false |
| JsValues.ToNumber | controllers/productController.js:60 | `Number(...)` of a body field: absent is NaN, `null` and false are 0, true is 1, a string converts through `Decimal.ParseInteger` |
| JsValues.ZeroStringTruthy | controllers/productController.js:19-24 | the form string "0" passes the falsy check although the number 0 does not |
| JsValues.ToNumberPrinted | controllers/productController.js:60 | a number sent as its decimal text converts back to itself |
| Decimal.ParseInteger | controllers/productController.js:60 | `Number` of a string: the empty string is 0 and an optionally signed decimal integer is its value; any other string is NaN; `ParseIntegerPrinted` is its round trip with printing |
| Decimal.ParsePrinted | controllers/orderController.js:156 | the decimal text of a natural number reads back as that number |
| Decimal.ParseIntegerPrinted | controllers/productController.js:60 | `Number` on the decimal text of a natural number gives that number |
| Otp.OtpCode | models/userModel.js:65 | the code is six digits with no leading zero, and its value is 100000 + offset, within [100000, 999999] |
| Otp.Accepts | models/userModel.js:73-75 | the acceptance condition both `verifyOTP` copies share: a non-empty code and an expiry are stored, the entry is strictly equal to the code, and the expiry is not before now; `FreshCodeLifetime` and both `VerifyOTP` methods are proved against it |
| Otp.FreshCodeLifetime | models/userModel.js:65-75 | a freshly issued code is accepted exactly up to and including its expiry instant |
| UserModel.UserAccount.constructor | models/userModel.js:3-43 | the schema defaults: empty cart, not verified, no OTP |
| UserModel.UserAccount.GenerateOTP | models/userModel.js:64-69 | stores and returns the six-digit code with expiry now + 600000 ms, accepted at the expiry instant and not after; no other field changes |
| UserModel.UserAccount.VerifyOTP | models/userModel.js:72-82 | true exactly when a non-empty code and an expiry are stored, the entry is that string and the expiry has not passed; false changes nothing; true verifies the user and clears both fields, so no later verification succeeds |
| OrderModel.User.constructor | models/orderModel.js:5-27 | the schema defaults: empty cart, not verified, no OTP, no sent time |
| OrderModel.User.NotSet | models/orderModel.js:57 | the guard `!this.otp` or `!this.otpExpiry`: no code, an empty code, or no expiry |
| OrderModel.User.GenerateOTP | models/orderModel.js:46-53 | stores and returns the code with expiry now + 600000 ms and sent time now |
| OrderModel.User.VerifyOTP | models/orderModel.js:56-74 | accepts exactly what the boolean copy accepts; unset gives "OTP not set or expired" and expired "OTP has expired", both with isExpired, even for the right code; a match verifies and clears the code, a mismatch gives "Invalid OTP" and changes nothing; `otpSentAt` is never touched |
| UserController.UserStore.constructor | models/userModel.js:84 | no users, so trivially every user is stored under its own email and has its required fields |
| UserController.UserStore.LoginUser | controllers/userController.js:118-177 | unknown email, then wrong password, each before any OTP logic and with no change; without an OTP a fresh code is stored and an OTP request returned (server error when mail fails); with an OTP an invalid code is rejected with no change and a valid one verifies the user and yields a token |
| UserController.Utf16Length | controllers/userController.js:198 | `password.length`: between one and two units per character, exactly one per character when every character lies in the Basic Multilingual Plane |
| UserController.AstralPasswordLength | controllers/userController.js:198 | a password of four emoji is four characters but eight UTF-16 units, so the length check lets it through |
| UserController.UserStore.RegisterUser | controllers/userController.js:180-260 | missing fields, then invalid email, then a password under 8 UTF-16 code units (`Utf16Length`, as `password.length` counts), then an existing email; with an OTP always "Invalid OTP"; without, an OTP request (server error when mail fails); no user is ever stored |
| UserController.UserStore.SendOTP | controllers/userController.js:81-115 | absent email is a server error, an invalid one rejected; a known user gets a fresh code; an unknown email fails the save and stores nothing |
| UserController.UserStore.VerifyOtp | controllers/userController.js:44-78 | unknown email is not found; otherwise success exactly when the user's verifyOTP accepts, with its effect, and no change on failure |
| UserController.AdminLogin | controllers/userController.js:263-277 | admission is strict equality of the body's email and password with the configured ones, an absent field or unset variable being `undefined`; its property is stated by `AdminLoginNoCredentials` |
| UserController.AdminLoginNoCredentials | controllers/userController.js:267 | a body without email and password is admitted exactly when neither admin credential is configured (`undefined === undefined`) |

## Left out

- HTTP: request parsing, response bodies beyond the outcome, and status codes are not modelled. Each handler returns a `Result` whose error names the response.
- Routes, `server.js` and the middleware are not part of this model. The branch gym and the authenticated user id are parameters.
- Mail: delivery is a boolean parameter. The email texts and HTML are not modelled.
- Payment gateways: the Stripe session and the Razorpay order creation are represented only by what is sent to them. The fetched Razorpay status and receipt are parameters.
- Other external services are parameters:
  - the Cloudinary upload is represented by the returned URLs;
  - `JSON.parse` of sizes is represented by its result when it is an array;
  - the database's casts and validators on an update object are a predicate parameter, and applying the update to the stored product a function parameter;
  - `validator.isEmail` and password comparison are function parameters;
  - JWT signing is represented by the account the token is issued for.
- Clock and randomness: `Date.now()` is a parameter. The random draw of an OTP is an offset in [0, 900000).
- `UserModel.UserAccount`: `comparePassword` and the password-hashing pre-save hook are not modelled. In `models/userModel.js` they use `bcrypt` without importing it. The model does not capture the resulting `ReferenceError`, which would turn every login past the user lookup into a server error.
- Schema validators beyond presence are not modelled: the email pattern, `minlength` on the password, and the `unique` index. The `required` checks are modelled only where a handler relies on them.
- Ids: database ids are modelled as natural numbers (bookings, orders) or strings (products, users). Ids are assumed to cast to an ObjectId, except in `UpdateProduct` and `RemoveProduct`, which take the cast as a parameter `isObjectId`. Elsewhere the model does not capture the server error that an uncastable id raises:
  - `cancelBooking` (controllers/bookingController.js:221);
  - `cancelOrder` (controllers/orderController.js:238);
  - `verifyStripe` (controllers/orderController.js:120), where the cart is then not cleared;
  - `updateStatus` (controllers/orderController.js:223).
- A `findOne({ email })` with an absent email is modelled as a lookup of the given string.
- `OrderController.OrderStore`: its methods model the evident intent of the order controller, not what it does as written. `orderModel` (models/orderModel.js) is a strict user schema.
  - `new orderModel(orderData)` drops every order field. `save()` then fails the required `name`, `email` and `password` validators (models/orderModel.js:6, 9, 18).
  - So placeOrder, placeOrderStripe and placeOrderRazorpay (controllers/orderController.js:45, 75, 151) always answer `success: false`, never clear the cart and never reach a gateway.
  - The `{ payment: true }` and `{ status }` updates (controllers/orderController.js:120, 179, 223) name no path of that schema and are stripped to no-ops.
  - `findById` in cancelOrder (controllers/orderController.js:238) never finds an order.
  - The model instead keeps an order table with the fields the controller writes, and applies no validation when an order is saved.
- `JsValues.ToNumber`: only signed decimal integers convert to a number. Fractions, surrounding whitespace, hexadecimal and exponent notation are treated as NaN. Prices are whole rupees.
- `ProductController.Product`: the field `videos` (models/productModel.js:8) is not part of the product. `addProduct` leaves it at its default. `updateProduct` copies a `videos` body field into the update object like any other field (`UpdateObject` keeps it as given), and what the database then stores is left to the `applyUpdate` parameter.
- `OrderModel.User.GenerateOTP`: the two clock readings of the source are one instant `now`.
- Concurrency: handlers are sequential atomic steps. The check-then-insert race in `createBooking` and the Razorpay callback ordering are not modelled.
- Read-only handlers are not modelled: `listBookings`, `allOrders`, `userOrders`, `singleProduct`, and the product query itself in `listProducts`. `BuildListQuery` models the filter and sort that `listProducts` builds.
- `BookingController.BookingStore.GetUserBookings`, `BookingController.BookingStore.GetBranchBookings`: the database's `.sort({ createdAt: -1 })` leaves the order of equal `createdAt` values unspecified, so these contracts state only sortedness and the permutation. `SortDesc` itself is stable (`SortDescTies`), which the members report relies on.
- `OrderController.OrderStore.UpdateStatus`: an absent `status` is modelled as a string value.
- `OrderController.OrderStore.PlaceOrder`: the user id is taken as present. A `findByIdAndUpdate` for an unknown user changes no cart.
- `BookingController.BookingStore.GetBookedSlots`: how date strings are parsed is not modelled. A date is absent, unparseable, or an instant.
