# Barcode scanner cart, validators and error handler — a Dafny model

This project models the logic at the core of a barcode-scanning shopping
app. The app has a React Native frontend and an Express backend. Four
pieces are modelled:

- **The session cart** (`CartContext.js`). The provider holds an ordered
  list of line items and exposes three operations:
  - `addToCart` bumps an existing line, or appends a new line with quantity 1;
  - `updateQuantity` sets a line's quantity to `max(quantity + delta, 1)`;
  - `clearCart` empties the cart.
  The screens derive two totals from the cart: the item count and the price
  sum. In `cart_context.dfy`, the provider is a class whose `cart` field the
  methods reassign. Each method is specified by a pure function of the old
  cart (`Added`, `Updated`). The invariant is kept: barcodes stay unique and
  every quantity stays at least 1. The change to both totals is stated
  exactly.
- **The frontend helpers** (`helpers.js`), in `helpers.dfy`:
  - `validateBarcode`: required, trimmed length 8 to 20 UTF-16 code units, digits only;
  - `calculateCartTotal`, with its `|| 0` and `|| 1` defaults and the
    TypeError it throws on a null item;
  - `isEmpty`.
- **The backend validators** (`validation.js`). In `validation.dfy`, each
  Express middleware becomes a function from the request to a verdict: a
  400 rejection with its message, or `next()`.
- **The backend error handlers** (`errorHandler.js`). In `error_handler.dfy`,
  each handler maps an error (or an unmatched URL) to the JSON response it
  sends.

The four pieces depend on JavaScript's own coercions. `js_values.dfy` models
the ones they use:
- truthiness;
- `String.prototype.trim`, over the ECMA-262 whitespace set;
- the ToNumber conversion that `*` applies;
- `parseInt` with no radix, including its `0x` prefix (section 19.2.5 of ECMA-262).

Behaviours of the code that the contracts make explicit:
- `validateProduct` reports a price of `0` as missing, not as non-positive.
  The same holds for an empty barcode or name.
- `validateCartItem` lets a quantity of `0` or `NaN` through, because such a
  quantity is falsy.
- `validateId` accepts an id when, after leading whitespace and one optional
  sign, it starts with a decimal digit, or with a `0x`/`0X` prefix followed
  by a hexadecimal digit. For example, `"12abc"`, `"-3"` and `"0x1f"` pass,
  but `"0x"` and `"-0xg"` do not.
- `calculateCartTotal` counts a zero or missing quantity as one unit. On
  carts built by the provider, it equals the cart screen's total price.

## Model

| member | source | states |
|---|---|---|
| CartContext.CartProvider.constructor | CartContext.js:6 | the cart starts empty, so it holds the invariant and both totals are 0 |
| CartContext.Find | CartContext.js:10 | `find` returns an item exactly when some item holds the barcode, and the item it returns holds that barcode |
| CartContext.FindUnique | CartContext.js:10 | with unique barcodes, `find` returns the one item holding the barcode |
| CartContext.MapMatching | CartContext.js:12-16 | the mapped cart has the same length; each item holding the barcode gets the new quantity, and every other item is unchanged |
| CartContext.Added | CartContext.js:8-19 | for an unknown barcode, the cart gains a new line with quantity 1 at the end; otherwise the matching lines gain one unit and everything else is kept |
| CartContext.AddedPresent | CartContext.js:10-16 | with unique barcodes, adding a product already present changes exactly its own line, by one unit |
| CartContext.AddedKeepsUnique | CartContext.js:10-18 | addToCart never creates a second line for a barcode |
| CartContext.AddedKeepsPositive | CartContext.js:14-18 | addToCart keeps every quantity at least 1 |
| CartContext.TotalsSetQuantity | barcode-frontend/src/screens/CartScreen.js:31-37 | setting one line's quantity moves the item count by the change, and the price sum by the line's price times the change |
| CartContext.AddedTotalsAt | CartContext.js:10-16 | adding a product already in the cart raises the item count by 1 and the price sum by that line's price |
| CartContext.AddedTotals | CartContext.js:8-19 | addToCart raises the item count by 1 and the price sum by the line's captured unit price, or by the new product's price |
| CartContext.CartProvider.AddToCart | CartContext.js:8-20 | the new cart is `Added(old cart, product)`; the invariant is kept; the totals grow by one unit and its price |
| CartContext.Clamp | CartContext.js:25 | `Math.max(q + delta, 1)` is at least 1 and at least `q + delta`, and it is one of the two |
| CartContext.Updated | CartContext.js:21-28 | same length and same barcode, name and price everywhere; matching lines get the clamped quantity and the others keep theirs |
| CartContext.UpdatedAbsent | CartContext.js:21-28 | updateQuantity on an unknown barcode leaves the cart identical |
| CartContext.UpdatedPresent | CartContext.js:23-26 | with unique barcodes, updateQuantity changes exactly the matching line |
| CartContext.UpdatedKeepsPositive | CartContext.js:25 | updateQuantity never drives a quantity below 1 |
| CartContext.UpdatedKeepsUnique | CartContext.js:23-26 | updateQuantity keeps the barcodes, so it keeps them unique |
| CartContext.UpdatedTotals | CartContext.js:21-28 | the item count moves by the clamped quantity change, and the price sum by the line price times that change |
| CartContext.CartProvider.UpdateQuantity | CartContext.js:21-29 | the new cart is `Updated(old cart, barcode, delta)`; an unknown barcode is a no-op; the invariant is kept; the totals move as in UpdatedTotals |
| CartContext.CartProvider.ClearCart | CartContext.js:31-33 | the cart is empty, valid and totals 0, from any state, so clearing twice is the same as once |
| CartContext.TotalsAppend | barcode-frontend/src/screens/CartScreen.js:31-37 | appending a line adds its quantity to the item count and price × quantity to the price sum |
| CartContext.TotalsReplaceAt | barcode-frontend/src/screens/CartScreen.js:31-37 | replacing one line changes each total by that line's difference alone |
| CartContext.ItemCount | barcode-frontend/src/screens/HomeScreen.js:9-11 | the screens' item count; when every quantity is at least 1, it is at least the number of lines |
| CartContext.PriceSum | barcode-frontend/src/screens/HomeScreen.js:13-15 | the screens' total price; never negative when prices are non-negative and quantities positive |
| CartContext.CartProvider.TotalItems | barcode-frontend/src/screens/CartScreen.js:35-37 | getTotalItems over the provider's cart; on a valid cart it is at least the number of lines |
| CartContext.CartProvider.TotalPrice | barcode-frontend/src/screens/CartScreen.js:31-33 | getTotalPrice over the provider's cart; on a valid cart with non-negative prices it is never negative |
| Helpers.ValidateBarcode | barcode-frontend/src/utils/helpers.js:12-39 | valid exactly on strings that trim to 8–20 ASCII digits; otherwise the first failing check (required, too short, too long, not numeric) chooses the message |
| Helpers.ValidateBarcodePadded | barcode-frontend/src/utils/helpers.js:17 | surrounding whitespace never changes the verdict, and around a non-empty string it does not change the message either |
| Helpers.DigitsLength | barcode-frontend/src/utils/helpers.js:19-31 | for a string of digits, `.length` in UTF-16 code units equals its number of characters |
| Helpers.WellFormedBarcodeDigits | barcode-frontend/src/utils/helpers.js:19-36 | a barcode is accepted exactly when its trimmed text is 8 to 20 characters, all decimal digits: for such text code units and characters agree |
| Helpers.AstralLength | barcode-frontend/src/utils/helpers.js:19 | a string made only of characters outside the Basic Multilingual Plane is twice as long in UTF-16 code units as in characters |
| Helpers.ValidateBarcodeAstral | barcode-frontend/src/utils/helpers.js:19-36 | 4 to 10 characters outside the Basic Multilingual Plane pass both length checks and are reported as not numeric; 11 or more are reported as too long |
| Helpers.ValidateBarcodeBlank | barcode-frontend/src/utils/helpers.js:13-24 | a non-empty whitespace-only barcode passes the presence check and is reported as too short |
| Helpers.CalculateCartTotal | barcode-frontend/src/utils/helpers.js:42-51 | a non-array gives 0; on any array, including an empty one, the result is the left-to-right fold of the per-item totals from 0, so the early return for `[]` agrees with the fold |
| Helpers.ItemTotal | barcode-frontend/src/utils/helpers.js:48 | reading `price` and `quantity` throws a TypeError exactly when the item is null or undefined |
| Helpers.Reduce | barcode-frontend/src/utils/helpers.js:47-50 | the fold throws exactly when the callback throws on some item |
| Helpers.ItemValueTotal | barcode-frontend/src/utils/helpers.js:48 | a cart line is charged price × quantity, with a zero quantity counted as 1 |
| Helpers.ItemTotalCharges | barcode-frontend/src/utils/helpers.js:48 | the per-item callback charges every cart line that way |
| Helpers.ItemTotalThrows | barcode-frontend/src/utils/helpers.js:48 | the per-item callback throws a TypeError exactly on null and undefined items |
| Helpers.ReduceOfCart | barcode-frontend/src/utils/helpers.js:47-50 | folding such a callback over a cart's items yields the charged total |
| Helpers.CalculateCartTotalOfCart | barcode-frontend/src/utils/helpers.js:42-51 | calculateCartTotal of a cart returns Σ price × charged quantity |
| Helpers.ChargedTotalIsPriceSum | barcode-frontend/src/utils/helpers.js:48 | when no quantity is below 1, the charged total equals the screens' price sum |
| Helpers.CalculateCartTotalIsTotalPrice | barcode-frontend/src/utils/helpers.js:42-51 | on a cart that keeps its invariant, calculateCartTotal equals the cart screen's total price |
| Helpers.ReduceThrowsIff | barcode-frontend/src/utils/helpers.js:47-50 | the fold throws exactly when some item is null or undefined |
| Helpers.CalculateCartTotalThrowsIff | barcode-frontend/src/utils/helpers.js:42-51 | calculateCartTotal throws exactly on an array holding a null or undefined item; non-arrays and empty arrays give 0 |
| Helpers.MissingQuantityCountsOnce | barcode-frontend/src/utils/helpers.js:48 | an item with a price and no quantity is charged its price once |
| Helpers.FalsyPriceChargesZero | barcode-frontend/src/utils/helpers.js:48 | an item whose price is missing or falsy is charged 0 for any numeric quantity |
| Helpers.IsEmpty | barcode-frontend/src/utils/helpers.js:54-60 | null and undefined are empty; a string is empty iff blank, an array iff it has no elements, an object iff it has no keys; numbers and booleans are never empty |
| JsValues.Truthy | barcode-backend/src/middleware/validation.js:7 | a truthy value is never null or undefined, and every array and object is truthy, even an empty one |
| JsValues.ToNumber | barcode-frontend/src/utils/helpers.js:48 | every falsy value other than undefined and NaN converts to 0; a one-element array of a string converts as that string |
| JsValues.Utf16Length | barcode-frontend/src/utils/helpers.js:19 | `.length` counts between one and two units per character, and exactly one per character when all lie in the Basic Multilingual Plane |
| JsValues.ParseInt | barcode-backend/src/middleware/validation.js:63 | every number parseInt returns is an integer, and it is negative only when the text after the whitespace starts with `-` |
| JsValues.ParseMagnitude | barcode-backend/src/middleware/validation.js:63 | the unsigned part parseInt reads is a non-negative integer |
| JsValues.Trim | barcode-frontend/src/utils/helpers.js:17 | trim never lengthens a string, and a non-empty result starts and ends with non-whitespace |
| JsValues.TrimStart | barcode-backend/src/middleware/validation.js:63 | the whitespace parseInt skips: the rest is a suffix, the dropped prefix is blank, and the rest starts with non-whitespace |
| JsValues.TrimEnd | barcode-frontend/src/utils/helpers.js:17 | the kept part is a prefix, the dropped suffix is blank, and the kept part ends with non-whitespace |
| JsValues.TrimEmptyIffBlank | barcode-backend/src/middleware/validation.js:21 | `s.trim().length === 0` exactly when every character of `s` is whitespace |
| JsValues.TrimPadded | barcode-frontend/src/utils/helpers.js:17 | trimming ignores any blank padding on either side |
| JsValues.ParseIntNaNIff | barcode-backend/src/middleware/validation.js:63 | parseInt is NaN exactly when no digit follows the whitespace and sign: after `0x`, a hexadecimal digit, otherwise a decimal one |
| JsValues.ParseMagnitudeOfDigits | barcode-backend/src/middleware/validation.js:63 | a non-empty string of decimal digits reads as its decimal value |
| JsValues.ParseIntOfDigits | barcode-backend/src/middleware/validation.js:63 | parseInt of a non-empty string of decimal digits is its decimal value |
| JsValues.ParseIntDecimalString | barcode-backend/src/middleware/validation.js:63 | parseInt reads back the decimal string of every natural number |
| Validation.NotNonBlankString | barcode-backend/src/middleware/validation.js:21 | the string test is true exactly for non-strings and blank strings |
| Validation.ValidateProduct | barcode-backend/src/middleware/validation.js:4-36 | next() exactly when barcode and name are non-blank strings and price is a positive number; otherwise 400, with each message exactly under the guard that picks it |
| Validation.ZeroPriceIsMissing | barcode-backend/src/middleware/validation.js:7-12 | a price of 0 is reported as missing |
| Validation.BlankBarcodeReported | barcode-backend/src/middleware/validation.js:21-26 | a whitespace-only barcode passes the presence check and is reported by the string check |
| Validation.ValidateCartItem | barcode-backend/src/middleware/validation.js:39-57 | next() exactly when both ids are truthy and the quantity is falsy or a positive number; each 400 message exactly under its guard |
| Validation.AbsentQuantityPasses | barcode-backend/src/middleware/validation.js:49 | a missing, zero or NaN quantity passes once both ids are present |
| Validation.ValidateId | barcode-backend/src/middleware/validation.js:60-71 | next() exactly when the id is present, non-empty and parseInt of it is not NaN; otherwise 400 "Valid ID is required" |
| Validation.ValidateIdDigits | barcode-backend/src/middleware/validation.js:63 | validateId accepts exactly the ids with a digit after the whitespace, the sign and any `0x` prefix |
| Validation.DecimalIdPasses | barcode-backend/src/middleware/validation.js:60-71 | every id written as a decimal natural number passes |
| Validation.ValidateSearchQuery | barcode-backend/src/middleware/validation.js:74-85 | next() exactly when `q` is a non-blank string; otherwise 400 "Search query is required" |
| ErrorHandler.HandleError | barcode-backend/src/middleware/errorHandler.js:2-37 | status is the name's listed status (400, 401, 403, 404, 409) or else 500; the message is fixed for 401/403/404, echoed for 400/409, and for 500 echoed when non-empty, else "Internal Server Error"; success is false and statusCode repeats the status |
| ErrorHandler.StatusIdentifiesName | barcode-backend/src/middleware/errorHandler.js:10-24 | each status other than 500 is produced by exactly one error name |
| ErrorHandler.MessageOnlyEchoed | barcode-backend/src/middleware/errorHandler.js:10-27 | the status depends on the name alone, and for the fixed-message names so does the whole response |
| ErrorHandler.HandleNotFound | barcode-backend/src/middleware/errorHandler.js:40-49 | 404, success false, and a message "Route " + url + " not found" |
| ErrorHandler.NotFoundNamesRoute | barcode-backend/src/middleware/errorHandler.js:44 | the requested URL is recovered from the not-found message |

## Left out

- The screens, the API client, the backend controllers, the models, the
  database and the app set-up. They are callers of the core or I/O. The
  screens' two totals are modelled as `ItemCount` and `PriceSum`.
- React's state machinery (`createContext`, `useState`, re-rendering) and
  `useCart`. The provider is a class whose methods replace the cart; each
  state update is one method call.
- The frontend screens import `src/contexts/CartContext`, which is not part
  of this model. The provider modelled is the top-level `CartContext.js`.
- Floating point. JavaScript numbers are exact reals or NaN: rounding and the
  two infinities are not modelled. Cart prices and quantities are integers.
- JsValues.ToNumber: among string literals, only an optionally signed run of
  decimal digits, or a blank string, converts. Every other numeric literal
  (decimals, exponents, `0x`, `Infinity`) reads as NaN here.
- Strings are sequences of code points, not UTF-16 code units. `.length` is
  modelled in code units (`Utf16Length`). Trimming and character tests work
  on code points. They agree with JavaScript because whitespace and digits
  lie in the Basic Multilingual Plane.
- Product fields beyond barcode, name and price: `{ ...product, quantity: 1 }`
  (CartContext.js:18) keeps them all; no modelled operation reads them.
- The `quantity ?? 1` default in `updateQuantity`. Every cart line is created
  by `addToCart` with a quantity, so the default cannot be reached.
- Thrown values that are not `Error` objects. The handler reads `name` and
  `message`, modelled as strings.
- `console.error` logging, the response transport, and the clock. Each
  response's timestamp is a parameter.
- `formatPrice`: outside the modelled core.
