# FastBite ordering logic in Dafny

FastBite is a React Native food-delivery storefront. Almost all of it is
screens and styles; this project models the three pieces of sequential logic
embedded in its screens:

- **Product detail** (`pages/ProductDetail.tsx`): the lookup of the selected
  dish by id in the fetched dish list, the quantity selector (starts at 1,
  increase adds 1, decrease is refused at 1), the line total (unit price ×
  quantity) and the request handed to the order form (the dish plus
  `quantity` and `totalPrice`, typed `'product'`). The screen is the class
  `ProductDetail.ProductDetailScreen`; the pricing and lookup are functions.
- **Order form** (`pages/OrderForm.tsx`): the form state (delivery address,
  payment method, notes) as the class `OrderForm.OrderFormScreen` with one
  method per setter; the item-price selection with its fallbacks, the fixed
  delivery fee of 5.00 and the order total; the payment label mapping; and
  the submit handler, which rejects an address that is blank after `trim()`
  and otherwise produces the confirmation text.
- **Login** (`pages/Login.tsx`): `handleLogin` as a pure function of the
  typed email, the typed password and the outcome of the users fetch. The
  email regular expression `^[^@]+@[^@]+\.[^@]+$` is computed by splitting
  at the first '@' and proved equal to the language of the expression; then
  the 8-character password minimum; then an exact-match search of the user
  list.

Money is integer cents (`500` is R$ 5.00). Fetched lists and fetch failures,
and a resolved street, are parameters. Alerts and navigation are returned
values (`OrderForm.SubmitResult`, `Login.LoginOutcome`,
`Catalog.OrderRequest`).

Modules: `Wrappers` (Option, fetch outcome), `ArrayFind`
(`Array.prototype.find`), `JsString` (`String.prototype.trim`, substring
occurrence), `Catalog` (the dish record and the order form's route
parameters), `ProductDetail`, `OrderForm`, `Login`.

## Model

| member | source | states |
|---|---|---|
| `ArrayFind.Find` | pages/ProductDetail.tsx:79 | `find` yields nothing exactly when no element satisfies the predicate, and otherwise the element at the first position that does |
| `JsString.Trim` | pages/OrderForm.tsx:87 | `trim()` is empty exactly when the string is all JavaScript whitespace; a non-empty result neither starts nor ends with whitespace |
| `ProductDetail.LookupDish` | pages/ProductDetail.tsx:79 | the loaded product is the first dish whose id equals the route's `productId`; none exactly when no dish has that id |
| `ProductDetail.Step` | pages/ProductDetail.tsx:93-101 | increase adds exactly 1; decrease subtracts exactly 1 above 1 and is a no-op at 1; a quantity of at least 1 stays at least 1 |
| `ProductDetail.RunKeepsFloor` | pages/ProductDetail.tsx:32 | starting from 1 (or any quantity ≥ 1), every sequence of increase/decrease presses leaves the quantity ≥ 1 |
| `ProductDetail.IncreaseThenDecrease` | pages/ProductDetail.tsx:93-101 | increase followed by decrease restores any quantity ≥ 1; decrease at 1 leaves 1 |
| `ProductDetail.LineTotal` | pages/ProductDetail.tsx:103-105 | the line total is unit price × quantity when a product is loaded and 0 when none is |
| `ProductDetail.LineTotalStep` | pages/ProductDetail.tsx:104 | each extra unit adds exactly the unit price to the line total |
| `ProductDetail.LineTotalMonotone` | pages/ProductDetail.tsx:104 | for a non-negative price the line total is non-decreasing in the quantity |
| `ProductDetail.OrderRequestFor` | pages/ProductDetail.tsx:190-193 | the request carries the dish unchanged, `quantity`, `totalPrice` equal to the displayed line total, and type `'product'` |
| `ProductDetail.RequestPricedAtLineTotal` | pages/OrderForm.tsx:105-110 | the order form prices the product screen's request at exactly price × quantity (also when that is 0 and the `price` fallback is taken), so its total is that plus 5.00 |
| `ProductDetail.ProductDetailScreen.constructor` | pages/ProductDetail.tsx:28-32 | a new screen is loading, has no product and has quantity 1 |
| `ProductDetail.ProductDetailScreen.LoadData` | pages/ProductDetail.tsx:74-86 | a decoded list sets the product to the lookup result; a failed fetch leaves the product as it was; loading ends either way |
| `ProductDetail.ProductDetailScreen.IncreaseQuantity` | pages/ProductDetail.tsx:93-95 | the quantity becomes one more and stays ≥ 1 |
| `ProductDetail.ProductDetailScreen.DecreaseQuantity` | pages/ProductDetail.tsx:97-101 | the quantity drops by one only above 1 and stays ≥ 1 |
| `ProductDetail.ProductDetailScreen.View` | pages/ProductDetail.tsx:107-121 | loading shows the loading text; loaded without a product shows "not found" exactly then; otherwise the dish with its quantity and the line total |
| `ProductDetail.ProductDetailScreen.PlaceOrder` | pages/ProductDetail.tsx:188-193 | the order button sends the shown dish, its quantity and the shown total, and the order form prices it at that total |
| `OrderForm.ItemPrice` | pages/OrderForm.tsx:105-110 | a `'product'` item with a truthy `totalPrice` is priced at it; every other item at its `price` (0 when falsy) |
| `OrderForm.OrderTotal` | pages/OrderForm.tsx:112-120 | the total is the item price plus the 5.00 delivery fee, hence at least 5.00 for a non-negative item price |
| `OrderForm.MenuItemPricedAtUnitPrice` | pages/RestaurantDetail.tsx:140 | a dish sent from the restaurant menu without `totalPrice` is priced at its unit price, i.e. as quantity 1, and totals price + 5.00 |
| `OrderForm.PaymentLabel` | pages/OrderForm.tsx:95 | "Cartão de Crédito" exactly for `credit`, "Cartão de Débito" exactly for `debit`, "Dinheiro" for every other value |
| `OrderForm.PaymentCode` | pages/OrderForm.tsx:188-211 | each payment button stores one of `credit`, `debit`, `cash` |
| `OrderForm.PaymentChoiceLabels` | pages/OrderForm.tsx:190-210 | each button's stored value is labelled in the confirmation with that button's caption |
| `OrderForm.ConfirmationMentions` | pages/OrderForm.tsx:93-95 | the confirmation text holds the item name and the address exactly as typed (untrimmed) at fixed positions, and the payment label |
| `OrderForm.OrderFormScreen.constructor` | pages/OrderForm.tsx:23-25 | the form starts with address "", payment `credit` and notes "" |
| `OrderForm.OrderFormScreen.SetDeliveryAddress` | pages/OrderForm.tsx:174-181 | the address field takes the typed text verbatim |
| `OrderForm.OrderFormScreen.ApplyResolvedStreet` | pages/OrderForm.tsx:55-60 | a resolved location seeds the address with its street, or with "Endereço não encontrado" when the street is missing or empty |
| `OrderForm.OrderFormScreen.SelectPayment` | pages/OrderForm.tsx:188-211 | a payment button stores its code, so the stored method is always one of the three |
| `OrderForm.OrderFormScreen.SetObservations` | pages/OrderForm.tsx:218-224 | the notes change and neither the address nor the payment method does |
| `OrderForm.OrderFormScreen.HandleSubmitOrder` | pages/OrderForm.tsx:86-103 | submit is rejected with the address error exactly when the address is blank after trim; otherwise it confirms with the item name, the address as typed and the payment label |
| `Login.IsValidEmail` | pages/Login.tsx:17 | the regular-expression test, computed by splitting at the first '@'; a string shorter than five characters or starting or ending with '@' is refused; characterised fully through `Login.EmailCheckMatchesPattern` |
| `Login.HasCredentials` | pages/Login.tsx:31 | the `find` predicate: a record matches exactly when its `email` and `senha` both equal the inputs; characterised through `Login.HandleLogin` |
| `Login.AlertMessage` | pages/Login.tsx:18-39 | the alert text shown for each outcome; different outcomes get different texts |
| `OrderForm.ConfirmationText` | pages/OrderForm.tsx:95 | the confirmation template: fixed head, item name, address caption, address, payment caption, payment label; what it contains is proved by `OrderForm.ConfirmationMentions` |
| `OrderForm.DeliveryFee` | pages/OrderForm.tsx:112-114 | `getDeliveryFee`: the flat fee of 5.00, the same for every order |
| `Login.AcceptedMatchesPattern` | pages/Login.tsx:17 | every email the check accepts has the form A@B.C with non-empty, '@'-free parts |
| `Login.PatternIsAccepted` | pages/Login.tsx:17 | every string of the form A@B.C with non-empty, '@'-free parts is accepted |
| `Login.EmailCheckMatchesPattern` | pages/Login.tsx:17 | the email check accepts exactly the language of `^[^@]+@[^@]+\.[^@]+$` |
| `Login.EmailFromParts` | pages/Login.tsx:17 | `a + "@" + b + "." + c` is accepted for any non-empty, '@'-free `a`, `b`, `c` |
| `Login.AcceptedEmailShape` | pages/Login.tsx:17 | an accepted email has exactly one '@', and its domain holds a '.' that is neither its first nor its last character |
| `Login.HandleLogin` | pages/Login.tsx:16-42 | an invalid email gives the email error whatever the password; then a password under 8 characters is rejected (8 is enough); success exactly when some fetched user has both `email` and `senha` equal to the input; "incorrect" exactly when the list was fetched and none matches; a failed fetch gives the connection error and never success |
| `Login.ChecksPrecedeFetch` | pages/Login.tsx:17-31 | when the email or password check fails the outcome does not depend on the user list, so the lookup only matters once both checks pass |
| `Login.AlertsDistinguishOutcomes` | pages/Login.tsx:18-39 | the five alerts are pairwise different, so each outcome is visible to the user |

## Left out

- Network fetches and JSON decoding (`pages/ProductDetail.tsx:77-78`, `pages/Login.tsx:28-29`): the decoded list or a failure is a parameter; records are assumed well-formed.
- Location permission, GPS and reverse geocoding: only "the geocoder returned this street" is modelled, as the input of `ApplyResolvedStreet`; the header's `currentLocation` text is display-only.
- The stored user blob loaded from local storage on the order form: display-only, it affects neither pricing nor submission.
- Floating point: prices are integer cents, so `toFixed(2)`/`parseFloat` rounding and NaN truthiness are abstracted away; in particular the order form rounds the item price to two decimals before adding the fee, which integer cents make exact.
- Alerts, navigation, fonts and styles: alerts and navigation targets are returned values.
- `pages/RestaurantDetail.tsx`, `pages/Search.tsx`, `pages/Profile.tsx`, `pages/Home.tsx` and `App.tsx`: fetch, layout and navigation only; the restaurant screen's id lookup is the same `find` as `ProductDetail.LookupDish`.
- Event interleaving: `decreaseQuantity` tests the rendered `quantity` but applies `prev => prev - 1`; the model assumes each press sees the latest quantity (one render between presses).
- Login.HandleLogin: `password.length` counts UTF-16 code units in JavaScript but characters here; the two differ only for characters outside the Basic Multilingual Plane.
- The `'restaurant'` route type is declared but no screen sends it; `Catalog.ItemKind` keeps it and `OrderForm.ItemPrice` prices it by `price`.
