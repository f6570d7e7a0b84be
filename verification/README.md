# Cart pricing and form validation of the e-shop front end

This project models, in Dafny, the self-contained logic embedded in three pages
of the shop's React front end:

- **The cart page** (`frontend/src/pages/CartPage.jsx`). It holds the guarded
  quantity step behind the `−`/`+` buttons and the order summary. The summary
  gives the subtotal, shipping (free strictly above 1000, otherwise 100), 18% tax,
  the total and the item count. The page also shows the free-shipping nudge and the
  "You May Also Like" list: catalog products not already in the cart, in catalog
  order, at most four.
- **The registration form** (`frontend/src/pages/RegisterPage.jsx`). It has the
  e-mail shape test, the name and password length rules and password confirmation.
  `validateForm` rebuilds the error map, putting "required" before the format
  message. The four change handlers each rewrite one or two keys of the map.
- **The login form** (`frontend/src/pages/LoginPage.jsx`). It uses the same
  e-mail test, the six-character password rule, its own `validateForm` and two
  change handlers.

Layout: `wrappers.dfy` (Option), `cart.dfy` (module `Cart`), `email_regex.dfy`
(module `EmailRegex`), `form_rules.dfy` (module `FormRules`, the field rules both
forms share), `register.dfy` (module `Register`), `login.dfy` (module `Login`).

Modelling choices:

- Money is Dafny `real`, so `subtotal * 0.18` is exactly 18/100 of the subtotal.
- The cart store is outside the page. The page's class `Cart.CartPage` reads the
  line items and records the actions it dispatches, in order. `UpdateQuantity`
  dispatches at most one `AddToCart` of the same item with the new quantity.
- The regular expression `^[^\s@]+@[^\s@]+\.[^\s@]+$` is a list of pattern pieces
  run by an anchored matcher (`EmailRegex.FullMatch`). So `ValidEmail` is the
  expression's own verdict. Lemmas then prove which strings it accepts. `\s` is the
  ECMAScript set of white-space and line-terminator code points. The pattern has no
  `g` flag, so `test` keeps no state between calls.
- JavaScript `.length` counts UTF-16 code units. `FormRules.Utf16Length` counts a
  character outside the Basic Multilingual Plane twice. The regular expression's
  verdict does not depend on that split: its only literals are `@` and `.`, and
  both halves of a surrogate pair fall in `[^\s@]`.
- The React state of each form is a class (`RegisterForm`, `LoginForm`). It holds
  the field values and `errors: map<string, string>`. Each handler assigns its field
  and the keys it rewrites, and nothing else. An entry is displayed when its key is
  present and its message is non-empty (`FormRules.Shown`). Handlers clear a message
  by writing `""`.
- What the page does, and what it leaves to others:
  - The page never clamps a quantity. It only guards the step, and a refused step
    dispatches nothing. Merging lines, clamping on add and keeping product ids
    unique belong to the cart reducer, which is not part of this model.
  - The free-shipping nudge is shown only while shipping is charged. The threshold
    is strict, so at a subtotal of exactly 1000 the nudge asks for 0 more
    (`Cart.NudgeAtThreshold`). Adding exactly the amount shown still pays shipping
    (`Cart.NudgeAmountIsExclusive`).
  - The page computes money with floating-point multiplication and no rounding. The
    model uses exact arithmetic.

## Model

| member | source | states |
|---|---|---|
| `Cart.QuantityStep` | frontend/src/pages/CartPage.jsx:51-56 | a step applies iff `0 < qty + change <= countInStock`; when it applies the update is the same product with quantity `qty + change`, which lies in `[1, countInStock]` |
| `Cart.CartPage.UpdateQuantity` | frontend/src/pages/CartPage.jsx:51-56 | when the guard refuses, nothing is dispatched; otherwise exactly one `AddToCart` of that item with the new quantity is appended to what was dispatched |
| `Cart.ButtonsMatchGuard` | frontend/src/pages/CartPage.jsx:126-144 | for an item within stock, the `−` button is disabled (`qty <= 1`) iff the guard refuses a step of −1, and the `+` button is disabled (`qty >= countInStock`) iff it refuses +1 |
| `Cart.StepRoundTrip` | frontend/src/pages/CartPage.jsx:51-56 | for an item within stock, an applied step of +1 followed by −1 (or −1 followed by +1) gives back the original item |
| `Cart.CartPage.AddToCartHandler` | frontend/src/pages/CartPage.jsx:39-41 | appends one `AddToCart` carrying the product's fields with the given quantity |
| `Cart.CartPage.RemoveFromCartHandler` | frontend/src/pages/CartPage.jsx:43-45 | appends one `RemoveFromCart` of the given id |
| `Cart.CartPage.constructor` | frontend/src/pages/CartPage.jsx:34 | the page starts from the store's line items with nothing dispatched |
| `Cart.Subtotal` | frontend/src/pages/CartPage.jsx:58-61 | an empty cart has subtotal 0; with non-negative prices and quantities the subtotal is non-negative |
| `Cart.SubtotalAppend` | frontend/src/pages/CartPage.jsx:58-61 | the subtotal is additive over runs of line items: the subtotal of `a + b` is the subtotal of `a` plus that of `b` |
| `Cart.SubtotalPermutation` | frontend/src/pages/CartPage.jsx:58-61 | rearranging the line items (same multiset of lines) leaves the subtotal unchanged |
| `Cart.SubtotalReplace` | frontend/src/pages/CartPage.jsx:58-61 | replacing one line changes the subtotal by exactly the difference of the two lines' `qty * price` |
| `Cart.Shipping` | frontend/src/pages/CartPage.jsx:62 | shipping is 0 or 100, and 0 exactly when the subtotal is strictly above 1000 |
| `Cart.Tax` | frontend/src/pages/CartPage.jsx:63 | for a non-negative subtotal the tax is between 0 and the subtotal |
| `Cart.PriceSummary` | frontend/src/pages/CartPage.jsx:58-64 | the summary's subtotal is the cart's subtotal; shipping is 100 iff the subtotal is at most 1000 and 0 iff it is above; tax is 18/100 of the subtotal; the total is 118/100 of the subtotal plus shipping, which equals subtotal + shipping + tax |
| `Cart.EmptyCartSummary` | frontend/src/pages/CartPage.jsx:58-64 | an empty cart has subtotal 0, shipping 100, tax 0, total 100 |
| `Cart.SummaryAt500` | frontend/src/pages/CartPage.jsx:62-64 | a cart worth 500 has shipping 100, tax 90, total 690 |
| `Cart.TotalAroundThreshold` | frontend/src/pages/CartPage.jsx:62-64 | up to and including 1000 the total is 1.18 × subtotal + 100, above 1000 it is 1.18 × subtotal; a subtotal of exactly 1000 still pays shipping |
| `Cart.ItemCount` | frontend/src/pages/CartPage.jsx:176 | when every quantity is at least 1, the displayed item count (sum of quantities) is at least the number of lines |
| `Cart.CheckoutDisabled` | frontend/src/pages/CartPage.jsx:215 | when every quantity is at least 1, checkout (disabled on an empty cart) is disabled exactly when the displayed item count is 0 |
| `Cart.FreeShippingNudge` | frontend/src/pages/CartPage.jsx:224-229 | the nudge appears iff shipping is charged, and the amount it shows is non-negative and brings the subtotal exactly to 1000 |
| `Cart.NudgeAmountIsExclusive` | frontend/src/pages/CartPage.jsx:224-228 | while the nudge is shown, an addition earns free shipping iff it is strictly larger than the amount shown |
| `Cart.NudgeAtThreshold` | frontend/src/pages/CartPage.jsx:224-228 | at a subtotal of exactly 1000 the nudge asks for 0 more while shipping is still charged |
| `Cart.Find` | frontend/src/pages/CartPage.jsx:240 | `find` returns nothing iff no line item has the id, and otherwise the first line item that has it |
| `Cart.Survivors` | frontend/src/pages/CartPage.jsx:237-241 | the filter keeps no product whose id is in the cart, keeps every catalog product whose id is not, and keeps them in catalog order |
| `Cart.SurvivorsMultiplicity` | frontend/src/pages/CartPage.jsx:237-241 | each product occurs among the survivors as often as in the catalog when its id is not in the cart (duplicates kept), and not at all when it is |
| `Cart.Recommend` | frontend/src/pages/CartPage.jsx:237-242 | the list is exactly the first `min(4, number of survivors)` survivors of the filter: none in the cart, in catalog order; when shorter than 4 it holds every catalog product not in the cart |
| `Cart.RecommendationSection` | frontend/src/pages/CartPage.jsx:233 | the section is shown iff the cart is non-empty and the catalog page has loaded, and then it lists the recommendations |
| `Cart.ExampleSurvivors` | frontend/src/pages/CartPage.jsx:237-241 | filtering a catalog A, B, C, D when only B is in the cart keeps A, C, D in that order |
| `Cart.RecommendExample` | frontend/src/pages/CartPage.jsx:237-242 | a catalog page A, B, C, D with B in the cart recommends A, C, D in that order |
| `EmailRegex.ValidEmail` | frontend/src/pages/RegisterPage.jsx:55-58 | the regular expression accepts `s` iff `s` is `L '@' R` with L non-empty, neither L nor R containing '@' or white space, and R containing a '.' that is neither its first nor its last character |
| `EmailRegex.MatchIsShape` | frontend/src/pages/LoginPage.jsx:48-51 | every address the login page's regular expression accepts has that shape |
| `EmailRegex.ShapeIsMatch` | frontend/src/pages/LoginPage.jsx:48-51 | every string of that shape is accepted by the login page's regular expression |
| `EmailRegex.PatternIsShape` | frontend/src/pages/LoginPage.jsx:48-51 | the regular expression accepts a string iff it has that shape |
| `EmailRegex.ValidEmailHasOneAt` | frontend/src/pages/RegisterPage.jsx:55-58 | an accepted address has exactly one '@', does not start with it, and has no white space |
| `EmailRegex.EmptyIsNotEmail` | frontend/src/pages/RegisterPage.jsx:77-81 | the empty string is not a valid address |
| `FormRules.Utf16Length` | frontend/src/pages/RegisterPage.jsx:60-66 | `.length` counts between one and two code units per character |
| `FormRules.ValidName` | frontend/src/pages/RegisterPage.jsx:60-62 | a name of two or more characters passes and the empty name fails; a one-character name passes iff that character lies outside the Basic Multilingual Plane (two code units) |
| `FormRules.ValidPassword` | frontend/src/pages/RegisterPage.jsx:64-66 | a password of six or more characters passes; one of fewer than three characters fails |
| `FormRules.NameError` | frontend/src/pages/RegisterPage.jsx:71-75 | a name gets a message iff it is shorter than 2; an empty name gets "Name is required", a short non-empty one "Name must be at least 2 characters" |
| `FormRules.EmailError` | frontend/src/pages/RegisterPage.jsx:77-81 | an address gets a message iff it is not valid; an empty one gets "Email is required", an invalid non-empty one "Please enter a valid email address" |
| `FormRules.PasswordError` | frontend/src/pages/RegisterPage.jsx:83-87 | a password gets a message iff it is shorter than 6; an empty one gets "Password is required", a short non-empty one "Password must be at least 6 characters" |
| `FormRules.ConfirmError` | frontend/src/pages/RegisterPage.jsx:89-93 | the confirmation gets a message iff it is empty or differs from the password; "Please confirm your password" when empty, "Passwords do not match" otherwise |
| `FormRules.LiveNameMessage` | frontend/src/pages/RegisterPage.jsx:102-109 | the name handler writes a non-empty message iff the value is non-empty and too short, and that message is the one submitting would give |
| `FormRules.LiveEmailMessage` | frontend/src/pages/RegisterPage.jsx:115-122 | the e-mail handler writes a non-empty message iff the value is non-empty and invalid, and that message is the one submitting would give |
| `FormRules.LivePasswordMessage` | frontend/src/pages/RegisterPage.jsx:128-135 | the password handler writes a non-empty message iff the value has 1 to 5 code units, and that message is the one submitting would give |
| `FormRules.LiveConfirmMessage` | frontend/src/pages/RegisterPage.jsx:137-144 | the mismatch message is written iff the confirmation is non-empty and differs from the password, and it is the one submitting would give |
| `Register.RegisterErrors` | frontend/src/pages/RegisterPage.jsx:68-97 | the map has a key for a field iff that field fails its rule, no other keys, and each key holds that field's one message |
| `Register.RegisterErrorsEmptyIff` | frontend/src/pages/RegisterPage.jsx:68-97 | the map is empty iff the name, e-mail and password are valid and the confirmation is non-empty and equal to the password |
| `Register.RequiredTakesPrecedence` | frontend/src/pages/RegisterPage.jsx:71-93 | an empty field gets its "required" message ("Please confirm your password" for the confirmation), never the format or mismatch message |
| `Register.RegisterForm.constructor` | frontend/src/pages/RegisterPage.jsx:22-28 | all four fields start empty and the error map starts empty |
| `Register.RegisterForm.ValidateForm` | frontend/src/pages/RegisterPage.jsx:68-97 | builds the map key by key and stores it; returns true iff the map has no keys, i.e. iff every field is valid; the fields are unchanged |
| `Register.RegisterForm.HandleNameChange` | frontend/src/pages/RegisterPage.jsx:99-110 | stores the name and sets only the `name` entry, to the length message iff the value is non-empty and shorter than 2, else to "" |
| `Register.RegisterForm.HandleEmailChange` | frontend/src/pages/RegisterPage.jsx:112-123 | stores the address and sets only the `email` entry, to the format message iff the value is non-empty and invalid, else to "" |
| `Register.RegisterForm.HandlePasswordChange` | frontend/src/pages/RegisterPage.jsx:125-145 | stores the password and sets only the `password` entry (length rule) and the `confirmPassword` entry ("Passwords do not match" iff the confirmation is non-empty and differs from the new password, else "") |
| `Register.RegisterForm.HandleConfirmPasswordChange` | frontend/src/pages/RegisterPage.jsx:147-158 | stores the confirmation and sets only the `confirmPassword` entry, to the mismatch message iff the value is non-empty and differs from the password, else to "" |
| `Login.LoginErrors` | frontend/src/pages/LoginPage.jsx:53-70 | keys only for failing fields; an empty address gets "Email is required", an invalid non-empty one the format message (never both); an empty password gets "Password is required", one of 1–5 code units the length message |
| `Login.LoginErrorsEmptyIff` | frontend/src/pages/LoginPage.jsx:53-70 | the map is empty iff the address is valid and the password has at least 6 code units |
| `Login.LoginForm.constructor` | frontend/src/pages/LoginPage.jsx:21-25 | both fields start empty and the error map starts empty |
| `Login.LoginForm.ValidateForm` | frontend/src/pages/LoginPage.jsx:53-70 | builds and stores the map; returns true iff it has no keys, i.e. iff both fields are valid; the fields are unchanged |
| `Login.LoginForm.HandleEmailChange` | frontend/src/pages/LoginPage.jsx:72-83 | stores the address and sets only the `email` entry, to the format message iff the value is non-empty and invalid, else to ""; the password entry is untouched |
| `Login.LoginForm.HandlePasswordChange` | frontend/src/pages/LoginPage.jsx:85-96 | stores the password and sets only the `password` entry, to the length message iff the value has 1 to 5 code units, else to ""; the e-mail entry is untouched |

## Left out

- `frontend/src/config.js`: an environment-dependent URL constant, with no logic.
- The cart store's reducer (`addToCart`, `removeFromCart` in `cartSlice`) is not part of this model. Merging, clamping, uniqueness of product ids and persistence are therefore not modelled. The page's dispatches are recorded as actions instead.
- Network calls are I/O: the catalog query, the login and register mutations, `setCredentials`, toasts and the `userInfo` redirect effect. The catalog page is a parameter of `Recommend`, and an unloaded page is `None`. `submitHandler` is modelled only through `ValidateForm`, whose result decides whether a request is sent.
- Routing is a library call: `useNavigate`, `checkoutHandler`'s redirect and the `redirect` query parameter.
- Rendering is presentation: JSX, `addCurrency` formatting, the in-stock badge, and the password-visibility and "remember me" toggles.
- IEEE-754 rounding of `subtotal * 0.18` and of the float sums is not modelled; money is exact.
- JavaScript strings holding unpaired surrogates have no counterpart: Dafny strings hold Unicode scalar values.
- `FormRules.Utf16Length`: only bounds the count (one or two code units per character); its exact value is given by its definition.
