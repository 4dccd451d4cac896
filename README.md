# QKart cart and registration logic in Dafny

This project models the two pieces of real logic in the QKart storefront client.

- **Cart reconciliation and aggregation** (module `Cart`, `cart.dfy`). The backend returns a cart as a list of `{productId, qty}` entries. `generateCartItemsFrom` joins these entries against the product catalog and gives the line items the cart view shows. `getTotalCartValue` sums `cost * qty` over the line items. `getTotalItems` counts the line items. The first two accumulate in a loop in the original, so they are methods with loops (`GenerateCartItemsFrom`, `GetTotalCartValue`). Each is proved equal to a specification function (`CartItems`, `CartValue`). The lemmas state what those functions promise.
- **Registration validation** (module `Register`, `register.dfy`). `validateInput` runs five checks in order: empty username, username shorter than 6, empty password, password shorter than 6, confirmation different from the password. The first failing check puts one error message on the notification queue, and the function returns false. `ValidateInput` returns `Ok` or `Refused(error)` instead. The message that would be queued is `Notifications` of that outcome, and the boolean the form handler sees is `IsValid`.

The catalog lookup `productsData.find(p => p._id === productId)` is `FindProduct`. It returns the first product with that id, and `FirstMatch` gives its index. `Origins(entries, products)` lists the indices of the entries whose product is in the catalog. The lemmas use it to tie each line item to the entry it came from.

The doc comment of `getTotalItems` (src/components/Cart.js:89-96) says it returns the sum of the quantities. The code returns `items.length`, and the order summary shows that number under the label "Products" (src/components/Cart.js:230-231). The model follows the code: `TotalItems` counts lines. `Units` is the sum of quantities that the comment describes, and `TotalItemsAtMostUnits` and `TotalItemsIsNotUnits` relate the two.

The typedef of the cart item names the id field `productId` and types `qty` as a string (src/components/Cart.js:29, 34). The code emits the field as `id` and uses `qty` as a number, and the model follows the code.

Reconciliation does not de-duplicate. Two entries with the same product id give two line items (`CartItemsKeepsEveryMatchedEntry`). At most one line item per product id holds only when the entries themselves are unique (`CartItemsUniqueIds`).

## Model

| member | source | states |
|---|---|---|
| `Cart.FindProduct` | src/components/Cart.js:54 | The lookup finds nothing exactly when no product has the id. Otherwise it returns a product with that id, and no earlier product in the catalog has that id (first match, as `find`). |
| `Cart.GenerateCartItemsFrom` | src/components/Cart.js:51-68 | The loop that pushes one line item per matched entry gives exactly the specified reconciliation `CartItems` of the entries and the catalog. |
| `Cart.LineItem` | src/components/Cart.js:56-64 | The definition of the pushed object: `qty` from the entry, `name`, `cost`, `category`, `rating`, `image` and `id` from the product. `CartItemsAt` states how line items are built from it. |
| `Cart.CartItemsAt` | src/components/Cart.js:54-64 | There are as many line items as matched entries. The k-th line item is the entry `Origins[k]` joined with the first catalog product carrying its id: `qty` comes from the entry; `name`, `cost`, `category`, `rating`, `image` and `id` come from the product. |
| `Cart.OriginsMembership` | src/components/Cart.js:54-55 | An entry yields a line item if and only if some catalog product has its `productId`. Unmatched entries are dropped. |
| `Cart.OriginsOrdered` | src/components/Cart.js:53-66 | Line items come from strictly increasing entry indices, so they keep the relative order of their entries, not the catalog's order. |
| `Cart.CartItemsAppend` | src/components/Cart.js:53-66 | Reconciling a concatenation of entry lists gives the concatenation of the two reconciliations, because each entry is handled on its own. |
| `Cart.CartItemsEmpty` | src/components/Cart.js:52-67 | An empty catalog gives no line items for any cart. (An empty cart gives none by the definition of `CartItems`.) |
| `Cart.CartItemsKeepsEveryMatchedEntry` | src/components/Cart.js:53-66 | No de-duplication: when every entry's product is in the catalog, there are exactly as many line items as entries, whatever ids repeat. |
| `Cart.CartItemsUniqueIds` | src/components/Cart.js:53-66 | When the entries carry distinct product ids, the line items carry distinct ids. |
| `Cart.GetTotalCartValue` | src/components/Cart.js:80-86 | The running total of `cost * qty`, started at 0, equals the specified cart value `CartValue` of the items. |
| `Cart.CartValueAppend` | src/components/Cart.js:80-86 | The value of a concatenation is the sum of the two values. (No items have value 0 by the definition of `CartValue`.) |
| `Cart.CartValueRemove` | src/components/Cart.js:82-84 | Removing one line item lowers the cart value by exactly that item's `cost * qty`. |
| `Cart.CartValuePermutation` | src/components/Cart.js:80-86 | The cart value does not depend on the order of the line items. |
| `Cart.TotalItems` | src/components/Cart.js:100-102 | The definition of `getTotalItems`: the number of line items. Its properties are stated by the next three lemmas. |
| `Cart.TotalItemsOfCart` | src/components/Cart.js:100-102 | The number of products in a reconciled cart is the number of entries whose product is in the catalog. It does not depend on quantities. |
| `Cart.TotalItemsAtMostUnits` | src/components/Cart.js:100-102 | When every line has a positive quantity, the line count is at most the sum of quantities. The two are equal only when every line holds one unit. |
| `Cart.TotalItemsIsNotUnits` | src/components/Cart.js:89-102 | One line of two units counts as one product, while the sum of quantities that the doc comment describes is two. |
| `Register.ValidateInput` | src/components/Register.js:99-125 | Each of the five errors is returned if and only if its own check fails and every earlier check passes: `UsernameRequired` iff the username is empty; `UsernameTooShort` iff it is non-empty and shorter than 6; `PasswordRequired` iff the username is at least 6 long and the password is empty; `PasswordTooShort` iff the username is at least 6 long and the password non-empty and shorter than 6; `PasswordsDoNotMatch` iff both are at least 6 long and the confirmation differs. The form is accepted if and only if all five checks pass. |
| `Register.Message` | src/components/Register.js:102-120 | The definition of the five error messages, word for word. `NotificationsOfInput` and `MessagesDistinct` state what is shown. |
| `Register.NotificationsOfInput` | src/components/Register.js:100-124 | For each input, the queued messages are exactly the message of the first failing check (one per check, in order), and nothing when every check passes. |
| `Register.IsValid` | src/components/Register.js:99-125 | The function returns true exactly when no message is queued. |
| `Register.EmptyUsernameIsRequired` | src/components/Register.js:100-109 | An empty username is reported as "Username is a required field", not as the length error, although it is also shorter than 6. |
| `Register.UsernameErrorsFirst` | src/components/Register.js:100-117 | A username error is reported before any password error. While the username is refused, the password fields do not change the outcome. |
| `Register.PasswordErrorsAfterUsername` | src/components/Register.js:110-122 | A password error requires an acceptable username. The mismatch error is reported if and only if both fields pass their length checks and the confirmation differs. |
| `Register.OneMessageOnFailure` | src/components/Register.js:102-124 | Exactly one message is queued on failure and none on success. |
| `Register.ConfirmationComparedExactly` | src/components/Register.js:118 | Once the lengths pass, a confirmation that differs from the password in any single character is refused as a mismatch. |
| `Register.MessagesDistinct` | src/components/Register.js:102-120 | The five error messages are pairwise distinct, so the message shown identifies the check that failed. |

## Left out

- Money and quantities are natural numbers (minor units). The original uses JavaScript floating-point numbers, and its rounding is not modelled.
- `rating` is an unbounded integer. The 0-5 range in the typedef is not enforced by the code and is not modelled.
- String lengths are sequence lengths of characters. JavaScript counts UTF-16 code units, and characters outside the Basic Multilingual Plane are not modelled.
- Default arguments (`items = []` when called with `undefined`) are not modelled. Every caller in the model passes a list.
- Truthiness of the found product (`if (product)`): a catalog product is always an object, so the model reduces it to "found or not".
- The quantity-change handler `handleQuantity` with its `preventDuplicate` flag. Its definition is outside Cart.js and Register.js; the cart view only calls it (src/components/Cart.js:293-311).
- `register` (src/components/Register.js:46-78). It is an HTTP POST with notification and navigation side effects.
- Reading the token and the username from browser storage, and all rendering: the `Cart` and `ItemQuantity` components, `Header`, `ProductCard` and the route table.
