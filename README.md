# Storefront cart and order composition, modelled in Dafny

This project models the core of a storefront client: the shopper's cart store,
the checkout handler that turns the cart into one order request, and the small
pure rules around them on the shop, product, admin and image components.

- `wrappers.dfy` (`Wrappers`): `Option` (TypeScript's `T | undefined`) and `Result`.
- `backend.dfy` (`Backend`): the `Product` and `OrderItem` record shapes.
- `cart.dfy` (`Cart`): cart lines, their identity `LineKey(productId, size, color)`,
  the list each store operation produces (`AfterAdd`, `AfterRemove`, `AfterUpdate`),
  the `reduce` folds behind `getTotal`/`getItemCount` with a reference sum, and the
  class `CartStore` whose `items` field every operation replaces.
- `checkout.dfy` (`Checkout`): the submit guards, the cart-to-order mapping, the
  outcome of the remote call and the reconciliation of the cart.
- `shop.dfy` (`Shop`): the category list and the category filter.
- `product_detail.dfy` (`ProductDetail`): the add-to-cart variant guard and the 1..99
  quantity stepper.
- `admin_products.dfy` (`AdminProducts`): parsing and joining of size/color lists, and
  the product dialog state as the class `ProductEditor`.
- `text.dfy` (`Text`): JavaScript's `trim`, `split` on one character, and `join`.
- `product_image.dfy` (`ProductImage`): the placeholder choice for products without an image.
- `sums.dfy` (`Sums`): the sum of an integer sequence, used by the order summary and the placeholder hash.

Facts about the code that the model makes explicit:

- Line identity is strict equality on all three components; an absent size or
  color (`None`) differs from every string, the empty string included.
- When `addItem` merges into an existing line, the line keeps the product snapshot
  of its first add, so the added units are priced at that snapshot's price (`AddTotal`).
- `addItem` itself accepts any quantity; the invariant "every line has at least one
  unit" holds only because callers pass 1..99 (`CartStore.AddItem`, `QuantityStaysInRange`).
- The checkout guards run in the order authentication, empty cart, required fields
  (CheckoutPage.tsx:37-51); when several fail, the first one decides.
- Before the products are loaded, the category list is empty; once loaded, even
  with no products, it is `["all"]`. A product whose category is itself `"all"`
  would put `"all"` in the list twice, and selecting it shows every product.
- The placeholder hash sums UTF-16 code units, so a character outside the basic
  plane contributes its two surrogates (`Utf16`).
- Interactions with the remote service are parameters. `createOrder` is a function
  from the request to `Created(orderId)` or `Rejected(message)`. The admin add/update
  result is a boolean.

## Model

| member | source | states |
|---|---|---|
| Cart.FindIndex | src/frontend/src/state/cart.ts:32-37 | -1 exactly when no line has the key; otherwise the first index whose line has the key |
| Cart.AfterAdd | src/frontend/src/state/cart.ts:30-47 | one line more exactly when no line has the key, otherwise the same number; every earlier line keeps its key and product snapshot (`AddMergesExisting` and `AddAppendsNew` give the lines exactly) |
| Cart.AddMergesExisting | src/frontend/src/state/cart.ts:39-42 | with unique keys, adding for an existing key raises that line's quantity by exactly the added amount; length, the line's snapshot and all other lines unchanged |
| Cart.AddAppendsNew | src/frontend/src/state/cart.ts:45-47 | adding for an absent key appends `{product, quantity, size, color}` after the unchanged earlier lines |
| Cart.AddKeys | src/frontend/src/state/cart.ts:30-47 | after adding, the keys present are the old keys plus the added key, no others |
| Cart.AddKeepsKeysUnique | src/frontend/src/state/cart.ts:30-47 | addItem never creates a second line for a key |
| Cart.AddKeepsPositive | src/frontend/src/state/cart.ts:30-47 | adding a quantity of at least 1 keeps every line at least 1 |
| Cart.AddTwiceMerges | src/frontend/src/state/cart.ts:30-47 | merge law: two adds of the same key equal one add of the summed quantity, keeping the first product snapshot |
| Cart.AddDistinctKeysAppendsTwo | src/frontend/src/state/cart.ts:32-37 | two absent keys that differ in id, size or color give two new lines, in order |
| Cart.AfterRemove | src/frontend/src/state/cart.ts:51-59 | no kept line has the key, every line without the key is kept, nothing new appears, and the cart is unchanged when no line matches |
| Cart.RemoveConcat | src/frontend/src/state/cart.ts:51-59 | removal distributes over concatenation, so the kept lines stay in their original order |
| Cart.RemoveLength | src/frontend/src/state/cart.ts:51-59 | with unique keys, removing a key the cart holds leaves exactly one line fewer |
| Cart.RemoveExisting | src/frontend/src/state/cart.ts:51-59 | with unique keys, removing an existing key deletes exactly that line: the count drops by one |
| Cart.RemoveKeepsKeysUnique | src/frontend/src/state/cart.ts:51-59 | removal keeps keys unique |
| Cart.RemoveKeepsPositive | src/frontend/src/state/cart.ts:51-59 | removal keeps every quantity at least 1 |
| Cart.WithQuantity | src/frontend/src/state/cart.ts:75-82 | length, keys and product snapshots unchanged; the matching lines' quantity becomes the new value, others keep theirs |
| Cart.AfterUpdate | src/frontend/src/state/cart.ts:62-84 | a quantity of 0 or less drops every line with the key, keeps every other line, adds nothing, and with unique keys and the key present leaves one line fewer; a positive quantity keeps the length, every key and product snapshot, sets the matching lines' quantity and leaves the others' |
| Cart.UpdateExisting | src/frontend/src/state/cart.ts:75-82 | with unique keys, a positive update changes only the matching line's quantity |
| Cart.UpdateMissing | src/frontend/src/state/cart.ts:62-84 | updating a key the cart does not hold changes nothing |
| Cart.UpdateKeepsValid | src/frontend/src/state/cart.ts:62-84 | updateQuantity keeps keys unique and every quantity at least 1, for any requested quantity |
| Cart.ReduceIsSum | src/frontend/src/state/cart.ts:88-99 | the left-to-right reduce from `acc` equals `acc` plus the reference sum |
| Cart.Total | src/frontend/src/state/cart.ts:88-94 | getTotal is the sum of price × quantity over the lines, 0 for an empty cart |
| Cart.ItemCount | src/frontend/src/state/cart.ts:96-99 | getItemCount is the sum of quantities, 0 for an empty cart, at least the number of lines when all are positive |
| Cart.AddTotal | src/frontend/src/state/cart.ts:30-47 | addItem raises the total by the added quantity times the line's snapshot price |
| Cart.AddItemCount | src/frontend/src/state/cart.ts:30-47 | addItem raises the item count by exactly the added quantity |
| Cart.RemoveTotal | src/frontend/src/state/cart.ts:51-59 | removing an existing line lowers total and count by that line's amount and quantity |
| Cart.UpdateTotal | src/frontend/src/state/cart.ts:75-82 | a positive update reprices only the matching line |
| Cart.CartStore.constructor | src/frontend/src/state/cart.ts:28 | the store starts with no lines |
| Cart.CartStore.AddItem | src/frontend/src/state/cart.ts:30-49 | items become `AfterAdd` of the old items; the invariant is kept for a quantity of at least 1; the count grows by the quantity |
| Cart.CartStore.RemoveItem | src/frontend/src/state/cart.ts:51-60 | items become `AfterRemove` of the old items; the invariant is kept |
| Cart.CartStore.UpdateQuantity | src/frontend/src/state/cart.ts:62-84 | items become `AfterUpdate` of the old items; the invariant is kept |
| Cart.CartStore.ClearCart | src/frontend/src/state/cart.ts:86 | items become empty whatever they were, so clearing twice equals clearing once |
| Cart.CartStore.GetTotal | src/frontend/src/state/cart.ts:88-94 | returns the sum of price × quantity over the current lines |
| Cart.CartStore.GetItemCount | src/frontend/src/state/cart.ts:96-99 | returns the sum of quantities over the current lines |
| Checkout.ToOrderItems | src/frontend/src/pages/CheckoutPage.tsx:54-59 | one order item per cart line, same order, copying product id, quantity, size and color |
| Checkout.OrderKeysUnique | src/frontend/src/pages/CheckoutPage.tsx:54-59 | a cart with unique line keys gives an order whose items have unique (id, size, color) |
| Checkout.ComposeOrder | src/frontend/src/pages/CheckoutPage.tsx:37-62 | not authenticated, then empty cart, then a missing name/email/address each stop submission, first failing guard decides; otherwise the request's items are exactly the cart lines mapped by `ToOrderItems`, one per line, and its total is the cart's total |
| Checkout.OptionalFieldsIgnored | src/frontend/src/pages/CheckoutPage.tsx:48-51 | city, postal code and country never change the guards' outcome |
| Checkout.HandleSubmit | src/frontend/src/pages/CheckoutPage.tsx:34-74 | blocked exactly when a guard fails, with that guard's reason; a request is sent exactly when the guards pass, and it holds the old cart lines mapped by `ToOrderItems` and the cart total; placed exactly when that request is created remotely, with the returned order id; a rejection reports the returned message; the cart becomes empty when placed and is left as it was otherwise |
| Checkout.SummaryAmounts | src/frontend/src/pages/CheckoutPage.tsx:214 | each summary row shows price × quantity of its line |
| Checkout.SummaryAddsUpToTotal | src/frontend/src/pages/CheckoutPage.tsx:205-236 | the summary rows add up to the displayed and submitted total |
| Checkout.OneLineCheckout | src/frontend/src/pages/CheckoutPage.tsx:31-73 | a fresh store given one line at 2999 × 2 and then submitted sends exactly one item and total 5998; placed exactly when the service creates the order; on success the cart is empty, on failure it keeps the line and its total |
| Shop.Distinct | src/frontend/src/pages/ShopPage.tsx:14-15 | no duplicates, and exactly the values of the input |
| Shop.DistinctInFirstOccurrenceOrder | src/frontend/src/pages/ShopPage.tsx:14-15 | the distinct values come out in the order of their first occurrence |
| Shop.Categories | src/frontend/src/pages/ShopPage.tsx:12-16 | empty before products load; otherwise "all" first, then the product categories without duplicates, exactly those that some product has |
| Shop.CategoriesInFirstOccurrenceOrder | src/frontend/src/pages/ShopPage.tsx:14-15 | after "all", categories follow the order of the first product having each |
| Shop.CategoriesCoverProducts | src/frontend/src/pages/ShopPage.tsx:14-15 | every product's category appears in the category list |
| Shop.InCategory | src/frontend/src/pages/ShopPage.tsx:21 | exactly the products whose category equals the selection |
| Shop.InCategoryConcat | src/frontend/src/pages/ShopPage.tsx:21 | filtering distributes over concatenation, so the original order is kept |
| Shop.FilteredProducts | src/frontend/src/pages/ShopPage.tsx:18-22 | empty before products load; "all" returns the list unchanged; otherwise exactly the products of that category |
| Shop.OfferedCategoryIsNonEmpty | src/frontend/src/pages/ShopPage.tsx:12-22 | selecting any offered category other than "all" shows at least one product |
| ProductDetail.DecideAddToCart | src/frontend/src/pages/ProductDetailPage.tsx:25-38 | no product gives NoProduct; size required exactly when the product has sizes and none is selected; color required exactly when that guard passes, the product has colors and none is selected; otherwise the line is added with each selection passed as absent when empty and as itself otherwise, never as "" |
| ProductDetail.HandleAddToCart | src/frontend/src/pages/ProductDetailPage.tsx:25-40 | when the guards pass the cart becomes `AfterAdd` with the chosen quantity; otherwise it is unchanged |
| ProductDetail.Decrement | src/frontend/src/pages/ProductDetailPage.tsx:138 | exactly 1 at or below 1, otherwise one less; always either 1 or one less; stays in 1..99 from 1..99 |
| ProductDetail.Increment | src/frontend/src/pages/ProductDetailPage.tsx:146 | exactly 99 at or above 99, otherwise one more; always either 99 or one more; stays in 1..99 from 1..99 |
| ProductDetail.QuantityStaysInRange | src/frontend/src/pages/ProductDetailPage.tsx:138-146 | from a start in 1..99 (the initial 1 of line 23), any sequence of presses stays in 1..99 |
| AdminProducts.CleanPieces | src/frontend/src/pages/AdminProductsPage.tsx:106-107 | every kept piece is non-empty and trimmed |
| AdminProducts.CleanPiecesMembers | src/frontend/src/pages/AdminProductsPage.tsx:106-107 | a string is kept exactly when it is the non-empty trim of some piece |
| AdminProducts.CleanPiecesWithout | src/frontend/src/pages/AdminProductsPage.tsx:106-107 | trimming introduces no character absent from the pieces |
| AdminProducts.ParseList | src/frontend/src/pages/AdminProductsPage.tsx:106-107 | every parsed element is non-empty, has no leading or trailing whitespace and holds no comma |
| AdminProducts.ParseConcat | src/frontend/src/pages/AdminProductsPage.tsx:106-107 | parsing keeps input order: text before a comma parses first |
| AdminProducts.ParseLeadingWhitespace | src/frontend/src/pages/AdminProductsPage.tsx:106-107 | leading whitespace does not change the parsed list |
| AdminProducts.ParseEmpty | src/frontend/src/pages/AdminProductsPage.tsx:106-107 | the empty text parses to the empty list |
| AdminProducts.ParseElement | src/frontend/src/pages/AdminProductsPage.tsx:106-107 | a non-empty, trimmed, comma-free text parses to itself alone |
| AdminProducts.JoinListCons | src/frontend/src/pages/AdminProductsPage.tsx:70-71 | joining two or more elements puts ", " after the first |
| AdminProducts.ParseJoinRoundTrip | src/frontend/src/pages/AdminProductsPage.tsx:70-71 | a list of non-empty, trimmed, comma-free strings joined with ", " parses back to itself (parse of lines 106-107) |
| AdminProducts.DraftOf | src/frontend/src/pages/AdminProductsPage.tsx:102-131 | the submission carries the edited product's id exactly when editing; name, description, category and image URL are the form's; the price is the converted cents; sizes and colors are `ParseList` of the form's texts, so every element is well formed |
| AdminProducts.EditUnchangedRoundTrip | src/frontend/src/pages/AdminProductsPage.tsx:62-75 | opening a product with well-formed lists for edit and submitting it unchanged sends back its id, fields, sizes and colors |
| AdminProducts.ProductEditor.constructor | src/frontend/src/pages/AdminProductsPage.tsx:49-52 | the dialog starts closed with the empty form, no product and no preview |
| AdminProducts.ProductEditor.OpenCreate | src/frontend/src/pages/AdminProductsPage.tsx:55-60 | editing none, form empty, preview empty, dialog open |
| AdminProducts.ProductEditor.OpenEdit | src/frontend/src/pages/AdminProductsPage.tsx:62-75 | editing the product, form filled from it with lists joined by ", ", preview its image, dialog open |
| AdminProducts.ProductEditor.CloseForm | src/frontend/src/pages/AdminProductsPage.tsx:77-82 | dialog closed, editing none, form empty, preview empty |
| AdminProducts.ProductEditor.ChangeImageUrl | src/frontend/src/pages/AdminProductsPage.tsx:84-87 | only the form's image URL and the preview change, both to the new URL |
| AdminProducts.ProductEditor.Submit | src/frontend/src/pages/AdminProductsPage.tsx:102-136 | a price text that does not denote a finite number sends nothing and changes nothing (the conversion of line 105 throws before the try block); otherwise sends the draft built from the form; on success the dialog closes and resets, on failure nothing changes |
| Text.TrimStart | src/frontend/src/pages/AdminProductsPage.tsx:106 | result is a suffix, the dropped prefix is all whitespace, and it does not start with whitespace |
| Text.TrimEnd | src/frontend/src/pages/AdminProductsPage.tsx:106 | result is a prefix, the dropped suffix is all whitespace, and it does not end with whitespace |
| Text.Trim | src/frontend/src/pages/AdminProductsPage.tsx:106 | result is trimmed, uses only characters of the input, and is the input itself when already trimmed |
| Text.TrimSlice | src/frontend/src/pages/AdminProductsPage.tsx:106 | the trim is the middle slice of the input, with only whitespace before and after it |
| Text.TrimLeadingWhitespace | src/frontend/src/pages/AdminProductsPage.tsx:106 | one leading whitespace character does not change the trim |
| Text.Split | src/frontend/src/pages/AdminProductsPage.tsx:106 | always at least one piece, even for the empty string |
| Text.SplitPiecesWithoutSeparator | src/frontend/src/pages/AdminProductsPage.tsx:106 | no piece contains the separator |
| Text.SplitWithoutSeparator | src/frontend/src/pages/AdminProductsPage.tsx:106 | a string without the separator is a single piece |
| Text.SplitConcat | src/frontend/src/pages/AdminProductsPage.tsx:106 | splitting around one separator splits both sides independently |
| Text.JoinSplit | src/frontend/src/pages/AdminProductsPage.tsx:106 | joining split pieces with the same separator restores the string |
| ProductImage.Utf16 | src/frontend/src/components/store/ProductImage.tsx:17 | one code unit below U+10000, else a high and low surrogate that decode back to the character |
| ProductImage.CodeUnits | src/frontend/src/components/store/ProductImage.tsx:17 | at least one code unit per character, each in 0..65535 |
| ProductImage.Hash | src/frontend/src/components/store/ProductImage.tsx:17 | the character-code sum is non-negative, 0 for an empty name |
| ProductImage.HashSwap | src/frontend/src/components/store/ProductImage.tsx:17 | the sum does not depend on the order of the name's parts |
| ProductImage.PlaceholderIndex | src/frontend/src/components/store/ProductImage.tsx:18 | the index hash mod 3 always lies in 0..2 |
| ProductImage.GetPlaceholder | src/frontend/src/components/store/ProductImage.tsx:15-21 | a non-blank URL is returned unchanged; a blank one gives placeholder number hash mod 3, one of the three |
| ProductImage.WhitespaceUrlIsBlank | src/frontend/src/components/store/ProductImage.tsx:16 | a whitespace-only URL counts as blank, not only the empty one |

Being functions, `GetPlaceholder` and every other rule here are deterministic by
construction: the same name always gives the same placeholder.

## Left out

- Persistence: the `persist` middleware and its local storage record are not modelled; the in-memory list is the whole state.
- Cart.CartStore.AddItem: line 41 mutates the found line object, which the previous state's array shares; the model replaces the line by value and does not model that aliasing.
- Cart.Total: prices are integers; the `Number(...)` conversion of the price and any floating-point rounding are not modelled.
- Cart.CartItem: quantities are integers; a fractional quantity, and `BigInt(item.quantity)` throwing on one at checkout, are not modelled.
- Cart.CartStore.GetTotal: the model does not reproduce JavaScript's 2^53 precision limit on the sum.
- ProductImage.Hash: the character-code sum is unbounded; JavaScript's 2^53 precision limit is not modelled.
- The unused string key helper `cartItemKey` is not modelled; line identity is the strict triple comparison.
- Remote calls: the query and mutation hooks and the service are not modelled; `createOrder` is a parameter returning an id or a failure, and the admin add/update outcome is a boolean.
- Checkout.HandleSubmit: the toast messages, including the fallback text when the error has no message, and the navigation to the order page are not modelled.
- Concurrency: the `isPending` button disabling and the asynchronous completion of `createOrder` are not modelled; the call is treated as returning before the handler ends.
- Authentication: the identity provider is reduced to the boolean `authenticated`.
- AdminProducts.ProductEditor.OpenEdit: the floating-point price text `(Number(price) / 100).toString()` is a parameter.
- AdminProducts.ProductEditor.Submit: the price conversion `BigInt(Math.round(parseFloat(price) * 100))` is a parameter of type `Option<int>`, `None` when the text does not denote a finite number; the parsing and floating-point rounding are not modelled.
- Admin file upload, the delete confirmation flow and the page's rendering are not modelled.
- ProductImage: the `onError` fallback to the first placeholder is an event of the image element and is not modelled.
- Rendering, routing and the purely presentational components are not modelled.
