# Flower-shop cart, modelled in Dafny

The storefront page of the flower shop ("Цветочный Рай") keeps a shopping cart.
The cart is an ordered list of lines. Each line copies a catalog product's fields
(`id`, `name`, `price`, `image`, `description`) and adds a `quantity`. Three click
handlers replace the cart with a new list:

- **add to cart** merges into the product's line (one more) or appends a new line with quantity 1;
- **bin** filters out the line of one product;
- **+ / −** maps `quantity + delta` onto the product's line when the result is positive, and then filters out non-positive lines.

Two folds compute the total price and the item count shown on the cart badge.

Files:

- `shop.dfy` (module `Shop`): the `Product` and `CartItem` records, the six-product catalog `Products`, the updaters `AddToCart`, `RemoveFromCart` and `UpdateQuantity`, and the totals `CartTotal` and `CartItemsCount`. They are built from the same pieces the page uses: `Find`, an index-wise map, `Filter` and a left fold `Reduce`. Every updater is a pure function from the previous cart to the next one.
- `cart_laws.dfy` (module `CartLaws`): what each updater does to the lines, to the invariant "one line per product id and every quantity positive" (`Valid`), and to the totals. The totals are proved equal to a plain recursive sum (`SumOf`).
- `session.dfy` (module `Session`): a click sequence (`Action`, `Run`) starting from the empty cart. It proves that the invariant holds after any clicks and that every line stays a copy of a catalog product.
- `scenarios.dfy` (module `Scenarios`): concrete carts built from the first two catalog bouquets.

### The "−" button does not delete a line

A common cart design deletes a line when a decrement takes its quantity to zero.
This code does not. When `quantity + delta <= 0`, the map step returns the line unchanged
(src/pages/Index.tsx:90). The later filter (line 93) only drops lines whose quantity was already
not positive, so it keeps that line. Pressing "−" on a line with quantity 1 therefore leaves it at 1,
and only the bin button removes a line. The model follows the code: see `CartLaws.UpdateQuantityClamp`
and `Scenarios.MinusOnLastRoseKeepsLine`.

## Model

| member | source | states |
|---|---|---|
| `Shop.Item` | src/pages/Index.tsx:77 | the new line carries exactly the product's fields and the given quantity |
| `Shop.Find` | src/pages/Index.tsx:71 | finds a line exactly when some line has the id; a found line is in the cart and has that id |
| `CartLaws.FilterMembers` | src/pages/Index.tsx:82 | an element survives a filter exactly when it was in the cart and satisfies the predicate |
| `CartLaws.AddToCartExisting` | src/pages/Index.tsx:71-76 | for an id already present: same length and id order, every line keeps its product fields, lines with that id gain exactly 1, all other quantities unchanged |
| `CartLaws.AddToCartExistingLine` | src/pages/Index.tsx:71-76 | with one line per id, the result is the cart with only the matching line's quantity raised by 1 |
| `CartLaws.AddToCartNew` | src/pages/Index.tsx:77 | for an absent id: the old lines followed by one new line with the product's fields and quantity 1; the ids gain the product id at the end |
| `CartLaws.AddToCartKeepsValid` | src/pages/Index.tsx:69-78 | unique ids and positive quantities are preserved, and the product is in the cart afterwards |
| `CartLaws.AddToCartCount` | src/pages/Index.tsx:69-98 | with one line per id, the item count rises by exactly 1 |
| `CartLaws.AddToCartTotal` | src/pages/Index.tsx:69-97 | with one line per id, the total rises by exactly the price on the product's line when it is present, and by the product's price when it is not |
| `CartLaws.RemoveFromCartMembers` | src/pages/Index.tsx:82 | a line is in the result exactly when it was in the cart and has a different id |
| `CartLaws.RemoveFromCartConcat` | src/pages/Index.tsx:82 | removing from two joined carts is removing from each and joining the results, so the kept lines stay in their order |
| `CartLaws.RemoveFromCartLine` | src/pages/Index.tsx:82 | with one line per id, removing a present id leaves the lines before and after it, in order |
| `CartLaws.RemoveFromCartAbsent` | src/pages/Index.tsx:82 | removing an id that is not in the cart returns the same cart |
| `CartLaws.RemoveFromCartIdempotent` | src/pages/Index.tsx:82 | removing twice equals removing once |
| `CartLaws.RemoveFromCartKeepsValid` | src/pages/Index.tsx:81-83 | the invariant is preserved and no line with the id remains |
| `CartLaws.RemoveFromCartTotals` | src/pages/Index.tsx:81-98 | removing a present line lowers the total by its price times quantity and the count by its quantity |
| `CartLaws.UpdateQuantityAllPositive` | src/pages/Index.tsx:87-93 | after the update every line has a positive quantity, for any input cart |
| `CartLaws.UpdateQuantityKeepsPositiveLines` | src/pages/Index.tsx:87-93 | the filter only drops lines that were already non-positive: every line with a positive quantity before keeps its id in the result |
| `CartLaws.UpdateQuantityLines` | src/pages/Index.tsx:87-93 | on positive quantities: same length and id order; a line with the id gets quantity + delta when that is positive and is unchanged otherwise; other lines are unchanged |
| `CartLaws.UpdateQuantityIncrease` | src/pages/Index.tsx:87-93 | a positive delta keeps every line, never lowers a quantity, and adds delta to the line with the id |
| `CartLaws.UpdateQuantitySet` | src/pages/Index.tsx:88-90 | in a valid cart, a present id with quantity + delta > 0 changes exactly that line's quantity to quantity + delta |
| `CartLaws.UpdateQuantityClamp` | src/pages/Index.tsx:88-93 | in a valid cart, a present id with quantity + delta <= 0 leaves the cart unchanged; the line is not removed |
| `CartLaws.UpdateQuantityAbsent` | src/pages/Index.tsx:87-93 | on positive quantities, an id not in the cart returns the same cart |
| `CartLaws.UpdateQuantityKeepsValid` | src/pages/Index.tsx:85-95 | unique ids and positive quantities are preserved |
| `CartLaws.UpdateQuantityPlusMinus` | src/pages/Index.tsx:85-95 | in a valid cart, "+" (delta 1) followed by "−" (delta −1) on a present line returns the starting cart |
| `CartLaws.UpdateQuantityTotals` | src/pages/Index.tsx:85-98 | in a valid cart, the count moves by delta and the total by price times delta when the update applies, and neither moves when it is clamped |
| `CartLaws.ReduceIsSum` | src/pages/Index.tsx:97-98 | the left fold from a starting sum equals that sum plus the recursive sum of the lines |
| `CartLaws.CartTotalIsSum` | src/pages/Index.tsx:97 | the total is the sum over lines of price times quantity, and 0 for the empty cart |
| `CartLaws.CartItemsCountIsSum` | src/pages/Index.tsx:98 | the item count is the sum of the quantities, and 0 for the empty cart |
| `CartLaws.CartItemsCountAtLeastLines` | src/pages/Index.tsx:98 | with positive quantities the item count is at least the number of lines |
| `CartLaws.CartTotalNonNegative` | src/pages/Index.tsx:97 | with positive quantities and non-negative prices the total is not negative |
| `Session.CatalogWellFormed` | src/pages/Index.tsx:20-63 | the catalog has six products with pairwise distinct ids and positive prices |
| `Session.CatalogIdDetermines` | src/pages/Index.tsx:20-63 | two catalog products with the same id are the same product |
| `Session.StepKeepsInvariant` | src/pages/Index.tsx:69-95 | one click keeps the invariant and keeps every line a copy of a catalog product |
| `Session.RunKeepsInvariant` | src/pages/Index.tsx:69-95 | any sequence of clicks adding only catalog products keeps both properties |
| `Session.SessionInvariant` | src/pages/Index.tsx:67-95 | starting from the empty cart, every reachable cart is valid and made of catalog products |
| `Session.AddFromCatalogTotals` | src/pages/Index.tsx:69-98 | on a cart of catalog lines, adding a catalog product raises the total by its price and the count by 1 |
| `Session.RepeatedAdd` | src/pages/Index.tsx:69-79 | adding one product n >= 1 times to the empty cart gives a single line with quantity n |
| `Scenarios.AddRosesOnce` | src/pages/Index.tsx:20-98 | adding product 1 to the empty cart gives one line with quantity 1, total 2500 and count 1 |
| `Scenarios.AddRosesTwice` | src/pages/Index.tsx:20-98 | adding product 1 twice gives one line with quantity 2 and total 5000 |
| `Scenarios.MinusOnLastRoseKeepsLine` | src/pages/Index.tsx:81-95 | "−" on a quantity-1 line leaves it at quantity 1 (total 2500); the bin empties the cart |
| `Scenarios.BinTulips` | src/pages/Index.tsx:81-83 | removing product 2 from [product 1 x2, product 2 x1] leaves only the product 1 line, total 5000 |
| `Scenarios.PlusThenMinus` | src/pages/Index.tsx:85-95 | on the product 2 line of [product 1 x2, product 2 x1], "+" gives quantity 2 and "−" then returns the starting cart |

## Left out

- Rendering (JSX, styling, icons, the sheet, card, button and badge components): presentation only.
- The `activeSection` state and the navigation buttons: view switching with no cart behaviour.
- React's `useState` and updater batching: each updater is modelled as a function from the previous cart to the next one, and `Session.Run` applies them in click order.
- JavaScript floating-point numbers: every price and delta in the code is an integer, so mathematical integers are used.
- The "place order" button: it has no handler and there is no checkout logic.
- `Shop.Find`: its contract does not say that the line found is the first one with the id. The page only tests whether a line was found.
