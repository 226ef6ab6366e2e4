# TechStore storefront — a verified model of its client-side logic

TechStore is a small electronics storefront: a product catalog with filters,
sorting and pagination, a product page, a cart persisted in the browser, a
cart page with coupons, and a three-step checkout. This project models the
logic behind those pages in Dafny and proves what the code promises. It does
not model the rendering.

- `util.dfy` (`Util`): `Option`, JavaScript's `Math.max`/`Math.min`, the "−" quantity stepper both pages share, and a no-duplicates predicate.
- `cart.dfy` (`Cart`): the cart store of `useCart`. This is an ordered list of lines keyed by product id.
  - The updaters of `addToCart`, `removeFromCart`, `updateQuantity` and `clearCart` are pure functions.
  - The total and count folds are pure functions.
  - `CartStore` is a class that holds the cart, the `isLoaded` flag and the storage slot. Its methods are specified by the pure updaters.
  - A save is gated by the restore flag.
- `filters.dfy` (`Filters`): the filter-and-sort engine of `useFilters`.
  - Filtering is the conjunction of four tests.
  - The engine then applies one of five orders, and the sort it uses is stable.
  - The helpers toggle a list entry, reset the criteria, and list distinct categories and brands.
  - `FilterPanel` is a class that holds the criteria and the sort option.
- `pricing.dfy` (`Pricing`): the coupon table, the discount, shipping, and the cart and checkout totals.
- `cart_page.dfy` (`CartPage`): the cart page's coupon state, its order summary, and its quantity steppers. The steppers call into the cart store.
- `checkout.dfy` (`Checkout`): the checkout wizard.
  - It moves through three steps and holds two form records.
  - Continue is guarded by the current step's form, and the review step's edit buttons jump back.
  - The progress badges mark steps as completed.
  - A transition function on events carries the invariant proofs. The `CheckoutPage` class's methods are specified by that function.
- `listing.dfy` (`Listing`): pagination of the product list, twelve products per page, and the previous, next and numbered page buttons.
- `product_detail.dfy` (`ProductDetail`): the product page.
  - The image carousel, and the quantity selector clamped by stock.
  - Lookup by the route's numeric id, including a model of `parseInt` on decimal strings.
  - The related products, and the payload that is added to the cart.

Money, ratings and discount rates are exact `real`s. Ids, quantities, review
counts and stock are unbounded `int`s.

Array sorting with a comparator is a library call: the code itself has no
sort loop. It is modelled as a pure stable insertion sort (`StableSort`). The
model proves this sort's sortedness, permutation and stability, the
properties the language standard guarantees for that call. React state
becomes class fields. Each event handler becomes a method whose
postcondition ties the new state to a pure function.

Some controls are rendered only in some states. For example, the delivery
inputs appear only on the delivery step, and the pagination appears only
when there is more than one page. The method for such a control carries that
state as a precondition, because a user has no way to call it otherwise.

## Model

| member | source | states |
|---|---|---|
| Util.Max | client/src/pages/Carrinho.tsx:115 | `Math.max`: at least both arguments, and equal to one of them |
| Util.StepDown | client/src/pages/Carrinho.tsx:115 | The "−" stepper (cart page, and the product page at ProdutoDetalhe.tsx:206) asks for one less, but never below 1 |
| Util.Min | client/src/pages/ProdutoDetalhe.tsx:216 | `Math.min`: at most both arguments, and equal to one of them |
| Cart.IndexOf | client/src/hooks/useCart.ts:37 | `find` by id: the first line that carries the id |
| Cart.AddLine | client/src/hooks/useCart.ts:35-47 | If the id is present, every line with that id gains `quantity`, and the other lines, the length and the order are unchanged. Otherwise exactly one new line with the given quantity is appended. The id is present afterwards, and unique ids stay unique. |
| Cart.RemoveLine | client/src/hooks/useCart.ts:49-51 | A line survives iff it was in the cart and has a different id. No line with the id remains. If the id is absent the cart is unchanged. Unique ids stay unique. |
| Cart.HasIdOfTail | client/src/hooks/useCart.ts:50 | An id is in a non-empty cart iff the head or some line of the tail carries it |
| Cart.UniqueOfTail | client/src/hooks/useCart.ts:50 | In a cart with unique ids the tail has unique ids, none of them the head's |
| Cart.UniqueOfCons | client/src/hooks/useCart.ts:50 | Keeping the head in front of lines drawn from the tail keeps ids unique |
| Cart.DropHead | client/src/hooks/useCart.ts:50 | When the head carries the id, the filtered tail is the filtered cart |
| Cart.KeepHead | client/src/hooks/useCart.ts:50 | When the head does not carry the id, it stays in front of the filtered tail, and the result is the filtered cart |
| Cart.RemoveKeepsOrder | client/src/hooks/useCart.ts:50 | Removal distributes over concatenation, so the remaining lines keep their order |
| Cart.SetQuantity | client/src/hooks/useCart.ts:53-63 | A quantity ≤ 0 behaves exactly like removal. A positive quantity replaces (does not add to) the quantity of the lines with that id and leaves the other lines and the length unchanged. If the id is absent the cart is unchanged. Unique ids stay unique. |
| Cart.TotalFrom | client/src/hooks/useCart.ts:69-71 | `getCartTotal` as written, a left-to-right `reduce` from 0, equals its start value plus the sum of price × quantity over the lines (`Total`) |
| Cart.CountFrom | client/src/hooks/useCart.ts:73-75 | `getCartCount` as written, a left-to-right `reduce` from 0, equals its start value plus the sum of the quantities (`Count`) |
| Cart.TotalNonNegative | client/src/hooks/useCart.ts:69-71 | With prices and quantities not negative, the total is not negative |
| Cart.CountBounds | client/src/hooks/useCart.ts:73-75 | With quantities not negative the count is not negative; when every line holds at least one unit the count is at least the number of lines |
| Cart.FoldsOfConcat | client/src/hooks/useCart.ts:69-75 | Both `reduce` folds distribute over concatenation |
| Cart.FoldsOfReplace | client/src/hooks/useCart.ts:69-75 | Replacing one line changes the folds by exactly the difference of that line's contributions |
| Cart.ClearedCartIsEmpty | client/src/hooks/useCart.ts:65-75 | The cleared cart has total 0 and count 0 |
| Cart.AddChangesFolds | client/src/hooks/useCart.ts:35-47 | Adding q units raises the count by exactly q, and the total by q times the price of the line that received them |
| Cart.AddToLineChangesFolds | client/src/hooks/useCart.ts:38-43 | Adding to an existing line raises the count by q and the total by that line's price times q |
| Cart.FoldsOfIncrease | client/src/hooks/useCart.ts:69-75 | Raising one line's quantity by q raises the count by q and the total by its price times q |
| Cart.AddToLineIsReplace | client/src/hooks/useCart.ts:39-43 | In a cart with unique ids, adding to an existing line replaces exactly that one position |
| Cart.AmountGrows | client/src/hooks/useCart.ts:70 | A line's amount grows linearly with its quantity |
| Cart.RemoveChangesFolds | client/src/hooks/useCart.ts:49-51 | Removing a present id removes exactly one line, and lowers the count and the total by that line's share |
| Cart.UniqueIndex | client/src/hooks/useCart.ts:37 | With unique ids, the line carrying an id is the one `find` returns |
| Cart.Apply | client/src/hooks/useCart.ts:35-67 | Each of the four mutations keeps line ids pairwise distinct |
| Cart.RunKeepsIdsUnique | client/src/hooks/useCart.ts:35-67 | Ids stay pairwise distinct after any sequence of add, remove, update and clear |
| Cart.AddEachAccumulates | client/src/hooks/useCart.ts:38-43 | Repeated adds of a present item accumulate every quantity in that one line, at the same position |
| Cart.RepeatedAddsMakeOneLine | client/src/hooks/useCart.ts:35-47 | However often a new item is added, it has exactly one line whose quantity is the sum of the requests |
| Cart.CartStore.constructor | client/src/hooks/useCart.ts:12-13 | The store mounts with an empty cart and the restore not yet done |
| Cart.CartStore.Load | client/src/hooks/useCart.ts:16-26 | Restores the saved lines if the slot parses, and otherwise keeps the empty cart. It then opens the save gate, and the slot holds the cart. |
| Cart.CartStore.Save | client/src/hooks/useCart.ts:29-33 | Writes the cart to the slot only once the restore has completed. Otherwise the slot is untouched. |
| Cart.CartStore.AddToCart | client/src/hooks/useCart.ts:35-47 | The new cart is `AddLine` of the old one. Once loaded, the slot holds it. |
| Cart.CartStore.RemoveFromCart | client/src/hooks/useCart.ts:49-51 | The new cart is `RemoveLine` of the old one, saved through the gate |
| Cart.CartStore.UpdateQuantity | client/src/hooks/useCart.ts:53-63 | A quantity ≤ 0 delegates to removal. Otherwise the quantity is set. Either way the new cart is `SetQuantity` of the old one. |
| Cart.CartStore.ClearCart | client/src/hooks/useCart.ts:65-67 | The cart becomes empty, with total 0 and count 0 |
| Cart.MountOnCorruptSlot | client/src/hooks/useCart.ts:18-25 | A slot that does not parse leaves the cart empty, and the empty cart is then written back |
| Cart.Reopen | client/src/hooks/useCart.ts:16-33 | A store mounted on what another loaded store saved restores exactly its lines |
| Filters.PriceMatch | client/src/hooks/useFilters.ts:44-46 | Both ends of the price range are inclusive, and an inverted range lets nothing through |
| Filters.CategoryMatch | client/src/hooks/useFilters.ts:48-50 | No selected category lets every product through; otherwise a product passes iff its category is selected |
| Filters.BrandMatch | client/src/hooks/useFilters.ts:52-53 | No selected brand lets every product through; otherwise a product passes iff its brand is selected |
| Filters.RatingMatch | client/src/hooks/useFilters.ts:55 | The minimum rating is inclusive; a rating below it fails; the starting minimum 0 lets every rating of at least 0 through |
| Filters.Matches | client/src/hooks/useFilters.ts:43-57 | A product passes iff its price is in the range, its category and its brand are selected or no selection is made, and its rating reaches the minimum |
| Filters.Filter | client/src/hooks/useFilters.ts:43-58 | Soundness and completeness: a product is returned iff it is in the catalog and passes all four tests |
| Filters.FilterCounts | client/src/hooks/useFilters.ts:43-58 | A passing product keeps its number of occurrences, and a failing one has none |
| Filters.FilterKeepsOrder | client/src/hooks/useFilters.ts:43-58 | Filtering distributes over concatenation, so catalog order is kept |
| Filters.DefaultCriteriaKeepAll | client/src/hooks/useFilters.ts:30-35 | The default criteria keep every product priced in [0, 10000] with a rating that is not negative, in order |
| Filters.EmptyPriceRangeKeepsNothing | client/src/hooks/useFilters.ts:44-46 | A price range that excludes every product leaves nothing |
| Filters.Insert | client/src/hooks/useFilters.ts:61-77 | One insertion step adds exactly the element and grows the length by one |
| Filters.SortedCons | client/src/hooks/useFilters.ts:61-77 | A sorted list stays sorted behind an element whose key does not exceed its first key |
| Filters.SortedTail | client/src/hooks/useFilters.ts:61-77 | The tail of a sorted list is sorted |
| Filters.InsertKeepsSorted | client/src/hooks/useFilters.ts:61-77 | Insertion into a sorted list keeps it sorted |
| Filters.SortKey | client/src/hooks/useFilters.ts:61-77 | For any two products a and b, k(a) − k(b) is the value of the comparator the chosen order passes to `sort`: a.price − b.price, b.price − a.price, b.reviews − a.reviews, b.rating − a.rating; under `newest` all keys tie |
| Filters.StableSort | client/src/hooks/useFilters.ts:61-77 | The sort returns a permutation of its input, of the same length |
| Filters.StableSortIsSorted | client/src/hooks/useFilters.ts:61-77 | The sort's result is sorted by the comparator's key |
| Filters.WithKeyOfConcat | client/src/hooks/useFilters.ts:61-77 | The elements with a given key distribute over concatenation |
| Filters.WithKeyOfLarger | client/src/hooks/useFilters.ts:61-77 | A list of larger keys has no element with a smaller key |
| Filters.WithKeyOfSingle | client/src/hooks/useFilters.ts:61-77 | A one-element list keeps its element iff the element has the key |
| Filters.WithKeyOfCons | client/src/hooks/useFilters.ts:61-77 | Selecting a key from a list with a new first element keeps that element in front iff it has the key |
| Filters.ConsKeepsStable | client/src/hooks/useFilters.ts:61-77 | The same first element keeps two lists' selections related |
| Filters.InsertFrontIsStable | client/src/hooks/useFilters.ts:61-77 | An element inserted in front of larger keys follows every element of its key, as there are none |
| Filters.InsertBehindIsStable | client/src/hooks/useFilters.ts:61-77 | An element inserted behind the head keeps the order the insertion into the tail gave |
| Filters.InsertIsStable | client/src/hooks/useFilters.ts:61-77 | An inserted element goes after every element that has its key |
| Filters.SortIsStable | client/src/hooks/useFilters.ts:61-77 | For every key, the sort keeps the relative order of the elements with that key |
| Filters.SortedOrders | client/src/hooks/useFilters.ts:62-73 | Ascending order in each comparator's key means ascending prices, descending prices, descending reviews or descending ratings |
| Filters.SameMembers | client/src/hooks/useFilters.ts:61-77 | Lists that are permutations of each other have the same members |
| Filters.FilteredAndSorted | client/src/hooks/useFilters.ts:39-80 | The memoised result has exactly the passing products, as a permutation of the filtered list. `newest` keeps the filtered catalog order. `price-asc` gives nondecreasing prices, `price-desc` nonincreasing prices, `popular` nonincreasing reviews, and `rating` nonincreasing ratings. |
| Filters.SortedResultIsStable | client/src/hooks/useFilters.ts:61-73 | Products that compare equal keep their catalog order |
| Filters.Reverse | client/src/hooks/useFilters.ts:62-67 | Reversal: same length, same elements, position k taken from the mirrored position |
| Filters.PriceOrdersAreReverses | client/src/hooks/useFilters.ts:62-67 | When no two different products share a price, `price-desc` is exactly `price-asc` reversed |
| Filters.PriceIdentifiesMembers | client/src/hooks/useFilters.ts:43-67 | Within any permutation of the filtered catalog, a price still identifies a product |
| Filters.ReversedAscendingIsDescending | client/src/hooks/useFilters.ts:62-67 | Reversing nondecreasing prices gives nonincreasing prices |
| Filters.SameHeadSameTail | client/src/hooks/useFilters.ts:61-77 | Permutations with the same first element have tails that are permutations of each other |
| Filters.SortedHeadsAgree | client/src/hooks/useFilters.ts:61-77 | Two sorted permutations whose key identifies elements start with the same element |
| Filters.SortedIsUnique | client/src/hooks/useFilters.ts:61-77 | When equal keys mean equal elements, a collection has exactly one sorted order |
| Filters.Without | client/src/hooks/useFilters.ts:90 | `filter(c => c !== v)`: the members are exactly the old ones other than v, and no duplicate is introduced |
| Filters.Toggle | client/src/hooks/useFilters.ts:86-102 | Membership of exactly that value flips, every other value keeps its membership, and no duplicate is introduced |
| Filters.ToggleTwice | client/src/hooks/useFilters.ts:86-102 | Toggling twice restores membership. For an absent value it restores the list exactly. |
| Filters.WithoutAbsent | client/src/hooks/useFilters.ts:90 | Filtering out an absent value changes nothing |
| Filters.WithoutOfConcat | client/src/hooks/useFilters.ts:90 | Filtering out a value distributes over concatenation |
| Filters.FirstIndexFinds | client/src/hooks/useFilters.ts:118 | The first-occurrence position holds the value, no earlier position does, and it is in range iff the value occurs |
| Filters.FirstIndexInPrefix | client/src/hooks/useFilters.ts:118 | Within a prefix, the first occurrence is the whole list's one when it lies in the prefix, and none otherwise |
| Filters.Distinct | client/src/hooks/useFilters.ts:118 | `Array.from(new Set(xs))`: no duplicates, the same members, in order of first occurrence |
| Filters.DistinctStep | client/src/hooks/useFilters.ts:118 | Adding one more value to the set keeps those three properties, appending the value only when it is new |
| Filters.PrefixIndices | client/src/hooks/useFilters.ts:118 | Values drawn from a prefix first occur in the whole list where they first occur in the prefix |
| Filters.DistinctKeep | client/src/hooks/useFilters.ts:118 | A repeated last value leaves the distinct values unchanged |
| Filters.DistinctAppend | client/src/hooks/useFilters.ts:118 | A new last value is appended after the distinct values of the prefix |
| Filters.AppendMembers | client/src/hooks/useFilters.ts:118 | The prefix's values plus the last element are the list's values |
| Filters.FirstIndexOfNewLast | client/src/hooks/useFilters.ts:118 | A last element that is new first occurs at the end |
| Filters.AppendKeepsOrder | client/src/hooks/useFilters.ts:118 | Appending a value that first occurs after all the others keeps first-occurrence order and introduces no duplicate |
| Filters.Categories | client/src/hooks/useFilters.ts:118 | `map(p => p.category)`: one category per product, position by position |
| Filters.Brands | client/src/hooks/useFilters.ts:122 | `map(p => p.brand)`: one brand per product, position by position |
| Filters.UniqueCategories | client/src/hooks/useFilters.ts:117-119 | Every category of the catalog exactly once, and nothing else, in first-occurrence order |
| Filters.UniqueBrands | client/src/hooks/useFilters.ts:121-123 | Every brand of the catalog exactly once, and nothing else, in first-occurrence order |
| Filters.FilterPanel.constructor | client/src/hooks/useFilters.ts:30-37 | Starts from the default criteria and `newest` |
| Filters.FilterPanel.Results | client/src/hooks/useFilters.ts:39-80 | The shown products are `FilteredAndSorted` of the panel's criteria and order: exactly the passing ones, in catalog order for `newest` and sorted by the chosen key otherwise |
| Filters.FilterPanel.SetSortBy | client/src/hooks/useFilters.ts:37 | Replaces the order and keeps the criteria |
| Filters.FilterPanel.UpdatePriceRange | client/src/hooks/useFilters.ts:82-84 | Replaces only the price range |
| Filters.FilterPanel.ToggleCategory | client/src/hooks/useFilters.ts:86-93 | Flips only that category. Prices, brands, rating and order are unchanged, and no duplicate is introduced. |
| Filters.FilterPanel.ToggleBrand | client/src/hooks/useFilters.ts:95-102 | Flips only that brand. Everything else is unchanged, and no duplicate is introduced. |
| Filters.FilterPanel.SetMinRating | client/src/hooks/useFilters.ts:104-106 | Replaces only the minimum rating |
| Filters.FilterPanel.ClearFilters | client/src/hooks/useFilters.ts:108-115 | Restores [0, 10000], empty lists and rating 0, and keeps the chosen order |
| Pricing.CouponRate | client/src/pages/Carrinho.tsx:13-25 | Exact, case-sensitive lookup: TECH20 gives 0.2 and TECH10 gives 0.1. A rate is non-zero iff the code is one of those two, and every rate lies in [0, 0.2]. |
| Pricing.Shipping | client/src/pages/Carrinho.tsx:29 | Free iff the subtotal is strictly above 100, and 15 otherwise |
| Pricing.DiscountAmount | client/src/pages/Carrinho.tsx:28 | No rate means no discount. A rate in [0, 1] discounts between 0 and the subtotal. |
| Pricing.CartTotal | client/src/pages/Carrinho.tsx:27-30 | Total plus discount equals subtotal plus shipping |
| Pricing.CheckoutTotal | client/src/pages/Checkout.tsx:37-39 | The checkout total is the cart total at rate 0. It exceeds the subtotal iff the subtotal is at most 100. |
| Pricing.CartTotalBounds | client/src/pages/Carrinho.tsx:27-30 | For a subtotal ≥ 0 and a table rate: 0 ≤ 0.8 × subtotal ≤ total ≤ subtotal + 15 |
| Pricing.ThresholdIsStrict | client/src/pages/Checkout.tsx:38 | A subtotal of exactly 100 pays the fee |
| Pricing.CheckoutIgnoresCoupon | client/src/pages/Checkout.tsx:37-39 | Checkout never charges less than the cart page showed. It charges more iff a coupon discounted a positive subtotal. |
| Pricing.DiscountKeepsFreeShipping | client/src/pages/Carrinho.tsx:28-30 | Above the threshold the total is the discounted subtotal, with no fee, even when the discount brings it below 100 |
| Pricing.WorkedExample | client/src/pages/Carrinho.tsx:27-30 | One line at 250 × 2 with TECH10: subtotal 500, discount 50, shipping 0, total 450 |
| CartPage.Summarize | client/src/pages/Carrinho.tsx:27-30 | The summary's subtotal is the cart total and its discount is the subtotal times the applied rate. Shipping is 0 iff the subtotal is above 100, and 15 otherwise. The total is subtotal − discount + shipping. |
| CartPage.SummaryBounds | client/src/pages/Carrinho.tsx:27-30 | For a cart with prices and quantities not negative, the shown total lies in [0, subtotal + 15] |
| CartPage.CartPageState.constructor | client/src/pages/Carrinho.tsx:10-11 | Empty code and no discount |
| CartPage.CartPageState.EditCoupon | client/src/pages/Carrinho.tsx:192-197 | Typing changes the code only, so the discount stays a rate of the coupon table |
| CartPage.CartPageState.ApplyCoupon | client/src/pages/Carrinho.tsx:13-25 | The discount becomes the typed code's rate, replacing any earlier one |
| CartPage.CartPageState.Shown | client/src/pages/Carrinho.tsx:27-30 | The summary of the store's current lines under the applied discount. With no negative price or quantity, the shown total is between 0 and the subtotal plus the fee. |
| CartPage.CartPageState.Decrement | client/src/pages/Carrinho.tsx:112-117 | Sets the line to max(1, q − 1) through the store. The cart keeps its length and still holds the line. |
| CartPage.CartPageState.Increment | client/src/pages/Carrinho.tsx:125-128 | Sets the line to exactly q + 1 through the store |
| CartPage.DecrementKeepsLine | client/src/pages/Carrinho.tsx:112-117 | "−" never removes a line: same length, the id is still present, its quantity is ≥ 1, and other lines are untouched |
| CartPage.IncrementAddsOneUnit | client/src/pages/Carrinho.tsx:125-128 | "+" raises the count by exactly one and the total by that line's price |
| Checkout.StepIndex | client/src/pages/Checkout.tsx:73-77 | `findIndex` of a step in the progress list |
| Checkout.SetDelivery | client/src/pages/Checkout.tsx:41-44 | The named field gets the value, and every other field keeps its value |
| Checkout.SetPayment | client/src/pages/Checkout.tsx:46-49 | The named field gets the value, and every other field keeps its value |
| Checkout.DeliveryComplete | client/src/pages/Checkout.tsx:53 | The delivery form is complete iff none of name, e-mail and street is blank; the empty starting form is not complete |
| Checkout.PaymentComplete | client/src/pages/Checkout.tsx:59 | Pix and boleto need nothing more; a card payment is complete iff the card number is not blank; the starting form (card, no number) is not complete |
| Checkout.Continue | client/src/pages/Checkout.tsx:51-65 | Delivery advances to payment iff name, e-mail and street are non-empty, and otherwise stays. Payment advances to review unless the method is credit-card with an empty card number, so pix and boleto always advance. Review stays. Continue never skips a step. |
| Checkout.BadgeOf | client/src/pages/Checkout.tsx:88-96 | A step shows completed iff its index is below the current step's index, and exactly one step shows current |
| Checkout.Handle | client/src/pages/Checkout.tsx:41-65 | Each event keeps the wizard consistent and never skips a step forward. Continue and the edit buttons leave both forms untouched. A field edit changes only its own form. A control that is not rendered does nothing. |
| Checkout.RunKeepsConsistent | client/src/pages/Checkout.tsx:51-65 | Every session of events keeps the wizard consistent |
| Checkout.ReviewNeedsCompleteForms | client/src/pages/Checkout.tsx:514-520 | From a fresh page, the review step (the only one offering "Confirmar Pedido") is reached only with complete delivery and payment data |
| Checkout.ConfirmationPath | client/src/pages/Checkout.tsx:70 | The confirmation path ends with the order id |
| Checkout.CheckoutPage.constructor | client/src/pages/Checkout.tsx:12-35 | Delivery step, empty delivery form, payment by credit card |
| Checkout.CheckoutPage.HandleDeliveryChange | client/src/pages/Checkout.tsx:41-44 | Only the named delivery field changes (rendered on delivery only) |
| Checkout.CheckoutPage.HandlePaymentChange | client/src/pages/Checkout.tsx:46-49 | Only the named payment field changes (rendered on payment only) |
| Checkout.CheckoutPage.HandleContinue | client/src/pages/Checkout.tsx:51-65 | The step becomes `Continue` of the old step and both forms are kept. On review nothing changes. |
| Checkout.CheckoutPage.EditDeliveryStep | client/src/pages/Checkout.tsx:414-420 | From review back to delivery, with both forms untouched |
| Checkout.CheckoutPage.EditPaymentStep | client/src/pages/Checkout.tsx:435-441 | From review back to payment, with both forms untouched |
| Checkout.CheckoutPage.HandlePlaceOrder | client/src/pages/Checkout.tsx:67-71 | Only on review: navigates to the confirmation path of the order id. The forms it submits are complete. |
| Listing.TotalPages | client/src/pages/Produtos.tsx:35 | ⌈n / 12⌉: zero pages iff no products, and 12(t − 1) < n ≤ 12t |
| Listing.StartIndex | client/src/pages/Produtos.tsx:36 | Pages start a multiple of 12 apart, page 1 at index 0, and the start is not negative iff the page number is at least 1 |
| Listing.PageItems | client/src/pages/Produtos.tsx:36-40 | The slice from (p − 1)·12, clipped to the list. At most 12 products, and empty past the end. |
| Listing.PageNonEmptyIffInRange | client/src/pages/Produtos.tsx:35-40 | A page has products iff 1 ≤ p ≤ totalPages, and every page before the last is full |
| Listing.FirstPagesArePrefix | client/src/pages/Produtos.tsx:36-40 | Pages 1..k concatenate to the first 12k products |
| Listing.PagesPartitionList | client/src/pages/Produtos.tsx:35-40 | Pages 1..totalPages concatenate to the whole list |
| Listing.StalePageIsEmpty | client/src/pages/Produtos.tsx:35-40 | A page number beyond the new page count shows nothing |
| Listing.ProductListing.constructor | client/src/pages/Produtos.tsx:12 | The listing opens on page 1 |
| Listing.ProductListing.Shown | client/src/pages/Produtos.tsx:36-40 | The slice of the current page (`PageItems`): at most 12 products, non-empty iff the current page is in range |
| Listing.ProductListing.Previous | client/src/pages/Produtos.tsx:266-268 | max(1, p − 1): never below 1 |
| Listing.ProductListing.Next | client/src/pages/Produtos.tsx:288-291 | min(totalPages, p + 1): never above the page count |
| Listing.ProductListing.GoTo | client/src/pages/Produtos.tsx:275-278 | Button i sets page i + 1, with 0 ≤ i < totalPages |
| ProductDetail.NextImage | client/src/pages/ProdutoDetalhe.tsx:52-56 | (i + 1) mod n stays in [0, n), steps forward, and wraps from the last picture to the first |
| ProductDetail.PrevImage | client/src/pages/ProdutoDetalhe.tsx:58-62 | (i − 1 + n) mod n stays in [0, n), steps back, and wraps from the first picture to the last |
| ProductDetail.ArrowsAreInverse | client/src/pages/ProdutoDetalhe.tsx:52-62 | Each arrow undoes the other |
| ProductDetail.QtyUp | client/src/pages/ProdutoDetalhe.tsx:216 | The quantity "+" never exceeds the stock. It adds one below the stock and yields the stock otherwise. |
| ProductDetail.ButtonsKeepQuantityInRange | client/src/pages/ProdutoDetalhe.tsx:206-216 | Both buttons keep the quantity within [1, stock], or within [0, 1] without stock |
| ProductDetail.DigitOf | client/src/pages/ProdutoDetalhe.tsx:22 | A digit's value is between 0 and 9 |
| ProductDetail.DigitRun | client/src/pages/ProdutoDetalhe.tsx:22 | The longest prefix of digits that `parseInt` reads |
| ProductDetail.Decimal | client/src/pages/ProdutoDetalhe.tsx:22 | Decimal notation is a non-empty string of digits |
| ProductDetail.DecimalValue | client/src/pages/ProdutoDetalhe.tsx:22 | The digits of n have value n |
| ProductDetail.ParseDecimal | client/src/pages/ProdutoDetalhe.tsx:22 | `parseInt` reads back any id that is not negative from its notation, whatever non-digit text follows |
| ProductDetail.TrimStart | client/src/pages/ProdutoDetalhe.tsx:22 | Dropping the leading spaces leaves a string no longer than the input that does not start with a space |
| ProductDetail.ParseInt | client/src/pages/ProdutoDetalhe.tsx:22 | After the leading spaces and one optional sign, no digit means not a number (`NaN`, here `None`). Otherwise the value is the longest run of digits there, negated after a minus. |
| ProductDetail.LeadingDigitParses | client/src/pages/ProdutoDetalhe.tsx:22 | A string that starts with a digit parses to the value of its leading run of digits |
| ProductDetail.ZeroParses | client/src/pages/ProdutoDetalhe.tsx:22 | `parseInt('0')` is 0 |
| ProductDetail.RouteId | client/src/pages/ProdutoDetalhe.tsx:22 | A missing or empty id parameter stands for 0 |
| ProductDetail.FindProduct | client/src/pages/ProdutoDetalhe.tsx:22 | `find`: nothing iff no product carries the id. Otherwise the first product that carries it. |
| ProductDetail.LookupProduct | client/src/pages/ProdutoDetalhe.tsx:17-25 | An id that is not a number finds nothing. A number finds the first product with that id. |
| ProductDetail.LinkFindsProduct | client/src/pages/ProdutoDetalhe.tsx:22 | In a catalog with unique ids, the route `/produto/<id>` shows exactly that product |
| ProductDetail.SameCategoryOthers | client/src/pages/ProdutoDetalhe.tsx:49 | A product is kept iff it is in the catalog, shares the category, and has a different id |
| ProductDetail.SameCategoryOthersOfConcat | client/src/pages/ProdutoDetalhe.tsx:49 | The selection distributes over concatenation, so catalog order is kept |
| ProductDetail.Related | client/src/pages/ProdutoDetalhe.tsx:48-50 | At most 4 products, all of the same category and none of them the product itself. They are the first candidates in catalog order. |
| ProductDetail.FewCandidatesAllShown | client/src/pages/ProdutoDetalhe.tsx:48-50 | With at most 4 candidates, all of them are shown |
| ProductDetail.FirstImage | client/src/pages/ProdutoDetalhe.tsx:41 | A product with pictures sends its first picture to the cart; one without sends the empty string |
| ProductDetail.CartPayload | client/src/pages/ProdutoDetalhe.tsx:35-44 | The cart gets the product's id, name, price and first image |
| ProductDetail.ProductDetailView.constructor | client/src/pages/ProdutoDetalhe.tsx:13-14 | Quantity 1, first picture |
| ProductDetail.ProductDetailView.NextPicture | client/src/pages/ProdutoDetalhe.tsx:52-56 | The index becomes `NextImage` and stays a valid picture index |
| ProductDetail.ProductDetailView.PrevPicture | client/src/pages/ProdutoDetalhe.tsx:58-62 | The index becomes `PrevImage` and stays a valid picture index |
| ProductDetail.ProductDetailView.SelectPicture | client/src/pages/ProdutoDetalhe.tsx:116 | A thumbnail shows the picture at its own index; the quantity is unchanged and the index stays valid |
| ProductDetail.ProductDetailView.DecreaseQuantity | client/src/pages/ProdutoDetalhe.tsx:206 | The quantity becomes `StepDown` of the old one and stays in range |
| ProductDetail.ProductDetailView.IncreaseQuantity | client/src/pages/ProdutoDetalhe.tsx:216 | The quantity becomes `QtyUp` and stays in range |
| ProductDetail.ProductDetailView.AddToCart | client/src/pages/ProdutoDetalhe.tsx:35-46 | Adds the payload with the selected quantity. A new product becomes the last line, with exactly those values. With stock on hand, the quantity lies between 1 and the stock. |

## Left out

- Rendering, layout and styling are not modelled. Neither are the components without logic of their own, the home page's banner rotation, or the confirmation page. The confirmation page clears the cart when it mounts, so placing an order does not clear the cart itself.
- Fetching the catalog is not modelled. The catalog is an input sequence.
- Browser storage and JSON are an abstract slot: empty, corrupt, or holding lines. Several cases collapse or are left out:
  - A saved empty string counts as empty, as in the code.
  - A stored value that parses to something other than a list of lines is not modelled.
- The random order id is a parameter of `Checkout.CheckoutPage.HandlePlaceOrder`.
- Navigation, alert messages and two-decimal formatting are not modelled.
- Prices and ratings are exact reals, not IEEE-754 doubles. Rounding in the totals is therefore not modelled.
- Filters.StableSort: the library's comparator sort is modelled by an insertion sort with the same guarantees (sorted, a permutation, stable). The library's own algorithm and its comparison count are not modelled.
- ProductDetail.ParseInt: covers leading spaces, a sign, and decimal digits. Other leading whitespace, the `0x` prefix and numbers beyond 2^53 are not modelled.
- ProductDetail.ProductDetailView: a fresh view is opened for each product. When a related-product link is followed, the code keeps the previous product's quantity and picture index. That carry-over is not modelled.
- ProductDetail.FirstImage: a product without pictures gets the empty string, where the code passes `undefined`.
- Listing.ProductListing: the page number is not reset when the filtered list changes. The model keeps that behaviour, and `Listing.StalePageIsEmpty` states its effect. The empty page renders the "no products" message, and the page buttons inside the grid branch are not rendered.
