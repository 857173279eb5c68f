# GiftShop storefront: cart store, user store and category listing

This project models in Dafny the logic of the GiftShop storefront (a React and
Redux single-page shop). It covers three parts, and the rest of the
application is page markup:

- **The cart slice.** An ordered list of line items `{id, name, price,
  quantity, image}` changed by `addToCart`, `removeFromCart`, `updateQuantity`
  and `clearCart`. Two selectors fold over the list: the item count (sum of
  quantities) and the cart total (sum of price times quantity). The header
  recomputes the same item count inline, with the same fold.
- **The user slice.** An optional user record, a list of addresses, a list of
  payment methods and an authenticated flag. They are changed by
  `updateProfile`, `updatePassword`, `addAddress`, `updateAddress`,
  `addPaymentMethod` and `logout`.
- **The product listing page's category filter.** A product is listed under
  the route parameter `categoryName` when its category, lower-cased and with
  every run of whitespace replaced by `-`, equals `categoryName`.

Layout:

- `wrappers.dfy`: `Option`.
- `seqs.dfy`: `FirstIndex`, the first-match search behind `find` and
  `findIndex`, and `Find`, the loop that computes it. Also `IsSubsequence`.
- `money.dfy`: price strings and integer cents.
- `cart.dfy`: line items, the reducers as functions on the list, the folds,
  and the class `CartStore`.
- `user.dfy`: users, addresses and payment methods, and the class
  `UserStore`.
- `catalog.dfy`: the slug, the listing filter and the seed catalog as
  fixture data.

Each store is a class whose fields the methods update, as the reducers do. The
cart's methods are proved equal to pure functions of the old list (`Added`,
`WithoutId`, `QuantitySet`). The invariants and the effects on the selectors
are lemmas about those functions. `Reduce` and `Replay` model the slice's
reducer over a sequence of dispatched actions.

Prices are integer cents. The source parses `"$45.00"` with
`parseFloat(price.replace('$', ''))` and multiplies in floating point. The
model parses a well-formed price, `"$" digits "." digit digit`, exactly. The
cart total requires every line's price to be well formed.

The checkout figures are markup, not logic. No function in the code computes
tax, shipping or an order total: the cart page and the checkout page show fixed
figures (src/pages/ShoppingCartPage.tsx:214-233,
src/pages/CheckoutPage.tsx:155-168). So the cart total is the last thing
modelled. `updateQuantity` applies `Math.max(1, quantity)` and does not round
(src/store/cartSlice.ts:39). The reducers are synchronous and the cart slice
has no pending, success or error states.

## Model

| member | source | states |
|---|---|---|
| Seqs.FirstIndex | src/store/cartSlice.ts:26 | the index `find`/`findIndex` stop at: a match with no match before it, or -1 exactly when no element matches |
| Seqs.Find | src/store/userSlice.ts:92 | the linear search returns exactly `FirstIndex` |
| Money.ParsePrice | src/store/cartSlice.ts:53 | a price is read as a number of cents exactly when it is `"$" digits "." digit digit` |
| Money.DecimalRoundTrip | src/store/cartSlice.ts:53 | reading back the decimal spelling of a number gives the number |
| Money.ParseFormatRoundTrip | src/store/cartSlice.ts:53 | every amount of cents, formatted as a price and parsed again, comes back unchanged |
| Money.ParsePriceExamples | src/store/productsSlice.ts:36 | "$45.00" is 4500 cents, "$28.50" is 2850, "$120.00" is 12000; "45.00" and "$45" are rejected by the model, although `parseFloat` in the source reads them as 45 |
| Cart.ItemCount | src/store/cartSlice.ts:57-59 | the sum of quantities is at least the number of lines when every quantity is at least 1 |
| Cart.CartTotal | src/store/cartSlice.ts:51-56 | the sum of price-in-cents times quantity is never negative when every quantity is at least 1 |
| Cart.Added | src/store/cartSlice.ts:25-31 | definition of `addToCart` on the list: bump the first line with the payload's id, or append `{payload, quantity: 1}`; its properties are the lemmas below |
| Cart.WithoutId | src/store/cartSlice.ts:34 | definition of `removeFromCart` on the list: the lines whose id differs, in order; see RemoveKeepsOthers and RemoveCounts |
| Cart.QuantitySet | src/store/cartSlice.ts:36-41 | definition of `updateQuantity` on the list: the first line with the id gets `max(1, q)`; see SetQuantityPresent and SetQuantityAbsent |
| Cart.LineTotal | src/store/cartSlice.ts:53-54 | definition: a line's price in cents times its quantity |
| Cart.AddAbsent | src/store/cartSlice.ts:29-31 | a new id appends `{payload, quantity: 1}` at the end and keeps every earlier line |
| Cart.AddPresent | src/store/cartSlice.ts:26-28 | a present id gains exactly 1 on its first line; that line keeps its stored name, price and image; length and every other line are kept |
| Cart.RemoveKeepsOthers | src/store/cartSlice.ts:33-35 | a line is in the result exactly when it is in the cart and its id differs; the result is a subsequence in the original order; an absent id changes nothing |
| Cart.RemoveCounts | src/store/cartSlice.ts:34 | every line whose id differs occurs in the result as often as in the cart, and no line with the id occurs |
| Cart.SetQuantityPresent | src/store/cartSlice.ts:36-41 | the first line with the id gets quantity `max(1, q)`; nothing else changes |
| Cart.SetQuantityAbsent | src/store/cartSlice.ts:36-41 | an absent id leaves the cart unchanged |
| Cart.AddKeepsWellFormed | src/store/cartSlice.ts:25-31 | adding keeps ids unique and quantities at least 1 |
| Cart.RemoveKeepsWellFormed | src/store/cartSlice.ts:33-35 | removing keeps ids unique and quantities at least 1 |
| Cart.SetQuantityKeepsWellFormed | src/store/cartSlice.ts:36-41 | setting a quantity keeps ids unique and quantities at least 1 |
| Cart.Reduce | src/store/cartSlice.ts:24-45 | definition of the slice's reducer: each of the four actions applied to the list |
| Cart.Replay | src/store/cartSlice.ts:24-45 | definition: a sequence of dispatched actions applied in order |
| Cart.ReduceKeepsWellFormed | src/store/cartSlice.ts:24-45 | each of the four actions keeps ids unique and quantities at least 1 |
| Cart.ReplayKeepsWellFormed | src/store/cartSlice.ts:24-45 | any sequence of actions keeps ids unique and quantities at least 1 |
| Cart.ReachableCartsAreWellFormed | src/store/cartSlice.ts:17-19 | starting from the empty initial cart, every sequence of actions leaves unique ids and quantities of at least 1 |
| Cart.ItemCountConcat | src/store/cartSlice.ts:57-59 | the count of two carts laid end to end is the sum of their counts |
| Cart.ItemCountUpdate | src/store/cartSlice.ts:57-59 | replacing a line changes the count by the difference of the quantities |
| Cart.ItemCountZeroIffEmpty | src/store/cartSlice.ts:57-59 | with quantities of at least 1, the count is 0 exactly when the cart is empty |
| Cart.AddRaisesItemCount | src/store/cartSlice.ts:25-31 | `addToCart` raises the item count by exactly 1, whether the id is new or present |
| Cart.CartTotalConcat | src/store/cartSlice.ts:51-56 | the total of two carts laid end to end is the sum of their totals |
| Cart.CartTotalUpdate | src/store/cartSlice.ts:51-56 | replacing a line changes the total by the difference of the line totals |
| Cart.LineTotalBumped | src/store/cartSlice.ts:54 | one more unit of a line adds one unit price to its line total |
| Cart.AddAbsentRaisesTotal | src/store/cartSlice.ts:29-31 | adding a new id raises the total by the payload's price |
| Cart.AddPresentRaisesTotal | src/store/cartSlice.ts:26-28 | adding a present id raises the total by the price stored on the line, not the payload's |
| Cart.ClearEmpties | src/store/cartSlice.ts:42-44 | clearing gives the empty list, clearing twice is clearing once, and count and total are then 0 |
| Cart.DeskSetAddedTwice | src/store/cartSlice.ts:25-31 | adding the "$45.00" desk set (id "1") twice to an empty cart gives one line of quantity 2 |
| Cart.DeskSetClamped | src/store/cartSlice.ts:39 | setting that line's quantity to 0 clamps it to 1 |
| Cart.DeskSetTotals | src/store/cartSlice.ts:51-59 | two desk sets count 2 and cost 9000 cents; one costs 4500 cents |
| Cart.CartStore.constructor | src/store/cartSlice.ts:17-19 | the store starts empty, and so well formed |
| Cart.CartStore.AddToCart | src/store/cartSlice.ts:25-32 | the new list is `Added(old list, payload)`; a well-formed cart stays well formed |
| Cart.CartStore.RemoveFromCart | src/store/cartSlice.ts:33-35 | the new list is `WithoutId(old list, id)`; a well-formed cart stays well formed |
| Cart.CartStore.UpdateQuantity | src/store/cartSlice.ts:36-41 | the new list is `QuantitySet(old list, id, q)`; a well-formed cart stays well formed |
| Cart.CartStore.ClearCart | src/store/cartSlice.ts:42-44 | the list becomes empty |
| Users.Merged | src/store/userSlice.ts:81 | definition of the spread `{ ...user, ...patch }`: each field from the patch when it is given, otherwise from the user; see MergeOverwritesGivenFields |
| Users.MergeOverwritesGivenFields | src/store/userSlice.ts:81 | the spread merge overwrites exactly the fields the partial record gives and keeps every other field |
| Users.MergeIdempotent | src/store/userSlice.ts:81 | merging the same partial record twice is merging it once; the empty partial record changes nothing |
| Users.AddressReplaced | src/store/userSlice.ts:91-96 | definition of `updateAddress` on the list: the first address with the new one's id is replaced; see AddressReplacedSpec |
| Users.AddressReplacedSpec | src/store/userSlice.ts:91-96 | the first address with the new one's id is replaced; length and all other entries are kept; with no match nothing changes |
| Users.AddAddressAllowsDuplicateIds | src/store/userSlice.ts:88-90 | appending makes no id check: an address with an existing id makes the ids non-unique, and `updateAddress` with that id then leaves the appended entry as it is |
| Users.UserStore.constructor | src/store/userSlice.ts:41-73 | the initial state: Alex Johnson signed in, one home address, one VISA card |
| Users.UserStore.UpdateProfile | src/store/userSlice.ts:79-83 | with a user, the user becomes the merge of the old user and the partial record; with none, the user stays null; the other fields are unchanged |
| Users.UserStore.UpdatePassword | src/store/userSlice.ts:84-87 | nothing changes |
| Users.UserStore.AddAddress | src/store/userSlice.ts:88-90 | the address is appended; everything else is unchanged |
| Users.UserStore.UpdateAddress | src/store/userSlice.ts:91-96 | the addresses become `AddressReplaced(old addresses, a)`; everything else is unchanged |
| Users.UserStore.AddPaymentMethod | src/store/userSlice.ts:97-99 | the payment method is appended; everything else is unchanged |
| Users.UserStore.Logout | src/store/userSlice.ts:100-103 | not authenticated and no user afterwards; addresses and payment methods unchanged |
| Catalog.Lower | src/pages/ProductListingPage.tsx:14 | an ASCII character lower-cased is not upper-case, and is whitespace exactly when the original is |
| Catalog.Slug | src/pages/ProductListingPage.tsx:14 | a slug contains no whitespace and no upper-case letter |
| Catalog.SlugOfWord | src/pages/ProductListingPage.tsx:14 | without whitespace, the slug is the string lower-cased character by character |
| Catalog.SlugOfLeadingRun | src/pages/ProductListingPage.tsx:14 | a leading run of whitespace becomes a single "-" |
| Catalog.SlugOfRun | src/pages/ProductListingPage.tsx:14 | every maximal run of whitespace becomes a single "-": slug(a + run + b) = slug(a) + "-" + slug(b) |
| Catalog.SlugOfWordIs | src/pages/ProductListingPage.tsx:14 | a word's slug is its lower-case spelling |
| Catalog.SlugOfTwoWords | src/pages/ProductListingPage.tsx:14 | two words separated by a space give their lower-case spellings joined by "-" |
| Catalog.SlugOfDeskAccessories | src/store/productsSlice.ts:41 | "Desk Accessories" becomes "desk-accessories" |
| Catalog.SlugOfDecorativeStatues | src/store/productsSlice.ts:94 | "Decorative Statues" becomes "decorative-statues" |
| Catalog.SlugOfDecor | src/store/productsSlice.ts:66 | "Decor" becomes "decor" |
| Catalog.SlugOfElectronics | src/store/productsSlice.ts:75 | "Electronics" becomes "electronics" |
| Catalog.SlugOfStationery | src/store/productsSlice.ts:84 | "Stationery" becomes "stationery" |
| Catalog.SeedCategorySlugs | src/store/productsSlice.ts:31-114 | the slugs of the five categories of the seed catalog |
| Catalog.InCategory | src/pages/ProductListingPage.tsx:14 | definition: the product has a category and that category's slug equals `categoryName` |
| Catalog.ProductsInCategory | src/pages/ProductListingPage.tsx:13-15 | definition of `allProducts.filter(...)`: the products in the category, in catalog order; see the three lemmas below |
| Catalog.FilterSoundAndComplete | src/pages/ProductListingPage.tsx:13-15 | a product is listed exactly when it is in the catalog, has a category, and that category's slug equals `categoryName` |
| Catalog.FilterKeepsOrder | src/pages/ProductListingPage.tsx:13-15 | the listing is a subsequence of the catalog, in catalog order |
| Catalog.FilterCounts | src/pages/ProductListingPage.tsx:13-15 | each product in the category is listed as often as the catalog holds it, and no other product is listed |
| Catalog.UnsluggedNameListsNothing | src/pages/ProductListingPage.tsx:14 | a `categoryName` with whitespace or an upper-case letter lists no product |
| Catalog.FilterAppend | src/pages/ProductListingPage.tsx:13-15 | filtering a concatenation filters each part |
| Catalog.SeedListsDecorativeStatues | src/store/productsSlice.ts:87-113 | "decorative-statues" lists products 5, 6 and 7, in that order |
| Catalog.SeedListsDecor | src/store/productsSlice.ts:58-67 | matching is whole-name equality: "decor" lists only product 2, not the decorative statues |
| Catalog.SeedListsDeskAccessories | src/store/productsSlice.ts:33-41 | "desk-accessories" lists only product 1 |

## Left out

- Floating point: prices are integer cents, and the float products and sums of `selectCartTotal` and their rounding are not modelled. `parseFloat` on other spellings is not modelled either: the total requires well-formed prices. The source also reads `"$45"`, `"45.00"` and `"$45.5"` as ordinary numbers, while the model rejects them; malformed text gives NaN or a parsed prefix.
- Quantities are unbounded integers. A JavaScript `number` payload to `updateQuantity` that is fractional or NaN is not modelled (`Math.max(1, NaN)` is NaN). Precision loss above 2^53 is not modelled either.
- Lower-casing and `\s` cover ASCII only. Unicode whitespace such as U+00A0 and the lower-casing of non-ASCII letters are not modelled.
- Users.UserStore.UpdateProfile: `Partial<User>` is modelled as a record of optional fields. A payload key present with the value `undefined`, which the spread would copy, is not modelled.
- Products carry only id, name, price and an optional category. The filter reads only the category; id, name and price are kept so that the seed catalog's products can be told apart. Rating, images and the other optional fields are left out. Rating is a floating-point number.
- The selectors `selectCartItems`, `selectUser`, `selectAddresses`, `selectPaymentMethods` and `selectIsAuthenticated` only read a field, so they are the class fields themselves.
- Redux plumbing is not modelled: action creators, the store, immutable-update drafts and React re-rendering. A reducer is modelled as a method on the store object, or as `Reduce` on the list. In-place mutation of a found line is modelled as an update of the list at its index.
- The `categoryName` route parameter is modelled as a string. React Router's URL decoding is not modelled.
- The product catalog's async loading, the network client and the page components are not part of this model.
