# Marketplace buyer app: the cart store, the cart page and the shop list

This project models, in Dafny, the core of a buyer-facing marketplace that
puts many Shopify storefronts behind one site. A buyer browses a directory
of shops, adds variants to one cart per shop, and checks out shop by shop.
The browser's local storage records which cart belongs to which shop.

- `CartHelpers` (`cart_helpers.dfy`) models the local store and the cart
  mutator of `helpers/cartHelpers.js`. The store has two slots. `carts`
  maps a shop domain to the id of that shop's cart. `cartCount` is the
  item count shown across shops, and every write to it dispatches a
  `storage` event. The class `CartStore` holds these slots. Each method
  is proved to leave exactly the state given by a specification function
  on `Storage` values. Lemmas about those functions cover sequences of
  add-to-cart calls: how much the count rises, which shops end up with a
  cart, and that nothing else changes.
- `CartPage` (`cart_page.dfy`) models `pages/cart/index.js`:
  - loading every stored shop's cart (`getCartsInfo`);
  - the per-shop totals;
  - the loop that sums the carts into one summary and one grand total;
  - replacing one shop's cart after a line is removed or its quantity
    changes;
  - the message handler that reloads the page;
  - the effect that writes the page's item count back to the store.

  The page's object `cartsInfo` keeps its keys in insertion order, so it
  is a sequence of entries with unique domains. `Put` models
  `{...cartsInfo, [domain]: cart}`.
- `ShopIndex` (`shop_index.dfy`) models `pages/index.js`:
  - pagination of the shop list, five shops to a page;
  - the query variables built from the country filter, the search string
    and the sort order;
  - the list of countries offered.
- `Decimal` (`decimal.dfy`) models the decimal rendering of a count and
  JavaScript's `parseInt` on decimal strings. `Options` holds the
  `Option` type.

The shop directory and the shops' storefront backends are not modelled as
code. Each backend call becomes two things: the request the client sends
(a `Request` value), and the backend's answer, which is a parameter. The
answers are:

- an `Option<CartHandle>` for `cartCreate` and `cartLinesAdd`;
- an `Option<RemoteCart>` for `cartLinesRemove`, `cartLinesUpdate` and
  `cart(id:)`;
- for the directory, the function `lookupShops`.

`None` stands for a null `cart`.

Some readings of the code that the model makes explicit:

- `!carts[domain]` treats both a missing entry and an empty id as "no cart".
- `increaseCartCount` treats a missing or null count as 0.
- A cart creation that returns no cart throws before anything is written.
  The count increment in `addToCart` still happens, because that call
  does not wait for the creation.
- The grand total adds `parseInt` of each cart's `totalAmount.amount`.
  The fractional part is dropped. NaN, modelled as `None`, absorbs every
  later sum. The currency code is ignored, and the total is then shown
  in CAD.
- A shop's panel labels the cart's `totalAmount` as SUBTOTAL.
- The cart page's edit handlers spread the `cartsInfo` of the render that
  created them, not the page's current one. Two edits started from one
  render on two shops therefore lose the first shop's new cart.
- When the cart page mounts, its count is still null. The count effect
  therefore writes null to the store unless the store already holds null.

## Model

| member | source | states |
|---|---|---|
| Decimal.ToDecimal | pages/cart/index.js:49 | the text of a count is a non-empty string of digits, with no leading zero unless the count is 0 |
| Decimal.ToDecimalValue | pages/cart/index.js:49 | reading the digits of a count's text gives the count back |
| Decimal.LeadingDigits | pages/cart/index.js:239 | the digits `parseInt` reads are the longest all-digit prefix of the text |
| Decimal.LeadingDigitsOfDigits | pages/cart/index.js:239 | the leading digits of digits followed by a non-digit are exactly those digits |
| Decimal.ParseInt | pages/cart/index.js:239 | `parseInt` gives NaN exactly when no digit follows the optional sign; otherwise its sign is the text's sign |
| Decimal.ParseIntOfDecimal | pages/cart/index.js:239 | `parseInt` reads a count's text back as the count, whatever non-digit text follows |
| Decimal.ParseIntDropsFraction | pages/cart/index.js:239 | `parseInt` of a decimal amount `w.f` is `w`: the fraction is dropped |
| CartHelpers.ReadCarts | helpers/cartHelpers.js:130-139 | reading the carts map stores the empty map when none is stored, and otherwise changes nothing |
| CartHelpers.WithCartId | helpers/cartHelpers.js:141-147 | the shop's entry becomes the cart id, the keys gain only that shop, and every other entry is unchanged |
| CartHelpers.CountBase | helpers/cartHelpers.js:119-120 | a missing or null count is read as 0, and a stored count as itself |
| CartHelpers.Incremented | helpers/cartHelpers.js:118-123 | the count becomes one more than its previous value, with one `storage` event; carts are untouched |
| CartHelpers.WithCount | helpers/cartHelpers.js:125-128 | the count becomes the given amount (possibly null), with one `storage` event; carts are untouched |
| CartHelpers.AfterCreateNewCart | helpers/cartHelpers.js:149-168 | a created cart's id becomes the shop's entry; with no cart returned, storage is unchanged; the count is untouched |
| CartHelpers.AfterAddToExistingCart | helpers/cartHelpers.js:170-190 | the count rises by one; the entry changes only when no cart comes back from adding a line and a new cart is then created |
| CartHelpers.AfterAddToCart | helpers/cartHelpers.js:192-202 | the count rises by one with one event; the shop's entry becomes the new cart's id exactly when a cart is created, and otherwise the map is unchanged |
| CartHelpers.AddToCartRequests | helpers/cartHelpers.js:192-202 | a tracked shop gets `cartLinesAdd` on its stored cart first; a `cartCreate` follows (or comes alone) exactly when a cart is created |
| CartHelpers.AddAllCount | helpers/cartHelpers.js:192-202 | after n add-to-cart calls the count is exactly n more than before, whatever count was stored |
| CartHelpers.AddAllTracksTouched | helpers/cartHelpers.js:192-202 | when cart creations succeed, every shop added to has a cart, and every other shop's entry is unchanged |
| CartHelpers.CreatesAtPrefix | helpers/cartHelpers.js:192-202 | whether a call creates a cart depends only on the calls before it and on that call |
| CartHelpers.AddAllKeepsUncreated | helpers/cartHelpers.js:192-202 | a shop that no call in the sequence created a cart for keeps the entry it had before |
| CartHelpers.AddAllLatestCart | helpers/cartHelpers.js:192-202 | after a sequence of add-to-cart calls, each shop's entry is the id of the cart created by the last call that created one for it |
| CartHelpers.AddAllFromEmpty | helpers/cartHelpers.js:130-202 | from no stored map, the keys afterwards are exactly the shops added to |
| CartHelpers.CartStore.constructor | helpers/cartHelpers.js:111-112 | the store holds the given carts and count slots and has dispatched no event |
| CartHelpers.CartStore.IncreaseCartCount | helpers/cartHelpers.js:118-123 | the new state is `Incremented` of the old |
| CartHelpers.CartStore.GetCartCount | helpers/cartHelpers.js:114-116 | answers the stored count, `None` when it is absent or null, which `increaseCartCount` then reads as 0 |
| CartHelpers.CartStore.SetCartCount | helpers/cartHelpers.js:125-128 | the new state is `WithCount` of the old, and reading the count back gives the amount just set |
| CartHelpers.CartStore.GetCarts | helpers/cartHelpers.js:130-139 | answers the stored map, or the empty map, which it then stores |
| CartHelpers.CartStore.SetCartIdForShop | helpers/cartHelpers.js:141-147 | the new state is `WithCartId` of the old |
| CartHelpers.CartStore.CreateNewCart | helpers/cartHelpers.js:149-168 | sends one `cartCreate` with the variant at quantity 1, hands back the answer, and leaves `AfterCreateNewCart` |
| CartHelpers.CartStore.AddToExistingCart | helpers/cartHelpers.js:170-190 | sends `cartLinesAdd` with the variant and no quantity, then `cartCreate` when no cart came back, and leaves `AfterAddToExistingCart` |
| CartHelpers.CartStore.AddToCart | helpers/cartHelpers.js:192-202 | sends the requests `AddToCartRequests` lists and leaves `AfterAddToCart` |
| CartHelpers.CartStore.AddToCartAndCheckout | helpers/cartHelpers.js:204-210 | always creates a new cart for the shop, opens that cart's checkout URL, and never touches the count |
| CartHelpers.RemoveItemFromCart | helpers/cartHelpers.js:212-224 | sends one `cartLinesRemove` for exactly that line of that cart and hands back the backend's cart |
| CartHelpers.UpdateItemCountInCart | helpers/cartHelpers.js:226-243 | sends one `cartLinesUpdate` setting that line's quantity and hands back the backend's cart |
| CartPage.TotalQuantityAppend | pages/cart/index.js:48 | the item count of two lists of lines is the sum of their counts |
| CartPage.ReduceIsTotal | pages/cart/index.js:48 | the left fold of `reduce` from a start value adds the sum of all quantities to it |
| CartPage.GetShopTotals | pages/cart/index.js:47-54 | a shop's item count is the sum of its lines' quantities, with one `q x title` text per line, in line order |
| CartPage.ItemsInfoQuantity | pages/cart/index.js:49 | each line's summary text starts with that line's quantity, which `parseInt` reads back |
| CartPage.AddNumbers | pages/cart/index.js:239 | a sum is a number exactly when both operands are, and is then their sum |
| CartPage.NonNull | pages/cart/index.js:238 | an entry is kept exactly when it is one of the given entries and its cart is not null |
| CartPage.NonNullAppend | pages/cart/index.js:238 | filtering keeps the order: the kept entries of two lists joined are those of the first, then those of the second |
| CartPage.Summarize | pages/cart/index.js:237-313 | one panel per shop in key order; one summary row per non-null cart; grand total and item count as `GrandTotal` and `ItemCount` define them; total shown in CAD |
| CartPage.NullCartsAddNothing | pages/cart/index.js:238 | shops with a null cart add nothing to the grand total, the item count or the summary rows |
| CartPage.ItemCountIsAllLines | pages/cart/index.js:282-283 | the cross-shop item count is the sum of the quantities of every line of every non-null cart |
| CartPage.GrandTotalIgnoresCurrency | pages/cart/index.js:239 | the grand total depends on the amount strings only, never on the currency codes |
| CartPage.GrandTotalDefined | pages/cart/index.js:239 | the grand total is a number exactly when every non-null cart's amount starts with digits |
| CartPage.GrandTotalIsWholeSum | pages/cart/index.js:239 | when every non-null cart's amount starts with a digit, the grand total is the sum of the integer parts of those amounts |
| CartPage.WholePartOfDecimal | pages/cart/index.js:239 | the integer part of a decimal amount `w.f` is `w` |
| CartPage.GrandTotalTruncates | pages/cart/index.js:239 | two carts of 0.50 make a grand total of 0 |
| CartPage.Put | pages/cart/index.js:205-208 | setting a key keeps the length when the key exists, and otherwise appends the entry last |
| CartPage.PutFind | pages/cart/index.js:205-208 | after setting a key, it holds the new value and every other key holds its old value |
| CartPage.FindIsKey | pages/cart/index.js:205-208 | a key is found exactly when it is one of the object's keys |
| CartPage.PutKeepsOthers | pages/cart/index.js:205-208 | setting a key keeps every existing key in its place and every other entry as it was |
| CartPage.PutUnique | pages/cart/index.js:205-208 | setting a key keeps the keys unique, and the entry for that key holds the new value |
| CartPage.PutDomains | pages/cart/index.js:205-208 | the keys after setting one are the keys before, plus that one |
| CartPage.RecordsShopsStep | pages/cart/index.js:147-150 | with distinct shop domains, recording the next shop's name and token keeps the records of every shop before it |
| CartPage.PutFetched | pages/cart/index.js:161-169 | storing a fetched cart keeps the keys unique, and keeps every cart the fetch for its own domain and stored id |
| CartPage.PutNextShop | pages/cart/index.js:169 | with distinct shop domains, each shop's domain is a new key, appended last |
| CartPage.BuildCartsInfo | pages/cart/index.js:140-170 | the keys of the cart object and the shop object are the answered domains; each cart is the one fetched by its shop's stored id; with distinct domains, shops keep their answer order with their name and token |
| CartPage.ProcessMessage | pages/cart/index.js:176-186 | the page reloads exactly when the message is an object with a truthy `syncCart` or with `current_checkout_page` equal to the thank-you page; a message that does not parse never reloads |
| CartPage.QuantityOptions | pages/cart/index.js:105 | a line's selector offers 1 to quantity+9, never 0, and includes the current quantity |
| CartPage.CartView.constructor | pages/cart/index.js:119-122 | the page starts with no shop info, no carts and a null count |
| CartPage.CartView.SyncCartCount | pages/cart/index.js:197-201 | afterwards the store's count equals the page's; the store is written (with an event) only when they differed |
| CartPage.CartView.Load | pages/cart/index.js:125-174 | asks the directory for exactly the stored domains; each answered shop's cart is fetched by its stored id under unique keys; the store's map is only read |
| CartPage.CartView.Render | pages/cart/index.js:219-334 | "Loading" until the carts are in; then the summary of `Summarize`, and the page's count set to the cross-shop item count |
| CartPage.StaleEditsLoseFirst | pages/cart/index.js:203-217 | two edits from the same render on two shops leave the first shop's key as it was in that render, so the first edit's cart is lost |
| CartPage.SequentialEditsKeepBoth | pages/cart/index.js:203-217 | two edits on two shops, the second starting from the first's result, keep both new carts |
| CartPage.CartView.RenderAndSync | pages/cart/index.js:197-201 | the view and page count are as `Render` gives them; the store is untouched while loading or when the render left the page's count unchanged; otherwise it is written, with an event, only when its count differs from the page's |
| CartPage.CartView.DeleteItem | pages/cart/index.js:203-209 | removes the line through the shop's backend; the new object is the render's object with that shop's key holding the answer and every other key as in that render; keys stay unique |
| CartPage.CartView.SetNewQuantity | pages/cart/index.js:211-217 | sets the line's quantity through the shop's backend; the new object is the render's object with that shop's key holding the answer and every other key as in that render; keys stay unique |
| ShopIndex.NumberOfPages | pages/index.js:239 | the number of pages is the fewest pages of five that hold every shop, and 0 when there is no shop list |
| ShopIndex.Slice | pages/index.js:265 | `slice` with bounds clamped to the list: its length and its elements at their shifted positions |
| ShopIndex.VisibleShops | pages/index.js:236-238 | a page shows at most five shops, the ones from position 5p on; it is non-empty exactly when the page exists; every page but the last is full |
| ShopIndex.PagesArePrefix | pages/index.js:265 | the first k pages, in order, are the first 5k shops |
| ShopIndex.PagesCoverShops | pages/index.js:239 | the pages together list every shop exactly once, in order |
| ShopIndex.PageOptions | pages/index.js:285 | the page selector lists one entry per page, index i shown as i+1 |
| ShopIndex.ShopsSection.constructor | pages/index.js:235 | the section starts on the first page |
| ShopIndex.ShopsSection.ShopsChanged | pages/index.js:249-251 | a new shop list puts the section back on the first page |
| ShopIndex.ShopsSection.NextPage | pages/index.js:290 | moves one page on, only offered when a next page exists, and lands on an existing page |
| ShopIndex.ShopsSection.PreviousPage | pages/index.js:274 | moves one page back, only offered past the first page |
| ShopIndex.ShopsSection.SelectPage | pages/index.js:283-285 | jumps to a page the selector offers |
| ShopIndex.ShopsSection.Render | pages/index.js:253-294 | "No shops" exactly when there is no shop list; otherwise the current page's shops, the controls only with more than one page, Previous past the first page, and Next only when the next page is non-empty |
| ShopIndex.CountryList | pages/index.js:312-313 | "All" is always offered; a list that already has it is kept as is; otherwise "All" is put first, exactly once, before the directory's list |
| ShopIndex.IndexPage.constructor | pages/index.js:297-299 | the page starts with all countries, ascending order and no search string |
| ShopIndex.IndexPage.QueryVariables | pages/index.js:301-308 | the query has no country exactly when the filter is empty or "All", and otherwise the filter; its name is the search string and its order the sort flag |
| ShopIndex.IndexPage.OnSearchKeyDown | pages/index.js:315-319 | the search string takes the box's text on Enter (key code 13), and only then |
| ShopIndex.IndexPage.SetCountry | pages/index.js:321-323 | the country filter becomes the chosen value |
| ShopIndex.IndexPage.SetSort | pages/index.js:325-327 | the sort flag becomes the chosen value |

## Left out

- The GraphQL documents, the Apollo clients and the network. A call is its request value plus an answer given as a parameter. Transport errors, `userErrors` and thrown mutations are not modelled, except the null cart the code checks for.
- Concurrency. The cart page's edit handlers are modelled with the render's object as a parameter, which captures the lost update between overlapping edits. Elsewhere, `addToCart` and `addToExistingCart` do not wait for `createNewCart`, so two calls in flight can interleave their storage writes. The model runs each call to completion. For a single call the final storage is the same.
- CartHelpers.CartStore.AddToCart: the count increment in the source happens before the created cart's id is written. The model states only the state after both, not their order.
- The `shopClient` argument and the `shopClients` map of the cart page. The answer of the right shop's backend is passed in directly.
- The JSON encoding of the local storage slots. The slots hold their decoded values, and a slot that is not valid JSON is not modelled. Dispatching `storage` is counted in `storageEvents`. Other tabs reacting to it are not modelled.
- `window.location.reload()`, `window.open` and `window.scrollTo` are reduced to their effect: a boolean, the URL opened, or left out (the scroll).
- Floating-point arithmetic and `Intl.NumberFormat`. Amounts are kept as the backend's decimal strings. The grand total is the integer sum the code computes. The formatting of each price and of the CAD total is not modelled.
- Decimal.ParseInt: leading whitespace and hexadecimal `0x` prefixes are not modelled. The backend's amounts are plain decimal strings.
- The key order of `Object.entries`. Integer-like domain keys would come first in JavaScript. The model keeps pure insertion order, which is the order for every real domain name.
- The `lines(first: 20)` limit of the cart fragment. A cart's lines are whatever the backend returns.
- The shop's display name in the cart page's panels and summary rows. The model keeps the shop's domain, which is the key `shopInfo` is read by.
- The React render cycle. The shop list renders once with its old page index before the reset effect runs. The cart page's render and its count effect are modelled as the two calls of `RenderAndSync`.
- Resolving a product variant before `addToCart` is called. That code is pages/products/[shopid]/[producthandle].js, which is not part of this model. Nor are components/page.js, components/productGrid.js and pages/_app.js.
