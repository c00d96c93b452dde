/**
 * The cart page of pages/cart/index.js: it loads every shop named in the
 * local store, fetches each shop's cart, and sums them into one summary.
 *
 * The page's React state is the class `CartView`. The shop directory and
 * the shops' backends are function parameters: `lookupShops` answers the
 * directory query for a set of domains, `fetch` answers a shop's `cart(id:)`
 * query (`None` is the null cart of a shop whose checkout was completed).
 */
module CartPage {
  import opened Options
  import opened Decimal
  import opened CartHelpers

  /** A shop as the directory answers `shops(domains:)`. */
  datatype Shop = Shop(id: string, domain: string, name: string, storefrontAccessToken: string)

  /** What the page keeps of a shop in `shopsDict`. */
  datatype ShopInfo = ShopInfo(name: string, token: string)

  /** One key of the `cartsInfo` object: a shop domain and its cart, `None` when it is null. */
  datatype Entry = Entry(domain: string, cart: Option<RemoteCart>)

  // ---------------------------------------------------------------------
  // getShopTotals

  /** The number of items in a list of lines: the sum of their quantities. */
  function TotalQuantity(lines: seq<CartLine>): nat {
    if lines == [] then 0 else lines[0].quantity + TotalQuantity(lines[1..])
  }

  lemma {:induction false} TotalQuantityAppend(a: seq<CartLine>, b: seq<CartLine>)
    ensures TotalQuantity(a + b) == TotalQuantity(a) + TotalQuantity(b)
  {
    if a == [] {
      assert a + b == b;
    } else {
      assert (a + b)[1..] == a[1..] + b;
      TotalQuantityAppend(a[1..], b);
    }
  }

  /** `lines.reduce((total, {node}) => total + node.quantity, total)`: a fold from the left. */
  function ReduceQuantities(lines: seq<CartLine>, total: int): int {
    if lines == [] then total else ReduceQuantities(lines[1..], total + lines[0].quantity)
  }

  /** The left fold of `reduce` adds up the same quantities as the sum. */
  lemma {:induction false} ReduceIsTotal(lines: seq<CartLine>, total: int)
    ensures ReduceQuantities(lines, total) == total + TotalQuantity(lines)
  {
    if lines != [] {
      ReduceIsTotal(lines[1..], total + lines[0].quantity);
    }
  }

  /** The summary text of one line: `${quantity} x ${title}`. */
  function ItemInfo(line: CartLine): string {
    ToDecimal(line.quantity) + " x " + line.productTitle
  }

  datatype ShopTotals = ShopTotals(totalNumberOfItems: int, itemsInfo: seq<string>)

  /** `getShopTotals`: the item count of a shop's cart and one summary text per line, in line order. */
  function GetShopTotals(lines: seq<CartLine>): (t: ShopTotals)
    ensures t.totalNumberOfItems == TotalQuantity(lines)
    ensures |t.itemsInfo| == |lines|
    ensures forall i :: 0 <= i < |lines| ==> t.itemsInfo[i] == ItemInfo(lines[i])
  {
    ReduceIsTotal(lines, 0);
    ShopTotals(ReduceQuantities(lines, 0), seq(|lines|, i requires 0 <= i < |lines| => ItemInfo(lines[i])))
  }

  /** Each summary text starts with its line's quantity: `parseInt` reads it back. */
  lemma ItemsInfoQuantity(lines: seq<CartLine>, i: nat)
    requires i < |lines|
    ensures ParseInt(GetShopTotals(lines).itemsInfo[i]) == Some(lines[i].quantity as int)
  {
    var line := lines[i];
    assert ItemInfo(line) == ToDecimal(line.quantity) + (" x " + line.productTitle);
    ParseIntOfDecimal(line.quantity, " x " + line.productTitle);
  }

  // ---------------------------------------------------------------------
  // The aggregation loop of `Cart`

  /** JavaScript `+` on numbers, with `None` for NaN: NaN absorbs everything. */
  function AddNumbers(a: Option<int>, b: Option<int>): (r: Option<int>)
    ensures r.Some? <==> a.Some? && b.Some?
    ensures r.Some? ==> r.value == a.value + b.value
  {
    if a.Some? && b.Some? then Some(a.value + b.value) else None
  }

  /**
   * `cartTotalAmount` after the entries `c`: each non-null cart adds the
   * integer part of its `totalAmount.amount`; null carts add nothing.
   * Currencies are not looked at.
   */
  function GrandTotal(c: seq<Entry>): Option<int> {
    if c == [] then Some(0)
    else
      var last := c[|c| - 1];
      if last.cart.None? then GrandTotal(c[..|c| - 1])
      else AddNumbers(GrandTotal(c[..|c| - 1]), ParseInt(last.cart.value.totalAmount.amount))
  }

  /** `cartTotalNumberOfItems` after the entries `c`: the item counts of the non-null carts. */
  function ItemCount(c: seq<Entry>): int {
    if c == [] then 0
    else
      var last := c[|c| - 1];
      if last.cart.None? then ItemCount(c[..|c| - 1])
      else ItemCount(c[..|c| - 1]) + TotalQuantity(last.cart.value.lines)
  }

  /** The entries whose cart is not null, in order. */
  function NonNull(c: seq<Entry>): (r: seq<Entry>)
    ensures forall e :: e in r <==> e in c && e.cart.Some?
    ensures |r| <= |c|
  {
    if c == [] then []
    else if c[|c| - 1].cart.None? then NonNull(c[..|c| - 1])
    else NonNull(c[..|c| - 1]) + [c[|c| - 1]]
  }

  /** Filtering keeps the order: the non-null entries of `a + b` are those of `a`, then those of `b`. */
  lemma {:induction false} NonNullAppend(a: seq<Entry>, b: seq<Entry>)
    ensures NonNull(a + b) == NonNull(a) + NonNull(b)
  {
    if b == [] {
      assert a + b == a;
    } else {
      var n := |b| - 1;
      assert (a + b)[..|a + b| - 1] == a + b[..n];
      assert (a + b)[|a + b| - 1] == b[n];
      NonNullAppend(a, b[..n]);
    }
  }

  /** All lines of all non-null carts, shop after shop. */
  function AllLines(c: seq<Entry>): seq<CartLine> {
    if c == [] then []
    else if c[|c| - 1].cart.None? then AllLines(c[..|c| - 1])
    else AllLines(c[..|c| - 1]) + c[|c| - 1].cart.value.lines
  }

  /** What one shop shows in the list of carts. */
  datatype ShopPanel =
    | OpenCart(domain: string, cartId: string, lines: seq<CartLine>, subtotal: Money, checkoutUrl: string)
    | CheckoutCompleted(domain: string)

  /**
   * A shop's panel. A null cart shows "checkout already completed"; otherwise
   * the panel's SUBTOTAL is the cart's `totalAmount` (not `subtotalAmount`).
   */
  function Panel(e: Entry): ShopPanel {
    match e.cart
    case None => CheckoutCompleted(e.domain)
    case Some(cart) => OpenCart(e.domain, cart.id, cart.lines, cart.totalAmount, cart.checkoutUrl)
  }

  /** One shop's row of the CART SUMMARY box. */
  datatype SummaryRow = SummaryRow(domain: string, totalNumberOfItems: int, itemsInfo: seq<string>, total: Money)

  /** The summary rows: one per non-null cart, in order. */
  function SummaryRows(c: seq<Entry>): seq<SummaryRow> {
    if c == [] then []
    else
      var last := c[|c| - 1];
      match last.cart
      case None => SummaryRows(c[..|c| - 1])
      case Some(cart) =>
        var totals := GetShopTotals(cart.lines);
        SummaryRows(c[..|c| - 1]) + [SummaryRow(last.domain, totals.totalNumberOfItems, totals.itemsInfo, cart.totalAmount)]
  }

  /** The currency the CART TOTAL is formatted in, whatever the shops' currencies. */
  const TotalCurrency := "CAD"

  datatype CartSummary = CartSummary(
    panels: seq<ShopPanel>,
    rows: seq<SummaryRow>,
    totalAmount: Option<int>,
    totalCurrency: string,
    totalNumberOfItems: int)

  /** The loop over `Object.entries(cartsInfo)` and the totals it accumulates. */
  method Summarize(cartsInfo: seq<Entry>) returns (s: CartSummary)
    ensures |s.panels| == |cartsInfo|
    ensures forall i :: 0 <= i < |cartsInfo| ==> s.panels[i] == Panel(cartsInfo[i])
    ensures s.rows == SummaryRows(cartsInfo)
    ensures s.totalAmount == GrandTotal(cartsInfo)
    ensures s.totalNumberOfItems == ItemCount(cartsInfo)
    ensures s.totalCurrency == TotalCurrency
  {
    var cartShops: seq<ShopPanel> := [];
    var cartsSummary: seq<SummaryRow> := [];
    var cartTotalAmount: Option<int> := Some(0);
    var cartTotalNumberOfItems := 0;
    var i := 0;
    while i < |cartsInfo|
      invariant 0 <= i <= |cartsInfo|
      invariant |cartShops| == i
      invariant forall k :: 0 <= k < i ==> cartShops[k] == Panel(cartsInfo[k])
      invariant cartsSummary == SummaryRows(cartsInfo[..i])
      invariant cartTotalAmount == GrandTotal(cartsInfo[..i])
      invariant cartTotalNumberOfItems == ItemCount(cartsInfo[..i])
    {
      var entry := cartsInfo[i];
      assert cartsInfo[..i + 1][..i] == cartsInfo[..i];
      if entry.cart.Some? {
        var cartData := entry.cart.value;
        cartTotalAmount := AddNumbers(cartTotalAmount, ParseInt(cartData.totalAmount.amount));
        cartShops := cartShops + [OpenCart(entry.domain, cartData.id, cartData.lines, cartData.totalAmount, cartData.checkoutUrl)];
        var shopTotals := GetShopTotals(cartData.lines);
        cartTotalNumberOfItems := cartTotalNumberOfItems + shopTotals.totalNumberOfItems;
        cartsSummary := cartsSummary + [SummaryRow(entry.domain, shopTotals.totalNumberOfItems, shopTotals.itemsInfo, cartData.totalAmount)];
      } else {
        cartShops := cartShops + [CheckoutCompleted(entry.domain)];
      }
      i := i + 1;
    }
    assert cartsInfo[..i] == cartsInfo;
    s := CartSummary(cartShops, cartsSummary, cartTotalAmount, TotalCurrency, cartTotalNumberOfItems);
  }

  /** Shops whose cart is null add nothing to the grand total, the item count or the summary rows. */
  lemma {:induction false} NullCartsAddNothing(c: seq<Entry>)
    ensures GrandTotal(c) == GrandTotal(NonNull(c))
    ensures ItemCount(c) == ItemCount(NonNull(c))
    ensures SummaryRows(c) == SummaryRows(NonNull(c))
  {
    if c != [] {
      var prefix := c[..|c| - 1];
      NullCartsAddNothing(prefix);
      if c[|c| - 1].cart.Some? {
        var n := NonNull(c);
        assert n[..|n| - 1] == NonNull(prefix);
      }
    }
  }

  /** The cross-shop item count is the sum of every line quantity over the non-null carts. */
  lemma {:induction false} ItemCountIsAllLines(c: seq<Entry>)
    ensures ItemCount(c) == TotalQuantity(AllLines(c))
  {
    if c != [] {
      var prefix := c[..|c| - 1];
      ItemCountIsAllLines(prefix);
      if c[|c| - 1].cart.Some? {
        TotalQuantityAppend(AllLines(prefix), c[|c| - 1].cart.value.lines);
      }
    }
  }

  /** Two lists of carts that agree on which carts are null and on their amount strings. */
  predicate SameAmounts(c1: seq<Entry>, c2: seq<Entry>) {
    && |c1| == |c2|
    && forall i :: 0 <= i < |c1| ==>
         && c1[i].cart.Some? == c2[i].cart.Some?
         && (c1[i].cart.Some? ==> c1[i].cart.value.totalAmount.amount == c2[i].cart.value.totalAmount.amount)
  }

  /** No currency check: the grand total depends on the amount strings only, never on the currency codes. */
  lemma {:induction false} GrandTotalIgnoresCurrency(c1: seq<Entry>, c2: seq<Entry>)
    requires SameAmounts(c1, c2)
    ensures GrandTotal(c1) == GrandTotal(c2)
  {
    if c1 != [] {
      var n := |c1| - 1;
      assert SameAmounts(c1[..n], c2[..n]);
      GrandTotalIgnoresCurrency(c1[..n], c2[..n]);
    }
  }

  /** The grand total is a number (not NaN) exactly when every non-null cart's amount starts with digits. */
  lemma {:induction false} GrandTotalDefined(c: seq<Entry>)
    ensures GrandTotal(c).Some? <==>
      forall i :: 0 <= i < |c| && c[i].cart.Some? ==> ParseInt(c[i].cart.value.totalAmount.amount).Some?
  {
    if c != [] {
      var n := |c| - 1;
      GrandTotalDefined(c[..n]);
      assert forall i :: 0 <= i < n ==> c[..n][i] == c[i];
    }
  }

  /** The integer part of an amount that starts with a digit: the value of its leading digits. */
  function WholePart(amount: string): nat {
    DigitsValue(LeadingDigits(amount))
  }

  /** The sum of the integer parts of the amounts of the non-null carts. */
  function WholeSum(c: seq<Entry>): int {
    if c == [] then 0
    else
      var last := c[|c| - 1];
      if last.cart.None? then WholeSum(c[..|c| - 1])
      else WholeSum(c[..|c| - 1]) + WholePart(last.cart.value.totalAmount.amount)
  }

  /** Every non-null cart's amount starts with a digit, as the backend's decimal amounts do. */
  predicate DigitAmounts(c: seq<Entry>) {
    forall i :: 0 <= i < |c| && c[i].cart.Some? ==>
      c[i].cart.value.totalAmount.amount != [] && IsDigit(c[i].cart.value.totalAmount.amount[0])
  }

  /** When every amount starts with a digit, the grand total is the sum of the amounts' integer parts. */
  lemma {:induction false} GrandTotalIsWholeSum(c: seq<Entry>)
    requires DigitAmounts(c)
    ensures GrandTotal(c) == Some(WholeSum(c))
  {
    if c != [] {
      var n := |c| - 1;
      assert DigitAmounts(c[..n]) by {
        forall i | 0 <= i < n ensures c[..n][i] == c[i] { }
      }
      GrandTotalIsWholeSum(c[..n]);
    }
  }

  /** The integer part of a decimal amount `w.f` is `w`. */
  lemma WholePartOfDecimal(w: nat, f: string)
    ensures WholePart(ToDecimal(w) + "." + f) == w
  {
    assert ToDecimal(w) + "." + f == ToDecimal(w) + ("." + f);
    LeadingDigitsOfDigits(ToDecimal(w), "." + f);
    ToDecimalValue(w);
  }

  /** Each amount is truncated before summing: two carts of 0.50 make a grand total of 0. */
  lemma GrandTotalTruncates(d1: string, d2: string, cart1: RemoteCart, cart2: RemoteCart)
    requires cart1.totalAmount.amount == "0.50" && cart2.totalAmount.amount == "0.50"
    ensures GrandTotal([Entry(d1, Some(cart1)), Entry(d2, Some(cart2))]) == Some(0)
  {
    assert ToDecimal(0) + "." + "50" == "0.50";
    ParseIntDropsFraction(0, "50");
    var c := [Entry(d1, Some(cart1)), Entry(d2, Some(cart2))];
    assert c[..1] == [Entry(d1, Some(cart1))];
    assert c[..1][..0] == [];
    assert GrandTotal(c[..1]) == Some(0);
  }

  // ---------------------------------------------------------------------
  // `cartsInfo` as a JavaScript object: keys in insertion order

  /** The domains that are keys of `c`. */
  function Domains(c: seq<Entry>): set<string> {
    set i | 0 <= i < |c| :: c[i].domain
  }

  predicate UniqueDomains(c: seq<Entry>) {
    forall i, j :: 0 <= i < j < |c| ==> c[i].domain != c[j].domain
  }

  /** `cartsInfo[d]`: the value of the key `d`, `None` when `d` is not a key. */
  function Find(c: seq<Entry>, d: string): Option<Option<RemoteCart>> {
    if c == [] then None
    else if c[0].domain == d then Some(c[0].cart)
    else Find(c[1..], d)
  }

  /**
   * `{...c, [d]: x}` (and `c[d] = x`): an existing key keeps its place and
   * takes the new value; a new key goes last.
   */
  function Put(c: seq<Entry>, d: string, x: Option<RemoteCart>): (r: seq<Entry>)
    ensures |r| == if Find(c, d).Some? then |c| else |c| + 1
    ensures Find(c, d).None? ==> r == c + [Entry(d, x)]
  {
    if c == [] then [Entry(d, x)]
    else if c[0].domain == d then [Entry(d, x)] + c[1..]
    else [c[0]] + Put(c[1..], d, x)
  }

  /** After `Put`, the key `d` holds `x` and every other key holds what it held. */
  lemma {:induction false} PutFind(c: seq<Entry>, d: string, x: Option<RemoteCart>, other: string)
    ensures Find(Put(c, d, x), d) == Some(x)
    ensures other != d ==> Find(Put(c, d, x), other) == Find(c, other)
  {
    if c != [] && c[0].domain != d {
      PutFind(c[1..], d, x, other);
      assert Put(c, d, x)[1..] == Put(c[1..], d, x);
    }
  }

  /** `d` is a key of `c` exactly when looking it up finds a value. */
  lemma {:induction false} FindIsKey(c: seq<Entry>, d: string)
    ensures Find(c, d).Some? <==> d in Domains(c)
  {
    if c != [] {
      FindIsKey(c[1..], d);
      if d in Domains(c[1..]) {
        var i :| 0 <= i < |c[1..]| && c[1..][i].domain == d;
        assert c[i + 1].domain == d;
      }
      if d in Domains(c) && c[0].domain != d {
        var i :| 0 <= i < |c| && c[i].domain == d;
        assert c[1..][i - 1].domain == d;
      }
    }
  }

  /** `Put` keeps every key in its place and every other key's value. */
  lemma {:induction false} PutKeepsOthers(c: seq<Entry>, d: string, x: Option<RemoteCart>)
    ensures forall i :: 0 <= i < |c| ==> Put(c, d, x)[i].domain == c[i].domain
    ensures forall i :: 0 <= i < |c| && c[i].domain != d ==> Put(c, d, x)[i] == c[i]
  {
    if c != [] && c[0].domain != d {
      PutKeepsOthers(c[1..], d, x);
    }
  }

  /** With unique keys, `Put` keeps them unique and its key `d` holds `x`. */
  lemma {:induction false} PutUnique(c: seq<Entry>, d: string, x: Option<RemoteCart>)
    requires UniqueDomains(c)
    ensures UniqueDomains(Put(c, d, x))
    ensures forall i :: 0 <= i < |Put(c, d, x)| && Put(c, d, x)[i].domain == d ==> Put(c, d, x)[i] == Entry(d, x)
  {
    if c != [] && c[0].domain != d {
      var tail := c[1..];
      var rest := Put(tail, d, x);
      assert UniqueDomains(tail) by {
        forall i, j | 0 <= i < j < |tail| ensures tail[i].domain != tail[j].domain {
          assert tail[i] == c[i + 1] && tail[j] == c[j + 1];
        }
      }
      PutUnique(tail, d, x);
      PutDomains(tail, d, x);
      forall k | 0 <= k < |tail| ensures tail[k].domain != c[0].domain {
        assert tail[k] == c[k + 1];
      }
      forall j | 0 <= j < |rest| ensures rest[j].domain != c[0].domain {
        assert rest[j].domain in Domains(rest);
      }
      assert Put(c, d, x) == [c[0]] + rest;
    }
  }

  /** The keys after `Put` are the keys before and `d`. */
  lemma PutDomains(c: seq<Entry>, d: string, x: Option<RemoteCart>)
    ensures Domains(Put(c, d, x)) == Domains(c) + {d}
  {
    var r := Put(c, d, x);
    forall e ensures e in Domains(r) <==> e in Domains(c) + {d} {
      PutFind(c, d, x, e);
      FindIsKey(r, e);
      FindIsKey(c, e);
    }
  }

  // ---------------------------------------------------------------------
  // getCartsInfo

  /** The domains the directory answered with. */
  function ShopDomains(shops: seq<Shop>): set<string> {
    set i | 0 <= i < |shops| :: shops[i].domain
  }

  /** One more shop of the answer adds exactly its domain to the domains seen so far. */
  lemma ShopDomainsStep(shops: seq<Shop>, i: nat)
    requires i < |shops|
    ensures ShopDomains(shops[..i + 1]) == ShopDomains(shops[..i]) + {shops[i].domain}
  {
  }

  predicate DistinctShops(shops: seq<Shop>) {
    forall i, j :: 0 <= i < j < |shops| ==> shops[i].domain != shops[j].domain
  }

  /** `shopsDict` records the name and token of each of the first `n` shops under its domain. */
  predicate RecordsShops(shopsDict: map<string, ShopInfo>, shops: seq<Shop>, n: nat) {
    n <= |shops| &&
    forall k :: 0 <= k < n ==>
      shops[k].domain in shopsDict && shopsDict[shops[k].domain] == ShopInfo(shops[k].name, shops[k].storefrontAccessToken)
  }

  /** With distinct domains, recording the next shop keeps the records of the shops before it. */
  lemma RecordsShopsStep(shopsDict: map<string, ShopInfo>, shops: seq<Shop>, i: nat)
    requires DistinctShops(shops) && i < |shops| && RecordsShops(shopsDict, shops, i)
    ensures RecordsShops(shopsDict[shops[i].domain := ShopInfo(shops[i].name, shops[i].storefrontAccessToken)], shops, i + 1)
  {
  }

  /** Every cart of `c` is what `fetch` answers for its domain and the id stored for it. */
  predicate FetchedFor(c: seq<Entry>, carts: map<string, string>, fetch: (string, Option<string>) -> Option<RemoteCart>) {
    forall k :: 0 <= k < |c| ==> c[k].cart == fetch(c[k].domain, Lookup(carts, c[k].domain))
  }

  /** The keys of `c` are the domains of the first `|c|` shops, in order. */
  predicate InShopOrder(c: seq<Entry>, shops: seq<Shop>) {
    |c| <= |shops| && forall k :: 0 <= k < |c| ==> c[k].domain == shops[k].domain
  }

  /** Storing a fetched cart keeps the keys unique and every cart fetched for its own domain. */
  lemma PutFetched(c: seq<Entry>, d: string, carts: map<string, string>, fetch: (string, Option<string>) -> Option<RemoteCart>)
    requires UniqueDomains(c) && FetchedFor(c, carts, fetch)
    ensures UniqueDomains(Put(c, d, fetch(d, Lookup(carts, d))))
    ensures FetchedFor(Put(c, d, fetch(d, Lookup(carts, d))), carts, fetch)
    ensures Domains(Put(c, d, fetch(d, Lookup(carts, d)))) == Domains(c) + {d}
  {
    var x := fetch(d, Lookup(carts, d));
    PutUnique(c, d, x);
    PutKeepsOthers(c, d, x);
    PutDomains(c, d, x);
  }

  /** When the shops' domains are distinct, the next shop's domain is a new key, appended last. */
  lemma PutNextShop(c: seq<Entry>, shops: seq<Shop>, x: Option<RemoteCart>)
    requires DistinctShops(shops) && InShopOrder(c, shops) && |c| < |shops|
    ensures Put(c, shops[|c|].domain, x) == c + [Entry(shops[|c|].domain, x)]
    ensures InShopOrder(c + [Entry(shops[|c|].domain, x)], shops)
  {
    var d := shops[|c|].domain;
    var e := Entry(d, x);
    forall k | 0 <= k < |c| ensures c[k].domain != d {
      assert c[k].domain == shops[k].domain;
    }
    assert d !in Domains(c);
    FindIsKey(c, d);
    forall k | 0 <= k < |c| + 1 ensures (c + [e])[k].domain == shops[k].domain {
      if k < |c| {
        assert (c + [e])[k] == c[k];
      }
    }
  }

  /**
   * The loop of `getCartsInfo`: for each shop of the directory's answer, in
   * order, record its name and token and fetch its cart by the id stored
   * for its domain.
   */
  method BuildCartsInfo(shops: seq<Shop>, carts: map<string, string>, fetch: (string, Option<string>) -> Option<RemoteCart>)
    returns (shopsDict: map<string, ShopInfo>, cartsDict: seq<Entry>)
    ensures UniqueDomains(cartsDict)
    ensures Domains(cartsDict) == ShopDomains(shops) == shopsDict.Keys
    ensures forall i :: 0 <= i < |cartsDict| ==>
      cartsDict[i].cart == fetch(cartsDict[i].domain, Lookup(carts, cartsDict[i].domain))
    ensures DistinctShops(shops) ==> |cartsDict| == |shops|
    ensures DistinctShops(shops) ==> forall i :: 0 <= i < |shops| ==>
      && cartsDict[i].domain == shops[i].domain
      && shopsDict[shops[i].domain] == ShopInfo(shops[i].name, shops[i].storefrontAccessToken)
  {
    shopsDict := map[];
    cartsDict := [];
    var i := 0;
    while i < |shops|
      invariant 0 <= i <= |shops|
      invariant UniqueDomains(cartsDict) && FetchedFor(cartsDict, carts, fetch)
      invariant Domains(cartsDict) == ShopDomains(shops[..i]) == shopsDict.Keys
      invariant DistinctShops(shops) ==> |cartsDict| == i && InShopOrder(cartsDict, shops)
      invariant DistinctShops(shops) ==> RecordsShops(shopsDict, shops, i)
    {
      var shop := shops[i];
      var domain := shop.domain;
      if DistinctShops(shops) {
        RecordsShopsStep(shopsDict, shops, i);
      }
      shopsDict := shopsDict[domain := ShopInfo(shop.name, shop.storefrontAccessToken)];
      var cartData := fetch(domain, Lookup(carts, domain));
      PutFetched(cartsDict, domain, carts, fetch);
      if DistinctShops(shops) {
        PutNextShop(cartsDict, shops, cartData);
      }
      cartsDict := Put(cartsDict, domain, cartData);
      ShopDomainsStep(shops, i);
      i := i + 1;
    }
    assert shops[..i] == shops;
  }

  // ---------------------------------------------------------------------
  // processMessage

  /** A value inside a parsed JSON message. */
  datatype JsValue = JsNull | JsBool(b: bool) | JsNumber(n: real) | JsString(s: string) | JsArray | JsObject

  /** What `JSON.parse(msg.data)` gives: an error, a value that is not an object, or an object. */
  datatype MessageData = Unparseable | NotAnObject | Object(fields: map<string, JsValue>)

  /** JavaScript truthiness of a property, `None` being `undefined`. */
  predicate Truthy(v: Option<JsValue>) {
    match v
    case None => false
    case Some(JsNull) => false
    case Some(JsBool(b)) => b
    case Some(JsNumber(n)) => n != 0.0
    case Some(JsString(s)) => s != ""
    case Some(JsArray) => true
    case Some(JsObject) => true
  }

  function Property(data: MessageData, name: string): Option<JsValue> {
    if data.Object? && name in data.fields then Some(data.fields[name]) else None
  }

  const ThankYouPage := "/checkout/thank_you"

  /** `processMessage`: whether the message makes the page reload. A message that does not parse is read as `{}`. */
  function ProcessMessage(msg: MessageData): (reload: bool)
    ensures reload <==>
      msg.Object? &&
      (Truthy(Property(msg, "syncCart")) || Property(msg, "current_checkout_page") == Some(JsString(ThankYouPage)))
    ensures msg.Unparseable? ==> !reload
  {
    var data := if msg.Unparseable? then Object(map[]) else msg;
    var page := Property(data, "current_checkout_page");
    Truthy(Property(data, "syncCart")) || (Truthy(page) && page == Some(JsString(ThankYouPage)))
  }

  // ---------------------------------------------------------------------
  // The quantity selector

  /** `[...Array(quantity + 10).keys()].slice(1)`: the quantities a line's selector offers. */
  function QuantityOptions(quantity: nat): (options: seq<int>)
    ensures |options| == quantity + 9
    ensures forall i :: 0 <= i < |options| ==> options[i] == i + 1
    ensures 0 !in options
    ensures quantity >= 1 ==> quantity in options
  {
    var options := seq(quantity + 10, i => i)[1..];
    assert quantity >= 1 ==> options[quantity - 1] == quantity;
    options
  }

  /** The view `v` is the summary of the carts `c`: one panel per key, the rows, the totals in CAD. */
  predicate Shows(v: CartSummary, c: seq<Entry>) {
    && v.totalAmount == GrandTotal(c)
    && v.totalCurrency == TotalCurrency
    && v.totalNumberOfItems == ItemCount(c)
    && v.rows == SummaryRows(c)
    && |v.panels| == |c|
    && (forall i :: 0 <= i < |c| ==> v.panels[i] == Panel(c[i]))
  }

  // ---------------------------------------------------------------------
  // Edits of one shop's cart

  /**
   * Two edits started from the same render, on two shops, finishing in
   * order: the second spreads the render's object, so the first shop's key
   * is back to its value in that render and the first edit's cart is lost.
   */
  lemma StaleEditsLoseFirst(c: seq<Entry>, d1: string, x1: Option<RemoteCart>, d2: string, x2: Option<RemoteCart>)
    requires d1 != d2
    ensures Find(Put(c, d2, x2), d1) == Find(c, d1)
    ensures Find(Put(c, d2, x2), d2) == Some(x2)
    ensures Find(c, d1) != Some(x1) ==> Find(Put(c, d2, x2), d1) != Find(Put(c, d1, x1), d1)
  {
    PutFind(c, d2, x2, d1);
    PutFind(c, d1, x1, d1);
  }

  /** Two edits on two shops where the second starts from the first's result: both new carts are kept. */
  lemma SequentialEditsKeepBoth(c: seq<Entry>, d1: string, x1: Option<RemoteCart>, d2: string, x2: Option<RemoteCart>)
    requires d1 != d2
    ensures Find(Put(Put(c, d1, x1), d2, x2), d1) == Some(x1)
    ensures Find(Put(Put(c, d1, x1), d2, x2), d2) == Some(x2)
  {
    PutFind(c, d1, x1, d1);
    PutFind(Put(c, d1, x1), d2, x2, d1);
  }

  // ---------------------------------------------------------------------
  // The page's state

  /** The state of the `Cart` component, next to the store it reads and writes. */
  class CartView {
    const store: CartStore
    var shopInfo: Option<map<string, ShopInfo>>
    var cartsInfo: Option<seq<Entry>>
    var localCartCount: Option<int>

    ghost predicate Valid()
      reads this
    {
      cartsInfo.Some? ==> UniqueDomains(cartsInfo.value)
    }

    constructor (store: CartStore)
      ensures this.store == store && Valid()
      ensures shopInfo.None? && cartsInfo.None? && localCartCount.None?
    {
      this.store := store;
      shopInfo := None;
      cartsInfo := None;
      localCartCount := None;
    }

    /**
     * The effect of lines 197-201: write the page's count to the store when
     * the two differ. It runs when the page mounts (with a null count) and
     * whenever the page's count changes.
     */
    method SyncCartCount()
      modifies store`cartCount, store`storageEvents
      ensures store.cartCount == localCartCount
      ensures old(store.cartCount) == localCartCount ==> store.State() == old(store.State())
      ensures old(store.cartCount) != localCartCount ==> store.State() == WithCount(old(store.State()), localCartCount)
    {
      if localCartCount != store.GetCartCount() {
        store.SetCartCount(localCartCount);
      }
    }

    /**
     * `getCartsInfo`: query the directory with the keys of the stored map,
     * then fetch each returned shop's cart by the id stored for its domain.
     */
    method Load(lookupShops: set<string> -> seq<Shop>, fetch: (string, Option<string>) -> Option<RemoteCart>)
      returns (domains: set<string>)
      modifies this`shopInfo, this`cartsInfo, store`carts
      ensures domains == StoredCarts(old(store.State())).Keys
      ensures store.State() == ReadCarts(old(store.State()))
      ensures Valid() && cartsInfo.Some? && shopInfo.Some?
      ensures Domains(cartsInfo.value) == ShopDomains(lookupShops(domains)) == shopInfo.value.Keys
      ensures forall i :: 0 <= i < |cartsInfo.value| ==>
        cartsInfo.value[i].cart ==
          fetch(cartsInfo.value[i].domain, Lookup(StoredCarts(old(store.State())), cartsInfo.value[i].domain))
      ensures DistinctShops(lookupShops(domains)) ==>
        |cartsInfo.value| == |lookupShops(domains)| &&
        forall i :: 0 <= i < |cartsInfo.value| ==> cartsInfo.value[i].domain == lookupShops(domains)[i].domain
    {
      var carts := store.GetCarts();
      domains := carts.Keys;
      var shops := lookupShops(domains);
      var shopsDict, cartsDict := BuildCartsInfo(shops, carts, fetch);
      shopInfo := Some(shopsDict);
      cartsInfo := Some(cartsDict);
    }

    /**
     * One render of the page: "Loading" before the carts are in; otherwise
     * the summary, and the page's count set to the item count when it differs.
     */
    method Render() returns (view: Option<CartSummary>)
      modifies this`localCartCount
      ensures cartsInfo.None? ==> view.None? && localCartCount == old(localCartCount)
      ensures cartsInfo.Some? ==> view.Some? && Shows(view.value, cartsInfo.value)
      ensures cartsInfo.Some? ==> localCartCount == Some(ItemCount(cartsInfo.value))
    {
      if cartsInfo.None? {
        return None;
      }
      var summary := Summarize(cartsInfo.value);
      if Some(summary.totalNumberOfItems) != localCartCount {
        localCartCount := Some(summary.totalNumberOfItems);
      }
      view := Some(summary);
    }

    /**
     * A render followed by the count effect, which runs when the render
     * changed the page's count and writes the store only when its count
     * differs from the page's.
     */
    method RenderAndSync() returns (view: Option<CartSummary>)
      modifies this`localCartCount, store`cartCount, store`storageEvents
      ensures cartsInfo.None? ==> view.None? && localCartCount == old(localCartCount)
      ensures cartsInfo.Some? ==> view.Some? && Shows(view.value, cartsInfo.value)
      ensures cartsInfo.Some? ==> localCartCount == Some(ItemCount(cartsInfo.value))
      ensures localCartCount == old(localCartCount) ==> store.State() == old(store.State())
      ensures localCartCount != old(localCartCount) && old(store.cartCount) == localCartCount ==>
        store.State() == old(store.State())
      ensures localCartCount != old(localCartCount) && old(store.cartCount) != localCartCount ==>
        store.State() == WithCount(old(store.State()), localCartCount)
    {
      var before := localCartCount;
      view := Render();
      if localCartCount != before {
        SyncCartCount();
      }
    }

    /**
     * `deleteItem`: remove one line through the shop's backend, then set that
     * shop's cart in `snapshot`, the `cartsInfo` of the render that created
     * the handler, which may be older than the page's current one.
     */
    method DeleteItem(snapshot: Option<seq<Entry>>, cartId: string, lineItemId: string, d: string, response: Option<RemoteCart>)
      returns (request: Request)
      requires UniqueDomains(snapshot.GetOr([]))
      modifies this`cartsInfo
      ensures Valid()
      ensures request == CartLinesRemove(cartId, [lineItemId])
      ensures cartsInfo == Some(Put(snapshot.GetOr([]), d, response))
      ensures Find(cartsInfo.value, d) == Some(response)
      ensures forall other :: other != d ==> Find(cartsInfo.value, other) == Find(snapshot.GetOr([]), other)
    {
      var newCart;
      request, newCart := RemoveItemFromCart(cartId, lineItemId, response);
      var captured := snapshot.GetOr([]);
      PutUnique(captured, d, newCart);
      PutFind(captured, d, newCart, d);
      forall other ensures other != d ==> Find(Put(captured, d, newCart), other) == Find(captured, other) {
        PutFind(captured, d, newCart, other);
      }
      cartsInfo := Some(Put(captured, d, newCart));
    }

    /**
     * `setNewQuantity`: set one line's quantity through the shop's backend,
     * then set that shop's cart in `snapshot`, the `cartsInfo` of the render
     * that created the handler.
     */
    method SetNewQuantity(snapshot: Option<seq<Entry>>, cartId: string, lineItemId: string, quantity: int, d: string, response: Option<RemoteCart>)
      returns (request: Request)
      requires UniqueDomains(snapshot.GetOr([]))
      modifies this`cartsInfo
      ensures Valid()
      ensures request == CartLinesUpdate(cartId, [LineUpdate(lineItemId, quantity)])
      ensures cartsInfo == Some(Put(snapshot.GetOr([]), d, response))
      ensures Find(cartsInfo.value, d) == Some(response)
      ensures forall other :: other != d ==> Find(cartsInfo.value, other) == Find(snapshot.GetOr([]), other)
    {
      var newCart;
      request, newCart := UpdateItemCountInCart(cartId, lineItemId, quantity, response);
      var captured := snapshot.GetOr([]);
      PutUnique(captured, d, newCart);
      PutFind(captured, d, newCart, d);
      forall other ensures other != d ==> Find(Put(captured, d, newCart), other) == Find(captured, other) {
        PutFind(captured, d, newCart, other);
      }
      cartsInfo := Some(Put(captured, d, newCart));
    }
  }
}
