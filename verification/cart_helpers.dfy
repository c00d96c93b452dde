/**
 * The local cart store and the cart mutator of helpers/cartHelpers.js.
 *
 * The browser's local storage holds two slots: `carts`, a map from shop
 * domain to the id of the cart tracked for that shop, and `cartCount`, the
 * cross-shop item counter. Either slot may be absent. Every write of the
 * counter also dispatches a `storage` event, counted here by
 * `storageEvents`.
 *
 * A shop's backend is not called: each call is represented by the request
 * the client sends and by the answer it gets, which is a parameter.
 */
module CartHelpers {
  import opened Options

  /** One entry of the `lines` argument of a cart mutation. */
  datatype LineInput = LineInput(merchandiseId: string, quantity: Option<int>)

  /** One entry of the `lines` argument of `cartLinesUpdate`. */
  datatype LineUpdate = LineUpdate(id: string, quantity: int)

  /** The mutations this file sends to a shop's backend, with their variables. */
  datatype Request =
    | CartCreate(lines: seq<LineInput>)
    | CartLinesAdd(cartId: string, lines: seq<LineInput>)
    | CartLinesRemove(cartId: string, lineIds: seq<string>)
    | CartLinesUpdate(cartId: string, updates: seq<LineUpdate>)

  /** The `cart { id checkoutUrl }` selection of `cartCreate` and `cartLinesAdd`. */
  datatype CartHandle = CartHandle(id: string, checkoutUrl: string)

  /** A price or cost as the backend sends it: a decimal string and a currency code. */
  datatype Money = Money(amount: string, currencyCode: string)

  /** One line of a cart, as selected by the `CoreCartFields` fragment. */
  datatype CartLine = CartLine(
    id: string,
    merchandiseId: string,
    price: Money,
    productTitle: string,
    quantity: nat)

  /** A cart as selected by the `CoreCartFields` fragment. */
  datatype RemoteCart = RemoteCart(
    id: string,
    checkoutUrl: string,
    subtotalAmount: Money,
    totalAmount: Money,
    lines: seq<CartLine>)

  /** The two persisted slots and the number of `storage` events dispatched so far. */
  datatype Storage = Storage(
    carts: Option<map<string, string>>,
    cartCount: Option<int>,
    storageEvents: nat)

  /** The stored id for shop `d`, if any. */
  function Lookup(m: map<string, string>, d: string): Option<string> {
    if d in m then Some(m[d]) else None
  }

  /** What `getCarts` answers: the stored map, or the empty map when none is stored. */
  function StoredCarts(s: Storage): map<string, string> {
    s.carts.GetOr(map[])
  }

  /** `carts[shopDomain]` is truthy: the shop has an entry and it is not the empty string. */
  predicate TracksCart(m: map<string, string>, d: string) {
    d in m && m[d] != ""
  }

  /** The effect of `getCarts` on storage: an absent map is replaced by the empty map. */
  function ReadCarts(s: Storage): (r: Storage)
    ensures r.carts == Some(StoredCarts(s))
    ensures s.carts.Some? ==> r == s
    ensures r.cartCount == s.cartCount && r.storageEvents == s.storageEvents
  {
    if s.carts.None? then s.(carts := Some(map[])) else s
  }

  /** `setCartIdForShop`: re-read the current map, then write it back with one key set. */
  function WithCartId(s: Storage, cartId: string, d: string): (r: Storage)
    ensures r.carts.Some?
    ensures Lookup(StoredCarts(r), d) == Some(cartId)
    ensures StoredCarts(r).Keys == StoredCarts(s).Keys + {d}
    ensures forall other :: other != d ==> Lookup(StoredCarts(r), other) == Lookup(StoredCarts(s), other)
    ensures r.cartCount == s.cartCount && r.storageEvents == s.storageEvents
  {
    var currentCarts := StoredCarts(ReadCarts(s));
    s.(carts := Some(currentCarts[d := cartId]))
  }

  /** The previous count as `increaseCartCount` reads it: `if (!currentCount) currentCount = 0`. */
  function CountBase(c: Option<int>): (n: int)
    ensures c.Some? ==> n == c.value
    ensures c.None? ==> n == 0
  {
    if c.None? || c.value == 0 then 0 else c.value
  }

  /** `increaseCartCount`: one more than the previous count, then a `storage` event. */
  function Incremented(s: Storage): (r: Storage)
    ensures r.cartCount == Some(CountBase(s.cartCount) + 1)
    ensures r.carts == s.carts && r.storageEvents == s.storageEvents + 1
  {
    s.(cartCount := Some(CountBase(s.cartCount) + 1), storageEvents := s.storageEvents + 1)
  }

  /** `setCartCount(amount)`: the count becomes `amount` (which may be null), then a `storage` event. */
  function WithCount(s: Storage, amount: Option<int>): (r: Storage)
    ensures r.cartCount == amount
    ensures r.carts == s.carts && r.storageEvents == s.storageEvents + 1
  {
    s.(cartCount := amount, storageEvents := s.storageEvents + 1)
  }

  /** The single line `createNewCart` sends: the variant, with quantity 1. */
  function CreateRequest(variantId: string): Request {
    CartCreate([LineInput(variantId, Some(1))])
  }

  /** The single line `addToExistingCart` sends: the variant, with no quantity. */
  function AddLinesRequest(cartId: string, variantId: string): Request {
    CartLinesAdd(cartId, [LineInput(variantId, None)])
  }

  /**
   * `createNewCart` on storage. When the backend returns no cart, reading
   * `cart.id` throws before anything is written.
   */
  function AfterCreateNewCart(s: Storage, d: string, created: Option<CartHandle>): (r: Storage)
    ensures created.Some? ==> StoredCarts(r) == StoredCarts(s)[d := created.value.id] && r.carts.Some?
    ensures created.None? ==> r == s
    ensures r.cartCount == s.cartCount && r.storageEvents == s.storageEvents
  {
    if created.Some? then WithCartId(s, created.value.id, d) else s
  }

  /**
   * `addToExistingCart` on storage: when `cartLinesAdd` returns no cart a new
   * cart is created for the shop; the count goes up by one either way.
   */
  function AfterAddToExistingCart(s: Storage, d: string, added: Option<CartHandle>, created: Option<CartHandle>): (r: Storage)
    ensures r.cartCount == Some(CountBase(s.cartCount) + 1)
    ensures r.storageEvents == s.storageEvents + 1
    ensures added.Some? || created.None? ==> r.carts == s.carts
    ensures added.None? && created.Some? ==> StoredCarts(r) == StoredCarts(s)[d := created.value.id]
  {
    Incremented(if added.None? then AfterCreateNewCart(s, d, created) else s)
  }

  /** True when `addToCart` for shop `d` ends up creating a cart: no tracked cart, or `cartLinesAdd` returned none. */
  predicate CreatesCart(m: map<string, string>, d: string, added: Option<CartHandle>) {
    !TracksCart(m, d) || added.None?
  }

  /** `addToCart` on storage. */
  function AfterAddToCart(s: Storage, d: string, added: Option<CartHandle>, created: Option<CartHandle>): (r: Storage)
    ensures r.cartCount == Some(CountBase(s.cartCount) + 1)
    ensures r.storageEvents == s.storageEvents + 1
    ensures r.carts.Some?
    ensures CreatesCart(StoredCarts(s), d, added) && created.Some? ==>
      StoredCarts(r) == StoredCarts(s)[d := created.value.id]
    ensures !(CreatesCart(StoredCarts(s), d, added) && created.Some?) ==>
      StoredCarts(r) == StoredCarts(s)
  {
    var s1 := ReadCarts(s);
    if !TracksCart(StoredCarts(s1), d) then Incremented(AfterCreateNewCart(s1, d, created))
    else AfterAddToExistingCart(s1, d, added, created)
  }

  /** The mutations `addToCart` sends, in order. */
  function AddToCartRequests(m: map<string, string>, variantId: string, d: string, added: Option<CartHandle>): (r: seq<Request>)
    ensures 1 <= |r| <= 2
    ensures r[0].CartLinesAdd? <==> TracksCart(m, d)
    ensures TracksCart(m, d) ==> r[0] == AddLinesRequest(m[d], variantId)
    ensures |r| == 2 <==> TracksCart(m, d) && added.None?
    ensures r[|r| - 1] == CreateRequest(variantId) <==> CreatesCart(m, d, added)
  {
    if !TracksCart(m, d) then [CreateRequest(variantId)]
    else [AddLinesRequest(m[d], variantId)] + (if added.None? then [CreateRequest(variantId)] else [])
  }

  /** One `addToCart` call: the variant, the shop, and the answers of its backend. */
  datatype AddCall = AddCall(
    variantId: string,
    domain: string,
    added: Option<CartHandle>,
    created: Option<CartHandle>)

  /** Storage after a sequence of `addToCart` calls, made one after another. */
  function AfterAddAll(s: Storage, calls: seq<AddCall>): Storage {
    if calls == [] then s
    else
      var last := calls[|calls| - 1];
      AfterAddToCart(AfterAddAll(s, calls[..|calls| - 1]), last.domain, last.added, last.created)
  }

  /** The shops a sequence of calls adds to. */
  function Touched(calls: seq<AddCall>): set<string> {
    set i | 0 <= i < |calls| :: calls[i].domain
  }

  /** Every `cartCreate` in the sequence returns a cart with a non-empty id. */
  predicate CreatesSucceed(calls: seq<AddCall>) {
    forall i :: 0 <= i < |calls| ==> calls[i].created.Some? && calls[i].created.value.id != ""
  }

  /** The counter rises by exactly one per `addToCart`. */
  lemma {:induction false} AddAllCount(s: Storage, calls: seq<AddCall>)
    ensures AfterAddAll(s, calls).cartCount == Some(CountBase(s.cartCount) + |calls|) || calls == []
    ensures CountBase(AfterAddAll(s, calls).cartCount) == CountBase(s.cartCount) + |calls|
  {
    if calls != [] {
      AddAllCount(s, calls[..|calls| - 1]);
    }
  }

  /**
   * When every cart creation succeeds, each shop added to tracks a cart
   * afterwards, and the entry of every other shop is what it was.
   */
  lemma {:induction false} AddAllTracksTouched(s: Storage, calls: seq<AddCall>)
    requires CreatesSucceed(calls)
    ensures forall d :: d in Touched(calls) ==> TracksCart(StoredCarts(AfterAddAll(s, calls)), d)
    ensures forall d :: d !in Touched(calls) ==>
      Lookup(StoredCarts(AfterAddAll(s, calls)), d) == Lookup(StoredCarts(s), d)
  {
    if calls != [] {
      var prefix := calls[..|calls| - 1];
      var last := calls[|calls| - 1];
      assert CreatesSucceed(prefix);
      AddAllTracksTouched(s, prefix);
      assert Touched(calls) == Touched(prefix) + {last.domain} by {
        forall d | d in Touched(calls) ensures d in Touched(prefix) + {last.domain} {
          var i :| 0 <= i < |calls| && calls[i].domain == d;
          if i < |prefix| { assert prefix[i].domain == d; }
        }
        forall d | d in Touched(prefix) ensures d in Touched(calls) {
          var i :| 0 <= i < |prefix| && prefix[i].domain == d;
          assert calls[i].domain == d;
        }
      }
    }
  }

  /**
   * Call `i` of the sequence creates a cart for its shop: at that point the
   * shop tracks no cart or `cartLinesAdd` returned none, and `cartCreate`
   * returned a cart.
   */
  predicate CreatesAt(s: Storage, calls: seq<AddCall>, i: nat)
    requires i < |calls|
  {
    && CreatesCart(StoredCarts(AfterAddAll(s, calls[..i])), calls[i].domain, calls[i].added)
    && calls[i].created.Some?
  }

  /** Whether call `i` creates a cart depends only on the calls before it and on itself. */
  lemma CreatesAtPrefix(s: Storage, calls: seq<AddCall>, n: nat, i: nat)
    requires i < n <= |calls|
    ensures CreatesAt(s, calls[..n], i) == CreatesAt(s, calls, i)
  {
    assert calls[..n][..i] == calls[..i];
  }

  /** A shop no call created a cart for keeps the entry it had before the sequence. */
  lemma {:induction false} AddAllKeepsUncreated(s: Storage, calls: seq<AddCall>, d: string)
    requires forall j :: 0 <= j < |calls| && calls[j].domain == d ==> !CreatesAt(s, calls, j)
    ensures Lookup(StoredCarts(AfterAddAll(s, calls)), d) == Lookup(StoredCarts(s), d)
  {
    if calls != [] {
      var n := |calls| - 1;
      var prefix := calls[..n];
      forall j | 0 <= j < n && prefix[j].domain == d
        ensures !CreatesAt(s, prefix, j)
      {
        CreatesAtPrefix(s, calls, n, j);
      }
      AddAllKeepsUncreated(s, prefix, d);
    }
  }

  /**
   * After a sequence of `addToCart` calls, a shop's entry is the id of the
   * cart created by the last call that created one for it.
   */
  lemma {:induction false} AddAllLatestCart(s: Storage, calls: seq<AddCall>, d: string, i: nat)
    requires i < |calls| && calls[i].domain == d && CreatesAt(s, calls, i)
    requires forall j :: i < j < |calls| && calls[j].domain == d ==> !CreatesAt(s, calls, j)
    ensures Lookup(StoredCarts(AfterAddAll(s, calls)), d) == Some(calls[i].created.value.id)
  {
    var n := |calls| - 1;
    var prefix := calls[..n];
    if i < n {
      CreatesAtPrefix(s, calls, n, i);
      forall j | i < j < n && prefix[j].domain == d
        ensures !CreatesAt(s, prefix, j)
      {
        CreatesAtPrefix(s, calls, n, j);
      }
      AddAllLatestCart(s, prefix, d, i);
    }
  }

  /**
   * Starting with no stored map, a sequence of `addToCart` calls whose cart
   * creations succeed leaves exactly one entry per shop it touched.
   */
  lemma AddAllFromEmpty(count: Option<int>, events: nat, calls: seq<AddCall>)
    requires CreatesSucceed(calls)
    ensures StoredCarts(AfterAddAll(Storage(None, count, events), calls)).Keys == Touched(calls)
  {
    var s := Storage(None, count, events);
    AddAllTracksTouched(s, calls);
    var m := StoredCarts(AfterAddAll(s, calls));
    forall d | d in m ensures d in Touched(calls) {
      assert Lookup(m, d).Some?;
    }
  }

  /** The local store: the two persisted slots of the browser's local storage. */
  class CartStore {
    var carts: Option<map<string, string>>
    var cartCount: Option<int>
    var storageEvents: nat

    function State(): Storage
      reads this
    {
      Storage(carts, cartCount, storageEvents)
    }

    constructor (carts: Option<map<string, string>>, cartCount: Option<int>)
      ensures State() == Storage(carts, cartCount, 0)
    {
      this.carts := carts;
      this.cartCount := cartCount;
      storageEvents := 0;
    }

    /** `getCartCount`: the stored count; `None` when it is absent or null. */
    function GetCartCount(): (count: Option<int>)
      reads this
      ensures count == State().cartCount
      ensures count.None? ==> CountBase(count) == 0
    {
      cartCount
    }

    method IncreaseCartCount()
      modifies this`cartCount, this`storageEvents
      ensures State() == Incremented(old(State()))
    {
      var currentCount := CountBase(GetCartCount());
      cartCount := Some(currentCount + 1);
      storageEvents := storageEvents + 1;
    }

    method SetCartCount(amount: Option<int>)
      modifies this`cartCount, this`storageEvents
      ensures State() == WithCount(old(State()), amount)
      ensures GetCartCount() == amount
    {
      cartCount := amount;
      storageEvents := storageEvents + 1;
    }

    method GetCarts() returns (m: map<string, string>)
      modifies this`carts
      ensures m == StoredCarts(old(State()))
      ensures State() == ReadCarts(old(State()))
    {
      if carts.None? {
        carts := Some(map[]);
        return map[];
      }
      m := carts.value;
    }

    method SetCartIdForShop(cartId: string, d: string)
      modifies this`carts
      ensures State() == WithCartId(old(State()), cartId, d)
    {
      var currentCarts := GetCarts();
      carts := Some(currentCarts[d := cartId]);
    }

    /** `createNewCart`: one `cartCreate` with a single line; the returned cart id becomes the shop's entry. */
    method CreateNewCart(variantId: string, d: string, response: Option<CartHandle>)
      returns (request: Request, data: Option<CartHandle>)
      modifies this`carts
      ensures request == CartCreate([LineInput(variantId, Some(1))])
      ensures data == response
      ensures State() == AfterCreateNewCart(old(State()), d, response)
    {
      request := CreateRequest(variantId);
      data := response;
      if response.Some? {
        SetCartIdForShop(response.value.id, d);
      }
    }

    /** `addToExistingCart`: add a line to the tracked cart, re-create the cart if none comes back, count one more. */
    method AddToExistingCart(cartId: string, variantId: string, d: string, added: Option<CartHandle>, created: Option<CartHandle>)
      returns (requests: seq<Request>)
      modifies this`carts, this`cartCount, this`storageEvents
      ensures requests == [AddLinesRequest(cartId, variantId)] + (if added.None? then [CreateRequest(variantId)] else [])
      ensures State() == AfterAddToExistingCart(old(State()), d, added, created)
    {
      requests := [AddLinesRequest(cartId, variantId)];
      if added.None? {
        var request, _ := CreateNewCart(variantId, d, created);
        requests := requests + [request];
      }
      IncreaseCartCount();
    }

    /** `addToCart`: create a cart for an untracked shop, otherwise add to the tracked one. */
    method AddToCart(variantId: string, d: string, added: Option<CartHandle>, created: Option<CartHandle>)
      returns (requests: seq<Request>)
      modifies this`carts, this`cartCount, this`storageEvents
      ensures requests == AddToCartRequests(StoredCarts(old(State())), variantId, d, added)
      ensures State() == AfterAddToCart(old(State()), d, added, created)
    {
      var currentCarts := GetCarts();
      if !TracksCart(currentCarts, d) {
        var request, _ := CreateNewCart(variantId, d, created);
        requests := [request];
        IncreaseCartCount();
        return;
      }
      requests := AddToExistingCart(currentCarts[d], variantId, d, added, created);
    }

    /**
     * `addToCartAndCheckout` ("buy now"): always a new cart, which replaces the
     * shop's entry; the count is not touched; the returned checkout URL is opened.
     */
    method AddToCartAndCheckout(variantId: string, d: string, created: Option<CartHandle>)
      returns (request: Request, openedUrl: Option<string>)
      modifies this`carts
      ensures request == CreateRequest(variantId)
      ensures openedUrl == if created.Some? then Some(created.value.checkoutUrl) else None
      ensures State() == AfterCreateNewCart(old(State()), d, created)
    {
      var data;
      request, data := CreateNewCart(variantId, d, created);
      openedUrl := None;
      if data.Some? {
        openedUrl := Some(data.value.checkoutUrl);
      }
    }
  }

  /** `removeItemFromCart`: one `cartLinesRemove` for exactly one line; the backend's cart is handed back. */
  method RemoveItemFromCart(cartId: string, lineItemId: string, response: Option<RemoteCart>)
    returns (request: Request, data: Option<RemoteCart>)
    ensures request == CartLinesRemove(cartId, [lineItemId])
    ensures data == response
  {
    request := CartLinesRemove(cartId, [lineItemId]);
    data := response;
  }

  /** `updateItemCountInCart`: one `cartLinesUpdate` setting one line's quantity; the backend's cart is handed back. */
  method UpdateItemCountInCart(cartId: string, lineItemId: string, quantity: int, response: Option<RemoteCart>)
    returns (request: Request, data: Option<RemoteCart>)
    ensures request == CartLinesUpdate(cartId, [LineUpdate(lineItemId, quantity)])
    ensures data == response
  {
    request := CartLinesUpdate(cartId, [LineUpdate(lineItemId, quantity)]);
    data := response;
  }
}
