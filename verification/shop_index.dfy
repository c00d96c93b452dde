/**
 * The shop list of pages/index.js: the query variables built from the
 * filters, the list of countries offered, and the pagination of the
 * shops the directory returns, five to a page.
 */
module ShopIndex {
  import opened Options

  const ShopsPerPage: nat := 5

  /** The country entry that stands for "no country filter". */
  const AllCountries := "All"

  /** The key code of Enter. */
  const EnterKeyCode := 13

  /** A shop as the directory's `shops` query returns it on this page. */
  datatype ShopRecord = ShopRecord(id: string, domain: string, storefrontAccessToken: string)

  function Min(a: int, b: int): int {
    if a <= b then a else b
  }

  // ---------------------------------------------------------------------
  // ShopsSection: pagination arithmetic

  /** `numberOfPages`: the fewest pages of five that hold every shop; 0 when there is no shop list. */
  function NumberOfPages<T>(shops: Option<seq<T>>): (n: nat)
    ensures shops.None? ==> n == 0
    ensures shops.Some? ==> |shops.value| <= n * ShopsPerPage
    ensures shops.Some? && n > 0 ==> (n - 1) * ShopsPerPage < |shops.value|
  {
    if shops.None? then 0 else (|shops.value| + ShopsPerPage - 1) / ShopsPerPage
  }

  /** `Array.prototype.slice(start, end)` for non-negative bounds: out-of-range bounds are clamped. */
  function Slice<T>(s: seq<T>, start: nat, end: nat): (r: seq<T>)
    ensures |r| == if end <= start || |s| <= start then 0 else Min(end, |s|) - start
    ensures forall i :: 0 <= i < |r| ==> start + i < |s| && r[i] == s[start + i]
  {
    if end <= start || |s| <= start then [] else s[start..Min(end, |s|)]
  }

  /** `shops.slice(currentShopIndex, nextPageLimit)`: the shops shown on page `pageIndex`. */
  function VisibleShops<T>(shops: seq<T>, pageIndex: nat): (r: seq<T>)
    ensures |r| <= ShopsPerPage
    ensures forall i :: 0 <= i < |r| ==>
      pageIndex * ShopsPerPage + i < |shops| && r[i] == shops[pageIndex * ShopsPerPage + i]
    ensures |r| == Min(ShopsPerPage, |shops| - pageIndex * ShopsPerPage) || |r| == 0
    ensures |r| > 0 <==> pageIndex < NumberOfPages(Some(shops))
    ensures pageIndex + 1 < NumberOfPages(Some(shops)) ==> |r| == ShopsPerPage
  {
    var currentShopIndex := pageIndex * ShopsPerPage;
    var nextPageLimit := currentShopIndex + ShopsPerPage;
    Slice(shops, currentShopIndex, nextPageLimit)
  }

  /** The first `k` pages, one after another. */
  function Pages<T>(shops: seq<T>, k: nat): seq<T> {
    if k == 0 then [] else Pages(shops, k - 1) + VisibleShops(shops, k - 1)
  }

  /** The first `k` pages are the first `5k` shops (or all of them). */
  lemma {:induction false} PagesArePrefix<T>(shops: seq<T>, k: nat)
    ensures Pages(shops, k) == shops[..Min(k * ShopsPerPage, |shops|)]
  {
    if k > 0 {
      PagesArePrefix(shops, k - 1);
      var page := VisibleShops(shops, k - 1);
      var lo := Min((k - 1) * ShopsPerPage, |shops|);
      var hi := Min(k * ShopsPerPage, |shops|);
      if lo < |shops| {
        assert page == shops[lo..hi];
      } else {
        assert page == [];
      }
      assert shops[..lo] + shops[lo..hi] == shops[..hi];
    }
  }

  /** The pages partition the shop list: read in order, they give every shop once. */
  lemma PagesCoverShops<T>(shops: seq<T>)
    ensures Pages(shops, NumberOfPages(Some(shops))) == shops
  {
    PagesArePrefix(shops, NumberOfPages(Some(shops)));
    assert shops[..|shops|] == shops;
  }

  /** `hasNextPage`: `pageIndex < numberOfPages - 1`. */
  predicate HasNextPage(pageIndex: nat, numberOfPages: nat) {
    pageIndex < numberOfPages - 1
  }

  /** `hasPreviousPage`: `pageIndex > 0`. */
  predicate HasPreviousPage(pageIndex: nat) {
    pageIndex > 0
  }

  /** One entry of the page selector: the page index and the 1-based number shown. */
  datatype PageOption = PageOption(value: nat, shownAs: nat)

  /** `[...Array(numberOfPages).keys()]`, each shown as `pageNumber + 1`. */
  function PageOptions(numberOfPages: nat): (r: seq<PageOption>)
    ensures |r| == numberOfPages
    ensures forall i :: 0 <= i < |r| ==> r[i].value == i && r[i].shownAs == i + 1
  {
    seq(numberOfPages, (i: nat) => PageOption(i, i + 1))
  }

  /** What `ShopsSection` renders. */
  datatype SectionView =
    | NoShops
    | Listing(
        visible: seq<ShopRecord>,
        numberOfPages: nat,
        showsPageControls: bool,
        hasPreviousPage: bool,
        hasNextPage: bool,
        pageOptions: seq<PageOption>)

  /** The `ShopsSection` component: its `shops` prop and its `pageIndex` state. */
  class ShopsSection {
    var shops: Option<seq<ShopRecord>>
    var pageIndex: nat

    /** The page index always names a page that exists, or is 0. */
    ghost predicate Valid()
      reads this
    {
      pageIndex == 0 || pageIndex < NumberOfPages(shops)
    }

    constructor (shops: Option<seq<ShopRecord>>)
      ensures this.shops == shops && pageIndex == 0 && Valid()
    {
      this.shops := shops;
      pageIndex := 0;
    }

    /** A new `shops` prop: the effect on `[shops]` puts the page index back to 0. */
    method ShopsChanged(newShops: Option<seq<ShopRecord>>)
      modifies this
      ensures shops == newShops && pageIndex == 0 && Valid()
    {
      shops := newShops;
      pageIndex := 0;
    }

    /** The "Next Page" link, rendered only when there is a next page. */
    method NextPage()
      requires HasNextPage(pageIndex, NumberOfPages(shops))
      modifies this`pageIndex
      ensures pageIndex == old(pageIndex) + 1 && Valid()
    {
      pageIndex := pageIndex + 1;
    }

    /** The "Previous Page" link, rendered only when there is a previous page. */
    method PreviousPage()
      requires Valid() && HasPreviousPage(pageIndex)
      modifies this`pageIndex
      ensures pageIndex == old(pageIndex) - 1 && Valid()
    {
      pageIndex := pageIndex - 1;
    }

    /** The page selector, which offers the indices of the existing pages. */
    method SelectPage(p: nat)
      requires p < NumberOfPages(shops)
      modifies this`pageIndex
      ensures pageIndex == p && Valid()
    {
      pageIndex := p;
    }

    /** One render of the section. */
    method Render() returns (view: SectionView)
      requires Valid()
      ensures view.NoShops? <==> shops.None?
      ensures view.Listing? ==>
        && view.visible == VisibleShops(shops.value, pageIndex)
        && view.numberOfPages == NumberOfPages(shops)
        && |view.visible| <= ShopsPerPage
        && (|shops.value| > 0 ==> |view.visible| > 0)
        && (view.showsPageControls <==> view.numberOfPages > 1)
        && (view.hasPreviousPage <==> pageIndex > 0)
        && (view.hasNextPage <==> pageIndex + 1 < view.numberOfPages)
        && (view.hasNextPage ==> |VisibleShops(shops.value, pageIndex + 1)| > 0)
        && |view.pageOptions| == view.numberOfPages
        && (forall i :: 0 <= i < view.numberOfPages ==> view.pageOptions[i] == PageOption(i, i + 1))
    {
      if shops.None? {
        return NoShops;
      }
      var numberOfPages := NumberOfPages(shops);
      var visible := VisibleShops(shops.value, pageIndex);
      view := Listing(
        visible,
        numberOfPages,
        numberOfPages > 1,
        HasPreviousPage(pageIndex),
        HasNextPage(pageIndex, numberOfPages),
        PageOptions(numberOfPages));
    }
  }

  // ---------------------------------------------------------------------
  // Index: query variables, the country list, the search box

  /** The variables of the directory's `Shops` query. */
  datatype ShopsQueryVariables = ShopsQueryVariables(country: string, name: string, reverse: bool)

  /**
   * The list of countries the filter offers: the directory's list (empty
   * when it has not answered), with "All" put at the front when it is missing.
   */
  method CountryList(shopCountries: Option<seq<string>>) returns (countries: seq<string>)
    ensures AllCountries in countries
    ensures shopCountries.Some? && AllCountries in shopCountries.value ==> countries == shopCountries.value
    ensures !(shopCountries.Some? && AllCountries in shopCountries.value) ==>
      && countries[0] == AllCountries
      && countries[1..] == shopCountries.GetOr([])
      && multiset(countries)[AllCountries] == 1
  {
    countries := if shopCountries.Some? then shopCountries.value else [];
    if AllCountries !in countries {
      countries := [AllCountries] + countries;
      assert multiset(countries) == multiset{AllCountries} + multiset(countries[1..]);
    }
  }

  /** The `Index` component's state: the country filter, the sort order and the search string. */
  class IndexPage {
    var countryFilter: string
    var descendingSort: bool
    var searchString: string

    constructor ()
      ensures countryFilter == AllCountries && !descendingSort && searchString == ""
    {
      countryFilter := AllCountries;
      descendingSort := false;
      searchString := "";
    }

    /** The variables of the `Shops` query: no country when the filter is empty or "All". */
    function QueryVariables(): (v: ShopsQueryVariables)
      reads this
      ensures v.country == "" <==> countryFilter == "" || countryFilter == AllCountries
      ensures v.country != "" ==> v.country == countryFilter
      ensures v.name == searchString && v.reverse == descendingSort
    {
      ShopsQueryVariables(
        if countryFilter == "" || countryFilter == AllCountries then "" else countryFilter,
        searchString,
        descendingSort)
    }

    /** `onSearchKeyDown`: the search string takes the box's text on Enter, and only then. */
    method OnSearchKeyDown(keyCode: int, value: string)
      modifies this`searchString
      ensures searchString == if keyCode == EnterKeyCode then value else old(searchString)
    {
      if keyCode == EnterKeyCode {
        searchString := value;
      }
    }

    method SetCountry(value: string)
      modifies this`countryFilter
      ensures countryFilter == value
    {
      countryFilter := value;
    }

    method SetSort(value: bool)
      modifies this`descendingSort
      ensures descendingSort == value
    {
      descendingSort := value;
    }
  }
}
