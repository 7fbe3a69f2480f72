/**
 * client/src/pages/ProductDetail.tsx: the price comparison of a product's
 * listings, the auto-selection of the cheapest one, the row badges, row
 * clicks and the buy-now guard. `Array.prototype.sort` is stable (section
 * 23.1.3.30 of ECMA-262, 2023 edition); with the comparator `a.price -
 * b.price` its result is the stable ascending order, defined here by
 * insertion.
 */
module ProductDetail {
  import opened Options
  import opened Schemas

  /** A listing; prices are whole rupees. Seller, stock and delivery are not read by the logic. */
  datatype Listing = Listing(id: string, price: int)

  datatype Product = Product(id: string, nameEn: string, listings: seq<Listing>)

  predicate SortedByPrice(s: seq<Listing>) {
    forall i, j :: 0 <= i < j < |s| ==> s[i].price <= s[j].price
  }

  /** The listings of `s` that cost exactly `p`, in their order in `s`. */
  function WithPrice(s: seq<Listing>, p: int): seq<Listing>
  {
    if s == [] then []
    else if s[0].price == p then [s[0]] + WithPrice(s[1..], p)
    else WithPrice(s[1..], p)
  }

  /** Places `x` in front of the first listing that costs no less than it. */
  function Insert(r: seq<Listing>, x: Listing): (res: seq<Listing>)
    requires SortedByPrice(r)
    ensures |res| == |r| + 1
    ensures res[0] == x || (r != [] && res[0] == r[0])
    ensures SortedByPrice(res)
    ensures multiset(res) == multiset(r) + multiset{x}
  {
    if r == [] || x.price <= r[0].price then [x] + r
    else
      var rest := Insert(r[1..], x);
      assert r == [r[0]] + r[1..];
      assert r[0].price <= rest[0].price;
      [r[0]] + rest
  }

  /**
   * `[...listings].sort((a, b) => a.price - b.price)`: a copy, sorted, with the
   * same listings. Each listing is inserted into the sorted rest in front of
   * those that cost no less, which keeps equal prices in input order.
   */
  function SortByPrice(s: seq<Listing>): (r: seq<Listing>)
    ensures SortedByPrice(r)
    ensures multiset(r) == multiset(s)
    ensures |r| == |s|
  {
    if s == [] then []
    else
      assert s == [s[0]] + s[1..];
      Insert(SortByPrice(s[1..]), s[0])
  }

  /** Inserting `x` puts it, at its price, before the listings of `r`, which keep their order. */
  lemma {:induction false} InsertStable(r: seq<Listing>, x: Listing, p: int)
    requires SortedByPrice(r)
    ensures WithPrice(Insert(r, x), p) == WithPrice([x], p) + WithPrice(r, p)
  {
    if r == [] || x.price <= r[0].price {
      var xr := [x] + r;
      assert xr[0] == x && xr[1..] == r;
    } else {
      var rest := Insert(r[1..], x);
      var res := [r[0]] + rest;
      assert res[0] == r[0] && res[1..] == rest;
      InsertStable(r[1..], x, p);
      if r[0].price == p {
        assert WithPrice([x], p) == [];
      }
    }
  }

  /**
   * The sort is stable: for every price, the listings at that price appear in
   * the sorted copy in the same order as in the original.
   */
  lemma {:induction false} SortStable(s: seq<Listing>, p: int)
    ensures WithPrice(SortByPrice(s), p) == WithPrice(s, p)
  {
    if s != [] {
      var t := SortByPrice(s[1..]);
      SortStable(s[1..], p);
      InsertStable(t, s[0], p);
      WithPriceCons(s, p);
    }
  }

  /** Selecting from a non-empty sequence: its head's share, then the rest's. */
  lemma WithPriceCons(s: seq<Listing>, p: int)
    requires s != []
    ensures WithPrice(s, p) == WithPrice([s[0]], p) + WithPrice(s[1..], p)
  {
    var head := [s[0]];
    assert head[0] == s[0] && head[1..] == [];
  }

  lemma WithPriceHead(s: seq<Listing>, p: int)
    requires s != [] && s[0].price == p
    ensures WithPrice(s, p) == [s[0]] + WithPrice(s[1..], p)
  {
    assert WithPrice([s[0]], p) == [s[0]];
  }

  /** The first element of the sorted copy costs no more than any listing. */
  lemma SortedHeadIsCheapest(s: seq<Listing>)
    requires s != []
    ensures forall i :: 0 <= i < |s| ==> SortByPrice(s)[0].price <= s[i].price
  {
    var r := SortByPrice(s);
    forall i | 0 <= i < |s|
      ensures r[0].price <= s[i].price
    {
      assert s[i] in multiset(r);
      var j :| 0 <= j < |r| && r[j] == s[i];
    }
  }

  /** The first listing at price `p` in `s` is the one at the first index with that price. */
  lemma {:induction false} FirstAtPrice(s: seq<Listing>, k: nat, p: int)
    requires k < |s| && s[k].price == p
    requires forall j :: 0 <= j < k ==> s[j].price != p
    ensures WithPrice(s, p) != [] && WithPrice(s, p)[0] == s[k]
  {
    if k == 0 {
      WithPriceHead(s, p);
    } else {
      FirstAtPrice(s[1..], k - 1, p);
      assert s[0].price != p;
    }
  }

  /** The first index of `s` holding a listing at price `m`, given that `i0` holds one. */
  lemma FirstIndexAt(s: seq<Listing>, m: int, i0: nat) returns (k: nat)
    requires i0 < |s| && s[i0].price == m
    ensures k <= i0 && s[k].price == m
    ensures forall j :: 0 <= j < k ==> s[j].price != m
  {
    k := 0;
    while s[k].price != m
      invariant k <= i0
      invariant forall j :: 0 <= j < k ==> s[j].price != m
      decreases i0 - k
    {
      k := k + 1;
    }
  }

  /**
   * The auto-selected listing, `sorted[0]`, costs no more than any other, and
   * it is the earliest listing of the original array at that price.
   */
  lemma CheapestIsEarliestMinimum(s: seq<Listing>) returns (k: nat)
    requires s != []
    ensures k < |s| && SortByPrice(s)[0] == s[k]
    ensures forall i :: 0 <= i < |s| ==> s[k].price <= s[i].price
    ensures forall j :: 0 <= j < k ==> s[j].price > s[k].price
  {
    var r := SortByPrice(s);
    var m := r[0].price;
    SortedHeadIsCheapest(s);
    assert r[0] in multiset(s);
    var i0 :| 0 <= i0 < |s| && s[i0] == r[0];
    k := FirstIndexAt(s, m, i0);
    SortStable(s, m);
    WithPriceHead(r, m);
    FirstAtPrice(s, k, m);
  }

  /** What one row of the comparison list shows. */
  datatype Row = Row(listing: Listing, rank: nat, lowest: bool, selected: bool)

  /** The comparison rows: rank `idx + 1`, the lowest badge on the first, the selected mark by id. */
  function Rows(sorted: seq<Listing>, selected: Option<Listing>): (rows: seq<Row>)
    ensures |rows| == |sorted|
    ensures forall i :: 0 <= i < |rows| ==>
      rows[i].listing == sorted[i] && rows[i].rank == i + 1 && (rows[i].lowest <==> i == 0)
    ensures forall i :: 0 <= i < |rows| ==>
      (rows[i].selected <==> selected.Some? && selected.value.id == sorted[i].id)
  {
    seq(|sorted|, i requires 0 <= i < |sorted| =>
      Row(sorted[i], i + 1, i == 0, selected.Some? && selected.value.id == sorted[i].id))
  }

  /**
   * The best-price badge: a selection whose id is that of the first sorted
   * listing. It shows exactly when the first row of the table is highlighted.
   */
  function BestPriceBadge(sorted: seq<Listing>, selected: Option<Listing>): (b: bool)
    ensures b ==> selected.Some? && sorted != []
    ensures sorted != [] ==> (b <==> Rows(sorted, selected)[0].selected)
  {
    selected.Some? && sorted != [] && sorted[0].id == selected.value.id
  }

  /** Clicking row `k` marks exactly the rows that share its id, row `k` among them. */
  lemma ClickMarksRow(sorted: seq<Listing>, k: nat)
    requires k < |sorted|
    ensures Rows(sorted, Some(sorted[k]))[k].selected
    ensures forall i :: 0 <= i < |sorted| ==>
      (Rows(sorted, Some(sorted[k]))[i].selected <==> sorted[i].id == sorted[k].id)
    ensures BestPriceBadge(sorted, Some(sorted[k])) <==> Rows(sorted, Some(sorted[k]))[0].selected
  {
  }

  /** What `initiatePayment` is asked for. */
  datatype PaymentRequest = PaymentRequest(listingId: string, quantity: nat, productName: string,
                                           userName: string, userEmail: string)

  class ProductPage {
    var loading: bool
    var error: bool
    var product: Option<Product>
    var selected: Option<Listing>
    var payments: seq<PaymentRequest>

    /** The mount: loading, nothing fetched or selected. */
    constructor ()
      ensures loading && !error && product == None && selected == None && payments == []
    {
      loading := true;
      error := false;
      product := None;
      selected := None;
      payments := [];
    }

    /** The listings in the order the comparison shows them. */
    function Sorted(): (r: seq<Listing>)
      reads this
      requires product.Some?
      ensures SortedByPrice(r) && multiset(r) == multiset(product.value.listings)
    {
      SortByPrice(product.value.listings)
    }

    /**
     * The fetch resolved: the product is shown and, if it has listings, the
     * cheapest is selected. A mount fetches once, so this happens only while loading.
     */
    method FetchSucceeded(data: Product)
      requires loading
      modifies this
      ensures product == Some(data) && !loading && error == old(error) && payments == old(payments)
      ensures data.listings != [] ==> selected == Some(SortByPrice(data.listings)[0])
      ensures data.listings == [] ==> selected == old(selected)
    {
      product := Some(data);
      if |data.listings| > 0 {
        var cheapest := SortByPrice(data.listings)[0];
        selected := Some(cheapest);
      }
      loading := false;
    }

    /** The fetch was rejected, while loading: the not-found view. */
    method FetchFailed()
      requires loading
      modifies this
      ensures error && !loading
      ensures product == old(product) && selected == old(selected) && payments == old(payments)
    {
      error := true;
      loading := false;
    }

    /** A click on a comparison row. */
    method SelectRow(listing: Listing)
      modifies this
      ensures selected == Some(listing)
      ensures loading == old(loading) && error == old(error) && product == old(product) && payments == old(payments)
    {
      selected := Some(listing);
    }

    /**
     * `handleBuyNow`: nothing without a selection, a user or a product;
     * otherwise one payment of quantity 1 for the selected listing.
     */
    method BuyNow(user: Option<Account>)
      modifies this
      ensures loading == old(loading) && error == old(error) && product == old(product) && selected == old(selected)
      ensures selected.None? || user.None? || product.None? ==> payments == old(payments)
      ensures selected.Some? && user.Some? && product.Some? ==>
        payments == old(payments) + [PaymentRequest(selected.value.id, 1, product.value.nameEn,
                                                    user.value.name, user.value.email)]
    {
      if selected.None? || user.None? || product.None? {
        return;
      }
      payments := payments + [PaymentRequest(selected.value.id, 1, product.value.nameEn,
                                             user.value.name, user.value.email)];
    }
  }

  /**
   * After a successful fetch with listings, the selection is the first
   * comparison row, which carries both the best-price badge and the selected mark.
   */
  method MountShowsBestPrice(data: Product) returns (badge: bool, firstSelected: bool)
    requires data.listings != []
    ensures badge && firstSelected
  {
    var page := new ProductPage();
    page.FetchSucceeded(data);
    var sorted := page.Sorted();
    badge := BestPriceBadge(sorted, page.selected);
    firstSelected := Rows(sorted, page.selected)[0].selected;
  }
}
