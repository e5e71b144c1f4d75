/**
 * The shop page's catalog query: the static product list, filtered by a
 * selector that names either a category or a promotional tag, then optionally
 * sorted by price with a stable sort (`Array.prototype.sort` is required to be
 * stable). Everything here is a value: the query builds a new sequence and the
 * catalog it reads is never changed.
 */
module Catalog {

  import opened Options

  datatype Product = Product(id: int, name: string, price: int, category: string,
                             image: string, tag: Option<string>)

  /** The shop's product table, in catalog ("newest") order. */
  const AllProducts: seq<Product> := [
    Product(1, "Oversized Zip Hoodie", 285, "Men", "product-1.jpg", Some("New")),
    Product(2, "Structured Blazer", 420, "Women", "product-2.jpg", Some("New")),
    Product(3, "Wide-Leg Trousers", 195, "Women", "product-3.jpg", None),
    Product(4, "Cashmere Knit", 310, "Men", "product-4.jpg", Some("Sale")),
    Product(5, "Minimal Overshirt", 230, "Men", "product-1.jpg", None),
    Product(6, "Column Dress", 380, "Women", "product-2.jpg", Some("New Arrivals")),
    Product(7, "Slim Cargo Pant", 175, "Men", "product-3.jpg", Some("Sale")),
    Product(8, "Ribbed Tank", 95, "Women", "product-4.jpg", None)
  ]

  /** The selector that disables filtering. */
  const AllSelector: string := "All"

  const Newest: string := "Newest"
  const LowToHigh: string := "Price: Low to High"
  const HighToLow: string := "Price: High to Low"

  /** A product matches a selector through its category or, when it has one, its tag. */
  function Matches(p: Product, selector: string): (b: bool)
    ensures p.category == selector ==> b
    ensures p.tag == Some(selector) ==> b
    ensures p.tag.None? ==> (b <==> p.category == selector)
    ensures b ==> p.category == selector || p.tag == Some(selector)
  {
    p.category == selector || (p.tag.Some? && p.tag.value == selector)
  }

  /** The products of `s` that match the selector, in their order in `s`. */
  function FilterBy(s: seq<Product>, selector: string): (r: seq<Product>)
    ensures |r| <= |s|
  {
    if s == [] then []
    else (if Matches(s[0], selector) then [s[0]] else []) + FilterBy(s[1..], selector)
  }

  /** The filter keeps exactly the products that match the selector. */
  lemma {:induction false} FilterByMembers(s: seq<Product>, selector: string)
    ensures forall p :: p in FilterBy(s, selector) <==> p in s && Matches(p, selector)
  {
    if s != [] {
      FilterByMembers(s[1..], selector);
      assert s == [s[0]] + s[1..];
    }
  }

  /** The list the sort step starts from: the whole catalog for "All", else the matching products. */
  function Selected(catalog: seq<Product>, selector: string): (r: seq<Product>)
    ensures selector == AllSelector ==> r == catalog
    ensures forall p :: p in r <==> p in catalog && (selector == AllSelector || Matches(p, selector))
  {
    FilterByMembers(catalog, selector);
    if selector != AllSelector then FilterBy(catalog, selector) else catalog
  }

  /** Filtering distributes over joined lists, so it never reorders what it keeps. */
  lemma {:induction false} FilterByAppend(a: seq<Product>, b: seq<Product>, selector: string)
    ensures FilterBy(a + b, selector) == FilterBy(a, selector) + FilterBy(b, selector)
  {
    if a == [] {
      assert a + b == b;
    } else {
      var x, t := a[0], a[1..];
      var head := if Matches(x, selector) then [x] else [];
      assert a + b == [x] + (t + b);
      assert (a + b)[1..] == t + b;
      FilterByAppend(t, b, selector);
      assert FilterBy(a + b, selector) == head + FilterBy(t + b, selector);
      assert FilterBy(a, selector) == head + FilterBy(t, selector);
    }
  }

  /**
   * The products of one price that the filter keeps are that price's products
   * of the catalog, filtered, in catalog order.
   */
  lemma {:induction false} FilterByWithPrice(s: seq<Product>, selector: string, v: int)
    ensures WithPrice(FilterBy(s, selector), v) == FilterBy(WithPrice(s, v), selector)
  {
    if s != [] {
      var x, t := s[0], s[1..];
      FilterByWithPrice(t, selector, v);
      var ft, wt := FilterBy(t, selector), WithPrice(t, v);
      if Matches(x, selector) {
        assert ([x] + ft)[1..] == ft;
      } else {
        assert FilterBy(s, selector) == ft;
      }
      if x.price == v {
        assert ([x] + wt)[1..] == wt;
      } else {
        assert WithPrice(s, v) == wt;
      }
    }
  }

  /**
   * Whether `a` may stay before `b`: the comparator `a.price - b.price`
   * (ascending) or `b.price - a.price` (descending) is not positive.
   */
  predicate InOrder(a: Product, b: Product, descending: bool) {
    if descending then a.price >= b.price else a.price <= b.price
  }

  ghost predicate SortedBy(s: seq<Product>, descending: bool) {
    forall i, j :: 0 <= i < j < |s| ==> InOrder(s[i], s[j], descending)
  }

  /** The products of `s` priced `v`, in their order in `s`. */
  function WithPrice(s: seq<Product>, v: int): (r: seq<Product>) {
    if s == [] then []
    else (if s[0].price == v then [s[0]] else []) + WithPrice(s[1..], v)
  }

  lemma {:induction false} WithPriceMembers(s: seq<Product>, v: int)
    ensures forall p :: p in WithPrice(s, v) <==> p in s && p.price == v
  {
    if s != [] {
      WithPriceMembers(s[1..], v);
      assert s == [s[0]] + s[1..];
    }
  }

  /**
   * Inserts `x` before the first product it may precede. Since `x` comes from
   * earlier in the input than everything in `s`, equal prices keep their order.
   */
  function Insert(x: Product, s: seq<Product>, descending: bool): (r: seq<Product>) {
    if s == [] || InOrder(x, s[0], descending) then [x] + s
    else [s[0]] + Insert(x, s[1..], descending)
  }

  lemma {:induction false} InsertPermutes(x: Product, s: seq<Product>, descending: bool)
    ensures multiset(Insert(x, s, descending)) == multiset(s) + multiset{x}
  {
    if s != [] && !InOrder(x, s[0], descending) {
      InsertPermutes(x, s[1..], descending);
      assert s == [s[0]] + s[1..];
    }
  }

  lemma {:induction false} InsertSorted(x: Product, s: seq<Product>, descending: bool)
    requires SortedBy(s, descending)
    ensures SortedBy(Insert(x, s, descending), descending)
  {
    if s != [] && !InOrder(x, s[0], descending) {
      var rest := Insert(x, s[1..], descending);
      InsertSorted(x, s[1..], descending);
      InsertPermutes(x, s[1..], descending);
      var r := [s[0]] + rest;
      forall j | 0 < j < |r| ensures InOrder(r[0], r[j], descending) {
        assert r[j] in multiset(rest);
        assert r[j] == x || r[j] in s[1..];
      }
    }
  }

  /** Inserting `x` puts it first among the products of its price and moves it past none of them. */
  lemma {:induction false} InsertStable(x: Product, s: seq<Product>, descending: bool, v: int)
    ensures WithPrice(Insert(x, s, descending), v) == (if x.price == v then [x] else []) + WithPrice(s, v)
  {
    if s == [] || InOrder(x, s[0], descending) {
      assert ([x] + s)[1..] == s;
    } else {
      InsertStable(x, s[1..], descending, v);
      assert ([s[0]] + Insert(x, s[1..], descending))[1..] == Insert(x, s[1..], descending);
    }
  }

  /** `Array.prototype.sort` with a price comparator: a stable sort by price. */
  function SortByPrice(s: seq<Product>, descending: bool): (r: seq<Product>)
    ensures multiset(r) == multiset(s)
    ensures SortedBy(r, descending)
    ensures forall v :: WithPrice(r, v) == WithPrice(s, v)
  {
    if s == [] then []
    else
      var rest := SortByPrice(s[1..], descending);
      InsertPermutes(s[0], rest, descending);
      InsertSorted(s[0], rest, descending);
      assert s == [s[0]] + s[1..];
      assert forall v :: WithPrice(Insert(s[0], rest, descending), v) == WithPrice(s, v) by {
        forall v ensures WithPrice(Insert(s[0], rest, descending), v) == WithPrice(s, v) {
          InsertStable(s[0], rest, descending, v);
        }
      }
      Insert(s[0], rest, descending)
  }

  /**
   * The shop's `filtered` list: filter by the selector unless it is "All",
   * then sort by price when one of the two price orders is chosen.
   */
  function Query(catalog: seq<Product>, selector: string, sortBy: string): (r: seq<Product>)
    ensures multiset(r) == multiset(Selected(catalog, selector))
    ensures forall p :: p in r <==> p in catalog && (selector == AllSelector || Matches(p, selector))
    ensures sortBy == LowToHigh ==> SortedBy(r, false)
    ensures sortBy == HighToLow ==> SortedBy(r, true)
    ensures forall v :: WithPrice(r, v) == WithPrice(Selected(catalog, selector), v)
    ensures sortBy != LowToHigh && sortBy != HighToLow ==> r == Selected(catalog, selector)
  {
    var result := Selected(catalog, selector);
    FilterByMembers(catalog, selector);
    assert forall p :: p in result <==> p in catalog && (selector == AllSelector || Matches(p, selector));
    var ascending := if sortBy == LowToHigh then SortByPrice(result, false) else result;
    assert forall p :: p in ascending <==> p in multiset(result);
    if sortBy == HighToLow then SortByPrice(ascending, true) else ascending
  }

  lemma {:induction false} FilterByNone(s: seq<Product>, selector: string)
    requires forall p :: p in s ==> !Matches(p, selector)
    ensures FilterBy(s, selector) == []
  {
    if s != [] {
      assert s[0] in s;
      FilterByNone(s[1..], selector);
    }
  }

  /**
   * The products of any one price appear in the result in catalog order: every
   * price's run is the catalog's run of that price, filtered by the selector.
   */
  lemma QueryKeepsCatalogOrder(catalog: seq<Product>, selector: string, sortBy: string)
    ensures forall v :: WithPrice(Query(catalog, selector, sortBy), v) ==
              if selector == AllSelector then WithPrice(catalog, v) else FilterBy(WithPrice(catalog, v), selector)
  {
    forall v
      ensures WithPrice(Query(catalog, selector, sortBy), v) ==
              if selector == AllSelector then WithPrice(catalog, v) else FilterBy(WithPrice(catalog, v), selector)
    {
      FilterByWithPrice(catalog, selector, v);
    }
  }

  /** A selector that no product matches gives an empty list, whatever the sort. */
  lemma QueryNoMatch(catalog: seq<Product>, selector: string, sortBy: string)
    requires selector != AllSelector
    requires forall p :: p in catalog ==> !Matches(p, selector)
    ensures Query(catalog, selector, sortBy) == []
  {
    FilterByNone(catalog, selector);
    var r := Query(catalog, selector, sortBy);
    assert |multiset(r)| == 0;
  }

  // ---------------------------------------------------------------------------
  // A stable sort by price has exactly one possible result

  /** A non-empty sequence has a non-empty run at the price of its first product. */
  lemma HeadRunNonEmpty(s: seq<Product>)
    ensures s != [] ==> WithPrice(s, s[0].price) != []
  {
  }

  /** In a sorted sequence the first product may precede every product of the sequence. */
  lemma HeadFirst(s: seq<Product>, x: Product, descending: bool)
    requires SortedBy(s, descending) && x in s
    ensures InOrder(s[0], x, descending)
  {
    var j :| 0 <= j < |s| && s[j] == x;
    assert j == 0 || InOrder(s[0], s[j], descending);
  }

  /** Sorted sequences whose runs at their first prices agree start with the same product. */
  lemma SameHead(a: seq<Product>, b: seq<Product>, descending: bool)
    requires a != [] && b != []
    requires SortedBy(a, descending) && SortedBy(b, descending)
    requires WithPrice(a, a[0].price) == WithPrice(b, a[0].price)
    requires WithPrice(a, b[0].price) == WithPrice(b, b[0].price)
    ensures a[0] == b[0]
  {
    var pa, pb := a[0].price, b[0].price;
    assert WithPrice(a, pa) == [a[0]] + WithPrice(a[1..], pa);
    assert WithPrice(b, pb) == [b[0]] + WithPrice(b[1..], pb);
    assert a[0] in WithPrice(b, pa);
    assert b[0] in WithPrice(a, pb);
    WithPriceMembers(b, pa);
    WithPriceMembers(a, pb);
    HeadFirst(b, a[0], descending);
    HeadFirst(a, b[0], descending);
    assert pa == pb;
    assert WithPrice(a, pa)[0] == a[0] && WithPrice(b, pa)[0] == b[0];
  }

  /**
   * Two sequences sorted in the same direction whose runs of equal price agree
   * are the same sequence.
   */
  lemma {:induction false} SortedRunsDetermine(a: seq<Product>, b: seq<Product>, descending: bool)
    requires SortedBy(a, descending) && SortedBy(b, descending)
    requires forall v :: WithPrice(a, v) == WithPrice(b, v)
    ensures a == b
    decreases |a|
  {
    if a != [] && b == [] {
      HeadRunNonEmpty(a);
      assert false;
    } else if a == [] && b != [] {
      HeadRunNonEmpty(b);
      assert false;
    } else if a != [] {
      assert WithPrice(a, a[0].price) == WithPrice(b, a[0].price);
      assert WithPrice(a, b[0].price) == WithPrice(b, b[0].price);
      SameHead(a, b, descending);
      forall v ensures WithPrice(a[1..], v) == WithPrice(b[1..], v) {
        var head := if a[0].price == v then [a[0]] else [];
        assert WithPrice(a[1..], v) == WithPrice(a, v)[|head|..];
        assert WithPrice(b[1..], v) == WithPrice(b, v)[|head|..];
      }
      SortedRunsDetermine(a[1..], b[1..], descending);
    }
  }

  /**
   * Any stable sort by price of `s` equals `SortByPrice(s)`: the result does
   * not depend on which stable sorting algorithm produces it.
   */
  lemma StableSortIsUnique(s: seq<Product>, r: seq<Product>, descending: bool)
    requires SortedBy(r, descending)
    requires forall v :: WithPrice(r, v) == WithPrice(s, v)
    ensures r == SortByPrice(s, descending)
  {
    SortedRunsDetermine(r, SortByPrice(s, descending), descending);
  }

  // ---------------------------------------------------------------------------
  // The shop page's own table

  lemma AllNewestExample()
    ensures Query(AllProducts, AllSelector, Newest) == AllProducts
  {
  }

  lemma MenLowToHighExample()
    ensures Query(AllProducts, "Men", LowToHigh) == [AllProducts[6], AllProducts[4], AllProducts[0], AllProducts[3]]
  {
    var p := AllProducts;
    assert p[7..] == [p[7]];
    assert FilterBy(p[7..], "Men") == [];
    assert p[6..] == [p[6]] + p[7..];
    assert FilterBy(p[6..], "Men") == [p[6]];
    assert p[5..] == [p[5]] + p[6..];
    assert FilterBy(p[5..], "Men") == [p[6]];
    assert p[4..] == [p[4]] + p[5..];
    assert FilterBy(p[4..], "Men") == [p[4], p[6]];
    assert p[3..] == [p[3]] + p[4..];
    assert FilterBy(p[3..], "Men") == [p[3], p[4], p[6]];
    assert p[2..] == [p[2]] + p[3..];
    assert FilterBy(p[2..], "Men") == [p[3], p[4], p[6]];
    assert p[1..] == [p[1]] + p[2..];
    assert FilterBy(p[1..], "Men") == [p[3], p[4], p[6]];
    assert p[0..] == [p[0]] + p[1..];
    assert FilterBy(p[0..], "Men") == [p[0], p[3], p[4], p[6]];
    MenSortedExample();
  }

  lemma MenSortedExample()
    ensures SortByPrice([AllProducts[0], AllProducts[3], AllProducts[4], AllProducts[6]], false)
         == [AllProducts[6], AllProducts[4], AllProducts[0], AllProducts[3]]
  {
    var p := AllProducts;
    var men := [p[0], p[3], p[4], p[6]];
    assert men[1..] == [p[3], p[4], p[6]] && men[2..] == [p[4], p[6]] && men[3..] == [p[6]];
    assert Insert(p[6], [], false) == [p[6]];
    assert Insert(p[4], [p[6]], false) == [p[6], p[4]];
    assert Insert(p[3], [p[6], p[4]], false) == [p[6], p[4], p[3]] by {
      assert [p[6], p[4]][1..] == [p[4]];
      assert Insert(p[3], [p[4]], false) == [p[4], p[3]];
    }
    assert Insert(p[0], [p[6], p[4], p[3]], false) == [p[6], p[4], p[0], p[3]] by {
      assert [p[6], p[4], p[3]][1..] == [p[4], p[3]];
      assert [p[4], p[3]][1..] == [p[3]];
      assert Insert(p[0], [p[3]], false) == [p[0], p[3]];
      assert Insert(p[0], [p[4], p[3]], false) == [p[4], p[0], p[3]];
    }
    assert SortByPrice([p[6]], false) == [p[6]];
    assert SortByPrice([p[4], p[6]], false) == [p[6], p[4]];
    assert SortByPrice([p[3], p[4], p[6]], false) == [p[6], p[4], p[3]];
  }

  lemma SaleExample()
    ensures Query(AllProducts, "Sale", Newest) == [AllProducts[3], AllProducts[6]]
  {
    var p := AllProducts;
    assert p[7..] == [p[7]];
    assert FilterBy(p[7..], "Sale") == [];
    assert p[6..] == [p[6]] + p[7..];
    assert FilterBy(p[6..], "Sale") == [p[6]];
    assert p[5..] == [p[5]] + p[6..];
    assert FilterBy(p[5..], "Sale") == [p[6]];
    assert p[4..] == [p[4]] + p[5..];
    assert FilterBy(p[4..], "Sale") == [p[6]];
    assert p[3..] == [p[3]] + p[4..];
    assert FilterBy(p[3..], "Sale") == [p[3], p[6]];
    assert p[2..] == [p[2]] + p[3..];
    assert FilterBy(p[2..], "Sale") == [p[3], p[6]];
    assert p[1..] == [p[1]] + p[2..];
    assert FilterBy(p[1..], "Sale") == [p[3], p[6]];
    assert p[0..] == [p[0]] + p[1..];
    assert FilterBy(p[0..], "Sale") == [p[3], p[6]];
  }

  lemma NewArrivalsExample()
    ensures Query(AllProducts, "New Arrivals", Newest) == [AllProducts[5]]
  {
    var p := AllProducts;
    assert p[7..] == [p[7]];
    assert FilterBy(p[7..], "New Arrivals") == [];
    assert p[6..] == [p[6]] + p[7..];
    assert FilterBy(p[6..], "New Arrivals") == [];
    assert p[5..] == [p[5]] + p[6..];
    assert FilterBy(p[5..], "New Arrivals") == [p[5]];
    assert p[4..] == [p[4]] + p[5..];
    assert FilterBy(p[4..], "New Arrivals") == [p[5]];
    assert p[3..] == [p[3]] + p[4..];
    assert FilterBy(p[3..], "New Arrivals") == [p[5]];
    assert p[2..] == [p[2]] + p[3..];
    assert FilterBy(p[2..], "New Arrivals") == [p[5]];
    assert p[1..] == [p[1]] + p[2..];
    assert FilterBy(p[1..], "New Arrivals") == [p[5]];
    assert p[0..] == [p[0]] + p[1..];
    assert FilterBy(p[0..], "New Arrivals") == [p[5]];
  }
}
