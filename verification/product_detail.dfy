/**
 * The product detail page: the product table it looks the route id up in,
 * the add-to-cart handler with its "a size must be selected" guard, the
 * quantity stepper, and the "related pieces" list.
 */
module ProductDetail {

  import opened Options
  import CartStore

  /** A product as the detail page knows it (its long description texts are not modelled). */
  datatype ProductInfo = ProductInfo(id: int, name: string, price: int, category: string,
                                     images: seq<string>, sizes: seq<string>, tag: Option<string>)

  /** The page's product table, keyed by the id as it appears in the route. */
  const Products: map<string, ProductInfo> := map[
    "1" := ProductInfo(1, "Oversized Zip Hoodie", 285, "Men",
                       ["product-1.jpg", "product-2.jpg", "product-3.jpg"],
                       ["XS", "S", "M", "L", "XL", "XXL"], Some("New")),
    "2" := ProductInfo(2, "Structured Blazer", 420, "Women",
                       ["product-2.jpg", "product-1.jpg", "product-4.jpg"],
                       ["XS", "S", "M", "L", "XL"], Some("New")),
    "3" := ProductInfo(3, "Wide-Leg Trousers", 195, "Women",
                       ["product-3.jpg", "product-4.jpg", "product-1.jpg"],
                       ["XS", "S", "M", "L", "XL"], None),
    "4" := ProductInfo(4, "Cashmere Knit", 310, "Men",
                       ["product-4.jpg", "product-3.jpg", "product-2.jpg"],
                       ["XS", "S", "M", "L", "XL", "XXL"], Some("Sale"))
  ]

  /** The route id used when the route carries none, and the product shown for an unknown id. */
  const DefaultId: string := "1"

  const RelatedIds: seq<string> := ["1", "2", "3", "4"]

  /** How many related pieces are shown at most. */
  const RelatedCount: nat := 3

  /** Every table entry has an image to put in the cart and sizes to choose from. */
  ghost predicate WellFormed(p: ProductInfo) {
    p.images != [] && p.sizes != []
  }

  lemma TableWellFormed()
    ensures forall key :: key in Products ==> WellFormed(Products[key])
    ensures DefaultId in Products
  {
  }

  /** The id the page works with: the route's own id, or "1" when the route has none. */
  function RouteId(param: Option<string>): (id: string)
    ensures param.Some? ==> id == param.value
    ensures param.None? ==> id == DefaultId && id in Products
  {
    param.GetOr(DefaultId)
  }

  /** The product the page displays: the table entry for a known id, product "1" for any other. */
  function Lookup(id: string): (p: ProductInfo)
    ensures p in Products.Values && WellFormed(p)
    ensures id in Products ==> p == Products[id]
    ensures id !in Products ==> p == Products[DefaultId] && p.id == 1
  {
    TableWellFormed();
    if id in Products then Products[id] else Products[DefaultId]
  }

  /** The key under which the displayed product sits in the table. */
  function DisplayedKey(id: string): (key: string)
    ensures key in Products && Products[key] == Lookup(id)
  {
    if id in Products then id else DefaultId
  }

  /** The item `handleAddToCart` passes to `addItem`: the product's fields, the size, the first image. */
  function CartPayload(p: ProductInfo, size: string): (item: CartStore.NewItem)
    requires p.images != []
    ensures item.id == p.id && item.name == p.name && item.price == p.price
    ensures item.size == size && item.image == p.images[0] && item.category == p.category
  {
    CartStore.NewItem(p.id, p.name, p.price, size, p.images[0], p.category)
  }

  /** The ids of `ids` other than `id`, in their order. */
  function Without(ids: seq<string>, id: string): (r: seq<string>)
    ensures |r| <= |ids|
  {
    if ids == [] then []
    else (if ids[0] != id then [ids[0]] else []) + Without(ids[1..], id)
  }

  lemma {:induction false} WithoutMembers(ids: seq<string>, id: string)
    ensures forall x :: x in Without(ids, id) <==> x in ids && x != id
  {
    if ids != [] {
      WithoutMembers(ids[1..], id);
      assert ids == [ids[0]] + ids[1..];
    }
  }

  /** The first `n` elements of `xs`, or all of them when there are fewer. */
  function Slice<T>(xs: seq<T>, n: nat): (r: seq<T>)
    ensures r <= xs
    ensures |r| == if |xs| < n then |xs| else n
  {
    if |xs| <= n then xs else xs[..n]
  }

  /**
   * The related list as the page builds it: the related ids other than the
   * route id, at most three of them, in order. The ids are compared with the
   * route id, not with the id of the product on display.
   */
  function RelatedAsWritten(id: string): (r: seq<string>)
    ensures |r| <= RelatedCount && id !in r
    ensures forall x :: x in r ==> x in RelatedIds && x in Products
  {
    var rest := Without(RelatedIds, id);
    WithoutMembers(RelatedIds, id);
    var r := Slice(rest, RelatedCount);
    assert forall i :: 0 <= i < |r| ==> r[i] == rest[i] && r[i] in rest;
    r
  }

  /** Two keys of the table never name the same product. */
  lemma TableIdsDistinct(a: string, b: string)
    requires a in Products && b in Products && a != b
    ensures Products[a].id != Products[b].id
  {
    assert Products.Keys == {"1", "2", "3", "4"};
  }

  /** The related list excluding the product actually on display. */
  function Related(id: string): (r: seq<string>)
    ensures |r| <= RelatedCount && id !in r
    ensures forall x :: x in r ==> x in Products && Products[x].id != Lookup(id).id
    ensures id in Products ==> r == RelatedAsWritten(id)
  {
    var key := DisplayedKey(id);
    var r := RelatedAsWritten(key);
    forall x | x in r
      ensures Products[x].id != Products[key].id
    {
      TableIdsDistinct(x, key);
    }
    r
  }

  /** For every route id the related list is the three other table entries, in table order. */
  lemma RelatedAsWrittenValues(id: string)
    ensures id == "1" ==> RelatedAsWritten(id) == ["2", "3", "4"]
    ensures id == "2" ==> RelatedAsWritten(id) == ["1", "3", "4"]
    ensures id == "3" ==> RelatedAsWritten(id) == ["1", "2", "4"]
    ensures id == "4" ==> RelatedAsWritten(id) == ["1", "2", "3"]
    ensures id !in RelatedIds ==> RelatedAsWritten(id) == ["1", "2", "3"]
  {
    var ids := RelatedIds;
    assert ids[1..] == ["2", "3", "4"] && ids[2..] == ["3", "4"] && ids[3..] == ["4"] && ids[4..] == [];
    if id !in RelatedIds {
      assert ids[0] != id && ids[1] != id && ids[2] != id && ids[3] != id;
      assert Without(ids[3..], id) == ["4"];
      assert Without(ids[2..], id) == ["3", "4"];
      assert Without(ids[1..], id) == ["2", "3", "4"];
      assert Without(ids, id) == ["1", "2", "3", "4"];
    }
  }

  /**
   * An id the table does not know, such as "5" (products 5 to 8 of the shop
   * link to their own detail routes), shows product "1", yet the related list,
   * filtered by the route id, still offers "1": the product is shown as
   * related to itself.
   */
  lemma RelatedAsWrittenShowsDisplayed()
    ensures Lookup("5") == Products["1"]
    ensures "1" in RelatedAsWritten("5")
    ensures "1" !in Related("5")
  {
    RelatedAsWrittenValues("5");
  }

  /** The detail page's own state, for one visit to one route. */
  class ProductPage {
    const id: string
    const product: ProductInfo
    const cart: CartStore.Cart
    var selectedSize: string
    var quantity: int
    var sizeError: bool
    var added: bool

    ghost predicate Valid()
      reads this
    {
      quantity >= 1 && WellFormed(product)
    }

    constructor (param: Option<string>, cart: CartStore.Cart)
      ensures Valid()
      ensures id == RouteId(param) && product == Lookup(id) && this.cart == cart
      ensures selectedSize == "" && quantity == 1 && !sizeError && !added
    {
      id := RouteId(param);
      product := Lookup(RouteId(param));
      this.cart := cart;
      selectedSize := "";
      quantity := 1;
      sizeError := false;
      added := false;
    }

    /** A size button: choose the size and hide the "please select a size" message. */
    method SelectSize(size: string)
      modifies this
      ensures selectedSize == size && !sizeError
      ensures quantity == old(quantity) && added == old(added)
    {
      selectedSize := size;
      sizeError := false;
    }

    /** The minus button: one unit fewer, but never fewer than one. */
    method DecrementQuantity()
      requires Valid()
      modifies this
      ensures Valid()
      ensures old(quantity) > 1 ==> quantity == old(quantity) - 1
      ensures old(quantity) <= 1 ==> quantity == 1
      ensures selectedSize == old(selectedSize) && sizeError == old(sizeError) && added == old(added)
    {
      quantity := if quantity - 1 > 1 then quantity - 1 else 1;
    }

    /** The plus button. */
    method IncrementQuantity()
      requires Valid()
      modifies this
      ensures Valid() && quantity == old(quantity) + 1
      ensures selectedSize == old(selectedSize) && sizeError == old(sizeError) && added == old(added)
    {
      quantity := quantity + 1;
    }

    /**
     * The "Add to Cart" button. Without a size it only raises the size error;
     * with one it clears the error and adds one unit of the product in that
     * size to the cart, whatever the stepper shows.
     */
    method HandleAddToCart()
      requires Valid() && cart.Valid()
      modifies this, cart
      ensures Valid() && cart.Valid()
      ensures selectedSize == old(selectedSize) && quantity == old(quantity)
      ensures old(selectedSize) == "" ==>
                sizeError && added == old(added) &&
                cart.items == old(cart.items) && cart.isOpen == old(cart.isOpen)
      ensures old(selectedSize) != "" ==>
                !sizeError && added && cart.isOpen &&
                cart.items == CartStore.AddLine(old(cart.items), CartPayload(product, selectedSize))
      ensures old(selectedSize) != "" ==>
                CartStore.TotalItemsOf(cart.items) == old(CartStore.TotalItemsOf(cart.items)) + 1
    {
      if selectedSize == "" {
        sizeError := true;
        return;
      }
      sizeError := false;
      cart.AddItem(CartPayload(product, selectedSize));
      added := true;
    }
  }
}
