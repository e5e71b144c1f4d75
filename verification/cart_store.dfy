/**
 * The cart store of the storefront: an ordered list of cart lines, keyed by the
 * pair (product id, size), and a flag saying whether the cart drawer is open.
 *
 * The list updaters are pure `previous lines -> next lines` functions, as the
 * store's setters are; the `Cart` class holds the two pieces of session state
 * and applies them. `Quantities` is the keyed-map view of the lines against
 * which every updater is specified, and `ValidLines` is the store's invariant: at
 * most one line per key, every quantity at least 1.
 */
module CartStore {

  import opened Options

  /** The identity of a cart line: product id and size label. */
  datatype Key = Key(id: int, size: string)

  /** One cart line, with the display fields captured when it was added. */
  datatype CartItem = CartItem(id: int, name: string, price: int, size: string,
                               quantity: int, image: string, category: string)

  /** What a caller passes to `addItem`: a cart line without its quantity. */
  datatype NewItem = NewItem(id: int, name: string, price: int, size: string,
                             image: string, category: string)

  function KeyOf(line: CartItem): (k: Key) {
    Key(line.id, line.size)
  }

  /** The line a new item becomes when its key is not yet in the cart. */
  function FirstLine(item: NewItem): (line: CartItem)
    ensures KeyOf(line) == Key(item.id, item.size) && line.quantity == 1
    ensures line.name == item.name && line.price == item.price
    ensures line.image == item.image && line.category == item.category
  {
    CartItem(item.id, item.name, item.price, item.size, 1, item.image, item.category)
  }

  /** The set of keys that have a line. */
  ghost function Keys(s: seq<CartItem>): (ks: set<Key>) {
    if s == [] then {} else {KeyOf(s[0])} + Keys(s[1..])
  }

  lemma {:induction false} KeysAt(s: seq<CartItem>, k: Key)
    ensures k in Keys(s) <==> exists i :: 0 <= i < |s| && KeyOf(s[i]) == k
  {
    if s != [] {
      KeysAt(s[1..], k);
      if k in Keys(s[1..]) {
        var i :| 0 <= i < |s[1..]| && KeyOf(s[1..][i]) == k;
        assert KeyOf(s[i + 1]) == k;
      }
      if exists i :: 0 <= i < |s| && KeyOf(s[i]) == k {
        var i :| 0 <= i < |s| && KeyOf(s[i]) == k;
        if i > 0 { assert KeyOf(s[1..][i - 1]) == k; }
      }
    }
  }

  /** The store invariant: keys are unique and every quantity is positive. */
  ghost predicate ValidLines(s: seq<CartItem>) {
    && (forall i, j :: 0 <= i < j < |s| ==> KeyOf(s[i]) != KeyOf(s[j]))
    && (forall i :: 0 <= i < |s| ==> s[i].quantity >= 1)
  }

  /**
   * The keyed view of the lines: each key mapped to the quantity of the first
   * line with that key (the line `Array.prototype.find` would return).
   */
  ghost function Quantities(s: seq<CartItem>): (m: map<Key, int>)
    ensures m.Keys == Keys(s)
  {
    if s == [] then map[]
    else
      Quantities(s[1..])[KeyOf(s[0]) := s[0].quantity]
  }

  /** Under the invariant the first line's key does not occur again. */
  lemma ValidCons(s: seq<CartItem>)
    requires s != [] && ValidLines(s)
    ensures KeyOf(s[0]) !in Keys(s[1..]) && ValidLines(s[1..])
  {
    KeysAt(s[1..], KeyOf(s[0]));
    forall i | 0 <= i < |s[1..]| ensures KeyOf(s[1..][i]) != KeyOf(s[0]) {
      assert s[1..][i] == s[i + 1];
    }
  }

  /** The quantity held for key `k`, 0 when there is no such line. */
  ghost function QuantityOf(s: seq<CartItem>, k: Key): (n: int) {
    var m := Quantities(s);
    if k in m then m[k] else 0
  }

  /** The first line carrying key `k`, if there is one (the lookup `addItem` starts with). */
  function Find(s: seq<CartItem>, k: Key): (r: Option<CartItem>)
    ensures r.Some? <==> k in Keys(s)
    ensures r.Some? ==> r.value in s && KeyOf(r.value) == k && r.value.quantity == Quantities(s)[k]
  {
    if s == [] then None
    else if KeyOf(s[0]) == k then Some(s[0])
    else Find(s[1..], k)
  }

  /** The lines with every line of key `k` holding one unit more, in the same order. */
  function Bump(s: seq<CartItem>, k: Key): (r: seq<CartItem>)
    ensures |r| == |s|
    ensures forall i :: 0 <= i < |s| ==> KeyOf(r[i]) == KeyOf(s[i])
    ensures forall i :: 0 <= i < |s| && KeyOf(s[i]) != k ==> r[i] == s[i]
    ensures forall i :: 0 <= i < |s| && KeyOf(s[i]) == k ==> r[i] == s[i].(quantity := s[i].quantity + 1)
  {
    if s == [] then []
    else
      var head := if KeyOf(s[0]) == k then s[0].(quantity := s[0].quantity + 1) else s[0];
      [head] + Bump(s[1..], k)
  }

  /** The lines with every line of key `k` holding exactly `q` units, in the same order. */
  function SetQuantity(s: seq<CartItem>, k: Key, q: int): (r: seq<CartItem>)
    ensures |r| == |s|
    ensures forall i :: 0 <= i < |s| ==> KeyOf(r[i]) == KeyOf(s[i])
    ensures forall i :: 0 <= i < |s| && KeyOf(s[i]) != k ==> r[i] == s[i]
    ensures forall i :: 0 <= i < |s| && KeyOf(s[i]) == k ==> r[i] == s[i].(quantity := q)
  {
    if s == [] then []
    else
      var head := if KeyOf(s[0]) == k then s[0].(quantity := q) else s[0];
      [head] + SetQuantity(s[1..], k, q)
  }

  /** The lines without those of key (`id`, `size`), the others kept in their order. */
  function RemoveLine(s: seq<CartItem>, id: int, size: string): (r: seq<CartItem>)
    ensures |r| <= |s|
    ensures forall x :: x in r <==> x in s && KeyOf(x) != Key(id, size)
    ensures Key(id, size) !in Keys(s) ==> r == s
  {
    if s == [] then []
    else
      var rest := RemoveLine(s[1..], id, size);
      if KeyOf(s[0]) == Key(id, size) then rest else [s[0]] + rest
  }

  /** The `addItem` updater: bump an existing line, or append a new one with quantity 1. */
  function AddLine(s: seq<CartItem>, item: NewItem): (r: seq<CartItem>)
    ensures Key(item.id, item.size) !in Keys(s) ==> r == s + [FirstLine(item)]
    ensures Key(item.id, item.size) in Keys(s) ==> r == Bump(s, Key(item.id, item.size))
  {
    var k := Key(item.id, item.size);
    if Find(s, k).Some? then Bump(s, k) else s + [FirstLine(item)]
  }

  /** The `updateQuantity` updater: remove the line when `q <= 0`, else set its quantity to `q`. */
  function UpdateLine(s: seq<CartItem>, id: int, size: string, q: int): (r: seq<CartItem>)
    ensures q <= 0 ==> r == RemoveLine(s, id, size)
    ensures q > 0 ==> |r| == |s|
    ensures q > 0 ==> forall i :: 0 <= i < |s| ==>
      r[i] == if KeyOf(s[i]) == Key(id, size) then s[i].(quantity := q) else s[i]
  {
    if q <= 0 then RemoveLine(s, id, size) else SetQuantity(s, Key(id, size), q)
  }

  /** The number of units in the cart: the sum of the lines' quantities. */
  function TotalItemsOf(s: seq<CartItem>): (n: int)
    ensures s == [] ==> n == 0
  {
    if s == [] then 0 else s[0].quantity + TotalItemsOf(s[1..])
  }

  /** The amount due: the sum over the lines of unit price times quantity. */
  function TotalPriceOf(s: seq<CartItem>): (n: int)
    ensures s == [] ==> n == 0
  {
    if s == [] then 0 else s[0].price * s[0].quantity + TotalPriceOf(s[1..])
  }

  // ---------------------------------------------------------------------------
  // The keyed view under each updater

  lemma {:induction false} QuantitiesOfBump(s: seq<CartItem>, k: Key)
    ensures Quantities(Bump(s, k)) ==
            if k in Quantities(s) then Quantities(s)[k := Quantities(s)[k] + 1] else Quantities(s)
  {
    if s != [] {
      QuantitiesOfBump(s[1..], k);
      assert Bump(s, k)[1..] == Bump(s[1..], k);
    }
  }

  lemma {:induction false} QuantitiesOfSetQuantity(s: seq<CartItem>, k: Key, q: int)
    ensures Quantities(SetQuantity(s, k, q)) ==
            if k in Quantities(s) then Quantities(s)[k := q] else Quantities(s)
  {
    if s != [] {
      QuantitiesOfSetQuantity(s[1..], k, q);
      assert SetQuantity(s, k, q)[1..] == SetQuantity(s[1..], k, q);
    }
  }

  lemma {:induction false} QuantitiesOfRemoveLine(s: seq<CartItem>, id: int, size: string)
    ensures Quantities(RemoveLine(s, id, size)) == Quantities(s) - {Key(id, size)}
  {
    if s != [] {
      QuantitiesOfRemoveLine(s[1..], id, size);
      if KeyOf(s[0]) != Key(id, size) {
        assert RemoveLine(s, id, size)[1..] == RemoveLine(s[1..], id, size);
      }
    }
  }

  lemma {:induction false} QuantitiesOfAppend(s: seq<CartItem>, line: CartItem)
    requires KeyOf(line) !in Keys(s)
    ensures Quantities(s + [line]) == Quantities(s)[KeyOf(line) := line.quantity]
  {
    if s != [] {
      assert (s + [line])[1..] == s[1..] + [line];
      QuantitiesOfAppend(s[1..], line);
    }
  }

  /**
   * `addItem` raises the quantity held for the item's key by exactly one (from
   * 0 to 1 when the key is new) and leaves every other key's quantity alone.
   */
  lemma AddLineQuantities(s: seq<CartItem>, item: NewItem)
    ensures Quantities(AddLine(s, item)) ==
            Quantities(s)[Key(item.id, item.size) := QuantityOf(s, Key(item.id, item.size)) + 1]
  {
    var k := Key(item.id, item.size);
    if k in Keys(s) {
      QuantitiesOfBump(s, k);
    } else {
      QuantitiesOfAppend(s, FirstLine(item));
    }
  }

  /** `addItem` on a present key keeps the order of the lines and touches only that line. */
  lemma AddLinePresent(s: seq<CartItem>, item: NewItem, i: int)
    requires 0 <= i < |s| && KeyOf(s[i]) == Key(item.id, item.size)
    ensures |AddLine(s, item)| == |s|
    ensures AddLine(s, item)[i] == s[i].(quantity := s[i].quantity + 1)
    ensures forall j :: 0 <= j < |s| && j != i && KeyOf(s[j]) != KeyOf(s[i]) ==> AddLine(s, item)[j] == s[j]
  {
    KeysAt(s, KeyOf(s[i]));
  }

  /** `updateQuantity` with a positive quantity sets the key's quantity to exactly `q`; otherwise it removes the key. */
  lemma UpdateLineQuantities(s: seq<CartItem>, id: int, size: string, q: int)
    ensures q <= 0 ==> Quantities(UpdateLine(s, id, size, q)) == Quantities(s) - {Key(id, size)}
    ensures q > 0 && Key(id, size) in Keys(s) ==>
            Quantities(UpdateLine(s, id, size, q)) == Quantities(s)[Key(id, size) := q]
    ensures Key(id, size) !in Keys(s) ==> UpdateLine(s, id, size, q) == s
  {
    var k := Key(id, size);
    if q <= 0 {
      QuantitiesOfRemoveLine(s, id, size);
    } else {
      QuantitiesOfSetQuantity(s, k, q);
    }
  }

  // ---------------------------------------------------------------------------
  // The store invariant is kept by every updater

  lemma EmptyValid()
    ensures ValidLines([]) && Quantities([]) == map[] && TotalItemsOf([]) == 0 && TotalPriceOf([]) == 0
  {
  }

  lemma AddLineValid(s: seq<CartItem>, item: NewItem)
    requires ValidLines(s)
    ensures ValidLines(AddLine(s, item))
  {
    var k := Key(item.id, item.size);
    if k !in Keys(s) {
      KeysAt(s, k);
    }
  }

  lemma RemoveLineValid(s: seq<CartItem>, id: int, size: string)
    requires ValidLines(s)
    ensures ValidLines(RemoveLine(s, id, size))
  {
    if s != [] {
      RemoveLineValid(s[1..], id, size);
      var rest := RemoveLine(s[1..], id, size);
      if KeyOf(s[0]) != Key(id, size) {
        var r := [s[0]] + rest;
        forall j | 0 < j < |r| ensures KeyOf(r[0]) != KeyOf(r[j]) {
          assert r[j] == rest[j - 1];
          assert rest[j - 1] in s[1..];
        }
      }
    }
  }

  lemma UpdateLineValid(s: seq<CartItem>, id: int, size: string, q: int)
    requires ValidLines(s)
    ensures ValidLines(UpdateLine(s, id, size, q))
  {
    if q <= 0 {
      RemoveLineValid(s, id, size);
    }
  }

  // ---------------------------------------------------------------------------
  // Derived totals

  /** Every line holds at least one unit, so there are at least as many units as lines. */
  lemma {:induction false} TotalItemsAtLeastLines(s: seq<CartItem>)
    requires ValidLines(s)
    ensures TotalItemsOf(s) >= |s|
    ensures TotalItemsOf(s) == 0 <==> s == []
  {
    if s != [] {
      TotalItemsAtLeastLines(s[1..]);
    }
  }

  lemma {:induction false} TotalPriceNonNegative(s: seq<CartItem>)
    requires ValidLines(s)
    ensures (forall i :: 0 <= i < |s| ==> s[i].price >= 0) ==> TotalPriceOf(s) >= 0
  {
    if s != [] {
      ValidCons(s);
      TotalPriceNonNegative(s[1..]);
    }
  }

  lemma {:induction false} TotalsOfAppend(s: seq<CartItem>, line: CartItem)
    ensures TotalItemsOf(s + [line]) == TotalItemsOf(s) + line.quantity
    ensures TotalPriceOf(s + [line]) == TotalPriceOf(s) + line.price * line.quantity
  {
    if s != [] {
      assert (s + [line])[1..] == s[1..] + [line];
      TotalsOfAppend(s[1..], line);
    }
  }

  lemma {:induction false} TotalsOfBumpOnce(s: seq<CartItem>, k: Key)
    requires ValidLines(s) && k in Keys(s)
    ensures TotalItemsOf(Bump(s, k)) == TotalItemsOf(s) + 1
    ensures TotalPriceOf(Bump(s, k)) == TotalPriceOf(s) + Find(s, k).value.price
  {
    assert Bump(s, k)[1..] == Bump(s[1..], k);
    ValidCons(s);
    if KeyOf(s[0]) == k {
      assert Bump(s[1..], k) == s[1..];
    } else {
      TotalsOfBumpOnce(s[1..], k);
    }
  }

  /**
   * Each `addItem` adds exactly one unit, and the price of one unit of the
   * line it lands on: the existing line's captured price, or the item's own.
   */
  lemma AddLineTotals(s: seq<CartItem>, item: NewItem)
    requires ValidLines(s)
    ensures TotalItemsOf(AddLine(s, item)) == TotalItemsOf(s) + 1
    ensures TotalPriceOf(AddLine(s, item)) ==
            TotalPriceOf(s) + match Find(s, Key(item.id, item.size)) {
                                case Some(line) => line.price
                                case None => item.price
                              }
  {
    var k := Key(item.id, item.size);
    if k in Keys(s) {
      TotalsOfBumpOnce(s, k);
    } else {
      TotalsOfAppend(s, FirstLine(item));
    }
  }

  /** Setting a present key's quantity to `q` replaces that line's units by `q`. */
  lemma {:induction false} SetQuantityItems(s: seq<CartItem>, k: Key, q: int)
    requires ValidLines(s) && k in Keys(s)
    ensures TotalItemsOf(SetQuantity(s, k, q)) == TotalItemsOf(s) - Find(s, k).value.quantity + q
  {
    assert SetQuantity(s, k, q)[1..] == SetQuantity(s[1..], k, q);
    ValidCons(s);
    if KeyOf(s[0]) == k {
      assert SetQuantity(s[1..], k, q) == s[1..];
    } else {
      SetQuantityItems(s[1..], k, q);
    }
  }

  /** Setting a present key's quantity to `q` replaces that line's amount by its price times `q`. */
  lemma {:induction false} SetQuantityPrice(s: seq<CartItem>, k: Key, q: int)
    requires ValidLines(s) && k in Keys(s)
    ensures TotalPriceOf(SetQuantity(s, k, q)) ==
            TotalPriceOf(s) - Find(s, k).value.price * Find(s, k).value.quantity + Find(s, k).value.price * q
  {
    assert SetQuantity(s, k, q)[1..] == SetQuantity(s[1..], k, q);
    ValidCons(s);
    if KeyOf(s[0]) == k {
      assert SetQuantity(s[1..], k, q) == s[1..];
    } else {
      SetQuantityPrice(s[1..], k, q);
    }
  }

  /**
   * The totals after `updateQuantity` with a positive quantity on a present
   * key, as the drawer's plus and minus buttons call it: the line's units and
   * amount are replaced by `q` units at its captured price.
   */
  lemma UpdateLineTotals(s: seq<CartItem>, id: int, size: string, q: int)
    requires ValidLines(s) && q > 0 && Key(id, size) in Keys(s)
    ensures TotalItemsOf(UpdateLine(s, id, size, q)) ==
            TotalItemsOf(s) - QuantityOf(s, Key(id, size)) + q
    ensures TotalPriceOf(UpdateLine(s, id, size, q)) ==
            TotalPriceOf(s) - Find(s, Key(id, size)).value.price * QuantityOf(s, Key(id, size)) +
            Find(s, Key(id, size)).value.price * q
  {
    var k := Key(id, size);
    assert UpdateLine(s, id, size, q) == SetQuantity(s, k, q);
    assert QuantityOf(s, k) == Find(s, k).value.quantity;
    SetQuantityItems(s, k, q);
    SetQuantityPrice(s, k, q);
  }

  /** Removing a key takes away exactly the units and the amount of its line. */
  lemma {:induction false} RemoveLineTotals(s: seq<CartItem>, id: int, size: string)
    requires ValidLines(s)
    ensures TotalItemsOf(RemoveLine(s, id, size)) == TotalItemsOf(s) - QuantityOf(s, Key(id, size))
    ensures TotalPriceOf(RemoveLine(s, id, size)) ==
            TotalPriceOf(s) - match Find(s, Key(id, size)) {
                                case Some(line) => line.price * line.quantity
                                case None => 0
                              }
  {
    if s != [] {
      var k := Key(id, size);
      ValidCons(s);
      if KeyOf(s[0]) != k {
        RemoveLineTotals(s[1..], id, size);
        assert RemoveLine(s, id, size)[1..] == RemoveLine(s[1..], id, size);
      }
    }
  }

  // ---------------------------------------------------------------------------
  // Sequences of calls

  /** Replays `addItem` for each of `adds`, first to last. */
  ghost function AddAll(s: seq<CartItem>, adds: seq<NewItem>): (r: seq<CartItem>)
    decreases |adds|
  {
    if adds == [] then s else AddAll(AddLine(s, adds[0]), adds[1..])
  }

  /** How many of `adds` carry key `k`. */
  function CountKey(adds: seq<NewItem>, k: Key): (n: nat) {
    if adds == [] then 0
    else (if Key(adds[0].id, adds[0].size) == k then 1 else 0) + CountKey(adds[1..], k)
  }

  /**
   * After any sequence of `addItem` calls the cart still satisfies the
   * invariant, every key's quantity has grown by the number of calls made with
   * that key, and the number of units by the number of calls.
   */
  lemma {:induction false} AddAllCounts(s: seq<CartItem>, adds: seq<NewItem>, k: Key)
    requires ValidLines(s)
    decreases |adds|
    ensures ValidLines(AddAll(s, adds))
    ensures QuantityOf(AddAll(s, adds), k) == QuantityOf(s, k) + CountKey(adds, k)
    ensures TotalItemsOf(AddAll(s, adds)) == TotalItemsOf(s) + |adds|
  {
    if adds != [] {
      var next := AddLine(s, adds[0]);
      AddLineQuantities(s, adds[0]);
      AddLineValid(s, adds[0]);
      AddLineTotals(s, adds[0]);
      AddAllCounts(next, adds[1..], k);
    }
  }

  /** Starting from the empty cart, a key's quantity is the number of times it was added. */
  lemma AddAllFromEmpty(adds: seq<NewItem>, k: Key)
    ensures ValidLines(AddAll([], adds))
    ensures QuantityOf(AddAll([], adds), k) == CountKey(adds, k)
    ensures TotalItemsOf(AddAll([], adds)) == |adds|
  {
    AddAllCounts([], adds, k);
  }

  /**
   * Adding product 3 in size M twice and in size L once gives two lines, M
   * with two units first; setting M's quantity to 0 then leaves only L.
   */
  lemma SameKeyTwiceScenario()
    ensures var m := NewItem(3, "Wide-Leg Trousers", 195, "M", "product-3.jpg", "Women");
            var l := m.(size := "L");
            var s := AddLine(AddLine(AddLine([], m), m), l);
            && s == [FirstLine(m).(quantity := 2), FirstLine(l)]
            && TotalItemsOf(s) == 3
            && TotalPriceOf(s) == 585
            && UpdateLine(s, 3, "M", 0) == [FirstLine(l)]
  {
    var m := NewItem(3, "Wide-Leg Trousers", 195, "M", "product-3.jpg", "Women");
    var l := m.(size := "L");
    var s1 := AddLine([], m);
    assert s1 == [FirstLine(m)];
    var s2 := AddLine(s1, m);
    assert Keys(s1) == {Key(3, "M")};
    assert s2 == [FirstLine(m).(quantity := 2)];
    var s3 := AddLine(s2, l);
    assert Keys(s2) == {Key(3, "M")};
    assert s3 == [FirstLine(m).(quantity := 2), FirstLine(l)];
    assert s3[1..] == [FirstLine(l)] && s3[1..][1..] == [];
    assert TotalItemsOf(s3[1..]) == 1 && TotalPriceOf(s3[1..]) == 195;
  }

  /**
   * The cart drawer's minus button calls `updateQuantity` with the line's
   * quantity less one; on a line holding one unit that removes the line.
   */
  lemma DrawerDecrementAtOne(s: seq<CartItem>, i: int)
    requires ValidLines(s) && 0 <= i < |s| && s[i].quantity == 1
    ensures KeyOf(s[i]) !in Keys(UpdateLine(s, s[i].id, s[i].size, s[i].quantity - 1))
    ensures |UpdateLine(s, s[i].id, s[i].size, s[i].quantity - 1)| == |s| - 1
  {
    var k := KeyOf(s[i]);
    var r := UpdateLine(s, s[i].id, s[i].size, 0);
    KeysAt(r, k);
    RemoveLineTotals(s, s[i].id, s[i].size);
    KeysAt(s, k);
    assert Find(s, k).Some?;
    RemoveLineCount(s, s[i].id, s[i].size);
  }

  /** Removing a key from two joined lists removes it from each part. */
  lemma {:induction false} RemoveLineAppend(a: seq<CartItem>, b: seq<CartItem>, id: int, size: string)
    ensures RemoveLine(a + b, id, size) == RemoveLine(a, id, size) + RemoveLine(b, id, size)
  {
    if a == [] {
      assert a + b == b;
    } else {
      assert (a + b)[1..] == a[1..] + b;
      RemoveLineAppend(a[1..], b, id, size);
    }
  }

  /** Removing the key of the one line between two parts that lack it leaves the two parts. */
  lemma RemoveLineBetween(pre: seq<CartItem>, line: CartItem, post: seq<CartItem>, id: int, size: string)
    requires KeyOf(line) == Key(id, size)
    requires Key(id, size) !in Keys(pre) && Key(id, size) !in Keys(post)
    ensures RemoveLine(pre + [line] + post, id, size) == pre + post
  {
    var mid := pre + [line];
    RemoveLineAppend(mid, post, id, size);
    RemoveLineAppend(pre, [line], id, size);
    assert [line][1..] == [];
    assert RemoveLine([line], id, size) == RemoveLine([], id, size);
    assert RemoveLine(mid, id, size) == pre;
  }

  /**
   * On a valid cart, removing the key of line `i` takes out exactly that line
   * and keeps all the others in their order.
   */
  lemma RemoveLineAt(s: seq<CartItem>, id: int, size: string, i: int)
    requires ValidLines(s) && 0 <= i < |s| && KeyOf(s[i]) == Key(id, size)
    ensures RemoveLine(s, id, size) == s[..i] + s[i + 1..]
  {
    var k := Key(id, size);
    var pre, post := s[..i], s[i + 1..];
    forall j | 0 <= j < |pre| ensures KeyOf(pre[j]) != k {
      assert pre[j] == s[j];
    }
    KeysAt(pre, k);
    forall j | 0 <= j < |post| ensures KeyOf(post[j]) != k {
      assert post[j] == s[i + 1 + j];
    }
    KeysAt(post, k);
    assert s == pre + [s[i]] + post;
    RemoveLineBetween(pre, s[i], post, id, size);
  }

  /** On a valid cart, removing a present key drops exactly one line. */
  lemma {:induction false} RemoveLineCount(s: seq<CartItem>, id: int, size: string)
    requires ValidLines(s)
    ensures |RemoveLine(s, id, size)| == if Key(id, size) in Keys(s) then |s| - 1 else |s|
  {
    if s != [] {
      ValidCons(s);
      RemoveLineCount(s[1..], id, size);
    }
  }

  // ---------------------------------------------------------------------------
  // The store: session state and the operations that update it

  class Cart {
    var items: seq<CartItem>
    var isOpen: bool

    ghost predicate Valid()
      reads this
    {
      ValidLines(items)
    }

    /** A new session: no lines, drawer closed. */
    constructor ()
      ensures Valid() && items == [] && !isOpen
    {
      items := [];
      isOpen := false;
    }

    method OpenCart()
      modifies this
      ensures isOpen && items == old(items)
    {
      isOpen := true;
    }

    method CloseCart()
      modifies this
      ensures !isOpen && items == old(items)
    {
      isOpen := false;
    }

    method AddItem(item: NewItem)
      requires Valid()
      modifies this
      ensures Valid() && isOpen
      ensures items == AddLine(old(items), item)
      ensures Quantities(items) ==
              old(Quantities(items))[Key(item.id, item.size) := old(QuantityOf(items, Key(item.id, item.size))) + 1]
      ensures TotalItemsOf(items) == old(TotalItemsOf(items)) + 1
    {
      AddLineValid(items, item);
      AddLineQuantities(items, item);
      AddLineTotals(items, item);
      items := AddLine(items, item);
      isOpen := true;
    }

    method RemoveItem(id: int, size: string)
      requires Valid()
      modifies this
      ensures Valid() && isOpen == old(isOpen)
      ensures items == RemoveLine(old(items), id, size)
      ensures Quantities(items) == old(Quantities(items)) - {Key(id, size)}
    {
      RemoveLineValid(items, id, size);
      QuantitiesOfRemoveLine(items, id, size);
      items := RemoveLine(items, id, size);
    }

    method UpdateQuantity(id: int, size: string, quantity: int)
      requires Valid()
      modifies this
      ensures Valid() && isOpen == old(isOpen)
      ensures items == UpdateLine(old(items), id, size, quantity)
      ensures quantity <= 0 ==> Quantities(items) == old(Quantities(items)) - {Key(id, size)}
      ensures quantity > 0 && Key(id, size) in old(Keys(items)) ==>
              Quantities(items) == old(Quantities(items))[Key(id, size) := quantity]
      ensures Key(id, size) !in old(Keys(items)) ==> items == old(items)
    {
      UpdateLineValid(items, id, size, quantity);
      UpdateLineQuantities(items, id, size, quantity);
      items := UpdateLine(items, id, size, quantity);
    }

    method ClearCart()
      modifies this
      ensures Valid() && items == [] && isOpen == old(isOpen)
    {
      items := [];
    }

    /** `totalItems`: the number of units in the cart, zero exactly when it is empty. */
    function TotalItems(): (n: int)
      reads this
      requires Valid()
      ensures n >= |items| && (n == 0 <==> items == [])
    {
      TotalItemsAtLeastLines(items);
      TotalItemsOf(items)
    }

    /** `totalPrice`: the sum of price times quantity over the lines. */
    function TotalPrice(): (n: int)
      reads this
      requires Valid()
      ensures (forall i :: 0 <= i < |items| ==> items[i].price >= 0) ==> n >= 0
    {
      TotalPriceNonNegative(items);
      TotalPriceOf(items)
    }
  }
}
