/**
 * The cart store: an ordered list of line items, at most one per product,
 * held in memory and mirrored under the key "cart" of the device's secure
 * storage. Each operation's new list is a pure function of the old list
 * (the `setItems(prev => ...)` callbacks); the class `CartStore` holds the
 * in-memory list and the secure storage and applies them.
 */
module CartContext {
  import opened Wrappers

  /** The secure-storage key under which the cart is persisted. */
  const CartKey: string := "cart"

  /**
   * One line of the cart. `maxQuantity` is the stock ceiling captured when
   * the line was added; the display fields ride along in `details`, which no
   * operation inspects or changes.
   */
  datatype CartItem = CartItem(productId: int, quantity: int, maxQuantity: int, details: ItemDetails)

  /** The line's display fields; `price` is kept opaque, since no totals are computed here. */
  datatype ItemDetails = ItemDetails(
    productName: string,
    description: string,
    price: int,
    categoryId: int,
    imagesUrl: seq<string>,
    totalFeedbacks: int,
    imageUrl: string)

  function Min(a: int, b: int): int { if a <= b then a else b }

  function Max(a: int, b: int): int { if a <= b then b else a }

  /** `Math.max(1, Math.min(n, max))`, the quantity that updateQuantity stores. */
  function Clamp(n: int, max: int): (r: int)
    ensures r >= 1
    ensures max >= 1 ==> r <= max
    ensures 1 <= n <= max ==> r == n
    ensures n < 1 ==> r == 1
    ensures max >= 1 && n > max ==> r == max
  {
    Max(1, Min(n, max))
  }

  // ---------------------------------------------------------------------
  // Cart invariants

  predicate HasProduct(items: seq<CartItem>, id: int) {
    exists i :: 0 <= i < |items| && items[i].productId == id
  }

  /** No product id occurs on two lines. */
  predicate UniqueIds(items: seq<CartItem>) {
    forall i, j :: 0 <= i < j < |items| ==> items[i].productId != items[j].productId
  }

  /** Every line holds between 1 and its own `maxQuantity` units. */
  predicate InBounds(items: seq<CartItem>) {
    forall i :: 0 <= i < |items| ==> 1 <= items[i].quantity <= items[i].maxQuantity
  }

  predicate WellFormed(items: seq<CartItem>) {
    UniqueIds(items) && InBounds(items)
  }

  /**
   * The cart seen as a dictionary from product id to its line: the reference
   * meaning of a cart whose ids are unique. On a duplicated id the first
   * line wins, as `find` does.
   */
  function View(items: seq<CartItem>): map<int, CartItem>
  {
    if items == [] then map[] else View(items[1..])[items[0].productId := items[0]]
  }

  // ---------------------------------------------------------------------
  // The three list transformations

  /** `prev.find(i => i.productId === id)`: the first line for `id`, if any. */
  function Find(items: seq<CartItem>, id: int): (r: Option<CartItem>)
    ensures r.Some? <==> HasProduct(items, id)
    ensures r.Some? ==> r.value in items && r.value.productId == id
  {
    if items == [] then None
    else if items[0].productId == id then Some(items[0])
    else
      var r := Find(items[1..], id);
      assert r.Some? ==> HasProduct(items, id) by {
        if r.Some? {
          var k :| 0 <= k < |items[1..]| && items[1..][k].productId == id;
          assert items[k + 1].productId == id;
        }
      }
      assert HasProduct(items, id) ==> HasProduct(items[1..], id) by {
        if HasProduct(items, id) {
          var k :| 0 <= k < |items| && items[k].productId == id;
          assert items[1..][k - 1].productId == id;
        }
      }
      r
  }

  /** A line raised by `item.quantity`, capped at the line's own `maxQuantity`. */
  function Bumped(line: CartItem, item: CartItem): CartItem {
    line.(quantity := Min(line.quantity + item.quantity, line.maxQuantity))
  }

  /** The merge branch of addToCart: every line for `item`'s product is bumped, every other line is kept in place. */
  function Merged(items: seq<CartItem>, item: CartItem): (r: seq<CartItem>)
    ensures |r| == |items|
    ensures forall i :: 0 <= i < |items| ==>
      if items[i].productId == item.productId then r[i] == Bumped(items[i], item) else r[i] == items[i]
  {
    if items == [] then []
    else
      var head := items[0];
      var line := if head.productId == item.productId then Bumped(head, item) else head;
      [line] + Merged(items[1..], item)
  }

  /** The new list of `addToCart(item)`: merge into the existing line, or append `item` unchanged. */
  function AddedTo(items: seq<CartItem>, item: CartItem): (r: seq<CartItem>)
    ensures HasProduct(items, item.productId) ==> |r| == |items|
    ensures HasProduct(items, item.productId) ==> forall i :: 0 <= i < |items| ==>
      r[i].productId == items[i].productId &&
      (items[i].productId != item.productId ==> r[i] == items[i])
    ensures !HasProduct(items, item.productId) ==> r == items + [item]
  {
    if Find(items, item.productId).Some? then Merged(items, item) else items + [item]
  }

  /** The new list of `updateQuantity(id, n)`: every line for `id` gets `Clamp(n, maxQuantity)`. */
  function WithQuantity(items: seq<CartItem>, id: int, n: int): (r: seq<CartItem>)
    ensures |r| == |items|
    ensures forall i :: 0 <= i < |items| ==>
      if items[i].productId == id
      then r[i] == items[i].(quantity := Clamp(n, items[i].maxQuantity))
      else r[i] == items[i]
  {
    if items == [] then []
    else
      var head := items[0];
      var line := if head.productId == id then head.(quantity := Clamp(n, head.maxQuantity)) else head;
      [line] + WithQuantity(items[1..], id, n)
  }

  /** The new list of `removeItem(id)`: the lines of other products, in their order. */
  function Without(items: seq<CartItem>, id: int): (r: seq<CartItem>)
    ensures |r| <= |items|
    ensures !HasProduct(r, id)
    ensures !HasProduct(items, id) ==> r == items
  {
    if items == [] then []
    else
      var rest := Without(items[1..], id);
      assert items == [items[0]] + items[1..];
      var r := if items[0].productId == id then rest else [items[0]] + rest;
      assert !HasProduct(r, id) by {
        forall k | 0 <= k < |r| ensures r[k].productId != id {
          if items[0].productId == id {
            assert r[k] == rest[k];
          } else if k > 0 {
            assert r[k] == rest[k - 1];
          }
        }
      }
      assert !HasProduct(items, id) ==> r == items by {
        if !HasProduct(items, id) {
          forall k | 0 <= k < |items[1..]| ensures items[1..][k].productId != id {
            assert items[1..][k] == items[k + 1];
          }
        }
      }
      r
  }

  // ---------------------------------------------------------------------
  // Helper facts about sequences of lines

  lemma HasProductSplit(items: seq<CartItem>, id: int)
    requires items != []
    ensures HasProduct(items, id) <==> items[0].productId == id || HasProduct(items[1..], id)
  {
    if HasProduct(items, id) && items[0].productId != id {
      var k :| 0 <= k < |items| && items[k].productId == id;
      assert items[1..][k - 1].productId == id;
    }
    if HasProduct(items[1..], id) {
      var k :| 0 <= k < |items[1..]| && items[1..][k].productId == id;
      assert items[k + 1].productId == id;
    }
  }

  lemma UniqueTail(items: seq<CartItem>)
    requires items != [] && UniqueIds(items)
    ensures UniqueIds(items[1..])
    ensures !HasProduct(items[1..], items[0].productId)
  {
    forall i, j | 0 <= i < j < |items[1..]|
      ensures items[1..][i].productId != items[1..][j].productId
    {
      assert items[1..][i] == items[i + 1] && items[1..][j] == items[j + 1];
    }
    forall k | 0 <= k < |items[1..]| ensures items[1..][k].productId != items[0].productId {
      assert items[1..][k] == items[k + 1];
    }
  }

  lemma UniqueCons(head: CartItem, tail: seq<CartItem>)
    requires UniqueIds(tail) && !HasProduct(tail, head.productId)
    ensures UniqueIds([head] + tail)
  {
    var s := [head] + tail;
    forall i, j | 0 <= i < j < |s| ensures s[i].productId != s[j].productId {
      if i == 0 {
        assert s[j] == tail[j - 1];
      } else {
        assert s[i] == tail[i - 1] && s[j] == tail[j - 1];
      }
    }
  }

  /** A line for `id` is in the view exactly when some line carries `id`. */
  lemma {:induction false} ViewKeys(items: seq<CartItem>, id: int)
    ensures id in View(items) <==> HasProduct(items, id)
  {
    if items != [] {
      ViewKeys(items[1..], id);
      HasProductSplit(items, id);
    }
  }

  // ---------------------------------------------------------------------
  // addToCart

  /** The merge never reorders lines and leaves every other product's line alone. */
  lemma AddedToKeepsOrder(items: seq<CartItem>, item: CartItem, i: nat)
    requires i < |items|
    ensures |AddedTo(items, item)| >= |items|
    ensures AddedTo(items, item)[i].productId == items[i].productId
    ensures items[i].productId != item.productId ==> AddedTo(items, item)[i] == items[i]
  {
  }

  /** A merged line holds `min(old + added, maxQuantity of that line)`; the incoming item's own bound is ignored. */
  lemma AddedToMergesQuantity(items: seq<CartItem>, item: CartItem, i: nat)
    requires i < |items| && items[i].productId == item.productId
    ensures |AddedTo(items, item)| == |items|
    ensures AddedTo(items, item)[i] ==
      items[i].(quantity := Min(items[i].quantity + item.quantity, items[i].maxQuantity))
  {
    assert HasProduct(items, item.productId);
  }

  /** Two carts with the same ids line by line are unique together. */
  lemma SameIdsUnique(a: seq<CartItem>, b: seq<CartItem>)
    requires |a| == |b|
    requires forall i :: 0 <= i < |a| ==> a[i].productId == b[i].productId
    ensures UniqueIds(a) <==> UniqueIds(b)
  {
  }

  lemma MergedAbsent(items: seq<CartItem>, item: CartItem)
    requires !HasProduct(items, item.productId)
    ensures Merged(items, item) == items
  {
  }

  lemma MergedConcat(a: seq<CartItem>, b: seq<CartItem>, item: CartItem)
    ensures Merged(a + b, item) == Merged(a, item) + Merged(b, item)
  {
    var l, r := Merged(a + b, item), Merged(a, item) + Merged(b, item);
    forall i | 0 <= i < |l| ensures l[i] == r[i] {
      if i < |a| {
        assert (a + b)[i] == a[i];
      } else {
        assert (a + b)[i] == b[i - |a|];
      }
    }
  }

  lemma ViewCons(head: CartItem, tail: seq<CartItem>)
    ensures View([head] + tail) == View(tail)[head.productId := head]
  {
    assert ([head] + tail)[1..] == tail;
  }

  /** Unique ids stay unique, and the dictionary view changes only at the added product. */
  lemma AddedToView(items: seq<CartItem>, item: CartItem)
    requires UniqueIds(items)
    ensures UniqueIds(AddedTo(items, item))
    ensures var v := View(items); var id := item.productId;
      View(AddedTo(items, item)) == if id in v then v[id := Bumped(v[id], item)] else v[id := item]
  {
    var id := item.productId;
    ViewKeys(items, id);
    if HasProduct(items, id) {
      SameIdsUnique(items, Merged(items, item));
      MergedView(items, item);
    } else {
      AppendView(items, item);
    }
  }

  lemma {:induction false} MergedView(items: seq<CartItem>, item: CartItem)
    requires UniqueIds(items) && HasProduct(items, item.productId)
    ensures item.productId in View(items)
    ensures View(Merged(items, item)) == View(items)[item.productId := Bumped(View(items)[item.productId], item)]
  {
    var id := item.productId;
    var h, t := items[0], items[1..];
    assert items == [h] + t;
    var h' := if h.productId == id then Bumped(h, item) else h;
    assert Merged(items, item) == [h'] + Merged(t, item);
    ViewCons(h', Merged(t, item));
    ViewCons(h, t);
    UniqueTail(items);
    HasProductSplit(items, id);
    if h.productId == id {
      MergedAbsent(t, item);
    } else {
      MergedView(t, item);
    }
  }

  lemma {:induction false} AppendView(items: seq<CartItem>, item: CartItem)
    requires UniqueIds(items) && !HasProduct(items, item.productId)
    ensures UniqueIds(items + [item])
    ensures View(items + [item]) == View(items)[item.productId := item]
  {
    var s := items + [item];
    forall i, j | 0 <= i < j < |s| ensures s[i].productId != s[j].productId {
      if j == |items| {
        assert s[i] == items[i];
      } else {
        assert s[i] == items[i] && s[j] == items[j];
      }
    }
    if items != [] {
      HasProductSplit(items, item.productId);
      UniqueTail(items);
      AppendView(items[1..], item);
      assert s[1..] == items[1..] + [item];
    }
  }

  /** A line added fresh must itself be in bounds: the append branch does not clamp. */
  lemma AddedToWellFormed(items: seq<CartItem>, item: CartItem)
    requires WellFormed(items)
    requires 1 <= item.quantity <= item.maxQuantity
    ensures WellFormed(AddedTo(items, item))
  {
    AddedToView(items, item);
    var r := AddedTo(items, item);
    if HasProduct(items, item.productId) {
      forall i | 0 <= i < |r| ensures 1 <= r[i].quantity <= r[i].maxQuantity {
        if items[i].productId == item.productId {
          AddedToMergesQuantity(items, item, i);
        }
      }
    }
  }

  // Repeated adds of one product

  /** The list after adding each of `adds` in turn. */
  function AddAll(items: seq<CartItem>, adds: seq<CartItem>): seq<CartItem>
    decreases |adds|
  {
    if adds == [] then items else AddAll(AddedTo(items, adds[0]), adds[1..])
  }

  function SumQuantities(adds: seq<CartItem>): int
    decreases |adds|
  {
    if adds == [] then 0 else adds[0].quantity + SumQuantities(adds[1..])
  }

  lemma {:induction false} SumNonNegative(adds: seq<CartItem>)
    requires forall k :: 0 <= k < |adds| ==> adds[k].quantity >= 0
    ensures SumQuantities(adds) >= 0
    decreases |adds|
  {
    if adds != [] {
      SumNonNegative(adds[1..]);
    }
  }

  lemma MinMinAdd(q: int, a: int, b: int, m: int)
    requires b >= 0
    ensures Min(Min(q + a, m) + b, m) == Min(q + a + b, m)
  {
  }

  /** Adding to the product of the last line, absent elsewhere, bumps only that line. */
  lemma AddedToLastLine(items: seq<CartItem>, line: CartItem, a: CartItem)
    requires !HasProduct(items, line.productId) && a.productId == line.productId
    ensures AddedTo(items + [line], a) == items + [Bumped(line, a)]
  {
    assert (items + [line])[|items|] == line;
    MergedConcat(items, [line], a);
    MergedAbsent(items, a);
  }

  /** Bumping by `a` and then by a non-negative `rest` is bumping once by both. */
  lemma BumpedTwice(line: CartItem, a: CartItem, rest: int)
    requires rest >= 0
    ensures var b := Bumped(line, a);
      b.(quantity := Min(b.quantity + rest, b.maxQuantity)) ==
      line.(quantity := Min(line.quantity + (a.quantity + rest), line.maxQuantity))
  {
    MinMinAdd(line.quantity, a.quantity, rest, line.maxQuantity);
  }

  lemma AddAllStep(items: seq<CartItem>, line: CartItem, rest: seq<CartItem>)
    requires rest != [] && !HasProduct(items, line.productId) && rest[0].productId == line.productId
    ensures AddAll(items + [line], rest) == AddAll(items + [Bumped(line, rest[0])], rest[1..])
  {
    AddedToLastLine(items, line, rest[0]);
  }

  /** The line after bumping by each of `adds` in turn. */
  function BumpedAll(line: CartItem, adds: seq<CartItem>): CartItem
    decreases |adds|
  {
    if adds == [] then line else BumpedAll(Bumped(line, adds[0]), adds[1..])
  }

  lemma {:induction false} BumpedAllQuantity(line: CartItem, adds: seq<CartItem>)
    requires line.quantity <= line.maxQuantity
    requires forall k :: 0 <= k < |adds| ==> adds[k].quantity >= 0
    ensures BumpedAll(line, adds) == line.(quantity := Min(line.quantity + SumQuantities(adds), line.maxQuantity))
    decreases |adds|
  {
    if adds == [] {
      assert line.(quantity := line.quantity) == line;
    } else {
      var tail := adds[1..];
      assert forall k :: 0 <= k < |tail| ==> tail[k] == adds[k + 1];
      BumpedAllQuantity(Bumped(line, adds[0]), tail);
      SumNonNegative(tail);
      BumpedTwice(line, adds[0], SumQuantities(tail));
    }
  }

  lemma {:induction false} AddAllOnLastLine(items: seq<CartItem>, line: CartItem, rest: seq<CartItem>)
    requires !HasProduct(items, line.productId)
    requires forall k :: 0 <= k < |rest| ==> rest[k].productId == line.productId
    ensures AddAll(items + [line], rest) == items + [BumpedAll(line, rest)]
    decreases |rest|
  {
    if rest != [] {
      var tail := rest[1..];
      AddAllStep(items, line, rest);
      assert forall k :: 0 <= k < |tail| ==> tail[k] == rest[k + 1];
      AddAllOnLastLine(items, Bumped(line, rest[0]), tail);
    }
  }

  /**
   * Adding the same product several times (non-negative quantities, the
   * first within its bound) leaves one line for it, at the end, holding
   * `min(sum of added quantities, maxQuantity of the first add)`.
   */
  lemma RepeatedAdds(items: seq<CartItem>, adds: seq<CartItem>)
    requires |adds| > 0
    requires !HasProduct(items, adds[0].productId)
    requires adds[0].quantity <= adds[0].maxQuantity
    requires forall k :: 0 <= k < |adds| ==> adds[k].productId == adds[0].productId && adds[k].quantity >= 0
    ensures AddAll(items, adds) ==
      items + [adds[0].(quantity := Min(SumQuantities(adds), adds[0].maxQuantity))]
  {
    var first, tail := adds[0], adds[1..];
    assert forall k :: 0 <= k < |tail| ==> tail[k] == adds[k + 1];
    AddAllOnLastLine(items, first, tail);
    BumpedAllQuantity(first, tail);
    assert SumQuantities(adds) == first.quantity + SumQuantities(tail);
    var last := first.(quantity := Min(SumQuantities(adds), first.maxQuantity));
    assert BumpedAll(first, tail) == last;
    calc {
      AddAll(items, adds);
      AddAll(items + [first], tail);
      items + [BumpedAll(first, tail)];
      items + [last];
    }
  }

  // ---------------------------------------------------------------------
  // updateQuantity

  /** The update never leaves a line below 1, nor above its bound when the bound is at least 1. */
  lemma WithQuantityBounds(items: seq<CartItem>, id: int, n: int, i: nat)
    requires i < |items| && items[i].productId == id
    ensures 1 <= WithQuantity(items, id, n)[i].quantity
    ensures items[i].maxQuantity >= 1 ==> WithQuantity(items, id, n)[i].quantity <= items[i].maxQuantity
  {
  }

  lemma {:induction false} WithQuantityView(items: seq<CartItem>, id: int, n: int)
    ensures var v := View(items);
      View(WithQuantity(items, id, n)) ==
        if id in v then v[id := v[id].(quantity := Clamp(n, v[id].maxQuantity))] else v
  {
    if items != [] {
      WithQuantityView(items[1..], id, n);
      var h := items[0];
      var h' := if h.productId == id then h.(quantity := Clamp(n, h.maxQuantity)) else h;
      assert WithQuantity(items, id, n) == [h'] + WithQuantity(items[1..], id, n);
      assert ([h'] + WithQuantity(items[1..], id, n))[1..] == WithQuantity(items[1..], id, n);
    }
  }

  lemma WithQuantityWellFormed(items: seq<CartItem>, id: int, n: int)
    requires WellFormed(items)
    ensures WellFormed(WithQuantity(items, id, n))
  {
  }

  /** An absent id changes nothing. */
  lemma WithQuantityAbsent(items: seq<CartItem>, id: int, n: int)
    requires !HasProduct(items, id)
    ensures WithQuantity(items, id, n) == items
  {
  }

  // ---------------------------------------------------------------------
  // removeItem

  lemma {:induction false} WithoutView(items: seq<CartItem>, id: int)
    requires UniqueIds(items)
    ensures View(Without(items, id)) == View(items) - {id}
  {
    if items != [] {
      UniqueTail(items);
      WithoutView(items[1..], id);
      var h, t := items[0], items[1..];
      assert items == [h] + t;
      ViewCons(h, t);
      if h.productId == id {
        assert Without(items, id) == Without(t, id);
        assert View(t)[id := h] - {id} == View(t) - {id};
      } else {
        assert Without(items, id) == [h] + Without(t, id);
        ViewCons(h, Without(t, id));
        assert (View(t) - {id})[h.productId := h] == View(t)[h.productId := h] - {id};
      }
    }
  }

  lemma {:induction false} WithoutConcat(a: seq<CartItem>, b: seq<CartItem>, id: int)
    ensures Without(a + b, id) == Without(a, id) + Without(b, id)
  {
    if a != [] {
      WithoutConcat(a[1..], b, id);
      assert (a + b)[0] == a[0] && (a + b)[1..] == a[1..] + b;
    } else {
      assert a + b == b;
    }
  }

  lemma SplitAt(items: seq<CartItem>, k: nat)
    requires k < |items|
    ensures items == items[..k] + ([items[k]] + items[k + 1..])
  {
  }

  /** On a cart with unique ids, removing the product of line `k` deletes exactly that line. */
  lemma WithoutLine(items: seq<CartItem>, k: nat)
    requires UniqueIds(items) && k < |items|
    ensures Without(items, items[k].productId) == items[..k] + items[k + 1..]
  {
    var id := items[k].productId;
    var before, after := items[..k], items[k + 1..];
    SplitAt(items, k);
    assert !HasProduct(before, id) by {
      forall j | 0 <= j < |before| ensures before[j].productId != id {
        assert before[j] == items[j];
      }
    }
    assert !HasProduct(after, id) by {
      forall j | 0 <= j < |after| ensures after[j].productId != id {
        assert after[j] == items[k + 1 + j];
      }
    }
    WithoutConcat(before, [items[k]] + after, id);
    WithoutConcat([items[k]], after, id);
    assert Without([items[k]], id) == [];
  }

  /** Removing twice is removing once. */
  lemma WithoutIdempotent(items: seq<CartItem>, id: int)
    ensures Without(Without(items, id), id) == Without(items, id)
  {
  }

  /** `removeItem` keeps exactly the lines of other products. */
  lemma {:induction false} WithoutMember(items: seq<CartItem>, id: int, x: CartItem)
    ensures x in Without(items, id) <==> x in items && x.productId != id
  {
    if items != [] {
      var h, t := items[0], items[1..];
      assert items == [h] + t;
      WithoutMember(t, id, x);
    }
  }

  lemma {:induction false} WithoutWellFormed(items: seq<CartItem>, id: int)
    requires WellFormed(items)
    ensures WellFormed(Without(items, id))
  {
    if items != [] {
      var h, t := items[0], items[1..];
      UniqueTail(items);
      assert InBounds(t) by {
        forall k | 0 <= k < |t| ensures 1 <= t[k].quantity <= t[k].maxQuantity {
          assert t[k] == items[k + 1];
        }
      }
      WithoutWellFormed(t, id);
      var rest := Without(t, id);
      if h.productId != id {
        forall k | 0 <= k < |rest| ensures rest[k].productId != h.productId {
          WithoutMember(t, id, rest[k]);
          var j :| 0 <= j < |t| && t[j] == rest[k];
        }
        UniqueCons(h, rest);
        assert Without(items, id) == [h] + rest;
      }
    }
  }

  // ---------------------------------------------------------------------
  // Two scenarios from the store's documented behaviour

  /** Adding one unit (ceiling 5), then three more units of the same product, leaves one line of 4. */
  lemma AddTwiceScenario(a: CartItem, again: CartItem)
    requires a.quantity == 1 && a.maxQuantity == 5
    requires again.productId == a.productId && again.quantity == 3
    ensures AddedTo(AddedTo([], a), again) == [a.(quantity := 4)]
  {
    assert Find([a], a.productId) == Some(a);
  }

  /** Asking for 5 units of a product whose ceiling is 1 keeps the line at 1. */
  lemma UpdateClampScenario(b: CartItem)
    requires b.quantity == 1 && b.maxQuantity == 1
    ensures WithQuantity(AddedTo([], b), b.productId, 5) == [b]
  {
  }

  // ---------------------------------------------------------------------
  // The store

  /**
   * The cart provider: the in-memory list and the secure storage it writes
   * through to. Every mutation replaces the list and rewrites the "cart"
   * record; `ClearCart` deletes the record instead.
   */
  class CartStore {
    var items: seq<CartItem>
    var storage: map<string, seq<CartItem>>

    /** The persisted record mirrors the list; with no record the list is empty. */
    ghost predicate Valid()
      reads this
    {
      if CartKey in storage then storage[CartKey] == items else items == []
    }

    /** Start-up: an empty list, replaced by the persisted record when there is one. */
    constructor Load(stored: map<string, seq<CartItem>>)
      ensures Valid()
      ensures storage == stored
      ensures items == if CartKey in stored then stored[CartKey] else []
    {
      storage := stored;
      items := [];
      if CartKey in stored {
        items := stored[CartKey];
      }
    }

    method AddToCart(item: CartItem)
      requires Valid()
      modifies this
      ensures Valid()
      ensures items == AddedTo(old(items), item)
      ensures storage == old(storage)[CartKey := items]
      ensures old(WellFormed(items)) && 1 <= item.quantity <= item.maxQuantity ==> WellFormed(items)
    {
      if old(WellFormed(items)) && 1 <= item.quantity <= item.maxQuantity {
        AddedToWellFormed(items, item);
      }
      var newItems := AddedTo(items, item);
      storage := storage[CartKey := newItems];
      items := newItems;
    }

    method UpdateQuantity(productId: int, newQuantity: int)
      requires Valid()
      modifies this
      ensures Valid()
      ensures items == WithQuantity(old(items), productId, newQuantity)
      ensures storage == old(storage)[CartKey := items]
      ensures old(WellFormed(items)) ==> WellFormed(items)
    {
      if WellFormed(items) {
        WithQuantityWellFormed(items, productId, newQuantity);
      }
      var newItems := WithQuantity(items, productId, newQuantity);
      storage := storage[CartKey := newItems];
      items := newItems;
    }

    method RemoveItem(productId: int)
      requires Valid()
      modifies this
      ensures Valid()
      ensures items == Without(old(items), productId)
      ensures storage == old(storage)[CartKey := items]
      ensures old(WellFormed(items)) ==> WellFormed(items)
    {
      if WellFormed(items) {
        WithoutWellFormed(items, productId);
      }
      var newItems := Without(items, productId);
      storage := storage[CartKey := newItems];
      items := newItems;
    }

    /** Empties the list and deletes the record rather than writing an empty list. */
    method ClearCart()
      requires Valid()
      modifies this
      ensures Valid()
      ensures items == []
      ensures CartKey !in storage
      ensures storage == old(storage) - {CartKey}
    {
      items := [];
      storage := storage - {CartKey};
    }
  }
}
