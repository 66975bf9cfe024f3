/** The shopping-cart slice (`src/store/cartSlice.js`): a list of cart items
    keyed by listing id, each with a quantity, and an open/closed flag for the
    cart drop-down. The reducers update the state in place; the selectors fold
    over the items. */
module Cart {
  import opened Sequences

  /** The listing a page dispatches to `addToCart` (only the fields the cart
      reads or shows). */
  datatype Product = Product(id: string, title: string, price: int, image: string)

  /** A cart line: the dispatched listing's fields plus a quantity. */
  datatype Item = Item(id: string, title: string, price: int, image: string, quantity: int)

  /** `{ ...action.payload, quantity: 1 }` */
  function NewItem(p: Product): Item {
    Item(p.id, p.title, p.price, p.image, 1)
  }

  predicate HasId(s: seq<Item>, id: string) {
    exists i :: 0 <= i < |s| && s[i].id == id
  }

  /** No two cart lines share an id. */
  predicate UniqueIds(s: seq<Item>) {
    forall i, j :: 0 <= i < j < |s| ==> s[i].id != s[j].id
  }

  /** Every cart line has a quantity of at least one. */
  predicate QuantitiesPositive(s: seq<Item>) {
    forall i :: 0 <= i < |s| ==> s[i].quantity >= 1
  }

  /** The invariant every reducer keeps. */
  predicate CartInvariant(s: seq<Item>) {
    UniqueIds(s) && QuantitiesPositive(s)
  }

  /** Position of the line `items.find(item => item.id === id)` returns: the
      first line with that id, or -1 when there is none. */
  function IndexOf(s: seq<Item>, id: string): (k: int)
    ensures -1 <= k < |s|
    ensures k == -1 <==> !HasId(s, id)
    ensures 0 <= k ==> s[k].id == id && forall i :: 0 <= i < k ==> s[i].id != id
  {
    if s == [] then -1
    else if s[0].id == id then 0
    else
      var k := IndexOf(s[1..], id);
      assert forall i :: 0 < i < |s| ==> s[i] == s[1..][i - 1];
      if k < 0 then -1 else k + 1
  }

  /** With unique ids, the line `find` returns is the only line with that id. */
  lemma IndexOfUnique(s: seq<Item>, id: string, i: int)
    requires UniqueIds(s) && 0 <= i < |s| && s[i].id == id
    ensures IndexOf(s, id) == i
  {
  }

  /** `Array.prototype.find` as the loop it performs. */
  method Find(items: seq<Item>, id: string) returns (k: int)
    ensures -1 <= k < |items|
    ensures k == -1 ==> forall i :: 0 <= i < |items| ==> items[i].id != id
    ensures 0 <= k ==> items[k].id == id && forall i :: 0 <= i < k ==> items[i].id != id
    ensures k == IndexOf(items, id)
  {
    k := 0;
    while k < |items| && items[k].id != id
      invariant 0 <= k <= |items|
      invariant forall i :: 0 <= i < k ==> items[i].id != id
    {
      k := k + 1;
    }
    if k == |items| {
      k := -1;
    }
  }

  // ---------------------------------------------------------------------
  // The items after each reducer, as functions of the items before.

  /** `addToCart`: bump the matching line, or append a new line. */
  function Added(s: seq<Item>, p: Product): (r: seq<Item>)
    ensures |r| == if HasId(s, p.id) then |s| else |s| + 1
    ensures HasId(r, p.id)
  {
    var k := IndexOf(s, p.id);
    if k < 0 then
      var r := s + [NewItem(p)];
      assert r[|s|].id == p.id;
      r
    else
      var r := s[k := s[k].(quantity := s[k].quantity + 1)];
      assert r[k].id == p.id;
      r
  }

  /** `removeFromCart`: keep every line whose id differs. */
  function Removed(s: seq<Item>, id: string): (r: seq<Item>)
    ensures |r| <= |s| && !HasId(r, id)
  {
    Filter((it: Item) => it.id != id, s)
  }

  /** `Math.max(1, quantity)` */
  function AtLeastOne(q: int): int {
    if 1 > q then 1 else q
  }

  /** `updateQuantity`: set the matching line's quantity, clamped to one. */
  function QuantityUpdated(s: seq<Item>, id: string, q: int): (r: seq<Item>)
    ensures |r| == |s| && forall i :: 0 <= i < |r| ==> r[i].id == s[i].id && r[i].price == s[i].price
  {
    var k := IndexOf(s, id);
    if k < 0 then s else s[k := s[k].(quantity := AtLeastOne(q))]
  }

  /** `incrementQuantity` */
  function Incremented(s: seq<Item>, id: string): (r: seq<Item>)
    ensures |r| == |s| && forall i :: 0 <= i < |r| ==> r[i].id == s[i].id && r[i].price == s[i].price
  {
    var k := IndexOf(s, id);
    if k < 0 then s else s[k := s[k].(quantity := s[k].quantity + 1)]
  }

  /** `decrementQuantity`: only a quantity above one goes down. */
  function Decremented(s: seq<Item>, id: string): (r: seq<Item>)
    ensures |r| == |s| && forall i :: 0 <= i < |r| ==> r[i].id == s[i].id && r[i].price == s[i].price
  {
    var k := IndexOf(s, id);
    if k >= 0 && s[k].quantity > 1 then s[k := s[k].(quantity := s[k].quantity - 1)] else s
  }

  // ---------------------------------------------------------------------
  // Selectors: `reduce` folds from the left, starting at 0.

  function Quantity(it: Item): int { it.quantity }

  function LineTotal(it: Item): int { it.price * it.quantity }

  /** `s.reduce((total, item) => total + f(item), 0)` */
  function SumOf(s: seq<Item>, f: Item -> int): (total: int)
    ensures (forall i :: 0 <= i < |s| ==> f(s[i]) >= 0) ==> total >= 0
  {
    if s == [] then 0 else SumOf(s[..|s| - 1], f) + f(s[|s| - 1])
  }

  /** `selectCartItemCount`: with every quantity at least one, at least the
      number of lines. */
  function ItemCount(s: seq<Item>): (n: int)
    ensures QuantitiesPositive(s) ==> n >= |s|
  {
    QuantitySumAtLeastLines(s);
    SumOf(s, Quantity)
  }

  /** `selectCartTotal`: never negative while prices and quantities are not. */
  function Total(s: seq<Item>): (t: int)
    ensures (forall i :: 0 <= i < |s| ==> s[i].price >= 0 && s[i].quantity >= 0) ==> t >= 0
  {
    assert forall i :: 0 <= i < |s| && s[i].price >= 0 && s[i].quantity >= 0 ==> LineTotal(s[i]) >= 0 by {
      forall i | 0 <= i < |s| && s[i].price >= 0 && s[i].quantity >= 0 {
        ProductNonNegative(s[i].price, s[i].quantity);
      }
    }
    SumOf(s, LineTotal)
  }

  lemma ProductNonNegative(a: int, b: int)
    requires a >= 0 && b >= 0
    ensures a * b >= 0
  {
  }

  lemma SumOfAppend(s: seq<Item>, x: Item, f: Item -> int)
    ensures SumOf(s + [x], f) == SumOf(s, f) + f(x)
  {
    assert (s + [x])[..|s|] == s;
  }

  /** Replacing one line changes the sum by exactly that line's difference. */
  lemma {:induction false} SumOfUpdate(s: seq<Item>, k: int, x: Item, f: Item -> int)
    requires 0 <= k < |s|
    ensures SumOf(s[k := x], f) == SumOf(s, f) - f(s[k]) + f(x)
  {
    var n := |s| - 1;
    if k < n {
      SumOfUpdate(s[..n], k, x, f);
      assert s[k := x][..n] == s[..n][k := x];
    } else {
      assert s[k := x][..n] == s[..n];
    }
  }

  /** With every quantity at least one, the quantities sum to at least the
      number of lines. */
  lemma {:induction false} QuantitySumAtLeastLines(s: seq<Item>)
    ensures QuantitiesPositive(s) ==> SumOf(s, Quantity) >= |s|
  {
    if s != [] {
      QuantitySumAtLeastLines(s[..|s| - 1]);
    }
  }

  // ---------------------------------------------------------------------
  // What each reducer does, stated pointwise.

  /** Adding an id not in the cart appends one line with quantity 1 and
      leaves the existing lines as they were. */
  lemma AddNewAppends(s: seq<Item>, p: Product)
    requires !HasId(s, p.id)
    ensures var r := Added(s, p);
      |r| == |s| + 1 && r[..|s|] == s &&
      r[|s|] == NewItem(p) && r[|s|].id == p.id && r[|s|].price == p.price && r[|s|].quantity == 1
  {
    assert (s + [NewItem(p)])[..|s|] == s;
  }

  /** Adding an id already in the cart raises that line's quantity by one and
      changes nothing else: not the length, not the other lines. */
  lemma AddExistingBumps(s: seq<Item>, p: Product, k: int)
    requires UniqueIds(s) && 0 <= k < |s| && s[k].id == p.id
    ensures var r := Added(s, p);
      |r| == |s| && r[k].quantity == s[k].quantity + 1 &&
      r[k] == s[k].(quantity := r[k].quantity) &&
      forall j :: 0 <= j < |s| && j != k ==> r[j] == s[j]
  {
    IndexOfUnique(s, p.id, k);
  }

  /** `addToCart` keeps ids unique and quantities positive. */
  lemma AddKeepsInvariant(s: seq<Item>, p: Product)
    requires CartInvariant(s)
    ensures CartInvariant(Added(s, p))
  {
    var k := IndexOf(s, p.id);
    if k < 0 {
      var r := Added(s, p);
      forall i, j | 0 <= i < j < |r| ensures r[i].id != r[j].id {
        if j == |s| {
          assert r[i] == s[i];
        }
      }
    }
  }

  /** `addToCart` raises the item count by exactly one. */
  lemma AddCountsOne(s: seq<Item>, p: Product)
    ensures ItemCount(Added(s, p)) == ItemCount(s) + 1
  {
    var k := IndexOf(s, p.id);
    if k < 0 {
      SumOfAppend(s, NewItem(p), Quantity);
    } else {
      var x := s[k].(quantity := s[k].quantity + 1);
      SumOfUpdate(s, k, x, Quantity);
      assert Added(s, p) == s[k := x];
    }
  }

  /** `addToCart` raises the total by one unit price: the dispatched
      product's for a new line, the price already stored in the line for an
      existing one (the payload's price is then ignored). */
  lemma AddRaisesTotalByPrice(s: seq<Item>, p: Product)
    ensures var k := IndexOf(s, p.id);
      Total(Added(s, p)) == Total(s) + (if k < 0 then p.price else s[k].price)
  {
    var k := IndexOf(s, p.id);
    if k < 0 {
      SumOfAppend(s, NewItem(p), LineTotal);
    } else {
      var x := s[k].(quantity := s[k].quantity + 1);
      SumOfUpdate(s, k, x, LineTotal);
      assert Added(s, p) == s[k := x];
      LineTotalOfOneMore(s[k]);
    }
  }

  /** One more unit of a line adds its unit price to the line total. */
  lemma LineTotalOfOneMore(it: Item)
    ensures LineTotal(it.(quantity := it.quantity + 1)) == LineTotal(it) + it.price
  {
    calc {
      LineTotal(it.(quantity := it.quantity + 1));
      it.price * (it.quantity + 1);
      it.price * it.quantity + it.price;
    }
  }

  /** Adding the products of `ps` one after the other, as successive
      `addToCart` dispatches do. */
  function AddAll(s: seq<Item>, ps: seq<Product>): seq<Item>
    decreases |ps|
  {
    if ps == [] then s else AddAll(Added(s, ps[0]), ps[1..])
  }

  /** Any sequence of `addToCart` dispatches keeps ids unique, and every
      dispatch adds one to the item count. */
  lemma {:induction false} AddAllKeepsInvariant(s: seq<Item>, ps: seq<Product>)
    requires CartInvariant(s)
    ensures CartInvariant(AddAll(s, ps))
    ensures ItemCount(AddAll(s, ps)) == ItemCount(s) + |ps|
    decreases |ps|
  {
    if ps != [] {
      AddKeepsInvariant(s, ps[0]);
      AddCountsOne(s, ps[0]);
      AddAllKeepsInvariant(Added(s, ps[0]), ps[1..]);
    }
  }

  /** After `removeFromCart(id)` no line has that id; every other line stays,
      in its original relative order. */
  lemma RemoveDropsOnlyId(s: seq<Item>, id: string)
    ensures !HasId(Removed(s, id), id)
    ensures forall x :: x in Removed(s, id) <==> x in s && x.id != id
    ensures IsSubsequence(Removed(s, id), s)
    ensures !HasId(s, id) ==> Removed(s, id) == s
  {
    var keep := (it: Item) => it.id != id;
    FilterIsSubsequence(keep, s);
    if !HasId(s, id) {
      FilterKeepsAll(keep, s);
    }
  }

  /** Filtering out lines keeps the invariant. */
  lemma {:induction false} RemoveKeepsInvariant(s: seq<Item>, id: string)
    requires CartInvariant(s)
    ensures CartInvariant(Removed(s, id))
  {
    if s != [] {
      RemoveKeepsInvariant(s[1..], id);
      var rest := Removed(s[1..], id);
      if s[0].id != id {
        var r := Removed(s, id);
        assert r == [s[0]] + rest;
        forall j | 0 < j < |r| ensures r[0].id != r[j].id {
          assert r[j] in rest;
        }
      }
    }
  }

  /** `updateQuantity` sets the matching line's quantity to `max(1, q)`,
      leaves every other line alone, and does nothing for an absent id. */
  lemma UpdateSetsClamped(s: seq<Item>, id: string, q: int)
    requires UniqueIds(s)
    ensures var r := QuantityUpdated(s, id, q);
      |r| == |s| &&
      (forall j :: 0 <= j < |s| && s[j].id != id ==> r[j] == s[j]) &&
      (forall j :: 0 <= j < |s| && s[j].id == id ==>
        r[j] == s[j].(quantity := r[j].quantity) && r[j].quantity == (if q < 1 then 1 else q))
    ensures !HasId(s, id) ==> QuantityUpdated(s, id, q) == s
  {
  }

  /** `incrementQuantity` adds one to the matching line's quantity; absent ids
      are a no-op. */
  lemma IncrementAddsOne(s: seq<Item>, id: string)
    requires UniqueIds(s)
    ensures var r := Incremented(s, id);
      |r| == |s| &&
      (forall j :: 0 <= j < |s| && s[j].id != id ==> r[j] == s[j]) &&
      (forall j :: 0 <= j < |s| && s[j].id == id ==>
        r[j] == s[j].(quantity := s[j].quantity + 1))
    ensures !HasId(s, id) ==> Incremented(s, id) == s
    ensures HasId(s, id) ==> ItemCount(Incremented(s, id)) == ItemCount(s) + 1
  {
    var k := IndexOf(s, id);
    if k >= 0 {
      var x := s[k].(quantity := s[k].quantity + 1);
      SumOfUpdate(s, k, x, Quantity);
      assert Incremented(s, id) == s[k := x];
      forall j | 0 <= j < |s| && s[j].id == id ensures j == k {
        IndexOfUnique(s, id, j);
      }
    }
  }

  /** `decrementQuantity` takes one off the matching line only when its
      quantity is above one; otherwise, and for absent ids, it is a no-op. */
  lemma DecrementFloorsAtOne(s: seq<Item>, id: string)
    requires UniqueIds(s)
    ensures var r := Decremented(s, id);
      |r| == |s| &&
      (forall j :: 0 <= j < |s| && s[j].id != id ==> r[j] == s[j]) &&
      (forall j :: 0 <= j < |s| && s[j].id == id ==>
        r[j] == s[j].(quantity := if s[j].quantity > 1 then s[j].quantity - 1 else s[j].quantity))
    ensures !HasId(s, id) ==> Decremented(s, id) == s
  {
  }

  /** `updateQuantity`, `incrementQuantity` and `decrementQuantity` keep ids
      unique and every quantity at least one. */
  lemma QuantityReducersKeepInvariant(s: seq<Item>, id: string, q: int)
    requires CartInvariant(s)
    ensures CartInvariant(QuantityUpdated(s, id, q))
    ensures CartInvariant(Incremented(s, id))
    ensures CartInvariant(Decremented(s, id))
  {
  }

  // ---------------------------------------------------------------------
  // The slice state, updated in place by the reducers.

  class CartState {
    var items: seq<Item>
    var isOpen: bool

    ghost predicate Valid()
      reads this
    {
      CartInvariant(items)
    }

    /** `initialState` */
    constructor ()
      ensures Valid() && items == [] && !isOpen
    {
      items := [];
      isOpen := false;
    }

    method AddToCart(p: Product)
      requires Valid()
      modifies this
      ensures Valid()
      ensures items == Added(old(items), p) && isOpen == old(isOpen)
      ensures ItemCount(items) == old(ItemCount(items)) + 1
    {
      ghost var s := items;
      AddKeepsInvariant(s, p);
      AddCountsOne(s, p);
      var k := Find(items, p.id);
      if k >= 0 {
        items := items[k := items[k].(quantity := items[k].quantity + 1)];
      } else {
        items := items + [NewItem(p)];
      }
      assert items == Added(s, p);
    }

    method RemoveFromCart(id: string)
      requires Valid()
      modifies this
      ensures Valid()
      ensures items == Removed(old(items), id) && isOpen == old(isOpen)
      ensures !HasId(items, id)
    {
      RemoveKeepsInvariant(items, id);
      RemoveDropsOnlyId(items, id);
      items := Filter((it: Item) => it.id != id, items);
    }

    method UpdateQuantity(id: string, quantity: int)
      requires Valid()
      modifies this
      ensures Valid()
      ensures items == QuantityUpdated(old(items), id, quantity) && isOpen == old(isOpen)
    {
      QuantityReducersKeepInvariant(items, id, quantity);
      var k := Find(items, id);
      if k >= 0 {
        items := items[k := items[k].(quantity := AtLeastOne(quantity))];
      }
    }

    method IncrementQuantity(id: string)
      requires Valid()
      modifies this
      ensures Valid()
      ensures items == Incremented(old(items), id) && isOpen == old(isOpen)
    {
      QuantityReducersKeepInvariant(items, id, 0);
      var k := Find(items, id);
      if k >= 0 {
        items := items[k := items[k].(quantity := items[k].quantity + 1)];
      }
    }

    method DecrementQuantity(id: string)
      requires Valid()
      modifies this
      ensures Valid()
      ensures items == Decremented(old(items), id) && isOpen == old(isOpen)
    {
      QuantityReducersKeepInvariant(items, id, 0);
      var k := Find(items, id);
      if k >= 0 && items[k].quantity > 1 {
        items := items[k := items[k].(quantity := items[k].quantity - 1)];
      }
    }

    /** Flips the drop-down flag; the items are untouched, so two toggles
        restore the state. */
    method ToggleCart()
      modifies this
      ensures isOpen == !old(isOpen) && items == old(items)
    {
      isOpen := !isOpen;
    }
  }
}
