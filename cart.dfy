/**
 * The cart store: an ordered list of line items, at most one per product id,
 * changed by four reducers (add, remove, set quantity, clear) and read by two
 * folds (item count and total).
 */
module Cart {
  import opened Wrappers
  import opened Seqs
  import opened Money

  /** One line of the cart. */
  datatype CartItem = CartItem(id: string, name: string, price: string, quantity: int, image: string)

  /** What `addToCart` receives: a line item without its quantity. */
  datatype CartPayload = CartPayload(id: string, name: string, price: string, image: string)

  function LineId(item: CartItem): string {
    item.id
  }

  /** The line `addToCart` appends for a product not yet in the cart. */
  function NewLine(p: CartPayload): CartItem {
    CartItem(p.id, p.name, p.price, 1, p.image)
  }

  /** `Math.max(1, q)`. */
  function AtLeastOne(q: int): int {
    if q < 1 then 1 else q
  }

  predicate Absent(items: seq<CartItem>, id: string) {
    forall j :: 0 <= j < |items| ==> items[j].id != id
  }

  /** `i` is where `find(item => item.id === id)` stops. */
  predicate FirstMatch(items: seq<CartItem>, id: string, i: int) {
    && 0 <= i < |items|
    && items[i].id == id
    && forall j :: 0 <= j < i ==> items[j].id != id
  }

  predicate UniqueIds(items: seq<CartItem>) {
    forall i, j :: 0 <= i < j < |items| ==> items[i].id != items[j].id
  }

  predicate PositiveQuantities(items: seq<CartItem>) {
    forall i :: 0 <= i < |items| ==> items[i].quantity >= 1
  }

  /** The invariant every reachable cart keeps: one line per id, every quantity at least 1. */
  predicate WellFormedCart(items: seq<CartItem>) {
    UniqueIds(items) && PositiveQuantities(items)
  }

  // ---------------------------------------------------------------------------
  // The reducers, as functions from the old list to the new one

  function Added(items: seq<CartItem>, p: CartPayload): seq<CartItem> {
    var i := FirstIndex(items, LineId, p.id);
    if i < 0 then items + [NewLine(p)]
    else items[i := items[i].(quantity := items[i].quantity + 1)]
  }

  function WithoutId(items: seq<CartItem>, id: string): seq<CartItem> {
    if items == [] then []
    else (if items[0].id == id then [] else [items[0]]) + WithoutId(items[1..], id)
  }

  function QuantitySet(items: seq<CartItem>, id: string, q: int): seq<CartItem> {
    var i := FirstIndex(items, LineId, id);
    if i < 0 then items
    else items[i := items[i].(quantity := AtLeastOne(q))]
  }

  // ---------------------------------------------------------------------------
  // The selectors: left folds, as `reduce` computes them

  /** `selectCartItemCount`: the sum of the quantities. */
  function ItemCount(items: seq<CartItem>): (count: int)
    ensures PositiveQuantities(items) ==> count >= |items|
  {
    if items == [] then 0
    else ItemCount(items[..|items| - 1]) + items[|items| - 1].quantity
  }

  predicate PricesWellFormed(items: seq<CartItem>) {
    forall i :: 0 <= i < |items| ==> WellFormedPrice(items[i].price)
  }

  function LineTotal(item: CartItem): int
    requires WellFormedPrice(item.price)
  {
    ParsePrice(item.price).value * item.quantity
  }

  /** `selectCartTotal`, in cents: the sum of price times quantity. */
  function CartTotal(items: seq<CartItem>): (cents: int)
    requires PricesWellFormed(items)
    ensures PositiveQuantities(items) ==> cents >= 0
  {
    if items == [] then 0
    else
      var last := items[|items| - 1];
      assert PositiveQuantities(items) ==> LineTotal(last) >= 0 by {
        if PositiveQuantities(items) {
          var price: nat := ParsePrice(last.price).value;
          assert last.quantity >= 1;
          assert price * last.quantity >= 0;
        }
      }
      CartTotal(items[..|items| - 1]) + LineTotal(last)
  }

  // ---------------------------------------------------------------------------
  // What each reducer does

  /** A new id is appended as a line of quantity 1; earlier lines are kept. */
  lemma AddAbsent(items: seq<CartItem>, p: CartPayload)
    requires Absent(items, p.id)
    ensures Added(items, p) == items + [CartItem(p.id, p.name, p.price, 1, p.image)]
  {
  }

  /**
   * A present id gains exactly one unit on its first line; name, price and
   * image stay those already stored, length and order are kept.
   */
  lemma AddPresent(items: seq<CartItem>, p: CartPayload, i: int)
    requires FirstMatch(items, p.id, i)
    ensures |Added(items, p)| == |items|
    ensures Added(items, p)[i].quantity == items[i].quantity + 1
    ensures Added(items, p)[i].name == items[i].name
    ensures Added(items, p)[i].price == items[i].price
    ensures Added(items, p)[i].image == items[i].image
    ensures Added(items, p)[i].id == p.id
    ensures forall j :: 0 <= j < |items| && j != i ==> Added(items, p)[j] == items[j]
  {
    var k := FirstIndex(items, LineId, p.id);
    assert k == i by {
      assert LineId(items[i]) == p.id;
    }
  }

  /** `removeFromCart` keeps exactly the lines with another id, in their order. */
  lemma {:induction false} RemoveKeepsOthers(items: seq<CartItem>, id: string)
    ensures forall x :: x in WithoutId(items, id) <==> x in items && x.id != id
    ensures IsSubsequence(WithoutId(items, id), items)
    ensures Absent(items, id) ==> WithoutId(items, id) == items
  {
    if items != [] {
      RemoveKeepsOthers(items[1..], id);
      var r := WithoutId(items, id);
      var r' := WithoutId(items[1..], id);
      if items[0].id == id {
        assert r == r';
        if r' != [] {
          assert IsSubsequence(r, items[1..]);
        }
      } else {
        assert r == [items[0]] + r';
        assert r[1..] == r';
      }
      assert items == [items[0]] + items[1..];
    }
  }

  /**
   * `removeFromCart` keeps every line with another id as many times as it
   * occurs, and no line with the id.
   */
  lemma {:induction false} RemoveCounts(items: seq<CartItem>, id: string)
    ensures forall x :: multiset(WithoutId(items, id))[x]
                        == if x.id != id then multiset(items)[x] else 0
  {
    if items != [] {
      var h, t := items[0], items[1..];
      RemoveCounts(t, id);
      assert items == [h] + t;
      var kept := if h.id == id then [] else [h];
      assert WithoutId(items, id) == kept + WithoutId(t, id);
      forall x
        ensures multiset(WithoutId(items, id))[x]
                == if x.id != id then multiset(items)[x] else 0
      {
        assert multiset(WithoutId(items, id)) == multiset(kept) + multiset(WithoutId(t, id));
        assert multiset(items) == multiset([h]) + multiset(t);
      }
    }
  }

  /** `updateQuantity` sets the first matching line to `max(1, q)` and nothing else. */
  lemma SetQuantityPresent(items: seq<CartItem>, id: string, q: int, i: int)
    requires FirstMatch(items, id, i)
    ensures QuantitySet(items, id, q) == items[i := items[i].(quantity := if q < 1 then 1 else q)]
  {
    var k := FirstIndex(items, LineId, id);
    assert k == i by {
      assert LineId(items[i]) == id;
    }
  }

  /** `updateQuantity` on an absent id is a no-op. */
  lemma SetQuantityAbsent(items: seq<CartItem>, id: string, q: int)
    requires Absent(items, id)
    ensures QuantitySet(items, id, q) == items
  {
  }

  // ---------------------------------------------------------------------------
  // The invariant is kept

  lemma AddKeepsWellFormed(items: seq<CartItem>, p: CartPayload)
    requires WellFormedCart(items)
    ensures WellFormedCart(Added(items, p))
  {
  }

  lemma {:induction false} RemoveKeepsWellFormed(items: seq<CartItem>, id: string)
    requires WellFormedCart(items)
    ensures WellFormedCart(WithoutId(items, id))
  {
    if items != [] {
      var r' := WithoutId(items[1..], id);
      RemoveKeepsWellFormed(items[1..], id);
      RemoveKeepsOthers(items[1..], id);
      if items[0].id != id {
        var r := [items[0]] + r';
        assert r == WithoutId(items, id);
        forall j | 0 < j < |r|
          ensures r[j].id != items[0].id
        {
          assert r[j] in r';
          var k :| 0 <= k < |items[1..]| && items[1..][k] == r[j];
          assert items[k + 1] == r[j];
        }
        forall j | 0 < j < |r|
          ensures r[j].quantity >= 1
        {
          assert r[j] in r';
        }
      }
    }
  }

  lemma SetQuantityKeepsWellFormed(items: seq<CartItem>, id: string, q: int)
    requires WellFormedCart(items)
    ensures WellFormedCart(QuantitySet(items, id, q))
  {
  }

  // ---------------------------------------------------------------------------
  // The store as a reducer over actions

  datatype CartAction =
    | Add(payload: CartPayload)
    | Remove(id: string)
    | SetQuantity(id: string, quantity: int)
    | Clear

  /** The slice's reducer: one action applied to the list of items. */
  function Reduce(items: seq<CartItem>, a: CartAction): seq<CartItem> {
    match a
    case Add(p) => Added(items, p)
    case Remove(id) => WithoutId(items, id)
    case SetQuantity(id, q) => QuantitySet(items, id, q)
    case Clear => []
  }

  /** The items after dispatching `actions` in order. */
  function Replay(items: seq<CartItem>, actions: seq<CartAction>): seq<CartItem>
    decreases |actions|
  {
    if actions == [] then items else Replay(Reduce(items, actions[0]), actions[1..])
  }

  lemma ReduceKeepsWellFormed(items: seq<CartItem>, a: CartAction)
    requires WellFormedCart(items)
    ensures WellFormedCart(Reduce(items, a))
  {
    match a
    case Add(p) => AddKeepsWellFormed(items, p);
    case Remove(id) => RemoveKeepsWellFormed(items, id);
    case SetQuantity(id, q) => SetQuantityKeepsWellFormed(items, id, q);
    case Clear =>
  }

  lemma {:induction false} ReplayKeepsWellFormed(items: seq<CartItem>, actions: seq<CartAction>)
    requires WellFormedCart(items)
    ensures WellFormedCart(Replay(items, actions))
    decreases |actions|
  {
    if actions != [] {
      ReduceKeepsWellFormed(items, actions[0]);
      ReplayKeepsWellFormed(Reduce(items, actions[0]), actions[1..]);
    }
  }

  /** From the empty cart, every sequence of actions leaves unique ids and quantities of at least 1. */
  lemma ReachableCartsAreWellFormed(actions: seq<CartAction>)
    ensures UniqueIds(Replay([], actions)) && PositiveQuantities(Replay([], actions))
  {
    ReplayKeepsWellFormed([], actions);
  }

  // ---------------------------------------------------------------------------
  // The selectors under the reducers

  lemma ItemCountAppend(items: seq<CartItem>, x: CartItem)
    ensures ItemCount(items + [x]) == ItemCount(items) + x.quantity
  {
    assert (items + [x])[..|items|] == items;
  }

  /** The count of two carts laid end to end is the sum of their counts. */
  lemma {:induction false} ItemCountConcat(a: seq<CartItem>, b: seq<CartItem>)
    ensures ItemCount(a + b) == ItemCount(a) + ItemCount(b)
  {
    if b == [] {
      assert a + b == a;
    } else {
      var b', x := b[..|b| - 1], b[|b| - 1];
      assert b == b' + [x];
      assert a + b == (a + b') + [x];
      ItemCountConcat(a, b');
      ItemCountAppend(a + b', x);
      ItemCountAppend(b', x);
    }
  }

  lemma {:induction false} ItemCountUpdate(items: seq<CartItem>, i: int, x: CartItem)
    requires 0 <= i < |items|
    ensures ItemCount(items[i := x]) == ItemCount(items) - items[i].quantity + x.quantity
  {
    var n := |items| - 1;
    if i < n {
      assert items[i := x][..n] == items[..n][i := x];
      ItemCountUpdate(items[..n], i, x);
    } else {
      assert items[i := x][..n] == items[..n];
    }
  }

  /** With positive quantities the count is 0 exactly when the cart is empty. */
  lemma ItemCountZeroIffEmpty(items: seq<CartItem>)
    requires PositiveQuantities(items)
    ensures ItemCount(items) == 0 <==> items == []
  {
  }

  /** `addToCart` raises the item count by exactly 1. */
  lemma AddRaisesItemCount(items: seq<CartItem>, p: CartPayload)
    ensures ItemCount(Added(items, p)) == ItemCount(items) + 1
  {
    var i := FirstIndex(items, LineId, p.id);
    if i < 0 {
      ItemCountAppend(items, NewLine(p));
    } else {
      ItemCountUpdate(items, i, items[i].(quantity := items[i].quantity + 1));
    }
  }

  lemma CartTotalAppend(items: seq<CartItem>, x: CartItem)
    requires PricesWellFormed(items) && WellFormedPrice(x.price)
    ensures PricesWellFormed(items + [x])
    ensures CartTotal(items + [x]) == CartTotal(items) + LineTotal(x)
  {
    assert (items + [x])[..|items|] == items;
  }

  /** The total of two carts laid end to end is the sum of their totals. */
  lemma {:induction false} CartTotalConcat(a: seq<CartItem>, b: seq<CartItem>)
    requires PricesWellFormed(a) && PricesWellFormed(b)
    ensures PricesWellFormed(a + b)
    ensures CartTotal(a + b) == CartTotal(a) + CartTotal(b)
  {
    if b == [] {
      assert a + b == a;
    } else {
      var b', x := b[..|b| - 1], b[|b| - 1];
      assert b == b' + [x];
      assert a + b == (a + b') + [x];
      CartTotalConcat(a, b');
      CartTotalAppend(a + b', x);
      CartTotalAppend(b', x);
    }
  }

  lemma {:induction false} CartTotalUpdate(items: seq<CartItem>, i: int, x: CartItem)
    requires PricesWellFormed(items) && WellFormedPrice(x.price)
    requires 0 <= i < |items|
    ensures PricesWellFormed(items[i := x])
    ensures CartTotal(items[i := x]) == CartTotal(items) - LineTotal(items[i]) + LineTotal(x)
  {
    var n := |items| - 1;
    var y := items[i := x];
    assert PricesWellFormed(y);
    assert items == items[..n] + [items[n]];
    assert y == y[..n] + [y[n]];
    CartTotalAppend(items[..n], items[n]);
    CartTotalAppend(y[..n], y[n]);
    if i < n {
      assert y[..n] == items[..n][i := x];
      CartTotalUpdate(items[..n], i, x);
    } else {
      assert y[..n] == items[..n];
    }
  }

  /** `addToCart` with a new id raises the total by the payload's price. */
  lemma AddAbsentRaisesTotal(items: seq<CartItem>, p: CartPayload)
    requires PricesWellFormed(items) && WellFormedPrice(p.price)
    requires Absent(items, p.id)
    ensures PricesWellFormed(Added(items, p))
    ensures CartTotal(Added(items, p)) == CartTotal(items) + ParsePrice(p.price).value
  {
    CartTotalAppend(items, NewLine(p));
  }

  /**
   * `addToCart` with an id already present raises the total by the price
   * stored on that line, whatever price the payload carries.
   */
  lemma AddPresentRaisesTotal(items: seq<CartItem>, p: CartPayload, i: int)
    requires PricesWellFormed(items)
    requires FirstMatch(items, p.id, i)
    ensures PricesWellFormed(Added(items, p))
    ensures CartTotal(Added(items, p)) == CartTotal(items) + ParsePrice(items[i].price).value
  {
    AddPresent(items, p, i);
    var x := items[i].(quantity := items[i].quantity + 1);
    assert Added(items, p) == items[i := x];
    CartTotalUpdate(items, i, x);
    LineTotalBumped(items[i]);
  }

  lemma LineTotalBumped(item: CartItem)
    requires WellFormedPrice(item.price)
    ensures LineTotal(item.(quantity := item.quantity + 1)) == LineTotal(item) + ParsePrice(item.price).value
  {
    var price: nat := ParsePrice(item.price).value;
    assert price * (item.quantity + 1) == price * item.quantity + price;
  }

  /** `clearCart` leaves nothing to count and nothing to pay, and clearing twice is clearing once. */
  lemma ClearEmpties(items: seq<CartItem>)
    ensures Reduce(Reduce(items, Clear), Clear) == Reduce(items, Clear) == []
    ensures ItemCount(Reduce(items, Clear)) == 0 && CartTotal(Reduce(items, Clear)) == 0
  {
  }

  /** The $45.00 marble desk set (product 1 of the seed catalog), with any image. */
  function DeskSet(image: string): CartPayload {
    CartPayload("1", "Marble Desk Set", "$45.00", image)
  }

  function DeskSetLine(image: string, quantity: int): CartItem {
    CartItem("1", "Marble Desk Set", "$45.00", quantity, image)
  }

  /** Adding the desk set twice to an empty cart gives one line of quantity 2. */
  lemma DeskSetAddedTwice(image: string)
    ensures Replay([], [Add(DeskSet(image)), Add(DeskSet(image))]) == [DeskSetLine(image, 2)]
  {
    var p := DeskSet(image);
    var once := Added([], p);
    assert once == [DeskSetLine(image, 1)];
    AddPresent(once, p, 0);
    assert Added(once, p) == [DeskSetLine(image, 2)];
    assert [Add(p), Add(p)][1..] == [Add(p)];
    assert [Add(p)][1..] == [];
    calc {
      Replay([], [Add(p), Add(p)]);
      Replay(Reduce([], Add(p)), [Add(p)]);
      Replay(once, [Add(p)]);
      Replay(Reduce(once, Add(p)), []);
      [DeskSetLine(image, 2)];
    }
  }

  /** Setting its quantity to 0 clamps it to 1. */
  lemma DeskSetClamped(image: string)
    ensures Replay([DeskSetLine(image, 2)], [SetQuantity("1", 0)]) == [DeskSetLine(image, 1)]
  {
    SetQuantityPresent([DeskSetLine(image, 2)], "1", 0, 0);
    assert [SetQuantity("1", 0)][1..] == [];
  }

  /** Two desk sets count 2 and cost 9000 cents; one costs 4500. */
  lemma DeskSetTotals(image: string)
    ensures ItemCount([DeskSetLine(image, 2)]) == 2
    ensures CartTotal([DeskSetLine(image, 2)]) == 9000
    ensures CartTotal([DeskSetLine(image, 1)]) == 4500
  {
    ParsePriceExamples();
    assert [DeskSetLine(image, 2)][..0] == [];
    assert [DeskSetLine(image, 1)][..0] == [];
  }

  // ---------------------------------------------------------------------------
  // The slice as a stateful store

  class CartStore {
    var items: seq<CartItem>

    ghost predicate Valid()
      reads this
    {
      WellFormedCart(items)
    }

    /** The initial state: no items. */
    constructor ()
      ensures items == [] && Valid()
    {
      items := [];
    }

    /** `addToCart`: bump the first line with the payload's id, or append a new line. */
    method AddToCart(p: CartPayload)
      modifies this
      ensures items == Added(old(items), p)
      ensures old(Valid()) ==> Valid()
    {
      if Valid() {
        AddKeepsWellFormed(items, p);
      }
      var i := Find(items, LineId, p.id);
      if i >= 0 {
        items := items[i := items[i].(quantity := items[i].quantity + 1)];
      } else {
        items := items + [NewLine(p)];
      }
    }

    /** `removeFromCart`: keep the lines whose id differs. */
    method RemoveFromCart(id: string)
      modifies this
      ensures items == WithoutId(old(items), id)
      ensures old(Valid()) ==> Valid()
    {
      if Valid() {
        RemoveKeepsWellFormed(items, id);
      }
      items := WithoutId(items, id);
    }

    /** `updateQuantity`: set the first matching line's quantity to `max(1, q)`. */
    method UpdateQuantity(id: string, q: int)
      modifies this
      ensures items == QuantitySet(old(items), id, q)
      ensures old(Valid()) ==> Valid()
    {
      var i := Find(items, LineId, id);
      if i >= 0 {
        items := items[i := items[i].(quantity := AtLeastOne(q))];
      }
    }

    /** `clearCart`. */
    method ClearCart()
      modifies this
      ensures items == [] && Valid()
    {
      items := [];
    }
  }
}
