/**
 * The shopping-cart store: a sequence of (product, quantity) entries keyed by
 * product id, its four mutators and its two folds (total and item count).
 * The store object is `CartStore`; the functions below give the value each
 * mutator leaves in `items`, and the lemmas state what those values mean.
 */
module Cart {
  import opened Wrappers
  import opened Types
  import Seqs

  /** Some entry of the cart holds the product with this id. */
  predicate HasProduct(items: seq<CartItem>, id: string) {
    exists i :: 0 <= i < |items| && items[i].producto.id == id
  }

  /** No two entries hold the same product id. */
  predicate UniqueIds(items: seq<CartItem>) {
    forall i, j :: 0 <= i < j < |items| ==> items[i].producto.id != items[j].producto.id
  }

  /** Every entry has a quantity of at least one. */
  predicate PositiveQuantities(items: seq<CartItem>) {
    forall i :: 0 <= i < |items| ==> items[i].cantidad >= 1
  }

  /** Position k holds the first entry with this id. */
  predicate FirstWithId(items: seq<CartItem>, id: string, k: int) {
    0 <= k < |items| && items[k].producto.id == id
    && forall j :: 0 <= j < k ==> items[j].producto.id != id
  }

  /** `items.find(item => item.producto.id === id)`: the first entry with that id. */
  function Find(items: seq<CartItem>, id: string): (r: Option<CartItem>)
    ensures r.None? <==> !HasProduct(items, id)
    ensures r.Some? ==> exists k :: FirstWithId(items, id, k) && items[k] == r.value
    decreases |items|
  {
    if |items| == 0 then None
    else if items[0].producto.id == id then Some(items[0])
    else
      var r := Find(items[1..], id);
      if r.Some? then
        var k :| FirstWithId(items[1..], id, k) && items[1..][k] == r.value;
        assert FirstWithId(items, id, k + 1);
        r
      else
        assert forall i :: 1 <= i < |items| ==> items[i] == items[1..][i - 1];
        r
  }

  /** Every entry with this id gets `delta` more units; the rest are untouched. */
  function Bumped(items: seq<CartItem>, id: string, delta: int): (r: seq<CartItem>)
  {
    seq(|items|, i requires 0 <= i < |items| =>
      if items[i].producto.id == id then items[i].(cantidad := items[i].cantidad + delta) else items[i])
  }

  /** The items after `addItem(producto, cantidad)`. */
  function Added(items: seq<CartItem>, producto: Producto, cantidad: int): seq<CartItem> {
    if HasProduct(items, producto.id) then Bumped(items, producto.id, cantidad)
    else items + [CartItem(producto, cantidad)]
  }

  /** The items after `removeItem(id)`. */
  function Removed(items: seq<CartItem>, id: string): seq<CartItem> {
    Seqs.Filter(items, (item: CartItem) => item.producto.id != id)
  }

  /** The items after `updateQuantity(id, cantidad)`. */
  function WithQuantity(items: seq<CartItem>, id: string, cantidad: int): seq<CartItem> {
    if cantidad <= 0 then Removed(items, id)
    else (seq(|items|, i requires 0 <= i < |items| =>
      if items[i].producto.id == id then items[i].(cantidad := cantidad) else items[i]))
  }

  /** What one entry contributes to the total: sale price times quantity. */
  function LineTotal(item: CartItem): int {
    item.producto.precioVenta * item.cantidad
  }

  /** `getTotal`: the left fold of price x quantity, starting from 0. */
  function Total(items: seq<CartItem>): int
    decreases |items|
  {
    if |items| == 0 then 0 else Total(items[..|items| - 1]) + LineTotal(items[|items| - 1])
  }

  /** `getItemCount`: the left fold of the quantities, starting from 0. */
  function ItemCount(items: seq<CartItem>): int
    decreases |items|
  {
    if |items| == 0 then 0 else ItemCount(items[..|items| - 1]) + items[|items| - 1].cantidad
  }

  // ---------------------------------------------------------------------------
  // The store object.

  class CartStore {
    var items: seq<CartItem>

    /** A new store holds an empty cart. */
    constructor ()
      ensures items == []
    {
      items := [];
    }

    method AddItem(producto: Producto, cantidad: int)
      modifies this
      ensures items == Added(old(items), producto, cantidad)
    {
      var existingItem := Find(items, producto.id);
      if existingItem.Some? {
        items := Bumped(items, producto.id, cantidad);
      } else {
        items := items + [CartItem(producto, cantidad)];
      }
    }

    method RemoveItem(productoId: string)
      modifies this
      ensures items == Removed(old(items), productoId)
    {
      items := Seqs.Filter(items, (item: CartItem) => item.producto.id != productoId);
    }

    method UpdateQuantity(productoId: string, cantidad: int)
      modifies this
      ensures cantidad <= 0 ==> items == Removed(old(items), productoId)
      ensures items == WithQuantity(old(items), productoId, cantidad)
    {
      if cantidad <= 0 {
        RemoveItem(productoId);
      } else {
        var current := items;
        items := seq(|current|, i requires 0 <= i < |current| =>
          if current[i].producto.id == productoId then current[i].(cantidad := cantidad) else current[i]);
      }
    }

    method ClearCart()
      modifies this
      ensures items == []
      ensures Total(items) == 0 && ItemCount(items) == 0
    {
      items := [];
    }
  }

  // ---------------------------------------------------------------------------
  // addItem

  /**
   * Adding a product that is already in the cart raises that entry's quantity
   * by exactly the amount added; the length and every other entry are unchanged.
   */
  lemma AddExistingIncrements(items: seq<CartItem>, producto: Producto, cantidad: int, k: int)
    requires UniqueIds(items)
    requires 0 <= k < |items| && items[k].producto.id == producto.id
    ensures |Added(items, producto, cantidad)| == |items|
    ensures Added(items, producto, cantidad)[k]
      == CartItem(items[k].producto, items[k].cantidad + cantidad)
    ensures forall j :: 0 <= j < |items| && j != k ==> Added(items, producto, cantidad)[j] == items[j]
  {
  }

  /** Adding a product not in the cart appends one entry at the end and keeps the others. */
  lemma AddNewAppends(items: seq<CartItem>, producto: Producto, cantidad: int)
    requires !HasProduct(items, producto.id)
    ensures |Added(items, producto, cantidad)| == |items| + 1
    ensures Added(items, producto, cantidad)[..|items|] == items
    ensures Added(items, producto, cantidad)[|items|] == CartItem(producto, cantidad)
  {
  }

  /** Two adds of the same new product give a single entry holding the sum of the amounts. */
  lemma AddTwiceMerges(items: seq<CartItem>, producto: Producto, a: int, b: int)
    requires !HasProduct(items, producto.id)
    ensures Added(Added(items, producto, a), producto, b) == items + [CartItem(producto, a + b)]
  {
    var once := Added(items, producto, a);
    assert once == items + [CartItem(producto, a)];
    assert once[|items|].producto.id == producto.id;
    var twice := Bumped(once, producto.id, b);
    forall j | 0 <= j < |twice|
      ensures twice[j] == (items + [CartItem(producto, a + b)])[j]
    {
      if j < |items| {
        assert items[j].producto.id != producto.id;
      }
    }
  }

  /**
   * Whether or not the product is already in the cart, adding `a` and then
   * `b` units leaves the same cart as adding `a + b` units at once.
   */
  lemma AddTwiceAddsSum(items: seq<CartItem>, producto: Producto, a: int, b: int)
    ensures Added(Added(items, producto, a), producto, b) == Added(items, producto, a + b)
  {
    if HasProduct(items, producto.id) {
      var k :| 0 <= k < |items| && items[k].producto.id == producto.id;
      var once := Bumped(items, producto.id, a);
      assert once[k].producto.id == producto.id;
      var twice := Bumped(once, producto.id, b);
      var sum := Bumped(items, producto.id, a + b);
      assert |twice| == |sum|;
      forall j | 0 <= j < |twice|
        ensures twice[j] == sum[j]
      {
      }
    } else {
      AddTwiceMerges(items, producto, a, b);
    }
  }

  /** `addItem` keeps product ids unique. */
  lemma AddPreservesUnique(items: seq<CartItem>, producto: Producto, cantidad: int)
    requires UniqueIds(items)
    ensures UniqueIds(Added(items, producto, cantidad))
  {
  }

  /** Adding at least one unit keeps every quantity positive. */
  lemma AddPreservesPositive(items: seq<CartItem>, producto: Producto, cantidad: int)
    requires PositiveQuantities(items) && cantidad >= 1
    ensures PositiveQuantities(Added(items, producto, cantidad))
  {
  }

  // ---------------------------------------------------------------------------
  // removeItem

  /**
   * After `removeItem(id)` no entry has that id, the remaining entries keep
   * their order, every entry with another id survives, and removing an id that
   * is absent changes nothing.
   */
  lemma RemoveProperties(items: seq<CartItem>, id: string)
    ensures !HasProduct(Removed(items, id), id)
    ensures Seqs.IsSubsequence(Removed(items, id), items)
    ensures forall x :: x in items && x.producto.id != id ==> x in Removed(items, id)
    ensures !HasProduct(items, id) ==> Removed(items, id) == items
  {
    var keep := (item: CartItem) => item.producto.id != id;
    Seqs.FilterIsSubsequence(items, keep);
    var r := Removed(items, id);
    forall i | 0 <= i < |r| ensures r[i].producto.id != id {
      assert r[i] in r;
    }
    if !HasProduct(items, id) {
      Seqs.FilterKeepsAll(items, keep);
    }
  }

  /** A subsequence of a cart with unique ids has unique ids. */
  lemma {:induction false} FilterPreservesUnique(items: seq<CartItem>, keep: CartItem -> bool)
    requires UniqueIds(items)
    ensures UniqueIds(Seqs.Filter(items, keep))
    decreases |items|
  {
    if |items| > 0 {
      FilterPreservesUnique(items[1..], keep);
      var rest := Seqs.Filter(items[1..], keep);
      forall x | x in rest ensures x.producto.id != items[0].producto.id {
        var j :| 0 <= j < |items[1..]| && items[1..][j] == x;
        assert items[j + 1] == x;
      }
      if keep(items[0]) {
        var r := [items[0]] + rest;
        forall i, j | 0 <= i < j < |r| ensures r[i].producto.id != r[j].producto.id {
          if i == 0 {
            assert r[j] in rest;
          } else {
            assert r[i] == rest[i - 1] && r[j] == rest[j - 1];
          }
        }
      }
    }
  }

  /** `removeItem` keeps product ids unique. */
  lemma RemovePreservesUnique(items: seq<CartItem>, id: string)
    requires UniqueIds(items)
    ensures UniqueIds(Removed(items, id))
  {
    FilterPreservesUnique(items, (item: CartItem) => item.producto.id != id);
  }

  /** `removeItem` keeps every quantity positive. */
  lemma RemovePreservesPositive(items: seq<CartItem>, id: string)
    requires PositiveQuantities(items)
    ensures PositiveQuantities(Removed(items, id))
  {
    var r := Removed(items, id);
    forall i | 0 <= i < |r| ensures r[i].cantidad >= 1 {
      assert r[i] in r;
      var j :| 0 <= j < |items| && items[j] == r[i];
    }
  }

  // ---------------------------------------------------------------------------
  // updateQuantity

  /**
   * A positive quantity overwrites the quantity of the matching entry only;
   * the length and every other entry are unchanged.
   */
  lemma SetQuantityOverwrites(items: seq<CartItem>, id: string, cantidad: int)
    requires cantidad > 0
    ensures |WithQuantity(items, id, cantidad)| == |items|
    ensures forall j :: 0 <= j < |items| && items[j].producto.id == id ==>
      WithQuantity(items, id, cantidad)[j] == CartItem(items[j].producto, cantidad)
    ensures forall j :: 0 <= j < |items| && items[j].producto.id != id ==>
      WithQuantity(items, id, cantidad)[j] == items[j]
  {
  }

  /** `updateQuantity` keeps product ids unique. */
  lemma SetQuantityPreservesUnique(items: seq<CartItem>, id: string, cantidad: int)
    requires UniqueIds(items)
    ensures UniqueIds(WithQuantity(items, id, cantidad))
  {
    if cantidad <= 0 {
      RemovePreservesUnique(items, id);
    }
  }

  /** `updateQuantity` keeps every quantity positive: a value below one removes the entry. */
  lemma SetQuantityPreservesPositive(items: seq<CartItem>, id: string, cantidad: int)
    requires PositiveQuantities(items)
    ensures PositiveQuantities(WithQuantity(items, id, cantidad))
  {
    if cantidad <= 0 {
      RemovePreservesPositive(items, id);
    }
  }

  // ---------------------------------------------------------------------------
  // getTotal and getItemCount

  /** The total of a concatenation is the sum of the totals; an empty cart totals 0. */
  lemma {:induction false} TotalAppend(a: seq<CartItem>, b: seq<CartItem>)
    ensures Total([]) == 0
    ensures Total(a + b) == Total(a) + Total(b)
    decreases |b|
  {
    if |b| > 0 {
      TotalAppend(a, b[..|b| - 1]);
      assert (a + b)[..|a + b| - 1] == a + b[..|b| - 1];
    } else {
      assert a + b == a;
    }
  }

  /** The item count of a concatenation is the sum of the counts; an empty cart counts 0. */
  lemma {:induction false} ItemCountAppend(a: seq<CartItem>, b: seq<CartItem>)
    ensures ItemCount([]) == 0
    ensures ItemCount(a + b) == ItemCount(a) + ItemCount(b)
    decreases |b|
  {
    if |b| > 0 {
      ItemCountAppend(a, b[..|b| - 1]);
      assert (a + b)[..|a + b| - 1] == a + b[..|b| - 1];
    } else {
      assert a + b == a;
    }
  }

  /** A cart whose quantities are all positive has an item count of at least its length. */
  lemma {:induction false} ItemCountAtLeastLength(items: seq<CartItem>)
    requires PositiveQuantities(items)
    ensures ItemCount(items) >= |items|
    decreases |items|
  {
    if |items| > 0 {
      ItemCountAtLeastLength(items[..|items| - 1]);
    }
  }

  /** Total and item count split around any position k. */
  lemma SplitTotals(items: seq<CartItem>, k: int)
    requires 0 <= k < |items|
    ensures Total(items) == Total(items[..k]) + LineTotal(items[k]) + Total(items[k + 1..])
    ensures ItemCount(items) == ItemCount(items[..k]) + items[k].cantidad + ItemCount(items[k + 1..])
  {
    var pre, mid, post := items[..k], [items[k]], items[k + 1..];
    assert items == pre + mid + post;
    TotalAppend(pre + mid, post);
    TotalAppend(pre, mid);
    ItemCountAppend(pre + mid, post);
    ItemCountAppend(pre, mid);
    assert mid[..0] == [];
  }

  /** Raising an entry's quantity by delta raises its line total by delta unit prices. */
  lemma LineTotalBump(item: CartItem, delta: int)
    ensures LineTotal(item.(cantidad := item.cantidad + delta))
      == LineTotal(item) + item.producto.precioVenta * delta
  {
    var p := item.producto.precioVenta;
    assert p * (item.cantidad + delta) == p * item.cantidad + p * delta;
  }

  /** Bumping the only entry with its id changes that entry alone. */
  lemma BumpedShape(items: seq<CartItem>, id: string, delta: int, k: int)
    requires 0 <= k < |items| && items[k].producto.id == id
    requires forall j :: 0 <= j < |items| && j != k ==> items[j].producto.id != id
    ensures |Bumped(items, id, delta)| == |items|
    ensures Bumped(items, id, delta)[..k] == items[..k]
    ensures Bumped(items, id, delta)[k + 1..] == items[k + 1..]
    ensures Bumped(items, id, delta)[k] == items[k].(cantidad := items[k].cantidad + delta)
  {
    var r := Bumped(items, id, delta);
    forall i | 0 <= i < |items| && i != k
      ensures r[i] == items[i]
    {
    }
    assert r[..k] == items[..k];
    assert r[k + 1..] == items[k + 1..];
  }

  /** Two carts that differ only in the quantity at k differ in count and total by that entry alone. */
  lemma ChangedAtTotals(a: seq<CartItem>, b: seq<CartItem>, k: int, delta: int)
    requires 0 <= k < |a| == |b|
    requires b[..k] == a[..k] && b[k + 1..] == a[k + 1..]
    requires b[k] == a[k].(cantidad := a[k].cantidad + delta)
    ensures ItemCount(b) == ItemCount(a) + delta
    ensures Total(b) == Total(a) + a[k].producto.precioVenta * delta
  {
    SplitTotals(a, k);
    SplitTotals(b, k);
    LineTotalBump(a[k], delta);
  }

  /** Raising the entry at k, the only one with its id, changes the totals by that entry alone. */
  lemma BumpedTotals(items: seq<CartItem>, id: string, delta: int, k: int)
    requires 0 <= k < |items| && items[k].producto.id == id
    requires forall j :: 0 <= j < |items| && j != k ==> items[j].producto.id != id
    ensures ItemCount(Bumped(items, id, delta)) == ItemCount(items) + delta
    ensures Total(Bumped(items, id, delta)) == Total(items) + items[k].producto.precioVenta * delta
  {
    BumpedShape(items, id, delta, k);
    ChangedAtTotals(items, Bumped(items, id, delta), k, delta);
  }

  /** Adding to an existing entry at k adds that entry's unit price times the amount. */
  lemma AddedTotalsExisting(items: seq<CartItem>, producto: Producto, cantidad: int, k: int)
    requires 0 <= k < |items| && items[k].producto.id == producto.id
    requires forall j :: 0 <= j < |items| && j != k ==> items[j].producto.id != producto.id
    ensures ItemCount(Added(items, producto, cantidad)) == ItemCount(items) + cantidad
    ensures Total(Added(items, producto, cantidad)) == Total(items) + items[k].producto.precioVenta * cantidad
  {
    assert HasProduct(items, producto.id);
    BumpedTotals(items, producto.id, cantidad, k);
  }

  /** Adding a new product adds its unit price times the amount. */
  lemma AddedTotalsNew(items: seq<CartItem>, producto: Producto, cantidad: int)
    requires !HasProduct(items, producto.id)
    ensures ItemCount(Added(items, producto, cantidad)) == ItemCount(items) + cantidad
    ensures Total(Added(items, producto, cantidad)) == Total(items) + producto.precioVenta * cantidad
  {
    var added := [CartItem(producto, cantidad)];
    TotalAppend(items, added);
    ItemCountAppend(items, added);
    assert added[..0] == [];
  }

  /** With unique ids, `addItem` raises the item count by the amount added and the total by that many unit prices. */
  lemma AddedTotals(items: seq<CartItem>, producto: Producto, cantidad: int)
    requires UniqueIds(items)
    ensures ItemCount(Added(items, producto, cantidad)) == ItemCount(items) + cantidad
    ensures !HasProduct(items, producto.id) ==>
      Total(Added(items, producto, cantidad)) == Total(items) + producto.precioVenta * cantidad
    ensures forall k :: 0 <= k < |items| && items[k].producto.id == producto.id ==>
      Total(Added(items, producto, cantidad)) == Total(items) + items[k].producto.precioVenta * cantidad
  {
    if HasProduct(items, producto.id) {
      forall k | 0 <= k < |items| && items[k].producto.id == producto.id
        ensures ItemCount(Added(items, producto, cantidad)) == ItemCount(items) + cantidad
        ensures Total(Added(items, producto, cantidad)) == Total(items) + items[k].producto.precioVenta * cantidad
      {
        AddedTotalsExisting(items, producto, cantidad, k);
      }
    } else {
      AddedTotalsNew(items, producto, cantidad);
    }
  }

  /** With unique ids, removing the entry at k leaves exactly the entries before and after it. */
  lemma RemovedAt(items: seq<CartItem>, k: int)
    requires UniqueIds(items) && 0 <= k < |items|
    ensures Removed(items, items[k].producto.id) == items[..k] + items[k + 1..]
  {
    var id := items[k].producto.id;
    var keep := (item: CartItem) => item.producto.id != id;
    forall i | 0 <= i < |items| && i != k
      ensures keep(items[i])
    {
      if i < k {
        assert items[i].producto.id != items[k].producto.id;
      } else {
        assert items[k].producto.id != items[i].producto.id;
      }
    }
    Seqs.FilterDropsOne(items, keep, k);
  }

  /** With unique ids, removing an entry lowers the count by its quantity and the total by its line total. */
  lemma RemovedTotals(items: seq<CartItem>, k: int)
    requires UniqueIds(items) && 0 <= k < |items|
    ensures ItemCount(Removed(items, items[k].producto.id)) == ItemCount(items) - items[k].cantidad
    ensures Total(Removed(items, items[k].producto.id)) == Total(items) - LineTotal(items[k])
  {
    RemovedAt(items, k);
    SplitTotals(items, k);
    TotalAppend(items[..k], items[k + 1..]);
    ItemCountAppend(items[..k], items[k + 1..]);
  }

  /** A cleared cart totals 0 and counts 0 items. */
  lemma ClearedTotals()
    ensures Total([]) == 0 && ItemCount([]) == 0
  {
  }
}
