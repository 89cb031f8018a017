/**
 * The client-side shopping cart (utils/store.ts).
 *
 * The store holds one piece of state, the ordered list `items` of cart lines.
 * Each mutation replaces that list with a new one built from the old one;
 * the pure functions below say how (AddedItems, RemovedItems, UpdatedItems),
 * and the class CartStore performs the replacement. The total and the item
 * count are derived on demand and never stored.
 */
module Cart {
  import opened Wrappers

  /** One cart line. Only `quantity` changes once the line exists; the rest is
      the product as it looked when the line was first added. */
  datatype CartItem = CartItem(id: string, name: string, price: int, quantity: int, imageUrl: Option<string>)

  /** What a caller hands to addItem: a cart line without its quantity. */
  datatype NewItem = NewItem(id: string, name: string, price: int, imageUrl: Option<string>)

  /** The line addItem appends for a product not yet in the cart. */
  function NewLine(item: NewItem): CartItem {
    CartItem(item.id, item.name, item.price, 1, item.imageUrl)
  }

  predicate HasId(items: seq<CartItem>, id: string) {
    exists i :: 0 <= i < |items| && items[i].id == id
  }

  /** At most one line per product id. */
  predicate UniqueIds(items: seq<CartItem>) {
    forall i, j :: 0 <= i < j < |items| ==> items[i].id != items[j].id
  }

  /** No line with a quantity of zero or less. */
  predicate PositiveQuantities(items: seq<CartItem>) {
    forall i :: 0 <= i < |items| ==> items[i].quantity >= 1
  }

  /** The invariant every reachable cart satisfies. */
  predicate WellFormed(items: seq<CartItem>) {
    UniqueIds(items) && PositiveQuantities(items)
  }

  /** Two lines agree on everything captured when the line was created. */
  predicate SameSnapshot(a: CartItem, b: CartItem) {
    a.id == b.id && a.name == b.name && a.price == b.price && a.imageUrl == b.imageUrl
  }

  /** The first line with the given id, as `Array.prototype.find` returns it. */
  function Find(items: seq<CartItem>, id: string): (r: Option<CartItem>)
    ensures r.Some? <==> HasId(items, id)
    ensures r.Some? ==> r.value in items && r.value.id == id
    // The match returned is the earliest one: no line before it carries the id.
    ensures r.Some? ==> exists k :: 0 <= k < |items| && items[k] == r.value
                          && forall j :: 0 <= j < k ==> items[j].id != id
  {
    if items == [] then None
    else if items[0].id == id then Some(items[0])
    else
      assert forall i :: 1 <= i < |items| ==> items[i] == items[1..][i - 1];
      Find(items[1..], id)
  }

  /** Every line with the given id, one unit more. */
  function IncrementQuantity(items: seq<CartItem>, id: string): seq<CartItem> {
    seq(|items|, i requires 0 <= i < |items| =>
      if items[i].id == id then items[i].(quantity := items[i].quantity + 1) else items[i])
  }

  /** Every line with the given id, set to `quantity`. */
  function SetQuantity(items: seq<CartItem>, id: string, quantity: int): seq<CartItem> {
    seq(|items|, i requires 0 <= i < |items| =>
      if items[i].id == id then items[i].(quantity := quantity) else items[i])
  }

  /** The cart after addItem(item). */
  function AddedItems(items: seq<CartItem>, item: NewItem): (r: seq<CartItem>)
    // A product already in the cart: same lines, same snapshots, one more unit of that product.
    ensures HasId(items, item.id) ==>
      && |r| == |items|
      && (forall i :: 0 <= i < |items| ==> SameSnapshot(r[i], items[i]))
      && (forall i :: 0 <= i < |items| && items[i].id == item.id ==> r[i].quantity == items[i].quantity + 1)
      && (forall i :: 0 <= i < |items| && items[i].id != item.id ==> r[i] == items[i])
    // A new product: the old lines untouched, one line of quantity 1 at the end.
    ensures !HasId(items, item.id) ==>
      && |r| == |items| + 1
      && r[..|items|] == items
      && r[|items|] == NewLine(item)
  {
    if Find(items, item.id).Some? then IncrementQuantity(items, item.id)
    else items + [NewLine(item)]
  }

  /** The cart after removeItem(id): every line of another product, in the old order. */
  function RemovedItems(items: seq<CartItem>, id: string): (r: seq<CartItem>)
    ensures forall line :: line in r <==> line in items && line.id != id
    ensures !HasId(r, id)
    ensures |r| <= |items|
    ensures !HasId(items, id) ==> r == items
  {
    if items == [] then []
    else
      assert forall i :: 1 <= i < |items| ==> items[i] == items[1..][i - 1];
      if items[0].id == id then RemovedItems(items[1..], id)
      else [items[0]] + RemovedItems(items[1..], id)
  }

  /** The cart after updateQuantity(id, quantity). */
  function UpdatedItems(items: seq<CartItem>, id: string, quantity: int): (r: seq<CartItem>)
    // Zero or less removes the product, exactly as removeItem does.
    ensures quantity <= 0 ==> r == RemovedItems(items, id)
    // Otherwise only that product's quantity changes, to the value given.
    ensures quantity > 0 ==>
      && |r| == |items|
      && (forall i :: 0 <= i < |items| ==> SameSnapshot(r[i], items[i]))
      && (forall i :: 0 <= i < |items| && items[i].id == id ==> r[i].quantity == quantity)
      && (forall i :: 0 <= i < |items| && items[i].id != id ==> r[i] == items[i])
    // Updating a product that is not in the cart does not create a line for it.
    ensures quantity > 0 && !HasId(items, id) ==> r == items
  {
    if quantity <= 0 then RemovedItems(items, id) else SetQuantity(items, id, quantity)
  }

  /** Σ f(line) over the lines, accumulated left to right as `reduce` does. */
  function Sum(items: seq<CartItem>, f: CartItem -> int): int {
    if items == [] then 0 else Sum(items[..|items| - 1], f) + f(items[|items| - 1])
  }

  function LineAmount(line: CartItem): int {
    line.price * line.quantity
  }

  function LineQuantity(line: CartItem): int {
    line.quantity
  }

  /** getTotalAmount: Σ price × quantity. */
  function TotalAmount(items: seq<CartItem>): int {
    Sum(items, LineAmount)
  }

  /** The header badge's number: Σ quantity. */
  function ItemCount(items: seq<CartItem>): int {
    Sum(items, LineQuantity)
  }

  /** A sequence of calls to the store's four mutations. */
  datatype Action = Add(item: NewItem) | Remove(id: string) | Update(id: string, quantity: int) | Clear

  function Apply(items: seq<CartItem>, a: Action): seq<CartItem> {
    match a
    case Add(item) => AddedItems(items, item)
    case Remove(id) => RemovedItems(items, id)
    case Update(id, quantity) => UpdatedItems(items, id, quantity)
    case Clear => []
  }

  function Run(items: seq<CartItem>, actions: seq<Action>): seq<CartItem>
    decreases |actions|
  {
    if actions == [] then items else Run(Apply(items, actions[0]), actions[1..])
  }

  // ---------------------------------------------------------------------------
  // Where the one line of a product sits, in a cart with unique ids.

  lemma IncrementAt(items: seq<CartItem>, k: int)
    requires UniqueIds(items) && 0 <= k < |items|
    ensures IncrementQuantity(items, items[k].id)
         == items[..k] + [items[k].(quantity := items[k].quantity + 1)] + items[k + 1..]
  {
    var r := IncrementQuantity(items, items[k].id);
    var s := items[..k] + [items[k].(quantity := items[k].quantity + 1)] + items[k + 1..];
    assert |r| == |s|;
    forall i | 0 <= i < |r| ensures r[i] == s[i] {
      if i < k {
        assert s[i] == items[i];
      } else if i > k {
        assert s[i] == items[i];
      }
    }
  }

  lemma SetQuantityAt(items: seq<CartItem>, k: int, quantity: int)
    requires UniqueIds(items) && 0 <= k < |items|
    ensures SetQuantity(items, items[k].id, quantity)
         == items[..k] + [items[k].(quantity := quantity)] + items[k + 1..]
  {
    var r := SetQuantity(items, items[k].id, quantity);
    var s := items[..k] + [items[k].(quantity := quantity)] + items[k + 1..];
    assert |r| == |s|;
    forall i | 0 <= i < |r| ensures r[i] == s[i] {
      if i < k {
        assert s[i] == items[i];
      } else if i > k {
        assert s[i] == items[i];
      }
    }
  }

  /** In a cart with unique ids, removeItem cuts out exactly the one line and keeps
      the order of the others. */
  lemma {:induction false} RemoveAt(items: seq<CartItem>, k: int)
    requires UniqueIds(items) && 0 <= k < |items|
    ensures RemovedItems(items, items[k].id) == items[..k] + items[k + 1..]
  {
    var tail := items[1..];
    UniqueIdsTail(items);
    if k == 0 {
      RemoveHead(items);
    } else {
      var id := items[k].id;
      assert tail[k - 1] == items[k];
      assert items[0].id != id;
      calc {
        RemovedItems(items, id);
        [items[0]] + RemovedItems(tail, id);
        { RemoveAt(tail, k - 1); }
        [items[0]] + (tail[..k - 1] + tail[k..]);
        { assert [items[0]] + tail[..k - 1] == items[..k] && tail[k..] == items[k + 1..]; }
        items[..k] + items[k + 1..];
      }
    }
  }

  lemma RemoveHead(items: seq<CartItem>)
    requires UniqueIds(items) && items != []
    ensures RemovedItems(items, items[0].id) == items[1..]
  {
    var tail := items[1..];
    HeadIdNotInTail(items);
    assert !HasId(tail, items[0].id) by {
      forall i | 0 <= i < |tail| ensures tail[i].id != items[0].id {
        assert tail[i] in tail;
      }
    }
  }

  /** removeItem on a single line: the line is dropped exactly when it carries the id. */
  lemma RemovedItemsSingle(line: CartItem, id: string)
    ensures RemovedItems([line], id) == if line.id == id then [] else [line]
  {
    assert [line][1..] == [];
  }

  /** removeItem works line by line, as `filter` does: removing from a concatenation is
      removing from each part, with the parts kept in their order. With RemovedItemsSingle
      this fixes the result, order and duplicates included, for every cart. */
  lemma {:induction false} RemovedItemsAppend(a: seq<CartItem>, b: seq<CartItem>, id: string)
    ensures RemovedItems(a + b, id) == RemovedItems(a, id) + RemovedItems(b, id)
  {
    if a == [] {
      assert a + b == b;
    } else {
      assert (a + b)[1..] == a[1..] + b;
      RemovedItemsAppend(a[1..], b, id);
    }
  }

  // ---------------------------------------------------------------------------
  // The invariant: every mutation keeps ids unique and quantities at least 1.

  lemma AddItemKeepsWellFormed(items: seq<CartItem>, item: NewItem)
    requires WellFormed(items)
    ensures WellFormed(AddedItems(items, item))
  {
    var r := AddedItems(items, item);
    if !HasId(items, item.id) {
      forall i, j | 0 <= i < j < |r| ensures r[i].id != r[j].id {
        if j == |items| {
          assert r[i] == items[i];
        } else {
          assert r[i] == items[i] && r[j] == items[j];
        }
      }
    }
  }

  lemma UniqueIdsTail(items: seq<CartItem>)
    requires UniqueIds(items) && items != []
    ensures UniqueIds(items[1..])
  {
    var tail := items[1..];
    forall i, j | 0 <= i < j < |tail| ensures tail[i].id != tail[j].id {
      assert tail[i] == items[i + 1] && tail[j] == items[j + 1];
    }
  }

  lemma HeadIdNotInTail(items: seq<CartItem>)
    requires UniqueIds(items) && items != []
    ensures forall line :: line in items[1..] ==> line.id != items[0].id
  {
    var tail := items[1..];
    forall line | line in tail ensures line.id != items[0].id {
      var m :| 0 <= m < |tail| && tail[m] == line;
      assert tail[m] == items[m + 1];
    }
  }

  lemma {:induction false} RemoveItemKeepsUniqueIds(items: seq<CartItem>, id: string)
    requires UniqueIds(items)
    ensures UniqueIds(RemovedItems(items, id))
  {
    if items != [] {
      var tail := items[1..];
      UniqueIdsTail(items);
      HeadIdNotInTail(items);
      RemoveItemKeepsUniqueIds(tail, id);
      if items[0].id != id {
        var rest := RemovedItems(tail, id);
        var r := [items[0]] + rest;
        forall i, j | 0 <= i < j < |r| ensures r[i].id != r[j].id {
          assert r[j] == rest[j - 1] && r[j] in tail;
          if i > 0 {
            assert r[i] == rest[i - 1];
          }
        }
      }
    }
  }

  lemma RemoveItemKeepsWellFormed(items: seq<CartItem>, id: string)
    requires WellFormed(items)
    ensures WellFormed(RemovedItems(items, id))
  {
    RemoveItemKeepsUniqueIds(items, id);
    var r := RemovedItems(items, id);
    forall i | 0 <= i < |r| ensures r[i].quantity >= 1 {
      assert r[i] in items;
    }
  }

  lemma UpdateQuantityKeepsWellFormed(items: seq<CartItem>, id: string, quantity: int)
    requires WellFormed(items)
    ensures WellFormed(UpdatedItems(items, id, quantity))
  {
    if quantity <= 0 {
      RemoveItemKeepsWellFormed(items, id);
    } else {
      var r := UpdatedItems(items, id, quantity);
      assert forall i :: 0 <= i < |r| ==> r[i].id == items[i].id;
    }
  }

  lemma ApplyKeepsWellFormed(items: seq<CartItem>, a: Action)
    requires WellFormed(items)
    ensures WellFormed(Apply(items, a))
  {
    match a
    case Add(item) => AddItemKeepsWellFormed(items, item);
    case Remove(id) => RemoveItemKeepsWellFormed(items, id);
    case Update(id, quantity) => UpdateQuantityKeepsWellFormed(items, id, quantity);
    case Clear =>
  }

  /** Whatever the store is asked to do, starting from a well-formed cart (the empty
      one in particular), it never holds two lines of one product or a line of
      quantity zero or less. */
  lemma {:induction false} RunKeepsWellFormed(items: seq<CartItem>, actions: seq<Action>)
    requires WellFormed(items)
    ensures WellFormed(Run(items, actions))
    decreases |actions|
  {
    if actions != [] {
      ApplyKeepsWellFormed(items, actions[0]);
      RunKeepsWellFormed(Apply(items, actions[0]), actions[1..]);
    }
  }

  // ---------------------------------------------------------------------------
  // Sums over the lines.

  lemma {:induction false} SumAppend(a: seq<CartItem>, b: seq<CartItem>, f: CartItem -> int)
    ensures Sum(a + b, f) == Sum(a, f) + Sum(b, f)
  {
    if b == [] {
      assert a + b == a;
    } else {
      assert (a + b)[..|a + b| - 1] == a + b[..|b| - 1];
      SumAppend(a, b[..|b| - 1], f);
    }
  }

  lemma SumSingle(line: CartItem, f: CartItem -> int)
    ensures Sum([line], f) == f(line)
  {
    assert [line][..0] == [];
  }

  lemma SumSplice(pre: seq<CartItem>, line: CartItem, post: seq<CartItem>, f: CartItem -> int)
    ensures Sum(pre + [line] + post, f) == Sum(pre, f) + f(line) + Sum(post, f)
  {
    SumAppend(pre + [line], post, f);
    SumAppend(pre, [line], f);
    SumSingle(line, f);
  }

  lemma SumSplitAt(items: seq<CartItem>, k: int, f: CartItem -> int)
    requires 0 <= k < |items|
    ensures Sum(items, f) == Sum(items[..k], f) + f(items[k]) + Sum(items[k + 1..], f)
  {
    assert items == items[..k] + [items[k]] + items[k + 1..];
    SumSplice(items[..k], items[k], items[k + 1..], f);
  }

  lemma SumReplaceAt(items: seq<CartItem>, k: int, line: CartItem, f: CartItem -> int)
    requires 0 <= k < |items|
    ensures Sum(items[..k] + [line] + items[k + 1..], f) == Sum(items, f) - f(items[k]) + f(line)
  {
    SumSplice(items[..k], line, items[k + 1..], f);
    SumSplitAt(items, k, f);
  }

  lemma SumRemoveAt(items: seq<CartItem>, k: int, f: CartItem -> int)
    requires 0 <= k < |items|
    ensures Sum(items[..k] + items[k + 1..], f) == Sum(items, f) - f(items[k])
  {
    SumAppend(items[..k], items[k + 1..], f);
    SumSplitAt(items, k, f);
  }

  // ---------------------------------------------------------------------------
  // getTotalAmount and the item count under each mutation.

  /** With no negative prices and no line below quantity 1, the total is never negative. */
  lemma {:induction false} TotalAmountNonNegative(items: seq<CartItem>)
    requires PositiveQuantities(items)
    requires forall i :: 0 <= i < |items| ==> items[i].price >= 0
    ensures TotalAmount(items) >= 0
  {
    if items != [] {
      var init := items[..|items| - 1];
      assert forall i :: 0 <= i < |init| ==> init[i] == items[i];
      TotalAmountNonNegative(init);
      var last := items[|items| - 1];
      assert LineAmount(last) >= 0 by {
        assert last.price >= 0 && last.quantity >= 1;
      }
    }
  }

  lemma OneMoreUnit(line: CartItem)
    ensures LineAmount(line.(quantity := line.quantity + 1)) == LineAmount(line) + line.price
  {
    assert line.price * (line.quantity + 1) == line.price * line.quantity + line.price;
  }

  /** addItem of a product already in the cart raises the total by the price stored
      in its line; the incoming price plays no part. */
  lemma TotalAfterAddExisting(items: seq<CartItem>, k: int, item: NewItem)
    requires UniqueIds(items) && 0 <= k < |items| && items[k].id == item.id
    ensures TotalAmount(AddedItems(items, item)) == TotalAmount(items) + items[k].price
  {
    var line := items[k].(quantity := items[k].quantity + 1);
    assert Find(items, item.id).Some? by {
      assert HasId(items, item.id);
    }
    calc {
      TotalAmount(AddedItems(items, item));
      Sum(IncrementQuantity(items, items[k].id), LineAmount);
      { IncrementAt(items, k); }
      Sum(items[..k] + [line] + items[k + 1..], LineAmount);
      { SumReplaceAt(items, k, line, LineAmount); }
      TotalAmount(items) - LineAmount(items[k]) + LineAmount(line);
      { OneMoreUnit(items[k]); }
      TotalAmount(items) + items[k].price;
    }
  }

  /** addItem of a product not in the cart raises the total by the incoming price. */
  lemma TotalAfterAddNew(items: seq<CartItem>, item: NewItem)
    requires !HasId(items, item.id)
    ensures TotalAmount(AddedItems(items, item)) == TotalAmount(items) + item.price
  {
    assert AddedItems(items, item) == items + [NewLine(item)];
    SumAppend(items, [NewLine(item)], LineAmount);
    SumSingle(NewLine(item), LineAmount);
  }

  /** removeItem lowers the total by exactly the removed line's amount. */
  lemma TotalAfterRemove(items: seq<CartItem>, k: int)
    requires UniqueIds(items) && 0 <= k < |items|
    ensures TotalAmount(RemovedItems(items, items[k].id)) == TotalAmount(items) - items[k].price * items[k].quantity
  {
    RemoveAt(items, k);
    SumRemoveAt(items, k, LineAmount);
  }

  /** updateQuantity with a positive quantity replaces the line's amount by price × new quantity. */
  lemma TotalAfterUpdate(items: seq<CartItem>, k: int, quantity: int)
    requires UniqueIds(items) && 0 <= k < |items| && quantity > 0
    ensures TotalAmount(UpdatedItems(items, items[k].id, quantity))
         == TotalAmount(items) - items[k].price * items[k].quantity + items[k].price * quantity
  {
    SetQuantityAt(items, k, quantity);
    SumReplaceAt(items, k, items[k].(quantity := quantity), LineAmount);
  }

  /** Each addItem raises the header badge by exactly one. */
  lemma ItemCountAfterAdd(items: seq<CartItem>, item: NewItem)
    requires UniqueIds(items)
    ensures ItemCount(AddedItems(items, item)) == ItemCount(items) + 1
  {
    if HasId(items, item.id) {
      var k :| 0 <= k < |items| && items[k].id == item.id;
      IncrementAt(items, k);
      SumReplaceAt(items, k, items[k].(quantity := items[k].quantity + 1), LineQuantity);
    } else {
      SumAppend(items, [NewLine(item)], LineQuantity);
      SumSingle(NewLine(item), LineQuantity);
    }
  }

  /** removeItem lowers the header badge by the removed line's quantity. */
  lemma ItemCountAfterRemove(items: seq<CartItem>, k: int)
    requires UniqueIds(items) && 0 <= k < |items|
    ensures ItemCount(RemovedItems(items, items[k].id)) == ItemCount(items) - items[k].quantity
  {
    RemoveAt(items, k);
    SumRemoveAt(items, k, LineQuantity);
  }

  /** updateQuantity with a positive quantity replaces the line's count on the badge by the new quantity. */
  lemma ItemCountAfterUpdate(items: seq<CartItem>, k: int, quantity: int)
    requires UniqueIds(items) && 0 <= k < |items| && quantity > 0
    ensures ItemCount(UpdatedItems(items, items[k].id, quantity)) == ItemCount(items) - items[k].quantity + quantity
  {
    SetQuantityAt(items, k, quantity);
    SumReplaceAt(items, k, items[k].(quantity := quantity), LineQuantity);
  }

  /** Every line counts at least once on the badge. */
  lemma {:induction false} ItemCountAtLeastLines(items: seq<CartItem>)
    requires PositiveQuantities(items)
    ensures ItemCount(items) >= |items|
  {
    if items != [] {
      var init := items[..|items| - 1];
      assert forall i :: 0 <= i < |init| ==> init[i] == items[i];
      ItemCountAtLeastLines(init);
    }
  }

  // ---------------------------------------------------------------------------
  // Worked cases.

  /** Lines priced 1000 × 2 and 2500 × 1 total 4500. */
  lemma TotalAmountExample()
    ensures TotalAmount([CartItem("a", "A", 1000, 2, None), CartItem("b", "B", 2500, 1, None)]) == 4500
  {
    var items := [CartItem("a", "A", 1000, 2, None), CartItem("b", "B", 2500, 1, None)];
    assert items[..1] == [items[0]];
    SumSingle(items[0], LineAmount);
  }

  /** Adding the same product twice gives one line of quantity 2 that keeps the first
      name, price and image, whatever the second call passed in. */
  lemma RepeatAddKeepsFirstSnapshot(first: NewItem, again: NewItem)
    requires first.id == again.id
    ensures AddedItems(AddedItems([], first), again) == [NewLine(first).(quantity := 2)]
  {
    var once := AddedItems([], first);
    assert once == [NewLine(first)];
    assert HasId(once, again.id);
  }

  /** Add a mug twice, then set its quantity to 0: totals 1200, 2400, and an empty cart. */
  lemma MugScenario()
    ensures var mug := NewItem("p1", "Mug", 1200, None);
      && TotalAmount(AddedItems([], mug)) == 1200
      && AddedItems(AddedItems([], mug), mug) == [CartItem("p1", "Mug", 1200, 2, None)]
      && TotalAmount(AddedItems(AddedItems([], mug), mug)) == 2400
      && UpdatedItems(AddedItems(AddedItems([], mug), mug), "p1", 0) == []
  {
    var mug := NewItem("p1", "Mug", 1200, None);
    RepeatAddKeepsFirstSnapshot(mug, mug);
    var once := AddedItems([], mug);
    var twice := AddedItems(once, mug);
    assert once == [NewLine(mug)];
    SumSingle(NewLine(mug), LineAmount);
    SumSingle(twice[0], LineAmount);
    assert UniqueIds(twice);
    RemoveAt(twice, 0);
  }

  /** removeItem of the first of two products leaves only the second. */
  lemma AddAddRemoveExample(p1: NewItem, p2: NewItem)
    requires p1.id != p2.id
    ensures RemovedItems(AddedItems(AddedItems([], p1), p2), p1.id) == [NewLine(p2)]
  {
    var once := AddedItems([], p1);
    assert once == [NewLine(p1)];
    assert !HasId(once, p2.id);
    var twice := AddedItems(once, p2);
    assert twice == [NewLine(p1), NewLine(p2)];
    assert UniqueIds(twice);
    RemoveAt(twice, 0);
  }

  // ---------------------------------------------------------------------------

  /** The store: one field, `items`, replaced by each mutation. */
  class CartStore {
    var items: seq<CartItem>

    ghost predicate Valid()
      reads this
    {
      WellFormed(items)
    }

    /** A fresh store holds the empty cart. */
    constructor ()
      ensures items == [] && Valid()
    {
      items := [];
    }

    method AddItem(item: NewItem)
      modifies this
      ensures items == AddedItems(old(items), item)
      ensures old(Valid()) ==> Valid()
    {
      var currentItems := items;
      var existingItem := Find(currentItems, item.id);
      if existingItem.Some? {
        items := IncrementQuantity(currentItems, item.id);
      } else {
        items := currentItems + [NewLine(item)];
      }
      ghost var wasValid := WellFormed(currentItems);
      if wasValid {
        AddItemKeepsWellFormed(currentItems, item);
      }
    }

    method RemoveItem(id: string)
      modifies this
      ensures items == RemovedItems(old(items), id)
      ensures old(Valid()) ==> Valid()
    {
      ghost var wasValid := WellFormed(items);
      if wasValid {
        RemoveItemKeepsWellFormed(items, id);
      }
      items := RemovedItems(items, id);
    }

    method UpdateQuantity(id: string, quantity: int)
      modifies this
      ensures items == UpdatedItems(old(items), id, quantity)
      ensures old(Valid()) ==> Valid()
    {
      if quantity <= 0 {
        RemoveItem(id);
      } else {
        ghost var wasValid := WellFormed(items);
        if wasValid {
          UpdateQuantityKeepsWellFormed(items, id, quantity);
        }
        items := SetQuantity(items, id, quantity);
      }
    }

    method ClearCart()
      modifies this
      ensures items == [] && Valid()
      ensures TotalAmount(items) == 0 && ItemCount(items) == 0
    {
      items := [];
    }

    /** getTotalAmount, derived from the current lines on every call. */
    function GetTotalAmount(): (r: int)
      reads this
      ensures r == TotalAmount(items)
    {
      TotalAmount(items)
    }
  }
}
