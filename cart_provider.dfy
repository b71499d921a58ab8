/** The cart line-item store (src/providers/CartProvider.tsx). A line is identified by the pair
    (menu item id, optional special instructions); the store keeps the lines in insertion order
    and a flag saying whether the cart panel is open. */
module CartProvider {
  import opened Wrappers
  import opened Seqs
  import opened Types

  /** The identity of a cart line. */
  datatype CartKey = CartKey(id: string, instructions: Option<string>)

  function KeyOf(item: CartItem): CartKey
  {
    CartKey(item.menuItem.id, item.specialInstructions)
  }

  predicate HasKey(items: seq<CartItem>, key: CartKey)
  {
    exists i :: 0 <= i < |items| && KeyOf(items[i]) == key
  }

  /** No two lines share a key. */
  predicate UniqueKeys(items: seq<CartItem>)
  {
    forall i, j :: 0 <= i < j < |items| ==> KeyOf(items[i]) != KeyOf(items[j])
  }

  /** The price of `quantity` units of `menuItem`. */
  function Cost(menuItem: MenuItem, quantity: int): real
  {
    menuItem.price * quantity as real
  }

  /** The price of one line: unit price × quantity. */
  function LineTotal(item: CartItem): real
  {
    Cost(item.menuItem, item.quantity)
  }

  /** Σ price × quantity, the value of `getCartTotal`. */
  function Subtotal(items: seq<CartItem>): real
  {
    if items == [] then 0.0 else Subtotal(items[..|items| - 1]) + LineTotal(items[|items| - 1])
  }

  /** Σ quantity, the value of `getCartItemsCount`. */
  function ItemCount(items: seq<CartItem>): int
  {
    if items == [] then 0 else ItemCount(items[..|items| - 1]) + items[|items| - 1].quantity
  }

  lemma {:induction false} SubtotalAppend(a: seq<CartItem>, b: seq<CartItem>)
    ensures Subtotal(a + b) == Subtotal(a) + Subtotal(b)
    decreases |b|
  {
    if b != [] {
      assert (a + b)[..|a + b| - 1] == a + b[..|b| - 1];
      SubtotalAppend(a, b[..|b| - 1]);
    } else {
      assert a + b == a;
    }
  }

  lemma {:induction false} ItemCountAppend(a: seq<CartItem>, b: seq<CartItem>)
    ensures ItemCount(a + b) == ItemCount(a) + ItemCount(b)
    decreases |b|
  {
    if b != [] {
      assert (a + b)[..|a + b| - 1] == a + b[..|b| - 1];
      ItemCountAppend(a, b[..|b| - 1]);
    } else {
      assert a + b == a;
    }
  }

  /** Both reductions split a cart at its first line. */
  lemma SumsAtHead(items: seq<CartItem>)
    requires items != []
    ensures Subtotal(items) == LineTotal(items[0]) + Subtotal(items[1..])
    ensures ItemCount(items) == items[0].quantity + ItemCount(items[1..])
  {
    assert items == [items[0]] + items[1..];
    SubtotalAppend([items[0]], items[1..]);
    ItemCountAppend([items[0]], items[1..]);
    assert [items[0]][..0] == [];
  }

  /** The lines whose key is `key` get their quantity replaced by `f` of it; all others stay. */
  function MapMatching(items: seq<CartItem>, key: CartKey, f: int -> int): (r: seq<CartItem>)
    ensures |r| == |items|
    ensures forall i :: 0 <= i < |items| ==>
      r[i] == if KeyOf(items[i]) == key then items[i].(quantity := f(items[i].quantity)) else items[i]
  {
    Map((item: CartItem) => if KeyOf(item) == key then item.(quantity := f(item.quantity)) else item, items)
  }

  /** The new cart after `addToCart(menuItem, quantity, specialInstructions)`. */
  function Added(items: seq<CartItem>, menuItem: MenuItem, quantity: int, instructions: Option<string>): (r: seq<CartItem>)
  {
    var key := CartKey(menuItem.id, instructions);
    if HasKey(items, key) then MapMatching(items, key, q => q + quantity)
    else items + [CartItem(menuItem, quantity, instructions)]
  }

  /** The new cart after `removeFromCart(id, specialInstructions)`. */
  function Removed(items: seq<CartItem>, key: CartKey): (r: seq<CartItem>)
  {
    Filter((item: CartItem) => KeyOf(item) != key, items)
  }

  /** The new cart after `updateQuantity(id, newQuantity, specialInstructions)`. */
  function WithQuantity(items: seq<CartItem>, key: CartKey, newQuantity: int): (r: seq<CartItem>)
  {
    if newQuantity <= 0 then Removed(items, key) else MapMatching(items, key, _ => newQuantity)
  }

  /** An existing key: the matching line gains exactly `quantity`; length and every other line
      are unchanged. */
  lemma AddExisting(items: seq<CartItem>, menuItem: MenuItem, quantity: int, instructions: Option<string>)
    requires HasKey(items, CartKey(menuItem.id, instructions))
    ensures var r := Added(items, menuItem, quantity, instructions);
      |r| == |items| &&
      forall i :: 0 <= i < |items| ==>
        if KeyOf(items[i]) == CartKey(menuItem.id, instructions)
        then r[i] == items[i].(quantity := items[i].quantity + quantity)
        else r[i] == items[i]
  {
  }

  /** A new key: one line is appended at the end and every earlier line is unchanged. */
  lemma AddNew(items: seq<CartItem>, menuItem: MenuItem, quantity: int, instructions: Option<string>)
    requires !HasKey(items, CartKey(menuItem.id, instructions))
    ensures var r := Added(items, menuItem, quantity, instructions);
      |r| == |items| + 1 && r[..|items|] == items && r[|items|] == CartItem(menuItem, quantity, instructions)
  {
  }

  /** Adding keeps the keys unique. */
  lemma AddKeepsUnique(items: seq<CartItem>, menuItem: MenuItem, quantity: int, instructions: Option<string>)
    requires UniqueKeys(items)
    ensures UniqueKeys(Added(items, menuItem, quantity, instructions))
  {
    var key := CartKey(menuItem.id, instructions);
    var r := Added(items, menuItem, quantity, instructions);
    if HasKey(items, key) {
      assert forall i :: 0 <= i < |items| ==> KeyOf(r[i]) == KeyOf(items[i]);
    } else {
      forall i, j | 0 <= i < j < |r| ensures KeyOf(r[i]) != KeyOf(r[j]) {
        if j == |items| {
          assert r[i] == items[i];
        }
      }
    }
  }

  /** On a cart with unique keys, at most one line carries a given key. */
  lemma UniqueKeyAt(items: seq<CartItem>, key: CartKey, k: int)
    requires UniqueKeys(items)
    requires 0 <= k < |items| && KeyOf(items[k]) == key
    ensures forall i :: 0 <= i < |items| && i != k ==> KeyOf(items[i]) != key
  {
    forall i | 0 <= i < |items| && i != k ensures KeyOf(items[i]) != key {
      if i < k { assert KeyOf(items[i]) != KeyOf(items[k]); }
      else { assert KeyOf(items[k]) != KeyOf(items[i]); }
    }
  }

  /** The sums of a one-line cart. */
  lemma SumsOfSingleton(x: CartItem)
    ensures Subtotal([x]) == LineTotal(x)
    ensures ItemCount([x]) == x.quantity
  {
    assert [x][..0] == [];
  }

  /** The sums of `pre + [x] + post`, split at the line `x`. */
  lemma SumsAround(pre: seq<CartItem>, x: CartItem, post: seq<CartItem>)
    ensures Subtotal(pre + [x] + post) == Subtotal(pre) + LineTotal(x) + Subtotal(post)
    ensures ItemCount(pre + [x] + post) == ItemCount(pre) + x.quantity + ItemCount(post)
  {
    SubtotalAppend(pre + [x], post);
    SubtotalAppend(pre, [x]);
    ItemCountAppend(pre + [x], post);
    ItemCountAppend(pre, [x]);
    SumsOfSingleton(x);
  }

  /** Adding `d` to a line's quantity adds `d` times its price to its total. */
  lemma LineDelta(x: CartItem, d: int)
    ensures LineTotal(x.(quantity := x.quantity + d)) == LineTotal(x) + Cost(x.menuItem, d)
  {
    var p, q := x.menuItem.price, x.quantity;
    assert (q + d) as real == q as real + d as real;
    assert p * (q as real + d as real) == p * q as real + p * d as real;
  }

  /** Changing the quantity of the single line `k` by `d` changes the count by `d` and the total
      by `d` times that line's price. */
  lemma SumsAfterChangeAt(items: seq<CartItem>, r: seq<CartItem>, k: int, d: int)
    requires 0 <= k < |items| && |r| == |items|
    requires r[k] == items[k].(quantity := items[k].quantity + d)
    requires forall i :: 0 <= i < |items| && i != k ==> r[i] == items[i]
    ensures ItemCount(r) == ItemCount(items) + d
    ensures Subtotal(r) == Subtotal(items) - LineTotal(items[k]) + LineTotal(r[k])
  {
    var pre, post := items[..k], items[k + 1..];
    assert items == pre + [items[k]] + post;
    assert r == pre + [r[k]] + post;
    SumsAround(pre, items[k], post);
    SumsAround(pre, r[k], post);
  }

  /** On a cart with unique keys `addToCart` raises the item count by exactly `quantity`, and
      the total by `quantity` times the price of the line that receives it: the existing line
      when the key is present, else the new one. */
  lemma AddSums(items: seq<CartItem>, menuItem: MenuItem, quantity: int, instructions: Option<string>)
    requires UniqueKeys(items)
    ensures ItemCount(Added(items, menuItem, quantity, instructions)) == ItemCount(items) + quantity
    ensures !HasKey(items, CartKey(menuItem.id, instructions)) ==>
      Subtotal(Added(items, menuItem, quantity, instructions)) == Subtotal(items) + Cost(menuItem, quantity)
    ensures forall k :: 0 <= k < |items| && KeyOf(items[k]) == CartKey(menuItem.id, instructions) ==>
      Subtotal(Added(items, menuItem, quantity, instructions)) == Subtotal(items) + Cost(items[k].menuItem, quantity)
  {
    var key := CartKey(menuItem.id, instructions);
    if HasKey(items, key) {
      var k :| 0 <= k < |items| && KeyOf(items[k]) == key;
      AddAt(items, menuItem, quantity, instructions, k);
      forall k' | 0 <= k' < |items| && KeyOf(items[k']) == key ensures k' == k {
        UniqueKeyAt(items, key, k);
      }
    } else {
      var line := CartItem(menuItem, quantity, instructions);
      assert Added(items, menuItem, quantity, instructions) == items + [line];
      ItemCountAppend(items, [line]);
      SubtotalAppend(items, [line]);
      SumsOfSingleton(line);
    }
  }

  /** The shape of `Added` on a cart with unique keys whose line `k` carries the key. */
  lemma AddedShape(items: seq<CartItem>, menuItem: MenuItem, quantity: int, instructions: Option<string>, k: int)
    requires UniqueKeys(items)
    requires 0 <= k < |items| && KeyOf(items[k]) == CartKey(menuItem.id, instructions)
    ensures var r := Added(items, menuItem, quantity, instructions);
      |r| == |items| && r[k] == items[k].(quantity := items[k].quantity + quantity) &&
      forall i :: 0 <= i < |items| && i != k ==> r[i] == items[i]
  {
    assert HasKey(items, CartKey(menuItem.id, instructions));
    UniqueKeyAt(items, CartKey(menuItem.id, instructions), k);
  }

  lemma AddAt(items: seq<CartItem>, menuItem: MenuItem, quantity: int, instructions: Option<string>, k: int)
    requires UniqueKeys(items)
    requires 0 <= k < |items| && KeyOf(items[k]) == CartKey(menuItem.id, instructions)
    ensures ItemCount(Added(items, menuItem, quantity, instructions)) == ItemCount(items) + quantity
    ensures Subtotal(Added(items, menuItem, quantity, instructions)) == Subtotal(items) + Cost(items[k].menuItem, quantity)
  {
    AddedShape(items, menuItem, quantity, instructions, k);
    ChangeAt(items, Added(items, menuItem, quantity, instructions), k, quantity);
  }

  /** `SumsAfterChangeAt` with the new line's total spelled out. */
  lemma ChangeAt(items: seq<CartItem>, r: seq<CartItem>, k: int, d: int)
    requires 0 <= k < |items| && |r| == |items|
    requires r[k] == items[k].(quantity := items[k].quantity + d)
    requires forall i :: 0 <= i < |items| && i != k ==> r[i] == items[i]
    ensures ItemCount(r) == ItemCount(items) + d
    ensures Subtotal(r) == Subtotal(items) + Cost(items[k].menuItem, d)
  {
    SumsAfterChangeAt(items, r, k, d);
    LineDelta(items[k], d);
  }

  /** `removeFromCart` drops exactly the lines with the key and keeps all others, in order. */
  lemma RemoveExactly(items: seq<CartItem>, key: CartKey, a: seq<CartItem>, b: seq<CartItem>)
    ensures !HasKey(Removed(items, key), key)
    ensures forall x :: x in Removed(items, key) <==> x in items && KeyOf(x) != key
    ensures Removed(a + b, key) == Removed(a, key) + Removed(b, key)
  {
    FilterAppend((item: CartItem) => KeyOf(item) != key, a, b);
  }

  /** Removing an unknown key changes nothing. */
  lemma RemoveUnknown(items: seq<CartItem>, key: CartKey)
    requires !HasKey(items, key)
    ensures Removed(items, key) == items
  {
    FilterKeepsAll((item: CartItem) => KeyOf(item) != key, items);
  }

  /** Removing keeps the keys unique, and on a cart with unique keys it removes one line when the
      key is present. */
  lemma {:induction false} RemoveKeepsUnique(items: seq<CartItem>, key: CartKey)
    requires UniqueKeys(items)
    ensures UniqueKeys(Removed(items, key))
    ensures |Removed(items, key)| == if HasKey(items, key) then |items| - 1 else |items|
  {
    if items != [] {
      var tail := items[1..];
      assert UniqueKeys(tail);
      RemoveKeepsUnique(tail, key);
      var rt := Removed(tail, key);
      forall j | 0 <= j < |rt| ensures KeyOf(rt[j]) != KeyOf(items[0]) {
        assert rt[j] in tail;
        var m :| 0 <= m < |tail| && tail[m] == rt[j];
        assert items[m + 1] == rt[j];
      }
      if KeyOf(items[0]) == key {
        assert !HasKey(tail, key) by { UniqueKeyAt(items, key, 0); }
      } else {
        assert HasKey(items, key) == HasKey(tail, key) by {
          if HasKey(items, key) {
            var m :| 0 <= m < |items| && KeyOf(items[m]) == key;
            assert tail[m - 1] == items[m];
          }
          if HasKey(tail, key) {
            var m :| 0 <= m < |tail| && KeyOf(tail[m]) == key;
            assert items[m + 1] == tail[m];
          }
        }
      }
    }
  }

  /** `updateQuantity` with a positive quantity sets the matching lines' quantity, keeps length
      and every other line, and an unknown key is a no-op. */
  lemma UpdatePositive(items: seq<CartItem>, key: CartKey, newQuantity: int)
    requires newQuantity > 0
    ensures var r := WithQuantity(items, key, newQuantity);
      |r| == |items| &&
      (forall i :: 0 <= i < |items| ==>
         r[i] == if KeyOf(items[i]) == key then items[i].(quantity := newQuantity) else items[i]) &&
      (!HasKey(items, key) ==> r == items)
  {
  }

  /** Updating keeps the keys unique. */
  lemma UpdateKeepsUnique(items: seq<CartItem>, key: CartKey, newQuantity: int)
    requires UniqueKeys(items)
    ensures UniqueKeys(WithQuantity(items, key, newQuantity))
  {
    if newQuantity <= 0 {
      RemoveKeepsUnique(items, key);
    } else {
      var r := WithQuantity(items, key, newQuantity);
      assert forall i :: 0 <= i < |items| ==> KeyOf(r[i]) == KeyOf(items[i]);
    }
  }

  /** The cart context: the lines and the panel flag, replaced by every handler. */
  class CartStore {
    var items: seq<CartItem>
    var isOpen: bool

    /** ‘saved’ is what the persisted copy held (an empty cart when there was none). */
    constructor (saved: seq<CartItem>)
      ensures items == saved && !isOpen
    {
      items := saved;
      isOpen := false;
    }

    method AddToCart(menuItem: MenuItem, quantity: int, instructions: Option<string>)
      modifies this
      ensures items == Added(old(items), menuItem, quantity, instructions)
      ensures isOpen == old(isOpen)
      ensures UniqueKeys(old(items)) ==> UniqueKeys(items)
      ensures UniqueKeys(old(items)) ==> ItemCount(items) == old(ItemCount(items)) + quantity
    {
      if UniqueKeys(items) {
        AddKeepsUnique(items, menuItem, quantity, instructions);
        AddSums(items, menuItem, quantity, instructions);
      }
      items := Added(items, menuItem, quantity, instructions);
    }

    method RemoveFromCart(id: string, instructions: Option<string>)
      modifies this
      ensures items == Removed(old(items), CartKey(id, instructions))
      ensures isOpen == old(isOpen)
      ensures !HasKey(items, CartKey(id, instructions))
      ensures UniqueKeys(old(items)) ==> UniqueKeys(items)
    {
      RemoveExactly(items, CartKey(id, instructions), [], []);
      if UniqueKeys(items) {
        RemoveKeepsUnique(items, CartKey(id, instructions));
      }
      items := Removed(items, CartKey(id, instructions));
    }

    method UpdateQuantity(id: string, newQuantity: int, instructions: Option<string>)
      modifies this
      ensures items == WithQuantity(old(items), CartKey(id, instructions), newQuantity)
      ensures newQuantity <= 0 ==> items == Removed(old(items), CartKey(id, instructions))
      ensures isOpen == old(isOpen)
      ensures UniqueKeys(old(items)) ==> UniqueKeys(items)
    {
      if newQuantity <= 0 {
        RemoveFromCart(id, instructions);
        return;
      }
      if UniqueKeys(items) {
        UpdateKeepsUnique(items, CartKey(id, instructions), newQuantity);
      }
      items := MapMatching(items, CartKey(id, instructions), _ => newQuantity);
    }

    method ClearCart()
      modifies this
      ensures items == [] && isOpen == old(isOpen)
      ensures Subtotal(items) == 0.0 && ItemCount(items) == 0
    {
      items := [];
    }

    method OpenCart()
      modifies this
      ensures isOpen && items == old(items)
    {
      isOpen := true;
    }

    method CloseCart()
      modifies this
      ensures !isOpen && items == old(items)
    {
      isOpen := false;
    }

    /** Toggling twice therefore restores the flag. */
    method ToggleCart()
      modifies this
      ensures isOpen == !old(isOpen) && items == old(items)
    {
      isOpen := !isOpen;
    }
  }
}
