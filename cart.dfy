/**
 * The cart store of the storefront: an ordered list of cart lines, keyed by
 * product id, that is persisted to a client-local storage slot once the
 * initial restore has completed.
 */
module Cart {

  /** One line of the cart: a product id with the name, unit price and image
      captured when the product was first added, and a quantity. */
  datatype CartLine = CartLine(id: int, name: string, price: real, quantity: int, image: string)

  /** What a caller hands to `addToCart`: a cart line without its quantity. */
  datatype Item = Item(id: int, name: string, price: real, image: string)

  /** The line a new item becomes when it is added with `quantity`. */
  function NewLine(item: Item, quantity: int): CartLine
  {
    CartLine(item.id, item.name, item.price, quantity, item.image)
  }

  /** Some line of `cart` carries `id`. */
  predicate HasId(cart: seq<CartLine>, id: int)
  {
    exists i :: 0 <= i < |cart| && cart[i].id == id
  }

  /** The cart's key invariant: no two lines share an id. */
  predicate UniqueIds(cart: seq<CartLine>)
  {
    forall i, j :: 0 <= i < j < |cart| ==> cart[i].id != cart[j].id
  }

  /** Position of the first line carrying `id`. */
  function IndexOf(cart: seq<CartLine>, id: int): (k: nat)
    requires HasId(cart, id)
    ensures k < |cart| && cart[k].id == id
    ensures forall j :: 0 <= j < k ==> cart[j].id != id
  {
    if cart[0].id == id then 0
    else
      assert HasId(cart[1..], id) by {
        var i :| 0 <= i < |cart| && cart[i].id == id;
        assert cart[1..][i - 1] == cart[i];
      }
      IndexOf(cart[1..], id) + 1
  }

  /** In a cart with unique ids, the line carrying `id` is the one at `IndexOf`. */
  lemma UniqueIndex(cart: seq<CartLine>, id: int, i: int)
    requires UniqueIds(cart) && 0 <= i < |cart| && cart[i].id == id
    ensures HasId(cart, id) && IndexOf(cart, id) == i
  {
  }

  // ---------------------------------------------------------------------------
  // The updaters handed to the state setter
  // ---------------------------------------------------------------------------

  /** `addToCart`: raise the quantity of the line(s) carrying the item's id by
      `quantity`, or append a new line when no line carries it. */
  function AddLine(cart: seq<CartLine>, item: Item, quantity: int): (r: seq<CartLine>)
    ensures HasId(cart, item.id) ==>
              && |r| == |cart|
              && (forall i :: 0 <= i < |cart| && cart[i].id != item.id ==> r[i] == cart[i])
              && (forall i :: 0 <= i < |cart| && cart[i].id == item.id ==>
                    r[i] == cart[i].(quantity := cart[i].quantity + quantity))
    ensures !HasId(cart, item.id) ==> r == cart + [NewLine(item, quantity)]
    ensures HasId(r, item.id)
    ensures UniqueIds(cart) ==> UniqueIds(r)
  {
    if HasId(cart, item.id) then
      var k := IndexOf(cart, item.id);
      var r := seq(|cart|, i requires 0 <= i < |cart| =>
                 if cart[i].id == item.id then cart[i].(quantity := cart[i].quantity + quantity) else cart[i]);
      assert r[k].id == item.id;
      r
    else
      var r := cart + [NewLine(item, quantity)];
      assert r[|cart|].id == item.id;
      r
  }

  /** `removeFromCart`: keep, in order, the lines whose id differs from `id`. */
  function RemoveLine(cart: seq<CartLine>, id: int): (r: seq<CartLine>)
    ensures forall x :: x in r <==> x in cart && x.id != id
    ensures !HasId(r, id)
    ensures |r| <= |cart|
    ensures !HasId(cart, id) ==> r == cart
    ensures UniqueIds(cart) ==> UniqueIds(r)
  {
    if cart == [] then []
    else
      var rest := RemoveLine(cart[1..], id);
      if cart[0].id == id then
        DropHead(cart, id, rest);
        rest
      else
        KeepHead(cart, id, rest);
        [cart[0]] + rest
  }

  /** What `RemoveLine` promises of `r`, gathered for the two steps below. */
  ghost predicate RemovedFrom(r: seq<CartLine>, cart: seq<CartLine>, id: int)
  {
    && (forall x :: x in r <==> x in cart && x.id != id)
    && !HasId(r, id)
    && |r| <= |cart|
    && (!HasId(cart, id) ==> r == cart)
    && (UniqueIds(cart) ==> UniqueIds(r))
  }

  /** The head carries the id: what was removed from the tail was removed from
      the whole cart. */
  lemma DropHead(cart: seq<CartLine>, id: int, rest: seq<CartLine>)
    requires cart != [] && cart[0].id == id && RemovedFrom(rest, cart[1..], id)
    ensures RemovedFrom(rest, cart, id)
  {
    HasIdOfTail(cart, id);
    UniqueOfTail(cart);
    assert forall x :: x in cart <==> x == cart[0] || x in cart[1..];
  }

  /** The head does not carry the id: it stays in front of what remains of the
      tail. */
  lemma KeepHead(cart: seq<CartLine>, id: int, rest: seq<CartLine>)
    requires cart != [] && cart[0].id != id && RemovedFrom(rest, cart[1..], id)
    ensures RemovedFrom([cart[0]] + rest, cart, id)
  {
    var r := [cart[0]] + rest;
    HasIdOfTail(cart, id);
    HasIdOfTail(r, id);
    assert r[1..] == rest;
    assert forall x :: x in cart <==> x == cart[0] || x in cart[1..];
    UniqueOfCons(cart, rest);
    if !HasId(cart, id) {
      assert cart == [cart[0]] + cart[1..];
    }
  }

  lemma HasIdOfTail(cart: seq<CartLine>, id: int)
    requires cart != []
    ensures HasId(cart, id) <==> cart[0].id == id || HasId(cart[1..], id)
  {
    if HasId(cart[1..], id) {
      var i :| 0 <= i < |cart[1..]| && cart[1..][i].id == id;
      assert cart[i + 1].id == id;
    }
    if HasId(cart, id) && cart[0].id != id {
      var i :| 0 <= i < |cart| && cart[i].id == id;
      assert cart[1..][i - 1].id == id;
    }
  }

  lemma UniqueOfTail(cart: seq<CartLine>)
    requires cart != []
    ensures UniqueIds(cart) ==> UniqueIds(cart[1..])
    ensures UniqueIds(cart) ==> forall x :: x in cart[1..] ==> x.id != cart[0].id
  {
    if UniqueIds(cart) {
      forall x | x in cart[1..] ensures x.id != cart[0].id {
        var k :| 0 <= k < |cart[1..]| && cart[1..][k] == x;
        assert cart[k + 1] == x;
      }
    }
  }

  /** Putting back the head of a cart with unique ids in front of lines drawn
      from its tail keeps the ids unique. */
  lemma UniqueOfCons(cart: seq<CartLine>, rest: seq<CartLine>)
    requires cart != []
    requires forall x :: x in rest ==> x in cart[1..]
    requires UniqueIds(cart[1..]) ==> UniqueIds(rest)
    ensures UniqueIds(cart) ==> UniqueIds([cart[0]] + rest)
  {
    if UniqueIds(cart) {
      UniqueOfTail(cart);
      var r := [cart[0]] + rest;
      forall i, j | 0 <= i < j < |r| ensures r[i].id != r[j].id {
        assert r[j] == rest[j - 1] && rest[j - 1] in rest;
        if i > 0 {
          assert r[i] == rest[i - 1];
        }
      }
    }
  }

  /** `updateQuantity`: a quantity of zero or less removes the line; any other
      quantity replaces (does not add to) the quantity of the line(s) carrying `id`. */
  function SetQuantity(cart: seq<CartLine>, id: int, quantity: int): (r: seq<CartLine>)
    ensures quantity <= 0 ==> r == RemoveLine(cart, id)
    ensures quantity > 0 ==>
              && |r| == |cart|
              && (forall i :: 0 <= i < |cart| && cart[i].id != id ==> r[i] == cart[i])
              && (forall i :: 0 <= i < |cart| && cart[i].id == id ==> r[i] == cart[i].(quantity := quantity))
    ensures !HasId(cart, id) ==> r == cart
    ensures UniqueIds(cart) ==> UniqueIds(r)
  {
    if quantity <= 0 then RemoveLine(cart, id)
    else
      var r := seq(|cart|, i requires 0 <= i < |cart| =>
                 if cart[i].id == id then cart[i].(quantity := quantity) else cart[i]);
      assert !HasId(cart, id) ==> r == cart;
      r
  }

  // ---------------------------------------------------------------------------
  // The two folds
  // ---------------------------------------------------------------------------

  /** What one line contributes to the total: unit price times quantity. */
  function Amount(line: CartLine): real
  {
    line.price * line.quantity as real
  }

  /** `getCartTotal` as the sum of unit price times quantity over the lines. */
  function Total(cart: seq<CartLine>): real
  {
    if cart == [] then 0.0 else Amount(cart[0]) + Total(cart[1..])
  }

  /** `getCartCount` as the number of units in the cart, not the number of
      lines. */
  function Count(cart: seq<CartLine>): int
  {
    if cart == [] then 0 else cart[0].quantity + Count(cart[1..])
  }

  /** `getCartTotal` as written: a `reduce` that walks the lines from the first
      to the last, adding each line's amount to an accumulator that starts at 0.
      Whatever the starting value, it ends at that value plus the sum. */
  function TotalFrom(acc: real, cart: seq<CartLine>): (r: real)
    ensures r == acc + Total(cart)
    decreases |cart|
  {
    if cart == [] then acc else TotalFrom(acc + Amount(cart[0]), cart[1..])
  }

  /** `getCartCount` as written: the same left-to-right `reduce` over the
      quantities. */
  function CountFrom(acc: int, cart: seq<CartLine>): (r: int)
    ensures r == acc + Count(cart)
    decreases |cart|
  {
    if cart == [] then acc else CountFrom(acc + cart[0].quantity, cart[1..])
  }

  /** A cart whose prices and quantities are not negative has a total that is
      not negative. */
  lemma {:induction false} TotalNonNegative(cart: seq<CartLine>)
    requires forall i :: 0 <= i < |cart| ==> cart[i].price >= 0.0 && cart[i].quantity >= 0
    ensures Total(cart) >= 0.0
  {
    if cart != [] {
      TotalNonNegative(cart[1..]);
      assert Amount(cart[0]) >= 0.0;
    }
  }

  /** With no negative quantity the count is not negative, and when every line
      holds at least one unit the count is at least the number of lines, so the
      header badge never shows fewer units than there are lines. */
  lemma {:induction false} CountBounds(cart: seq<CartLine>)
    ensures (forall i :: 0 <= i < |cart| ==> cart[i].quantity >= 0) ==> Count(cart) >= 0
    ensures (forall i :: 0 <= i < |cart| ==> cart[i].quantity >= 1) ==> Count(cart) >= |cart|
  {
    if cart != [] {
      CountBounds(cart[1..]);
      assert forall i :: 0 <= i < |cart| - 1 ==> cart[1..][i] == cart[i + 1];
    }
  }

  /** Both folds distribute over concatenation, so they do not depend on how the
      lines are grouped while summing. */
  lemma {:induction false} FoldsOfConcat(a: seq<CartLine>, b: seq<CartLine>)
    ensures Total(a + b) == Total(a) + Total(b)
    ensures Count(a + b) == Count(a) + Count(b)
  {
    if a == [] {
      assert a + b == b;
    } else {
      assert (a + b)[1..] == a[1..] + b;
      FoldsOfConcat(a[1..], b);
    }
  }

  /** Changing the line at position `k` changes the folds by exactly the
      difference of that line's contributions. */
  lemma {:induction false} FoldsOfReplace(cart: seq<CartLine>, k: nat, line: CartLine)
    requires k < |cart|
    ensures Count(cart[k := line]) == Count(cart) - cart[k].quantity + line.quantity
    ensures Total(cart[k := line]) == Total(cart) - Amount(cart[k]) + Amount(line)
  {
    if k == 0 {
      assert cart[k := line][1..] == cart[1..];
    } else {
      assert cart[k := line][1..] == cart[1..][k - 1 := line];
      FoldsOfReplace(cart[1..], k - 1, line);
    }
  }

  /** The empty cart that `clearCart` leaves has total 0 and count 0. */
  lemma ClearedCartIsEmpty()
    ensures Total([]) == 0.0 && Count([]) == 0
  {
  }

  /** Adding `quantity` units of an item raises the count by exactly `quantity`,
      and the total by `quantity` times the unit price of the line that received
      them: the price captured when that line was created, not the item's. */
  lemma AddChangesFolds(cart: seq<CartLine>, item: Item, quantity: int)
    requires UniqueIds(cart)
    ensures Count(AddLine(cart, item, quantity)) == Count(cart) + quantity
    ensures HasId(cart, item.id) ==>
              Total(AddLine(cart, item, quantity)) == Total(cart) + cart[IndexOf(cart, item.id)].price * quantity as real
    ensures !HasId(cart, item.id) ==>
              Total(AddLine(cart, item, quantity)) == Total(cart) + item.price * quantity as real
  {
    if HasId(cart, item.id) {
      AddToLineChangesFolds(cart, item, quantity, IndexOf(cart, item.id));
    } else {
      AddNewLineChangesFolds(cart, item, quantity);
    }
  }

  lemma AddNewLineChangesFolds(cart: seq<CartLine>, item: Item, quantity: int)
    requires !HasId(cart, item.id)
    ensures Count(AddLine(cart, item, quantity)) == Count(cart) + quantity
    ensures Total(AddLine(cart, item, quantity)) == Total(cart) + item.price * quantity as real
  {
    var line := NewLine(item, quantity);
    assert AddLine(cart, item, quantity) == cart + [line];
    assert [line][1..] == [];
    assert Count([line]) == quantity && Total([line]) == item.price * quantity as real;
    FoldsOfConcat(cart, [line]);
  }

  lemma AddToLineChangesFolds(cart: seq<CartLine>, item: Item, quantity: int, k: nat)
    requires UniqueIds(cart) && k < |cart| && cart[k].id == item.id
    ensures Count(AddLine(cart, item, quantity)) == Count(cart) + quantity
    ensures Total(AddLine(cart, item, quantity)) == Total(cart) + cart[k].price * quantity as real
  {
    AddToLineIsReplace(cart, item, quantity, k);
    FoldsOfIncrease(cart, k, quantity);
  }

  /** Raising the quantity of the line at `k` raises the folds accordingly. */
  lemma FoldsOfIncrease(cart: seq<CartLine>, k: nat, quantity: int)
    requires k < |cart|
    ensures Count(cart[k := cart[k].(quantity := cart[k].quantity + quantity)]) == Count(cart) + quantity
    ensures Total(cart[k := cart[k].(quantity := cart[k].quantity + quantity)]) ==
              Total(cart) + cart[k].price * quantity as real
  {
    var line := cart[k].(quantity := cart[k].quantity + quantity);
    FoldsOfReplace(cart, k, line);
    AmountGrows(cart[k], quantity);
  }

  lemma AddToLineIsReplace(cart: seq<CartLine>, item: Item, quantity: int, k: nat)
    requires UniqueIds(cart) && k < |cart| && cart[k].id == item.id
    ensures AddLine(cart, item, quantity) == cart[k := cart[k].(quantity := cart[k].quantity + quantity)]
  {
    var r := AddLine(cart, item, quantity);
    forall i | 0 <= i < |cart| ensures r[i] == cart[k := cart[k].(quantity := cart[k].quantity + quantity)][i] {
      if i != k {
        assert cart[i].id != item.id;
      }
    }
  }

  lemma AmountGrows(line: CartLine, quantity: int)
    ensures Amount(line.(quantity := line.quantity + quantity)) == Amount(line) + line.price * quantity as real
  {
    var p, q0 := line.price, line.quantity as real;
    assert p * (q0 + quantity as real) == p * q0 + p * quantity as real;
  }

  /** Removing the line with `id` lowers the count by that line's quantity and
      the total by that line's amount; the cart loses exactly one line. */
  lemma {:induction false} RemoveChangesFolds(cart: seq<CartLine>, id: int)
    requires UniqueIds(cart) && HasId(cart, id)
    ensures |RemoveLine(cart, id)| == |cart| - 1
    ensures Count(RemoveLine(cart, id)) == Count(cart) - cart[IndexOf(cart, id)].quantity
    ensures Total(RemoveLine(cart, id)) == Total(cart) - Amount(cart[IndexOf(cart, id)])
  {
    if cart[0].id == id {
      assert forall i :: 0 <= i < |cart[1..]| ==> cart[1..][i] == cart[i + 1];
    } else {
      var i :| 0 <= i < |cart| && cart[i].id == id;
      assert cart[1..][i - 1].id == id;
      RemoveChangesFolds(cart[1..], id);
    }
  }

  /** Removal keeps the order of the remaining lines: it distributes over
      concatenation. */
  lemma {:induction false} RemoveKeepsOrder(a: seq<CartLine>, b: seq<CartLine>, id: int)
    ensures RemoveLine(a + b, id) == RemoveLine(a, id) + RemoveLine(b, id)
  {
    if a == [] {
      assert a + b == b;
    } else {
      assert (a + b)[1..] == a[1..] + b;
      RemoveKeepsOrder(a[1..], b, id);
    }
  }

  // ---------------------------------------------------------------------------
  // Sequences of operations
  // ---------------------------------------------------------------------------

  /** The four mutations the store offers. */
  datatype CartOp = Add(item: Item, quantity: int) | Remove(id: int) | Update(id: int, quantity: int) | Clear

  function Apply(cart: seq<CartLine>, op: CartOp): (r: seq<CartLine>)
    ensures UniqueIds(cart) ==> UniqueIds(r)
  {
    match op
    case Add(item, q) => AddLine(cart, item, q)
    case Remove(id) => RemoveLine(cart, id)
    case Update(id, q) => SetQuantity(cart, id, q)
    case Clear => []
  }

  /** The cart after applying `ops` in order. */
  function Run(cart: seq<CartLine>, ops: seq<CartOp>): seq<CartLine>
    decreases |ops|
  {
    if ops == [] then cart else Run(Apply(cart, ops[0]), ops[1..])
  }

  /** Line ids stay pairwise distinct after any sequence of operations. */
  lemma {:induction false} RunKeepsIdsUnique(cart: seq<CartLine>, ops: seq<CartOp>)
    requires UniqueIds(cart)
    ensures UniqueIds(Run(cart, ops))
    decreases |ops|
  {
    if ops != [] {
      RunKeepsIdsUnique(Apply(cart, ops[0]), ops[1..]);
    }
  }

  function Sum(qs: seq<int>): int
  {
    if qs == [] then 0 else qs[0] + Sum(qs[1..])
  }

  /** The cart after adding the same item once per quantity in `qs`, in order. */
  function AddEach(cart: seq<CartLine>, item: Item, qs: seq<int>): seq<CartLine>
    decreases |qs|
  {
    if qs == [] then cart else AddEach(AddLine(cart, item, qs[0]), item, qs[1..])
  }

  /** Adding to a line that exists accumulates every requested quantity in that
      one line, at the same position. */
  lemma {:induction false} AddEachAccumulates(cart: seq<CartLine>, item: Item, qs: seq<int>)
    requires UniqueIds(cart) && HasId(cart, item.id)
    ensures var r := AddEach(cart, item, qs);
            && UniqueIds(r) && HasId(r, item.id) && |r| == |cart|
            && IndexOf(r, item.id) == IndexOf(cart, item.id)
            && r[IndexOf(r, item.id)].quantity == cart[IndexOf(cart, item.id)].quantity + Sum(qs)
    decreases |qs|
  {
    if qs != [] {
      var next := AddLine(cart, item, qs[0]);
      var k := IndexOf(cart, item.id);
      UniqueIndex(next, item.id, k);
      AddEachAccumulates(next, item, qs[1..]);
    }
  }

  /** However many times one item is added, the cart holds exactly one line for
      it, and its quantity is the sum of all requested quantities. */
  lemma RepeatedAddsMakeOneLine(cart: seq<CartLine>, item: Item, qs: seq<int>)
    requires UniqueIds(cart) && !HasId(cart, item.id) && qs != []
    ensures var r := AddEach(cart, item, qs);
            && UniqueIds(r) && |r| == |cart| + 1
            && HasId(r, item.id) && r[IndexOf(r, item.id)].quantity == Sum(qs)
  {
    var first := AddLine(cart, item, qs[0]);
    UniqueIndex(first, item.id, |cart|);
    AddEachAccumulates(first, item, qs[1..]);
  }

  // ---------------------------------------------------------------------------
  // The store: cart state, the load gate and the storage slot
  // ---------------------------------------------------------------------------

  /** What the client-local storage slot holds: nothing, a value that does not
      parse, or a serialised list of lines. */
  datatype Slot = Empty | Corrupt | Holds(lines: seq<CartLine>)

  class CartStore {
    var cart: seq<CartLine>
    var isLoaded: bool
    /** The storage slot the store reads once and writes on every change. */
    var storage: Slot

    /** After the initial restore the slot always holds the current cart. */
    ghost predicate Valid()
      reads this
    {
      isLoaded ==> storage == Holds(cart)
    }

    /** Mounting: the cart starts empty and nothing has been read yet. */
    constructor (saved: Slot)
      ensures Valid()
      ensures cart == [] && !isLoaded && storage == saved
    {
      cart := [];
      isLoaded := false;
      storage := saved;
    }

    /** The mount effect: restore the saved lines if the slot parses, keep the
        current cart if it is empty or corrupt, then open the save gate; the
        save effect then writes the cart back. */
    method Load()
      modifies this
      ensures Valid() && isLoaded
      ensures cart == if old(storage).Holds? then old(storage).lines else old(cart)
    {
      if storage.Holds? {
        cart := storage.lines;
      }
      isLoaded := true;
      Save();
    }

    /** The save effect: it writes only once the restore has completed. */
    method Save()
      modifies this
      ensures cart == old(cart) && isLoaded == old(isLoaded)
      ensures storage == if isLoaded then Holds(cart) else old(storage)
      ensures Valid()
    {
      if isLoaded {
        storage := Holds(cart);
      }
    }

    method AddToCart(item: Item, quantity: int := 1)
      requires Valid()
      modifies this
      ensures Valid() && isLoaded == old(isLoaded)
      ensures cart == AddLine(old(cart), item, quantity)
      ensures storage == if isLoaded then Holds(cart) else old(storage)
    {
      cart := AddLine(cart, item, quantity);
      Save();
    }

    method RemoveFromCart(id: int)
      requires Valid()
      modifies this
      ensures Valid() && isLoaded == old(isLoaded)
      ensures cart == RemoveLine(old(cart), id)
      ensures storage == if isLoaded then Holds(cart) else old(storage)
    {
      cart := RemoveLine(cart, id);
      Save();
    }

    method UpdateQuantity(id: int, quantity: int)
      requires Valid()
      modifies this
      ensures Valid() && isLoaded == old(isLoaded)
      ensures cart == SetQuantity(old(cart), id, quantity)
      ensures storage == if isLoaded then Holds(cart) else old(storage)
    {
      if quantity <= 0 {
        RemoveFromCart(id);
        return;
      }
      cart := SetQuantity(cart, id, quantity);
      Save();
    }

    method ClearCart()
      requires Valid()
      modifies this
      ensures Valid() && isLoaded == old(isLoaded)
      ensures cart == [] && Total(cart) == 0.0 && Count(cart) == 0
      ensures storage == if isLoaded then Holds(cart) else old(storage)
    {
      cart := [];
      Save();
    }
  }

  /** A store mounted on a slot whose value does not parse starts empty and
      then overwrites the slot with the empty cart. */
  method MountOnCorruptSlot() returns (s: CartStore)
    ensures fresh(s) && s.Valid() && s.isLoaded && s.cart == [] && s.storage == Holds([])
  {
    s := new CartStore(Corrupt);
    s.Load();
  }

  /** Persist then restore: a store mounted on the slot another store has
      saved restores exactly that store's lines. */
  method Reopen(previous: CartStore) returns (next: CartStore)
    requires previous.Valid() && previous.isLoaded
    ensures fresh(next) && next.Valid() && next.isLoaded && next.cart == previous.cart
  {
    next := new CartStore(previous.storage);
    next.Load();
  }
}
