/** The client-side cart of src/app/context/CartContext.tsx: a list of line items
    keyed by meal id, the four updates, the two derived totals, and the
    load/save effects that mirror the list into browser storage. */
module Cart {
  import opened Types

  /** One line of the cart. Prices and quantities are integers. */
  datatype CartItem = CartItem(
    mealId: string,
    name: string,
    price: int,
    image: Option<string>,
    quantity: int,
    providerId: string,
    providerName: string)

  /** What `addToCart` receives: a cart item without its quantity. */
  datatype NewMeal = NewMeal(
    mealId: string,
    name: string,
    price: int,
    image: Option<string>,
    providerId: string,
    providerName: string)

  /** The toast shown by an update. */
  datatype Notice = Info(message: string) | Success(message: string)

  /** The storage slot the cart is persisted under. */
  const StorageKey: string := "foodhub-cart"

  function WithQuantity(m: NewMeal, q: int): (it: CartItem)
    ensures it.mealId == m.mealId && it.quantity == q
  {
    CartItem(m.mealId, m.name, m.price, m.image, q, m.providerId, m.providerName)
  }

  // ------------------------------------------------------------ invariants

  /** At most one line per meal. */
  predicate UniqueIds(items: seq<CartItem>)
  {
    forall i, j :: 0 <= i < j < |items| ==> items[i].mealId != items[j].mealId
  }

  /** Every line has quantity at least 1. */
  predicate Positive(items: seq<CartItem>)
  {
    forall i :: 0 <= i < |items| ==> items[i].quantity >= 1
  }

  predicate Valid(items: seq<CartItem>)
  {
    UniqueIds(items) && Positive(items)
  }

  /** No line has a negative price or quantity. */
  predicate NonNegative(items: seq<CartItem>)
  {
    forall i :: 0 <= i < |items| ==> items[i].price >= 0 && items[i].quantity >= 0
  }

  predicate Absent(items: seq<CartItem>, id: string)
  {
    forall i :: 0 <= i < |items| ==> items[i].mealId != id
  }

  // ------------------------------------------------------------ lookups

  /** `items.find(i => i.mealId === id)`: the first line with that meal id. */
  function Find(items: seq<CartItem>, id: string): (r: Option<CartItem>)
    ensures r.None? <==> Absent(items, id)
    ensures r.Some? ==> r.value in items && r.value.mealId == id
  {
    if items == [] then None
    else if items[0].mealId == id then Some(items[0])
    else (
      var r := Find(items[1..], id);
      assert Absent(items, id) <==> Absent(items[1..], id) by {
        if Absent(items[1..], id) {
          forall i | 0 <= i < |items| ensures items[i].mealId != id {
            if i > 0 { assert items[i] == items[1..][i - 1]; }
          }
        }
      }
      r)
  }

  /** The line found is the first one with that id: no earlier line has it. */
  lemma {:induction false} FindFirst(items: seq<CartItem>, id: string)
    ensures Find(items, id).Some? ==>
      exists k :: 0 <= k < |items| && items[k] == Find(items, id).value && Absent(items[..k], id)
  {
    if items != [] {
      if items[0].mealId == id {
        assert items[0] == Find(items, id).value && Absent(items[..0], id);
      } else {
        FindFirst(items[1..], id);
        if Find(items, id).Some? {
          var j :| 0 <= j < |items[1..]| && items[1..][j] == Find(items, id).value && Absent(items[1..][..j], id);
          var head := items[..j + 1];
          forall i | 0 <= i < |head| ensures head[i].mealId != id {
            if i > 0 { assert head[i] == items[1..][..j][i - 1]; }
          }
          assert items[j + 1] == Find(items, id).value;
        }
      }
    }
  }

  lemma {:induction false} FindUnique(items: seq<CartItem>, k: nat)
    requires UniqueIds(items) && k < |items|
    ensures Find(items, items[k].mealId) == Some(items[k])
  {
    if k > 0 {
      assert items[0].mealId != items[k].mealId;
      assert items[1..][k - 1] == items[k];
      FindUnique(items[1..], k - 1);
    }
  }

  // ------------------------------------------------------------ the updates

  /** `items.map(i => i.mealId === id ? f(i) : i)` with f setting the quantity. */
  function MapQuantity(items: seq<CartItem>, id: string, inc: bool, q: int): (r: seq<CartItem>)
    ensures |r| == |items|
    ensures forall j :: 0 <= j < |items| ==>
      r[j] == if items[j].mealId == id
              then items[j].(quantity := if inc then items[j].quantity + 1 else q)
              else items[j]
  {
    if items == [] then []
    else
      var it := items[0];
      var head := if it.mealId == id then it.(quantity := if inc then it.quantity + 1 else q) else it;
      [head] + MapQuantity(items[1..], id, inc, q)
  }

  /** The body of `addToCart`: bump an existing line, or append a new one with quantity 1. */
  function AddItem(items: seq<CartItem>, meal: NewMeal): (r: seq<CartItem>)
    ensures Absent(items, meal.mealId) ==> r == items + [WithQuantity(meal, 1)]
    ensures !Absent(items, meal.mealId) ==> |r| == |items| && forall j :: 0 <= j < |items| ==>
      r[j] == if items[j].mealId == meal.mealId then items[j].(quantity := items[j].quantity + 1) else items[j]
  {
    if Find(items, meal.mealId).Some? then MapQuantity(items, meal.mealId, true, 0)
    else items + [WithQuantity(meal, 1)]
  }

  /** The body of `removeFromCart`: `items.filter(i => i.mealId !== id)`. */
  function RemoveItem(items: seq<CartItem>, id: string): (r: seq<CartItem>)
    ensures |r| <= |items|
    ensures Absent(r, id)
    ensures forall x :: x in r ==> x in items
  {
    if items == [] then []
    else
      var rest := RemoveItem(items[1..], id);
      assert forall x :: x in rest ==> x in items by {
        forall x | x in rest ensures x in items {
          var i :| 0 <= i < |items[1..]| && items[1..][i] == x;
          assert items[i + 1] == x;
        }
      }
      if items[0].mealId == id then rest else [items[0]] + rest
  }

  /** The body of `updateQuantity`: below 1 removes, otherwise sets the exact quantity. */
  function UpdateItems(items: seq<CartItem>, id: string, q: int): (r: seq<CartItem>)
    ensures q < 1 ==> Absent(r, id) && forall x :: x in r ==> x in items
    ensures q >= 1 ==> |r| == |items| && forall j :: 0 <= j < |items| ==>
      r[j] == if items[j].mealId == id then items[j].(quantity := q) else items[j]
  {
    if q < 1 then RemoveItem(items, id) else MapQuantity(items, id, false, q)
  }

  // ------------------------------------------------------------ the totals

  /** `items.reduce((sum, i) => sum + i.quantity, 0)`. */
  function TotalItems(items: seq<CartItem>): (t: int)
    ensures NonNegative(items) ==> t >= 0
  {
    if items == [] then 0 else items[0].quantity + TotalItems(items[1..])
  }

  /** `items.reduce((sum, i) => sum + i.price * i.quantity, 0)`. */
  function TotalPrice(items: seq<CartItem>): (t: int)
    ensures NonNegative(items) ==> t >= 0
  {
    if items == [] then 0 else items[0].price * items[0].quantity + TotalPrice(items[1..])
  }

  lemma {:induction false} TotalsAppend(a: seq<CartItem>, b: seq<CartItem>)
    ensures TotalItems(a + b) == TotalItems(a) + TotalItems(b)
    ensures TotalPrice(a + b) == TotalPrice(a) + TotalPrice(b)
  {
    if a == [] {
      assert a + b == b;
    } else {
      assert (a + b)[0] == a[0];
      assert (a + b)[1..] == a[1..] + b;
      TotalsAppend(a[1..], b);
    }
  }

  lemma TotalsSingleton(x: CartItem)
    ensures TotalItems([x]) == x.quantity && TotalPrice([x]) == x.price * x.quantity
  {
    assert [x][1..] == [];
  }

  // ------------------------------------------------------------ add

  /** Adding a meal already in the cart bumps that one line by exactly 1; the
      length and every other line are unchanged. */
  lemma AddExisting(items: seq<CartItem>, meal: NewMeal, k: nat)
    requires UniqueIds(items) && k < |items| && items[k].mealId == meal.mealId
    ensures var r := AddItem(items, meal);
      |r| == |items|
      && r[k] == items[k].(quantity := items[k].quantity + 1)
      && forall j :: 0 <= j < |items| && j != k ==> r[j] == items[j]
  {
    FindUnique(items, k);
  }

  /** Adding a meal not in the cart appends it with quantity 1, after the existing lines. */
  lemma AddNew(items: seq<CartItem>, meal: NewMeal)
    requires Absent(items, meal.mealId)
    ensures var r := AddItem(items, meal);
      |r| == |items| + 1 && r[..|items|] == items
      && r[|items|] == WithQuantity(meal, 1) && r[|items|].quantity == 1
  {
    assert (items + [WithQuantity(meal, 1)])[..|items|] == items;
  }

  lemma AddValid(items: seq<CartItem>, meal: NewMeal)
    requires Valid(items)
    ensures Valid(AddItem(items, meal))
  {
    var r := AddItem(items, meal);
    if Find(items, meal.mealId).None? {
      forall i, j | 0 <= i < j < |r| ensures r[i].mealId != r[j].mealId {
        if j == |items| { assert r[i] == items[i]; }
        else { assert r[i] == items[i] && r[j] == items[j]; }
      }
    }
  }

  /** Adding raises the number of items by exactly 1, and the price by the price of
      the line that was bumped (or of the new meal). */
  lemma AddTotals(items: seq<CartItem>, meal: NewMeal)
    requires UniqueIds(items)
    ensures TotalItems(AddItem(items, meal)) == TotalItems(items) + 1
    ensures TotalPrice(AddItem(items, meal)) == TotalPrice(items) +
      match Find(items, meal.mealId) case Some(it) => it.price case None => meal.price
  {
    match Find(items, meal.mealId)
    case Some(it) =>
      var k :| 0 <= k < |items| && items[k] == it;
      BumpTotals(items, meal.mealId, k);
    case None =>
      TotalsAppend(items, [WithQuantity(meal, 1)]);
      TotalsSingleton(WithQuantity(meal, 1));
  }

  lemma {:induction false} BumpTotals(items: seq<CartItem>, id: string, k: nat)
    requires UniqueIds(items) && k < |items| && items[k].mealId == id
    ensures TotalItems(MapQuantity(items, id, true, 0)) == TotalItems(items) + 1
    ensures TotalPrice(MapQuantity(items, id, true, 0)) == TotalPrice(items) + items[k].price
  {
    var r := MapQuantity(items, id, true, 0);
    assert r[1..] == MapQuantity(items[1..], id, true, 0);
    if k == 0 {
      var rest := items[1..];
      assert Absent(rest, id) by {
        forall i | 0 <= i < |rest| ensures rest[i].mealId != id { assert rest[i] == items[i + 1]; }
      }
      UnchangedWhenAbsent(rest, id, true, 0);
      PriceBump(items[0]);
      assert TotalPrice(r) == r[0].price * r[0].quantity + TotalPrice(r[1..]);
    } else {
      assert items[0].mealId != id;
      assert items[1..][k - 1] == items[k];
      var rest := items[1..];
      assert UniqueIds(rest) by {
        forall i, j | 0 <= i < j < |rest| ensures rest[i].mealId != rest[j].mealId {
          assert rest[i] == items[i + 1] && rest[j] == items[j + 1];
        }
      }
      BumpTotals(rest, id, k - 1);
    }
  }

  /** One more unit of a line adds its price once. */
  lemma PriceBump(x: CartItem)
    ensures x.price * (x.quantity + 1) == x.price * x.quantity + x.price
  {
  }

  lemma UnchangedWhenAbsent(items: seq<CartItem>, id: string, inc: bool, q: int)
    requires Absent(items, id)
    ensures MapQuantity(items, id, inc, q) == items
  {
  }

  /** n adds of one meal to an empty cart give a single line of quantity n. */
  function AddTimes(items: seq<CartItem>, meal: NewMeal, n: nat): seq<CartItem>
  {
    if n == 0 then items else AddItem(AddTimes(items, meal, n - 1), meal)
  }

  lemma {:induction false} AddTimesFromEmpty(meal: NewMeal, n: nat)
    requires n >= 1
    ensures AddTimes([], meal, n) == [WithQuantity(meal, n)]
  {
    if n > 1 {
      AddTimesFromEmpty(meal, n - 1);
      var one := [WithQuantity(meal, n - 1)];
      assert Find(one, meal.mealId) == Some(one[0]);
      assert MapQuantity(one, meal.mealId, true, 0)[0] == WithQuantity(meal, n);
    }
  }

  // ------------------------------------------------------------ remove

  /** Removing an id that is not in the cart changes nothing. */
  lemma {:induction false} RemoveAbsent(items: seq<CartItem>, id: string)
    requires Absent(items, id)
    ensures RemoveItem(items, id) == items
  {
    if items != [] {
      var rest := items[1..];
      assert Absent(rest, id) by {
        forall i | 0 <= i < |rest| ensures rest[i].mealId != id { assert rest[i] == items[i + 1]; }
      }
      RemoveAbsent(rest, id);
      assert [items[0]] + rest == items;
    }
  }

  /** Removing works line by line: it distributes over concatenation, so the kept
      lines stay in their original order. */
  lemma {:induction false} RemoveAppend(a: seq<CartItem>, b: seq<CartItem>, id: string)
    ensures RemoveItem(a + b, id) == RemoveItem(a, id) + RemoveItem(b, id)
  {
    if a == [] {
      assert a + b == b;
    } else {
      assert (a + b)[0] == a[0];
      assert (a + b)[1..] == a[1..] + b;
      RemoveAppend(a[1..], b, id);
    }
  }

  /** In a cart with one line per meal, removing the meal of line k cuts out exactly that line. */
  lemma RemoveAt(items: seq<CartItem>, k: nat)
    requires UniqueIds(items) && k < |items|
    ensures RemoveItem(items, items[k].mealId) == items[..k] + items[k + 1..]
  {
    UniqueAround(items, k);
    RemoveLine(items, k);
  }

  /** Cutting `items` at line k and removing that line's meal, absent elsewhere. */
  lemma RemoveLine(items: seq<CartItem>, k: nat)
    requires k < |items|
    requires Absent(items[..k], items[k].mealId) && Absent(items[k + 1..], items[k].mealId)
    ensures RemoveItem(items, items[k].mealId) == items[..k] + items[k + 1..]
  {
    SplitAt(items, k);
    RemoveAroundLine(items[..k], items[k], items[k + 1..]);
  }

  /** A cart is the lines before line k, line k, and the lines after it. */
  lemma SplitAt(items: seq<CartItem>, k: nat)
    requires k < |items|
    ensures items == items[..k] + ([items[k]] + items[k + 1..])
  {
  }

  /** With one line per meal, the meal of line k occurs neither before nor after it. */
  lemma UniqueAround(items: seq<CartItem>, k: nat)
    requires UniqueIds(items) && k < |items|
    ensures Absent(items[..k], items[k].mealId) && Absent(items[k + 1..], items[k].mealId)
  {
    var id, head, tail := items[k].mealId, items[..k], items[k + 1..];
    forall i | 0 <= i < |head| ensures head[i].mealId != id { assert head[i] == items[i]; }
    forall i | 0 <= i < |tail| ensures tail[i].mealId != id { assert tail[i] == items[k + 1 + i]; }
  }

  /** Removing the meal of a line whose meal occurs nowhere else cuts out that line. */
  lemma RemoveAroundLine(head: seq<CartItem>, x: CartItem, tail: seq<CartItem>)
    requires Absent(head, x.mealId) && Absent(tail, x.mealId)
    ensures RemoveItem(head + ([x] + tail), x.mealId) == head + tail
  {
    RemoveAppend(head, [x] + tail, x.mealId);
    RemoveAbsent(head, x.mealId);
    assert ([x] + tail)[1..] == tail;
    RemoveAbsent(tail, x.mealId);
  }

  lemma {:induction false} RemoveValid(items: seq<CartItem>, id: string)
    requires Valid(items)
    ensures Valid(RemoveItem(items, id))
  {
    if items != [] {
      var rest := items[1..];
      assert Valid(rest) by {
        forall i, j | 0 <= i < j < |rest| ensures rest[i].mealId != rest[j].mealId {
          assert rest[i] == items[i + 1] && rest[j] == items[j + 1];
        }
        forall i | 0 <= i < |rest| ensures rest[i].quantity >= 1 { assert rest[i] == items[i + 1]; }
      }
      RemoveValid(rest, id);
      var rr := RemoveItem(rest, id);
      if items[0].mealId != id {
        var r := [items[0]] + rr;
        forall j | 0 < j < |r| ensures r[0].mealId != r[j].mealId {
          assert r[j] == rr[j - 1] && rr[j - 1] in rest;
          var t :| 0 <= t < |rest| && rest[t] == r[j];
          assert items[t + 1] == r[j];
        }
        forall i, j | 0 <= i < j < |r| ensures r[i].mealId != r[j].mealId {
          if i > 0 { assert r[i] == rr[i - 1] && r[j] == rr[j - 1]; }
        }
        forall i | 0 <= i < |r| ensures r[i].quantity >= 1 {
          if i > 0 { assert r[i] == rr[i - 1]; }
        }
      }
    }
  }

  /** Removing a line takes its quantity and its price times quantity off the totals. */
  lemma RemoveTotals(items: seq<CartItem>, k: nat)
    requires UniqueIds(items) && k < |items|
    ensures TotalItems(RemoveItem(items, items[k].mealId)) == TotalItems(items) - items[k].quantity
    ensures TotalPrice(RemoveItem(items, items[k].mealId))
            == TotalPrice(items) - items[k].price * items[k].quantity
  {
    RemoveAt(items, k);
    SplitAt(items, k);
    TotalsWithout(items[..k], items[k], items[k + 1..]);
  }

  /** The totals of a cart with line `x` between `p` and `t`, without it. */
  lemma TotalsWithout(p: seq<CartItem>, x: CartItem, t: seq<CartItem>)
    ensures TotalItems(p + t) == TotalItems(p + ([x] + t)) - x.quantity
    ensures TotalPrice(p + t) == TotalPrice(p + ([x] + t)) - x.price * x.quantity
  {
    TotalsAppend(p, t);
    TotalsAppend(p, [x] + t);
    TotalsAppend([x], t);
    TotalsSingleton(x);
  }

  // ------------------------------------------------------------ update

  /** A quantity below 1 has exactly the effect of removing the meal. */
  lemma UpdateBelowOneRemoves(items: seq<CartItem>, id: string, q: int)
    requires q < 1
    ensures UpdateItems(items, id, q) == RemoveItem(items, id)
  {
  }

  /** A quantity of at least 1 is set exactly (not added) on the matching line;
      every other line is unchanged, and nothing changes when the id is absent. */
  lemma UpdateSets(items: seq<CartItem>, id: string, q: int)
    requires q >= 1
    ensures var r := UpdateItems(items, id, q);
      |r| == |items|
      && (forall j :: 0 <= j < |items| && items[j].mealId == id ==> r[j] == items[j].(quantity := q))
      && (forall j :: 0 <= j < |items| && items[j].mealId != id ==> r[j] == items[j])
      && (Absent(items, id) ==> r == items)
  {
    if Absent(items, id) { UnchangedWhenAbsent(items, id, false, q); }
  }

  lemma UpdateValid(items: seq<CartItem>, id: string, q: int)
    requires Valid(items)
    ensures Valid(UpdateItems(items, id, q))
  {
    if q < 1 {
      RemoveValid(items, id);
    } else {
      var r := UpdateItems(items, id, q);
      assert forall j :: 0 <= j < |r| ==> r[j].mealId == items[j].mealId;
    }
  }

  // ------------------------------------------------------------ totals

  /** With every quantity at least 1, the item count is at least the number of lines. */
  lemma {:induction false} TotalItemsAtLeastLines(items: seq<CartItem>)
    requires Positive(items)
    ensures TotalItems(items) >= |items|
  {
    if items != [] {
      var rest := items[1..];
      assert Positive(rest) by {
        forall i | 0 <= i < |rest| ensures rest[i].quantity >= 1 { assert rest[i] == items[i + 1]; }
      }
      TotalItemsAtLeastLines(rest);
    }
  }

  /** A meal A at 100 added twice and a meal B at 50 added once make 3 items for 250;
      removing B leaves 2 for 200; setting A to 0 empties the cart. */
  lemma Scenario(a: NewMeal, b: NewMeal)
    requires a.price == 100 && b.price == 50 && a.mealId != b.mealId
    ensures var c := AddItem(AddItem(AddItem([], a), a), b);
      TotalItems(c) == 3 && TotalPrice(c) == 250
      && TotalItems(RemoveItem(c, b.mealId)) == 2 && TotalPrice(RemoveItem(c, b.mealId)) == 200
      && UpdateItems(RemoveItem(c, b.mealId), a.mealId, 0) == []
  {
    var c1 := AddItem([], a);
    assert c1 == [WithQuantity(a, 1)];
    var c2 := AddItem(c1, a);
    assert Find(c1, a.mealId).Some?;
    assert c2 == [WithQuantity(a, 2)];
    var c := AddItem(c2, b);
    assert Find(c2, b.mealId).None?;
    assert c == [WithQuantity(a, 2), WithQuantity(b, 1)];
    assert c[1..] == [WithQuantity(b, 1)];
    assert c[1..][1..] == [];
    assert RemoveItem(c, b.mealId) == [WithQuantity(a, 2)];
    TotalsSingleton(WithQuantity(a, 2));
    TotalsSingleton(WithQuantity(b, 1));
    assert [WithQuantity(a, 2)][1..] == [];
  }

  // ------------------------------------------------------------ load

  /** What the mount effect leaves in the cart: a saved, non-empty value that
      parses replaces the list; a missing, empty or corrupt one leaves it as it was. */
  function Restore(saved: Option<string>, decode: string -> Option<seq<CartItem>>,
                   current: seq<CartItem>): (r: seq<CartItem>)
    ensures (saved.None? || saved == Some("")) ==> r == current
    ensures saved.Some? && saved.value != "" && decode(saved.value).None? ==> r == current
    ensures saved.Some? && saved.value != "" && decode(saved.value).Some? ==> r == decode(saved.value).value
  {
    match saved
    case Some(s) =>
      if s == "" then current
      else (match decode(s) case Some(xs) => xs case None => current)
    case None => current
  }

  /** Reading the slot: `localStorage.getItem`. */
  function Get(storage: map<string, string>, key: string): (r: Option<string>)
    ensures r.Some? <==> key in storage
    ensures r.Some? ==> r.value == storage[key]
  {
    if key in storage then Some(storage[key]) else None
  }

  /** The cart provider's state: the item list, the loaded flag, and the browser
      storage it mirrors into. The JSON codec is abstract. */
  class CartStore {
    var items: seq<CartItem>
    var isLoaded: bool
    var storage: map<string, string>
    const encode: seq<CartItem> -> string
    const decode: string -> Option<seq<CartItem>>

    constructor (storage0: map<string, string>, encode: seq<CartItem> -> string,
                 decode: string -> Option<seq<CartItem>>)
      ensures items == [] && !isLoaded && storage == storage0
      ensures this.encode == encode && this.decode == decode
    {
      items := [];
      isLoaded := false;
      storage := storage0;
      this.encode := encode;
      this.decode := decode;
    }

    /** The save effect: writes the list under the cart key, but only once loaded. */
    method SaveEffect()
      modifies this`storage
      ensures isLoaded ==> storage == old(storage)[StorageKey := encode(items)]
      ensures !isLoaded ==> storage == old(storage)
    {
      if isLoaded {
        storage := storage[StorageKey := encode(items)];
      }
    }

    /** The mount effect, followed by the save effect it triggers. A corrupt saved
        value is dropped with a log line; it never throws. */
    method Load()
      modifies this`items, this`isLoaded, this`storage
      ensures isLoaded
      ensures items == Restore(Get(old(storage), StorageKey), decode, old(items))
      ensures storage == old(storage)[StorageKey := encode(items)]
    {
      var saved := Get(storage, StorageKey);
      if saved.Some? && saved.value != "" {
        match decode(saved.value) {
          case Some(xs) => items := xs;
          case None =>
        }
      }
      isLoaded := true;
      SaveEffect();
    }

    method AddToCart(meal: NewMeal) returns (notice: Notice)
      modifies this`items, this`storage
      ensures items == AddItem(old(items), meal)
      ensures Valid(old(items)) ==> Valid(items)
      ensures notice == if Find(old(items), meal.mealId).Some?
                        then Info(meal.name + " already in cart. Quantity added!")
                        else Success(meal.name + " added to cart!")
      ensures isLoaded ==> storage == old(storage)[StorageKey := encode(items)]
      ensures !isLoaded ==> storage == old(storage)
    {
      if Valid(items) { AddValid(items, meal); }
      var existing := Find(items, meal.mealId);
      if existing.Some? {
        notice := Info(meal.name + " already in cart. Quantity added!");
      } else {
        notice := Success(meal.name + " added to cart!");
      }
      items := AddItem(items, meal);
      SaveEffect();
    }

    method RemoveFromCart(mealId: string) returns (notice: Option<Notice>)
      modifies this`items, this`storage
      ensures items == RemoveItem(old(items), mealId)
      ensures Valid(old(items)) ==> Valid(items)
      ensures notice == match Find(old(items), mealId)
                        case Some(it) => Some(Info(it.name + " removed from cart"))
                        case None => None
      ensures isLoaded ==> storage == old(storage)[StorageKey := encode(items)]
      ensures !isLoaded ==> storage == old(storage)
    {
      if Valid(items) { RemoveValid(items, mealId); }
      match Find(items, mealId) {
        case Some(it) => notice := Some(Info(it.name + " removed from cart"));
        case None => notice := None;
      }
      items := RemoveItem(items, mealId);
      SaveEffect();
    }

    method UpdateQuantity(mealId: string, quantity: int) returns (notice: Option<Notice>)
      modifies this`items, this`storage
      ensures items == UpdateItems(old(items), mealId, quantity)
      ensures Valid(old(items)) ==> Valid(items)
      ensures quantity >= 1 ==> notice.None?
      ensures quantity < 1 ==> notice == match Find(old(items), mealId)
                        case Some(it) => Some(Info(it.name + " removed from cart"))
                        case None => None
      ensures isLoaded ==> storage == old(storage)[StorageKey := encode(items)]
      ensures !isLoaded ==> storage == old(storage)
    {
      if quantity < 1 {
        notice := RemoveFromCart(mealId);
        return;
      }
      if Valid(items) { UpdateValid(items, mealId, quantity); }
      notice := None;
      items := MapQuantity(items, mealId, false, quantity);
      SaveEffect();
    }

    /** Empties the list and removes the key; the save effect that the change of
        list triggers then writes the empty list back under the key. */
    method ClearCart()
      modifies this`items, this`storage
      ensures items == [] && TotalItems(items) == 0 && TotalPrice(items) == 0
      ensures isLoaded ==> storage == (old(storage) - {StorageKey})[StorageKey := encode([])]
      ensures !isLoaded ==> storage == old(storage) - {StorageKey}
      ensures forall k :: k != StorageKey ==> (k in storage <==> k in old(storage))
      ensures forall k :: k != StorageKey && k in storage ==> storage[k] == old(storage)[k]
    {
      items := [];
      storage := storage - {StorageKey};
      SaveEffect();
    }
  }

  /** Clearing then reloading yields an empty cart whenever the codec reads back the
      empty list it wrote. */
  method ClearThenReload(c: CartStore) returns (reloaded: CartStore)
    requires c.decode(c.encode([])) == Some([])
    modifies c
    ensures fresh(reloaded) && reloaded.items == [] && reloaded.isLoaded
  {
    c.ClearCart();
    reloaded := new CartStore(c.storage, c.encode, c.decode);
    reloaded.Load();
  }
}
