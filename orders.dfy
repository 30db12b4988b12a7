/**
 * The order page: the cart (item name to quantity), its total, the order it
 * submits, and the status labels of past orders.
 *
 * The cart is a JavaScript object, whose entries enumerate in insertion order
 * (none of the product names is an integer-like key), so it is modelled as a
 * sequence of entries with distinct names; a name that is not in the cart
 * reads as 0 (`prev[item] || 0`).
 */
module Orders {
  import opened Wrappers
  import Text
  import Server

  datatype Entry = Entry(name: string, qty: int)

  /** Names are distinct (object keys) and no quantity is negative. */
  predicate Wellformed(cart: seq<Entry>) {
    && (forall i, j :: 0 <= i < j < |cart| ==> cart[i].name != cart[j].name)
    && (forall i :: 0 <= i < |cart| ==> cart[i].qty >= 0)
  }

  /** Position of the entry named `name`, or `|cart|` when there is none. */
  function IndexOf(cart: seq<Entry>, name: string): (k: nat)
    ensures k <= |cart|
    ensures k < |cart| ==> cart[k].name == name
    ensures forall j :: 0 <= j < k ==> cart[j].name != name
  {
    if cart == [] then 0
    else if cart[0].name == name then 0
    else 1 + IndexOf(cart[1..], name)
  }

  /** `cart[name] || 0`. */
  function Quantity(cart: seq<Entry>, name: string): (q: int)
    ensures IndexOf(cart, name) < |cart| ==> q == cart[IndexOf(cart, name)].qty
    ensures IndexOf(cart, name) == |cart| ==> q == 0
  {
    if cart == [] then 0
    else if cart[0].name == name then cart[0].qty
    else Quantity(cart[1..], name)
  }

  /** `{...cart, [name]: q}`: an existing entry keeps its place, a new one
      goes last. */
  function Put(cart: seq<Entry>, name: string, q: int): (r: seq<Entry>)
    ensures IndexOf(cart, name) < |cart| ==> r == cart[IndexOf(cart, name) := Entry(name, q)]
    ensures IndexOf(cart, name) == |cart| ==> r == cart + [Entry(name, q)]
  {
    if cart == [] then [Entry(name, q)]
    else if cart[0].name == name then [Entry(name, q)] + cart[1..]
    else [cart[0]] + Put(cart[1..], name, q)
  }

  /** `Math.max(0, old + delta)`. */
  function Clamped(current: int, delta: int): (q: int)
    ensures q >= 0
    ensures q == current + delta || (q == 0 && current + delta < 0)
  {
    if current + delta < 0 then 0 else current + delta
  }

  /** The cart after `updateQuantity(item, delta)`. */
  function Updated(cart: seq<Entry>, item: string, delta: int): seq<Entry> {
    Put(cart, item, Clamped(Quantity(cart, item), delta))
  }

  /** `Object.values(cart).reduce((sum, qty) => sum + qty, 0)`. */
  function Total(cart: seq<Entry>): int {
    if cart == [] then 0 else cart[0].qty + Total(cart[1..])
  }

  lemma {:induction false} TotalNonNegative(cart: seq<Entry>)
    requires Wellformed(cart)
    ensures Total(cart) >= 0
    ensures Total(cart) == 0 <==> forall i :: 0 <= i < |cart| ==> cart[i].qty == 0
  {
    if cart != [] {
      assert Wellformed(cart[1..]);
      TotalNonNegative(cart[1..]);
      assert forall i :: 0 < i < |cart| ==> cart[i] == cart[1..][i - 1];
    }
  }

  /** `updateQuantity(item, delta)`: the entry for `item` becomes
      `max(0, old + delta)`, every other entry is untouched, the cart stays
      well formed and the total moves by the change of that one entry. */
  lemma {:induction false} UpdatedSpec(cart: seq<Entry>, item: string, delta: int)
    requires Wellformed(cart)
    ensures var r := Updated(cart, item, delta);
      && Wellformed(r)
      && Quantity(r, item) == Clamped(Quantity(cart, item), delta)
      && (forall other :: other != item ==> Quantity(r, other) == Quantity(cart, other))
      && (forall other :: other != item ==> (IndexOf(r, other) < |r| <==> IndexOf(cart, other) < |cart|))
      && Total(r) == Total(cart) - Quantity(cart, item) + Quantity(r, item)
  {
    PutSpec(cart, item, Clamped(Quantity(cart, item), delta));
  }

  lemma PutSpec(cart: seq<Entry>, name: string, q: int)
    requires Wellformed(cart) && q >= 0
    ensures var r := Put(cart, name, q);
      && Wellformed(r)
      && Quantity(r, name) == q
      && (forall other :: other != name ==> Quantity(r, other) == Quantity(cart, other))
      && (forall other :: other != name ==> (IndexOf(r, other) < |r| <==> IndexOf(cart, other) < |cart|))
      && (forall other :: other != name && IndexOf(cart, other) < |cart| ==> IndexOf(r, other) == IndexOf(cart, other))
      && Total(r) == Total(cart) - Quantity(cart, name) + q
  {
    PutWellformed(cart, name, q);
    PutQuantity(cart, name, q);
    PutKeys(cart, name, q);
    PutPositions(cart, name, q);
    PutTotal(cart, name, q);
  }

  lemma PutWellformed(cart: seq<Entry>, name: string, q: int)
    requires Wellformed(cart) && q >= 0
    ensures Wellformed(Put(cart, name, q))
  {
    var k := IndexOf(cart, name);
    var r := Put(cart, name, q);
    if k < |cart| {
      assert forall i :: 0 <= i < |r| ==> r[i].name == cart[i].name;
    } else {
      assert forall i :: 0 <= i < |cart| ==> r[i] == cart[i] && cart[i].name != name;
    }
  }

  lemma {:induction false} PutQuantity(cart: seq<Entry>, name: string, q: int)
    ensures Quantity(Put(cart, name, q), name) == q
    ensures forall other :: other != name ==> Quantity(Put(cart, name, q), other) == Quantity(cart, other)
  {
    if cart != [] && cart[0].name != name {
      PutQuantity(cart[1..], name, q);
      var r := Put(cart, name, q);
      assert r[0] == cart[0] && r[1..] == Put(cart[1..], name, q);
    } else if cart != [] {
      var r := Put(cart, name, q);
      assert r[1..] == cart[1..];
    }
  }

  lemma {:induction false} PutKeys(cart: seq<Entry>, name: string, q: int)
    ensures forall other :: other != name ==>
      (IndexOf(Put(cart, name, q), other) < |Put(cart, name, q)| <==> IndexOf(cart, other) < |cart|)
  {
    if cart != [] && cart[0].name != name {
      PutKeys(cart[1..], name, q);
      var r := Put(cart, name, q);
      assert r[0] == cart[0] && r[1..] == Put(cart[1..], name, q);
    } else if cart != [] {
      var r := Put(cart, name, q);
      assert r[1..] == cart[1..];
    }
  }

  /** Writing one key moves no other entry of the cart. */
  lemma {:induction false} PutPositions(cart: seq<Entry>, name: string, q: int)
    ensures forall other :: other != name && IndexOf(cart, other) < |cart| ==>
      IndexOf(Put(cart, name, q), other) == IndexOf(cart, other)
  {
    if cart != [] && cart[0].name != name {
      PutPositions(cart[1..], name, q);
      var r := Put(cart, name, q);
      assert r[0] == cart[0] && r[1..] == Put(cart[1..], name, q);
    } else if cart != [] {
      var r := Put(cart, name, q);
      assert r[1..] == cart[1..];
    }
  }

  lemma {:induction false} PutTotal(cart: seq<Entry>, name: string, q: int)
    ensures Total(Put(cart, name, q)) == Total(cart) - Quantity(cart, name) + q
  {
    if cart != [] && cart[0].name != name {
      PutTotal(cart[1..], name, q);
      var r := Put(cart, name, q);
      assert r[0] == cart[0] && r[1..] == Put(cart[1..], name, q);
    } else if cart != [] {
      var r := Put(cart, name, q);
      assert r[1..] == cart[1..];
    } else {
      assert Put(cart, name, q)[1..] == [];
    }
  }

  /** Decrementing an item the cart holds none of leaves it at 0. */
  lemma DecrementAtZero(cart: seq<Entry>, item: string)
    requires Quantity(cart, item) == 0
    ensures Quantity(Updated(cart, item, -1), item) == 0
  {
    if IndexOf(cart, item) < |cart| {
      assert Updated(cart, item, -1)[IndexOf(cart, item)] == Entry(item, 0);
    }
  }

  // ---------------------------------------------------------------------
  // handleSubmitOrder
  // ---------------------------------------------------------------------

  /** `Object.entries(cart).filter(qty > 0).map(...)`. */
  function Items(cart: seq<Entry>): (r: seq<Server.OrderItem>)
    ensures forall i :: 0 <= i < |r| ==> r[i].quantity > 0
    ensures |r| <= |cart|
  {
    if cart == [] then []
    else
      (if cart[0].qty > 0 then [Server.OrderItem(cart[0].name, cart[0].qty)] else [])
        + Items(cart[1..])
  }

  /** An item named `name` is submitted. */
  predicate HasItem(items: seq<Server.OrderItem>, name: string) {
    exists i :: 0 <= i < |items| && items[i].productName == name
  }

  function SumQuantities(items: seq<Server.OrderItem>): int {
    if items == [] then 0 else items[0].quantity + SumQuantities(items[1..])
  }

  lemma {:induction false} SumQuantitiesAppend(a: seq<Server.OrderItem>, b: seq<Server.OrderItem>)
    ensures SumQuantities(a + b) == SumQuantities(a) + SumQuantities(b)
  {
    if a != [] {
      assert (a + b)[0] == a[0] && (a + b)[1..] == a[1..] + b;
      SumQuantitiesAppend(a[1..], b);
      assert SumQuantities(a + b) == a[0].quantity + SumQuantities(a[1..] + b);
    } else {
      assert a + b == b;
    }
  }

  /** The submitted items' quantities add up to the cart total. */
  lemma {:induction false} ItemsSum(cart: seq<Entry>)
    requires Wellformed(cart)
    ensures SumQuantities(Items(cart)) == Total(cart)
  {
    if cart != [] {
      var head := if cart[0].qty > 0 then [Server.OrderItem(cart[0].name, cart[0].qty)] else [];
      assert Items(cart) == head + Items(cart[1..]);
      assert Wellformed(cart[1..]);
      ItemsSum(cart[1..]);
      SumQuantitiesAppend(head, Items(cart[1..]));
    }
  }

  /** The first entry is the only one with its name. */
  lemma FirstNameUnique(cart: seq<Entry>)
    requires Wellformed(cart) && cart != []
    ensures Wellformed(cart[1..])
    ensures IndexOf(cart[1..], cart[0].name) == |cart[1..]| && Quantity(cart[1..], cart[0].name) == 0
    ensures forall name :: name != cart[0].name ==>
      Quantity(cart, name) == Quantity(cart[1..], name) && IndexOf(cart, name) == 1 + IndexOf(cart[1..], name)
  {
    assert forall j :: 0 <= j < |cart[1..]| ==> cart[1..][j].name != cart[0].name by {
      assert forall j :: 0 <= j < |cart[1..]| ==> cart[1..][j] == cart[j + 1];
    }
  }

  /** Every submitted item is a positive cart entry, with its quantity. */
  lemma {:induction false} ItemsFromCart(cart: seq<Entry>)
    requires Wellformed(cart)
    ensures forall i :: 0 <= i < |Items(cart)| ==>
      Items(cart)[i].quantity == Quantity(cart, Items(cart)[i].productName)
  {
    if cart != [] {
      var head := if cart[0].qty > 0 then [Server.OrderItem(cart[0].name, cart[0].qty)] else [];
      var rest := Items(cart[1..]);
      var r := Items(cart);
      assert r == head + rest;
      FirstNameUnique(cart);
      ItemsFromCart(cart[1..]);
      forall i | 0 <= i < |r| ensures r[i].quantity == Quantity(cart, r[i].productName) {
        if i >= |head| {
          assert r[i] == rest[i - |head|];
          assert r[i].productName != cart[0].name;
        }
      }
    }
  }

  /** Every positive cart entry is submitted. */
  lemma {:induction false} ItemsCoverCart(cart: seq<Entry>)
    requires Wellformed(cart)
    ensures forall name :: Quantity(cart, name) > 0 ==> HasItem(Items(cart), name)
  {
    if cart != [] {
      var head := if cart[0].qty > 0 then [Server.OrderItem(cart[0].name, cart[0].qty)] else [];
      var rest := Items(cart[1..]);
      var r := Items(cart);
      assert r == head + rest;
      FirstNameUnique(cart);
      ItemsCoverCart(cart[1..]);
      forall name | Quantity(cart, name) > 0 ensures HasItem(r, name) {
        if name == cart[0].name {
          assert Quantity(cart, name) == cart[0].qty;
          assert r[0] == head[0] && r[0].productName == name;
        } else {
          assert Quantity(cart[1..], name) > 0;
          assert HasItem(rest, name);
          var i :| 0 <= i < |rest| && rest[i].productName == name;
          assert r[|head| + i] == rest[i];
        }
      }
    }
  }

  /** The items' names occur in `cart` in the items' order. */
  predicate InCartOrder(r: seq<Server.OrderItem>, cart: seq<Entry>) {
    forall i, j :: 0 <= i < j < |r| ==> IndexOf(cart, r[i].productName) < IndexOf(cart, r[j].productName)
  }

  /** Submitted items keep the cart's order. */
  lemma {:induction false} ItemsInCartOrder(cart: seq<Entry>)
    requires Wellformed(cart)
    ensures InCartOrder(Items(cart), cart)
  {
    if cart != [] {
      var rest := Items(cart[1..]);
      FirstNameUnique(cart);
      ItemsFromCart(cart[1..]);
      ItemsInCartOrder(cart[1..]);
      forall i | 0 <= i < |rest| ensures rest[i].productName != cart[0].name {
        assert Quantity(cart[1..], rest[i].productName) == rest[i].quantity > 0;
      }
      OrderBehindFirst(cart, rest);
      if cart[0].qty > 0 {
        OrderAfterFirst(cart, rest, cart[0].qty);
      }
    }
  }

  /** Items in the order of the cart's tail, none named like its first
      entry, are in the order of the whole cart. */
  lemma OrderBehindFirst(cart: seq<Entry>, rest: seq<Server.OrderItem>)
    requires Wellformed(cart) && cart != [] && InCartOrder(rest, cart[1..])
    requires forall i :: 0 <= i < |rest| ==> rest[i].productName != cart[0].name
    ensures InCartOrder(rest, cart)
  {
    FirstNameUnique(cart);
    forall i, j | 0 <= i < j < |rest| ensures IndexOf(cart, rest[i].productName) < IndexOf(cart, rest[j].productName) {
      assert rest[i].productName != cart[0].name && rest[j].productName != cart[0].name;
    }
  }

  /** The first entry's item goes before them. */
  lemma OrderAfterFirst(cart: seq<Entry>, rest: seq<Server.OrderItem>, q: int)
    requires cart != [] && InCartOrder(rest, cart)
    requires forall i :: 0 <= i < |rest| ==> rest[i].productName != cart[0].name
    ensures InCartOrder([Server.OrderItem(cart[0].name, q)] + rest, cart)
  {
    var r := [Server.OrderItem(cart[0].name, q)] + rest;
    forall i, j | 0 <= i < j < |r| ensures IndexOf(cart, r[i].productName) < IndexOf(cart, r[j].productName) {
      assert r[j] == rest[j - 1];
      if i > 0 { assert r[i] == rest[i - 1]; }
    }
  }

  /** The submitted items are exactly the cart's positive entries, in cart
      order, each with its quantity; their quantities add up to the total. */
  lemma ItemsSpec(cart: seq<Entry>)
    requires Wellformed(cart)
    ensures var r := Items(cart);
      && (forall i :: 0 <= i < |r| ==> r[i].quantity == Quantity(cart, r[i].productName))
      && (forall name :: Quantity(cart, name) > 0 <==> HasItem(r, name))
      && (forall i, j :: 0 <= i < j < |r| ==> IndexOf(cart, r[i].productName) < IndexOf(cart, r[j].productName))
      && SumQuantities(r) == Total(cart)
  {
    ItemsSum(cart);
    ItemsFromCart(cart);
    ItemsCoverCart(cart);
    ItemsInCartOrder(cart);
  }

  /** The name of an entry reads its quantity. */
  lemma QuantityOfEntry(cart: seq<Entry>, i: nat)
    requires Wellformed(cart) && i < |cart|
    ensures Quantity(cart, cart[i].name) == cart[i].qty
  {
    var k := IndexOf(cart, cart[i].name);
    assert k == i;
  }

  /** A cart with nothing to submit totals 0. */
  lemma NoItemsNoTotal(cart: seq<Entry>)
    requires Wellformed(cart) && Items(cart) == []
    ensures Total(cart) == 0
  {
    ItemsCoverCart(cart);
    TotalNonNegative(cart);
    forall i | 0 <= i < |cart| ensures cart[i].qty == 0 {
      QuantityOfEntry(cart, i);
      assert !HasItem(Items(cart), cart[i].name);
    }
  }

  /** `Math.floor(1000 + Math.random() * 9000)`. */
  type OrderNumber = n: int | 1000 <= n <= 9999 witness 1000

  /** The `create` body of `handleSubmitOrder`, or None when the cart has no
      positive entry and nothing is sent. */
  function Payload(cart: seq<Entry>, n: OrderNumber): (r: Option<Server.OrderCreate>)
    requires Wellformed(cart)
    ensures r.None? <==> Total(cart) == 0
    ensures r.Some? ==>
      && r.value.items == Items(cart)
      && r.value.status == Some("processing")
      && r.value.totalItems == Total(cart) == SumQuantities(r.value.items)
      && r.value.orderNumber == "#" + Text.NatToDecimal(n) && |r.value.orderNumber| == 5
  {
    var items := Items(cart);
    ItemsFromCart(cart);
    TotalNonNegative(cart);
    if items == [] then
      NoItemsNoTotal(cart);
      None
    else
      var number := "#" + Text.NatToDecimal(n);
      FourDigits(n);
      ItemsSum(cart);
      assert Quantity(cart, items[0].productName) > 0;
      Some(Server.OrderCreate(number, Some("processing"), items, Total(cart)))
  }

  lemma FourDigits(n: OrderNumber)
    ensures |Text.NatToDecimal(n)| == 4
  {
    assert 100 <= n / 10 < 1000 && 10 <= n / 100 < 100 && 1 <= n / 1000 < 10;
    assert |Text.NatToDecimal(n / 1000)| == 1;
    assert |Text.NatToDecimal(n / 100)| == 2 by { assert (n / 100) / 10 == n / 1000; }
    assert |Text.NatToDecimal(n / 10)| == 3 by { assert (n / 10) / 10 == n / 100; }
  }

  // ---------------------------------------------------------------------
  // Status labels
  // ---------------------------------------------------------------------

  /** `getStatusText`. */
  function StatusText(status: string): string {
    if status == "processing" then "Обрабатывается"
    else if status == "ready" then "Готова"
    else "Завершена"
  }

  /** `getStatusColor`. */
  function StatusColor(status: string): string {
    if status == "processing" then "bg-orange-100 text-orange-800"
    else if status == "ready" then "bg-green-100 text-green-800"
    else "bg-gray-100 text-gray-800"
  }

  /** Label and colour sort statuses into the same three classes:
      'processing', 'ready', and everything else ('Завершена', gray). */
  lemma StatusClasses(status: string)
    ensures StatusText(status) == "Обрабатывается" <==> status == "processing"
    ensures StatusText(status) == "Готова" <==> status == "ready"
    ensures StatusText(status) == "Завершена" <==> StatusColor(status) == "bg-gray-100 text-gray-800"
    ensures StatusText(status) == "Завершена" <==> status != "processing" && status != "ready"
  {
  }

  // ---------------------------------------------------------------------
  // The page state
  // ---------------------------------------------------------------------

  class OrdersPage {
    var cart: seq<Entry>
    var showSuccess: bool

    ghost predicate Valid()
      reads this
    {
      Wellformed(cart)
    }

    constructor ()
      ensures Valid() && cart == [] && !showSuccess
    {
      cart, showSuccess := [], false;
    }

    /** `getTotalItems`. */
    function TotalItems(): (t: int)
      reads this
      requires Valid()
      ensures t >= 0
      ensures t == 0 <==> forall i :: 0 <= i < |cart| ==> cart[i].qty == 0
      ensures t == Total(cart) && t == SumQuantities(Items(cart))
    {
      TotalNonNegative(cart);
      ItemsSum(cart);
      Total(cart)
    }

    /** `updateQuantity(item, delta)`. */
    method UpdateQuantity(item: string, delta: int)
      requires Valid()
      modifies this`cart
      ensures Valid()
      ensures cart == Updated(old(cart), item, delta)
    {
      UpdatedSpec(cart, item, delta);
      cart := Updated(cart, item, delta);
    }

    /** `handleSubmitOrder` with the order number drawn and the create's
        outcome given: the body sent, if any, and on success the cart reset
        and the confirmation shown. */
    method SubmitOrder(n: OrderNumber, created: bool) returns (sent: Option<Server.OrderCreate>)
      requires Valid()
      modifies this
      ensures Valid()
      ensures sent == Payload(old(cart), n)
      ensures sent.Some? && created ==> cart == [] && showSuccess
      ensures !(sent.Some? && created) ==> cart == old(cart) && showSuccess == old(showSuccess)
    {
      sent := Payload(cart, n);
      if sent.Some? && created {
        cart, showSuccess := [], true;
      }
    }

    /** The `setTimeout` that hides the confirmation. */
    method HideSuccess()
      modifies this`showSuccess
      ensures !showSuccess
    {
      showSuccess := false;
    }
  }
}
