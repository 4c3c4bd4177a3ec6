/**
  The checkout page's cart: a list of entries (product id, name, unit price,
  quantity) that the page changes in place as the cashier adds products,
  edits quantities, removes entries, pays or cancels. The browser's prompts,
  the product lookup and the checkout request's outcome are parameters: what
  parseInt and Number made of the typed text, what the product endpoint
  answered, whether the checkout request succeeded, whether the cashier
  confirmed. Prices are in cents and quantities are integers.
*/
module CheckoutCart {
  import opened Wrappers
  import opened Sales
  import SalesCommit

  /** One cart entry. */
  datatype CartItem = CartItem(productId: int, name: string, price: int, quantity: int)

  /** What parseInt or Number made of the typed text: not a number, or an integer. */
  datatype Numeric = NaN | Num(value: int)

  /** What the product lookup gave: an error (thrown and shown), or the product the server returned. */
  datatype Fetched = FetchFailed | Found(productId: int, name: string, price: int)

  /** The product ids of the cart, in cart order: the ids of its entries as the server sees them. */
  function CartIds(items: seq<CartItem>): (ids: seq<int>)
    ensures |ids| == |items|
    ensures forall i :: 0 <= i < |items| ==> ids[i] == items[i].productId
  {
    Ids(Entries(items))
  }

  /** The cart's invariant: one entry per product, and every quantity positive. */
  predicate WellFormed(items: seq<CartItem>) {
    Distinct(CartIds(items)) && forall i :: 0 <= i < |items| ==> items[i].quantity > 0
  }

  /** cart.find by product id: the first entry with that id, if any. */
  function IndexOf(items: seq<CartItem>, id: int): (k: Option<nat>)
    ensures k.Some? ==> k.value < |items| && items[k.value].productId == id
    ensures k.Some? ==> forall i :: 0 <= i < k.value ==> items[i].productId != id
    ensures k.None? ==> forall i :: 0 <= i < |items| ==> items[i].productId != id
  {
    if items == [] then None
    else if items[0].productId == id then Some(0)
    else match IndexOf(items[1..], id)
      case None => None
      case Some(k) => Some(k + 1)
  }

  /** The quantity addItem adds: the typed number when it is positive, 1 otherwise. */
  function AddQuantity(qty: Numeric): (q: int)
    ensures q > 0
  {
    if qty.Num? && qty.value > 0 then qty.value else 1
  }

  /** The cart after the product p joins it with quantity q: its entry grows, or a new entry is appended. */
  function Added(items: seq<CartItem>, p: Fetched, q: int): seq<CartItem>
    requires p.Found?
  {
    match IndexOf(items, p.productId)
    case Some(k) => items[k := items[k].(quantity := items[k].quantity + q)]
    case None => items + [CartItem(p.productId, p.name, p.price, q)]
  }

  /** addItem: nothing changes for a code that is not a number or a failed lookup. */
  function AddItemTo(items: seq<CartItem>, code: Numeric, qty: Numeric, fetched: Fetched): (r: seq<CartItem>)
    ensures code.NaN? || fetched.FetchFailed? ==> r == items
    ensures |r| == |items| || |r| == |items| + 1
  {
    if code.NaN? || fetched.FetchFailed? then items else Added(items, fetched, AddQuantity(qty))
  }

  /** cart.filter: the entries whose id is not id. */
  function Without(items: seq<CartItem>, id: int): (r: seq<CartItem>)
    ensures |r| <= |items|
    ensures Lacks(r, id)
  {
    if items == [] then []
    else
      var init := Without(items[..|items| - 1], id);
      var last := items[|items| - 1];
      if last.productId == id then init
      else
        assert (init + [last])[..|init|] == init;
        init + [last]
  }

  /** No entry has the id, checked from the last entry back. */
  predicate Lacks(items: seq<CartItem>, id: int) {
    items != [] ==> items[|items| - 1].productId != id && Lacks(items[..|items| - 1], id)
  }

  /** Lacks says exactly that no entry carries the id. */
  lemma {:induction false} LacksMeansNone(items: seq<CartItem>, id: int)
    ensures Lacks(items, id) <==> forall i :: 0 <= i < |items| ==> items[i].productId != id
  {
    if items != [] {
      var init := items[..|items| - 1];
      LacksMeansNone(init, id);
      assert forall i :: 0 <= i < |init| ==> init[i] == items[i];
    }
  }

  /** updateQty: nothing for an unknown id; removal for a quantity that is not a positive number; else the new quantity. */
  function UpdatedQty(items: seq<CartItem>, id: int, qty: Numeric): (r: seq<CartItem>)
    ensures |r| <= |items|
  {
    match IndexOf(items, id)
    case None => items
    case Some(k) => if qty.NaN? || qty.value <= 0 then Without(items, id) else items[k := items[k].(quantity := qty.value)]
  }

  function LineTotal(it: CartItem): int {
    it.price * it.quantity
  }

  /** No entry has a negative price or quantity. */
  predicate NonNegativeLines(items: seq<CartItem>) {
    items != [] ==> items[|items| - 1].price >= 0 && items[|items| - 1].quantity >= 0 && NonNegativeLines(items[..|items| - 1])
  }

  /** computeTotal: the running sum of price * quantity from the first entry to the last. */
  function TotalOf(items: seq<CartItem>): (t: int)
    ensures NonNegativeLines(items) ==> t >= 0
  {
    if items == [] then 0 else TotalOf(items[..|items| - 1]) + LineTotal(items[|items| - 1])
  }

  /** The body the pay button posts: one { product_id, quantity } per entry, in cart order, and no payment method. */
  function RequestLines(items: seq<CartItem>): (lines: seq<RawItem>)
    ensures |lines| == |items|
  {
    seq(|items|, i requires 0 <= i < |items| => Line(Integral(items[i].productId), Integral(items[i].quantity)))
  }

  function PayRequest(items: seq<CartItem>): SalesCommit.Request {
    SalesCommit.Body(Some(Items(RequestLines(items))), None)
  }

  /** The cart as the server's merged request. */
  function Entries(items: seq<CartItem>): (es: seq<Entry>)
    ensures |es| == |items|
    ensures forall i :: 0 <= i < |items| ==> es[i] == Entry(items[i].productId, items[i].quantity)
  {
    seq(|items|, i requires 0 <= i < |items| => Entry(items[i].productId, items[i].quantity))
  }

  // ---------------------------------------------------------------------------
  // Removal
  // ---------------------------------------------------------------------------

  lemma {:induction false} WithoutAbsent(items: seq<CartItem>, id: int)
    requires forall i :: 0 <= i < |items| ==> items[i].productId != id
    ensures Without(items, id) == items
  {
    if items != [] {
      var init := items[..|items| - 1];
      assert forall i :: 0 <= i < |init| ==> init[i] == items[i];
      WithoutAbsent(init, id);
      assert items == init + [items[|items| - 1]];
    }
  }

  lemma {:induction false} WithoutConcat(a: seq<CartItem>, b: seq<CartItem>, id: int)
    ensures Without(a + b, id) == Without(a, id) + Without(b, id)
  {
    if b != [] {
      var init := b[..|b| - 1];
      assert (a + b)[..|a + b| - 1] == a + init;
      assert (a + b)[|a + b| - 1] == b[|b| - 1];
      WithoutConcat(a, init, id);
    } else {
      assert a + b == a;
    }
  }

  /**
    In a well-formed cart, removing id takes out exactly the entry with that id,
    if there is one, and keeps all the others in their order.
  */
  lemma RemovesOneEntry(items: seq<CartItem>, id: int)
    requires Distinct(CartIds(items))
    ensures IndexOf(items, id).None? ==> Without(items, id) == items
    ensures IndexOf(items, id).Some? ==>
      var k := IndexOf(items, id).value;
      Without(items, id) == items[..k] + items[k + 1..]
  {
    match IndexOf(items, id)
    case None =>
      WithoutAbsent(items, id);
    case Some(k) =>
      var before, after := items[..k], items[k + 1..];
      assert items == (before + [items[k]]) + after;
      assert forall i :: 0 <= i < |before| ==> before[i].productId != id;
      LaterIdsDiffer(items, k);
      assert forall i :: 0 <= i < |after| ==> after[i] == items[k + 1 + i];
      WithoutOne(before, items[k], after, id);
  }

  lemma LaterIdsDiffer(items: seq<CartItem>, k: nat)
    requires Distinct(CartIds(items)) && k < |items|
    ensures forall j :: k < j < |items| ==> items[j].productId != items[k].productId
  {
    forall j | k < j < |items| ensures items[j].productId != items[k].productId {
      assert CartIds(items)[k] != CartIds(items)[j];
    }
  }

  lemma WithoutOne(before: seq<CartItem>, x: CartItem, after: seq<CartItem>, id: int)
    requires forall i :: 0 <= i < |before| ==> before[i].productId != id
    requires x.productId == id
    requires forall i :: 0 <= i < |after| ==> after[i].productId != id
    ensures Without((before + [x]) + after, id) == before + after
  {
    WithoutAbsent(before, id);
    WithoutAbsent(after, id);
    assert Without([x], id) == [] by {
      assert [x][..0] == [];
    }
    WithoutConcat(before, [x], id);
    WithoutConcat(before + [x], after, id);
  }

  lemma {:induction false} DistinctOfParts(items: seq<CartItem>, k: nat)
    requires Distinct(CartIds(items)) && k < |items|
    ensures Distinct(CartIds(items[..k] + items[k + 1..]))
  {
    var r := items[..k] + items[k + 1..];
    forall i, j | 0 <= i < j < |r| ensures r[i].productId != r[j].productId {
      var i' := if i < k then i else i + 1;
      var j' := if j < k then j else j + 1;
      assert r[i] == items[i'] && r[j] == items[j'];
      assert CartIds(items)[i'] != CartIds(items)[j'];
    }
  }

  /** removeItem keeps the cart well-formed, and no entry with id is left. */
  lemma RemoveItemEffect(items: seq<CartItem>, id: int)
    requires WellFormed(items)
    ensures WellFormed(Without(items, id))
    ensures id !in CartIds(Without(items, id))
    ensures IndexOf(items, id).None? ==> Without(items, id) == items
    ensures IndexOf(items, id).Some? ==>
      var k := IndexOf(items, id).value;
      Without(items, id) == items[..k] + items[k + 1..]
  {
    RemovesOneEntry(items, id);
    match IndexOf(items, id)
    case None =>
      assert forall j :: 0 <= j < |items| ==> CartIds(items)[j] != id;
    case Some(k) =>
      DistinctOfParts(items, k);
      var r := items[..k] + items[k + 1..];
      forall i | 0 <= i < |r| ensures r[i].quantity > 0 && CartIds(r)[i] != id {
        var i' := if i < k then i else i + 1;
        assert r[i] == items[i'];
        assert CartIds(items)[i'] != CartIds(items)[k];
      }
  }

  // ---------------------------------------------------------------------------
  // Adding and editing
  // ---------------------------------------------------------------------------

  lemma {:induction false} DistinctAfterUpdate(items: seq<CartItem>, k: nat, it: CartItem)
    requires Distinct(CartIds(items)) && k < |items| && it.productId == items[k].productId
    ensures Distinct(CartIds(items[k := it]))
  {
    var r := items[k := it];
    forall i, j | 0 <= i < j < |r| ensures r[i].productId != r[j].productId {
      assert r[i].productId == items[i].productId && r[j].productId == items[j].productId;
      assert CartIds(items)[i] != CartIds(items)[j];
    }
  }

  /**
    addItem: a code that is not a number or a failed lookup leaves the cart as
    it was. Otherwise the quantity is the typed one when positive and 1
    otherwise; a product already in the cart has exactly its entry's quantity
    increased, and a new product is appended with the name and price the server
    returned. The cart stays well-formed.
  */
  lemma AddItemEffect(items: seq<CartItem>, code: Numeric, qty: Numeric, fetched: Fetched)
    requires WellFormed(items)
    ensures WellFormed(AddItemTo(items, code, qty, fetched))
    ensures code.NaN? || fetched.FetchFailed? ==> AddItemTo(items, code, qty, fetched) == items
    ensures code.Num? && fetched.Found? && fetched.productId in CartIds(items) ==>
      var r := AddItemTo(items, code, qty, fetched);
      && |r| == |items|
      && forall i :: 0 <= i < |items| ==>
        r[i] == if items[i].productId == fetched.productId then items[i].(quantity := items[i].quantity + AddQuantity(qty)) else items[i]
    ensures code.Num? && fetched.Found? && fetched.productId !in CartIds(items) ==>
      AddItemTo(items, code, qty, fetched) == items + [CartItem(fetched.productId, fetched.name, fetched.price, AddQuantity(qty))]
  {
    if code.Num? && fetched.Found? {
      var id := fetched.productId;
      var q := AddQuantity(qty);
      match IndexOf(items, id)
      case Some(k) =>
        var it := items[k].(quantity := items[k].quantity + q);
        DistinctAfterUpdate(items, k, it);
        forall i | 0 <= i < |items| && items[i].productId == id ensures i == k {
          assert CartIds(items)[i] == id && CartIds(items)[k] == id;
        }
      case None =>
        var r := items + [CartItem(id, fetched.name, fetched.price, q)];
        forall i, j | 0 <= i < j < |r| ensures CartIds(r)[i] != CartIds(r)[j] {
          if j < |items| {
            assert CartIds(items)[i] != CartIds(items)[j];
          }
        }
        assert id !in CartIds(items);
    }
  }

  /**
    updateQty: an unknown id leaves the cart as it was; a quantity that is not
    a positive number removes the entry; otherwise exactly that entry's quantity
    becomes the new one. The cart stays well-formed.
  */
  lemma UpdateQtyEffect(items: seq<CartItem>, id: int, qty: Numeric)
    requires WellFormed(items)
    ensures WellFormed(UpdatedQty(items, id, qty))
    ensures id !in CartIds(items) ==> UpdatedQty(items, id, qty) == items
    ensures id in CartIds(items) && (qty.NaN? || qty.value <= 0) ==> UpdatedQty(items, id, qty) == Without(items, id)
    ensures id in CartIds(items) && qty.Num? && qty.value > 0 ==>
      var r := UpdatedQty(items, id, qty);
      && |r| == |items|
      && forall i :: 0 <= i < |items| ==>
        r[i] == if items[i].productId == id then items[i].(quantity := qty.value) else items[i]
  {
    match IndexOf(items, id)
    case None =>
      assert id !in CartIds(items);
    case Some(k) =>
      assert CartIds(items)[k] == id;
      if qty.NaN? || qty.value <= 0 {
        RemoveItemEffect(items, id);
      } else {
        DistinctAfterUpdate(items, k, items[k].(quantity := qty.value));
        forall i | 0 <= i < |items| && items[i].productId == id ensures i == k {
          assert CartIds(items)[i] == id && CartIds(items)[k] == id;
        }
      }
  }

  // ---------------------------------------------------------------------------
  // The total
  // ---------------------------------------------------------------------------

  lemma {:induction false} TotalConcat(a: seq<CartItem>, b: seq<CartItem>)
    ensures TotalOf(a + b) == TotalOf(a) + TotalOf(b)
  {
    if b != [] {
      var init := b[..|b| - 1];
      assert (a + b)[..|a + b| - 1] == a + init;
      assert (a + b)[|a + b| - 1] == b[|b| - 1];
      TotalConcat(a, init);
    } else {
      assert a + b == a;
    }
  }

  lemma TotalOfOne(it: CartItem)
    ensures TotalOf([it]) == LineTotal(it)
  {
    assert [it][..0] == [];
  }

  /** The total after entry k is replaced: the old line's total out, the new one's in. */
  lemma TotalAfterUpdate(items: seq<CartItem>, k: nat, it: CartItem)
    requires k < |items|
    ensures TotalOf(items[k := it]) == TotalOf(items) - LineTotal(items[k]) + LineTotal(it)
  {
    var before, after := items[..k], items[k + 1..];
    assert items == before + [items[k]] + after;
    assert items[k := it] == before + [it] + after;
    TotalConcat(before + [items[k]], after);
    TotalConcat(before, [items[k]]);
    TotalConcat(before + [it], after);
    TotalConcat(before, [it]);
    TotalOfOne(items[k]);
    TotalOfOne(it);
  }

  /** Adding q more of a product at price p raises its line's total by p * q. */
  lemma MoreOfLine(it: CartItem, q: int)
    ensures LineTotal(it.(quantity := it.quantity + q)) == LineTotal(it) + it.price * q
  {
    assert it.price * (it.quantity + q) == it.price * it.quantity + it.price * q;
  }

  /** Adding a product raises the total by its unit price (the entry's, when it is already there) times the added quantity. */
  lemma AddItemTotal(items: seq<CartItem>, code: Numeric, qty: Numeric, fetched: Fetched)
    ensures TotalOf(AddItemTo(items, code, qty, fetched)) == TotalOf(items) +
      if code.NaN? || fetched.FetchFailed? then 0
      else if IndexOf(items, fetched.productId).Some? then items[IndexOf(items, fetched.productId).value].price * AddQuantity(qty)
      else fetched.price * AddQuantity(qty)
  {
    if code.Num? && fetched.Found? {
      var q := AddQuantity(qty);
      assert AddItemTo(items, code, qty, fetched) == Added(items, fetched, q);
      match IndexOf(items, fetched.productId)
      case Some(k) =>
        MoreOfEntry(items, k, q);
      case None =>
        NewEntryTotal(items, CartItem(fetched.productId, fetched.name, fetched.price, q));
    }
  }

  lemma MoreOfEntry(items: seq<CartItem>, k: nat, q: int)
    requires k < |items|
    ensures TotalOf(items[k := items[k].(quantity := items[k].quantity + q)]) == TotalOf(items) + items[k].price * q
  {
    TotalAfterUpdate(items, k, items[k].(quantity := items[k].quantity + q));
    MoreOfLine(items[k], q);
  }

  lemma NewEntryTotal(items: seq<CartItem>, it: CartItem)
    ensures TotalOf(items + [it]) == TotalOf(items) + it.price * it.quantity
  {
    TotalConcat(items, [it]);
    TotalOfOne(it);
  }

  /** Removing a product from a well-formed cart lowers the total by exactly its line's total. */
  lemma RemoveItemTotal(items: seq<CartItem>, id: int)
    requires WellFormed(items)
    ensures TotalOf(Without(items, id)) == TotalOf(items) -
      if IndexOf(items, id).Some? then LineTotal(items[IndexOf(items, id).value]) else 0
  {
    RemovesOneEntry(items, id);
    if IndexOf(items, id).Some? {
      TotalWithoutEntry(items, IndexOf(items, id).value);
    }
  }

  lemma TotalWithoutEntry(items: seq<CartItem>, k: nat)
    requires k < |items|
    ensures TotalOf(items[..k] + items[k + 1..]) == TotalOf(items) - LineTotal(items[k])
  {
    var before, after := items[..k], items[k + 1..];
    var x := items[k];
    assert items == (before + [x]) + after;
    TotalConcat(before + [x], after);
    TotalConcat(before, [x]);
    TotalConcat(before, after);
    TotalOfOne(x);
  }

  // ---------------------------------------------------------------------------
  // What the server makes of the cart
  // ---------------------------------------------------------------------------

  /**
    The request the pay button sends for a well-formed, non-empty cart passes
    the server's checks: it is paid in cash, and combine_items turns it into the
    cart's own entries, in cart order, with nothing merged.
  */
  lemma PayRequestCombines(items: seq<CartItem>)
    requires WellFormed(items) && items != []
    ensures ResolvePaymentMethod(PayRequest(items).paymentMethod) == Success("cash")
    ensures Combine(PayRequest(items).items.value) == Success(Entries(items))
  {
    var lines := RequestLines(items);
    assert forall i :: 0 <= i < |lines| ==> CheckLine(lines[i]) == Good(Entry(items[i].productId, items[i].quantity));
    assert AllGood(lines);
    assert GoodEntries(lines) == Entries(items);
    CombineOutcome(Items(lines));
    assert Ids(Entries(items)) == CartIds(items);
    MergeOfDistinct(Entries(items));
  }

  /** The cart page's list of entries. */
  class Cart {
    var items: seq<CartItem>

    ghost predicate Valid()
      reads this
    {
      WellFormed(items)
    }

    constructor()
      ensures items == [] && Valid()
    {
      items := [];
    }

    /** cart.find: the index of the first entry with id. */
    method Find(id: int) returns (k: Option<nat>)
      ensures k == IndexOf(items, id)
    {
      var i := 0;
      while i < |items|
        invariant 0 <= i <= |items|
        invariant forall j :: 0 <= j < i ==> items[j].productId != id
      {
        if items[i].productId == id {
          return Some(i);
        }
        i := i + 1;
      }
      return None;
    }

    /** addItem, from the parsed code and quantity and the lookup's answer. */
    method AddItem(code: Numeric, qty: Numeric, fetched: Fetched)
      requires Valid()
      modifies this
      ensures Valid()
      ensures items == AddItemTo(old(items), code, qty, fetched)
    {
      AddItemEffect(items, code, qty, fetched);
      if code.NaN? {
        return;
      }
      var quantity := AddQuantity(qty);
      if fetched.FetchFailed? {
        return;
      }
      var k := Find(fetched.productId);
      if k.Some? {
        var existing := items[k.value];
        items := items[k.value := existing.(quantity := existing.quantity + quantity)];
      } else {
        items := items + [CartItem(fetched.productId, fetched.name, fetched.price, quantity)];
      }
    }

    /** removeItem. */
    method RemoveItem(id: int)
      requires Valid()
      modifies this
      ensures Valid()
      ensures items == Without(old(items), id)
    {
      RemoveItemEffect(items, id);
      items := Without(items, id);
    }

    /** updateQty. */
    method UpdateQty(id: int, qty: Numeric)
      requires Valid()
      modifies this
      ensures Valid()
      ensures items == UpdatedQty(old(items), id, qty)
    {
      UpdateQtyEffect(items, id, qty);
      var k := Find(id);
      if k.None? {
        return;
      }
      if qty.NaN? || qty.value <= 0 {
        RemoveItem(id);
        return;
      }
      items := items[k.value := items[k.value].(quantity := qty.value)];
    }

    /** computeTotal. */
    function Total(): int
      reads this
    {
      TotalOf(items)
    }

    /**
      The pay button: an empty cart sends nothing; otherwise the request is
      sent, and the cart is emptied when it succeeded and kept when it failed.
    */
    method Pay(succeeded: bool) returns (sent: Option<SalesCommit.Request>)
      requires Valid()
      modifies this
      ensures Valid()
      ensures old(items) == [] ==> sent == None && items == old(items)
      ensures old(items) != [] ==> sent == Some(PayRequest(old(items)))
      ensures old(items) != [] ==> items == if succeeded then [] else old(items)
    {
      if items == [] {
        return None;
      }
      sent := Some(PayRequest(items));
      if succeeded {
        items := [];
      }
    }

    /** The cancel button: the cart is emptied only when it is not empty and the cashier confirms. */
    method Cancel(confirmed: bool)
      requires Valid()
      modifies this
      ensures Valid()
      ensures items == if old(items) != [] && confirmed then [] else old(items)
    {
      if items == [] {
        return;
      }
      if confirmed {
        items := [];
      }
    }
  }

  /**
    A short session: 2 teas, a cake with no number typed (so 1), a tea with -3
    typed (so 1 more); the total is 15.00, and typing 0 for the tea removes it.
  */
  lemma SessionExample()
    ensures var tea := Found(1, "Tea", 400);
      var cake := Found(2, "Cake", 300);
      var c1 := AddItemTo([], Num(1), Num(2), tea);
      var c2 := AddItemTo(c1, Num(2), NaN, cake);
      var c3 := AddItemTo(c2, Num(1), Num(-3), tea);
      && c3 == [CartItem(1, "Tea", 400, 3), CartItem(2, "Cake", 300, 1)]
      && TotalOf(c3) == 1500
      && UpdatedQty(c3, 1, Num(0)) == [CartItem(2, "Cake", 300, 1)]
  {
    var c3 := [CartItem(1, "Tea", 400, 3), CartItem(2, "Cake", 300, 1)];
    assert c3[..1] == [CartItem(1, "Tea", 400, 3)] && c3[..1][..0] == [];
    RemovesOneEntry(c3, 1);
    assert c3[1..] == [CartItem(2, "Cake", 300, 1)];
  }
}
