/**
 * The local-stores page: the store list fetched for the search box, the
 * shopping cart that merges repeated items, its running total, and the
 * checkout that posts the cart and clears it once the order is placed.
 */
module StoresPage {
  import opened Common
  import opened StoresViews

  /** A cart entry: the item's store and id, its name and price, and how many. */
  datatype CartLine = CartLine(storeId: string, itemId: string, name: string, price: real, qty: int)

  /** What checkout posts for each entry. */
  datatype PayloadItem = PayloadItem(storeId: string, itemId: string, qty: int)

  /** The checkout call's outcome: the order was placed (with the id the server sent, if any), or it threw. */
  datatype Reply = Placed(orderId: Option<string>) | Failed

  predicate IsLine(x: CartLine, storeId: string, itemId: string)
  {
    x.itemId == itemId && x.storeId == storeId
  }

  /** No two entries are for the same item of the same store. */
  predicate NoRepeatedItem(cart: seq<CartLine>)
  {
    forall i, j :: 0 <= i < j < |cart| ==> !IsLine(cart[j], cart[i].storeId, cart[i].itemId)
  }

  /** `findIndex`: the first entry for the item, if any. */
  function FindLine(cart: seq<CartLine>, storeId: string, itemId: string): (r: Option<nat>)
    ensures r.Some? ==>
      && r.value < |cart| && IsLine(cart[r.value], storeId, itemId)
      && forall j :: 0 <= j < r.value ==> !IsLine(cart[j], storeId, itemId)
    ensures r.None? <==> forall j :: 0 <= j < |cart| ==> !IsLine(cart[j], storeId, itemId)
  {
    if cart == [] then None
    else if IsLine(cart[0], storeId, itemId) then Some(0)
    else match FindLine(cart[1..], storeId, itemId)
      case None => None
      case Some(k) => Some(k + 1)
  }

  /** The new entry for an item not yet in the cart. */
  function NewLine(s: Store, it: Item): CartLine
  {
    CartLine(s.id, it.id, it.name, it.price, 1)
  }

  /** The cart `addToCart` leaves: the item's entry with one more, or a new entry at the end. */
  function Added(prev: seq<CartLine>, s: Store, it: Item): seq<CartLine>
  {
    match FindLine(prev, s.id, it.id)
    case Some(i) => prev[i := prev[i].(qty := prev[i].qty + 1)]
    case None => prev + [NewLine(s, it)]
  }

  /**
   * Adding an item already in a cart without repeats raises that entry's
   * quantity by one and leaves every other entry, and the length, as they were.
   */
  lemma AddIncrements(prev: seq<CartLine>, s: Store, it: Item)
    requires NoRepeatedItem(prev)
    requires exists j :: 0 <= j < |prev| && IsLine(prev[j], s.id, it.id)
    ensures |Added(prev, s, it)| == |prev|
    ensures forall j :: 0 <= j < |prev| ==>
      Added(prev, s, it)[j] == if IsLine(prev[j], s.id, it.id) then prev[j].(qty := prev[j].qty + 1) else prev[j]
  {
    var i := FindLine(prev, s.id, it.id).value;
    forall j | 0 <= j < |prev| && j != i
      ensures !IsLine(prev[j], s.id, it.id)
    {
      if j < i {
      } else {
        assert !IsLine(prev[j], prev[i].storeId, prev[i].itemId);
      }
    }
  }

  /** Adding a new item appends one entry with quantity 1. */
  lemma AddAppends(prev: seq<CartLine>, s: Store, it: Item)
    requires forall j :: 0 <= j < |prev| ==> !IsLine(prev[j], s.id, it.id)
    ensures Added(prev, s, it) == prev + [CartLine(s.id, it.id, it.name, it.price, 1)]
  {
  }

  /** Adding never creates a second entry for the same item. */
  lemma AddKeepsNoRepeats(prev: seq<CartLine>, s: Store, it: Item)
    requires NoRepeatedItem(prev)
    ensures NoRepeatedItem(Added(prev, s, it))
  {
    var r := Added(prev, s, it);
    if FindLine(prev, s.id, it.id).None? {
      forall i, j | 0 <= i < j < |r| ensures !IsLine(r[j], r[i].storeId, r[i].itemId) {
        if j == |prev| {
          assert !IsLine(prev[i], s.id, it.id);
        }
      }
    }
  }

  /** One entry's share of the total. */
  function LineTotal(x: CartLine): real
  {
    x.price * x.qty as real
  }

  /** `total`: price times quantity, summed over the cart. */
  function Total(cart: seq<CartLine>): real
  {
    SumOf(cart, LineTotal)
  }

  /** Adding an item raises the total by one unit of its price: the price in its entry, or the catalog's for a new entry. */
  lemma AddedTotal(prev: seq<CartLine>, s: Store, it: Item)
    ensures FindLine(prev, s.id, it.id).Some? ==>
      Total(Added(prev, s, it)) == Total(prev) + prev[FindLine(prev, s.id, it.id).value].price
    ensures FindLine(prev, s.id, it.id).None? ==> Total(Added(prev, s, it)) == Total(prev) + it.price
  {
    var found := FindLine(prev, s.id, it.id);
    if found.Some? {
      BumpTotal(prev, found.value);
    } else {
      SumOfAppend(prev, NewLine(s, it), LineTotal);
    }
  }

  lemma BumpTotal(cart: seq<CartLine>, i: nat)
    requires i < |cart|
    ensures Total(cart[i := cart[i].(qty := cart[i].qty + 1)]) == Total(cart) + cart[i].price
  {
    SumOfUpdate(cart, i, cart[i].(qty := cart[i].qty + 1), LineTotal);
    OneMoreUnit(cart[i]);
  }

  /** One more unit adds one price to an entry's share. */
  lemma OneMoreUnit(x: CartLine)
    ensures LineTotal(x.(qty := x.qty + 1)) == LineTotal(x) + x.price
  {
    assert (x.qty + 1) as real == x.qty as real + 1.0;
    assert x.price * (x.qty as real + 1.0) == x.price * x.qty as real + x.price;
  }

  /** The posted entry keeps the store id, item id and quantity only. */
  function Strip(x: CartLine): PayloadItem
  {
    PayloadItem(x.storeId, x.itemId, x.qty)
  }

  /** The checkout payload: one entry per cart entry, in cart order. */
  function Payload(cart: seq<CartLine>): (r: seq<PayloadItem>)
    ensures |r| == |cart|
    ensures forall i :: 0 <= i < |cart| ==>
      r[i].storeId == cart[i].storeId && r[i].itemId == cart[i].itemId && r[i].qty == cart[i].qty
  {
    if cart == [] then [] else [Strip(cart[0])] + Payload(cart[1..])
  }

  /** How the stores API reads a posted entry: its price key is absent. */
  function AsPosted(p: PayloadItem): LineItem
  {
    LineItem(Some(p.storeId), Some(p.itemId), Absent, Converts(p.qty))
  }

  /** The lines the stores API reads from the page's payload. */
  function PostedLines(cart: seq<CartLine>): (r: seq<LineItem>)
    ensures |r| == |cart|
    ensures forall i :: 0 <= i < |r| ==>
      r[i].price == Absent && r[i].qty == Converts(cart[i].qty) &&
      r[i].storeId == Some(cart[i].storeId) && r[i].itemId == Some(cart[i].itemId)
  {
    seq(|cart|, i requires 0 <= i < |cart| => AsPosted(Payload(cart)[i]))
  }

  /** The lines a payload carrying each entry's price would give. */
  function PricedLines(cart: seq<CartLine>): (r: seq<LineItem>)
    ensures |r| == |cart|
  {
    seq(|cart|, i requires 0 <= i < |cart| =>
      LineItem(Some(cart[i].storeId), Some(cart[i].itemId), Converts(cart[i].price), Converts(cart[i].qty)))
  }

  /**
   * Since the payload carries no prices, the order the stores API records
   * for any cart is placed with a total of 0, whatever the cart's own total.
   */
  lemma PostedOrderTotalIsZero(cart: seq<CartLine>, uuid: string, userId: nat)
    ensures var r := Checkout(Some(PostedLines(cart)), uuid, userId);
      r.Some? && r.value.0.total == 0.0
  {
    UnpricedLinesAreFree(PostedLines(cart));
  }

  /** Had the payload carried each entry's price, the recorded total would equal the cart's. */
  lemma PricedOrderTotalMatches(cart: seq<CartLine>, uuid: string, userId: nat)
    ensures var r := Checkout(Some(PricedLines(cart)), uuid, userId);
      r.Some? && r.value.0.total == Total(cart)
  {
    SumOfPointwise(PricedLines(cart), LineCost, cart, LineTotal);
  }

  /** The alert text after a placed order: its id, or `OK` when the id is missing or empty. */
  function PlacedMessage(orderId: Option<string>): (m: string)
    ensures orderId.Some? && orderId.value != [] ==> m == "Order placed: " + orderId.value
    ensures orderId.None? || orderId.value == [] ==> m == "Order placed: OK"
  {
    "Order placed: " + (if orderId.Some? && orderId.value != [] then orderId.value else "OK")
  }

  const CheckoutFailed := "Checkout failed"

  class Page {
    var query: string
    var stores: seq<Store>
    var cart: seq<CartLine>

    /** The cart has no repeated item and every quantity is at least one. */
    ghost predicate Valid()
      reads this
    {
      NoRepeatedItem(cart) && forall j :: 0 <= j < |cart| ==> cart[j].qty >= 1
    }

    constructor ()
      ensures query == [] && stores == [] && cart == [] && Valid()
    {
      query := [];
      stores := [];
      cart := [];
    }

    /**
     * Typing `q` in the search box, then the effect that fetches for it: the
     * store list becomes the response's list, or empty when it holds none
     * or the call threw.
     */
    method Search(q: string, res: Fetched<Store>)
      modifies this
      ensures query == q && stores == ListOf(res).GetOr([])
      ensures res.Threw? || res.NotList? ==> stores == []
      ensures cart == old(cart)
    {
      query := q;
      match res
      case Paged(results) => stores := results;
      case Bare(list) => stores := list;
      case _ => stores := [];
    }

    /** `addToCart`: the cart becomes `Added(cart, s, it)`, keeping it free of repeats. */
    method AddToCart(s: Store, it: Item)
      requires Valid()
      modifies this
      ensures Valid()
      ensures cart == Added(old(cart), s, it)
      ensures query == old(query) && stores == old(stores)
    {
      AddKeepsNoRepeats(cart, s, it);
      var i := FindLine(cart, s.id, it.id);
      if i.Some? {
        var copy := cart;
        copy := copy[i.value := copy[i.value].(qty := copy[i.value].qty + 1)];
        cart := copy;
      } else {
        cart := cart + [NewLine(s, it)];
      }
    }

    /**
     * `checkout`: posts the payload of the current cart; a placed order
     * empties the cart, a failure leaves it as it was.
     */
    method Checkout(reply: Reply) returns (posted: seq<PayloadItem>, alert: string)
      modifies this
      ensures posted == Payload(old(cart))
      ensures reply.Placed? ==> cart == [] && alert == PlacedMessage(reply.orderId)
      ensures reply.Failed? ==> cart == old(cart) && alert == CheckoutFailed
      ensures query == old(query) && stores == old(stores)
    {
      posted := Payload(cart);
      match reply
      case Placed(id) =>
        alert := PlacedMessage(id);
        cart := [];
      case Failed =>
        alert := CheckoutFailed;
    }
  }
}
