/**
 * The stores API: a case-insensitive search over the catalog of local
 * stores, and the checkout that records an order and answers with its id.
 */
module StoresViews {
  import opened Common

  datatype Item = Item(id: string, name: string, price: real)
  datatype Store = Store(id: string, name: string, items: seq<Item>)

  /** The catalog served when the data file is missing or unreadable. */
  const DefaultStores: seq<Store> := [
    Store("s1", "City Mart", [Item("i1", "Apples (1kg)", 3.5), Item("i2", "Milk (1L)", 1.2)]),
    Store("s2", "Green Grocer", [Item("i3", "Bananas (1kg)", 2.8), Item("i4", "Bread", 1.0)])
  ]

  /** The catalog: the data file's list when it could be read (`file` is Some), else the default. */
  function Catalog(file: Option<seq<Store>>): (r: seq<Store>)
    ensures file.None? ==> r == DefaultStores
    ensures file.Some? ==> r == file.value
  {
    file.GetOr(DefaultStores)
  }

  /** A lowercased query hits a store when it occurs in the store's name or in one of its items' names. */
  predicate Matches(s: Store, q: string)
  {
    Contains(Lower(s.name), q) || exists it :: it in s.items && Contains(Lower(it.name), q)
  }

  /** The list comprehension: the matching stores, in catalog order. */
  function Matching(data: seq<Store>, q: string): seq<Store>
  {
    if data == [] then [] else (if Matches(data[0], q) then [data[0]] else []) + Matching(data[1..], q)
  }

  lemma {:induction false} MatchingMembers(data: seq<Store>, q: string)
    ensures forall s :: s in Matching(data, q) <==> s in data && Matches(s, q)
  {
    if data != [] {
      MatchingMembers(data[1..], q);
      assert data == [data[0]] + data[1..];
    }
  }

  /** Filtering commutes with concatenation, so the catalog's order is kept. */
  lemma {:induction false} MatchingConcat(a: seq<Store>, b: seq<Store>, q: string)
    ensures Matching(a + b, q) == Matching(a, q) + Matching(b, q)
  {
    if a == [] {
      assert a + b == b;
    } else {
      var head := if Matches(a[0], q) then [a[0]] else [];
      assert (a + b)[0] == a[0] && (a + b)[1..] == a[1..] + b;
      MatchingConcat(a[1..], b, q);
      assert Matching(a + b, q) == head + Matching(a[1..] + b, q);
      assert Matching(a, q) == head + Matching(a[1..], q);
    }
  }

  /** The empty string occurs in every name. */
  lemma EmptyQueryMatches(s: Store)
    ensures Matches(s, [])
  {
    assert OccursAt(Lower(s.name), [], 0);
  }

  /**
   * `stores`: the query parameter (absent means empty) is lowercased; an
   * empty query returns the whole catalog, any other keeps exactly the
   * matching stores, in order.
   */
  function Stores(query: Option<string>, file: Option<seq<Store>>): (r: seq<Store>)
    ensures Lower(query.GetOr([])) == [] ==> r == Catalog(file)
    ensures forall s :: s in r <==> s in Catalog(file) && Matches(s, Lower(query.GetOr([])))
  {
    var q := Lower(query.GetOr([]));
    var data := Catalog(file);
    if q == [] then
      forall s | s in data ensures Matches(s, q) {
        EmptyQueryMatches(s);
      }
      data
    else
      MatchingMembers(data, q);
      Matching(data, q)
  }

  /** The result for a catalog split in two is the two halves' results, one after the other. */
  lemma StoresKeepOrder(query: Option<string>, a: seq<Store>, b: seq<Store>)
    ensures Stores(query, Some(a + b)) == Stores(query, Some(a)) + Stores(query, Some(b))
  {
    if Lower(query.GetOr([])) != [] {
      MatchingConcat(a, b, Lower(query.GetOr([])));
    }
  }

  // ---------------------------------------------------------------------
  // Checkout
  // ---------------------------------------------------------------------

  /**
   * A posted price or quantity as `float()` or `int()` reads it: a missing
   * key (the default applies), the converted value, or a value the
   * conversion rejects (null, or text that is not a number).
   */
  datatype Conv<T> = Absent | Converts(value: T) | Rejected

  function ConvOr<T>(c: Conv<T>, default: T): T
  {
    if c.Converts? then c.value else default
  }

  /** A line of the posted `items` list; the keys the total reads may be missing. */
  datatype LineItem = LineItem(storeId: Option<string>, itemId: Option<string>, price: Conv<real>, qty: Conv<int>)

  /** A recorded order. */
  datatype Order = Order(id: string, userId: nat, items: seq<LineItem>, total: real, status: string)

  /** The answer: HTTP 201 with only the order id. */
  datatype Created = Created(status: int, orderId: string)

  /** The total's conversions accept every line. */
  predicate AllConvert(items: seq<LineItem>)
  {
    forall i :: 0 <= i < |items| ==> !items[i].price.Rejected? && !items[i].qty.Rejected?
  }

  /** A line's cost: price (0 when missing) times quantity (1 when missing). */
  function LineCost(it: LineItem): real
  {
    ConvOr(it.price, 0.0) * ConvOr(it.qty, 1) as real
  }

  function OrderTotal(items: seq<LineItem>): real
  {
    SumOf(items, LineCost)
  }

  /**
   * `checkout`: the order under the fresh `uuid` echoes the posted items
   * (none when the key is missing), totals them and is `placed`; the
   * response carries the id alone. A price or quantity the conversions
   * reject raises while the total is computed, so the request fails
   * (None) and no order is written.
   */
  function Checkout(items: Option<seq<LineItem>>, uuid: string, userId: nat): (r: Option<(Order, Created)>)
    ensures r.None? <==> !AllConvert(items.GetOr([]))
    ensures r.Some? ==> r.value.0.id == uuid && r.value.0.userId == userId && r.value.0.status == "placed"
    ensures r.Some? ==> r.value.0.items == items.GetOr([]) && r.value.0.total == OrderTotal(r.value.0.items)
    ensures items.None? ==> r.Some? && r.value.0.total == 0.0
    ensures r.Some? ==> r.value.1 == Created(201, uuid)
  {
    var lines := items.GetOr([]);
    if !AllConvert(lines) then None
    else Some((Order(uuid, userId, lines, OrderTotal(lines), "placed"), Created(201, uuid)))
  }

  /** Lines without a price add nothing to the total. */
  lemma UnpricedLinesAreFree(items: seq<LineItem>)
    requires forall i :: 0 <= i < |items| ==> items[i].price.Absent?
    ensures OrderTotal(items) == 0.0
  {
    SumOfNonNegative(items, LineCost);
    SumOfAtMost(items, LineCost, 0.0);
  }

  /** Lines without a quantity count once: the total is the sum of their prices. */
  lemma UnitQuantityByDefault(items: seq<LineItem>)
    requires forall i :: 0 <= i < |items| ==> items[i].qty.Absent?
    ensures OrderTotal(items) == SumOf(items, (it: LineItem) => ConvOr(it.price, 0.0))
  {
    SumOfPointwise(items, LineCost, items, (it: LineItem) => ConvOr(it.price, 0.0));
  }
}
