/** The dashboard's recent orders: the five newest orders, with client and product names. */
module RecentOrders {
  import opened Schema
  import Lookup
  import OrderList

  const UnknownClient := "Unknown Client"
  const UnknownProduct := "Unknown Product"
  const Shown := 5

  /** getClientName: the name of the first client with the id, else "Unknown Client". */
  function ClientName(clients: seq<Client>, id: int): (r: string)
    ensures (forall j :: 0 <= j < |clients| ==> clients[j].id != id) ==> r == UnknownClient
    ensures forall i :: 0 <= i < |clients| && clients[i].id == id && (forall j :: 0 <= j < i ==> clients[j].id != id) ==> r == clients[i].name
  {
    Lookup.NameOr(clients, id, (c: Client) => c.id, (c: Client) => c.name, UnknownClient)
  }

  /** getProductName: the name of the first product with the id, else "Unknown Product". */
  function ProductName(products: seq<Product>, id: int): (r: string)
    ensures (forall j :: 0 <= j < |products| ==> products[j].id != id) ==> r == UnknownProduct
    ensures forall i :: 0 <= i < |products| && products[i].id == id && (forall j :: 0 <= j < i ==> products[j].id != id) ==> r == products[i].name
  {
    Lookup.NameOr(products, id, (p: Product) => p.id, (p: Product) => p.name, UnknownProduct)
  }

  /**
   * The dashboard and the order list name a known client alike; they
   * differ only in the fallback for an unknown id, English here and
   * Portuguese in the list.
   */
  lemma {:induction false} ClientNamesAgreeWithOrderList(clients: seq<Client>, id: int)
    ensures (exists i :: 0 <= i < |clients| && clients[i].id == id) ==>
              ClientName(clients, id) == OrderList.ClientName(clients, id)
    ensures (forall i :: 0 <= i < |clients| ==> clients[i].id != id) ==>
              ClientName(clients, id) == "Unknown Client" && OrderList.ClientName(clients, id) == "Cliente Desconhecido"
  {
    match Lookup.IndexOfId(clients, id, (c: Client) => c.id)
    case None =>
    case Some(k) =>
      assert ClientName(clients, id) == clients[k].name;
      assert OrderList.ClientName(clients, id) == clients[k].name;
  }

  /** Newest first: no order is dated after an order before it. */
  predicate NewestFirst(s: seq<Order>) {
    forall i, j :: 0 <= i < j < |s| ==> s[i].orderDate >= s[j].orderDate
  }

  /**
   * Inserts `o` into a newest-first list in front of the first order that
   * is not newer than it, so orders with equal dates keep their input order.
   */
  function InsertByDate(o: Order, s: seq<Order>): (r: seq<Order>)
    ensures multiset(r) == multiset(s) + multiset{o}
    decreases |s|
  {
    if s == [] || o.orderDate >= s[0].orderDate then
      [o] + s
    else
      assert s == [s[0]] + s[1..];
      [s[0]] + InsertByDate(o, s[1..])
  }

  /** Putting an order no older than everything in a newest-first list in front keeps it newest first. */
  lemma ConsNewestFirst(x: Order, rest: seq<Order>)
    requires NewestFirst(rest)
    requires forall k :: 0 <= k < |rest| ==> x.orderDate >= rest[k].orderDate
    ensures NewestFirst([x] + rest)
  {
    var r := [x] + rest;
    forall i, j | 0 <= i < j < |r| ensures r[i].orderDate >= r[j].orderDate {
      assert r[j] == rest[j - 1];
      if i > 0 {
        assert r[i] == rest[i - 1];
      }
    }
  }

  /** The head of a newest-first list is no older than anything after it. */
  lemma HeadIsNewest(s: seq<Order>)
    requires NewestFirst(s) && s != []
    ensures forall x :: x in multiset(s[1..]) ==> s[0].orderDate >= x.orderDate
  {
    forall x | x in multiset(s[1..]) ensures s[0].orderDate >= x.orderDate {
      assert x in s[1..];
      var j :| 0 <= j < |s[1..]| && s[1..][j] == x;
      assert s[j + 1] == x;
    }
  }

  /** Inserting into a newest-first list keeps it newest first. */
  lemma {:induction false} InsertByDateSorted(o: Order, s: seq<Order>)
    requires NewestFirst(s)
    ensures NewestFirst(InsertByDate(o, s))
    decreases |s|
  {
    if !(s == [] || o.orderDate >= s[0].orderDate) {
      var rest := InsertByDate(o, s[1..]);
      InsertByDateSorted(o, s[1..]);
      HeadIsNewest(s);
      forall k | 0 <= k < |rest| ensures s[0].orderDate >= rest[k].orderDate {
        assert rest[k] in multiset(rest);
      }
      ConsNewestFirst(s[0], rest);
    }
  }

  /** `[...orders].sort((a, b) => b.orderDate - a.orderDate)`: a stable newest-first ordering of a copy. */
  function SortNewestFirst(orders: seq<Order>): (r: seq<Order>)
    ensures NewestFirst(r)
    ensures multiset(r) == multiset(orders)
    ensures |r| == |orders|
  {
    if orders == [] then []
    else
      assert orders == [orders[0]] + orders[1..];
      InsertByDateSorted(orders[0], SortNewestFirst(orders[1..]));
      InsertByDate(orders[0], SortNewestFirst(orders[1..]))
  }

  function Min(a: int, b: int): int {
    if a <= b then a else b
  }

  /**
   * Every copy of an order that `all` holds more often than `shown` is no
   * newer than any order in `shown`.
   */
  ghost predicate NoneOmittedIsNewer(shown: seq<Order>, all: multiset<Order>) {
    forall o :: multiset(shown)[o] < all[o] ==> forall i :: 0 <= i < |shown| ==> shown[i].orderDate >= o.orderDate
  }

  /**
   * The first n orders of a newest-first list are newest first, are drawn
   * from the list, and nothing after them is newer than anything in them.
   */
  lemma TopIsNewest(sorted: seq<Order>, n: nat)
    requires NewestFirst(sorted) && n <= |sorted|
    ensures NewestFirst(sorted[..n])
    ensures multiset(sorted[..n]) <= multiset(sorted)
    ensures n == |sorted| ==> sorted[..n] == sorted
    ensures NoneOmittedIsNewer(sorted[..n], multiset(sorted))
  {
    assert sorted == sorted[..n] + sorted[n..];
    assert multiset(sorted) == multiset(sorted[..n]) + multiset(sorted[n..]);
    forall o | multiset(sorted[..n])[o] < multiset(sorted)[o]
      ensures forall i :: 0 <= i < n ==> sorted[i].orderDate >= o.orderDate
    {
      assert o in multiset(sorted[n..]);
      var j :| 0 <= j < |sorted[n..]| && sorted[n..][j] == o;
      assert sorted[n + j] == o;
    }
  }

  /** recentOrders: the sorted copy cut to its first five orders. */
  function Recent(orders: seq<Order>): (r: seq<Order>)
    ensures |r| == Min(Shown, |orders|)
    ensures NewestFirst(r)
    ensures multiset(r) <= multiset(orders)
    ensures |orders| <= Shown ==> multiset(r) == multiset(orders)
    ensures NoneOmittedIsNewer(r, multiset(orders))
  {
    var sorted := SortNewestFirst(orders);
    var n := Min(Shown, |sorted|);
    TopIsNewest(sorted, n);
    sorted[..n]
  }
}
