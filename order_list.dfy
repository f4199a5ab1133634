/** The order list: client and product names for each order, and the search filter. */
module OrderList {
  import opened Schema
  import opened Text
  import opened Sequences
  import Lookup

  const UnknownClient := "Cliente Desconhecido"
  const UnknownProduct := "Produto Desconhecido"

  /** getClientName: the name of the first client with the id, else "Cliente Desconhecido". */
  function ClientName(clients: seq<Client>, id: int): (r: string)
    ensures (forall j :: 0 <= j < |clients| ==> clients[j].id != id) ==> r == UnknownClient
    ensures forall i :: 0 <= i < |clients| && clients[i].id == id && (forall j :: 0 <= j < i ==> clients[j].id != id) ==> r == clients[i].name
  {
    Lookup.NameOr(clients, id, (c: Client) => c.id, (c: Client) => c.name, UnknownClient)
  }

  /** getProductName: the name of the first product with the id, else "Produto Desconhecido". */
  function ProductName(products: seq<Product>, id: int): (r: string)
    ensures (forall j :: 0 <= j < |products| ==> products[j].id != id) ==> r == UnknownProduct
    ensures forall i :: 0 <= i < |products| && products[i].id == id && (forall j :: 0 <= j < i ==> products[j].id != id) ==> r == products[i].name
  {
    Lookup.NameOr(products, id, (p: Product) => p.id, (p: Product) => p.name, UnknownProduct)
  }

  /**
   * The filter predicate: an empty (lowered) query keeps every order;
   * otherwise the lowered query must occur in the lowered client name,
   * product name or status.
   */
  predicate Matches(o: Order, clients: seq<Client>, products: seq<Product>, searchQuery: string) {
    var query := ToLower(searchQuery);
    query == ""
    || Includes(ToLower(ClientName(clients, o.clientId)), query)
    || Includes(ToLower(ProductName(products, o.productId)), query)
    || Includes(ToLower(o.status), query)
  }

  /** filteredOrders: the orders that match, in their original order. */
  function FilterOrders(orders: seq<Order>, clients: seq<Client>, products: seq<Product>, searchQuery: string): (r: seq<Order>)
    ensures IsSubsequence(r, orders)
    ensures forall o :: o in r <==> o in orders && Matches(o, clients, products, searchQuery)
    ensures forall o :: multiset(r)[o] == if Matches(o, clients, products, searchQuery) then multiset(orders)[o] else 0
    ensures searchQuery == "" ==> r == orders
    decreases |orders|
  {
    if orders == [] then []
    else
      var rest := FilterOrders(orders[1..], clients, products, searchQuery);
      SubsequenceCons(orders[0], rest, orders[1..]);
      assert [orders[0]] + orders[1..] == orders;
      assert forall o :: o in orders <==> o == orders[0] || o in orders[1..];
      assert multiset(orders) == multiset{orders[0]} + multiset(orders[1..]);
      if Matches(orders[0], clients, products, searchQuery) then [orders[0]] + rest else rest
  }

  /** Matching a longer query implies matching the query it extends. */
  lemma MatchesNarrows(o: Order, clients: seq<Client>, products: seq<Product>, query: string, more: string)
    requires Matches(o, clients, products, query + more)
    ensures Matches(o, clients, products, query)
  {
    var q := ToLower(query);
    if q != "" {
      ToLowerConcat(query, more);
      var m := ToLower(more);
      if Includes(ToLower(ClientName(clients, o.clientId)), q + m) {
        IncludesPrefix(ToLower(ClientName(clients, o.clientId)), q, m);
      } else if Includes(ToLower(ProductName(products, o.productId)), q + m) {
        IncludesPrefix(ToLower(ProductName(products, o.productId)), q, m);
      } else {
        IncludesPrefix(ToLower(o.status), q, m);
      }
    }
  }

  /** Typing more characters into the search box never brings an order back: the result narrows to a subsequence. */
  lemma {:induction false} FilterOrdersNarrows(orders: seq<Order>, clients: seq<Client>, products: seq<Product>, query: string, more: string)
    ensures IsSubsequence(FilterOrders(orders, clients, products, query + more), FilterOrders(orders, clients, products, query))
    decreases |orders|
  {
    if orders != [] {
      FilterOrdersNarrows(orders[1..], clients, products, query, more);
      var longer := FilterOrders(orders[1..], clients, products, query + more);
      var shorter := FilterOrders(orders[1..], clients, products, query);
      if Matches(orders[0], clients, products, query + more) {
        MatchesNarrows(orders[0], clients, products, query, more);
      }
      SubsequenceCons(orders[0], longer, shorter);
    }
  }
}
