/** The dashboard's summary cards: client and order counts and the sum of order totals. */
module DashboardCards {
  import opened Numbers
  import opened Schema

  datatype Cards = Cards(totalClients: nat, totalOrders: nat, totalSales: Num)

  /** The value an order adds to the sales figure: its total text read with parseFloat. */
  function OrderTotal(o: Order): Num {
    ParseFloat(o.total)
  }

  /**
   * totalSales: `orders.reduce((sum, o) => sum + parseFloat(o.total), 0)`,
   * folded from the left starting at 0. One total that does not parse
   * makes the whole sum NaN.
   */
  function TotalSales(orders: seq<Order>): (r: Num)
    ensures orders == [] ==> r == Finite(0)
    ensures r.Finite? <==> forall i :: 0 <= i < |orders| ==> OrderTotal(orders[i]).Finite?
  {
    if orders == [] then Finite(0)
    else
      var front := orders[..|orders| - 1];
      assert forall i :: 0 <= i < |front| ==> front[i] == orders[i];
      Add(TotalSales(front), OrderTotal(orders[|orders| - 1]))
  }

  /** The three card figures. */
  function Summary(clients: seq<Client>, orders: seq<Order>): (c: Cards)
    ensures c.totalClients == |clients| && c.totalOrders == |orders|
    ensures c.totalSales == TotalSales(orders)
  {
    Cards(|clients|, |orders|, TotalSales(orders))
  }

  /** The sales figure of two lists joined is the sum of their figures. */
  lemma {:induction false} TotalSalesConcat(a: seq<Order>, b: seq<Order>)
    ensures TotalSales(a + b) == Add(TotalSales(a), TotalSales(b))
    decreases |b|
  {
    if b == [] {
      assert a + b == a;
    } else {
      var last := b[|b| - 1];
      var front := b[..|b| - 1];
      assert (a + b)[..|a + b| - 1] == a + front;
      assert (a + b)[|a + b| - 1] == last;
      TotalSalesConcat(a, front);
      AddAssociative(TotalSales(a), TotalSales(front), OrderTotal(last));
    }
  }

  /** A single order's sales figure is its parsed total. */
  lemma TotalSalesSingle(o: Order)
    ensures TotalSales([o]) == Add(Finite(0), OrderTotal(o))
    ensures OrderTotal(o).Finite? ==> TotalSales([o]) == OrderTotal(o)
  {
    assert [o][..0] == [];
  }
}
