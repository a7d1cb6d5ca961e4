/** The seller dashboard's statistics: verified products counted, quantity
    and price times quantity summed over the seller's own order lines. The
    fold is shared by the one-shot page (src/app/artisan-hub/page.js) and the
    live page driven by two listeners (src/app/page.js). */
module SellerDashboard {
  import opened Seqs
  import opened Catalog

  /** One line of an order, as checkout writes it. */
  datatype OrderItem = OrderItem(id: string, name: string, price: int, quantity: int,
                                 imageUrl: Option<string>, artisanId: string)

  /** The part of an order document the dashboard reads. */
  datatype OrderDoc = OrderDoc(artisanIds: seq<string>, items: seq<OrderItem>)

  datatype Stats = Stats(totalRevenue: int, totalSales: int, activeProducts: int)

  const ZeroStats := Stats(0, 0, 0)

  /** Quantity sold by `uid` over some order lines. */
  function ItemSales(items: seq<OrderItem>, uid: string): int {
    if items == [] then 0
    else
      var last := items[|items| - 1];
      ItemSales(items[..|items| - 1], uid) + (if last.artisanId == uid then last.quantity else 0)
  }

  /** Revenue earned by `uid` over some order lines. */
  function ItemRevenue(items: seq<OrderItem>, uid: string): int {
    if items == [] then 0
    else
      var last := items[|items| - 1];
      ItemRevenue(items[..|items| - 1], uid) + (if last.artisanId == uid then last.price * last.quantity else 0)
  }

  function Sales(orders: seq<OrderDoc>, uid: string): int {
    if orders == [] then 0 else Sales(orders[..|orders| - 1], uid) + ItemSales(orders[|orders| - 1].items, uid)
  }

  function Revenue(orders: seq<OrderDoc>, uid: string): int {
    if orders == [] then 0 else Revenue(orders[..|orders| - 1], uid) + ItemRevenue(orders[|orders| - 1].items, uid)
  }

  /** The `forEach` over orders and their items: revenue and sales start at
      zero and grow only by the lines whose `artisanId` is `uid`. */
  method SumOrders(orders: seq<OrderDoc>, uid: string) returns (revenue: int, sales: int)
    ensures revenue == Revenue(orders, uid) && sales == Sales(orders, uid)
    ensures orders == [] ==> revenue == 0 && sales == 0
  {
    revenue, sales := 0, 0;
    var i := 0;
    while i < |orders|
      invariant 0 <= i <= |orders|
      invariant revenue == Revenue(orders[..i], uid) && sales == Sales(orders[..i], uid)
    {
      var items := orders[i].items;
      var j := 0;
      while j < |items|
        invariant 0 <= j <= |items|
        invariant revenue == Revenue(orders[..i], uid) + ItemRevenue(items[..j], uid)
        invariant sales == Sales(orders[..i], uid) + ItemSales(items[..j], uid)
      {
        var item := items[j];
        if item.artisanId == uid {
          revenue := revenue + item.price * item.quantity;
          sales := sales + item.quantity;
        }
        assert items[..j + 1][..j] == items[..j];
        j := j + 1;
      }
      assert items[..j] == items;
      assert orders[..i + 1][..i] == orders[..i];
      i := i + 1;
    }
    assert orders[..i] == orders;
  }

  /** The indices of the verified products. */
  function VerifiedIndices(products: seq<Product>): set<int> {
    set i | 0 <= i < |products| && products[i].isVerified
  }

  /** `docs.filter(doc => doc.data().isVerified).length`: the number of
      verified products, counted from the last one back. */
  function ActiveCount(products: seq<Product>): (n: nat)
    ensures n <= |products|
    ensures n == |VerifiedIndices(products)|
  {
    if products == [] then 0
    else
      var last := |products| - 1;
      var front := products[..last];
      assert VerifiedIndices(products) ==
        VerifiedIndices(front) + (if products[last].isVerified then {last} else {}) by {
        forall i | i in VerifiedIndices(products) && i < last ensures i in VerifiedIndices(front) {
          assert front[i] == products[i];
        }
        forall i | i in VerifiedIndices(front) ensures i in VerifiedIndices(products) {
          assert front[i] == products[i];
        }
      }
      assert last !in VerifiedIndices(front);
      ActiveCount(front) + (if products[last].isVerified then 1 else 0)
  }

  /** Sums over two batches of orders add up. */
  lemma {:induction false} SalesAppend(a: seq<OrderDoc>, b: seq<OrderDoc>, uid: string)
    ensures Sales(a + b, uid) == Sales(a, uid) + Sales(b, uid)
    ensures Revenue(a + b, uid) == Revenue(a, uid) + Revenue(b, uid)
    decreases |b|
  {
    if b == [] {
      assert a + b == a;
    } else {
      assert (a + b)[..|a + b| - 1] == a + b[..|b| - 1];
      SalesAppend(a, b[..|b| - 1], uid);
    }
  }

  /** A line belonging to another seller changes neither total. */
  lemma {:induction false} ForeignItemIgnored(items: seq<OrderItem>, item: OrderItem, uid: string)
    requires item.artisanId != uid
    ensures ItemSales(items + [item], uid) == ItemSales(items, uid)
    ensures ItemRevenue(items + [item], uid) == ItemRevenue(items, uid)
  {
    assert (items + [item])[..|items|] == items;
  }

  /** With non-negative prices and quantities the totals are non-negative. */
  lemma {:induction false} TotalsNonNegative(orders: seq<OrderDoc>, uid: string)
    requires forall o, it :: o in orders && it in o.items ==> it.price >= 0 && it.quantity >= 0
    ensures Sales(orders, uid) >= 0 && Revenue(orders, uid) >= 0
    decreases |orders|
  {
    if orders != [] {
      TotalsNonNegative(orders[..|orders| - 1], uid);
      ItemTotalsNonNegative(orders[|orders| - 1].items, uid);
    }
  }

  lemma {:induction false} ItemTotalsNonNegative(items: seq<OrderItem>, uid: string)
    requires forall it :: it in items ==> it.price >= 0 && it.quantity >= 0
    ensures ItemSales(items, uid) >= 0 && ItemRevenue(items, uid) >= 0
    decreases |items|
  {
    if items != [] {
      ItemTotalsNonNegative(items[..|items| - 1], uid);
      assert items[|items| - 1] in items;
    }
  }

  /** The one-shot dashboard (src/app/artisan-hub/page.js): with a user,
      one fetch of the seller's products and orders replaces the stats. */
  class HubDashboard {
    var stats: Stats
    var loadingStats: bool

    constructor ()
      ensures stats == ZeroStats && loadingStats
    {
      stats := ZeroStats;
      loadingStats := true;
    }

    /** `fetchDashboardData`. `uid` is the signed-in user (None: nobody);
        `fetched` is the seller's products and the orders naming them (None:
        a query failed, and the stats stay as they were). */
    method Refresh(uid: Option<string>, fetched: Option<(seq<Product>, seq<OrderDoc>)>)
      modifies this
      ensures uid.None? ==> stats == old(stats) && loadingStats == old(loadingStats)
      ensures uid.Some? ==> !loadingStats
      ensures uid.Some? && fetched.None? ==> stats == old(stats)
      ensures uid.Some? && fetched.Some? ==>
        stats == Stats(Revenue(fetched.value.1, uid.value), Sales(fetched.value.1, uid.value), ActiveCount(fetched.value.0))
    {
      if uid.None? {
        return;
      }
      loadingStats := true;
      if fetched.Some? {
        var active := ActiveCount(fetched.value.0);
        var revenue, sales := SumOrders(fetched.value.1, uid.value);
        stats := Stats(revenue, sales, active);
      }
      loadingStats := false;
    }
  }

  /** The live dashboard (src/app/page.js): one listener per collection,
      each merging only its own fields into the stats. */
  class LiveDashboard {
    var stats: Stats
    var loadingStats: bool

    constructor ()
      ensures stats == ZeroStats && loadingStats
    {
      stats := ZeroStats;
      loadingStats := true;
    }

    /** The effect's start: with a user, loading is set before subscribing. */
    method Subscribe(uid: Option<string>)
      modifies this`loadingStats
      ensures loadingStats == (uid.Some? || old(loadingStats))
    {
      if uid.Some? {
        loadingStats := true;
      }
    }

    /** A products snapshot: only `activeProducts` changes. */
    method OnProductsSnapshot(products: seq<Product>)
      modifies this`stats
      ensures stats == old(stats).(activeProducts := ActiveCount(products))
    {
      stats := stats.(activeProducts := ActiveCount(products));
    }

    /** An orders snapshot: revenue and sales recomputed from zero, active
        products kept, loading cleared. */
    method OnOrdersSnapshot(orders: seq<OrderDoc>, uid: string)
      modifies this
      ensures stats == Stats(Revenue(orders, uid), Sales(orders, uid), old(stats).activeProducts)
      ensures !loadingStats
    {
      var revenue, sales := SumOrders(orders, uid);
      stats := stats.(totalRevenue := revenue, totalSales := sales);
      loadingStats := false;
    }

    /** A failure while subscribing. */
    method OnSetupError()
      modifies this`loadingStats
      ensures !loadingStats
    {
      loadingStats := false;
    }
  }

  /** Whichever order the two listeners fire in, the live page ends with the
      same stats as the one-shot page computes. */
  method ListenersAgree(products: seq<Product>, orders: seq<OrderDoc>, uid: string, productsFirst: bool)
    returns (live: Stats, hub: Stats)
    ensures live == hub
    ensures hub == Stats(Revenue(orders, uid), Sales(orders, uid), ActiveCount(products))
  {
    var d := new LiveDashboard();
    d.Subscribe(Some(uid));
    if productsFirst {
      d.OnProductsSnapshot(products);
      d.OnOrdersSnapshot(orders, uid);
    } else {
      d.OnOrdersSnapshot(orders, uid);
      d.OnProductsSnapshot(products);
    }
    live := d.stats;
    var h := new HubDashboard();
    h.Refresh(Some(uid), Some((products, orders)));
    hub := h.stats;
  }
}
