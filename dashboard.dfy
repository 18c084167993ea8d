/** The stock figures of the dashboard summary: active products, total
    units on hand and the number of active products at or below a
    low-stock threshold, for the whole tenant or for one store. */
module Dashboard {
  import opened Http
  import opened Models
  import opened Stock

  const DefaultThreshold: int := 5
  const MinThreshold: int := 0
  const MaxThreshold: int := 9999

  datatype Summary = Summary(productsTotal: nat, stockTotalUnits: int, lowStockCount: nat)

  /** The movements the stock subquery reads: the tenant's, and only the
      given store's when a store is asked for. */
  predicate InScope(m: Movement, tenantId: nat, storeFilter: Option<nat>) {
    m.tenantId == tenantId && (storeFilter.Some? ==> m.storeId == storeFilter.value)
  }

  /** The `stock` column of the subquery's group for `productId`. */
  function ProductStock(log: seq<Movement>, tenantId: nat, storeFilter: Option<nat>, productId: nat): int {
    if log == [] then 0
    else
      var last := log[|log| - 1];
      ProductStock(log[..|log| - 1], tenantId, storeFilter, productId)
        + (if InScope(last, tenantId, storeFilter) && last.productId == productId then Contribution(last) else 0)
  }

  /** The sum over every in-scope movement, whatever its product. */
  function ScopeSum(log: seq<Movement>, tenantId: nat, storeFilter: Option<nat>): int {
    if log == [] then 0
    else
      var last := log[|log| - 1];
      ScopeSum(log[..|log| - 1], tenantId, storeFilter)
        + (if InScope(last, tenantId, storeFilter) then Contribution(last) else 0)
  }

  /** The products with at least one in-scope movement, in order of first
      appearance: the groups of the subquery. */
  function Groups(log: seq<Movement>, tenantId: nat, storeFilter: Option<nat>): (g: seq<nat>)
    ensures forall i, j :: 0 <= i < j < |g| ==> g[i] != g[j]
    ensures forall x :: x in g <==> exists k :: 0 <= k < |log| && InScope(log[k], tenantId, storeFilter) && log[k].productId == x
  {
    if log == [] then []
    else
      var init, last := log[..|log| - 1], log[|log| - 1];
      var g := Groups(init, tenantId, storeFilter);
      assert forall k :: 0 <= k < |init| ==> init[k] == log[k];
      if InScope(last, tenantId, storeFilter) && last.productId !in g then g + [last.productId] else g
  }

  /** The sum of the group stocks of `ids`. */
  function SumOfStocks(log: seq<Movement>, tenantId: nat, storeFilter: Option<nat>, ids: seq<nat>): int {
    if ids == [] then 0
    else SumOfStocks(log, tenantId, storeFilter, ids[..|ids| - 1])
         + ProductStock(log, tenantId, storeFilter, ids[|ids| - 1])
  }

  /** `stock_total_units`: the sum of the `stock` column over all groups. */
  function StockTotalUnits(log: seq<Movement>, tenantId: nat, storeFilter: Option<nat>): int {
    SumOfStocks(log, tenantId, storeFilter, Groups(log, tenantId, storeFilter))
  }

  // ---------------------------------------------------------------------
  // Per-product stock

  /** With a store filter the group stock is exactly `get_stock`. */
  lemma {:induction false} ProductStockOfStore(log: seq<Movement>, tenantId: nat, storeId: nat, productId: nat)
    ensures ProductStock(log, tenantId, Some(storeId), productId) == GetStock(log, tenantId, storeId, productId)
  {
    if log != [] {
      ProductStockOfStore(log[..|log| - 1], tenantId, storeId, productId);
    }
  }

  /** A product without in-scope movements has stock 0: the `coalesce`
      of the outer join. */
  lemma {:induction false} ProductStockNoGroup(log: seq<Movement>, tenantId: nat, storeFilter: Option<nat>, productId: nat)
    requires productId !in Groups(log, tenantId, storeFilter)
    ensures ProductStock(log, tenantId, storeFilter, productId) == 0
  {
    if log != [] {
      var init := log[..|log| - 1];
      assert productId !in Groups(init, tenantId, storeFilter);
      ProductStockNoGroup(init, tenantId, storeFilter, productId);
    }
  }

  /** Without a store filter a product's stock is the sum of its stock in
      each store of the tenant. */
  lemma {:induction false} ProductStockAllStores(log: seq<Movement>, tenantId: nat, productId: nat, storeIds: seq<nat>)
    requires forall i, j :: 0 <= i < j < |storeIds| ==> storeIds[i] != storeIds[j]
    requires forall k :: 0 <= k < |log| && log[k].tenantId == tenantId ==> log[k].storeId in storeIds
    ensures ProductStock(log, tenantId, None, productId) == StoreSum(log, tenantId, productId, storeIds)
  {
    if log != [] {
      var init, last := log[..|log| - 1], log[|log| - 1];
      assert forall k :: 0 <= k < |init| ==> init[k] == log[k];
      assert log == init + [last];
      ProductStockAllStores(init, tenantId, productId, storeIds);
      StoreSumAppend(init, last, tenantId, productId, storeIds);
    } else {
      StoreSumOfEmpty(tenantId, productId, storeIds);
    }
  }

  lemma {:induction false} StoreSumOfEmpty(tenantId: nat, productId: nat, storeIds: seq<nat>)
    ensures StoreSum([], tenantId, productId, storeIds) == 0
  {
    if storeIds != [] {
      StoreSumOfEmpty(tenantId, productId, storeIds[..|storeIds| - 1]);
    }
  }

  /** The sum of `get_stock` over a list of stores. */
  function StoreSum(log: seq<Movement>, tenantId: nat, productId: nat, storeIds: seq<nat>): int {
    if storeIds == [] then 0
    else StoreSum(log, tenantId, productId, storeIds[..|storeIds| - 1])
         + GetStock(log, tenantId, storeIds[|storeIds| - 1], productId)
  }

  lemma {:induction false} StoreSumAppend(log: seq<Movement>, m: Movement, tenantId: nat, productId: nat, storeIds: seq<nat>)
    requires forall i, j :: 0 <= i < j < |storeIds| ==> storeIds[i] != storeIds[j]
    requires m.tenantId == tenantId ==> m.storeId in storeIds
    ensures StoreSum(log + [m], tenantId, productId, storeIds)
         == StoreSum(log, tenantId, productId, storeIds)
            + (if m.tenantId == tenantId && m.productId == productId then Contribution(m) else 0)
  {
    if storeIds != [] {
      var init, s := storeIds[..|storeIds| - 1], storeIds[|storeIds| - 1];
      GetStockAppend(log, m, tenantId, s, productId);
      if m.tenantId == tenantId && m.storeId != s {
        StoreSumAppend(log, m, tenantId, productId, init);
      } else if m.tenantId == tenantId {
        assert m.storeId !in init;
        StoreSumUnchanged(log, m, tenantId, productId, init);
      } else {
        StoreSumUnchanged(log, m, tenantId, productId, init);
      }
    }
  }

  lemma {:induction false} StoreSumUnchanged(log: seq<Movement>, m: Movement, tenantId: nat, productId: nat, storeIds: seq<nat>)
    requires m.tenantId != tenantId || m.storeId !in storeIds
    ensures StoreSum(log + [m], tenantId, productId, storeIds) == StoreSum(log, tenantId, productId, storeIds)
  {
    if storeIds != [] {
      var init, s := storeIds[..|storeIds| - 1], storeIds[|storeIds| - 1];
      GetStockAppend(log, m, tenantId, s, productId);
      StoreSumUnchanged(log, m, tenantId, productId, init);
    }
  }

  // ---------------------------------------------------------------------
  // Total units

  /** One more in-scope movement of a product already in `ids` raises the
      group-sum by its contribution; of a product outside `ids`, not at all. */
  lemma {:induction false} SumOfStocksAppend(log: seq<Movement>, m: Movement, tenantId: nat, storeFilter: Option<nat>, ids: seq<nat>)
    requires forall i, j :: 0 <= i < j < |ids| ==> ids[i] != ids[j]
    ensures SumOfStocks(log + [m], tenantId, storeFilter, ids)
         == SumOfStocks(log, tenantId, storeFilter, ids)
            + (if InScope(m, tenantId, storeFilter) && m.productId in ids then Contribution(m) else 0)
  {
    assert (log + [m])[..|log|] == log;
    if ids != [] {
      var init, p := ids[..|ids| - 1], ids[|ids| - 1];
      SumOfStocksAppend(log, m, tenantId, storeFilter, init);
      assert m.productId in ids <==> m.productId in init || m.productId == p;
      assert m.productId == p ==> m.productId !in init;
    }
  }

  /** The total of the group stocks is the plain sum over every in-scope
      movement: grouping by product loses and counts twice nothing. */
  lemma {:induction false} StockTotalIsScopeSum(log: seq<Movement>, tenantId: nat, storeFilter: Option<nat>)
    ensures StockTotalUnits(log, tenantId, storeFilter) == ScopeSum(log, tenantId, storeFilter)
  {
    if log != [] {
      var init, m := log[..|log| - 1], log[|log| - 1];
      assert log == init + [m];
      var g := Groups(init, tenantId, storeFilter);
      StockTotalIsScopeSum(init, tenantId, storeFilter);
      SumOfStocksAppend(init, m, tenantId, storeFilter, g);
      if InScope(m, tenantId, storeFilter) && m.productId !in g {
        var g2 := g + [m.productId];
        assert g2[..|g2| - 1] == g;
        ProductStockNoGroup(init, tenantId, storeFilter, m.productId);
      }
    }
  }

  /** No in-scope movements: 0 units, not an error. */
  lemma {:induction false} StockTotalEmpty(log: seq<Movement>, tenantId: nat, storeFilter: Option<nat>)
    requires forall k :: 0 <= k < |log| ==> !InScope(log[k], tenantId, storeFilter)
    ensures StockTotalUnits(log, tenantId, storeFilter) == 0
  {
    StockTotalIsScopeSum(log, tenantId, storeFilter);
    NoScopeSum(log, tenantId, storeFilter);
  }

  lemma {:induction false} NoScopeSum(log: seq<Movement>, tenantId: nat, storeFilter: Option<nat>)
    requires forall k :: 0 <= k < |log| ==> !InScope(log[k], tenantId, storeFilter)
    ensures ScopeSum(log, tenantId, storeFilter) == 0
  {
    if log != [] {
      NoScopeSum(log[..|log| - 1], tenantId, storeFilter);
    }
  }

  // ---------------------------------------------------------------------
  // Counts

  predicate ActiveOfTenant(p: Product, tenantId: nat) {
    p.tenantId == tenantId && p.isActive
  }

  /** `products_total`. */
  function ProductsTotal(products: seq<Product>, tenantId: nat): (n: nat)
    ensures n <= |products|
    ensures n == 0 <==> forall k :: 0 <= k < |products| ==> !ActiveOfTenant(products[k], tenantId)
  {
    if products == [] then 0
    else
      var init := products[..|products| - 1];
      var n := ProductsTotal(init, tenantId);
      assert forall k :: 0 <= k < |init| ==> init[k] == products[k];
      n + (if ActiveOfTenant(products[|products| - 1], tenantId) then 1 else 0)
  }

  /** The rows of the product table that `products_total` counts. */
  ghost function ActiveRows(products: seq<Product>, tenantId: nat): set<nat> {
    set k: nat | k < |products| && ActiveOfTenant(products[k], tenantId)
  }

  /** `products_total` is the number of product rows that are active and
      of the tenant. */
  lemma {:induction false} ProductsTotalIsActiveRows(products: seq<Product>, tenantId: nat)
    ensures ProductsTotal(products, tenantId) == |ActiveRows(products, tenantId)|
  {
    if products == [] {
      assert ActiveRows(products, tenantId) == {};
    } else {
      var n := |products| - 1;
      var init := products[..n];
      ProductsTotalIsActiveRows(init, tenantId);
      var before := ActiveRows(init, tenantId);
      assert forall k :: 0 <= k < n ==> init[k] == products[k];
      var after := ActiveRows(products, tenantId);
      assert n !in before;
      if ActiveOfTenant(products[n], tenantId) {
        assert after == before + {n};
      } else {
        assert after == before;
      }
    }
  }

  /** `low_stock_count`: active tenant products whose stock, 0 without
      movements, is at most the threshold. Never more than `products_total`. */
  function LowStockCount(products: seq<Product>, log: seq<Movement>, tenantId: nat,
                         storeFilter: Option<nat>, threshold: int): (n: nat)
    ensures n <= ProductsTotal(products, tenantId)
  {
    if products == [] then 0
    else
      var p := products[|products| - 1];
      LowStockCount(products[..|products| - 1], log, tenantId, storeFilter, threshold)
        + (if ActiveOfTenant(p, tenantId) && ProductStock(log, tenantId, storeFilter, p.id) <= threshold then 1 else 0)
  }

  /** With a non-negative threshold every active product without in-scope
      movements is counted as low on stock. */
  lemma {:induction false} UnstockedCountsAsLow(products: seq<Product>, log: seq<Movement>, tenantId: nat,
                                               storeFilter: Option<nat>, threshold: int)
    requires threshold >= 0
    requires forall k :: 0 <= k < |products| ==> products[k].id !in Groups(log, tenantId, storeFilter)
    ensures LowStockCount(products, log, tenantId, storeFilter, threshold) == ProductsTotal(products, tenantId)
  {
    if products != [] {
      var init, p := products[..|products| - 1], products[|products| - 1];
      assert forall k :: 0 <= k < |init| ==> init[k] == products[k];
      UnstockedCountsAsLow(init, log, tenantId, storeFilter, threshold);
      ProductStockNoGroup(log, tenantId, storeFilter, p.id);
    }
  }

  /** The condition `low_stock_count` counts a product under. */
  predicate IsLow(p: Product, log: seq<Movement>, tenantId: nat, storeFilter: Option<nat>, threshold: int) {
    ActiveOfTenant(p, tenantId) && ProductStock(log, tenantId, storeFilter, p.id) <= threshold
  }

  /** The rows of the product table that count as low. */
  ghost function LowRows(products: seq<Product>, log: seq<Movement>, tenantId: nat,
                         storeFilter: Option<nat>, threshold: int): set<nat>
  {
    set k: nat | k < |products| && IsLow(products[k], log, tenantId, storeFilter, threshold)
  }

  /** One more product row adds its index to the low rows exactly when it
      is low. */
  lemma LowRowsAppend(products: seq<Product>, log: seq<Movement>, tenantId: nat,
                      storeFilter: Option<nat>, threshold: int)
    requires products != []
    ensures var n := |products| - 1;
            LowRows(products, log, tenantId, storeFilter, threshold)
            == LowRows(products[..n], log, tenantId, storeFilter, threshold)
               + (if IsLow(products[n], log, tenantId, storeFilter, threshold) then {n} else {})
  {
    var n := |products| - 1;
    var init := products[..n];
    var before := LowRows(init, log, tenantId, storeFilter, threshold);
    var after := LowRows(products, log, tenantId, storeFilter, threshold);
    assert forall k :: k in after <==> k in before || (k == n && IsLow(products[n], log, tenantId, storeFilter, threshold));
  }

  /** `low_stock_count` is the number of product rows that are active, of
      the tenant, and whose stock in scope (0 without movements) is at most
      the threshold. */
  lemma {:induction false} LowStockCountIsLowRows(products: seq<Product>, log: seq<Movement>, tenantId: nat,
                                                 storeFilter: Option<nat>, threshold: int)
    ensures LowStockCount(products, log, tenantId, storeFilter, threshold)
         == |LowRows(products, log, tenantId, storeFilter, threshold)|
  {
    if products == [] {
      assert LowRows(products, log, tenantId, storeFilter, threshold) == {};
    } else {
      var n := |products| - 1;
      LowStockCountIsLowRows(products[..n], log, tenantId, storeFilter, threshold);
      LowRowsAppend(products, log, tenantId, storeFilter, threshold);
      assert n !in LowRows(products[..n], log, tenantId, storeFilter, threshold);
    }
  }

  /** `dashboard_summary`, the stock figures: a threshold outside 0..9999 is
      refused by the query validation; omitted, it is 5. */
  function DashboardSummary(products: seq<Product>, log: seq<Movement>, caller: Caller,
                            storeFilter: Option<nat>, threshold: Option<int>): (r: Result<Summary>)
    ensures threshold.Some? && !(MinThreshold <= threshold.value <= MaxThreshold) <==> r.Err?
    ensures r.Err? ==> r.error.Status() == 422
    ensures r.Ok? ==> r.value.lowStockCount <= r.value.productsTotal
    ensures r.Ok? ==> r.value.stockTotalUnits == ScopeSum(log, caller.tenantId, storeFilter)
    ensures r.Ok? ==> r.value.productsTotal == ProductsTotal(products, caller.tenantId)
    ensures r.Ok? ==> r.value.lowStockCount
                      == LowStockCount(products, log, caller.tenantId, storeFilter, threshold.GetOr(DefaultThreshold))
  {
    var limit := threshold.GetOr(DefaultThreshold);
    if !(MinThreshold <= limit <= MaxThreshold) then Err(Unprocessable("low_stock_threshold must be between 0 and 9999"))
    else
      StockTotalIsScopeSum(log, caller.tenantId, storeFilter);
      Ok(Summary(ProductsTotal(products, caller.tenantId),
                 StockTotalUnits(log, caller.tenantId, storeFilter),
                 LowStockCount(products, log, caller.tenantId, storeFilter, limit)))
  }

  /** An omitted threshold behaves as 5. */
  lemma DefaultThresholdIsFive(products: seq<Product>, log: seq<Movement>, caller: Caller, storeFilter: Option<nat>)
    ensures DashboardSummary(products, log, caller, storeFilter, None)
         == DashboardSummary(products, log, caller, storeFilter, Some(5))
    ensures DashboardSummary(products, log, caller, storeFilter, None).Ok?
  {
  }
}
