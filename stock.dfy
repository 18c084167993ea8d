/** Stock is never stored: it is derived from the inventory ledger as the
    signed sum of the movements of one (tenant, store, product). */
module Stock {
  import opened Models

  /** The signed effect of one movement on stock. */
  function Contribution(m: Movement): int {
    m.quantity * m.direction
  }

  predicate Matches(m: Movement, tenantId: nat, storeId: nat, productId: nat) {
    m.tenantId == tenantId && m.storeId == storeId && m.productId == productId
  }

  /** `get_stock`: the sum of `quantity * direction` over the matching
      movements, 0 when there are none. */
  function GetStock(log: seq<Movement>, tenantId: nat, storeId: nat, productId: nat): int {
    if log == [] then 0
    else
      var last := log[|log| - 1];
      GetStock(log[..|log| - 1], tenantId, storeId, productId)
        + (if Matches(last, tenantId, storeId, productId) then Contribution(last) else 0)
  }

  // ---------------------------------------------------------------------
  // An independent reading of the query: select the rows, then sum them.

  /** The rows the query's WHERE clause selects, in ledger order. */
  function Select(log: seq<Movement>, tenantId: nat, storeId: nat, productId: nat): (r: seq<Movement>)
    ensures forall k :: 0 <= k < |r| ==> r[k] in log && Matches(r[k], tenantId, storeId, productId)
    ensures forall k :: 0 <= k < |log| && Matches(log[k], tenantId, storeId, productId) ==> log[k] in r
  {
    if log == [] then []
    else
      var rest := Select(log[1..], tenantId, storeId, productId);
      assert forall k :: 1 <= k < |log| ==> log[k] == log[1..][k - 1];
      if Matches(log[0], tenantId, storeId, productId) then [log[0]] + rest else rest
  }

  /** No selected row is duplicated or lost: each matching row occurs in
      the selection as often as in the ledger, any other row never. */
  lemma {:induction false} SelectCounts(log: seq<Movement>, tenantId: nat, storeId: nat, productId: nat)
    ensures forall m :: multiset(Select(log, tenantId, storeId, productId))[m]
                        == if Matches(m, tenantId, storeId, productId) then multiset(log)[m] else 0
  {
    if log != [] {
      SelectCounts(log[1..], tenantId, storeId, productId);
      assert log == [log[0]] + log[1..];
    }
  }

  function SignedSum(ms: seq<Movement>): int {
    if ms == [] then 0 else Contribution(ms[0]) + SignedSum(ms[1..])
  }

  lemma {:induction false} SignedSumConcat(a: seq<Movement>, b: seq<Movement>)
    ensures SignedSum(a + b) == SignedSum(a) + SignedSum(b)
  {
    if a != [] {
      assert (a + b)[1..] == a[1..] + b;
      SignedSumConcat(a[1..], b);
    } else {
      assert a + b == b;
    }
  }

  lemma {:induction false} SelectConcat(a: seq<Movement>, b: seq<Movement>, tenantId: nat, storeId: nat, productId: nat)
    ensures Select(a + b, tenantId, storeId, productId)
         == Select(a, tenantId, storeId, productId) + Select(b, tenantId, storeId, productId)
  {
    if a != [] {
      assert (a + b)[1..] == a[1..] + b;
      SelectConcat(a[1..], b, tenantId, storeId, productId);
    } else {
      assert a + b == b;
    }
  }

  /** `get_stock` is exactly the signed sum of the selected rows. */
  lemma {:induction false} GetStockIsSumOfSelected(log: seq<Movement>, tenantId: nat, storeId: nat, productId: nat)
    ensures GetStock(log, tenantId, storeId, productId) == SignedSum(Select(log, tenantId, storeId, productId))
  {
    if log != [] {
      var init, last := log[..|log| - 1], log[|log| - 1];
      assert log == init + [last];
      GetStockIsSumOfSelected(init, tenantId, storeId, productId);
      SelectConcat(init, [last], tenantId, storeId, productId);
      var sel := Select([last], tenantId, storeId, productId);
      assert Select([last][1..], tenantId, storeId, productId) == [];
      SignedSumConcat(Select(init, tenantId, storeId, productId), sel);
    }
  }

  // ---------------------------------------------------------------------
  // Properties of the derived stock.

  /** No matching movement: stock 0, not an error. */
  lemma {:induction false} GetStockNoMatch(log: seq<Movement>, tenantId: nat, storeId: nat, productId: nat)
    requires forall k :: 0 <= k < |log| ==> !Matches(log[k], tenantId, storeId, productId)
    ensures GetStock(log, tenantId, storeId, productId) == 0
  {
    if log != [] {
      GetStockNoMatch(log[..|log| - 1], tenantId, storeId, productId);
    }
  }

  /** Appending one movement changes its own key's stock by exactly its
      contribution and every other key's stock not at all. */
  lemma GetStockAppend(log: seq<Movement>, m: Movement, tenantId: nat, storeId: nat, productId: nat)
    ensures GetStock(log + [m], tenantId, storeId, productId)
         == GetStock(log, tenantId, storeId, productId)
            + (if Matches(m, tenantId, storeId, productId) then m.quantity * m.direction else 0)
  {
    assert (log + [m])[..|log|] == log;
  }

  /** The ledger splits: stock over `a + b` is stock over `a` plus over `b`. */
  lemma {:induction false} GetStockConcat(a: seq<Movement>, b: seq<Movement>, tenantId: nat, storeId: nat, productId: nat)
    ensures GetStock(a + b, tenantId, storeId, productId)
         == GetStock(a, tenantId, storeId, productId) + GetStock(b, tenantId, storeId, productId)
  {
    if b != [] {
      var init, last := b[..|b| - 1], b[|b| - 1];
      assert a + b == (a + init) + [last];
      GetStockAppend(a + init, last, tenantId, storeId, productId);
      GetStockConcat(a, init, tenantId, storeId, productId);
    } else {
      assert a + b == a;
    }
  }

  /** Movements of another tenant, store or product never change the result. */
  lemma {:induction false} GetStockIgnoresOtherKeys(log: seq<Movement>, extra: seq<Movement>, tenantId: nat, storeId: nat, productId: nat)
    requires forall k :: 0 <= k < |extra| ==> !Matches(extra[k], tenantId, storeId, productId)
    ensures GetStock(log + extra, tenantId, storeId, productId) == GetStock(log, tenantId, storeId, productId)
  {
    GetStockConcat(log, extra, tenantId, storeId, productId);
    GetStockNoMatch(extra, tenantId, storeId, productId);
  }

  /** Taking one movement out of the ledger removes exactly its contribution. */
  lemma GetStockRemoveAt(b: seq<Movement>, j: nat, tenantId: nat, storeId: nat, productId: nat)
    requires j < |b|
    ensures GetStock(b, tenantId, storeId, productId)
         == GetStock(b[..j] + b[j + 1..], tenantId, storeId, productId)
            + (if Matches(b[j], tenantId, storeId, productId) then Contribution(b[j]) else 0)
  {
    var left, right := b[..j], b[j + 1..];
    assert b == (left + [b[j]]) + right;
    GetStockConcat(left + [b[j]], right, tenantId, storeId, productId);
    GetStockAppend(left, b[j], tenantId, storeId, productId);
    GetStockConcat(left, right, tenantId, storeId, productId);
  }

  /** The stock is a sum, so it does not depend on the order of the ledger. */
  lemma {:induction false} GetStockPermutation(a: seq<Movement>, b: seq<Movement>, tenantId: nat, storeId: nat, productId: nat)
    requires multiset(a) == multiset(b)
    ensures GetStock(a, tenantId, storeId, productId) == GetStock(b, tenantId, storeId, productId)
    decreases |a|
  {
    if a == [] {
      assert |b| == |multiset(b)| == 0;
    } else {
      var init, m := a[..|a| - 1], a[|a| - 1];
      assert a == init + [m];
      assert m in multiset(b);
      var j :| 0 <= j < |b| && b[j] == m;
      var rest := b[..j] + b[j + 1..];
      assert b == b[..j] + [m] + b[j + 1..];
      assert multiset(rest) == multiset(b) - multiset{m};
      assert multiset(init) == multiset(a) - multiset{m};
      GetStockPermutation(init, rest, tenantId, storeId, productId);
      GetStockRemoveAt(b, j, tenantId, storeId, productId);
    }
  }

  /** An OUT of at most the current stock, from a non-negative stock,
      leaves that stock non-negative. */
  lemma OutKeepsStockNonNegative(log: seq<Movement>, m: Movement)
    requires m.direction == -1
    requires GetStock(log, m.tenantId, m.storeId, m.productId) >= m.quantity
    ensures GetStock(log + [m], m.tenantId, m.storeId, m.productId) >= 0
    ensures GetStock(log + [m], m.tenantId, m.storeId, m.productId)
         == GetStock(log, m.tenantId, m.storeId, m.productId) - m.quantity
  {
    GetStockAppend(log, m, m.tenantId, m.storeId, m.productId);
  }
}
