/** The sale transaction: a cart becomes one sale with its items and one
    OUT movement per item, or nothing at all. */
module Sales {
  import opened Http
  import opened Text
  import opened Models
  import opened Stock
  import opened SalesNumber
  import opened Database

  datatype SaleLine = SaleLine(productId: nat, quantity: int)

  /** The request body of `POST /sales`. */
  datatype SaleCreate = SaleCreate(
    storeId: nat,
    paymentMethod: PaymentMethod,
    yapeOperationNumber: Option<string>,
    items: seq<SaleLine>)

  // ---------------------------------------------------------------------
  // Consolidation of the cart

  /** The product ids the cart mentions. */
  function LineIds(lines: seq<SaleLine>): (r: set<nat>)
    ensures forall k :: 0 <= k < |lines| ==> lines[k].productId in r
  {
    if lines == [] then {}
    else
      var init := lines[..|lines| - 1];
      var r := LineIds(init);
      assert forall k :: 0 <= k < |init| ==> init[k] == lines[k];
      r + {lines[|lines| - 1].productId}
  }

  /** The total quantity the cart asks for of product `pid`. */
  function LineQty(lines: seq<SaleLine>, pid: nat): int {
    if lines == [] then 0
    else
      var last := lines[|lines| - 1];
      LineQty(lines[..|lines| - 1], pid) + (if last.productId == pid then last.quantity else 0)
  }

  predicate AllPositive(lines: seq<SaleLine>) {
    forall k :: 0 <= k < |lines| ==> lines[k].quantity > 0
  }

  lemma {:induction false} LineQtyAbsent(lines: seq<SaleLine>, pid: nat)
    requires pid !in LineIds(lines)
    ensures LineQty(lines, pid) == 0
  {
    if lines != [] {
      LineQtyAbsent(lines[..|lines| - 1], pid);
    }
  }

  /** With positive lines, every product in the cart needs a positive
      consolidated quantity. */
  lemma {:induction false} LineQtyPositive(lines: seq<SaleLine>, pid: nat)
    requires AllPositive(lines)
    requires pid in LineIds(lines)
    ensures LineQty(lines, pid) > 0
  {
    var init, last := lines[..|lines| - 1], lines[|lines| - 1];
    if pid in LineIds(init) {
      LineQtyPositive(init, pid);
      assert LineQty(init, pid) > 0;
    } else {
      LineQtyAbsent(init, pid);
    }
  }

  /** Two lines for product 7 with 2 and 3 units consolidate into one
      requirement of 5 units. */
  lemma ConsolidationExample()
    ensures LineIds([SaleLine(7, 2), SaleLine(7, 3)]) == {7}
    ensures LineQty([SaleLine(7, 2), SaleLine(7, 3)], 7) == 5
  {
    var lines := [SaleLine(7, 2), SaleLine(7, 3)];
    assert lines[..1] == [SaleLine(7, 2)];
    assert lines[..1][..0] == [];
  }

  /** The consolidated cart: each requested product with its total quantity. */
  function Merged(lines: seq<SaleLine>): map<nat, int> {
    map p | p in LineIds(lines) :: LineQty(lines, p)
  }

  /** The `merged` loop: sums the quantities per product and refuses the
      cart at the first line whose quantity is not positive. */
  method Consolidate(lines: seq<SaleLine>) returns (merged: Option<map<nat, int>>)
    ensures merged.Some? <==> AllPositive(lines)
    ensures merged.Some? ==> merged.value == Merged(lines)
  {
    var m: map<nat, int> := map[];
    var i := 0;
    while i < |lines|
      invariant 0 <= i <= |lines|
      invariant AllPositive(lines[..i])
      invariant m.Keys == LineIds(lines[..i])
      invariant forall p :: p in m ==> m[p] == LineQty(lines[..i], p)
    {
      var it := lines[i];
      if it.quantity <= 0 {
        return None;
      }
      assert lines[..i + 1][..i] == lines[..i];
      if it.productId !in m {
        LineQtyAbsent(lines[..i], it.productId);
      }
      m := m[it.productId := (if it.productId in m then m[it.productId] else 0) + it.quantity];
      i := i + 1;
    }
    assert lines[..i] == lines;
    merged := Some(m);
  }

  // ---------------------------------------------------------------------
  // Resolving the products

  /** `select Product where tenant_id = t and id in keys`, in table order. */
  function ProductsIn(products: seq<Product>, tenantId: nat, keys: set<nat>): (r: seq<Product>)
    ensures |r| <= |products|
    ensures forall k :: 0 <= k < |r| ==> r[k].tenantId == tenantId && r[k].id in keys
    ensures forall k :: 0 <= k < |products| && products[k].tenantId == tenantId && products[k].id in keys
                        ==> products[k] in r
  {
    if products == [] then []
    else
      var rest := ProductsIn(products[1..], tenantId, keys);
      assert forall k :: 1 <= k < |products| ==> products[k] == products[1..][k - 1];
      if products[0].tenantId == tenantId && products[0].id in keys then [products[0]] + rest else rest
  }

  /** Every product the query returns is a row of the table. */
  lemma {:induction false} ProductsInSound(products: seq<Product>, tenantId: nat, keys: set<nat>, k: nat)
    requires k < |ProductsIn(products, tenantId, keys)|
    ensures exists i :: 0 <= i < |products| && products[i] == ProductsIn(products, tenantId, keys)[k]
  {
    var tail := products[1..];
    var rest := ProductsIn(tail, tenantId, keys);
    if products[0].tenantId == tenantId && products[0].id in keys {
      if k > 0 {
        ProductsInSound(tail, tenantId, keys, k - 1);
        var i :| 0 <= i < |tail| && tail[i] == rest[k - 1];
        assert products[i + 1] == tail[i];
      } else {
        assert products[0] == ProductsIn(products, tenantId, keys)[0];
      }
    } else {
      ProductsInSound(tail, tenantId, keys, k);
      var i :| 0 <= i < |tail| && tail[i] == rest[k];
      assert products[i + 1] == tail[i];
    }
  }

  /** The ids of a list of products. */
  function IdSet(ps: seq<Product>): (r: set<nat>)
    ensures forall k :: 0 <= k < |ps| ==> ps[k].id in r
  {
    if ps == [] then {}
    else
      var rest := IdSet(ps[1..]);
      assert forall k :: 1 <= k < |ps| ==> ps[k] == ps[1..][k - 1];
      {ps[0].id} + rest
  }

  /** Every id in the set is the id of one of the products. */
  lemma {:induction false} IdSetSound(ps: seq<Product>, x: nat)
    requires x in IdSet(ps)
    ensures exists k :: 0 <= k < |ps| && ps[k].id == x
  {
    if ps[0].id != x {
      IdSetSound(ps[1..], x);
      var k :| 0 <= k < |ps[1..]| && ps[1..][k].id == x;
      assert ps[k + 1] == ps[1..][k];
    }
  }

  lemma {:induction false} ProductsInAscending(products: seq<Product>, tenantId: nat, keys: set<nat>)
    requires ProductIdsAscending(products)
    ensures ProductIdsAscending(ProductsIn(products, tenantId, keys))
  {
    if products != [] {
      var tail := products[1..];
      assert ProductIdsAscending(tail) by {
        forall i, j | 0 <= i < j < |tail| ensures tail[i].id < tail[j].id {
          assert tail[i] == products[i + 1] && tail[j] == products[j + 1];
        }
      }
      ProductsInAscending(tail, tenantId, keys);
      var rest := ProductsIn(tail, tenantId, keys);
      forall k | 0 <= k < |rest| ensures products[0].id < rest[k].id {
        ProductsInSound(tail, tenantId, keys, k);
        var j :| 0 <= j < |tail| && tail[j] == rest[k];
        assert tail[j] == products[j + 1];
      }
    }
  }

  lemma {:induction false} AscendingIdSetSize(ps: seq<Product>)
    requires ProductIdsAscending(ps)
    ensures |IdSet(ps)| == |ps|
  {
    if ps != [] {
      var tail := ps[1..];
      assert ProductIdsAscending(tail) by {
        forall i, j | 0 <= i < j < |tail| ensures tail[i].id < tail[j].id {
          assert tail[i] == ps[i + 1] && tail[j] == ps[j + 1];
        }
      }
      AscendingIdSetSize(tail);
      if ps[0].id in IdSet(tail) {
        IdSetSound(tail, ps[0].id);
      }
    }
  }

  lemma {:induction false} SubsetCard(a: set<nat>, b: set<nat>)
    requires a <= b
    ensures |a| <= |b|
    decreases |b|
  {
    if b != {} {
      var y :| y in b;
      SubsetCard(a - {y}, b - {y});
      if y in a {
        assert a == (a - {y}) + {y};
      } else {
        assert a - {y} == a;
      }
    }
  }

  lemma SubsetOfSameSize(a: set<nat>, b: set<nat>)
    requires a <= b && |a| == |b|
    ensures a == b
  {
    if a != b {
      var x :| x in b && x !in a;
      SubsetCard(a, b - {x});
    }
  }

  /** Every requested id is a product of the tenant: the products found
      carry exactly the requested ids. */
  lemma ResolvedIdSet(products: seq<Product>, tenantId: nat, keys: set<nat>)
    requires forall id :: id in keys ==> ProductInTenant(products, tenantId, id)
    ensures IdSet(ProductsIn(products, tenantId, keys)) == keys
  {
    var found := ProductsIn(products, tenantId, keys);
    var ids := IdSet(found);
    forall id | id in keys ensures id in ids {
      var i :| 0 <= i < |products| && products[i].id == id && products[i].tenantId == tenantId;
      var k :| 0 <= k < |found| && found[k] == products[i];
    }
    forall id | id in ids ensures id in keys {
      IdSetSound(found, id);
      var k :| 0 <= k < |found| && found[k].id == id;
    }
  }

  /** The size check of the handler: as many tenant products come back as
      there are distinct requested ids exactly when every requested id is
      a product of the tenant; the products found then carry exactly the
      requested ids. */
  lemma AllResolvedIffSameSize(products: seq<Product>, tenantId: nat, keys: set<nat>)
    requires ProductIdsAscending(products)
    ensures |ProductsIn(products, tenantId, keys)| == |keys|
        <==> forall id :: id in keys ==> ProductInTenant(products, tenantId, id)
    ensures |ProductsIn(products, tenantId, keys)| == |keys|
        ==> IdSet(ProductsIn(products, tenantId, keys)) == keys
  {
    var found := ProductsIn(products, tenantId, keys);
    ProductsInAscending(products, tenantId, keys);
    AscendingIdSetSize(found);
    var ids := IdSet(found);
    assert ids <= keys by {
      forall id | id in ids ensures id in keys {
        IdSetSound(found, id);
        var k :| 0 <= k < |found| && found[k].id == id;
      }
    }
    if forall id :: id in keys ==> ProductInTenant(products, tenantId, id) {
      ResolvedIdSet(products, tenantId, keys);
    }
    if |found| == |keys| {
      SubsetOfSameSize(ids, keys);
      forall id | id in keys ensures ProductInTenant(products, tenantId, id) {
        IdSetSound(found, id);
        var k :| 0 <= k < |found| && found[k].id == id;
        ProductsInSound(products, tenantId, keys, k);
        var i :| 0 <= i < |products| && products[i] == found[k];
      }
    }
  }

  // ---------------------------------------------------------------------
  // Stock check, line items and ledger entries

  /** The first product, in query order, whose stock in the store is below
      what the cart needs of it. */
  function FirstShortage(log: seq<Movement>, tenantId: nat, storeId: nat, found: seq<Product>,
                         need: map<nat, int>): (r: Option<nat>)
    requires forall k :: 0 <= k < |found| ==> found[k].id in need
    ensures r.None? <==>
              forall k :: 0 <= k < |found| ==> GetStock(log, tenantId, storeId, found[k].id) >= need[found[k].id]
    ensures r.Some? ==>
              exists k :: 0 <= k < |found| && found[k].id == r.value
                          && GetStock(log, tenantId, storeId, found[k].id) < need[found[k].id]
  {
    if found == [] then None
    else if GetStock(log, tenantId, storeId, found[0].id) < need[found[0].id] then Some(found[0].id)
    else
      assert forall k :: 1 <= k < |found| ==> found[k] == found[1..][k - 1];
      FirstShortage(log, tenantId, storeId, found[1..], need)
  }

  /** The product named is the first short one in query order: every
      product before it is covered. */
  lemma {:induction false} FirstShortageIsFirst(log: seq<Movement>, tenantId: nat, storeId: nat,
                                               found: seq<Product>, need: map<nat, int>)
    requires forall k :: 0 <= k < |found| ==> found[k].id in need
    ensures FirstShortage(log, tenantId, storeId, found, need).Some? ==>
              exists k :: 0 <= k < |found|
                && found[k].id == FirstShortage(log, tenantId, storeId, found, need).value
                && GetStock(log, tenantId, storeId, found[k].id) < need[found[k].id]
                && forall j :: 0 <= j < k ==> GetStock(log, tenantId, storeId, found[j].id) >= need[found[j].id]
  {
    if found != [] && GetStock(log, tenantId, storeId, found[0].id) >= need[found[0].id] {
      var rest := found[1..];
      assert forall k :: 1 <= k < |found| ==> found[k] == rest[k - 1];
      FirstShortageIsFirst(log, tenantId, storeId, rest, need);
      if FirstShortage(log, tenantId, storeId, rest, need).Some? {
        var k :| 0 <= k < |rest|
                 && rest[k].id == FirstShortage(log, tenantId, storeId, rest, need).value
                 && GetStock(log, tenantId, storeId, rest[k].id) < need[rest[k].id]
                 && forall j :: 0 <= j < k ==> GetStock(log, tenantId, storeId, rest[j].id) >= need[rest[j].id];
        assert found[k + 1] == rest[k];
        assert forall j :: 0 <= j < k + 1 ==> GetStock(log, tenantId, storeId, found[j].id) >= need[found[j].id] by {
          forall j | 0 <= j < k + 1 ensures GetStock(log, tenantId, storeId, found[j].id) >= need[found[j].id] {
            if j > 0 {
              assert found[j] == rest[j - 1];
            }
          }
        }
      }
    }
  }

  /** The stock-check loop: stops at the first product short of stock. */
  method FindShortage(log: seq<Movement>, tenantId: nat, storeId: nat, found: seq<Product>, need: map<nat, int>)
    returns (short: Option<nat>)
    requires forall k :: 0 <= k < |found| ==> found[k].id in need
    ensures short == FirstShortage(log, tenantId, storeId, found, need)
  {
    var k := 0;
    assert found[k..] == found;
    while k < |found|
      invariant 0 <= k <= |found|
      invariant FirstShortage(log, tenantId, storeId, found, need)
             == FirstShortage(log, tenantId, storeId, found[k..], need)
    {
      var available := GetStock(log, tenantId, storeId, found[k].id);
      var required := need[found[k].id];
      assert found[k..][0] == found[k];
      if available < required {
        return Some(found[k].id);
      }
      assert found[k..][1..] == found[k + 1..];
      k := k + 1;
    }
    short := None;
  }

  /** The line item of product `p` sold `qty` times, at its current price. */
  function LineItem(p: Product, qty: int): SaleItem {
    SaleItem(p.id, qty, p.price, p.price * qty)
  }

  function SubtotalSum(items: seq<SaleItem>): int {
    if items == [] then 0 else SubtotalSum(items[..|items| - 1]) + items[|items| - 1].subtotal
  }

  /** The totals loop: one item per product found, priced from the product
      row, and the running total of the subtotals. */
  method BuildItems(found: seq<Product>, merged: map<nat, int>) returns (items: seq<SaleItem>, total: int)
    requires forall k :: 0 <= k < |found| ==> found[k].id in merged
    ensures |items| == |found|
    ensures forall k :: 0 <= k < |found| ==> items[k] == LineItem(found[k], merged[found[k].id])
    ensures total == SubtotalSum(items)
  {
    items, total := [], 0;
    var k := 0;
    while k < |found|
      invariant 0 <= k <= |found|
      invariant |items| == k
      invariant forall j :: 0 <= j < k ==> items[j] == LineItem(found[j], merged[found[j].id])
      invariant total == SubtotalSum(items)
    {
      var p := found[k];
      var qty := merged[p.id];
      var unitPrice := p.price;
      var subtotal := unitPrice * qty;
      total := total + subtotal;
      assert (items + [SaleItem(p.id, qty, unitPrice, subtotal)])[..k] == items;
      items := items + [SaleItem(p.id, qty, unitPrice, subtotal)];
      k := k + 1;
    }
  }

  /** The OUT movement a sale writes for one of its items. */
  function OutMovement(tenantId: nat, storeId: nat, item: SaleItem, note: string, userId: nat): Movement {
    Movement(tenantId, storeId, item.productId, OUT, item.quantity, -1, Some(note), userId)
  }

  /** One OUT movement per item, in item order. */
  function SaleMovements(tenantId: nat, storeId: nat, items: seq<SaleItem>, note: string, userId: nat): (r: seq<Movement>)
    ensures |r| == |items|
    ensures forall k :: 0 <= k < |items| ==> r[k] == OutMovement(tenantId, storeId, items[k], note, userId)
  {
    if items == [] then []
    else SaleMovements(tenantId, storeId, items[..|items| - 1], note, userId)
         + [OutMovement(tenantId, storeId, items[|items| - 1], note, userId)]
  }

  /** The movement loop, collecting the rows the session adds. */
  method CollectOutMovements(tenantId: nat, storeId: nat, items: seq<SaleItem>, note: string, userId: nat)
    returns (mvs: seq<Movement>)
    ensures mvs == SaleMovements(tenantId, storeId, items, note, userId)
  {
    mvs := [];
    var k := 0;
    while k < |items|
      invariant 0 <= k <= |items|
      invariant mvs == SaleMovements(tenantId, storeId, items[..k], note, userId)
    {
      assert items[..k + 1][..k] == items[..k];
      mvs := mvs + [OutMovement(tenantId, storeId, items[k], note, userId)];
      k := k + 1;
    }
    assert items[..k] == items;
  }

  /** A sale's movements are well-formed ledger entries. */
  lemma SaleMovementsWellFormed(tenantId: nat, storeId: nat, items: seq<SaleItem>, note: string, userId: nat)
    requires forall k :: 0 <= k < |items| ==> items[k].quantity > 0
    ensures MovementsOk(SaleMovements(tenantId, storeId, items, note, userId))
  {
  }

  lemma MovementsOkConcat(a: seq<Movement>, b: seq<Movement>)
    requires MovementsOk(a) && MovementsOk(b)
    ensures MovementsOk(a + b)
  {
    forall i | 0 <= i < |a + b| ensures WellFormed((a + b)[i]) {
      if i >= |a| {
        assert (a + b)[i] == b[i - |a|];
      }
    }
  }

  /** A sale drawn from the shared counter keeps the sales table ordered. */
  lemma SalesOkAppend(sales: seq<Sale>, s: Sale, nextId: nat)
    requires SalesOk(sales, nextId) && nextId > 0 && s.id == nextId
    ensures SalesOk(sales + [s], nextId + 1)
  {
  }

  /** The units of product `pid` the items take. */
  function ItemQty(items: seq<SaleItem>, pid: nat): int {
    if items == [] then 0
    else
      var last := items[|items| - 1];
      ItemQty(items[..|items| - 1], pid) + (if last.productId == pid then last.quantity else 0)
  }

  /** The sale's movements lower each product's stock in that store by the
      units its items take, and touch nothing else. */
  lemma {:induction false} SaleMovementsStock(log: seq<Movement>, tenantId: nat, storeId: nat, items: seq<SaleItem>,
                                              note: string, userId: nat, t: nat, s: nat, p: nat)
    ensures GetStock(log + SaleMovements(tenantId, storeId, items, note, userId), t, s, p)
         == GetStock(log, t, s, p) - (if t == tenantId && s == storeId then ItemQty(items, p) else 0)
  {
    if items != [] {
      var init, last := items[..|items| - 1], items[|items| - 1];
      var rest := SaleMovements(tenantId, storeId, init, note, userId);
      var m := OutMovement(tenantId, storeId, last, note, userId);
      assert log + SaleMovements(tenantId, storeId, items, note, userId) == (log + rest) + [m];
      GetStockAppend(log + rest, m, t, s, p);
      SaleMovementsStock(log, tenantId, storeId, init, note, userId, t, s, p);
    } else {
      assert log + [] == log;
    }
  }

  predicate DistinctProducts(items: seq<SaleItem>) {
    forall i, j :: 0 <= i < j < |items| ==> items[i].productId != items[j].productId
  }

  /** With one item per product, a product's units are those of its item,
      and a product without an item takes none. */
  lemma {:induction false} ItemQtyOfDistinct(items: seq<SaleItem>, k: nat)
    requires DistinctProducts(items)
    requires k < |items|
    ensures ItemQty(items, items[k].productId) == items[k].quantity
  {
    var init, last := items[..|items| - 1], items[|items| - 1];
    if k == |items| - 1 {
      ItemQtyAbsent(init, last.productId);
    } else {
      ItemQtyOfDistinct(init, k);
    }
  }

  lemma {:induction false} ItemQtyAbsent(items: seq<SaleItem>, pid: nat)
    requires forall k :: 0 <= k < |items| ==> items[k].productId != pid
    ensures ItemQty(items, pid) == 0
  {
    if items != [] {
      ItemQtyAbsent(items[..|items| - 1], pid);
    }
  }

  /** All-or-nothing stock effect of a sale that passed the stock check:
      each sold product's stock drops by exactly its quantity and stays
      non-negative; stock of every other (tenant, store, product) is unchanged. */
  lemma SaleStockEffect(log: seq<Movement>, tenantId: nat, storeId: nat, items: seq<SaleItem>,
                        note: string, userId: nat)
    requires DistinctProducts(items)
    requires forall k :: 0 <= k < |items| ==> GetStock(log, tenantId, storeId, items[k].productId) >= items[k].quantity
    ensures forall k :: 0 <= k < |items| ==>
              GetStock(log + SaleMovements(tenantId, storeId, items, note, userId), tenantId, storeId, items[k].productId)
              == GetStock(log, tenantId, storeId, items[k].productId) - items[k].quantity
    ensures forall k :: 0 <= k < |items| ==>
              GetStock(log + SaleMovements(tenantId, storeId, items, note, userId), tenantId, storeId, items[k].productId) >= 0
    ensures forall t, s, p :: (t != tenantId || s != storeId || forall k :: 0 <= k < |items| ==> items[k].productId != p)
              ==> GetStock(log + SaleMovements(tenantId, storeId, items, note, userId), t, s, p) == GetStock(log, t, s, p)
  {
    forall k | 0 <= k < |items|
      ensures GetStock(log + SaleMovements(tenantId, storeId, items, note, userId), tenantId, storeId, items[k].productId)
              == GetStock(log, tenantId, storeId, items[k].productId) - items[k].quantity
    {
      SaleMovementsStock(log, tenantId, storeId, items, note, userId, tenantId, storeId, items[k].productId);
      ItemQtyOfDistinct(items, k);
    }
    forall t, s, p | t != tenantId || s != storeId || forall k :: 0 <= k < |items| ==> items[k].productId != p
      ensures GetStock(log + SaleMovements(tenantId, storeId, items, note, userId), t, s, p) == GetStock(log, t, s, p)
    {
      SaleMovementsStock(log, tenantId, storeId, items, note, userId, t, s, p);
      if t == tenantId && s == storeId {
        ItemQtyAbsent(items, p);
      }
    }
  }

  // ---------------------------------------------------------------------
  // The handler

  /** The seller-store clause as written: its last conjunct,
      `"ADMIN" not in ["ADMIN"]`, is always false, so it never fires and a
      user with a home store may sell in any store of the tenant. */
  function SellerStoreForbidden(caller: Caller, storeId: nat): (forbidden: bool)
    ensures !forbidden
  {
    caller.storeId.Some? && caller.storeId.value != storeId && !("ADMIN" in ["ADMIN"])
  }

  /** The seller-store rule the clause and its comment describe, with the
      caller's real role name in place of the literal: a non-administrator
      with a home store may sell only in that store. */
  predicate SellerElsewhere(caller: Caller, storeId: nat) {
    caller.storeId.Some? && caller.storeId.value != storeId && caller.roleName !in ["ADMIN"]
  }

  /** The clause as written lets a seller assigned to store 1 sell in
      store 2, which the intended rule refuses. */
  lemma WrittenClauseLetsSellerElsewhere()
    ensures !SellerStoreForbidden(Caller(1, 7, 3, "VENDEDOR", Some(1)), 2)
    ensures SellerElsewhere(Caller(1, 7, 3, "VENDEDOR", Some(1)), 2)
  {
  }

  /** `not number or not number.strip()`. */
  predicate YapeNumberMissing(number: Option<string>) {
    number.None? || number.value == [] || Strip(number.value) == []
  }

  /** What the sale row stores: the trimmed number whenever one is given
      and non-empty, whatever the payment method. */
  function StoredYapeNumber(number: Option<string>): Option<string> {
    if number.Some? && number.value != [] then Some(Strip(number.value)) else None
  }

  /** The error the handler answers with, checks taken in its order, or
      `None` when the sale goes through. */
  function SaleRejection(stores: seq<Store>, products: seq<Product>, log: seq<Movement>,
                         caller: Caller, payload: SaleCreate): Option<Error>
  {
    var lines := payload.items;
    var found := ProductsIn(products, caller.tenantId, LineIds(lines));
    if |lines| == 0 then Some(BadRequest("Sale must have at least 1 item"))
    else if !StoreInTenant(stores, caller.tenantId, payload.storeId) then Some(BadRequest("Invalid store_id"))
    else if SellerElsewhere(caller, payload.storeId) then Some(Forbidden("You cannot sell in another store"))
    else if payload.paymentMethod == YAPE && YapeNumberMissing(payload.yapeOperationNumber)
    then Some(BadRequest("yape_operation_number is required for YAPE"))
    else if !AllPositive(lines) then Some(BadRequest("quantity must be > 0"))
    else if |found| != |LineIds(lines)| then Some(BadRequest("One or more products are invalid"))
    else
      match FirstShortage(log, caller.tenantId, payload.storeId, found, Merged(lines))
      case Some(id) => Some(Conflict("Insufficient stock for product_id=" + Digits(id)))
      case None => None
  }

  /** Every check of the handler passes, stated on the cart itself. */
  predicate SaleAccepted(stores: seq<Store>, products: seq<Product>, log: seq<Movement>,
                         caller: Caller, payload: SaleCreate) {
    && |payload.items| > 0
    && StoreInTenant(stores, caller.tenantId, payload.storeId)
    && !SellerElsewhere(caller, payload.storeId)
    && (payload.paymentMethod == YAPE ==> !YapeNumberMissing(payload.yapeOperationNumber))
    && AllPositive(payload.items)
    && (forall id :: id in LineIds(payload.items) ==> ProductInTenant(products, caller.tenantId, id))
    && (forall id :: id in LineIds(payload.items) ==>
          GetStock(log, caller.tenantId, payload.storeId, id) >= LineQty(payload.items, id))
  }

  /** A sale goes through exactly when the cart is non-empty, the store is
      the tenant's and, for a non-administrator with a home store, that
      store, a YAPE sale carries its operation number, every
      quantity is positive, every product is the tenant's, and each
      product's stock covers its consolidated quantity. */
  lemma SaleRejectionIffAccepted(stores: seq<Store>, products: seq<Product>, log: seq<Movement>,
                                 caller: Caller, payload: SaleCreate)
    requires ProductIdsAscending(products)
    ensures SaleRejection(stores, products, log, caller, payload).None?
        <==> SaleAccepted(stores, products, log, caller, payload)
  {
    var lines := payload.items;
    var keys := LineIds(lines);
    var found := ProductsIn(products, caller.tenantId, keys);
    AllResolvedIffSameSize(products, caller.tenantId, keys);
    if |lines| > 0 && StoreInTenant(stores, caller.tenantId, payload.storeId)
       && !SellerElsewhere(caller, payload.storeId)
       && (payload.paymentMethod == YAPE ==> !YapeNumberMissing(payload.yapeOperationNumber))
       && AllPositive(lines) && |found| == |keys| {
      var need := Merged(lines);
      if FirstShortage(log, caller.tenantId, payload.storeId, found, need).None? {
        forall id | id in keys ensures GetStock(log, caller.tenantId, payload.storeId, id) >= LineQty(lines, id) {
          IdSetSound(found, id);
          var k :| 0 <= k < |found| && found[k].id == id;
        }
      }
    }
  }

  /** The items of an accepted cart: one per product found, in query
      order, at the product's current price and consolidated quantity. */
  function SaleItems(products: seq<Product>, tenantId: nat, lines: seq<SaleLine>): (items: seq<SaleItem>)
    ensures |items| == |ProductsIn(products, tenantId, LineIds(lines))|
  {
    var found := ProductsIn(products, tenantId, LineIds(lines));
    seq(|found|, k requires 0 <= k < |found| => LineItem(found[k], LineQty(lines, found[k].id)))
  }

  /** What a sale that went through does to the stock: each requested
      product's stock in the sale's store drops by its consolidated
      quantity and stays non-negative, and the stock of any other product
      of that store is unchanged. */
  lemma AcceptedSaleStockEffect(stores: seq<Store>, products: seq<Product>, log: seq<Movement>,
                                caller: Caller, payload: SaleCreate, note: string)
    requires ProductIdsAscending(products)
    requires SaleAccepted(stores, products, log, caller, payload)
    ensures forall id :: id in LineIds(payload.items) ==>
              GetStock(log + SaleMovements(caller.tenantId, payload.storeId,
                                           SaleItems(products, caller.tenantId, payload.items), note, caller.userId),
                       caller.tenantId, payload.storeId, id)
              == GetStock(log, caller.tenantId, payload.storeId, id) - LineQty(payload.items, id) >= 0
    ensures forall id :: id !in LineIds(payload.items) ==>
              GetStock(log + SaleMovements(caller.tenantId, payload.storeId,
                                           SaleItems(products, caller.tenantId, payload.items), note, caller.userId),
                       caller.tenantId, payload.storeId, id)
              == GetStock(log, caller.tenantId, payload.storeId, id)
  {
    var t, st, lines := caller.tenantId, payload.storeId, payload.items;
    var keys := LineIds(lines);
    var found := ProductsIn(products, t, keys);
    var items := SaleItems(products, t, lines);
    ResolvedIdSet(products, t, keys);
    ProductsInAscending(products, t, keys);
    assert DistinctProducts(items);
    forall k | 0 <= k < |items| ensures GetStock(log, t, st, items[k].productId) >= items[k].quantity {
      assert items[k].productId == found[k].id && found[k].id in keys;
    }
    SaleStockEffect(log, t, st, items, note, caller.userId);
    var after := log + SaleMovements(t, st, items, note, caller.userId);
    forall id | id in keys
      ensures GetStock(after, t, st, id) == GetStock(log, t, st, id) - LineQty(lines, id) >= 0
    {
      IdSetSound(found, id);
      var k :| 0 <= k < |found| && found[k].id == id;
      assert items[k].productId == id && items[k].quantity == LineQty(lines, id);
    }
    forall id | id !in keys ensures GetStock(after, t, st, id) == GetStock(log, t, st, id) {
      assert forall k :: 0 <= k < |items| ==> items[k].productId != id by {
        forall k | 0 <= k < |items| ensures items[k].productId != id {
          assert items[k].productId == found[k].id && found[k].id in keys;
        }
      }
    }
  }

  /** Each failure of the handler, in its order. */
  lemma SaleRejectionCases(stores: seq<Store>, products: seq<Product>, log: seq<Movement>,
                           caller: Caller, payload: SaleCreate)
    requires ProductIdsAscending(products)
    ensures |payload.items| == 0
            ==> SaleRejection(stores, products, log, caller, payload) == Some(BadRequest("Sale must have at least 1 item"))
    ensures |payload.items| > 0 && !StoreInTenant(stores, caller.tenantId, payload.storeId)
            ==> SaleRejection(stores, products, log, caller, payload) == Some(BadRequest("Invalid store_id"))
    ensures |payload.items| > 0 && StoreInTenant(stores, caller.tenantId, payload.storeId)
            && SellerElsewhere(caller, payload.storeId)
            ==> SaleRejection(stores, products, log, caller, payload) == Some(Forbidden("You cannot sell in another store"))
    ensures |payload.items| > 0 && StoreInTenant(stores, caller.tenantId, payload.storeId)
            && !SellerElsewhere(caller, payload.storeId)
            && payload.paymentMethod == YAPE && YapeNumberMissing(payload.yapeOperationNumber)
            ==> SaleRejection(stores, products, log, caller, payload)
                == Some(BadRequest("yape_operation_number is required for YAPE"))
    ensures |payload.items| > 0 && StoreInTenant(stores, caller.tenantId, payload.storeId)
            && !SellerElsewhere(caller, payload.storeId)
            && (payload.paymentMethod == YAPE ==> !YapeNumberMissing(payload.yapeOperationNumber))
            && !AllPositive(payload.items)
            ==> SaleRejection(stores, products, log, caller, payload) == Some(BadRequest("quantity must be > 0"))
    ensures |payload.items| > 0 && StoreInTenant(stores, caller.tenantId, payload.storeId)
            && !SellerElsewhere(caller, payload.storeId)
            && (payload.paymentMethod == YAPE ==> !YapeNumberMissing(payload.yapeOperationNumber))
            && AllPositive(payload.items)
            && !(forall id :: id in LineIds(payload.items) ==> ProductInTenant(products, caller.tenantId, id))
            ==> SaleRejection(stores, products, log, caller, payload) == Some(BadRequest("One or more products are invalid"))
  {
    AllResolvedIffSameSize(products, caller.tenantId, LineIds(payload.items));
  }

  /** A 409 always names a requested product whose stock is short. */
  lemma ConflictNamesShortProduct(stores: seq<Store>, products: seq<Product>, log: seq<Movement>,
                                  caller: Caller, payload: SaleCreate)
    ensures SaleRejection(stores, products, log, caller, payload).Some?
            && SaleRejection(stores, products, log, caller, payload).value.Conflict?
            ==> exists id :: id in LineIds(payload.items)
                  && GetStock(log, caller.tenantId, payload.storeId, id) < LineQty(payload.items, id)
                  && SaleRejection(stores, products, log, caller, payload)
                     == Some(Conflict("Insufficient stock for product_id=" + Digits(id)))
  {
    var lines := payload.items;
    var keys := LineIds(lines);
    var found := ProductsIn(products, caller.tenantId, keys);
    var res := SaleRejection(stores, products, log, caller, payload);
    if res.Some? && res.value.Conflict? {
      var short := FirstShortage(log, caller.tenantId, payload.storeId, found, Merged(lines));
      var k :| 0 <= k < |found| && found[k].id == short.value
               && GetStock(log, caller.tenantId, payload.storeId, found[k].id) < Merged(lines)[found[k].id];
      assert found[k].id in keys;
    }
  }

  /** The 409 case the other way round: when every earlier check passes
      and some requested product's stock is below its consolidated
      quantity, the answer is a 409 naming a product that is short. */
  lemma ShortageRefused(stores: seq<Store>, products: seq<Product>, log: seq<Movement>,
                        caller: Caller, payload: SaleCreate, id: nat)
    requires ProductIdsAscending(products)
    requires |payload.items| > 0 && StoreInTenant(stores, caller.tenantId, payload.storeId)
    requires !SellerElsewhere(caller, payload.storeId)
    requires payload.paymentMethod == YAPE ==> !YapeNumberMissing(payload.yapeOperationNumber)
    requires AllPositive(payload.items)
    requires forall x :: x in LineIds(payload.items) ==> ProductInTenant(products, caller.tenantId, x)
    requires id in LineIds(payload.items)
    requires GetStock(log, caller.tenantId, payload.storeId, id) < LineQty(payload.items, id)
    ensures exists short :: short in LineIds(payload.items)
              && GetStock(log, caller.tenantId, payload.storeId, short) < LineQty(payload.items, short)
              && SaleRejection(stores, products, log, caller, payload)
                 == Some(Conflict("Insufficient stock for product_id=" + Digits(short)))
  {
    SaleRejectionIffAccepted(stores, products, log, caller, payload);
    assert !SaleAccepted(stores, products, log, caller, payload);
    var keys := LineIds(payload.items);
    var found := ProductsIn(products, caller.tenantId, keys);
    AllResolvedIffSameSize(products, caller.tenantId, keys);
    assert |found| == |keys|;
    ConflictNamesShortProduct(stores, products, log, caller, payload);
  }

  /** The intended rule refuses a sale by a non-administrator outside the
      home store with 403, whatever the rest of the cart holds. */
  lemma SellerElsewhereRefused(stores: seq<Store>, products: seq<Product>, log: seq<Movement>,
                               caller: Caller, payload: SaleCreate)
    requires ProductIdsAscending(products)
    requires caller.roleName != "ADMIN"
    requires caller.storeId.Some? && caller.storeId.value != payload.storeId
    requires |payload.items| > 0 && StoreInTenant(stores, caller.tenantId, payload.storeId)
    ensures SaleRejection(stores, products, log, caller, payload) == Some(Forbidden("You cannot sell in another store"))
    ensures !SaleAccepted(stores, products, log, caller, payload)
  {
    SaleRejectionIffAccepted(stores, products, log, caller, payload);
  }

  /** The checks of `create_sale`, in its order, before anything is
      written: on success the tenant products the cart names and the
      consolidated quantities. */
  method ValidateSale(stores: seq<Store>, products: seq<Product>, log: seq<Movement>,
                      caller: Caller, payload: SaleCreate)
    returns (r: Result<(seq<Product>, map<nat, int>)>)
    requires ProductIdsAscending(products)
    ensures r.Err? <==> SaleRejection(stores, products, log, caller, payload).Some?
    ensures r.Err? ==> r.error == SaleRejection(stores, products, log, caller, payload).value
    ensures r.Ok? ==> r.value.0 == ProductsIn(products, caller.tenantId, LineIds(payload.items))
    ensures r.Ok? ==> r.value.1 == Merged(payload.items)
    ensures r.Ok? ==> IdSet(r.value.0) == LineIds(payload.items) && AllPositive(payload.items)
  {
    if |payload.items| == 0 {
      return Err(BadRequest("Sale must have at least 1 item"));
    }
    if !StoreInTenant(stores, caller.tenantId, payload.storeId) {
      return Err(BadRequest("Invalid store_id"));
    }
    if SellerElsewhere(caller, payload.storeId) {
      return Err(Forbidden("You cannot sell in another store"));
    }
    if payload.paymentMethod == YAPE && YapeNumberMissing(payload.yapeOperationNumber) {
      return Err(BadRequest("yape_operation_number is required for YAPE"));
    }

    var merged := Consolidate(payload.items);
    if merged.None? {
      return Err(BadRequest("quantity must be > 0"));
    }
    var need := merged.value;
    var keys := LineIds(payload.items);
    assert need.Keys == keys;

    var found := ProductsIn(products, caller.tenantId, need.Keys);
    if |found| != |need.Keys| {
      return Err(BadRequest("One or more products are invalid"));
    }
    AllResolvedIffSameSize(products, caller.tenantId, keys);

    var short := FindShortage(log, caller.tenantId, payload.storeId, found, need);
    if short.Some? {
      return Err(Conflict("Insufficient stock for product_id=" + Digits(short.value)));
    }
    r := Ok((found, need));
  }

  /** The commit of a sale: the sale row takes the next id of the shared
      counter and its movements join the ledger together with it. */
  method Commit(db: Db, sale: Sale, mvs: seq<Movement>)
    requires db.Valid()
    requires sale.id == db.nextSaleId
    requires MovementsOk(mvs)
    modifies db
    ensures db.Valid()
    ensures db.tenants == old(db.tenants) && db.roles == old(db.roles) && db.stores == old(db.stores)
    ensures db.users == old(db.users) && db.products == old(db.products)
    ensures db.nextTenantId == old(db.nextTenantId) && db.nextUserId == old(db.nextUserId)
    ensures db.nextProductId == old(db.nextProductId)
    ensures db.sales == old(db.sales) + [sale] && db.nextSaleId == old(db.nextSaleId) + 1
    ensures db.movements == old(db.movements) + mvs
  {
    MovementsOkConcat(db.movements, mvs);
    SalesOkAppend(db.sales, sale, db.nextSaleId);
    db.sales := db.sales + [sale];
    db.nextSaleId := db.nextSaleId + 1;
    db.movements := db.movements + mvs;
  }

  /** `create_sale`. */
  method CreateSale(db: Db, caller: Caller, payload: SaleCreate) returns (r: Result<Sale>)
    requires db.Valid()
    requires caller.roleName in {"ADMIN", "VENDEDOR"}
    modifies db
    ensures db.Valid()
    ensures db.tenants == old(db.tenants) && db.roles == old(db.roles) && db.stores == old(db.stores)
    ensures db.users == old(db.users) && db.products == old(db.products)
    ensures db.nextTenantId == old(db.nextTenantId) && db.nextUserId == old(db.nextUserId)
    ensures db.nextProductId == old(db.nextProductId)
    // The answer is the first failing check; nothing is written then.
    ensures r.Err? <==> SaleRejection(old(db.stores), old(db.products), old(db.movements), caller, payload).Some?
    ensures r.Err? ==> r.error == SaleRejection(old(db.stores), old(db.products), old(db.movements), caller, payload).value
    ensures r.Err? ==> db.sales == old(db.sales) && db.movements == old(db.movements)
                       && db.nextSaleId == old(db.nextSaleId)
    ensures r.Ok? <==> SaleAccepted(old(db.stores), old(db.products), old(db.movements), caller, payload)
    // The sale written on success.
    ensures r.Ok? ==>
              && db.sales == old(db.sales) + [r.value]
              && db.nextSaleId == old(db.nextSaleId) + 1
              && r.value.id == old(db.nextSaleId)
              && r.value.tenantId == caller.tenantId
              && r.value.storeId == payload.storeId
              && r.value.userId == caller.userId
              && r.value.number == GenerateSaleNumber(old(db.sales), caller.tenantId)
              && r.value.paymentMethod == payload.paymentMethod
              && r.value.yapeOperationNumber == StoredYapeNumber(payload.yapeOperationNumber)
              && !r.value.isVoided
              && r.value.total == SubtotalSum(r.value.items)
    ensures r.Ok? ==>
              var found := ProductsIn(old(db.products), caller.tenantId, LineIds(payload.items));
              && IdSet(found) == LineIds(payload.items)
              && |r.value.items| == |found|
              && forall k :: 0 <= k < |found| ==>
                   r.value.items[k] == LineItem(found[k], LineQty(payload.items, found[k].id))
    ensures r.Ok? ==> r.value.items == SaleItems(old(db.products), caller.tenantId, payload.items)
    ensures r.Ok? ==> DistinctProducts(r.value.items)
    ensures r.Ok? ==> db.movements == old(db.movements) + SaleMovements(
              caller.tenantId, payload.storeId, r.value.items, "Sale " + r.value.number, caller.userId)
  {
    var checked := ValidateSale(db.stores, db.products, db.movements, caller, payload);
    if checked.Err? {
      SaleRejectionIffAccepted(db.stores, db.products, db.movements, caller, payload);
      return Err(checked.error);
    }
    SaleRejectionIffAccepted(db.stores, db.products, db.movements, caller, payload);
    var sale := RecordSale(db, caller, payload, checked.value.0, checked.value.1);
    r := Ok(sale);
  }

  /** The writes of a sale that passed every check: the items at the
      current prices, the sale row under the next id and one OUT movement
      per item. */
  method RecordSale(db: Db, caller: Caller, payload: SaleCreate, found: seq<Product>, need: map<nat, int>)
    returns (sale: Sale)
    requires db.Valid()
    requires found == ProductsIn(db.products, caller.tenantId, LineIds(payload.items))
    requires need == Merged(payload.items)
    requires IdSet(found) == LineIds(payload.items) && AllPositive(payload.items)
    modifies db
    ensures db.Valid()
    ensures db.tenants == old(db.tenants) && db.roles == old(db.roles) && db.stores == old(db.stores)
    ensures db.users == old(db.users) && db.products == old(db.products)
    ensures db.nextTenantId == old(db.nextTenantId) && db.nextUserId == old(db.nextUserId)
    ensures db.nextProductId == old(db.nextProductId)
    ensures db.sales == old(db.sales) + [sale]
    ensures db.nextSaleId == old(db.nextSaleId) + 1
    ensures sale.id == old(db.nextSaleId)
    ensures sale.tenantId == caller.tenantId
    ensures sale.storeId == payload.storeId
    ensures sale.userId == caller.userId
    ensures sale.number == GenerateSaleNumber(old(db.sales), caller.tenantId)
    ensures sale.paymentMethod == payload.paymentMethod
    ensures sale.yapeOperationNumber == StoredYapeNumber(payload.yapeOperationNumber)
    ensures !sale.isVoided
    ensures sale.total == SubtotalSum(sale.items)
    ensures |sale.items| == |found|
    ensures forall k :: 0 <= k < |found| ==> sale.items[k] == LineItem(found[k], LineQty(payload.items, found[k].id))
    ensures sale.items == SaleItems(old(db.products), caller.tenantId, payload.items)
    ensures DistinctProducts(sale.items)
    ensures db.movements == old(db.movements) + SaleMovements(
              caller.tenantId, payload.storeId, sale.items, "Sale " + sale.number, caller.userId)
  {
    var keys := LineIds(payload.items);
    var items, total := BuildItems(found, need);
    var number := GenerateSaleNumber(db.sales, caller.tenantId);
    sale := Sale(db.nextSaleId, caller.tenantId, payload.storeId, caller.userId, number,
                 payload.paymentMethod, StoredYapeNumber(payload.yapeOperationNumber),
                 total, false, items);
    ProductsInAscending(db.products, caller.tenantId, keys);
    assert DistinctProducts(items);
    assert items == SaleItems(db.products, caller.tenantId, payload.items);

    var mvs := CollectOutMovements(caller.tenantId, payload.storeId, items, "Sale " + number, caller.userId);
    forall k | 0 <= k < |items| ensures items[k].quantity > 0 {
      LineQtyPositive(payload.items, found[k].id);
    }
    SaleMovementsWellFormed(caller.tenantId, payload.storeId, items, "Sale " + number, caller.userId);
    Commit(db, sale, mvs);
  }
}
