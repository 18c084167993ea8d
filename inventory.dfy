/** The inventory router: recording a manual movement and reading stock by
    product id or by barcode. */
module Inventory {
  import opened Http
  import opened Text
  import opened Models
  import opened Stock
  import opened Database

  /** The request body of `POST /inventory/movements`. A client that omits
      `direction` sends `Some(1)`, the schema's default; an explicit `null`
      is `None`. */
  datatype MovementCreate = MovementCreate(
    storeId: nat,
    productId: nat,
    kind: MovementKind,
    quantity: int,
    direction: Option<int>,
    note: Option<string>)

  datatype StockResponse = StockResponse(storeId: nat, productId: nat, stock: int)

  /** `create_movement`: validates, derives the direction, refuses an OUT
      larger than the stock, and appends exactly one movement. */
  method CreateMovement(db: Db, caller: Caller, payload: MovementCreate) returns (r: Result<Movement>)
    requires db.Valid()
    requires caller.roleName in {"ADMIN", "ALMACEN"}
    modifies db
    ensures db.Valid()
    ensures db.tenants == old(db.tenants) && db.roles == old(db.roles) && db.stores == old(db.stores)
    ensures db.users == old(db.users) && db.products == old(db.products) && db.sales == old(db.sales)
    ensures db.nextTenantId == old(db.nextTenantId) && db.nextUserId == old(db.nextUserId)
    ensures db.nextProductId == old(db.nextProductId) && db.nextSaleId == old(db.nextSaleId)
    // The checks, in the handler's order; each failure writes nothing.
    ensures r.Err? ==> db.movements == old(db.movements)
    ensures payload.quantity <= 0
            ==> r == Err(BadRequest("quantity must be > 0"))
    ensures payload.quantity > 0 && !StoreInTenant(db.stores, caller.tenantId, payload.storeId)
            ==> r == Err(BadRequest("Invalid store_id"))
    ensures payload.quantity > 0 && StoreInTenant(db.stores, caller.tenantId, payload.storeId)
            && !ProductInTenant(db.products, caller.tenantId, payload.productId)
            ==> r == Err(BadRequest("Invalid product_id"))
    ensures payload.quantity > 0 && StoreInTenant(db.stores, caller.tenantId, payload.storeId)
            && ProductInTenant(db.products, caller.tenantId, payload.productId)
            && payload.kind == ADJ && payload.direction != Some(1) && payload.direction != Some(-1)
            ==> r == Err(BadRequest("direction must be 1 or -1 for ADJ"))
    ensures payload.quantity > 0 && StoreInTenant(db.stores, caller.tenantId, payload.storeId)
            && ProductInTenant(db.products, caller.tenantId, payload.productId)
            && payload.kind == OUT
            && GetStock(old(db.movements), caller.tenantId, payload.storeId, payload.productId) < payload.quantity
            ==> r == Err(Conflict("Insufficient stock"))
    // Success exactly when every check passes; only OUT looks at the stock.
    ensures r.Ok? <==>
              && payload.quantity > 0
              && StoreInTenant(db.stores, caller.tenantId, payload.storeId)
              && ProductInTenant(db.products, caller.tenantId, payload.productId)
              && (payload.kind == ADJ ==> payload.direction == Some(1) || payload.direction == Some(-1))
              && (payload.kind == OUT ==>
                    GetStock(old(db.movements), caller.tenantId, payload.storeId, payload.productId) >= payload.quantity)
    // On success one movement with the caller's data is appended.
    ensures r.Ok? ==> db.movements == old(db.movements) + [r.value]
    ensures r.Ok? ==>
              && r.value.tenantId == caller.tenantId
              && r.value.storeId == payload.storeId
              && r.value.productId == payload.productId
              && r.value.kind == payload.kind
              && r.value.quantity == payload.quantity
              && r.value.note == payload.note
              && r.value.createdBy == caller.userId
    ensures r.Ok? ==> r.value.direction == match payload.kind
                                           case IN => 1
                                           case OUT => -1
                                           case ADJ => payload.direction.value
  {
    if payload.quantity <= 0 {
      return Err(BadRequest("quantity must be > 0"));
    }
    if !StoreInTenant(db.stores, caller.tenantId, payload.storeId) {
      return Err(BadRequest("Invalid store_id"));
    }
    if !ProductInTenant(db.products, caller.tenantId, payload.productId) {
      return Err(BadRequest("Invalid product_id"));
    }

    var direction: int;
    if payload.kind == IN {
      direction := 1;
    } else if payload.kind == OUT {
      direction := -1;
    } else {
      if payload.direction != Some(1) && payload.direction != Some(-1) {
        return Err(BadRequest("direction must be 1 or -1 for ADJ"));
      }
      direction := payload.direction.value;
    }

    if payload.kind == OUT {
      var currentStock := GetStock(db.movements, caller.tenantId, payload.storeId, payload.productId);
      if currentStock < payload.quantity {
        return Err(Conflict("Insufficient stock"));
      }
    }

    var movement := Movement(caller.tenantId, payload.storeId, payload.productId, payload.kind,
                             payload.quantity, direction, payload.note, caller.userId);
    db.movements := db.movements + [movement];
    r := Ok(movement);
  }

  /** Only OUT is guarded: an accepted ADJ with direction -1 larger than
      the stock (no check refuses it) leaves the stock negative. */
  lemma AdjCanDriveStockNegative(log: seq<Movement>, caller: Caller, payload: MovementCreate)
    requires payload.kind == ADJ && payload.direction == Some(-1)
    requires payload.quantity > GetStock(log, caller.tenantId, payload.storeId, payload.productId)
    ensures var m := Movement(caller.tenantId, payload.storeId, payload.productId, ADJ,
                              payload.quantity, -1, payload.note, caller.userId);
            GetStock(log + [m], caller.tenantId, payload.storeId, payload.productId) < 0
  {
    var m := Movement(caller.tenantId, payload.storeId, payload.productId, ADJ,
                      payload.quantity, -1, payload.note, caller.userId);
    GetStockAppend(log, m, caller.tenantId, payload.storeId, payload.productId);
  }

  /** `stock_by_product`: the stock of a store and product of the caller's
      tenant. */
  function StockByProduct(stores: seq<Store>, products: seq<Product>, log: seq<Movement>,
                          caller: Caller, storeId: nat, productId: nat): Result<StockResponse>
    requires caller.roleName in {"ADMIN", "ALMACEN", "VENDEDOR"}
  {
    if !StoreInTenant(stores, caller.tenantId, storeId) then Err(BadRequest("Invalid store_id"))
    else if !ProductInTenant(products, caller.tenantId, productId) then Err(BadRequest("Invalid product_id"))
    else Ok(StockResponse(storeId, productId, GetStock(log, caller.tenantId, storeId, productId)))
  }

  /** The id of the tenant product whose barcode is `barcode`, active or
      not (the query does not filter on `is_active`). */
  function ProductIdByBarcode(products: seq<Product>, tenantId: nat, barcode: string): (r: Option<nat>)
    ensures r.Some? ==> exists k :: 0 <= k < |products| && products[k].tenantId == tenantId
                                  && products[k].barcode == barcode && products[k].id == r.value
    ensures r.None? ==> forall k :: 0 <= k < |products| ==>
                          !(products[k].tenantId == tenantId && products[k].barcode == barcode)
  {
    if products == [] then None
    else if products[0].tenantId == tenantId && products[0].barcode == barcode then Some(products[0].id)
    else
      var r := ProductIdByBarcode(products[1..], tenantId, barcode);
      assert forall k :: 1 <= k < |products| ==> products[k] == products[1..][k - 1];
      r
  }

  /** `stock_by_barcode`: the store is checked first, then the stripped
      barcode is resolved within the tenant. */
  function StockByBarcode(stores: seq<Store>, products: seq<Product>, log: seq<Movement>,
                          caller: Caller, storeId: nat, barcode: string): Result<StockResponse>
    requires caller.roleName in {"ADMIN", "ALMACEN", "VENDEDOR"}
  {
    if !StoreInTenant(stores, caller.tenantId, storeId) then Err(BadRequest("Invalid store_id"))
    else
      match ProductIdByBarcode(products, caller.tenantId, Strip(barcode))
      case None => Err(NotFound("Product not found"))
      case Some(pid) => Ok(StockResponse(storeId, pid, GetStock(log, caller.tenantId, storeId, pid)))
  }

  /** Stock by barcode is stock by product for the product the barcode
      names: 404 when no product of the tenant carries the stripped
      barcode, otherwise the same answer as `get_stock` for that product. */
  lemma StockByBarcodeAgrees(stores: seq<Store>, products: seq<Product>, log: seq<Movement>,
                             caller: Caller, storeId: nat, barcode: string, k: nat)
    requires caller.roleName in {"ADMIN", "ALMACEN", "VENDEDOR"}
    requires BarcodesUnique(products)
    requires StoreInTenant(stores, caller.tenantId, storeId)
    requires k < |products| && products[k].tenantId == caller.tenantId && products[k].barcode == Strip(barcode)
    ensures StockByBarcode(stores, products, log, caller, storeId, barcode)
         == StockByProduct(stores, products, log, caller, storeId, products[k].id)
    ensures StockByBarcode(stores, products, log, caller, storeId, barcode)
         == Ok(StockResponse(storeId, products[k].id, GetStock(log, caller.tenantId, storeId, products[k].id)))
  {
    var r := ProductIdByBarcode(products, caller.tenantId, Strip(barcode));
    var j :| 0 <= j < |products| && products[j].tenantId == caller.tenantId
             && products[j].barcode == Strip(barcode) && products[j].id == r.value;
    assert j == k;
  }

  /** A barcode no product of the tenant carries resolves to nothing. */
  lemma ProductIdByBarcodeAbsent(products: seq<Product>, tenantId: nat, barcode: string)
    requires forall k :: 0 <= k < |products| ==>
               !(products[k].tenantId == tenantId && products[k].barcode == barcode)
    ensures ProductIdByBarcode(products, tenantId, barcode) == None
  {
    if ProductIdByBarcode(products, tenantId, barcode).Some? {
      assert false;
    }
  }

  /** The 404 case: no product of the tenant has the stripped barcode. */
  lemma StockByBarcodeNotFound(stores: seq<Store>, products: seq<Product>, log: seq<Movement>,
                               caller: Caller, storeId: nat, barcode: string)
    requires caller.roleName in {"ADMIN", "ALMACEN", "VENDEDOR"}
    requires StoreInTenant(stores, caller.tenantId, storeId)
    requires forall k :: 0 <= k < |products| ==>
               !(products[k].tenantId == caller.tenantId && products[k].barcode == Strip(barcode))
    ensures StockByBarcode(stores, products, log, caller, storeId, barcode) == Err(NotFound("Product not found"))
  {
    ProductIdByBarcodeAbsent(products, caller.tenantId, Strip(barcode));
  }

  /** Stock by product answers with exactly the derived stock when both ids
      belong to the tenant, and validates the store before the product. */
  lemma StockByProductSpec(stores: seq<Store>, products: seq<Product>, log: seq<Movement>,
                           caller: Caller, storeId: nat, productId: nat)
    requires caller.roleName in {"ADMIN", "ALMACEN", "VENDEDOR"}
    ensures StockByProduct(stores, products, log, caller, storeId, productId).Ok?
        <==> StoreInTenant(stores, caller.tenantId, storeId) && ProductInTenant(products, caller.tenantId, productId)
    ensures !StoreInTenant(stores, caller.tenantId, storeId)
        ==> StockByProduct(stores, products, log, caller, storeId, productId) == Err(BadRequest("Invalid store_id"))
    ensures StockByProduct(stores, products, log, caller, storeId, productId).Ok?
        ==> StockByProduct(stores, products, log, caller, storeId, productId).value.stock
            == SignedSum(Select(log, caller.tenantId, storeId, productId))
  {
    GetStockIsSumOfSelected(log, caller.tenantId, storeId, productId);
  }
}
