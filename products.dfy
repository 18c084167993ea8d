/** The products router: the tenant's catalogue. Barcodes are stripped on
    the way in and are unique per tenant (the `uq_products_tenant_barcode`
    constraint); a write that would break that constraint is rolled back
    with 409. */
module Products {
  import opened Http
  import opened Text
  import opened Models
  import opened Database
  import opened Inventory

  /** The request body of `POST /products`; `price` in cents. */
  datatype ProductCreate = ProductCreate(
    name: string,
    category: Option<string>,
    barcode: string,
    price: int,
    imageUrl: Option<string>)

  /** The request body of `PATCH /products/{id}`: `None` leaves a field as
      it is. */
  datatype ProductUpdate = ProductUpdate(
    name: Option<string>,
    category: Option<string>,
    barcode: Option<string>,
    price: Option<int>,
    imageUrl: Option<string>,
    isActive: Option<bool>)

  const BarcodeConflict: Error := Conflict("Barcode already exists for this tenant")
  const ProductNotFound: Error := NotFound("Product not found")

  /** Some product of the tenant, other than the one at `except`, already
      carries `barcode` (`except == |products|` excludes none). */
  predicate BarcodeTaken(products: seq<Product>, tenantId: nat, barcode: string, except: nat) {
    exists k :: 0 <= k < |products| && k != except
                && products[k].tenantId == tenantId && products[k].barcode == barcode
  }

  // ---------------------------------------------------------------------
  // create_product

  /** The commit of a new product row: it takes the next id, and its
      barcode is new in its tenant. */
  method InsertProduct(db: Db, product: Product)
    requires db.Valid()
    requires product.id == db.nextProductId
    requires !BarcodeTaken(db.products, product.tenantId, product.barcode, |db.products|)
    modifies db
    ensures db.Valid()
    ensures db.products == old(db.products) + [product] && db.nextProductId == old(db.nextProductId) + 1
    ensures db.tenants == old(db.tenants) && db.roles == old(db.roles) && db.stores == old(db.stores)
    ensures db.users == old(db.users) && db.movements == old(db.movements) && db.sales == old(db.sales)
    ensures db.nextTenantId == old(db.nextTenantId) && db.nextUserId == old(db.nextUserId)
    ensures db.nextSaleId == old(db.nextSaleId)
  {
    db.products := db.products + [product];
    db.nextProductId := db.nextProductId + 1;
  }

  /** `create_product`: an active product of the caller's tenant with the
      stripped barcode, or 409 when the tenant already has that barcode. */
  method CreateProduct(db: Db, caller: Caller, payload: ProductCreate) returns (r: Result<Product>)
    requires db.Valid()
    requires caller.roleName in {"ADMIN", "ALMACEN"}
    modifies db
    ensures db.Valid()
    ensures db.tenants == old(db.tenants) && db.roles == old(db.roles) && db.stores == old(db.stores)
    ensures db.users == old(db.users) && db.movements == old(db.movements) && db.sales == old(db.sales)
    ensures db.nextTenantId == old(db.nextTenantId) && db.nextUserId == old(db.nextUserId)
    ensures db.nextSaleId == old(db.nextSaleId)
    ensures r.Err? ==> db.products == old(db.products) && db.nextProductId == old(db.nextProductId)
    ensures r.Err? <==> BarcodeTaken(old(db.products), caller.tenantId, Strip(payload.barcode), |old(db.products)|)
    ensures r.Err? ==> r.error == BarcodeConflict
    ensures r.Ok? ==>
              && r.value == Product(old(db.nextProductId), caller.tenantId, payload.name, payload.category,
                                    Strip(payload.barcode), payload.price, payload.imageUrl, true)
              && db.products == old(db.products) + [r.value]
              && db.nextProductId == old(db.nextProductId) + 1
  {
    var barcode := Strip(payload.barcode);
    if BarcodeTaken(db.products, caller.tenantId, barcode, |db.products|) {
      return Err(BarcodeConflict);
    }
    var product := Product(db.nextProductId, caller.tenantId, payload.name, payload.category,
                           barcode, payload.price, payload.imageUrl, true);
    InsertProduct(db, product);
    r := Ok(product);
  }

  /** The barcode stored by `create_product` and `update_product` is
      stripped, so stripping the lookup key again finds it. */
  lemma StoredBarcodeIsStripped(barcode: string)
    ensures IsStripped(Strip(barcode))
    ensures Strip(Strip(barcode)) == Strip(barcode)
  {
    StripShape(barcode);
    StripOfStripped(Strip(barcode));
  }

  // ---------------------------------------------------------------------
  // list_products

  /** `list_products` without a search term: the tenant's products, the
      highest id first. The table is kept in ascending id order, so the
      descending order is the table read backwards. */
  function ListProducts(products: seq<Product>, tenantId: nat): (r: seq<Product>)
    ensures |r| <= |products|
    ensures forall k :: 0 <= k < |r| ==> r[k].tenantId == tenantId
    ensures forall k :: 0 <= k < |products| && products[k].tenantId == tenantId ==> products[k] in r
  {
    if products == [] then []
    else
      var rest := ListProducts(products[1..], tenantId);
      assert forall k :: 1 <= k < |products| ==> products[k] == products[1..][k - 1];
      if products[0].tenantId == tenantId then rest + [products[0]] else rest
  }

  /** Every listed product is a row of the table. */
  lemma {:induction false} ListProductsSound(products: seq<Product>, tenantId: nat)
    ensures forall k :: 0 <= k < |ListProducts(products, tenantId)| ==> ListProducts(products, tenantId)[k] in products
  {
    if products != [] {
      var tail := products[1..];
      ListProductsSound(tail, tenantId);
      var rest := ListProducts(tail, tenantId);
      var r := ListProducts(products, tenantId);
      assert r == rest + [products[0]] || r == rest;
      forall k | 0 <= k < |r| ensures r[k] in products {
        if k < |rest| {
          assert r[k] == rest[k];
          assert rest[k] in tail;
        }
      }
    }
  }

  /** The list is ordered by id, strictly descending. */
  lemma {:induction false} ListProductsDescending(products: seq<Product>, tenantId: nat)
    requires ProductIdsAscending(products)
    ensures forall i, j :: 0 <= i < j < |ListProducts(products, tenantId)| ==>
              ListProducts(products, tenantId)[i].id > ListProducts(products, tenantId)[j].id
  {
    if products != [] {
      var tail := products[1..];
      assert forall k :: 0 <= k < |tail| ==> tail[k] == products[k + 1];
      ListProductsDescending(tail, tenantId);
      ListProductsSound(tail, tenantId);
      var rest := ListProducts(tail, tenantId);
      forall k | 0 <= k < |rest| ensures rest[k].id > products[0].id {
        assert rest[k] in tail;
        var j :| 0 <= j < |tail| && tail[j] == rest[k];
      }
      var r := ListProducts(products, tenantId);
      if products[0].tenantId == tenantId {
        assert r == rest + [products[0]];
        forall i, j | 0 <= i < j < |r| ensures r[i].id > r[j].id {
          if j == |rest| {
            assert r[i] == rest[i] && r[j] == products[0];
          } else {
            assert r[i] == rest[i] && r[j] == rest[j];
          }
        }
      }
    }
  }

  /** A product is listed exactly when it is a row of the caller's
      tenant. */
  lemma ListProductsMembership(products: seq<Product>, tenantId: nat, p: Product)
    ensures p in ListProducts(products, tenantId) <==> p in products && p.tenantId == tenantId
  {
    ListProductsSound(products, tenantId);
    if p in ListProducts(products, tenantId) {
      var k :| 0 <= k < |ListProducts(products, tenantId)| && ListProducts(products, tenantId)[k] == p;
    }
    if p in products && p.tenantId == tenantId {
      var j :| 0 <= j < |products| && products[j] == p;
    }
  }

  // ---------------------------------------------------------------------
  // get_by_barcode

  /** The first active product of the tenant whose barcode is `key`. */
  function FindActive(products: seq<Product>, tenantId: nat, key: string): (r: Result<Product>)
    ensures r.Ok? ==> exists k :: 0 <= k < |products| && products[k] == r.value
    ensures r.Ok? ==> r.value.tenantId == tenantId && r.value.barcode == key && r.value.isActive
    ensures r.Err? ==> r.error == ProductNotFound
    ensures r.Err? ==> forall k :: 0 <= k < |products| ==>
              !(products[k].tenantId == tenantId && products[k].barcode == key && products[k].isActive)
  {
    if products == [] then Err(ProductNotFound)
    else if products[0].tenantId == tenantId && products[0].barcode == key && products[0].isActive
    then Ok(products[0])
    else
      var r := FindActive(products[1..], tenantId, key);
      assert forall k :: 1 <= k < |products| ==> products[k] == products[1..][k - 1];
      r
  }

  /** `get_by_barcode`: the active product of the caller's tenant whose
      barcode is the stripped key, else 404. */
  function GetByBarcode(products: seq<Product>, tenantId: nat, barcode: string): (r: Result<Product>)
    ensures r.Ok? ==> exists k :: 0 <= k < |products| && products[k] == r.value
    ensures r.Ok? ==> r.value.tenantId == tenantId && r.value.barcode == Strip(barcode) && r.value.isActive
    ensures r.Err? ==> r == Err(ProductNotFound)
    ensures r.Err? <==> forall k :: 0 <= k < |products| ==>
              !(products[k].tenantId == tenantId && products[k].barcode == Strip(barcode) && products[k].isActive)
  {
    FindActive(products, tenantId, Strip(barcode))
  }

  /** With barcodes unique per tenant the lookup finds the one row that
      carries the key, when that row is active. */
  lemma GetByBarcodeFinds(products: seq<Product>, tenantId: nat, barcode: string, k: nat)
    requires BarcodesUnique(products)
    requires k < |products| && products[k].tenantId == tenantId && products[k].barcode == Strip(barcode)
    ensures products[k].isActive ==> GetByBarcode(products, tenantId, barcode) == Ok(products[k])
    ensures !products[k].isActive ==> GetByBarcode(products, tenantId, barcode) == Err(ProductNotFound)
  {
    var r := GetByBarcode(products, tenantId, barcode);
    if r.Ok? {
      var j :| 0 <= j < |products| && products[j] == r.value;
      assert j == k;
    }
  }

  /** The two barcode lookups differ only in the `is_active` filter: a
      deactivated product is 404 for `get_by_barcode` while the stock
      lookup by barcode still answers with its stock. */
  lemma DeactivatedProductHidden(stores: seq<Store>, products: seq<Product>, log: seq<Movement>,
                                 caller: Caller, storeId: nat, barcode: string, k: nat)
    requires caller.roleName in {"ADMIN", "ALMACEN", "VENDEDOR"}
    requires BarcodesUnique(products)
    requires StoreInTenant(stores, caller.tenantId, storeId)
    requires k < |products| && products[k].tenantId == caller.tenantId && products[k].barcode == Strip(barcode)
    requires !products[k].isActive
    ensures GetByBarcode(products, caller.tenantId, barcode) == Err(ProductNotFound)
    ensures StockByBarcode(stores, products, log, caller, storeId, barcode).Ok?
    ensures StockByBarcode(stores, products, log, caller, storeId, barcode).value.productId == products[k].id
  {
    GetByBarcodeFinds(products, caller.tenantId, barcode, k);
    StockByBarcodeAgrees(stores, products, log, caller, storeId, barcode, k);
  }

  // ---------------------------------------------------------------------
  // update_product

  /** The tenant's product with this id, as the index of its row. */
  function ProductIndex(products: seq<Product>, tenantId: nat, productId: nat): (r: Option<nat>)
    ensures r.Some? ==> r.value < |products| && products[r.value].id == productId
                        && products[r.value].tenantId == tenantId
    ensures r.None? <==> forall k :: 0 <= k < |products| ==>
                           !(products[k].id == productId && products[k].tenantId == tenantId)
  {
    if products == [] then None
    else
      var init := products[..|products| - 1];
      var r := ProductIndex(init, tenantId, productId);
      assert forall k :: 0 <= k < |init| ==> init[k] == products[k];
      if r.Some? then r
      else if products[|products| - 1].id == productId && products[|products| - 1].tenantId == tenantId
      then Some(|products| - 1)
      else None
  }

  /** The row after the field-by-field edit of `update_product`. */
  function ProductPatched(current: Product, payload: ProductUpdate): Product {
    current.(
      name := payload.name.GetOr(current.name),
      category := if payload.category.Some? then payload.category else current.category,
      barcode := if payload.barcode.Some? then Strip(payload.barcode.value) else current.barcode,
      price := payload.price.GetOr(current.price),
      imageUrl := if payload.imageUrl.Some? then payload.imageUrl else current.imageUrl,
      isActive := payload.isActive.GetOr(current.isActive))
  }

  /** A patch is partial: a field left out keeps its value, a given field
      takes the new value (a barcode stripped), and the id and tenant
      never change. */
  lemma ProductPatchIsPartial(current: Product, payload: ProductUpdate)
    ensures ProductPatched(current, payload).id == current.id
    ensures ProductPatched(current, payload).tenantId == current.tenantId
    ensures payload.name.None? ==> ProductPatched(current, payload).name == current.name
    ensures payload.name.Some? ==> ProductPatched(current, payload).name == payload.name.value
    ensures payload.category.None? ==> ProductPatched(current, payload).category == current.category
    ensures payload.category.Some? ==> ProductPatched(current, payload).category == payload.category
    ensures payload.barcode.None? ==> ProductPatched(current, payload).barcode == current.barcode
    ensures payload.barcode.Some? ==> ProductPatched(current, payload).barcode == Strip(payload.barcode.value)
    ensures payload.price.None? ==> ProductPatched(current, payload).price == current.price
    ensures payload.price.Some? ==> ProductPatched(current, payload).price == payload.price.value
    ensures payload.imageUrl.None? ==> ProductPatched(current, payload).imageUrl == current.imageUrl
    ensures payload.imageUrl.Some? ==> ProductPatched(current, payload).imageUrl == payload.imageUrl
    ensures payload.isActive.None? ==> ProductPatched(current, payload).isActive == current.isActive
    ensures payload.isActive.Some? ==> ProductPatched(current, payload).isActive == payload.isActive.value
    ensures payload == ProductUpdate(None, None, None, None, None, None) ==> ProductPatched(current, payload) == current
  {
  }

  /** A patch that keeps the barcode cannot break the constraint. */
  lemma KeptBarcodeNeverConflicts(products: seq<Product>, idx: nat, payload: ProductUpdate)
    requires BarcodesUnique(products)
    requires idx < |products|
    requires payload.barcode.None? || Strip(payload.barcode.value) == products[idx].barcode
    ensures !BarcodeTaken(products, products[idx].tenantId, ProductPatched(products[idx], payload).barcode, idx)
  {
  }

  /** The commit of an edited row: same id and tenant, and no other
      product of the tenant carries its barcode. */
  method CommitProduct(db: Db, idx: nat, product: Product)
    requires db.Valid()
    requires idx < |db.products|
    requires product.id == db.products[idx].id && product.tenantId == db.products[idx].tenantId
    requires !BarcodeTaken(db.products, product.tenantId, product.barcode, idx)
    modifies db
    ensures db.Valid()
    ensures db.products == old(db.products)[idx := product]
    ensures db.tenants == old(db.tenants) && db.roles == old(db.roles) && db.stores == old(db.stores)
    ensures db.users == old(db.users) && db.movements == old(db.movements) && db.sales == old(db.sales)
    ensures db.nextTenantId == old(db.nextTenantId) && db.nextUserId == old(db.nextUserId)
    ensures db.nextProductId == old(db.nextProductId) && db.nextSaleId == old(db.nextSaleId)
  {
    db.products := db.products[idx := product];
  }

  /** `update_product`: 404 for a product outside the tenant, then the
      partial edit, committed unless its barcode is another product's.
      Sales are untouched, so a new price leaves every stored
      `unit_price` and `subtotal` as it was. */
  method UpdateProduct(db: Db, caller: Caller, productId: nat, payload: ProductUpdate) returns (r: Result<Product>)
    requires db.Valid()
    requires caller.roleName in {"ADMIN", "ALMACEN"}
    modifies db
    ensures db.Valid()
    ensures db.tenants == old(db.tenants) && db.roles == old(db.roles) && db.stores == old(db.stores)
    ensures db.users == old(db.users) && db.movements == old(db.movements) && db.sales == old(db.sales)
    ensures db.nextTenantId == old(db.nextTenantId) && db.nextUserId == old(db.nextUserId)
    ensures db.nextProductId == old(db.nextProductId) && db.nextSaleId == old(db.nextSaleId)
    ensures r.Err? ==> db.products == old(db.products)
    ensures ProductIndex(old(db.products), caller.tenantId, productId).None? ==> r == Err(ProductNotFound)
    ensures ProductIndex(old(db.products), caller.tenantId, productId).Some? ==>
              var idx := ProductIndex(old(db.products), caller.tenantId, productId).value;
              var patched := ProductPatched(old(db.products)[idx], payload);
              && (r.Err? <==> BarcodeTaken(old(db.products), caller.tenantId, patched.barcode, idx))
              && (r.Err? ==> r == Err(BarcodeConflict))
              && (r.Ok? ==> r.value == patched && db.products == old(db.products)[idx := patched])
  {
    var found := ProductIndex(db.products, caller.tenantId, productId);
    if found.None? {
      return Err(ProductNotFound);
    }
    var idx := found.value;
    var product := db.products[idx];
    if payload.name.Some? {
      product := product.(name := payload.name.value);
    }
    if payload.category.Some? {
      product := product.(category := payload.category);
    }
    if payload.barcode.Some? {
      product := product.(barcode := Strip(payload.barcode.value));
    }
    if payload.price.Some? {
      product := product.(price := payload.price.value);
    }
    if payload.imageUrl.Some? {
      product := product.(imageUrl := payload.imageUrl);
    }
    if payload.isActive.Some? {
      product := product.(isActive := payload.isActive.value);
    }
    assert product == ProductPatched(db.products[idx], payload);
    if BarcodeTaken(db.products, caller.tenantId, product.barcode, idx) {
      return Err(BarcodeConflict);
    }
    CommitProduct(db, idx, product);
    r := Ok(product);
  }
}
