# Cosmetica POS backend — a Dafny model of its core

This project models the core of a multi-tenant point-of-sale backend for
cosmetics shops. Each tenant (a company) has stores, users with roles
(ADMIN, ALMACEN for warehouse staff, VENDEDOR for sellers), a product
catalogue, an append-only inventory ledger and sales.

The model covers the following.

- **Stock derivation** (`Stock`). Stock is never stored. `get_stock` is the
  signed sum `quantity * direction` over the ledger rows of one (tenant,
  store, product).
- **The inventory router** (`Inventory`). It records a manual IN, OUT or ADJ
  movement after validation and an OUT guard, and reads stock by product
  id or by barcode.
- **The sale transaction** (`Sales`, `SalesNumber`). A cart is validated,
  then consolidated per product, resolved against the tenant's products
  and stock-checked. It becomes one sale with one item per product and one
  OUT movement per item, or nothing at all. The sale number is `V-`
  followed by the tenant's largest sale id plus one, zero-padded to six
  digits.
- **The stock figures of the dashboard** (`Dashboard`): active products,
  total units and the low-stock count.
- **Account and catalogue rules** (`Users`, `Tenants`, `Products`):
  - role lookup by normalised name;
  - a home store for store-bound roles;
  - e-mails unique per tenant;
  - tenant names unique;
  - the first administrator of a tenant, with a global e-mail check;
  - barcodes stripped and unique per tenant;
  - partial patches;
  - the product list, newest first.

## How the model is built

- **The database is one object.** `Database.Db` holds one `seq` per table
  plus the autoincrement counters. Its `Valid()` states every table
  constraint the handlers rely on:
  - tenant, user, product and sale ids positive, ascending and below
    their counter (the store table carries no constraint: no handler of
    the model writes it);
  - unique tenant names;
  - unique role names per tenant, and each role's tenant exists;
  - unique e-mails per tenant;
  - unique barcodes per tenant;
  - well-formed movements.
- **Writing handlers are methods** over `db` with `modifies db`. Each one
  either commits all its writes or, on an error, leaves every table as it
  was (`r.Err? ==> ... == old(...)`).
- **Reading handlers are functions.** Each returns a `Result` whose `Err`
  carries the HTTP status (as the `Error` variant) and the exact detail
  string.
- **The caller is a trusted input.** It is tenant, user, role name and home
  store. The `require_roles` guard is a precondition.
- **Money is integer cents.** Prices are `Numeric(12, 2)`, so rounding a
  total to two decimals changes nothing.
- **Strings.** `strip()` is modelled with Python's whitespace set.
  `upper()` and `lower()` are modelled on ASCII letters.

One behaviour of the code is modelled as written, and one is corrected.

- **The seller-store clause never fires as written.** In `create_sale` it
  ends in `"ADMIN" not in ["ADMIN"]`, which is always false, so a seller
  with a home store may sell in any store of the tenant
  (`Sales.SellerStoreForbidden`). The comment beside it states the rule: a
  seller with a home store may not sell in another store. The
  simplification it mentions is writing a literal where the caller's role
  name belongs, not switching the rule off. The model logs this under
  "## Findings" and uses the intended rule, `Sales.SellerElsewhere`, in
  `create_sale`.
- **The administrator's e-mail check spans all tenants.** It uses
  `scalar_one_or_none` over every user, and e-mails are unique only per
  tenant. When two tenants already share an address, the query itself
  fails (500) instead of answering 409 (`Tenants.SharedEmailFailsTheQuery`).

## Model

| member | source | states |
|---|---|---|
| Stock.Select | app/services/stock.py:10-14 | the rows the WHERE clause selects are exactly the ledger rows of that (tenant, store, product) |
| Stock.SelectCounts | app/services/stock.py:10-14 | the selection neither merges nor duplicates rows: each matching row occurs as often as in the ledger, any other row never |
| Stock.GetStockIsSumOfSelected | app/services/stock.py:8-15 | stock equals the signed sum `quantity * direction` of the selected rows |
| Stock.GetStockNoMatch | app/services/stock.py:9 | with no matching movement the stock is 0 (the `coalesce`), not an error |
| Stock.GetStockAppend | app/services/stock.py:9-14 | appending one movement changes its own key's stock by exactly `quantity * direction` and every other key's by nothing |
| Stock.GetStockConcat | app/services/stock.py:9 | stock over a concatenated ledger is the sum of the stocks of the parts |
| Stock.GetStockIgnoresOtherKeys | app/services/stock.py:10-14 | movements of another tenant, store or product never change the result |
| Stock.GetStockRemoveAt | app/services/stock.py:9 | removing one ledger row removes exactly its contribution |
| Stock.GetStockPermutation | app/services/stock.py:9 | the stock does not depend on the order of the ledger (same multiset, same stock) |
| Stock.OutKeepsStockNonNegative | app/routers/inventory.py:52-55 | an OUT of at most the current stock leaves that stock at old minus quantity, which is non-negative |
| Inventory.CreateMovement | app/routers/inventory.py:17-71 | for each failing check in order, the answer is its error: quantity ≤ 0, foreign store, foreign product, ADJ direction not ±1, OUT above stock (409). Success holds exactly when every check passes. On success exactly one movement is appended with the caller's tenant and user and the payload's fields; direction is +1 for IN and −1 for OUT whatever the payload says, and the payload's value for ADJ. On error the ledger is unchanged |
| Inventory.AdjCanDriveStockNegative | app/routers/inventory.py:52 | only OUT is stock-checked: an ADJ with direction −1 larger than the stock leaves it negative |
| Inventory.ProductIdByBarcode | app/routers/inventory.py:110-112 | finds the id of a tenant product carrying the barcode, active or not, and reports none exactly when no tenant product carries it |
| Inventory.StockByBarcodeAgrees | app/routers/inventory.py:97-117 | with the store valid and a tenant product carrying the stripped barcode, stock by barcode is the same answer as stock by that product id, i.e. its `get_stock` |
| Inventory.StockByBarcodeNotFound | app/routers/inventory.py:113-114 | no tenant product carries the stripped barcode: 404 "Product not found" |
| Inventory.StockByProductSpec | app/routers/inventory.py:74-95 | succeeds exactly when store and product are the tenant's, checks the store first, and answers the signed sum of the matching movements |
| Sales.LineIds | app/routers/sales.py:48-52 | every product id of the cart is a key of the consolidated cart |
| Sales.LineQtyAbsent | app/routers/sales.py:52 | a product the cart does not mention needs 0 units |
| Sales.LineQtyPositive | app/routers/sales.py:48-52 | with all line quantities positive, each product of the cart needs a positive consolidated quantity |
| Sales.ConsolidationExample | app/routers/sales.py:48-52 | two lines of product 7 with 2 and 3 units consolidate into one key needing 5 |
| Sales.Consolidate | app/routers/sales.py:48-52 | the `merged` loop succeeds exactly when every line quantity is positive, and then maps each requested product to the sum of its line quantities |
| Sales.ProductsIn | app/routers/sales.py:55-57 | the query returns at most the table's rows, only tenant products with a requested id, and every such product |
| Sales.ProductsInSound | app/routers/sales.py:55-57 | every product the query returns is a row of the table |
| Sales.ProductsInAscending | app/routers/sales.py:55-57 | the products found keep the table's ascending id order, so no product is found twice |
| Sales.IdSetSound | app/routers/sales.py:59 | every id of the found products' id set belongs to one of them |
| Sales.AscendingIdSetSize | app/routers/sales.py:59 | products with distinct ids have as many ids as rows |
| Sales.ResolvedIdSet | app/routers/sales.py:55-60 | when every requested id is a tenant product, the products found carry exactly the requested ids |
| Sales.AllResolvedIffSameSize | app/routers/sales.py:55-60 | the size check `len(products) != len(merged)` fails exactly when some requested id is not a product of the tenant; when it passes, the found ids are the requested ids |
| Sales.FirstShortage | app/routers/sales.py:62-67 | none exactly when every found product's stock covers its consolidated quantity; otherwise it names a found product whose stock is short |
| Sales.FindShortage | app/routers/sales.py:62-67 | the stock-check loop answers what `FirstShortage` answers |
| Sales.FirstShortageIsFirst | app/routers/sales.py:62-67 | the product named is the first one, in query order, whose stock is below its consolidated quantity: every product before it is covered |
| Sales.BuildItems | app/routers/sales.py:69-77 | the totals loop builds one item per found product: its id, the consolidated quantity, the current price and `price * qty`. The total is the sum of the subtotals |
| Sales.SaleMovements | app/routers/sales.py:95-106 | one OUT movement per item, in item order, with the item's product and quantity, direction −1 and the sale's note and user |
| Sales.CollectOutMovements | app/routers/sales.py:95-106 | the movement loop produces exactly those movements |
| Sales.SaleMovementsWellFormed | app/routers/sales.py:95-105 | a sale's movements are valid ledger entries when item quantities are positive |
| Sales.SalesOkAppend | app/models/sale.py:10 | a sale drawn from the shared id counter keeps the sales table ordered by id |
| Sales.SaleMovementsStock | app/routers/sales.py:95-106 | the sale's movements lower each product's stock in the sale's store by the units its items take and change no other key |
| Sales.ItemQtyOfDistinct | app/routers/sales.py:72-77 | with one item per product, a product's units are those of its item |
| Sales.SaleStockEffect | app/routers/sales.py:63-106 | after a passed stock check, each sold product's stock drops by exactly its quantity and stays ≥ 0, and every other (tenant, store, product) keeps its stock |
| Sales.SellerStoreForbidden | app/routers/sales.py:36-41 | the seller-store clause as written is never true, so it never raises 403 |
| Sales.SaleRejectionIffAccepted | app/routers/sales.py:26-67 | a sale goes through exactly when the cart is non-empty, the store is the tenant's, a non-administrator with a home store sells in that store, a YAPE sale has a non-blank operation number, every quantity is positive, every product is the tenant's, and each product's stock covers its consolidated quantity |
| Sales.SaleRejectionCases | app/routers/sales.py:26-67 | each failure in the handler's order with its status and detail, including 403 for a seller outside the home store |
| Sales.ConflictNamesShortProduct | app/routers/sales.py:62-67 | a 409 always names a requested product whose stock is below its consolidated quantity |
| Sales.ShortageRefused | app/routers/sales.py:62-67 | when every earlier check passes and some requested product's stock is below its consolidated quantity, the answer is 409 "Insufficient stock for product_id=…" naming a short product |
| Sales.WrittenClauseLetsSellerElsewhere | app/routers/sales.py:36-41 | as written, a seller assigned to store 1 is let through in store 2, which the intended rule refuses |
| Sales.SellerElsewhereRefused | app/routers/sales.py:36-41 | under the intended rule, a non-administrator with a home store who sells in another valid store of the tenant gets 403 "You cannot sell in another store" and the sale is not accepted |
| Sales.SaleItems | app/routers/sales.py:72-77 | an accepted cart has one item per product found |
| Sales.AcceptedSaleStockEffect | app/routers/sales.py:63-106 | for an accepted cart, each requested product's stock in the store drops by its consolidated quantity and stays ≥ 0, and every other product of that store keeps its stock |
| Sales.ValidateSale | app/routers/sales.py:26-67 | the checks before any write: the error is the first failing check; success yields the query's products, the consolidated cart, and the found ids equal to the requested ids |
| Sales.CreateSale | app/routers/sales.py:20-110 | error exactly when a check fails, and then nothing is written. Success holds exactly when the cart is accepted. The new sale has the next global id, the caller's tenant and user, the generated number, the trimmed YAPE number, is not voided, and its total is the sum of the subtotals. It has one item per distinct product at the current price. The ledger gains exactly the OUT movements with note `"Sale " + number` |
| SalesNumber.MaxSaleId | app/services/sales_number.py:7-9 | the largest id among the tenant's sales, or 0, and only tenant sales reach it |
| SalesNumber.FormatRoundTrip | app/services/sales_number.py:11 | `V-` plus the zero-padded digits reads back as the value |
| SalesNumber.FormatInjective | app/services/sales_number.py:11 | distinct values give distinct sale numbers |
| SalesNumber.FormatWidth | app/services/sales_number.py:11 | values below 1,000,000 give 8 characters; larger values give more, since six digits is a minimum |
| SalesNumber.FirstSaleNumber | app/services/sales_number.py:7-11 | a tenant without sales gets `V-000001` |
| SalesNumber.OtherTenantIgnored | app/services/sales_number.py:8 | another tenant's sale does not change the number |
| SalesNumber.NextValueIncreases | app/services/sales_number.py:8-10 | a new sale drawn from the global counter strictly raises the tenant's next value |
| SalesNumber.NumbersHaveGaps | app/services/sales_number.py:8-10 | with another tenant interleaved, a tenant's numbers skip values (V-000002, then V-000004) |
| Dashboard.Groups | app/routers/dashboard.py:85-94 | the subquery's groups are exactly the products with an in-scope movement, each listed once |
| Dashboard.ProductStockOfStore | app/routers/dashboard.py:85-96 | with a store filter, a product's group stock is exactly `get_stock` for that store |
| Dashboard.ProductStockAllStores | app/routers/dashboard.py:85-94 | without a store filter, a product's stock is the sum of its stock in each store of the tenant |
| Dashboard.ProductStockNoGroup | app/routers/dashboard.py:108-111 | a product without in-scope movements has stock 0 in the outer join |
| Dashboard.SumOfStocksAppend | app/routers/dashboard.py:101 | one more in-scope movement raises the group sum by its contribution when its product is grouped and otherwise leaves it unchanged |
| Dashboard.StockTotalIsScopeSum | app/routers/dashboard.py:98-102 | `stock_total_units`, the sum of the per-product stocks, equals the plain sum over every in-scope movement |
| Dashboard.StockTotalEmpty | app/routers/dashboard.py:101-102 | without in-scope movements the total is 0 |
| Dashboard.ProductsTotalIsActiveRows | app/routers/dashboard.py:74-79 | `products_total` is the number of product rows that are active and of the tenant |
| Dashboard.ProductsTotal | app/routers/dashboard.py:74-79 | counts at most the table's rows, and is 0 exactly when the tenant has no active product |
| Dashboard.LowStockCount | app/routers/dashboard.py:105-113 | the low-stock count never exceeds `products_total` |
| Dashboard.UnstockedCountsAsLow | app/routers/dashboard.py:108-111 | with a threshold ≥ 0, every active product without movements counts as low |
| Dashboard.LowStockCountIsLowRows | app/routers/dashboard.py:103-112 | the low-stock count is the number of product rows that are active, of the tenant, and whose in-scope stock (0 without movements) is at most the threshold |
| Dashboard.DashboardSummary | app/routers/dashboard.py:34-113 | error (422) exactly when a given threshold is outside 0..9999; otherwise the products total is `ProductsTotal`, the low count is `LowStockCount` at the given threshold or 5 and is ≤ the products total, and the units are the sum over the filtered tenant movements |
| Dashboard.DefaultThresholdIsFive | app/routers/dashboard.py:37 | an omitted threshold behaves as 5 and is accepted |
| Text.StripBlank | app/routers/tenants.py:24-26 | `not s.strip()` holds exactly for strings made only of whitespace |
| Text.StripIdempotent | app/routers/products.py:25 | stripping twice is stripping once |
| Text.StripPadding | app/routers/users.py:41 | `strip()` removes exactly the whitespace padding around a stripped string |
| Text.UpperProperties | app/routers/users.py:41 | upper-casing keeps the length, leaves no lower-case ASCII letter and is idempotent |
| Text.LowerProperties | app/routers/tenants.py:59 | lower-casing keeps the length, leaves no upper-case ASCII letter and is idempotent |
| Users.NormalizeIdempotent | app/routers/users.py:41 | a normalised role name normalises to itself |
| Users.NormalizeIgnoresPadding | app/routers/users.py:41 | a stripped name padded with any whitespace on either side is looked up under its upper-cased form, the same key as the unpadded name |
| Users.RoleByName | app/routers/users.py:16-22 | answers the tenant's role with exactly that name; otherwise 400 "Invalid role_name", and that holds exactly when no such role exists |
| Users.RoleByNameFinds | app/routers/users.py:16-22 | with role names unique per tenant, the lookup finds that role |
| Users.ValidateStore | app/routers/users.py:25-31 | the store is found exactly when it belongs to the tenant; otherwise 400 "Invalid store_id" |
| Users.CreateUser | app/routers/users.py:34-70 | the checks in order: unknown role (400); store-bound role without store (400); foreign store (400); e-mail already in the tenant (409). Success holds exactly when all pass, and then exactly one active user with the caller's tenant, the resolved role and the given store is appended. On error the users are unchanged |
| Users.UserIndex | app/routers/users.py:91-96 | finds the tenant's user with that id, and reports none exactly when there is none |
| Users.PatchIsPartial | app/routers/users.py:98-115 | a field left out keeps its value and a given field takes the new value; id, tenant and e-mail never change |
| Users.StoreBoundKeepsExistingStore | app/routers/users.py:106-108 | a user who already has a store may change to a store-bound role without giving one |
| Users.ApplyPatch | app/routers/users.py:98-115 | the field-by-field edit: unknown role (400), store-bound role with no store anywhere (400), foreign store (400). Success holds exactly when all steps pass and gives the patched row |
| Users.UpdateUser | app/routers/users.py:84-119 | 404 when the user is not the tenant's. Otherwise the patch's errors, and success exactly when its steps pass. Only that user changes, to the patched row; on error nothing changes |
| Tenants.CreateTenant | app/routers/tenants.py:18-36 | a blank stripped name gives 400 and an existing name gives 409. Success holds exactly when neither occurs, and then exactly one active tenant with the stripped name and the next id is added |
| Tenants.RolesStillReferTenants | app/routers/tenants.py:32-35 | adding a tenant keeps every role's tenant present |
| Tenants.NewTenantHasNoAdminRole | app/routers/tenants.py:50-56 | a tenant just created has no ADMIN role, so its administrator is refused until roles are seeded |
| Tenants.AdminEmailCheck | app/routers/tenants.py:59-62 | passes exactly when no user of any tenant has the e-mail; one holder gives 409, several give 500 |
| Tenants.SharedEmailFailsTheQuery | app/routers/tenants.py:60-62 | two tenants sharing an e-mail make the check fail with 500, not 409 |
| Tenants.CreateTenantAdmin | app/routers/tenants.py:38-78 | unknown tenant (404); no ADMIN role (400); an e-mail held anywhere (409 or 500). Success holds exactly when all pass, and then exactly one active user is appended with the tenant's ADMIN role, no store, the stripped name and the stripped lower-cased e-mail |
| Tenants.AdminEmailNormalized | app/routers/tenants.py:59 | the stored e-mail has no surrounding whitespace and no upper-case ASCII letter, and normalising it again changes nothing |
| Products.CreateProduct | app/routers/products.py:15-38 | 409 exactly when the tenant already has the stripped barcode, and then the table is unchanged. Otherwise one active product of the caller's tenant with the stripped barcode and the next id is appended |
| Products.StoredBarcodeIsStripped | app/routers/products.py:25 | a stored barcode is stripped, so the stripped lookup key finds it |
| Products.ListProducts | app/routers/products.py:47-53 | lists only the caller's tenant's products, and all of them |
| Products.ListProductsSound | app/routers/products.py:47 | every listed product is a row of the table |
| Products.ListProductsDescending | app/routers/products.py:53 | the list is ordered by id, strictly descending |
| Products.ListProductsMembership | app/routers/products.py:47-53 | a product is listed exactly when it is a row of the caller's tenant |
| Products.FindActive | app/routers/products.py:63-69 | finds a row of the table that is an active product of the tenant with the key; reports none only when there is none |
| Products.GetByBarcode | app/routers/products.py:57-74 | answers an active product of the caller's tenant with the stripped barcode; 404 "Product not found" exactly when there is none |
| Products.GetByBarcodeFinds | app/routers/products.py:63-69 | with barcodes unique per tenant, the lookup finds the row carrying the key when it is active, and 404 when it is not |
| Products.DeactivatedProductHidden | app/routers/products.py:63-69 | a deactivated product is 404 for `get_by_barcode` while stock by barcode still answers for it |
| Products.ProductIndex | app/routers/products.py:84-86 | finds the tenant's product with that id, and reports none exactly when there is none |
| Products.ProductPatchIsPartial | app/routers/products.py:91-102 | a field left out keeps its value; a given field takes the new value, with a new barcode stripped; id and tenant never change |
| Products.KeptBarcodeNeverConflicts | app/routers/products.py:104-108 | a patch that keeps the barcode cannot violate the barcode constraint |
| Products.UpdateProduct | app/routers/products.py:77-111 | 404 when the product is not in the tenant. Otherwise 409 exactly when another tenant product has the patched barcode, and then nothing changes. On success only that row changes, to the patched product; sales and their stored prices are untouched |

## Findings

| source | as written | input that shows it | evidently intended | confidence | as-written member | corrected member |
|---|---|---|---|---|---|---|
| app/routers/sales.py:36-41 | the 403 clause ends in `"ADMIN" not in ["ADMIN"]`, always false, so it never refuses | a VENDEDOR with home store 1 selling in store 2 of the tenant | the caller's role name in place of the literal: a non-administrator with a home store may sell only there, as the comment says | medium, not executed | Sales.WrittenClauseLetsSellerElsewhere | Sales.SellerElsewhereRefused |

## Left out

- JWT decoding, the bearer scheme and password hashing: the caller is a trusted input, the role guards are preconditions, and no password is modelled.
- The database engine, sessions, configuration, the health check and the application wiring: these are I/O. Each handler is one atomic step.
- The seed scripts, the stores router and the users list: these are one-off I/O or plain lookups with no rule the model does not already show.
- The dashboard's sales sums, top products and sales series: they depend on the clock, date formatting and float sums.
- Float money and `round(total, 2)`: money is integer cents, where the rounding changes nothing.
- The `ilike` search of `list_products`: only tenant scoping and ordering are modelled.
- Concurrency: the race between the stock check and the OUT insert, and the race on the tenant's maximum sale id. Each handler is atomic.
- `created_at` timestamps, database ids of movements and sale items, and cascade and RESTRICT behaviour.
- Text: Unicode case mapping beyond ASCII.
- Column bounds. These are: the length limits of names, e-mails and barcodes; `Integer` (32-bit) for movement and sale-item quantities, including a consolidated cart quantity; `Numeric(12, 2)` for price, unit price, subtotal and total; `String(255)` for a movement's note; `String(60)` for the YAPE operation number; `String(120)` for a category; and `String(500)` for an image URL. Past these bounds the database refuses the write: the handler answers 500 and nothing is stored. The model writes any value, in `Inventory.CreateMovement`, `Sales.CreateSale`, `Products.CreateProduct`, `Products.UpdateProduct`, `Users.CreateUser` and `Tenants.CreateTenantAdmin`, because the bounds are storage limits and no rule of the handlers checks them.
- E-mail syntax validation of the request bodies.
- The password field of the tenant-administrator request: `TenantAdminCreate` is not part of this model; its e-mail and full name are modelled.
- Database row order of queries without `ORDER BY` is modelled as table order, which is ascending id.
- Sales.CreateSale: refuses a non-administrator outside the home store with 403, where the code as written lets the sale through (see "## Findings").
- Dashboard.DashboardSummary: the text of the 422 validation error is not the framework's text.
- Products.CreateProduct: a rolled-back insert consumes no id here. In PostgreSQL the sequence value is spent, so later ids may have gaps.
- An id of 0 is treated as present. `stock_by_product`, `stock_by_barcode` and `create_sale` select only the id column (inventory.py, sales.py) and then test it for truth, so a store or product whose id is 0 would be refused with 400 there. `Inventory.StockByProduct`, `Inventory.StockByBarcode` and `Sales.SaleRejection` accept such a row. Product ids are positive under `Db.Valid`, but store ids carry no constraint. `create_movement` and `_validate_store` select whole rows, which are always truthy. Autoincrement ids start at 1, so no such row arises in practice.
- Tenants.CreateTenantAdmin: `if not admin_role_id` is modelled as "no ADMIN role, or its id is 0".
- Products.ListProductsDescending: the descending order relies on the table invariant that rows are stored in ascending id order.
