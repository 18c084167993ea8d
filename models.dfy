/** The rows of the relational store (the SQLAlchemy models) and the
    constraints the store enforces on each table. Ids are the tables'
    autoincrement keys; money is kept in integer cents. */
module Models {
  import opened Http

  datatype Tenant = Tenant(id: nat, name: string, isActive: bool)

  datatype Role = Role(id: nat, tenantId: nat, name: string)

  datatype Store = Store(id: nat, tenantId: nat, name: string, isActive: bool)

  datatype User = User(
    id: nat,
    tenantId: nat,
    roleId: nat,
    storeId: Option<nat>,
    fullName: string,
    email: string,
    isActive: bool)

  /** A catalogue entry; `price` is in cents (the column is Numeric(12, 2)). */
  datatype Product = Product(
    id: nat,
    tenantId: nat,
    name: string,
    category: Option<string>,
    barcode: string,
    price: int,
    imageUrl: Option<string>,
    isActive: bool)

  datatype MovementKind = IN | OUT | ADJ

  /** One entry of the append-only inventory ledger. */
  datatype Movement = Movement(
    tenantId: nat,
    storeId: nat,
    productId: nat,
    kind: MovementKind,
    quantity: int,
    direction: int,
    note: Option<string>,
    createdBy: nat)

  datatype PaymentMethod = CASH | YAPE

  /** A sale line; `unitPrice` and `subtotal` are in cents and are copies
      taken when the sale is written. */
  datatype SaleItem = SaleItem(productId: nat, quantity: int, unitPrice: int, subtotal: int)

  datatype Sale = Sale(
    id: nat,
    tenantId: nat,
    storeId: nat,
    userId: nat,
    number: string,
    paymentMethod: PaymentMethod,
    yapeOperationNumber: Option<string>,
    total: int,
    isVoided: bool,
    items: seq<SaleItem>)

  /** The authenticated user as the authentication layer hands it to a
      handler: its tenant, id, role (id and name) and home store. */
  datatype Caller = Caller(tenantId: nat, userId: nat, roleId: nat, roleName: string, storeId: Option<nat>)

  // ---------------------------------------------------------------------
  // Table constraints. Every table is kept in insertion order, which for
  // an autoincrement key is ascending id order.

  /** Tenant ids are positive, below the next id, ascending; names are unique. */
  predicate TenantsOk(ts: seq<Tenant>, nextId: nat) {
    && (forall i :: 0 <= i < |ts| ==> 0 < ts[i].id < nextId)
    && (forall i, j :: 0 <= i < j < |ts| ==> ts[i].id < ts[j].id)
    && (forall i, j :: 0 <= i < j < |ts| ==> ts[i].name != ts[j].name)
  }

  /** One role name per tenant. */
  predicate RolesOk(rs: seq<Role>) {
    forall i, j :: 0 <= i < j < |rs| && rs[i].tenantId == rs[j].tenantId ==> rs[i].name != rs[j].name
  }

  predicate TenantExists(ts: seq<Tenant>, tenantId: nat) {
    exists j :: 0 <= j < |ts| && ts[j].id == tenantId
  }

  /** Every role belongs to an existing tenant (the foreign key). */
  predicate RolesReferTenants(rs: seq<Role>, ts: seq<Tenant>) {
    forall i :: 0 <= i < |rs| ==> TenantExists(ts, rs[i].tenantId)
  }

  /** User ids ascending; one e-mail per tenant. */
  predicate UsersOk(us: seq<User>, nextId: nat) {
    && (forall i :: 0 <= i < |us| ==> 0 < us[i].id < nextId)
    && (forall i, j :: 0 <= i < j < |us| ==> us[i].id < us[j].id)
    && (forall i, j :: 0 <= i < j < |us| && us[i].tenantId == us[j].tenantId ==> us[i].email != us[j].email)
  }

  /** Product ids ascending; one barcode per tenant. */
  predicate ProductsOk(ps: seq<Product>, nextId: nat) {
    && (forall i :: 0 <= i < |ps| ==> 0 < ps[i].id < nextId)
    && ProductIdsAscending(ps)
    && BarcodesUnique(ps)
  }

  predicate ProductIdsAscending(ps: seq<Product>) {
    forall i, j :: 0 <= i < j < |ps| ==> ps[i].id < ps[j].id
  }

  predicate BarcodesUnique(ps: seq<Product>) {
    forall i, j :: 0 <= i < j < |ps| && ps[i].tenantId == ps[j].tenantId ==> ps[i].barcode != ps[j].barcode
  }

  /** A ledger entry as every writer produces it: a positive quantity and a
      direction of +1 or -1, fixed to +1 for IN and -1 for OUT. */
  predicate WellFormed(m: Movement) {
    && m.quantity > 0
    && (m.direction == 1 || m.direction == -1)
    && (m.kind == IN ==> m.direction == 1)
    && (m.kind == OUT ==> m.direction == -1)
  }

  predicate MovementsOk(ms: seq<Movement>) {
    forall i :: 0 <= i < |ms| ==> WellFormed(ms[i])
  }

  /** Sale ids are drawn from one counter shared by all tenants. */
  predicate SalesOk(ss: seq<Sale>, nextId: nat) {
    && (forall i :: 0 <= i < |ss| ==> 0 < ss[i].id < nextId)
    && (forall i, j :: 0 <= i < j < |ss| ==> ss[i].id < ss[j].id)
  }

  // ---------------------------------------------------------------------
  // Tenant-scoped existence queries shared by the handlers.

  predicate StoreInTenant(stores: seq<Store>, tenantId: nat, storeId: nat) {
    exists i :: 0 <= i < |stores| && stores[i].id == storeId && stores[i].tenantId == tenantId
  }

  predicate ProductInTenant(products: seq<Product>, tenantId: nat, productId: nat) {
    exists i :: 0 <= i < |products| && products[i].id == productId && products[i].tenantId == tenantId
  }
}
