/** The shared relational store as the handlers see it through their
    session: one sequence per table and the autoincrement counters. Each
    handler runs as one unit of work: it either commits all its writes or,
    on an error, none of them. */
module Database {
  import opened Models

  class Db {
    var tenants: seq<Tenant>
    var roles: seq<Role>
    var stores: seq<Store>
    var users: seq<User>
    var products: seq<Product>
    var movements: seq<Movement>
    var sales: seq<Sale>

    var nextTenantId: nat
    var nextUserId: nat
    var nextProductId: nat
    // One counter for every tenant's sales (the `sales.id` sequence).
    var nextSaleId: nat

    /** The constraints of every table. */
    ghost predicate Valid()
      reads this
    {
      && TenantsOk(tenants, nextTenantId)
      && RolesOk(roles)
      && RolesReferTenants(roles, tenants)
      && UsersOk(users, nextUserId)
      && ProductsOk(products, nextProductId)
      && MovementsOk(movements)
      && SalesOk(sales, nextSaleId)
      && nextTenantId > 0 && nextUserId > 0 && nextProductId > 0 && nextSaleId > 0
    }

    /** An empty store; every sequence starts at 1. */
    constructor ()
      ensures Valid()
      ensures tenants == [] && roles == [] && stores == [] && users == []
      ensures products == [] && movements == [] && sales == []
      ensures nextTenantId == 1 && nextUserId == 1 && nextProductId == 1 && nextSaleId == 1
    {
      tenants, roles, stores, users := [], [], [], [];
      products, movements, sales := [], [], [];
      nextTenantId, nextUserId, nextProductId, nextSaleId := 1, 1, 1, 1;
    }
  }
}
