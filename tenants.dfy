/** The tenants router, reserved to the platform's super administrator:
    creating a tenant and creating the first administrator of a tenant. */
module Tenants {
  import opened Http
  import opened Text
  import opened Models
  import opened Database
  import opened Users

  /** The request body of `POST /tenants/{id}/admins` (the password is
      not modelled). */
  datatype TenantAdminCreate = TenantAdminCreate(email: string, fullName: string)

  /** The answer of `create_tenant_admin`. */
  datatype AdminCreated = AdminCreated(id: nat, email: string, tenantId: nat, role: string)

  const AdminRoleName: string := "ADMIN"

  predicate TenantNameTaken(tenants: seq<Tenant>, name: string) {
    exists k :: 0 <= k < |tenants| && tenants[k].name == name
  }

  /** `create_tenant`. */
  method CreateTenant(db: Db, caller: Caller, name: string) returns (r: Result<Tenant>)
    requires db.Valid()
    requires caller.roleName == "SUPER_ADMIN"
    modifies db
    ensures db.Valid()
    ensures db.roles == old(db.roles) && db.stores == old(db.stores) && db.users == old(db.users)
    ensures db.products == old(db.products) && db.movements == old(db.movements) && db.sales == old(db.sales)
    ensures db.nextUserId == old(db.nextUserId) && db.nextProductId == old(db.nextProductId)
    ensures db.nextSaleId == old(db.nextSaleId)
    ensures r.Err? ==> db.tenants == old(db.tenants) && db.nextTenantId == old(db.nextTenantId)
    ensures Strip(name) == [] ==> r == Err(BadRequest("name is required"))
    ensures Strip(name) != [] && TenantNameTaken(old(db.tenants), Strip(name))
            ==> r == Err(Conflict("Tenant already exists"))
    ensures r.Ok? <==> Strip(name) != [] && !TenantNameTaken(old(db.tenants), Strip(name))
    ensures r.Ok? ==> r.value == Tenant(old(db.nextTenantId), Strip(name), true)
                      && db.tenants == old(db.tenants) + [r.value]
                      && db.nextTenantId == old(db.nextTenantId) + 1
  {
    var stripped := Strip(name);
    if stripped == [] {
      return Err(BadRequest("name is required"));
    }
    if TenantNameTaken(db.tenants, stripped) {
      return Err(Conflict("Tenant already exists"));
    }
    var tenant := Tenant(db.nextTenantId, stripped, true);
    InsertTenant(db, tenant);
    r := Ok(tenant);
  }

  /** The insert and commit of a new tenant row under the next id. */
  method InsertTenant(db: Db, tenant: Tenant)
    requires db.Valid()
    requires tenant.id == db.nextTenantId
    requires !TenantNameTaken(db.tenants, tenant.name)
    modifies db
    ensures db.Valid()
    ensures db.tenants == old(db.tenants) + [tenant] && db.nextTenantId == old(db.nextTenantId) + 1
    ensures db.roles == old(db.roles) && db.stores == old(db.stores) && db.users == old(db.users)
    ensures db.products == old(db.products) && db.movements == old(db.movements) && db.sales == old(db.sales)
    ensures db.nextUserId == old(db.nextUserId) && db.nextProductId == old(db.nextProductId)
    ensures db.nextSaleId == old(db.nextSaleId)
  {
    RolesStillReferTenants(db.roles, db.tenants, tenant);
    db.tenants := db.tenants + [tenant];
    db.nextTenantId := db.nextTenantId + 1;
  }

  /** Adding a tenant keeps every role's tenant in the table. */
  lemma RolesStillReferTenants(roles: seq<Role>, tenants: seq<Tenant>, t: Tenant)
    requires RolesReferTenants(roles, tenants)
    ensures RolesReferTenants(roles, tenants + [t])
  {
    forall i | 0 <= i < |roles|
      ensures TenantExists(tenants + [t], roles[i].tenantId)
    {
      var j :| 0 <= j < |tenants| && tenants[j].id == roles[i].tenantId;
      assert (tenants + [t])[j] == tenants[j];
    }
  }

  /** A tenant that has just been created has no roles, so no ADMIN role:
      creating its administrator is refused until its roles are seeded. */
  lemma NewTenantHasNoAdminRole(tenants: seq<Tenant>, roles: seq<Role>, nextTenantId: nat)
    requires TenantsOk(tenants, nextTenantId)
    requires RolesReferTenants(roles, tenants)
    ensures RoleByName(roles, nextTenantId, AdminRoleName).Err?
  {
    forall k | 0 <= k < |roles| ensures roles[k].tenantId != nextTenantId {
      var j :| 0 <= j < |tenants| && tenants[j].id == roles[k].tenantId;
    }
  }

  /** The number of users, of any tenant, with this e-mail. */
  function EmailCount(users: seq<User>, email: string): (n: nat)
    ensures n <= |users|
    ensures n == 0 <==> forall k :: 0 <= k < |users| ==> users[k].email != email
  {
    if users == [] then 0
    else
      var init := users[..|users| - 1];
      var n := EmailCount(init, email);
      assert forall k :: 0 <= k < |init| ==> init[k] == users[k];
      n + (if users[|users| - 1].email == email then 1 else 0)
  }

  /** The global e-mail check, `scalar_one_or_none` over every tenant's
      users: one holder is a conflict; two holders (possible, since e-mails
      are unique only per tenant) make the query itself fail. */
  function AdminEmailCheck(users: seq<User>, email: string): (r: Option<Error>)
    ensures r.None? <==> forall k :: 0 <= k < |users| ==> users[k].email != email
    ensures r.Some? ==> r.value.Status() == 409 || r.value.Status() == 500
  {
    var n := EmailCount(users, email);
    if n == 0 then None
    else if n == 1 then Some(Conflict("Email already exists"))
    else Some(Internal("MultipleResultsFound"))
  }

  /** Two tenants whose users share an e-mail: creating an administrator
      with that e-mail for a third tenant fails with 500, not 409. */
  lemma SharedEmailFailsTheQuery()
    ensures AdminEmailCheck([User(1, 1, 1, None, "A", "a@x.pe", true),
                             User(2, 2, 3, None, "B", "a@x.pe", true)], "a@x.pe")
         == Some(Internal("MultipleResultsFound"))
  {
    var u1 := User(1, 1, 1, None, "A", "a@x.pe", true);
    var u2 := User(2, 2, 3, None, "B", "a@x.pe", true);
    assert [u1, u2][..1] == [u1];
  }

  /** `payload.email.strip().lower()`. */
  function NormalizeEmail(email: string): string {
    Lower(Strip(email))
  }

  /** `create_tenant_admin`. */
  method CreateTenantAdmin(db: Db, caller: Caller, tenantId: nat, payload: TenantAdminCreate)
    returns (r: Result<AdminCreated>)
    requires db.Valid()
    requires caller.roleName == "SUPER_ADMIN"
    modifies db
    ensures db.Valid()
    ensures db.tenants == old(db.tenants) && db.roles == old(db.roles) && db.stores == old(db.stores)
    ensures db.products == old(db.products) && db.movements == old(db.movements) && db.sales == old(db.sales)
    ensures db.nextTenantId == old(db.nextTenantId) && db.nextProductId == old(db.nextProductId)
    ensures db.nextSaleId == old(db.nextSaleId)
    ensures r.Err? ==> db.users == old(db.users) && db.nextUserId == old(db.nextUserId)
    ensures !TenantExists(db.tenants, tenantId) ==> r == Err(NotFound("Tenant not found"))
    ensures TenantExists(db.tenants, tenantId) && RoleByName(db.roles, tenantId, AdminRoleName).Err?
            ==> r == Err(BadRequest("ADMIN role not found for this tenant"))
    ensures TenantExists(db.tenants, tenantId) && RoleByName(db.roles, tenantId, AdminRoleName).Ok?
            && RoleByName(db.roles, tenantId, AdminRoleName).value.id != 0
            && AdminEmailCheck(old(db.users), NormalizeEmail(payload.email)).Some?
            ==> r == Err(AdminEmailCheck(old(db.users), NormalizeEmail(payload.email)).value)
    ensures r.Ok? <==>
              && TenantExists(db.tenants, tenantId)
              && RoleByName(db.roles, tenantId, AdminRoleName).Ok?
              && RoleByName(db.roles, tenantId, AdminRoleName).value.id != 0
              && AdminEmailCheck(old(db.users), NormalizeEmail(payload.email)).None?
    // The new administrator: the tenant's ADMIN role, no store, active.
    ensures r.Ok? ==>
              && db.users == old(db.users) + [User(old(db.nextUserId), tenantId,
                                                   RoleByName(db.roles, tenantId, AdminRoleName).value.id,
                                                   None, Strip(payload.fullName), NormalizeEmail(payload.email), true)]
              && db.nextUserId == old(db.nextUserId) + 1
              && r.value == AdminCreated(old(db.nextUserId), NormalizeEmail(payload.email), tenantId, AdminRoleName)
  {
    if !TenantExists(db.tenants, tenantId) {
      return Err(NotFound("Tenant not found"));
    }
    var role := RoleByName(db.roles, tenantId, AdminRoleName);
    if role.Err? || role.value.id == 0 {
      return Err(BadRequest("ADMIN role not found for this tenant"));
    }
    var email := NormalizeEmail(payload.email);
    var clash := AdminEmailCheck(db.users, email);
    if clash.Some? {
      return Err(clash.value);
    }
    var user := User(db.nextUserId, tenantId, role.value.id, None, Strip(payload.fullName), email, true);
    assert !EmailTaken(db.users, tenantId, email);
    InsertUser(db, user);
    r := Ok(AdminCreated(user.id, user.email, user.tenantId, AdminRoleName));
  }

  /** Lower-casing keeps a stripped string stripped. */
  lemma LowerKeepsStripped(s: string)
    requires IsStripped(s)
    ensures IsStripped(Lower(s))
  {
  }

  /** The stored e-mail is normalised: no surrounding whitespace and no
      upper-case ASCII letter, so the same address typed differently is
      the same key. */
  lemma AdminEmailNormalized(email: string)
    ensures IsStripped(NormalizeEmail(email))
    ensures forall k :: 0 <= k < |NormalizeEmail(email)| ==> !('A' <= NormalizeEmail(email)[k] <= 'Z')
    ensures NormalizeEmail(NormalizeEmail(email)) == NormalizeEmail(email)
  {
    var s := Strip(email);
    StripShape(email);
    LowerKeepsStripped(s);
    LowerProperties(s);
    StripOfStripped(Lower(s));
    assert NormalizeEmail(NormalizeEmail(email)) == Lower(Lower(s));
  }
}
