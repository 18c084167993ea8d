/** The users router: creating a user of the caller's tenant and patching
    one, with the role resolved by name and a home store required for the
    store-bound roles. */
module Users {
  import opened Http
  import opened Text
  import opened Models
  import opened Database

  /** The request body of `POST /users` (the password is not modelled). */
  datatype UserCreate = UserCreate(fullName: string, email: string, roleName: string, storeId: Option<nat>)

  /** The request body of `PATCH /users/{id}`: `None` leaves a field alone. */
  datatype UserUpdate = UserUpdate(
    fullName: Option<string>,
    roleName: Option<string>,
    storeId: Option<nat>,
    isActive: Option<bool>)

  /** `payload.role_name.strip().upper()`. */
  function NormalizeRoleName(name: string): string {
    Upper(Strip(name))
  }

  /** The roles that must have a home store. */
  predicate StoreBound(roleName: string) {
    roleName in ["VENDEDOR", "ALMACEN"]
  }

  /** Upper-casing keeps a stripped string stripped: only ASCII letters
      change, and none of them is whitespace. */
  lemma UpperKeepsStripped(s: string)
    requires IsStripped(s)
    ensures IsStripped(Upper(s))
  {
  }

  /** Normalising twice is normalising once: a normalised name is its own
      lookup key. */
  lemma NormalizeIdempotent(name: string)
    ensures NormalizeRoleName(NormalizeRoleName(name)) == NormalizeRoleName(name)
  {
    var s := Strip(name);
    StripShape(name);
    UpperKeepsStripped(s);
    StripOfStripped(Upper(s));
    UpperProperties(s);
  }

  /** Padding and letter case of a role name do not matter: a padded name
      is looked up under the upper-cased name. */
  lemma NormalizeIgnoresPadding(pre: string, name: string, post: string)
    requires forall k :: 0 <= k < |pre| ==> IsSpace(pre[k])
    requires forall k :: 0 <= k < |post| ==> IsSpace(post[k])
    requires IsStripped(name)
    ensures NormalizeRoleName(pre + name + post) == Upper(name)
    ensures NormalizeRoleName(pre + name + post) == NormalizeRoleName(name)
  {
    StripPadding(pre, name, post);
    StripOfStripped(name);
  }

  /** `_get_role_by_name`: the tenant's role with exactly this name. */
  function RoleByName(roles: seq<Role>, tenantId: nat, name: string): (r: Result<Role>)
    ensures r.Ok? ==> exists k :: 0 <= k < |roles| && roles[k] == r.value
    ensures r.Ok? ==> r.value.tenantId == tenantId && r.value.name == name
    ensures r.Err? <==> forall k :: 0 <= k < |roles| ==> !(roles[k].tenantId == tenantId && roles[k].name == name)
    ensures r.Err? ==> r.error == BadRequest("Invalid role_name")
  {
    if roles == [] then Err(BadRequest("Invalid role_name"))
    else if roles[0].tenantId == tenantId && roles[0].name == name then Ok(roles[0])
    else
      var r := RoleByName(roles[1..], tenantId, name);
      assert forall k :: 1 <= k < |roles| ==> roles[k] == roles[1..][k - 1];
      r
  }

  /** One role per (tenant, name): the lookup finds that role. */
  lemma RoleByNameFinds(roles: seq<Role>, tenantId: nat, k: nat)
    requires RolesOk(roles)
    requires k < |roles| && roles[k].tenantId == tenantId
    ensures RoleByName(roles, tenantId, roles[k].name) == Ok(roles[k])
  {
    var r := RoleByName(roles, tenantId, roles[k].name);
    var j :| 0 <= j < |roles| && roles[j] == r.value;
    assert j == k;
  }

  /** `_validate_store`: the store with this id, if it is the tenant's. */
  function ValidateStore(stores: seq<Store>, tenantId: nat, storeId: nat): (r: Result<Store>)
    ensures r.Ok? <==> StoreInTenant(stores, tenantId, storeId)
    ensures r.Ok? ==> r.value.id == storeId && r.value.tenantId == tenantId
                      && exists k :: 0 <= k < |stores| && stores[k] == r.value
    ensures r.Err? ==> r.error == BadRequest("Invalid store_id")
  {
    if stores == [] then Err(BadRequest("Invalid store_id"))
    else if stores[0].id == storeId && stores[0].tenantId == tenantId then Ok(stores[0])
    else
      var r := ValidateStore(stores[1..], tenantId, storeId);
      assert forall k :: 1 <= k < |stores| ==> stores[k] == stores[1..][k - 1];
      r
  }

  /** Some user of the tenant already has this e-mail. */
  predicate EmailTaken(users: seq<User>, tenantId: nat, email: string) {
    exists k :: 0 <= k < |users| && users[k].tenantId == tenantId && users[k].email == email
  }

  /** The commit of a new user row: it takes the next id, and its e-mail
      is new in its tenant. */
  method InsertUser(db: Db, user: User)
    requires db.Valid()
    requires user.id == db.nextUserId
    requires !EmailTaken(db.users, user.tenantId, user.email)
    modifies db
    ensures db.Valid()
    ensures db.users == old(db.users) + [user] && db.nextUserId == old(db.nextUserId) + 1
    ensures db.tenants == old(db.tenants) && db.roles == old(db.roles) && db.stores == old(db.stores)
    ensures db.products == old(db.products) && db.movements == old(db.movements) && db.sales == old(db.sales)
    ensures db.nextTenantId == old(db.nextTenantId) && db.nextProductId == old(db.nextProductId)
    ensures db.nextSaleId == old(db.nextSaleId)
  {
    db.users := db.users + [user];
    db.nextUserId := db.nextUserId + 1;
  }

  /** `create_user`. */
  method CreateUser(db: Db, caller: Caller, payload: UserCreate) returns (r: Result<User>)
    requires db.Valid()
    requires caller.roleName == "ADMIN"
    modifies db
    ensures db.Valid()
    ensures db.tenants == old(db.tenants) && db.roles == old(db.roles) && db.stores == old(db.stores)
    ensures db.products == old(db.products) && db.movements == old(db.movements) && db.sales == old(db.sales)
    ensures db.nextTenantId == old(db.nextTenantId) && db.nextProductId == old(db.nextProductId)
    ensures db.nextSaleId == old(db.nextSaleId)
    ensures r.Err? ==> db.users == old(db.users) && db.nextUserId == old(db.nextUserId)
    // The checks, in the handler's order.
    ensures RoleByName(db.roles, caller.tenantId, NormalizeRoleName(payload.roleName)).Err?
            ==> r == Err(BadRequest("Invalid role_name"))
    ensures RoleByName(db.roles, caller.tenantId, NormalizeRoleName(payload.roleName)).Ok?
            && StoreBound(NormalizeRoleName(payload.roleName)) && payload.storeId.None?
            ==> r == Err(BadRequest("store_id is required for this role"))
    ensures RoleByName(db.roles, caller.tenantId, NormalizeRoleName(payload.roleName)).Ok?
            && payload.storeId.Some? && !StoreInTenant(db.stores, caller.tenantId, payload.storeId.value)
            ==> r == Err(BadRequest("Invalid store_id"))
    ensures RoleByName(db.roles, caller.tenantId, NormalizeRoleName(payload.roleName)).Ok?
            && !(StoreBound(NormalizeRoleName(payload.roleName)) && payload.storeId.None?)
            && (payload.storeId.Some? ==> StoreInTenant(db.stores, caller.tenantId, payload.storeId.value))
            && EmailTaken(old(db.users), caller.tenantId, payload.email)
            ==> r == Err(Conflict("Email already exists in this tenant"))
    ensures r.Ok? <==>
              && RoleByName(db.roles, caller.tenantId, NormalizeRoleName(payload.roleName)).Ok?
              && !(StoreBound(NormalizeRoleName(payload.roleName)) && payload.storeId.None?)
              && (payload.storeId.Some? ==> StoreInTenant(db.stores, caller.tenantId, payload.storeId.value))
              && !EmailTaken(old(db.users), caller.tenantId, payload.email)
    // The new user: the caller's tenant, the resolved role, the given store, active.
    ensures r.Ok? ==>
              && db.users == old(db.users) + [r.value]
              && db.nextUserId == old(db.nextUserId) + 1
              && r.value == User(old(db.nextUserId), caller.tenantId,
                                 RoleByName(db.roles, caller.tenantId, NormalizeRoleName(payload.roleName)).value.id,
                                 payload.storeId, payload.fullName, payload.email, true)
  {
    var roleName := NormalizeRoleName(payload.roleName);
    var role := RoleByName(db.roles, caller.tenantId, roleName);
    if role.Err? {
      return Err(role.error);
    }
    if StoreBound(roleName) && payload.storeId.None? {
      return Err(BadRequest("store_id is required for this role"));
    }
    if payload.storeId.Some? {
      var store := ValidateStore(db.stores, caller.tenantId, payload.storeId.value);
      if store.Err? {
        return Err(store.error);
      }
    }
    if EmailTaken(db.users, caller.tenantId, payload.email) {
      return Err(Conflict("Email already exists in this tenant"));
    }
    var user := User(db.nextUserId, caller.tenantId, role.value.id, payload.storeId,
                     payload.fullName, payload.email, true);
    InsertUser(db, user);
    r := Ok(user);
  }

  /** The position of the tenant's user with this id. */
  function UserIndex(users: seq<User>, tenantId: nat, userId: nat): (r: Option<nat>)
    ensures r.Some? ==> r.value < |users| && users[r.value].id == userId && users[r.value].tenantId == tenantId
    ensures r.None? <==> forall k :: 0 <= k < |users| ==> !(users[k].id == userId && users[k].tenantId == tenantId)
  {
    if users == [] then None
    else
      var init := users[..|users| - 1];
      var r := UserIndex(init, tenantId, userId);
      assert forall k :: 0 <= k < |init| ==> init[k] == users[k];
      if r.Some? then r
      else if users[|users| - 1].id == userId && users[|users| - 1].tenantId == tenantId then Some(|users| - 1)
      else None
  }

  /** The role part of a patch passes: no role given, or a role of the
      tenant that, when store-bound, finds a store in the payload or on
      the user as it is now. */
  predicate RoleStepOk(roles: seq<Role>, tenantId: nat, payload: UserUpdate, current: User) {
    payload.roleName.None? ||
    (RoleByName(roles, tenantId, NormalizeRoleName(payload.roleName.value)).Ok?
     && !(StoreBound(NormalizeRoleName(payload.roleName.value)) && payload.storeId.None? && current.storeId.None?))
  }

  predicate StoreStepOk(stores: seq<Store>, tenantId: nat, payload: UserUpdate) {
    payload.storeId.Some? ==> StoreInTenant(stores, tenantId, payload.storeId.value)
  }

  /** The user after a successful patch: each given field replaced, every
      other field kept. */
  function Patched(current: User, payload: UserUpdate, roles: seq<Role>, tenantId: nat): User
    requires payload.roleName.Some? ==> RoleByName(roles, tenantId, NormalizeRoleName(payload.roleName.value)).Ok?
  {
    current.(
      fullName := payload.fullName.GetOr(current.fullName),
      roleId := if payload.roleName.Some?
                then RoleByName(roles, tenantId, NormalizeRoleName(payload.roleName.value)).value.id
                else current.roleId,
      storeId := if payload.storeId.Some? then payload.storeId else current.storeId,
      isActive := payload.isActive.GetOr(current.isActive))
  }

  /** A patch is partial: a field left out keeps its value, and the id,
      tenant and e-mail never change. */
  lemma PatchIsPartial(current: User, payload: UserUpdate, roles: seq<Role>, tenantId: nat)
    requires payload.roleName.Some? ==> RoleByName(roles, tenantId, NormalizeRoleName(payload.roleName.value)).Ok?
    ensures Patched(current, payload, roles, tenantId).id == current.id
    ensures Patched(current, payload, roles, tenantId).tenantId == current.tenantId
    ensures Patched(current, payload, roles, tenantId).email == current.email
    ensures payload.fullName.None? ==> Patched(current, payload, roles, tenantId).fullName == current.fullName
    ensures payload.fullName.Some? ==> Patched(current, payload, roles, tenantId).fullName == payload.fullName.value
    ensures payload.roleName.None? ==> Patched(current, payload, roles, tenantId).roleId == current.roleId
    ensures payload.storeId.None? ==> Patched(current, payload, roles, tenantId).storeId == current.storeId
    ensures payload.storeId.Some? ==> Patched(current, payload, roles, tenantId).storeId == payload.storeId
    ensures payload.isActive.None? ==> Patched(current, payload, roles, tenantId).isActive == current.isActive
    ensures payload.isActive.Some? ==> Patched(current, payload, roles, tenantId).isActive == payload.isActive.value
    ensures payload == UserUpdate(None, None, None, None) ==> Patched(current, payload, roles, tenantId) == current
  {
  }

  /** A store-bound role is refused only when neither the payload nor the
      user has a store: a user who keeps a store may change to such a role
      without naming it again. */
  lemma StoreBoundKeepsExistingStore(roles: seq<Role>, tenantId: nat, payload: UserUpdate, current: User)
    requires payload.roleName.Some?
    requires RoleByName(roles, tenantId, NormalizeRoleName(payload.roleName.value)).Ok?
    requires current.storeId.Some?
    ensures RoleStepOk(roles, tenantId, payload, current)
  {
  }

  /** The field-by-field edit of `update_user` on the loaded row; a failing
      check abandons the edit. */
  method ApplyPatch(roles: seq<Role>, stores: seq<Store>, tenantId: nat, current: User, payload: UserUpdate)
    returns (r: Result<User>)
    ensures payload.roleName.Some? && RoleByName(roles, tenantId, NormalizeRoleName(payload.roleName.value)).Err?
            ==> r == Err(BadRequest("Invalid role_name"))
    ensures payload.roleName.Some? && RoleByName(roles, tenantId, NormalizeRoleName(payload.roleName.value)).Ok?
            && StoreBound(NormalizeRoleName(payload.roleName.value)) && payload.storeId.None? && current.storeId.None?
            ==> r == Err(BadRequest("store_id is required for this role"))
    ensures RoleStepOk(roles, tenantId, payload, current) && !StoreStepOk(stores, tenantId, payload)
            ==> r == Err(BadRequest("Invalid store_id"))
    ensures r.Ok? <==> RoleStepOk(roles, tenantId, payload, current) && StoreStepOk(stores, tenantId, payload)
    ensures r.Ok? ==> r.value == Patched(current, payload, roles, tenantId)
  {
    var user := current;
    if payload.fullName.Some? {
      user := user.(fullName := payload.fullName.value);
    }
    if payload.roleName.Some? {
      var roleName := NormalizeRoleName(payload.roleName.value);
      var role := RoleByName(roles, tenantId, roleName);
      if role.Err? {
        return Err(role.error);
      }
      user := user.(roleId := role.value.id);
      if StoreBound(roleName) && payload.storeId.None? && user.storeId.None? {
        return Err(BadRequest("store_id is required for this role"));
      }
    }
    if payload.storeId.Some? {
      var store := ValidateStore(stores, tenantId, payload.storeId.value);
      if store.Err? {
        return Err(store.error);
      }
      user := user.(storeId := payload.storeId);
    }
    if payload.isActive.Some? {
      user := user.(isActive := payload.isActive.value);
    }
    r := Ok(user);
  }

  /** The commit of an edited user row: only that row changes. */
  method CommitUser(db: Db, idx: nat, user: User)
    requires db.Valid()
    requires idx < |db.users|
    requires user.id == db.users[idx].id && user.tenantId == db.users[idx].tenantId
    requires user.email == db.users[idx].email
    modifies db
    ensures db.Valid()
    ensures db.users == old(db.users)[idx := user]
    ensures db.tenants == old(db.tenants) && db.roles == old(db.roles) && db.stores == old(db.stores)
    ensures db.products == old(db.products) && db.movements == old(db.movements) && db.sales == old(db.sales)
    ensures db.nextTenantId == old(db.nextTenantId) && db.nextUserId == old(db.nextUserId)
    ensures db.nextProductId == old(db.nextProductId) && db.nextSaleId == old(db.nextSaleId)
  {
    db.users := db.users[idx := user];
  }

  /** `update_user`: edits the tenant's user field by field and commits the
      whole edit, or nothing when a check fails. */
  method UpdateUser(db: Db, caller: Caller, userId: nat, payload: UserUpdate) returns (r: Result<User>)
    requires db.Valid()
    requires caller.roleName == "ADMIN"
    modifies db
    ensures db.Valid()
    ensures db.tenants == old(db.tenants) && db.roles == old(db.roles) && db.stores == old(db.stores)
    ensures db.products == old(db.products) && db.movements == old(db.movements) && db.sales == old(db.sales)
    ensures db.nextTenantId == old(db.nextTenantId) && db.nextUserId == old(db.nextUserId)
    ensures db.nextProductId == old(db.nextProductId) && db.nextSaleId == old(db.nextSaleId)
    ensures r.Err? ==> db.users == old(db.users)
    ensures UserIndex(old(db.users), caller.tenantId, userId).None? ==> r == Err(NotFound("User not found"))
    ensures UserIndex(old(db.users), caller.tenantId, userId).Some? ==>
              var current := old(db.users)[UserIndex(old(db.users), caller.tenantId, userId).value];
              && (r.Ok? <==> RoleStepOk(db.roles, caller.tenantId, payload, current)
                             && StoreStepOk(db.stores, caller.tenantId, payload))
              && (payload.roleName.Some?
                  && RoleByName(db.roles, caller.tenantId, NormalizeRoleName(payload.roleName.value)).Err?
                  ==> r == Err(BadRequest("Invalid role_name")))
              && (payload.roleName.Some?
                  && RoleByName(db.roles, caller.tenantId, NormalizeRoleName(payload.roleName.value)).Ok?
                  && StoreBound(NormalizeRoleName(payload.roleName.value))
                  && payload.storeId.None? && current.storeId.None?
                  ==> r == Err(BadRequest("store_id is required for this role")))
              && (RoleStepOk(db.roles, caller.tenantId, payload, current)
                  && !StoreStepOk(db.stores, caller.tenantId, payload)
                  ==> r == Err(BadRequest("Invalid store_id")))
    // On success only that user changes, to the patched row.
    ensures r.Ok? ==>
              var idx := UserIndex(old(db.users), caller.tenantId, userId).value;
              && r.value == Patched(old(db.users)[idx], payload, db.roles, caller.tenantId)
              && db.users == old(db.users)[idx := r.value]
  {
    var found := UserIndex(db.users, caller.tenantId, userId);
    if found.None? {
      return Err(NotFound("User not found"));
    }
    var idx := found.value;
    r := ApplyPatch(db.roles, db.stores, caller.tenantId, db.users[idx], payload);
    if r.Ok? {
      CommitUser(db, idx, r.value);
    }
  }
}
