/** Who may touch the API keys, and what comes of it, in the words of the role names, flags
    and tenants themselves. */
module KeyAuthority {
  import opened Options
  import opened ApiKeys

  // ---------- whose key it is ----------

  /** Through any chain of keys minting keys, every key goes back to a person who asked for
      one and whose roles name them owner. */
  lemma RootIsOwner(rs: seq<Request>, enforce: bool, id: string)
    requires IsRun(rs, enforce) && id in After(rs, enforce)
    ensures id in Roots(rs, enforce) && IsOwner(Roots(rs, enforce)[id].roles)
    ensures exists i | 0 <= i < |rs| :: rs[i].caller == Person(Roots(rs, enforce)[id])
  {
    RunInv(rs, enforce);
    assert KeyOk(After(rs, enforce)[id], Roots(rs, enforce)[id]);
    OwnerFloor(Roots(rs, enforce)[id]);
    RootsArePeople(rs, enforce, id);
  }

  // ---------- who asks, and for which tenant ----------

  /** The roles a caller comes with: a person's own, or the one written on a key that is
      stored and has not expired. */
  predicate Comes(keys: Keys, c: Caller, at: int, roles: seq<string>, tenant: string, admin: bool) {
    match c
    case Person(u) => roles == u.roles && tenant == u.tenant && admin == u.platformAdmin
    case Bearer(id) =>
      && id in keys && (keys[id].expires.None? || at <= keys[id].expires.value)
      && roles == [keys[id].role] && tenant == keys[id].tenant && admin == keys[id].platformAdmin
  }

  /** A signed-in platform administrator who names a tenant neither theirs nor the default
      one needs its owner's grant; a key never does. */
  predicate MayEnter(c: Caller, tenant: string, header: string, granted: bool) {
    c.Bearer? || !c.user.session || header == "default" || header == tenant || granted
  }

  /** The tenant a request acts on. */
  predicate ActsOn(c: Caller, own: string, admin: bool, header: string, granted: bool, enforce: bool, tenant: string) {
    if admin && header != "" then tenant == header && MayEnter(c, own, header, granted)
    else if own != "" then tenant == own
    else !enforce && tenant == "default"
  }

  /** A caller gets as far as a key route's handler, for a tenant. */
  ghost predicate Admitted(keys: Keys, r: Request, enforce: bool, admin: bool, tenant: string) {
    exists roles, own :: Comes(keys, r.caller, r.at, roles, own, admin) && IsOwner(roles)
      && ActsOn(r.caller, own, admin, r.header, r.granted, enforce, tenant)
  }

  /** A signed-in platform administrator acts on a tenant that is neither their own nor the
      default one exactly with its owner's grant; a platform key or the break-glass token needs
      none, and without the platform axis nobody acts on a tenant they name. */
  lemma ForeignTenant(u: User, header: string, granted: bool, enforce: bool)
    requires header !in {"", "default", u.tenant}
    ensures Tenant(u, header, granted, enforce) == Some(header) <==> u.platformAdmin && (granted || !u.session)
    ensures u.platformAdmin && u.session && !granted ==> Tenant(u, header, granted, enforce) == None
  {
  }

  /** The key routes see exactly the callers admitted. */
  lemma AdmittedIff(keys: Keys, r: Request, enforce: bool, admin: bool, tenant: string)
    ensures Admitted(keys, r, enforce, admin, tenant) <==>
      && Principal(keys, r.caller, r.at).Some?
      && var u := Principal(keys, r.caller, r.at).value;
      && u.platformAdmin == admin && RoleAtLeast(u, "owner") && Tenant(u, r.header, r.granted, enforce) == Some(tenant)
  {
    var p := Principal(keys, r.caller, r.at);
    if p.Some? {
      OwnerFloor(p.value);
      assert Comes(keys, r.caller, r.at, p.value.roles, p.value.tenant, p.value.platformAdmin);
    }
  }

  /** Nobody else gets anything: a caller none of whose roles is "owner" or "admin", person or
      key, is refused and changes nothing. */
  lemma OthersChangeNothing(keys: Keys, r: Request, enforce: bool)
    requires match r.caller case Person(u) => !IsOwner(u.roles) case Bearer(id) => id in keys ==> !IsOwner([keys[id].role])
    ensures Handle(keys, r, enforce).0.Some? && Handle(keys, r, enforce).1 == keys
  {
    if Principal(keys, r.caller, r.at).Some? {
      OwnerFloor(Principal(keys, r.caller, r.at).value);
    }
  }

  /** So over every run: a person with no role but "viewer" and "operator", and a key of
      either role. */
  lemma LowRolesChangeNothing(rs: seq<Request>, enforce: bool, r: Request)
    requires IsRun(rs, enforce)
    requires match r.caller
      case Person(u) => forall i | 0 <= i < |u.roles| :: u.roles[i] == "viewer" || u.roles[i] == "operator"
      case Bearer(id) => id in After(rs, enforce) ==> After(rs, enforce)[id].role in {"viewer", "operator"}
    ensures Handle(After(rs, enforce), r, enforce).0.Some? && Handle(After(rs, enforce), r, enforce).1 == After(rs, enforce)
  {
    NamesDiffer();
    OthersChangeNothing(After(rs, enforce), r, enforce);
  }

  // ---------- what is created and what goes ----------

  /** A key is created exactly for an admitted caller who may ask for it, it is the key asked
      for in the tenant acted on, and no other key changes. */
  lemma CreatedExactly(keys: Keys, r: Request, enforce: bool)
    requires r.ask.Create?
    ensures var h := Handle(keys, r, enforce);
      && (h.0.None? <==> exists admin, tenant :: Admitted(keys, r, enforce, admin, tenant) && MayAsk(r.ask, admin))
      && (h.0.Some? ==> h.1 == keys)
      && (forall admin, tenant | Admitted(keys, r, enforce, admin, tenant) && h.0.None? ::
            MayAsk(r.ask, admin) && r.ask.id in h.1 && IsKeyFor(h.1[r.ask.id], r.ask, tenant, r.at))
      && (forall id | id != r.ask.id :: (id in h.1 <==> id in keys) && (id in keys ==> h.1[id] == keys[id]))
  {
    NamesDiffer();
    forall admin, tenant {
      AdmittedIff(keys, r, enforce, admin, tenant);
    }
    var p := Principal(keys, r.caller, r.at);
    if p.Some? && Tenant(p.value, r.header, r.granted, enforce).Some? {
      var tenant := Tenant(p.value, r.header, r.granted, enforce).value;
      AdmittedCreate(keys, r, enforce, p.value.platformAdmin, tenant);
      assert RoleAtLeast(p.value, "owner") ==> Admitted(keys, r, enforce, p.value.platformAdmin, tenant);
    }
  }

  lemma AdmittedCreate(keys: Keys, r: Request, enforce: bool, admin: bool, tenant: string)
    requires r.ask.Create?
    requires Principal(keys, r.caller, r.at).Some? && Principal(keys, r.caller, r.at).value.platformAdmin == admin
    requires Tenant(Principal(keys, r.caller, r.at).value, r.header, r.granted, enforce) == Some(tenant)
    ensures var h := Handle(keys, r, enforce);
      && (h.0.None? <==> RoleAtLeast(Principal(keys, r.caller, r.at).value, "owner") && MayAsk(r.ask, admin))
      && (h.0.None? ==> r.ask.id in h.1 && IsKeyFor(h.1[r.ask.id], r.ask, tenant, r.at))
  {
    NamesDiffer();
  }

  /** A key goes exactly when an admitted caller names it and it is the tenant's acted on. */
  lemma RevokedExactly(keys: Keys, r: Request, enforce: bool, id: string)
    requires r.ask.Revoke? && id in keys
    ensures var keys' := Handle(keys, r, enforce).1;
      && (id !in keys' <==> id == r.ask.id && id != "" && exists admin :: Admitted(keys, r, enforce, admin, keys[id].tenant))
      && (id in keys' ==> keys'[id] == keys[id])
  {
    forall admin, tenant {
      AdmittedIff(keys, r, enforce, admin, tenant);
    }
    var p := Principal(keys, r.caller, r.at);
    if p.Some? {
      AdmittedIff(keys, r, enforce, p.value.platformAdmin, keys[id].tenant);
    }
  }

  /** Every stored key is as it was asked for, and it signs its bearer in until it expires:
      for ever, or for the lifetime asked for, its last moment included. */
  lemma {:induction false} KeyLives(rs: seq<Request>, enforce: bool, id: string, at: int) returns (i: nat)
    requires IsRun(rs, enforce) && id in After(rs, enforce)
    ensures i < |rs| && rs[i].ask.Create? && rs[i].ask.id == id && !rs[i].ask.lifetime.Unreadable?
    ensures IsKeyFor(After(rs, enforce)[id], rs[i].ask, After(rs, enforce)[id].tenant, rs[i].at)
    ensures Principal(After(rs, enforce), Bearer(id), at).Some? <==>
      (rs[i].ask.lifetime.For? ==> at <= rs[i].at + rs[i].ask.lifetime.duration)
    decreases |rs|
  {
    var before, r := rs[..|rs| - 1], rs[|rs| - 1];
    if r.ask.Create? && r.ask.id == id && Handle(After(before, enforce), r, enforce).0.None? {
      i := |rs| - 1;
      CreatedExactly(After(before, enforce), r, enforce);
    } else {
      i := KeyLives(before, enforce, id, at);
    }
  }
}
