/** API keys: who may mint which, and what authority a key can come to carry. */
module ApiKeys {
  import opened Options

  const VIEWER := "viewer"
  const OPERATOR := "operator"
  const OWNER := "owner"

  // ---------- principals ----------

  /** `session`: a person signed in to the console, not the break-glass token. */
  datatype User = User(roles: seq<string>, tenant: string, platformAdmin: bool, platformReader: bool, session: bool)

  datatype Key = Key(role: string, tenant: string, platformAdmin: bool, platformRead: bool, expires: Option<int>)

  type Keys = map<string, Key>

  datatype Caller = Person(user: User) | Bearer(id: string)

  /** "admin" is the older name of owner. */
  function Rank(role: string): int {
    if role == VIEWER then 1 else if role == OPERATOR then 2 else if role == OWNER || role == "admin" then 3 else 0
  }

  /** The user reaches the rank of a known role. */
  predicate RoleAtLeast(u: User, min: string) {
    Rank(min) > 0 && exists i | 0 <= i < |u.roles| :: Rank(u.roles[i]) >= Rank(min)
  }

  /** Someone an owner-only route lets through: "admin" is the older name. */
  predicate IsOwner(roles: seq<string>) {
    exists i | 0 <= i < |roles| :: roles[i] == "owner" || roles[i] == "admin"
  }

  lemma NamesDiffer()
    ensures "viewer" != "operator" && "viewer" != "owner" && "operator" != "owner"
    ensures "admin" != "viewer" && "admin" != "operator" && "admin" != "owner"
    ensures "" != "viewer" && "" != "operator" && "" != "owner" && "" != "admin"
  {
    assert "viewer"[0] == 'v' && "operator"[0] == 'o' && "owner"[0] == 'o' && "admin"[0] == 'a';
    assert |"operator"| == 8 && |"owner"| == 5;
  }

  /** The hierarchy, name by name: a floor admits exactly the roles at or above it, and a floor
      that is no role's name admits nobody. */
  lemma FloorAdmits(u: User, min: string)
    ensures RoleAtLeast(u, "owner") <==> IsOwner(u.roles)
    ensures RoleAtLeast(u, "operator") <==> IsOwner(u.roles) || "operator" in u.roles
    ensures RoleAtLeast(u, "viewer") <==> IsOwner(u.roles) || "operator" in u.roles || "viewer" in u.roles
    ensures min !in {"viewer", "operator", "owner", "admin"} ==> !RoleAtLeast(u, min)
  {
    NamesDiffer();
    OwnerFloor(u);
    LowerFloor(u, "operator");
    LowerFloor(u, "viewer");
  }

  lemma OwnerFloor(u: User)
    ensures RoleAtLeast(u, "owner") <==> IsOwner(u.roles)
  {
    NamesDiffer();
    if RoleAtLeast(u, "owner") {
      var i :| 0 <= i < |u.roles| && Rank(u.roles[i]) >= Rank("owner");
      assert u.roles[i] == "owner" || u.roles[i] == "admin";
    }
    if IsOwner(u.roles) {
      var i :| 0 <= i < |u.roles| && (u.roles[i] == "owner" || u.roles[i] == "admin");
      assert Rank(u.roles[i]) >= Rank("owner");
    }
  }

  lemma LowerFloor(u: User, min: string)
    requires min == "operator" || min == "viewer"
    ensures RoleAtLeast(u, min) <==> IsOwner(u.roles) || "operator" in u.roles || (min == "viewer" && "viewer" in u.roles)
  {
    NamesDiffer();
    if RoleAtLeast(u, min) {
      var i :| 0 <= i < |u.roles| && Rank(u.roles[i]) >= Rank(min);
      assert u.roles[i] in {"viewer", "operator", "owner", "admin"};
    }
    if IsOwner(u.roles) {
      var i :| 0 <= i < |u.roles| && (u.roles[i] == "owner" || u.roles[i] == "admin");
      assert Rank(u.roles[i]) >= Rank(min);
    }
    if "operator" in u.roles {
      var i :| 0 <= i < |u.roles| && u.roles[i] == "operator";
      assert Rank(u.roles[i]) >= Rank(min);
    }
    if min == "viewer" && "viewer" in u.roles {
      var i :| 0 <= i < |u.roles| && u.roles[i] == "viewer";
      assert Rank(u.roles[i]) >= Rank(min);
    }
  }

  /** What a key authenticates as, until it is revoked or expires. */
  function Principal(keys: Keys, caller: Caller, at: int): Option<User> {
    match caller
    case Person(u) => Some(u)
    case Bearer(id) =>
      if id !in keys || (keys[id].expires.Some? && at > keys[id].expires.value) then None
      else Some(User([keys[id].role], keys[id].tenant, keys[id].platformAdmin, keys[id].platformRead, false))
  }

  function Home(u: User): string {
    if u.tenant != "" then u.tenant else "default"
  }

  /** The tenant a request acts on. Only a platform administrator may name another one, and
      a person only one whose owner has opened it. */
  function Tenant(u: User, header: string, granted: bool, enforce: bool): Option<string> {
    if u.platformAdmin && header != "" then
      if u.session && header != "default" && header != u.tenant && !granted then None else Some(header)
    else if u.tenant == "" && enforce then None
    else Some(Home(u))
  }

  // ---------- requests ----------

  datatype Lifetime = Unlimited | For(duration: int) | Unreadable

  datatype Ask =
    | Create(id: string, role: string, admin: bool, read: bool, lifetime: Lifetime)
    | Revoke(id: string)

  datatype Request = Request(caller: Caller, header: string, granted: bool, at: int, ask: Ask)

  datatype Refusal = Unauthenticated | Forbidden | Invalid

  /** A key that may be asked for: a known role or none named, the platform axis only from a
      platform administrator, and a platform reader a viewer without it. */
  predicate MayAsk(a: Ask, admin: bool)
    requires a.Create?
  {
    && a.role in {"", "viewer", "operator", "owner"}
    && (a.admin || a.read ==> admin)
    && (a.read ==> !a.admin && a.role in {"", "viewer"})
    && !a.lifetime.Unreadable?
  }

  /** The key asked for, in a tenant: a viewer unless a role is named, for as long as asked. */
  predicate IsKeyFor(k: Key, a: Ask, tenant: string, at: int)
    requires a.Create? && !a.lifetime.Unreadable?
  {
    && k.role == (if a.role == "" then "viewer" else a.role)
    && k.tenant == tenant && k.platformAdmin == a.admin && k.platformRead == a.read
    && k.expires == if a.lifetime.For? then Some(at + a.lifetime.duration) else None
  }

  function Mint(u: User, tenant: string, a: Ask, at: int): (r: (Option<Refusal>, Option<Key>))
    requires a.Create?
  {
    var role := if a.role == "" then VIEWER else a.role;
    if role != VIEWER && role != OPERATOR && role != OWNER then (Some(Invalid), None)
    else if a.admin && !u.platformAdmin then (Some(Forbidden), None)
    else if a.read && !u.platformAdmin then (Some(Forbidden), None)
    else if a.read && (a.admin || role != VIEWER) then (Some(Invalid), None)
    else
      match a.lifetime
      case Unreadable => (Some(Invalid), None)
      case Unlimited => (None, Some(Key(role, tenant, a.admin, a.read, None)))
      case For(d) => (None, Some(Key(role, tenant, a.admin, a.read, Some(at + d))))
  }

  function Handle(keys: Keys, r: Request, enforce: bool): (Option<Refusal>, Keys) {
    match Principal(keys, r.caller, r.at)
    case None => (Some(Unauthenticated), keys)
    case Some(u) =>
      match Tenant(u, r.header, r.granted, enforce)
      case None => (Some(Forbidden), keys)
      case Some(tenant) =>
        if !RoleAtLeast(u, OWNER) then (Some(Forbidden), keys)
        else match r.ask
          case Create(id, _, _, _, _) =>
            var m := Mint(u, tenant, r.ask, r.at);
            (m.0, if m.1.Some? then keys[id := m.1.value] else keys)
          case Revoke(id) =>
            if id == "" then (Some(Invalid), keys)
            else (None, if id in keys && keys[id].tenant == tenant then keys - {id} else keys)
  }

  // ---------- runs ----------

  function After(rs: seq<Request>, enforce: bool): Keys {
    if rs == [] then map[] else Handle(After(rs[..|rs| - 1], enforce), rs[|rs| - 1], enforce).1
  }

  /** A new key goes back to the person who minted it, or to that of the key that did. */
  function AddRoot(roots: map<string, User>, keys: Keys, r: Request, enforce: bool): map<string, User> {
    if !r.ask.Create? || Handle(keys, r, enforce).0.Some? then roots
    else
      match r.caller
      case Person(u) => roots[r.ask.id := u]
      case Bearer(id) => if id in roots then roots[r.ask.id := roots[id]] else roots
  }

  /** The person each key issued so far goes back to. */
  function Roots(rs: seq<Request>, enforce: bool): map<string, User> {
    if rs == [] then map[]
    else AddRoot(Roots(rs[..|rs| - 1], enforce), After(rs[..|rs| - 1], enforce), rs[|rs| - 1], enforce)
  }

  /** Key ids are generated, never used twice; time does not run backwards. */
  predicate IsRun(rs: seq<Request>, enforce: bool) {
    rs == [] || (
      var before, r := rs[..|rs| - 1], rs[|rs| - 1];
      && IsRun(before, enforce)
      && (r.ask.Create? ==> r.ask.id !in Roots(before, enforce))
      && (before != [] ==> before[|before| - 1].at <= r.at)
    )
  }

  /** A key carries no more than the person it goes back to. */
  predicate KeyOk(k: Key, root: User) {
    && !(k.platformAdmin && k.platformRead)
    && (k.platformRead ==> k.role == VIEWER)
    && k.role in {VIEWER, OPERATOR, OWNER}
    && k.tenant != ""
    && RoleAtLeast(root, OWNER)
    && (k.platformAdmin || k.platformRead ==> root.platformAdmin)
    && (!root.platformAdmin ==> k.tenant == Home(root))
  }

  ghost predicate Inv(keys: Keys, roots: map<string, User>) {
    forall id | id in keys :: id in roots && KeyOk(keys[id], roots[id])
  }

  /** A principal stands for a person it carries no more than. */
  predicate StandsFor(u: User, root: User) {
    && (u.platformAdmin ==> root.platformAdmin)
    && (!root.platformAdmin ==> Home(u) == Home(root))
    && (RoleAtLeast(u, OWNER) ==> RoleAtLeast(root, OWNER))
  }

  lemma BearerStandsFor(keys: Keys, roots: map<string, User>, id: string, at: int)
    requires Inv(keys, roots) && Principal(keys, Bearer(id), at).Some?
    ensures id in roots && StandsFor(Principal(keys, Bearer(id), at).value, roots[id])
  {
    assert KeyOk(keys[id], roots[id]);
  }

  lemma MintedOk(u: User, root: User, r: Request, tenant: string, enforce: bool)
    requires StandsFor(u, root) && RoleAtLeast(u, OWNER) && r.ask.Create?
    requires Tenant(u, r.header, r.granted, enforce) == Some(tenant)
    ensures Mint(u, tenant, r.ask, r.at).1.Some? ==> KeyOk(Mint(u, tenant, r.ask, r.at).1.value, root)
  {
  }

  lemma StepInv(keys: Keys, roots: map<string, User>, r: Request, enforce: bool)
    requires Inv(keys, roots) && (r.ask.Create? ==> r.ask.id !in roots)
    ensures Inv(Handle(keys, r, enforce).1, AddRoot(roots, keys, r, enforce))
  {
    var handled := Handle(keys, r, enforce);
    var keys', roots' := handled.1, AddRoot(roots, keys, r, enforce);
    if r.ask.Create? && handled.0.None? {
      var u := Principal(keys, r.caller, r.at).value;
      if r.caller.Bearer? {
        BearerStandsFor(keys, roots, r.caller.id, r.at);
      }
      var root := if r.caller.Bearer? then roots[r.caller.id] else u;
      MintedOk(u, root, r, Tenant(u, r.header, r.granted, enforce).value, enforce);
      assert roots' == roots[r.ask.id := root] && keys' == keys[r.ask.id := keys'[r.ask.id]];
    }
    forall id | id in keys' ensures id in roots' && KeyOk(keys'[id], roots'[id]) {
      if !(r.ask.Create? && id == r.ask.id) {
        assert id in keys && KeyOk(keys[id], roots[id]);
      }
    }
  }

  lemma {:induction false} RunInv(rs: seq<Request>, enforce: bool)
    requires IsRun(rs, enforce)
    ensures Inv(After(rs, enforce), Roots(rs, enforce))
  {
    if rs != [] {
      RunInv(rs[..|rs| - 1], enforce);
      StepInv(After(rs[..|rs| - 1], enforce), Roots(rs[..|rs| - 1], enforce), rs[|rs| - 1], enforce);
    }
  }

  /** Through any chain of keys minting keys: no key has both platform flags, a platform
      reader is a viewer, and a key carries the platform axis, or belongs to a tenant other
      than its root's, only if the person at its root is a platform administrator. */
  lemma AuthorityNeverGrows(rs: seq<Request>, enforce: bool, id: string)
    requires IsRun(rs, enforce) && id in After(rs, enforce)
    ensures id in Roots(rs, enforce) && KeyOk(After(rs, enforce)[id], Roots(rs, enforce)[id])
  {
    RunInv(rs, enforce);
  }

  /** A platform reader's key is refused whatever it asks of the key routes. */
  lemma {:induction false} ReaderNeverMints(rs: seq<Request>, enforce: bool, r: Request)
    requires IsRun(rs, enforce) && r.caller.Bearer? && r.caller.id in After(rs, enforce)
    requires After(rs, enforce)[r.caller.id].platformRead
    ensures Handle(After(rs, enforce), r, enforce).0.Some? && Handle(After(rs, enforce), r, enforce).1 == After(rs, enforce)
  {
    RunInv(rs, enforce);
    assert KeyOk(After(rs, enforce)[r.caller.id], Roots(rs, enforce)[r.caller.id]);
    assert VIEWER[0] != OWNER[0];
  }

  /** With no platform administrator among the people who sign in, no platform key ever
      comes to be. */
  lemma NoPlatformKeyFromNothing(rs: seq<Request>, enforce: bool, id: string)
    requires IsRun(rs, enforce) && id in After(rs, enforce)
    requires forall i | 0 <= i < |rs| && rs[i].caller.Person? :: !rs[i].caller.user.platformAdmin
    ensures !After(rs, enforce)[id].platformAdmin && !After(rs, enforce)[id].platformRead
  {
    RunInv(rs, enforce);
    RootsArePeople(rs, enforce, id);
  }

  lemma {:induction false} RootsArePeople(rs: seq<Request>, enforce: bool, id: string)
    requires id in Roots(rs, enforce)
    ensures exists i | 0 <= i < |rs| :: rs[i].caller == Person(Roots(rs, enforce)[id])
    decreases |rs|
  {
    var before, r := rs[..|rs| - 1], rs[|rs| - 1];
    var roots, root := Roots(before, enforce), Roots(rs, enforce)[id];
    if r.caller == Person(root) {
      assert rs[|rs| - 1].caller == Person(root);
    } else {
      var from := if id in roots && roots[id] == root then id else r.caller.id;
      RootsArePeople(before, enforce, from);
      var i :| 0 <= i < |before| && before[i].caller == Person(root);
      assert rs[i].caller == Person(root);
    }
  }

  /** A key that was issued and is gone stays gone, so nobody is authenticated by it again. */
  lemma {:induction false} RevokedForever(rs: seq<Request>, more: seq<Request>, enforce: bool, id: string, at: int)
    requires IsRun(rs + more, enforce) && id in Roots(rs, enforce) && id !in After(rs, enforce)
    ensures id in Roots(rs + more, enforce) && id !in After(rs + more, enforce)
    ensures Principal(After(rs + more, enforce), Bearer(id), at).None?
    decreases |more|
  {
    if more == [] {
      assert rs + more == rs;
    } else {
      var init := more[..|more| - 1];
      assert (rs + more)[..|rs + more| - 1] == rs + init;
      RevokedForever(rs, init, enforce, id, at);
    }
  }

  /** A request without the platform axis leaves every other tenant's keys as they are. */
  lemma OtherTenantsKept(keys: Keys, r: Request, enforce: bool, id: string)
    requires Principal(keys, r.caller, r.at).Some? && !Principal(keys, r.caller, r.at).value.platformAdmin
    requires r.ask.Create? ==> r.ask.id !in keys
    ensures var home, keys' := Home(Principal(keys, r.caller, r.at).value), Handle(keys, r, enforce).1;
      && (id in keys && keys[id].tenant != home ==> id in keys' && keys'[id] == keys[id])
      && (id in keys' && keys'[id].tenant != home ==> id in keys && keys'[id] == keys[id])
  {
  }

  // ---------- the handlers ----------

  method HasRole(u: User, min: string) returns (ok: bool)
    ensures ok <==> RoleAtLeast(u, min)
    ensures min == "owner" ==> (ok <==> IsOwner(u.roles))
  {
    OwnerFloor(u);
    var minRank := Rank(min);
    if minRank == 0 {
      return false;
    }
    for i := 0 to |u.roles|
      invariant forall j | 0 <= j < i :: Rank(u.roles[j]) < minRank
    {
      if Rank(u.roles[i]) >= minRank {
        return true;
      }
    }
    return false;
  }

  class APIKeyHandler {
    var keys: Keys

    constructor ()
      ensures keys == map[]
    {
      keys := map[];
    }

    /** `CreateKey` behind the owner gate, for an authenticated caller. */
    method CreateKey(u: User, tenant: string, a: Ask, at: int) returns (refusal: Option<Refusal>)
      requires a.Create?
      modifies this
      ensures RoleAtLeast(u, OWNER) ==> refusal == Mint(u, tenant, a, at).0
      ensures !RoleAtLeast(u, OWNER) ==> refusal == Some(Forbidden)
      ensures keys == if refusal.None? then old(keys)[a.id := Mint(u, tenant, a, at).1.value] else old(keys)
      ensures refusal.None? <==> IsOwner(u.roles) && MayAsk(a, u.platformAdmin)
      ensures refusal.None? ==> IsKeyFor(keys[a.id], a, tenant, at)
    {
      NamesDiffer();
      var owner := HasRole(u, OWNER);
      if !owner {
        return Some(Forbidden);
      }
      var role := a.role;
      if role == "" {
        role := VIEWER;
      } else if role != VIEWER && role != OPERATOR && role != OWNER {
        return Some(Invalid);
      }
      if a.admin && !u.platformAdmin {
        return Some(Forbidden);
      }
      if a.read {
        if !u.platformAdmin {
          return Some(Forbidden);
        }
        if a.admin {
          return Some(Invalid);
        }
        if role != VIEWER {
          return Some(Invalid);
        }
      }
      var expires: Option<int> := None;
      if a.lifetime != Unlimited {
        if a.lifetime == Unreadable {
          return Some(Invalid);
        }
        expires := Some(at + a.lifetime.duration);
      }
      keys := keys[a.id := Key(role, tenant, a.admin, a.read, expires)];
      return None;
    }

    method DeleteKey(u: User, tenant: string, id: string) returns (refusal: Option<Refusal>)
      modifies this
      ensures refusal == if !RoleAtLeast(u, OWNER) then Some(Forbidden) else if id == "" then Some(Invalid) else None
      ensures keys == if refusal.None? && id in old(keys) && old(keys)[id].tenant == tenant then old(keys) - {id} else old(keys)
    {
      var owner := HasRole(u, OWNER);
      if !owner {
        return Some(Forbidden);
      }
      if id == "" {
        return Some(Invalid);
      }
      if id in keys && keys[id].tenant == tenant {
        keys := keys - {id};
      }
      return None;
    }

    /** The key validator and the middleware around it. */
    method Authenticate(caller: Caller, at: int) returns (user: Option<User>)
      ensures user == Principal(keys, caller, at)
    {
      match caller
      case Person(u) => user := Some(u);
      case Bearer(id) =>
        if id !in keys {
          return None;
        }
        var k := keys[id];
        var u := User([k.role], "", k.platformAdmin, k.platformRead, false);
        if k.expires.Some? && at > k.expires.value {
          return None;
        }
        user := Some(u.(tenant := k.tenant));
    }

    method ResolveTenant(u: User, header: string, granted: bool, enforce: bool) returns (tenant: Option<string>)
      ensures tenant == Tenant(u, header, granted, enforce)
    {
      var id := "";
      if u.platformAdmin && header != "" {
        if u.session && header != "default" && header != u.tenant && !granted {
          return None;
        }
        id := header;
      }
      if id == "" && u.tenant != "" {
        id := u.tenant;
      }
      if id == "" {
        if enforce {
          return None;
        }
        id := "default";
      }
      return Some(id);
    }

    /** The whole chain: the key validator, the tenant, the owner gate and the handler. */
    method Serve(r: Request, enforce: bool) returns (refusal: Option<Refusal>)
      modifies this
      ensures (refusal, keys) == Handle(old(keys), r, enforce)
    {
      var user := Authenticate(r.caller, r.at);
      if user.None? {
        return Some(Unauthenticated);
      }
      var tenant := ResolveTenant(user.value, r.header, r.granted, enforce);
      if tenant.None? {
        return Some(Forbidden);
      }
      match r.ask
      case Create(_, _, _, _, _) => refusal := CreateKey(user.value, tenant.value, r.ask, r.at);
      case Revoke(id) => refusal := DeleteKey(user.value, tenant.value, id);
    }
  }
}
