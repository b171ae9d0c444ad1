/** Roles from identity-provider groups, and what every sign-in of a linked subject does
    to the users table. */
module RoleSync {
  const VIEWER: string := "viewer"
  const OPERATOR: string := "operator"
  const OWNER: string := "owner"

  /** The provider group that marks platform administrators ("" for none), and the Hub role each group grants. */
  datatype Config = Config(adminGroup: string, groupRoles: map<string, string>)

  /** A name that is no Hub role ranks lowest, like no role at all. */
  function Rank(role: string): nat {
    if role == VIEWER then 1 else if role == OPERATOR then 2 else if role == OWNER then 3 else 0
  }

  predicate IsAdmin(cfg: Config, g: string) {
    cfg.adminGroup != "" && g == cfg.adminGroup
  }

  /** What one group grants; the admin group implies owner. */
  function Granted(cfg: Config, g: string): string {
    if IsAdmin(cfg, g) then OWNER
    else if g in cfg.groupRoles then cfg.groupRoles[g]
    else ""
  }

  /** The highest-ranked role that some group of the set grants, "" when none grants any. */
  ghost predicate IsBest(cfg: Config, groups: set<string>, role: string) {
    && (forall g | g in groups :: Rank(Granted(cfg, g)) <= Rank(role))
    && (role == "" || (Rank(role) > 0 && exists g | g in groups :: Granted(cfg, g) == role))
  }

  lemma BestUnique(cfg: Config, groups: set<string>, role: string, role': string)
    requires IsBest(cfg, groups, role) && IsBest(cfg, groups, role')
    ensures role == role'
  {
  }

  /** Some group of the set grants the role: the admin group owner, any other what it maps to. */
  predicate Grants(cfg: Config, groups: set<string>, role: string) {
    exists g | g in groups ::
      if cfg.adminGroup != "" && g == cfg.adminGroup then role == "owner" else g in cfg.groupRoles && cfg.groupRoles[g] == role
  }

  /** By name: owner if any group grants it, else operator, else viewer, else nothing. */
  lemma BestByName(cfg: Config, groups: set<string>, role: string)
    requires IsBest(cfg, groups, role)
    ensures role == if Grants(cfg, groups, "owner") then "owner" else if Grants(cfg, groups, "operator") then "operator"
                    else if Grants(cfg, groups, "viewer") then "viewer" else ""
  {
    assert "owner"[1] == 'w' && "operator"[1] == 'p' && "viewer"[1] == 'i';
    forall name | name != "" ensures Grants(cfg, groups, name) <==> exists g | g in groups :: Granted(cfg, g) == name {
      GrantsIff(cfg, groups, name);
    }
  }

  lemma GrantsIff(cfg: Config, groups: set<string>, name: string)
    requires name != ""
    ensures Grants(cfg, groups, name) <==> exists g | g in groups :: Granted(cfg, g) == name
  {
    if Grants(cfg, groups, name) {
      var g :| g in groups
        && if cfg.adminGroup != "" && g == cfg.adminGroup then name == "owner" else g in cfg.groupRoles && cfg.groupRoles[g] == name;
      assert Granted(cfg, g) == name;
    }
    if g :| g in groups && Granted(cfg, g) == name {
      assert IsAdmin(cfg, g) <==> cfg.adminGroup != "" && g == cfg.adminGroup;
    }
  }

  /** Only the set of groups matters: not their order, not repetitions. */
  method RoleFromGroups(cfg: Config, groups: seq<string>) returns (role: string, admin: bool)
    ensures IsBest(cfg, Groups(groups), role)
    ensures admin <==> exists g | g in groups :: IsAdmin(cfg, g)
    ensures admin ==> role == OWNER
  {
    var best := 0;
    role, admin := "", false;
    for i := 0 to |groups|
      invariant best == Rank(role)
      invariant forall g | g in groups[..i] :: Rank(Granted(cfg, g)) <= best
      invariant role == "" || (best > 0 && exists g | g in groups[..i] :: Granted(cfg, g) == role)
      invariant admin <==> exists g | g in groups[..i] :: IsAdmin(cfg, g)
    {
      var g := groups[i];
      assert groups[..i + 1] == groups[..i] + [g];
      assert Granted(cfg, g) == Granted(cfg, groups[..i + 1][i]);
      if cfg.adminGroup != "" && g == cfg.adminGroup {
        admin := true;
        assert IsAdmin(cfg, g);
        if best < Rank(OWNER) {
          best, role := Rank(OWNER), OWNER;
        }
      } else if g in cfg.groupRoles && Rank(cfg.groupRoles[g]) > best {
        best, role := Rank(cfg.groupRoles[g]), cfg.groupRoles[g];
      }
    }
    assert groups[..|groups|] == groups;
  }

  function Groups(groups: seq<string>): set<string> {
    set g | g in groups
  }

  /** The role a list of groups gives. */
  function RoleOf(cfg: Config, groups: seq<string>): (role: string)
    ensures IsBest(cfg, Groups(groups), role)
  {
    if groups == [] then ""
    else
      var init, last := groups[..|groups| - 1], groups[|groups| - 1];
      var role := RoleOf(cfg, init);
      assert Groups(groups) == Groups(init) + {last} by {
        assert groups == init + [last];
      }
      if Rank(Granted(cfg, last)) > Rank(role) then Granted(cfg, last) else role
  }

  // ---------- sign-ins of linked subjects ----------

  datatype User = User(name: string, role: string)
  datatype Link = Link(tenant: string, user: string)
  type UserRef = (string, string) // (tenant, user id)

  datatype Db = Db(users: map<UserRef, User>, owners: map<string, string>, links: map<string, Link>)

  /** A completed provider login: the subject, its display name, its groups, and whether
      the tenant row could be read. */
  datatype Login = Login(subject: string, name: string, groups: seq<string>, readable: bool)

  /** Fails open: a tenant that cannot be read counts as owned. */
  predicate Owns(db: Db, readable: bool, tenant: string, user: string) {
    !readable || tenant !in db.owners || (db.owners[tenant] != "" && db.owners[tenant] == user)
  }

  function Saved(db: Db, l: Login, w: Link, u: User, role: string): User {
    User(if l.name != "" then l.name else u.name, if Owns(db, l.readable, w.tenant, w.user) then u.role else role)
  }

  function SignIn(cfg: Config, db: Db, l: Login): Db {
    var role := RoleOf(cfg, l.groups);
    if role == "" || l.subject !in db.links then db
    else
      var w := db.links[l.subject];
      var key := (w.tenant, w.user);
      if key !in db.users then db
      else db.(users := db.users[key := Saved(db, l, w, db.users[key], role)])
  }

  function After(cfg: Config, db: Db, run: seq<Login>): Db {
    if run == [] then db else SignIn(cfg, After(cfg, db, run[..|run| - 1]), run[|run| - 1])
  }

  /** The sign-ins that decide a user's role: those of a subject linked to it, with some
      group that grants a role, while its tenant can be read and names another owner of
      record or none. */
  predicate Decides(cfg: Config, db: Db, l: Login, key: UserRef) {
    && (exists g | g in l.groups :: Rank(Granted(cfg, g)) > 0)
    && l.subject in db.links && db.links[l.subject] == Link(key.0, key.1)
    && l.readable && key.0 in db.owners && (db.owners[key.0] == "" || db.owners[key.0] != key.1)
  }

  /** Where the last deciding sign-in stands in the run, or -1. */
  function LastDeciding(cfg: Config, db: Db, run: seq<Login>, key: UserRef): (i: int)
    ensures -1 <= i < |run|
    ensures i >= 0 ==> Decides(cfg, db, run[i], key)
    ensures forall j | i < j < |run| :: !Decides(cfg, db, run[j], key)
  {
    if run == [] then -1
    else if Decides(cfg, db, run[|run| - 1], key) then |run| - 1
    else LastDeciding(cfg, db, run[..|run| - 1], key)
  }

  /** After every run of sign-ins a user's role is the highest any group of the last
      deciding sign-in grants, or the role they started with when none decided. */
  lemma {:induction false} RoleFollowsGroups(cfg: Config, db: Db, run: seq<Login>, key: UserRef)
    requires key in db.users
    ensures After(cfg, db, run).owners == db.owners && After(cfg, db, run).links == db.links
    ensures key in After(cfg, db, run).users
    ensures var i, role := LastDeciding(cfg, db, run, key), After(cfg, db, run).users[key].role;
      if i < 0 then role == db.users[key].role else IsBest(cfg, Groups(run[i].groups), role) && Rank(role) > 0
  {
    if run != [] {
      var l := run[|run| - 1];
      RoleFollowsGroups(cfg, db, run[..|run| - 1], key);
      assert forall g | g in l.groups :: g in Groups(l.groups);
    }
  }

  /** The sign-ins that name a user: those of a subject linked to it that carry a display
      name and come with a role. */
  predicate NamesUser(cfg: Config, db: Db, l: Login, key: UserRef) {
    && l.name != "" && l.subject in db.links && db.links[l.subject] == Link(key.0, key.1)
    && (Grants(cfg, Groups(l.groups), "owner") || Grants(cfg, Groups(l.groups), "operator") || Grants(cfg, Groups(l.groups), "viewer"))
  }

  /** Where the last of them stands in the run, or -1. */
  function LastNaming(cfg: Config, db: Db, run: seq<Login>, key: UserRef): (i: int)
    ensures -1 <= i < |run|
    ensures i >= 0 ==> NamesUser(cfg, db, run[i], key)
    ensures forall j | i < j < |run| :: !NamesUser(cfg, db, run[j], key)
  {
    if run == [] then -1
    else if NamesUser(cfg, db, run[|run| - 1], key) then |run| - 1
    else LastNaming(cfg, db, run[..|run| - 1], key)
  }

  lemma SignInNames(cfg: Config, db: Db, l: Login, key: UserRef)
    requires key in db.users
    ensures var db' := SignIn(cfg, db, l);
      && db'.links == db.links && key in db'.users
      && db'.users[key].name == if NamesUser(cfg, db, l, key) then l.name else db.users[key].name
  {
    assert "owner" != "" && "operator" != "" && "viewer" != "";
    BestByName(cfg, Groups(l.groups), RoleOf(cfg, l.groups));
  }

  /** After every run a user is called what the last such sign-in called them. */
  lemma {:induction false} NameFollows(cfg: Config, db: Db, run: seq<Login>, key: UserRef)
    requires key in db.users
    ensures After(cfg, db, run).links == db.links && key in After(cfg, db, run).users
    ensures var i := LastNaming(cfg, db, run, key);
      After(cfg, db, run).users[key].name == if i < 0 then db.users[key].name else run[i].name
  {
    if run != [] {
      NameFollows(cfg, db, run[..|run| - 1], key);
      SignInNames(cfg, After(cfg, db, run[..|run| - 1]), run[|run| - 1], key);
    }
  }

  /** The same sign-ins with their groups in any order and any repetitions. */
  predicate SameGroups(run: seq<Login>, run': seq<Login>) {
    && |run| == |run'|
    && forall i | 0 <= i < |run| ::
         && run[i].(groups := run'[i].groups) == run'[i]
         && Groups(run[i].groups) == Groups(run'[i].groups)
  }

  /** So neither order nor repetition of groups matters, over any run. */
  lemma {:induction false} OrderDoesNotMatter(cfg: Config, db: Db, run: seq<Login>, run': seq<Login>)
    requires SameGroups(run, run')
    ensures After(cfg, db, run) == After(cfg, db, run')
  {
    if run != [] {
      var i := |run| - 1;
      OrderDoesNotMatter(cfg, db, run[..i], run'[..i]);
      BestUnique(cfg, Groups(run[i].groups), RoleOf(cfg, run[i].groups), RoleOf(cfg, run'[i].groups));
    }
  }

  /** No sequence of sign-ins, whatever their groups, changes the role of a tenant's owner
      of record. */
  lemma {:induction false} OwnerOfRecordKeepsRole(cfg: Config, db: Db, run: seq<Login>, tenant: string, user: string)
    requires (tenant, user) in db.users && user != ""
    requires tenant in db.owners && db.owners[tenant] == user
    ensures (tenant, user) in After(cfg, db, run).users
    ensures After(cfg, db, run).users[(tenant, user)].role == db.users[(tenant, user)].role
  {
    RoleFollowsGroups(cfg, db, run, (tenant, user));
  }

  /** The users table behind the callback, updated row by row. */
  class OidcHandler {
    const cfg: Config
    var users: map<UserRef, User>
    var owners: map<string, string>
    var links: map<string, Link>

    ghost function Rows(): Db
      reads this
    {
      Db(users, owners, links)
    }

    constructor (cfg: Config, users: map<UserRef, User>, owners: map<string, string>, links: map<string, Link>)
      ensures this.cfg == cfg && Rows() == Db(users, owners, links)
    {
      this.cfg, this.users, this.owners, this.links := cfg, users, owners, links;
    }

    method OwnsTenant(readable: bool, tenant: string, user: string) returns (owns: bool)
      ensures owns <==> Owns(Rows(), readable, tenant, user)
    {
      if !readable {
        return true;
      }
      if tenant !in owners {
        return true;
      }
      return owners[tenant] != "" && owners[tenant] == user;
    }

    /** The callback for an already linked subject: `role` is what its groups give, `ok`
        whether a session follows. */
    method Callback(subject: string, name: string, groups: seq<string>, readable: bool) returns (ok: bool, role: string)
      modifies this
      ensures IsBest(cfg, Groups(groups), role)
      ensures Rows() == SignIn(cfg, old(Rows()), Login(subject, name, groups, readable))
      ensures ok <==> role != "" && subject in old(links) && (old(links)[subject].tenant, old(links)[subject].user) in old(users)
    {
      ok := false;
      var admin;
      role, admin := RoleFromGroups(cfg, groups);
      BestUnique(cfg, Groups(groups), role, RoleOf(cfg, groups));
      if role == "" || subject !in links {
        return;
      }
      var w := links[subject];
      var key := (w.tenant, w.user);
      if key !in users {
        return;
      }
      var u := users[key];
      var changed := false;
      if name != "" && u.name != name {
        u, changed := u.(name := name), true;
      }
      if u.role != role {
        var owns := OwnsTenant(readable, w.tenant, w.user);
        if !owns {
          u, changed := u.(role := role), true;
        }
      }
      if changed {
        users := users[key := u];
      }
      ok := true;
    }
  }
}
