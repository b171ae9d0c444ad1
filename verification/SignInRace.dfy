/** First sign-in: any number of callbacks for one new subject, interleaved store
    operation by store operation. Each builds its own tenant and user, an
    insert-if-absent claim picks one, and the losers discard theirs and adopt it.

    The subject is verified, holds no invite, is not the bootstrap address, and
    tenants are enforced. A callback may die at any point (`Crash`), which is what a lost
    process looks like, or a store error, except for the two the callback carries on
    from: a tenant that cannot be read and one that cannot be discarded. */
module SignInRace {
  import opened Options

  datatype Role = Viewer | Operator | Owner

  datatype Link = Link(user: string, tenant: string)

  /** `creator` is the callback that built the tenant; no code reads it. */
  datatype Tenant = Tenant(owner: Option<string>, active: bool, creator: nat)

  datatype User = User(tenant: string, role: Role)

  /** Where a callback stands: the next store operation, with its local variables. */
  datatype Pc =
    | GetIdentity
    | GetLinkedUser(w: Link)
    | CheckOwnership(w: Link, role: Role, renamed: bool)
    | SaveUser(w: Link, role: Role)
    | CreateTenant
    | CreateUser(t: string)
    | ClaimIdentity(t: string, u: string)
    | ReadWinner(t: string, u: string)
    | DiscardTenant(t: string, w: Link)
    | GetWinner(w: Link)
    | RecordOwner(t: string, u: string)
    | LinkIdentity(w: Link)
    | IssueSession(w: Link)
    | Finished(w: Link)
    | Crashed

  /** `early` collects the callbacks that found the linked user not to be the owner of
      record while the user's role differed from their groups' role; `stranded` the
      tenants whose discard failed. No code reads either. */
  datatype State = State(tenants: map<string, Tenant>, users: map<string, User>, link: Option<Link>,
                         pcs: map<nat, Pc>, early: set<nat>, stranded: set<string>)

  /** One store operation of callback `p`; `id` is the id it draws, `flag` an answer the
      store or the request leaves open (rows affected reported; display name changed),
      `fault` a store error the callback carries on from. */
  datatype Action = Run(p: nat, id: string, flag: bool, fault: bool) | Crash(p: nat)

  predicate Enabled(s: State, a: Action) {
    && a.p in s.pcs
    && !s.pcs[a.p].Finished? && !s.pcs[a.p].Crashed?
    && (a.Run? && s.pcs[a.p].CreateTenant? ==> a.id !in s.tenants)
    && (a.Run? && s.pcs[a.p].CreateUser? ==> a.id !in s.users)
  }

  function Goto(s: State, p: nat, pc: Pc): State {
    s.(pcs := s.pcs[p := pc])
  }

  /** A callback's next operation. `groups` is the role each callback's groups map to. */
  function Step(s: State, a: Action, groups: nat -> Role): State
    requires Enabled(s, a)
  {
    var p := a.p;
    if a.Crash? then Goto(s, p, Crashed)
    else
      match s.pcs[p]
      case GetIdentity =>
        Goto(s, p, if s.link.Some? then GetLinkedUser(s.link.value) else CreateTenant)
      case GetLinkedUser(w) =>
        if w.user !in s.users || s.users[w.user].tenant != w.tenant then Goto(s, p, Crashed)
        else
          var role := s.users[w.user].role;
          Goto(s, p, if role != groups(p) then CheckOwnership(w, role, a.flag)
                     else if a.flag then SaveUser(w, role)
                     else LinkIdentity(w))
      case CheckOwnership(w, role, renamed) =>
        var owns := a.fault || w.tenant !in s.tenants || s.tenants[w.tenant].owner == Some(w.user);
        if owns then Goto(s, p, if renamed then SaveUser(w, role) else LinkIdentity(w))
        else Goto(s, p, SaveUser(w, groups(p))).(early := s.early + {p})
      case SaveUser(w, role) =>
        Goto(s, p, LinkIdentity(w)).(users := s.users[w.user := User(w.tenant, role)])
      case CreateTenant =>
        Goto(s, p, CreateUser(a.id)).(tenants := s.tenants[a.id := Tenant(None, true, p)])
      case CreateUser(t) =>
        Goto(s, p, ClaimIdentity(t, a.id)).(users := s.users[a.id := User(t, Owner)])
      case ClaimIdentity(t, u) =>
        if s.link.None? then Goto(s, p, if a.flag then RecordOwner(t, u) else ReadWinner(t, u)).(link := Some(Link(u, t)))
        else Goto(s, p, ReadWinner(t, u))
      case ReadWinner(t, u) =>
        if s.link.None? then Goto(s, p, Crashed)
        else Goto(s, p, if s.link.value.tenant == t then RecordOwner(t, u) else DiscardTenant(t, s.link.value))
      case DiscardTenant(t, w) =>
        if t !in s.tenants then Goto(s, p, GetWinner(w))
        else if a.fault then Goto(s, p, GetWinner(w)).(stranded := s.stranded + {t})
        else Goto(s, p, GetWinner(w)).(tenants := s.tenants[t := s.tenants[t].(active := false)])
      case GetWinner(w) =>
        Goto(s, p, if w.user in s.users && s.users[w.user].tenant == w.tenant then LinkIdentity(w) else Crashed)
      case RecordOwner(t, u) =>
        if t !in s.tenants then Goto(s, p, Crashed)
        else Goto(s, p, LinkIdentity(Link(u, t))).(tenants := s.tenants[t := s.tenants[t].(owner := Some(u), active := true)])
      case LinkIdentity(w) =>
        Goto(s, p, IssueSession(w)).(link := Some(w))
      case IssueSession(w) =>
        Goto(s, p, Finished(w))
      case _ => s
  }

  /** Every callback has arrived and nothing is stored about the subject. */
  predicate Init(s: State) {
    s.link.None? && s.tenants == map[] && s.users == map[] && s.early == {} && s.stranded == {}
    && forall p | p in s.pcs :: s.pcs[p] == GetIdentity
  }

  predicate IsRun(s: State, run: seq<Action>, groups: nat -> Role)
    decreases |run|
  {
    run == [] || (Enabled(s, run[0]) && IsRun(Step(s, run[0], groups), run[1..], groups))
  }

  function After(s: State, run: seq<Action>, groups: nat -> Role): State
    requires IsRun(s, run, groups)
    decreases |run|
  {
    if run == [] then s else After(Step(s, run[0], groups), run[1..], groups)
  }

  // ---------- the invariant ----------

  /** A tenant a callback is still building: its own, live, and not (yet) the subject's. */
  predicate Building(s: State, p: nat, t: string) {
    && t in s.tenants && s.tenants[t] == Tenant(None, true, p)
    && (s.link.Some? ==> s.link.value.tenant != t)
  }

  predicate PcOk(s: State, p: nat)
    requires p in s.pcs
  {
    match s.pcs[p]
    case CreateUser(t) => Building(s, p, t)
    case ClaimIdentity(t, u) => Building(s, p, t) && u in s.users && s.users[u].tenant == t
    case ReadWinner(t, u) =>
      && s.link.Some?
      && t in s.tenants && s.tenants[t] == Tenant(None, true, p)
      && (s.link.value.tenant == t ==> s.link.value.user == u)
    case RecordOwner(t, u) => s.link == Some(Link(u, t)) && t in s.tenants && s.tenants[t].creator == p
    case DiscardTenant(t, w) => s.link == Some(w) && w.tenant != t && t in s.tenants && s.tenants[t] == Tenant(None, true, p)
    case GetLinkedUser(w) => s.link == Some(w)
    case CheckOwnership(w, _, _) => s.link == Some(w)
    case SaveUser(w, _) => s.link == Some(w)
    case GetWinner(w) => s.link == Some(w)
    case LinkIdentity(w) => s.link == Some(w)
    case IssueSession(w) => s.link == Some(w)
    case Finished(w) => s.link == Some(w)
    case _ => true
  }

  /** What has become of a tenant, and which callback answers for it. */
  predicate TenantOk(s: State, t: string)
    requires t in s.tenants
  {
    var x := s.tenants[t];
    && x.creator in s.pcs
    && (x.owner.Some? ==> s.link == Some(Link(x.owner.value, t)))
    && var pc := s.pcs[x.creator];
    if s.link.Some? && s.link.value.tenant == t then
      x.active && (x.owner.Some? || pc.Crashed? || pc == ReadWinner(t, s.link.value.user) || pc == RecordOwner(t, s.link.value.user))
    else
      || !x.active || pc.Crashed? || t in s.stranded
      || pc == CreateUser(t)
      || (pc.ClaimIdentity? && pc.t == t)
      || (pc.ReadWinner? && pc.t == t)
      || (pc.DiscardTenant? && pc.t == t)
  }

  predicate Inv(s: State) {
    && (forall p | p in s.pcs :: PcOk(s, p))
    && (forall t | t in s.tenants :: TenantOk(s, t))
    && (s.link.Some? ==>
          && s.link.value.user in s.users && s.users[s.link.value.user].tenant == s.link.value.tenant
          && s.link.value.tenant in s.tenants)
    && (forall t | t in s.stranded :: Stranded(s, t))
  }

  /** A tenant whose discard failed stays live beside the subject's own. */
  predicate Stranded(s: State, t: string) {
    && t in s.tenants && s.tenants[t].active && s.link.Some? && s.link.value.tenant != t
    && s.tenants[t].creator in s.pcs && Past(s.pcs[s.tenants[t].creator])
  }

  /** A callback that has given up its own tenant, or has died. */
  predicate Past(pc: Pc) {
    pc.GetWinner? || pc.LinkIdentity? || pc.IssueSession? || pc.Finished? || pc.Crashed?
  }

  /** A step that leaves tenants and link alone keeps the invariant, if the callback that
      moved is in order and still answers for the tenant it built. */
  lemma MoveKeepsInv(s: State, s': State, p: nat)
    requires Inv(s) && p in s.pcs
    requires s'.tenants == s.tenants && s'.link == s.link && s'.stranded == s.stranded
    requires s'.pcs.Keys == s.pcs.Keys && forall q | q in s.pcs && q != p :: s'.pcs[q] == s.pcs[q]
    requires forall u | u in s.users :: u in s'.users && s'.users[u].tenant == s.users[u].tenant
    requires PcOk(s', p)
    requires forall t | t in s.tenants && s.tenants[t].creator == p :: TenantOk(s', t)
    requires Past(s.pcs[p]) ==> Past(s'.pcs[p])
    ensures Inv(s')
  {
    forall q | q in s'.pcs ensures PcOk(s', q) {
      assert PcOk(s, q);
    }
    forall t | t in s'.tenants ensures TenantOk(s', t) {
      assert TenantOk(s, t);
    }
    forall t | t in s.stranded ensures Stranded(s', t) {
      assert Stranded(s, t);
    }
  }

  /** The operations of a callback that found the subject linked. */
  predicate Linked(pc: Pc) {
    pc.GetLinkedUser? || pc.CheckOwnership? || pc.SaveUser? || pc.LinkIdentity?
  }

  /** Such a callback goes from one of them to the next, or ends. */
  lemma LinkedMoves(s: State, a: Action, groups: nat -> Role)
    requires PcOkAt(s, a) && Linked(s.pcs[a.p])
    ensures var s', w := Step(s, a, groups), s.pcs[a.p].w;
      && s'.tenants == s.tenants && s'.link == s.link && s'.stranded == s.stranded
      && s'.pcs.Keys == s.pcs.Keys && (forall q | q in s.pcs && q != a.p :: s'.pcs[q] == s.pcs[q])
      && (Linked(s'.pcs[a.p]) || s'.pcs[a.p].IssueSession? || s'.pcs[a.p].Crashed?)
      && (s'.pcs[a.p].Crashed? || s'.pcs[a.p].w == w)
      && (Past(s.pcs[a.p]) ==> Past(s'.pcs[a.p]))
      && (s'.users == s.users || exists role :: s'.users == s.users[w.user := User(w.tenant, role)])
  {
    if s.pcs[a.p].SaveUser? {
      var pc := s.pcs[a.p];
      assert Step(s, a, groups).users == s.users[pc.w.user := User(pc.w.tenant, pc.role)];
    }
  }

  predicate PcOkAt(s: State, a: Action) {
    Enabled(s, a) && a.Run? && PcOk(s, a.p)
  }

  lemma LinkedStep(s: State, a: Action, groups: nat -> Role)
    requires Inv(s) && Enabled(s, a) && a.Run? && Linked(s.pcs[a.p])
    ensures Inv(Step(s, a, groups)) && Step(s, a, groups).link == s.link
  {
    assert PcOk(s, a.p);
    var s' := Step(s, a, groups);
    LinkedMoves(s, a, groups);
    assert PcOk(s', a.p);
    LinkedTenants(s, s', a.p);
    MoveKeepsInv(s, s', a.p);
  }

  /** A callback that found the subject linked answers for no tenant of its own. */
  lemma LinkedTenants(s: State, s': State, p: nat)
    requires Inv(s) && p in s.pcs && p in s'.pcs && Linked(s.pcs[p]) && s'.pcs.Keys == s.pcs.Keys
    requires s'.tenants == s.tenants && s'.link == s.link && s'.stranded == s.stranded
    requires forall q | q in s.pcs && q != p :: s'.pcs[q] == s.pcs[q]
    ensures forall t | t in s.tenants && s.tenants[t].creator == p :: TenantOk(s', t)
  {
    forall t | t in s.tenants && s.tenants[t].creator == p ensures TenantOk(s', t) {
      assert TenantOk(s, t);
    }
  }

  /** The other operations that write neither a tenant nor the link. */
  predicate Quiet(pc: Pc) {
    pc.GetIdentity? || pc.CreateUser? || pc.ReadWinner? || pc.GetWinner? || pc.IssueSession?
  }

  lemma QuietStep(s: State, a: Action, groups: nat -> Role)
    requires Inv(s) && Enabled(s, a) && (a.Crash? || Quiet(s.pcs[a.p]))
    ensures Inv(Step(s, a, groups)) && Step(s, a, groups).link == s.link
  {
    assert PcOk(s, a.p);
    var s' := Step(s, a, groups);
    forall t | t in s.tenants && s.tenants[t].creator == a.p ensures TenantOk(s', t) {
      assert TenantOk(s, t);
    }
    MoveKeepsInv(s, s', a.p);
  }

  lemma CreateTenantStep(s: State, a: Action, groups: nat -> Role)
    requires Inv(s) && Enabled(s, a) && a.Run? && s.pcs[a.p].CreateTenant?
    ensures Inv(Step(s, a, groups)) && Step(s, a, groups).link == s.link
  {
    var s' := Step(s, a, groups);
    forall q | q in s'.pcs ensures PcOk(s', q) {
      assert PcOk(s, q);
    }
    forall t | t in s'.tenants ensures TenantOk(s', t) {
      if t != a.id { assert TenantOk(s, t); }
    }
    forall t | t in s.stranded ensures Stranded(s', t) {
      assert Stranded(s, t);
    }
  }

  lemma ClaimStep(s: State, a: Action, groups: nat -> Role)
    requires Inv(s) && Enabled(s, a) && a.Run? && s.pcs[a.p].ClaimIdentity?
    ensures Inv(Step(s, a, groups)) && (s.link.Some? ==> Step(s, a, groups).link == s.link)
  {
    assert PcOk(s, a.p);
    var s' := Step(s, a, groups);
    forall q | q in s'.pcs ensures PcOk(s', q) {
      assert PcOk(s, q);
    }
    forall t | t in s'.tenants ensures TenantOk(s', t) {
      assert TenantOk(s, t);
    }
    forall t | t in s.stranded ensures Stranded(s', t) {
      assert Stranded(s, t);
    }
  }

  lemma DiscardStep(s: State, a: Action, groups: nat -> Role)
    requires Inv(s) && Enabled(s, a) && a.Run? && s.pcs[a.p].DiscardTenant?
    ensures Inv(Step(s, a, groups)) && Step(s, a, groups).link == s.link
  {
    assert PcOk(s, a.p);
    var s', t := Step(s, a, groups), s.pcs[a.p].t;
    assert s'.tenants == if a.fault then s.tenants else s.tenants[t := Tenant(None, false, a.p)];
    assert s'.stranded == if a.fault then s.stranded + {t} else s.stranded;
    DiscardKeepsPcs(s, s', a.p, t);
    forall x | x in s'.tenants ensures TenantOk(s', x) {
      assert TenantOk(s, x);
    }
    forall x | x in s'.stranded ensures Stranded(s', x) {
      if x in s.stranded { assert Stranded(s, x); }
    }
  }

  /** Only its own callback answers for a tenant that is being discarded. */
  lemma DiscardKeepsPcs(s: State, s': State, p: nat, t: string)
    requires Inv(s) && p in s.pcs && s.pcs[p].DiscardTenant? && s.pcs[p].t == t
    requires s'.pcs == s.pcs[p := GetWinner(s.pcs[p].w)] && s'.users == s.users && s'.link == s.link
    requires s'.tenants == s.tenants || s'.tenants == s.tenants[t := Tenant(None, false, p)]
    ensures forall q | q in s'.pcs :: PcOk(s', q)
  {
    assert PcOk(s, p);
    forall q | q in s'.pcs ensures PcOk(s', q) {
      assert PcOk(s, q);
    }
  }

  lemma RecordOwnerStep(s: State, a: Action, groups: nat -> Role)
    requires Inv(s) && Enabled(s, a) && a.Run? && s.pcs[a.p].RecordOwner?
    ensures Inv(Step(s, a, groups)) && Step(s, a, groups).link == s.link
  {
    assert PcOk(s, a.p);
    var s' := Step(s, a, groups);
    forall q | q in s'.pcs ensures PcOk(s', q) {
      assert PcOk(s, q);
    }
    forall t | t in s'.tenants ensures TenantOk(s', t) {
      assert TenantOk(s, t);
    }
    forall t | t in s.stranded ensures Stranded(s', t) {
      assert Stranded(s, t);
    }
  }

  /** What every operation keeps; in particular the link, once there, is never repointed. */
  lemma StepKeepsInv(s: State, a: Action, groups: nat -> Role)
    requires Inv(s) && Enabled(s, a)
    ensures Inv(Step(s, a, groups))
    ensures s.link.Some? ==> Step(s, a, groups).link == s.link
  {
    if a.Crash? || Quiet(s.pcs[a.p]) {
      QuietStep(s, a, groups);
    } else if Linked(s.pcs[a.p]) {
      LinkedStep(s, a, groups);
    } else {
      match s.pcs[a.p]
      case CreateTenant => CreateTenantStep(s, a, groups);
      case ClaimIdentity(_, _) => ClaimStep(s, a, groups);
      case DiscardTenant(_, _) => DiscardStep(s, a, groups);
      case RecordOwner(_, _) => RecordOwnerStep(s, a, groups);
    }
  }

  // ---------- whole runs ----------

  lemma {:induction false} RunInv(s: State, run: seq<Action>, groups: nat -> Role)
    requires Inv(s) && IsRun(s, run, groups)
    ensures Inv(After(s, run, groups))
    ensures After(s, run, groups).pcs.Keys == s.pcs.Keys
    ensures s.link.Some? ==> After(s, run, groups).link == s.link
    decreases |run|
  {
    if run != [] {
      var next := Step(s, run[0], groups);
      StepKeepsInv(s, run[0], groups);
      SameCallbacks(s, run[0], groups);
      assert IsRun(next, run[1..], groups);
      RunInv(next, run[1..], groups);
    }
  }

  lemma SameCallbacks(s: State, a: Action, groups: nat -> Role)
    requires Enabled(s, a)
    ensures Step(s, a, groups).pcs.Keys == s.pcs.Keys
  {
  }

  lemma {:induction false} Split(s: State, run: seq<Action>, rest: seq<Action>, groups: nat -> Role)
    requires IsRun(s, run + rest, groups)
    ensures IsRun(s, run, groups)
    ensures IsRun(After(s, run, groups), rest, groups)
    ensures After(s, run + rest, groups) == After(After(s, run, groups), rest, groups)
    decreases |run|
  {
    if run == [] {
      assert run + rest == rest;
    } else {
      assert (run + rest)[1..] == run[1..] + rest;
      Split(Step(s, run[0], groups), run[1..], rest, groups);
    }
  }

  /** Once the subject is linked, no later operation of any callback repoints it. */
  lemma LinkNeverMoves(s: State, run: seq<Action>, rest: seq<Action>, groups: nat -> Role)
    requires Init(s) && IsRun(s, run + rest, groups)
    requires IsRun(s, run, groups) && After(s, run, groups).link.Some?
    ensures After(s, run + rest, groups).link == After(s, run, groups).link
  {
    Split(s, run, rest, groups);
    RunInv(s, run, groups);
    RunInv(After(s, run, groups), rest, groups);
  }

  /** Every session is for the subject's one linked user, in a tenant that is live, at any
      point of any run, crashes included. */
  lemma SessionsAgree(s: State, run: seq<Action>, groups: nat -> Role, p: nat)
    requires Init(s) && IsRun(s, run, groups)
    requires p in After(s, run, groups).pcs && After(s, run, groups).pcs[p].Finished?
    ensures var e := After(s, run, groups);
      && e.link == Some(e.pcs[p].w)
      && e.pcs[p].w.tenant in e.tenants && e.tenants[e.pcs[p].w.tenant].active
      && e.pcs[p].w.user in e.users && e.users[e.pcs[p].w.user].tenant == e.pcs[p].w.tenant
  {
    RunInv(s, run, groups);
    var e := After(s, run, groups);
    assert PcOk(e, p);
    assert TenantOk(e, e.link.value.tenant);
  }

  /** When every callback has finished, the subject is linked to a live tenant they built,
      the linked user is its owner of record, and every session is for that pair. Of the
      other tenants, owned by nobody, exactly those are still live whose discard failed. */
  lemma OneTenantSurvives(s: State, run: seq<Action>, groups: nat -> Role)
    requires Init(s) && IsRun(s, run, groups)
    requires s.pcs != map[] && forall p | p in After(s, run, groups).pcs :: After(s, run, groups).pcs[p].Finished?
    ensures var e := After(s, run, groups);
      && e.link.Some?
      && e.link.value.tenant in e.tenants
      && (forall t | t in e.tenants :: e.tenants[t].active <==> t == e.link.value.tenant || t in e.stranded)
      && (forall t | t in e.tenants :: e.tenants[t].owner == if t == e.link.value.tenant then Some(e.link.value.user) else None)
      && (forall p | p in e.pcs :: e.pcs[p] == Finished(e.link.value))
      && (OneLive(e) <==> e.stranded == {})
  {
    RunInv(s, run, groups);
    Settled(After(s, run, groups));
  }

  /** Exactly one of the tenants built is live. */
  ghost predicate OneLive(e: State) {
    exists t | t in e.tenants && e.tenants[t].active :: forall t' | t' in e.tenants && e.tenants[t'].active :: t' == t
  }

  lemma Settled(e: State)
    requires Inv(e) && e.pcs != map[] && forall p | p in e.pcs :: e.pcs[p].Finished?
    ensures e.link.Some? && e.link.value.tenant in e.tenants
    ensures forall t | t in e.tenants :: e.tenants[t].active <==> t == e.link.value.tenant || t in e.stranded
    ensures forall t | t in e.tenants :: e.tenants[t].owner == if t == e.link.value.tenant then Some(e.link.value.user) else None
    ensures forall p | p in e.pcs :: e.pcs[p] == Finished(e.link.value)
    ensures OneLive(e) <==> e.stranded == {}
  {
    var p :| p in e.pcs;
    assert PcOk(e, p);
    forall q | q in e.pcs ensures e.pcs[q] == Finished(e.link.value) {
      assert PcOk(e, q);
    }
    forall t | t in e.tenants
      ensures e.tenants[t].active <==> t == e.link.value.tenant || t in e.stranded
      ensures e.tenants[t].owner == if t == e.link.value.tenant then Some(e.link.value.user) else None
    {
      assert TenantOk(e, t);
      assert t in e.stranded ==> Stranded(e, t);
    }
    forall t | t in e.stranded ensures Stranded(e, t) {
    }
    var mine := e.link.value.tenant;
    assert mine in e.tenants && e.tenants[mine].active;
  }

  /** When every callback has stopped, finished or dead, a live tenant is the subject's own,
      one whose discard failed, or one whose builder died; the first two kinds are live. */
  lemma LiveWhenStopped(s: State, run: seq<Action>, groups: nat -> Role, t: string)
    requires Init(s) && IsRun(s, run, groups) && t in After(s, run, groups).tenants
    requires forall p | p in After(s, run, groups).pcs :: After(s, run, groups).pcs[p].Finished? || After(s, run, groups).pcs[p].Crashed?
    ensures var e := After(s, run, groups);
      var mine := e.link.Some? && e.link.value.tenant == t;
      && e.tenants[t].creator in e.pcs
      && (e.tenants[t].active ==> mine || t in e.stranded || e.pcs[e.tenants[t].creator] == Crashed)
      && (mine || t in e.stranded ==> e.tenants[t].active)
  {
    RunInv(s, run, groups);
    var e := After(s, run, groups);
    assert TenantOk(e, t);
    assert t in e.stranded ==> Stranded(e, t);
  }

  // ---------- the owner's role ----------

  /** The linked user holds the owner role in every state the run passes through. */
  predicate OwnerThroughout(s: State, run: seq<Action>, groups: nat -> Role)
    requires IsRun(s, run, groups)
    decreases |run|
  {
    && OwnerIntact(s)
    && (run != [] ==> OwnerThroughout(Step(s, run[0], groups), run[1..], groups))
  }

  /** As long as nobody has checked ownership too early, every user is an owner and no
      callback is about to write anything else. */
  predicate Owners(s: State) {
    && (forall u | u in s.users :: s.users[u].role == Owner)
    && (forall p | p in s.pcs :: (s.pcs[p].CheckOwnership? || s.pcs[p].SaveUser?) ==> s.pcs[p].role == Owner)
  }

  lemma {:induction false} NoEarlyCheckKeepsOwner(s: State, run: seq<Action>, groups: nat -> Role)
    requires Inv(s) && Owners(s) && IsRun(s, run, groups)
    requires After(s, run, groups).early == {}
    ensures OwnerThroughout(s, run, groups)
    decreases |run|
  {
    if run != [] {
      var s' := Step(s, run[0], groups);
      EarlyGrows(s', run[1..], groups);
      StepKeepsInv(s, run[0], groups);
      OwnersStep(s, run[0], groups);
      NoEarlyCheckKeepsOwner(s', run[1..], groups);
    }
  }

  lemma OwnersStep(s: State, a: Action, groups: nat -> Role)
    requires Owners(s) && Enabled(s, a) && Step(s, a, groups).early == {}
    ensures Owners(Step(s, a, groups))
  {
    OthersStay(s, a, groups);
    OwnersWritten(s, a, groups);
  }

  /** What one operation writes, or is about to, is the owner role. */
  lemma OwnersWritten(s: State, a: Action, groups: nat -> Role)
    requires Owners(s) && Enabled(s, a) && Step(s, a, groups).early == {}
    ensures var s' := Step(s, a, groups);
      && ((s'.pcs[a.p].CheckOwnership? || s'.pcs[a.p].SaveUser?) ==> s'.pcs[a.p].role == Owner)
      && forall u | u in s'.users :: s'.users[u].role == Owner
  {
    if a.Run? && (s.pcs[a.p].SaveUser? || s.pcs[a.p].CreateUser?) {
      assert forall u | u in s.users :: s.users[u].role == Owner;
    } else {
      assert Step(s, a, groups).users == s.users;
    }
  }

  lemma {:induction false} EarlyGrows(s: State, run: seq<Action>, groups: nat -> Role)
    requires IsRun(s, run, groups)
    ensures s.early <= After(s, run, groups).early
    decreases |run|
  {
    if run != [] {
      EarlyGrows(Step(s, run[0], groups), run[1..], groups);
    }
  }

  /** Callbacks that checked early and have not yet written. */
  predicate Pending(s: State) {
    forall p | p in s.early :: p in s.pcs && (s.pcs[p].Crashed? || (s.pcs[p].SaveUser? && s.pcs[p].role != Owner))
  }

  /** While the owner's role has been intact, a callback that is about to check ownership
      has read Owner, and its groups name something else. */
  predicate ReadOwner(s: State, groups: nat -> Role) {
    forall p | p in s.pcs && s.pcs[p].CheckOwnership? :: s.pcs[p].role == Owner && groups(p) != Owner
  }

  predicate OwnerIntact(s: State) {
    s.link.Some? ==> s.link.value.user in s.users && s.users[s.link.value.user].role == Owner
  }

  lemma PendingStep(s: State, a: Action, groups: nat -> Role)
    requires Inv(s) && ReadOwner(s, groups) && Pending(s) && Enabled(s, a)
    requires OwnerIntact(s) && OwnerIntact(Step(s, a, groups))
    ensures ReadOwner(Step(s, a, groups), groups) && Pending(Step(s, a, groups))
  {
    assert PcOk(s, a.p);
    var s' := Step(s, a, groups);
    OthersStay(s, a, groups);
    EarlyOnlyMover(s, a, groups);
    forall p | p in s'.pcs && s'.pcs[p].CheckOwnership? ensures s'.pcs[p].role == Owner && groups(p) != Owner {
      if p == a.p {
        ChecksAfterReading(s, a, groups);
      }
    }
    forall p | p in s'.early ensures p in s'.pcs && (s'.pcs[p].Crashed? || (s'.pcs[p].SaveUser? && s'.pcs[p].role != Owner)) {
      if p == a.p {
        EarlyIsPending(s, a, groups);
      }
    }
  }

  lemma OthersStay(s: State, a: Action, groups: nat -> Role)
    requires Enabled(s, a)
    ensures var s' := Step(s, a, groups);
      s'.pcs.Keys == s.pcs.Keys && forall p | p in s.pcs && p != a.p :: s'.pcs[p] == s.pcs[p]
  {
  }

  lemma EarlyOnlyMover(s: State, a: Action, groups: nat -> Role)
    requires Enabled(s, a)
    ensures Step(s, a, groups).early == s.early || Step(s, a, groups).early == s.early + {a.p}
  {
  }

  lemma ChecksAfterReading(s: State, a: Action, groups: nat -> Role)
    requires Enabled(s, a) && PcOk(s, a.p) && OwnerIntact(s) && Step(s, a, groups).pcs[a.p].CheckOwnership?
    ensures Step(s, a, groups).pcs[a.p].role == Owner && groups(a.p) != Owner
  {
  }

  lemma EarlyIsPending(s: State, a: Action, groups: nat -> Role)
    requires Enabled(s, a) && PcOk(s, a.p) && ReadOwner(s, groups) && OwnerIntact(Step(s, a, groups))
    requires a.p in Step(s, a, groups).early
    requires a.p in s.early ==> s.pcs[a.p].Crashed? || (s.pcs[a.p].SaveUser? && s.pcs[a.p].role != Owner)
    ensures var pc := Step(s, a, groups).pcs[a.p]; pc.Crashed? || (pc.SaveUser? && pc.role != Owner)
  {
  }

  lemma {:induction false} EarlyCheckDemotes(s: State, run: seq<Action>, groups: nat -> Role)
    requires Inv(s) && ReadOwner(s, groups) && Pending(s) && IsRun(s, run, groups)
    requires OwnerThroughout(s, run, groups)
    ensures Pending(After(s, run, groups))
    decreases |run|
  {
    if run != [] {
      StepKeepsInv(s, run[0], groups);
      PendingStep(s, run[0], groups);
      EarlyCheckDemotes(Step(s, run[0], groups), run[1..], groups);
    }
  }

  /** The promise that a tenant's own owner is never demoted by an identity-provider group
      holds in the race exactly when no callback whose groups name another role looks for
      the owner of record between the claim and the write that records the owner. */
  lemma OwnerRoleKeptIff(s: State, run: seq<Action>, groups: nat -> Role)
    requires Init(s) && IsRun(s, run, groups)
    requires forall p | p in After(s, run, groups).pcs :: After(s, run, groups).pcs[p].Finished?
    ensures OwnerThroughout(s, run, groups) <==> After(s, run, groups).early == {}
  {
    RunInv(s, run, groups);
    if OwnerThroughout(s, run, groups) {
      EarlyCheckDemotes(s, run, groups);
    }
    if After(s, run, groups).early == {} {
      NoEarlyCheckKeepsOwner(s, run, groups);
    }
  }

  /** The only moment a check can be too early: the subject is claimed, and the callback
      that claimed it has not recorded the owner (or died before it could). */
  lemma EarlyMeansUnrecorded(s: State, a: Action, groups: nat -> Role)
    requires Inv(s) && Enabled(s, a) && Step(s, a, groups).early != s.early
    ensures s.link.Some? && s.tenants[s.link.value.tenant].owner.None?
    ensures var pc := s.pcs[s.tenants[s.link.value.tenant].creator]; pc.ReadWinner? || pc.RecordOwner? || pc.Crashed?
  {
    assert PcOk(s, a.p);
    assert TenantOk(s, s.link.value.tenant);
  }

  // ---------- which callbacks are safe together ----------

  /** However the callbacks interleave, the linked user keeps the owner role. */
  ghost predicate OwnerSafe(s: State, groups: nat -> Role) {
    forall run | IsRun(s, run, groups) :: OwnerThroughout(s, run, groups)
  }

  /** That is so exactly for a single callback, and for callbacks whose groups all say owner. */
  lemma OwnerSafeIff(s: State, groups: nat -> Role)
    requires Init(s)
    ensures OwnerSafe(s, groups) <==> |s.pcs| <= 1 || forall p | p in s.pcs :: groups(p) == Owner
  {
    if |s.pcs| <= 1 {
      forall run | IsRun(s, run, groups) ensures OwnerThroughout(s, run, groups) {
        AloneNeverEarly(s, run, groups);
        NoEarlyCheckKeepsOwner(s, run, groups);
      }
    } else if p :| p in s.pcs && groups(p) != Owner {
      assert |s.pcs.Keys - {p}| == |s.pcs.Keys| - 1 > 0;
      var q :| q in s.pcs.Keys - {p};
      var run := OwnerCanBeDemoted(s, p, q, groups);
      LostAtTheEnd(s, run, groups);
    } else {
      forall run | IsRun(s, run, groups) ensures OwnerThroughout(s, run, groups) {
        OwnersNeverEarly(s, run, groups);
        NoEarlyCheckKeepsOwner(s, run, groups);
      }
    }
  }

  /** A single callback never finds the subject linked, except by itself. */
  predicate Alone(s: State) {
    && (forall p, q | p in s.pcs && q in s.pcs :: p == q)
    && (forall p | p in s.pcs :: !s.pcs[p].GetLinkedUser? && !s.pcs[p].CheckOwnership? && !s.pcs[p].SaveUser?)
    && (s.link.Some? ==> forall p | p in s.pcs :: !s.pcs[p].GetIdentity?)
    && s.early == {}
  }

  lemma {:induction false} AloneRun(s: State, run: seq<Action>, groups: nat -> Role)
    requires Alone(s) && IsRun(s, run, groups)
    ensures After(s, run, groups).early == {}
    decreases |run|
  {
    if run != [] {
      AloneStep(s, run[0], groups);
      AloneRun(Step(s, run[0], groups), run[1..], groups);
    }
  }

  lemma AloneStep(s: State, a: Action, groups: nat -> Role)
    requires Alone(s) && Enabled(s, a)
    ensures Alone(Step(s, a, groups))
  {
    assert forall p | p in s.pcs :: p == a.p;
  }

  lemma AloneNeverEarly(s: State, run: seq<Action>, groups: nat -> Role)
    requires Init(s) && |s.pcs| <= 1 && IsRun(s, run, groups)
    ensures After(s, run, groups).early == {}
  {
    forall p, q | p in s.pcs && q in s.pcs ensures p == q {
      var rest := s.pcs.Keys - {p};
      assert |s.pcs.Keys| == |s.pcs| && |rest| == 0;
      assert q !in rest;
    }
    AloneRun(s, run, groups);
  }

  /** Where all groups say owner, nobody's role ever differs from its groups'. */
  predicate NoChecks(s: State) {
    Owners(s) && s.early == {} && forall p | p in s.pcs :: !s.pcs[p].CheckOwnership?
  }

  lemma NoChecksStep(s: State, a: Action, groups: nat -> Role)
    requires Inv(s) && NoChecks(s) && Enabled(s, a) && forall p | p in s.pcs :: groups(p) == Owner
    ensures NoChecks(Step(s, a, groups))
  {
    OwnersStep(s, a, groups);
  }

  lemma {:induction false} OwnersNeverEarly(s: State, run: seq<Action>, groups: nat -> Role)
    requires Inv(s) && NoChecks(s) && IsRun(s, run, groups) && forall p | p in s.pcs :: groups(p) == Owner
    ensures After(s, run, groups).early == {}
    decreases |run|
  {
    if run != [] {
      StepKeepsInv(s, run[0], groups);
      NoChecksStep(s, run[0], groups);
      SameCallbacks(s, run[0], groups);
      OwnersNeverEarly(Step(s, run[0], groups), run[1..], groups);
    }
  }

  lemma {:induction false} LostAtTheEnd(s: State, run: seq<Action>, groups: nat -> Role)
    requires IsRun(s, run, groups) && !OwnerIntact(After(s, run, groups))
    ensures !OwnerThroughout(s, run, groups)
    decreases |run|
  {
    if run != [] {
      LostAtTheEnd(Step(s, run[0], groups), run[1..], groups);
    }
  }

  lemma Prepend(s: State, a: Action, run: seq<Action>, groups: nat -> Role)
    requires Enabled(s, a) && IsRun(Step(s, a, groups), run, groups)
    ensures IsRun(s, [a] + run, groups) && After(s, [a] + run, groups) == After(Step(s, a, groups), run, groups)
  {
    assert ([a] + run)[1..] == run;
  }

  /** The person is the owner of record of a live tenant and holds another role in it. */
  predicate Demoted(e: State, role: Role) {
    && e.link == Some(Link("u", "t")) && "u" in e.users && e.users["u"].role == role
    && "t" in e.tenants && e.tenants["t"].owner == Some("u") && e.tenants["t"].active
  }

  /** The promise does fail, for any two callbacks of which one's groups say something
      other than owner: its ownership check falls between the other's claim and owner
      write, and the person is left with that role in the tenant they own. */
  lemma OwnerCanBeDemoted(s: State, p: nat, q: nat, groups: nat -> Role) returns (run: seq<Action>)
    requires Init(s) && p in s.pcs && q in s.pcs && p != q && groups(p) != Owner
    ensures IsRun(s, run, groups) && Demoted(After(s, run, groups), groups(p))
  {
    var a0, a1, a2, a3 := Run(q, "", true, false), Run(q, "t", true, false), Run(q, "u", true, false), Run(q, "", true, false);
    var s1 := Step(s, a0, groups);
    assert s1.pcs[q] == CreateTenant && s1.pcs[p] == GetIdentity;
    var s2 := Step(s1, a1, groups);
    assert s2.pcs[q] == CreateUser("t") && s2.pcs[p] == GetIdentity && s2.tenants["t"] == Tenant(None, true, q);
    var s3 := Step(s2, a2, groups);
    assert s3.pcs[q] == ClaimIdentity("t", "u") && s3.pcs[p] == GetIdentity && s3.users["u"] == User("t", Owner);
    var s4 := Step(s3, a3, groups);
    run := CheckedTooEarly(s4, p, q, groups);
    Prepend(s3, a3, run, groups);
    run := [a3] + run;
    Prepend(s2, a2, run, groups);
    run := [a2] + run;
    Prepend(s1, a1, run, groups);
    run := [a1] + run;
    Prepend(s, a0, run, groups);
    run := [a0] + run;
  }

  /** The subject is claimed and its owner not yet recorded. */
  predicate Claimed(s: State, q: nat) {
    && q in s.pcs && s.pcs[q] == RecordOwner("t", "u") && s.link == Some(Link("u", "t"))
    && "t" in s.tenants && s.tenants["t"].owner == None && "u" in s.users && s.users["u"].tenant == "t"
  }

  lemma CheckedTooEarly(s: State, p: nat, q: nat, groups: nat -> Role) returns (run: seq<Action>)
    requires Claimed(s, q) && p in s.pcs && p != q && s.pcs[p] == GetIdentity
    requires s.users["u"].role == Owner && groups(p) != Owner
    ensures IsRun(s, run, groups) && Demoted(After(s, run, groups), groups(p))
  {
    var a := Run(p, "", false, false);
    var s1 := Step(s, a, groups);
    assert Claimed(s1, q) && s1.pcs[p] == GetLinkedUser(Link("u", "t"));
    var s2 := Step(s1, a, groups);
    assert Claimed(s2, q) && s2.pcs[p] == CheckOwnership(Link("u", "t"), Owner, false);
    var s3 := Step(s2, a, groups);
    assert Claimed(s3, q) && s3.pcs[p] == SaveUser(Link("u", "t"), groups(p));
    run := WrittenTooLate(s3, p, q, groups);
    Prepend(s2, a, run, groups);
    run := [a] + run;
    Prepend(s1, a, run, groups);
    run := [a] + run;
    Prepend(s, a, run, groups);
    run := [a] + run;
  }

  lemma WrittenTooLate(s: State, p: nat, q: nat, groups: nat -> Role) returns (run: seq<Action>)
    requires Claimed(s, q) && p in s.pcs && p != q && s.pcs[p] == SaveUser(Link("u", "t"), groups(p))
    ensures IsRun(s, run, groups) && Demoted(After(s, run, groups), groups(p))
  {
    var a, b := Run(p, "", false, false), Run(q, "", false, false);
    var s1 := Step(s, a, groups);
    assert Claimed(s1, q) && s1.users["u"].role == groups(p);
    var s2 := Step(s1, b, groups);
    assert Demoted(s2, groups(p));
    Prepend(s1, b, [], groups);
    Prepend(s, a, [b] + [], groups);
    run := [a] + ([b] + []);
  }

  // ---------- runs that leave two tenants live ----------

  /** Callback `p`, about to create its tenant, runs to its end undisturbed. */
  lemma FinishFirst(s: State, p: nat, groups: nat -> Role) returns (run: seq<Action>)
    requires p in s.pcs && s.pcs[p] == CreateTenant && s.link.None? && "t" !in s.tenants && "u" !in s.users
    ensures IsRun(s, run, groups)
    ensures After(s, run, groups) == State(s.tenants["t" := Tenant(Some("u"), true, p)], s.users["u" := User("t", Owner)],
                                           Some(Link("u", "t")), s.pcs[p := Finished(Link("u", "t"))], s.early, s.stranded)
  {
    var a1, a2, a3 := Run(p, "t", true, false), Run(p, "u", true, false), Run(p, "", true, false);
    var s1, s2, s3 := ClaimFirst(s, p, groups);
    run := FinishClaimed(s3, p, groups);
    Prepend(s2, a3, run, groups);
    run := [a3] + run;
    Prepend(s1, a2, run, groups);
    run := [a2] + run;
    Prepend(s, a1, run, groups);
    run := [a1] + run;
    assert s3.tenants["t" := Tenant(Some("u"), true, p)] == s.tenants["t" := Tenant(Some("u"), true, p)];
    assert s3.pcs[p := Finished(Link("u", "t"))] == s.pcs[p := Finished(Link("u", "t"))];
  }

  lemma ClaimFirst(s: State, p: nat, groups: nat -> Role) returns (s1: State, s2: State, s3: State)
    requires p in s.pcs && s.pcs[p] == CreateTenant && s.link.None? && "t" !in s.tenants && "u" !in s.users
    ensures Enabled(s, Run(p, "t", true, false)) && s1 == Step(s, Run(p, "t", true, false), groups)
    ensures Enabled(s1, Run(p, "u", true, false)) && s2 == Step(s1, Run(p, "u", true, false), groups)
    ensures Enabled(s2, Run(p, "", true, false)) && s3 == Step(s2, Run(p, "", true, false), groups)
    ensures s3 == State(s.tenants["t" := Tenant(None, true, p)], s.users["u" := User("t", Owner)],
                        Some(Link("u", "t")), s.pcs[p := RecordOwner("t", "u")], s.early, s.stranded)
  {
    s1 := Step(s, Run(p, "t", true, false), groups);
    assert s1.pcs == s.pcs[p := CreateUser("t")];
    s2 := Step(s1, Run(p, "u", true, false), groups);
    assert s2.pcs == s.pcs[p := ClaimIdentity("t", "u")];
    s3 := Step(s2, Run(p, "", true, false), groups);
    assert s3.pcs == s.pcs[p := RecordOwner("t", "u")];
  }

  lemma FinishClaimed(s: State, p: nat, groups: nat -> Role) returns (run: seq<Action>)
    requires p in s.pcs && s.pcs[p] == RecordOwner("t", "u") && s.link == Some(Link("u", "t")) && "t" in s.tenants
    ensures IsRun(s, run, groups)
    ensures After(s, run, groups) == s.(tenants := s.tenants["t" := s.tenants["t"].(owner := Some("u"), active := true)],
                                        pcs := s.pcs[p := Finished(Link("u", "t"))])
  {
    var a := Run(p, "", false, false);
    var s1 := Step(s, a, groups);
    run := FinishLinked(s1, p, Link("u", "t"), groups);
    Prepend(s, a, run, groups);
    run := [a] + run;
    assert s1.pcs[p := Finished(Link("u", "t"))] == s.pcs[p := Finished(Link("u", "t"))];
  }

  lemma FinishLinked(s: State, p: nat, w: Link, groups: nat -> Role) returns (run: seq<Action>)
    requires p in s.pcs && s.pcs[p] == LinkIdentity(w) && s.link == Some(w)
    ensures IsRun(s, run, groups) && After(s, run, groups) == s.(pcs := s.pcs[p := Finished(w)])
  {
    var a := Run(p, "", false, false);
    var s1 := Step(s, a, groups);
    var s2 := Step(s1, a, groups);
    assert s2.pcs == s.pcs[p := Finished(w)];
    Prepend(s1, a, [], groups);
    Prepend(s, a, [a] + [], groups);
    run := [a] + ([a] + []);
  }

  /** Two live tenants at the end: "t", the subject's, and "t2". */
  predicate TwoLive(e: State) {
    && e.link == Some(Link("u", "t")) && "t" in e.tenants && e.tenants["t"].active
    && "t2" in e.tenants && e.tenants["t2"].active
  }

  /** A callback that dies after it created its tenant leaves it live beside the subject's,
      without any failed discard. */
  lemma CrashLeavesTwo(s: State, p: nat, q: nat, groups: nat -> Role) returns (run: seq<Action>)
    requires Init(s) && s.pcs.Keys == {p, q} && p != q
    ensures IsRun(s, run, groups)
    ensures var e := After(s, run, groups);
      TwoLive(e) && e.stranded == {} && e.pcs == map[p := Finished(Link("u", "t")), q := Crashed]
  {
    var a0, a1 := Run(q, "", false, false), Run(q, "t2", false, false);
    var s1 := Step(s, a0, groups);
    var s2 := Step(s1, a1, groups);
    assert s2.tenants == map["t2" := Tenant(None, true, q)] && s2.pcs[p] == GetIdentity;
    run := DieThenFinish(s2, p, q, groups);
    Prepend(s1, a1, run, groups);
    run := [a1] + run;
    Prepend(s, a0, run, groups);
    run := [a0] + run;
  }

  lemma DieThenFinish(s: State, p: nat, q: nat, groups: nat -> Role) returns (run: seq<Action>)
    requires s.pcs == map[p := GetIdentity, q := CreateUser("t2")] && p != q && s.link.None? && s.users == map[]
    requires s.tenants == map["t2" := Tenant(None, true, q)] && s.stranded == {}
    ensures IsRun(s, run, groups)
    ensures var e := After(s, run, groups);
      TwoLive(e) && e.stranded == {} && e.pcs == map[p := Finished(Link("u", "t")), q := Crashed]
  {
    var die, a := Crash(q), Run(p, "", false, false);
    var s1 := Step(s, die, groups);
    var s2 := Step(s1, a, groups);
    assert s2.pcs == map[p := CreateTenant, q := Crashed];
    run := FinishFirst(s2, p, groups);
    Prepend(s1, a, run, groups);
    run := [a] + run;
    Prepend(s, die, run, groups);
    run := [die] + run;
    assert s2.pcs[p := Finished(Link("u", "t"))] == map[p := Finished(Link("u", "t")), q := Crashed];
  }

  /** And so does a failed discard, with every callback finished. */
  lemma FailedDiscardLeavesTwo(s: State, p: nat, q: nat, groups: nat -> Role) returns (run: seq<Action>)
    requires Init(s) && s.pcs.Keys == {p, q} && p != q
    ensures IsRun(s, run, groups)
    ensures var e := After(s, run, groups);
      TwoLive(e) && e.stranded == {"t2"} && forall r | r in e.pcs :: e.pcs[r] == Finished(Link("u", "t"))
  {
    var a0, a1 := Run(q, "", false, false), Run(p, "", false, false);
    var s1 := Step(s, a0, groups);
    var s2 := Step(s1, a1, groups);
    assert s2.pcs == map[p := CreateTenant, q := CreateTenant];
    var first := FinishFirst(s2, p, groups);
    var s3 := After(s2, first, groups);
    assert s3.pcs[q] == CreateTenant && s3.tenants.Keys == {"t"} && s3.users.Keys == {"u"};
    var second := LoseAndStrand(s3, q, groups);
    Join(s2, first, second, groups);
    run := first + second;
    Prepend(s1, a1, run, groups);
    run := [a1] + run;
    Prepend(s, a0, run, groups);
    run := [a0] + run;
  }

  lemma {:induction false} Join(s: State, run: seq<Action>, rest: seq<Action>, groups: nat -> Role)
    requires IsRun(s, run, groups) && IsRun(After(s, run, groups), rest, groups)
    ensures IsRun(s, run + rest, groups) && After(s, run + rest, groups) == After(After(s, run, groups), rest, groups)
    decreases |run|
  {
    if run == [] {
      assert run + rest == rest;
    } else {
      assert (run + rest)[1..] == run[1..] + rest;
      Join(Step(s, run[0], groups), run[1..], rest, groups);
    }
  }

  /** The loser builds its tenant, finds the subject taken and cannot discard it. */
  lemma LoseAndStrand(s: State, q: nat, groups: nat -> Role) returns (run: seq<Action>)
    requires q in s.pcs && s.pcs[q] == CreateTenant && s.link == Some(Link("u", "t"))
    requires s.tenants.Keys == {"t"} && s.users.Keys == {"u"} && s.users["u"].tenant == "t"
    ensures IsRun(s, run, groups)
    ensures var e := After(s, run, groups);
      && e.link == s.link && e.stranded == s.stranded + {"t2"} && e.pcs == s.pcs[q := Finished(Link("u", "t"))]
      && e.tenants == s.tenants["t2" := Tenant(None, true, q)]
  {
    var a1, a2, a3 := Run(q, "t2", false, false), Run(q, "u2", false, false), Run(q, "", false, true);
    var s1 := Step(s, a1, groups);
    var s2 := Step(s1, a2, groups);
    assert s2.pcs == s.pcs[q := ClaimIdentity("t2", "u2")] && s2.users["u"] == s.users["u"];
    var s3 := Step(s2, a3, groups);
    assert s3.pcs == s.pcs[q := ReadWinner("t2", "u2")];
    run := StrandAndAdopt(s3, q, groups);
    Prepend(s2, a3, run, groups);
    run := [a3] + run;
    Prepend(s1, a2, run, groups);
    run := [a2] + run;
    Prepend(s, a1, run, groups);
    run := [a1] + run;
    assert s3.pcs[q := Finished(Link("u", "t"))] == s.pcs[q := Finished(Link("u", "t"))];
  }

  lemma StrandAndAdopt(s: State, q: nat, groups: nat -> Role) returns (run: seq<Action>)
    requires q in s.pcs && s.pcs[q] == ReadWinner("t2", "u2") && s.link == Some(Link("u", "t"))
    requires "t2" in s.tenants && "u" in s.users && s.users["u"].tenant == "t"
    ensures IsRun(s, run, groups)
    ensures After(s, run, groups) == s.(stranded := s.stranded + {"t2"}, pcs := s.pcs[q := Finished(Link("u", "t"))])
  {
    var a, w := Run(q, "", false, true), Link("u", "t");
    var s1 := Step(s, a, groups);
    assert s1.pcs[q] == DiscardTenant("t2", w);
    var s2 := Step(s1, a, groups);
    assert s2.pcs[q] == GetWinner(w) && s2.stranded == s.stranded + {"t2"};
    var s3 := Step(s2, a, groups);
    run := FinishLinked(s3, q, w, groups);
    Prepend(s2, a, run, groups);
    run := [a] + run;
    Prepend(s1, a, run, groups);
    run := [a] + run;
    Prepend(s, a, run, groups);
    run := [a] + run;
    assert s3.pcs[q := Finished(w)] == s.pcs[q := Finished(w)];
  }
}
