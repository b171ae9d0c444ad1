/** Every first sign-in comes to an end: no callback dies of what the others did, each is
    done after nine operations of its own, and from anywhere it can be run to a session. */
module SignInEnds {
  import opened Options
  import opened SignInRace

  /** How many operations a callback has before it, at most. */
  function Left(pc: Pc): nat {
    match pc
    case GetIdentity => 9
    case CreateTenant => 8
    case CreateUser(_) => 7
    case ClaimIdentity(_, _) => 6
    case ReadWinner(_, _) => 5
    case DiscardTenant(_, _) => 4
    case GetWinner(_) => 3
    case RecordOwner(_, _) => 3
    case GetLinkedUser(_) => 5
    case CheckOwnership(_, _, _) => 4
    case SaveUser(_, _) => 3
    case LinkIdentity(_) => 2
    case IssueSession(_) => 1
    case Finished(_) => 0
    case Crashed => 0
  }

  /** The subject's user is there, in the subject's tenant. */
  predicate LinkStands(s: State) {
    s.link.Some? ==> s.link.value.user in s.users && s.users[s.link.value.user].tenant == s.link.value.tenant
  }

  lemma Advances(s: State, a: Action, groups: nat -> Role)
    requires PcOkAt(s, a) && LinkStands(s)
    ensures var pc' := Step(s, a, groups).pcs[a.p]; pc' != Crashed && Left(pc') < Left(s.pcs[a.p])
  {
    var pc := s.pcs[a.p];
    var s' := Step(s, a, groups);
    if pc.GetLinkedUser? || pc.GetWinner? {
      assert s.link == Some(pc.w);
    } else if pc.ReadWinner? || pc.RecordOwner? {
      assert s.link.Some?;
    }
  }

  /** An operation never kills its callback, and brings it closer to its end. */
  lemma Progress(s: State, a: Action, groups: nat -> Role)
    requires Inv(s) && Enabled(s, a) && a.Run?
    ensures var pc' := Step(s, a, groups).pcs[a.p]; pc' != Crashed && Left(pc') < Left(s.pcs[a.p])
  {
    assert PcOk(s, a.p);
    Advances(s, a, groups);
  }

  /** The operations of a callback in a run. */
  function Operations(run: seq<Action>, p: nat): nat {
    if run == [] then 0 else (if run[0].p == p && run[0].Run? then 1 else 0) + Operations(run[1..], p)
  }

  /** Only a crash of its own kills a callback. */
  predicate Spared(run: seq<Action>, p: nat) {
    forall i | 0 <= i < |run| :: run[i] != Crash(p)
  }

  /** What one step of the race does to callback `p`. */
  lemma StepCounts(s: State, a: Action, groups: nat -> Role, p: nat)
    requires Inv(s) && Enabled(s, a) && p in s.pcs
    ensures p in Step(s, a, groups).pcs
    ensures var pc, pc' := s.pcs[p], Step(s, a, groups).pcs[p];
      && Operations([a], p) + Left(pc') <= Left(pc)
      && (a != Crash(p) && pc != Crashed ==> pc' != Crashed)
  {
    OthersStay(s, a, groups);
    if a.p == p && a.Run? {
      Progress(s, a, groups);
    }
  }

  /** Whatever the others do meanwhile, a callback has at most nine operations of its own, and
      one that no crash struck is alive after them. */
  lemma {:induction false} DoneWithinNine(s: State, run: seq<Action>, groups: nat -> Role, p: nat)
    requires Inv(s) && IsRun(s, run, groups) && p in s.pcs
    ensures p in After(s, run, groups).pcs
    ensures Operations(run, p) + Left(After(s, run, groups).pcs[p]) <= Left(s.pcs[p]) <= 9
    ensures Spared(run, p) && s.pcs[p] != Crashed ==> After(s, run, groups).pcs[p] != Crashed
    decreases |run|
  {
    if run != [] {
      StepKeepsInv(s, run[0], groups);
      StepCounts(s, run[0], groups, p);
      DoneWithinNine(Step(s, run[0], groups), run[1..], groups, p);
    }
  }

  /** A name longer than all of them is none of them. */
  lemma {:induction false} SomeOther(names: set<string>) returns (x: string)
    ensures x !in names
  {
    x := "";
    ghost var left := names;
    while exists y | y in left :: |y| >= |x|
      invariant left <= names && forall y | y in names - left :: |y| < |x|
      decreases left
    {
      var y :| y in left && |y| >= |x|;
      x := y + "x";
      left := left - {y};
    }
  }

  /** The next operation of a callback that is neither done nor dead, with no fault. */
  lemma NextOperation(s: State, p: nat) returns (a: Action)
    requires p in s.pcs && !s.pcs[p].Finished? && !s.pcs[p].Crashed?
    ensures a.Run? && a.p == p && !a.fault && Enabled(s, a)
  {
    var id := SomeOther(s.tenants.Keys + s.users.Keys);
    a := Run(p, id, false, false);
  }

  /** A run of one callback alone, without crash or fault. */
  predicate OnlyBy(run: seq<Action>, p: nat) {
    forall i | 0 <= i < |run| :: run[i].Run? && run[i].p == p && !run[i].fault
  }

  /** From any state the callbacks can be in, one that has not died can be run to its end: a
      session for the subject's pair, the winner's if there is one already. */
  lemma {:induction false} CanFinish(s: State, p: nat, groups: nat -> Role) returns (run: seq<Action>)
    requires Inv(s) && p in s.pcs && s.pcs[p] != Crashed
    ensures IsRun(s, run, groups) && OnlyBy(run, p)
    ensures var e := After(s, run, groups);
      && Inv(e) && e.link.Some? && e.pcs.Keys == s.pcs.Keys && e.pcs[p] == Finished(e.link.value)
      && (s.link.Some? ==> e.link == s.link)
      && forall q | q in s.pcs && q != p :: e.pcs[q] == s.pcs[q]
    decreases Left(s.pcs[p])
  {
    if s.pcs[p].Finished? {
      assert PcOk(s, p);
      run := [];
    } else {
      var a := NextOperation(s, p);
      var s' := Step(s, a, groups);
      StepKeepsInv(s, a, groups);
      Progress(s, a, groups);
      OthersStay(s, a, groups);
      var rest := CanFinish(s', p, groups);
      Prepend(s, a, rest, groups);
      run := [a] + rest;
    }
  }

  function Unfinished(s: State): set<nat> {
    set p | p in s.pcs && !s.pcs[p].Finished? && !s.pcs[p].Crashed?
  }

  /** And so can all of them: from every state of every race the callbacks that have not
      died can all be brought to a session, each for the subject's one pair. */
  lemma {:induction false} AllCanFinish(s: State, groups: nat -> Role) returns (run: seq<Action>)
    requires Inv(s)
    ensures IsRun(s, run, groups)
    ensures var e := After(s, run, groups);
      && e.pcs.Keys == s.pcs.Keys && (s.link.Some? ==> e.link == s.link)
      && forall p | p in s.pcs :: if s.pcs[p] == Crashed then e.pcs[p] == Crashed else e.link.Some? && e.pcs[p] == Finished(e.link.value)
    decreases Unfinished(s)
  {
    if p :| p in Unfinished(s) {
      var first := CanFinish(s, p, groups);
      var s' := After(s, first, groups);
      assert Unfinished(s') < Unfinished(s) by {
        assert p !in Unfinished(s');
      }
      var rest := AllCanFinish(s', groups);
      Join(s, first, rest, groups);
      run := first + rest;
    } else {
      run := [];
      forall p | p in s.pcs ensures s.pcs[p] == Crashed || (s.link.Some? && s.pcs[p] == Finished(s.link.value)) {
        assert PcOk(s, p) && p !in Unfinished(s);
      }
    }
  }

  /** So no race gets stuck: whatever happened so far, all who are alive can still sign in,
      the losers with the winner's pair. */
  lemma EveryRaceCanEnd(s: State, run: seq<Action>, groups: nat -> Role) returns (rest: seq<Action>)
    requires Init(s) && IsRun(s, run, groups)
    ensures IsRun(s, run + rest, groups)
    ensures var now, e := After(s, run, groups), After(s, run + rest, groups);
      && e.pcs.Keys == now.pcs.Keys && (now.link.Some? ==> e.link == now.link)
      && forall p | p in now.pcs :: if now.pcs[p] == Crashed then e.pcs[p] == Crashed else e.link.Some? && e.pcs[p] == Finished(e.link.value)
  {
    RunInv(s, run, groups);
    rest := AllCanFinish(After(s, run, groups), groups);
    Join(s, run, rest, groups);
  }

  // ---------- who creates nothing ----------

  /** A callback that has not looked yet, or found the subject linked, or is past it all. */
  predicate Returning(pc: Pc) {
    pc.GetIdentity? || Linked(pc) || pc.GetWinner? || pc.IssueSession? || pc.Finished? || pc.Crashed?
  }

  predicate AllReturning(s: State) {
    s.link.Some? && forall p | p in s.pcs :: Returning(s.pcs[p])
  }

  lemma ReturningStep(s: State, a: Action, groups: nat -> Role)
    requires Inv(s) && AllReturning(s) && Enabled(s, a)
    ensures var s' := Step(s, a, groups);
      AllReturning(s') && s'.link == s.link && s'.tenants == s.tenants && s'.users.Keys == s.users.Keys
  {
    assert PcOk(s, a.p);
  }

  /** Once the subject is linked and nobody is still building, further sign-ins create neither
      a tenant nor a user, and touch no tenant. */
  lemma {:induction false} LaterSignInsCreateNothing(s: State, run: seq<Action>, groups: nat -> Role)
    requires Inv(s) && AllReturning(s) && IsRun(s, run, groups)
    ensures var e := After(s, run, groups); e.link == s.link && e.tenants == s.tenants && e.users.Keys == s.users.Keys
    decreases |run|
  {
    if run != [] {
      ReturningStep(s, run[0], groups);
      StepKeepsInv(s, run[0], groups);
      LaterSignInsCreateNothing(Step(s, run[0], groups), run[1..], groups);
    }
  }

  /** No operation of the run could read a tenant. */
  predicate Blind(run: seq<Action>) {
    forall i | 0 <= i < |run| :: run[i].Run? ==> run[i].fault
  }

  /** A tenant that cannot be read counts as owned: where none can be, nobody's role changes. */
  lemma {:induction false} BlindKeepsRoles(s: State, run: seq<Action>, groups: nat -> Role, u: string)
    requires Init(s) && IsRun(s, run, groups) && Blind(run)
    ensures var e := After(s, run, groups); u in e.users ==> e.users[u].role == Owner
  {
    BlindFrom(s, run, groups, u);
  }

  lemma {:induction false} BlindFrom(s: State, run: seq<Action>, groups: nat -> Role, u: string)
    requires Owners(s) && IsRun(s, run, groups) && Blind(run)
    ensures var e := After(s, run, groups); u in e.users ==> e.users[u].role == Owner
    decreases |run|
  {
    if run != [] {
      BlindStep(s, run[0], groups);
      BlindFrom(Step(s, run[0], groups), run[1..], groups, u);
    }
  }

  lemma BlindStep(s: State, a: Action, groups: nat -> Role)
    requires Owners(s) && Enabled(s, a) && (a.Run? ==> a.fault)
    ensures Owners(Step(s, a, groups))
  {
  }
}
