/** Any number of POSTs, on any replicas, interleaved one store operation at a time. */
module CommandRuns {
  import opened Options
  import opened Clock
  import opened CommandJobs

  datatype System = System(posts: map<nat, Post>, store: Store, clock: int)

  /** POST `p` takes its next step at `at`; `fault` is a store error, `outcome` what a run
      that ends now came to. */
  datatype Event = Event(p: nat, at: int, fault: bool, outcome: Outcome)

  /** The clock does not run backwards; a won claim is sent within `lag`; the run's context
      ends it within the write budget. */
  predicate Legal(s: System, e: Event, lag: int) {
    && e.p in s.posts
    && s.clock <= e.at
    && (s.posts[e.p].phase.Holding? ==> e.at <= s.posts[e.p].phase.stored + lag)
    && (s.posts[e.p].phase.Running? ==> e.at <= s.posts[e.p].phase.started + WRITE_BUDGET)
  }

  function Step(s: System, e: Event): System
    requires e.p in s.posts
  {
    var next := Advance(s.store, s.posts[e.p], e.at, e.fault, e.outcome);
    System(s.posts[e.p := s.posts[e.p].(phase := next.1)], next.0, e.at)
  }

  /** Nothing stored, every POST still to come; a generated request id is nobody else's. */
  predicate Start(s: System) {
    && s.store == map[]
    && (forall p | p in s.posts :: s.posts[p].phase == Arrived)
    && IdsDiffer(s.posts)
  }

  predicate IdsDiffer(posts: map<nat, Post>) {
    forall p, q | p in posts && q in posts && p != q && !posts[p].explicit :: posts[p].Key() != posts[q].Key()
  }

  predicate IsRun(s: System, es: seq<Event>, lag: int)
    decreases |es|
  {
    es == [] || (Legal(s, es[0], lag) && IsRun(Step(s, es[0]), es[1..], lag))
  }

  function After(s: System, es: seq<Event>, lag: int): (r: System)
    requires IsRun(s, es, lag)
    ensures r.posts.Keys == s.posts.Keys
    decreases |es|
  {
    if es == [] then s else After(Step(s, es[0]), es[1..], lag)
  }

  // ---------- the invariant of job keys ----------

  predicate TimesOk(po: Post, clock: int, lag: int) {
    match po.phase
    case Arrived => true
    case Pointing(claimed) => claimed <= clock && !po.explicit
    case Beaten(begun) => begun <= clock
    case Directed(_, begun) => begun <= clock && !po.explicit
    case Holding(claimed, stored) => claimed <= stored <= clock && (po.explicit ==> claimed == stored)
    case Running(claimed, stored, started) =>
      claimed <= stored <= started <= clock && started <= stored + lag && (po.explicit ==> claimed == stored)
    case Finished(claimed, stored, started, ended, _, _) =>
      && claimed <= stored <= started <= ended <= clock && started <= stored + lag
      && ended <= started + WRITE_BUDGET && (po.explicit ==> claimed == stored)
    case Handed(_, begun, at) => begun <= at <= clock
    case Loose(_, begun, at) => begun <= at <= clock
    case Sent(_, begun, at, started) => begun <= at <= started <= clock
  }

  /** A holder's job is in the store, as it last wrote it, for as long as it is kept. */
  predicate SlotOk(s: System, p: nat)
    requires p in s.posts
  {
    var po := s.posts[p];
    po.Holds() && s.clock <= po.HoldUntil() ==>
      po.Key() in s.store && s.store[po.Key()] == Entry(JobValue(po.JobOf()), po.HoldUntil())
  }

  predicate Rivals(s: System, p: nat, q: nat) {
    p in s.posts && q in s.posts && p != q && s.posts[p].Holds() && s.posts[p].Key() == s.posts[q].Key()
  }

  /** What another POST for the same key came to, against a holder. */
  predicate RivalOk(s: System, p: nat, q: nat)
    requires Rivals(s, p, q)
  {
    var po, qo := s.posts[p], s.posts[q];
    && (qo.Holds() ==> qo.phase.stored > po.HoldUntil() || po.phase.stored > qo.HoldUntil())
    && ((qo.phase.Loose? || qo.phase.Sent?) && qo.phase.why == Vanished ==>
         qo.phase.at <= po.phase.stored || qo.phase.at > po.HoldUntil())
    && (qo.phase.Handed? && po.phase.stored < qo.phase.at <= po.HoldUntil() ==>
         || qo.phase.job == po.JobOf()
         || (qo.phase.job == Job(po.id, None) && (po.phase.Finished? && qo.phase.at <= po.phase.ended)))
  }

  ghost predicate HeldBefore(s: System, key: string, at: int) {
    exists p {:trigger s.posts[p]} | p in s.posts && s.posts[p].Holds() && s.posts[p].Key() == key :: s.posts[p].phase.stored <= at
  }

  /** What is stored under a job key is some holder's job, for as long as that is kept. */
  ghost predicate StoredBy(s: System, key: string)
    requires key in s.store
  {
    exists p {:trigger s.posts[p]} | p in s.posts && s.posts[p].Holds() && s.posts[p].Key() == key ::
      s.store[key] == Entry(JobValue(s.posts[p].JobOf()), s.posts[p].HoldUntil())
  }

  ghost predicate OriginOk(s: System, q: nat)
    requires q in s.posts
  {
    var qo := s.posts[q];
    qo.explicit ==>
      && (qo.Key() in s.store ==> StoredBy(s, qo.Key()))
      && (qo.phase.Beaten? ==> HeldBefore(s, qo.Key(), qo.phase.begun))
      && ((qo.phase.Loose? || qo.phase.Sent?) && qo.phase.why == Vanished ==>
           HeldBefore(s, qo.Key(), qo.phase.at - RETENTION - 1))
  }

  ghost predicate Inv(s: System, lag: int) {
    && IdsDiffer(s.posts)
    && (forall p | p in s.posts :: TimesOk(s.posts[p], s.clock, lag))
    && (forall p | p in s.posts :: SlotOk(s, p))
    && (forall p, q {:trigger Rivals(s, p, q)} | Rivals(s, p, q) :: RivalOk(s, p, q))
    && (forall q | q in s.posts :: OriginOk(s, q))
  }

  lemma TimesStep(store: Store, po: Post, at: int, fault: bool, outcome: Outcome, clock: int, lag: int)
    requires TimesOk(po, clock, lag) && clock <= at
    requires po.phase.Holding? ==> at <= po.phase.stored + lag
    requires po.phase.Running? ==> at <= po.phase.started + WRITE_BUDGET
    ensures TimesOk(po.(phase := Advance(store, po, at, fault, outcome).1), at, lag)
  {
  }

  /** What a step leaves of a key: a live entry stays, unless its own holder rewrites it. */
  lemma KeyStep(s: System, e: Event, po: Post)
    requires e.p in s.posts && s.clock <= e.at
    ensures var s', eo, key := Step(s, e), s.posts[e.p], po.Key();
      && (Taken(s.store, key, e.at) && !(eo.Key() == key && (eo.phase.Pointing? || eo.phase.Running?)) ==>
           key in s'.store && s'.store[key] == s.store[key])
      && (key in s'.store && key !in s.store ==> eo.Key() == key && s'.posts[e.p].Holds())
  {
    var eo := s.posts[e.p];
    KeysApart(po.tenant, po.bridge, po.id, eo.tenant, eo.fingerprint);
  }

  lemma SlotStep(s: System, e: Event, lag: int, p: nat)
    requires Legal(s, e, lag) && lag <= 59 * MINUTE && p in s.posts && SlotOk(s, p) && IdsDiffer(s.posts)
    requires TimesOk(s.posts[p], s.clock, lag) && TimesOk(s.posts[e.p], s.clock, lag)
    requires Rivals(s, p, e.p) ==> RivalOk(s, p, e.p)
    ensures SlotOk(Step(s, e), p)
  {
    var po, eo := s.posts[p], s.posts[e.p];
    if p != e.p && po.Holds() && e.at <= po.HoldUntil() {
      KeyStep(s, e, po);
      assert eo.Key() == po.Key() ==> Rivals(s, p, e.p) && !eo.phase.Pointing?;
    }
  }

  /** A rival of a holder moves. */
  lemma RivalMoves(s: System, e: Event, lag: int, p: nat)
    requires Legal(s, e, lag) && lag <= 59 * MINUTE && Rivals(s, p, e.p) && RivalOk(s, p, e.p) && SlotOk(s, p)
    requires TimesOk(s.posts[p], s.clock, lag) && TimesOk(s.posts[e.p], s.clock, lag) && IdsDiffer(s.posts)
    ensures Rivals(Step(s, e), p, e.p) && RivalOk(Step(s, e), p, e.p)
  {
    assert s.posts[e.p].explicit;
  }

  /** A holder, or one about to be, moves. */
  lemma HolderMoves(s: System, e: Event, lag: int, q: nat)
    requires Legal(s, e, lag) && lag <= 59 * MINUTE && Rivals(Step(s, e), e.p, q) && IdsDiffer(s.posts)
    requires TimesOk(s.posts[q], s.clock, lag) && TimesOk(s.posts[e.p], s.clock, lag)
    requires Rivals(s, e.p, q) ==> RivalOk(s, e.p, q)
    requires Rivals(s, q, e.p) ==> RivalOk(s, q, e.p) && SlotOk(s, q)
    ensures RivalOk(Step(s, e), e.p, q)
  {
    assert s.posts[e.p].explicit && s.posts[q].explicit;
    assert s.posts[e.p].Holds() ==> Rivals(s, e.p, q);
    assert s.posts[q].Holds() ==> Rivals(s, q, e.p);
  }

  lemma HeldStays(s: System, e: Event, key: string, at: int)
    requires e.p in s.posts && HeldBefore(s, key, at)
    ensures HeldBefore(Step(s, e), key, at)
  {
    var p :| p in s.posts && s.posts[p].Holds() && s.posts[p].Key() == key && s.posts[p].phase.stored <= at;
    assert Step(s, e).posts[p].Holds();
  }

  lemma StoredStays(s: System, e: Event, lag: int, q: nat)
    requires Inv(s, lag) && Legal(s, e, lag) && q in s.posts && s.posts[q].explicit
    requires s.posts[q].Key() in Step(s, e).store
    ensures StoredBy(Step(s, e), s.posts[q].Key())
  {
    var s', qo, eo, key := Step(s, e), s.posts[q], s.posts[e.p], s.posts[q].Key();
    KeysApart(qo.tenant, qo.bridge, qo.id, eo.tenant, eo.fingerprint);
    if key in s.store && s'.store[key] == s.store[key] {
      assert OriginOk(s, q);
      var p :| p in s.posts && s.posts[p].Holds() && s.posts[p].Key() == key
               && s.store[key] == Entry(JobValue(s.posts[p].JobOf()), s.posts[p].HoldUntil());
      assert s'.posts[p].Key() == key;
    } else {
      assert s'.posts[e.p].Key() == key;
    }
  }

  /** A lost claim points at an earlier holder. */
  lemma BeatenOrigin(s: System, e: Event, lag: int)
    requires Inv(s, lag) && Legal(s, e, lag) && s.posts[e.p].explicit && s.posts[e.p].phase.Arrived?
    requires Taken(s.store, s.posts[e.p].Key(), e.at)
    ensures HeldBefore(s, s.posts[e.p].Key(), e.at)
  {
    var key := s.posts[e.p].Key();
    assert OriginOk(s, e.p);
    var p :| p in s.posts && s.posts[p].Holds() && s.posts[p].Key() == key
             && s.store[key] == Entry(JobValue(s.posts[p].JobOf()), s.posts[p].HoldUntil());
    assert TimesOk(s.posts[p], s.clock, lag);
  }

  /** So does a failed lookup, at one whose job is no longer kept. */
  lemma VanishedOrigin(s: System, e: Event, lag: int)
    requires Inv(s, lag) && Legal(s, e, lag) && s.posts[e.p].explicit && s.posts[e.p].phase.Beaten?
    requires !Taken(s.store, s.posts[e.p].Key(), e.at)
    ensures HeldBefore(s, s.posts[e.p].Key(), e.at - RETENTION - 1)
  {
    var key := s.posts[e.p].Key();
    assert OriginOk(s, e.p);
    var p :| p in s.posts && s.posts[p].Holds() && s.posts[p].Key() == key && s.posts[p].phase.stored <= s.posts[e.p].phase.begun;
    assert SlotOk(s, p) && TimesOk(s.posts[p], s.clock, lag);
  }

  lemma OriginStep(s: System, e: Event, lag: int, q: nat)
    requires Inv(s, lag) && Legal(s, e, lag) && q in s.posts
    ensures OriginOk(Step(s, e), q)
  {
    var s', qo, key := Step(s, e), s.posts[q], s.posts[q].Key();
    assert OriginOk(s, q);
    if qo.explicit {
      if key in s'.store {
        StoredStays(s, e, lag, q);
      }
      if q == e.p && qo.phase.Arrived? && Taken(s.store, key, e.at) {
        BeatenOrigin(s, e, lag);
      }
      if q == e.p && qo.phase.Beaten? && !Taken(s.store, key, e.at) {
        VanishedOrigin(s, e, lag);
      }
      forall at | HeldBefore(s, key, at) ensures HeldBefore(s', key, at) {
        HeldStays(s, e, key, at);
      }
      OriginCases(s, e, lag, q);
    }
  }

  lemma OriginCases(s: System, e: Event, lag: int, q: nat)
    requires e.p in s.posts && q in s.posts && s.posts[q].explicit && OriginOk(s, q)
    requires var s', qo := Step(s, e), s.posts[q];
      var key := qo.Key();
      && (key in s'.store ==> StoredBy(s', key))
      && (q == e.p && qo.phase.Arrived? && Taken(s.store, key, e.at) ==> HeldBefore(s', key, e.at))
      && (q == e.p && qo.phase.Beaten? && !Taken(s.store, key, e.at) ==> HeldBefore(s', key, e.at - RETENTION - 1))
      && (forall at | HeldBefore(s, key, at) :: HeldBefore(s', key, at))
      && !(qo.phase.Directed? || qo.phase.Pointing?)
    ensures OriginOk(Step(s, e), q)
  {
  }

  lemma RivalStep(s: System, e: Event, lag: int, p: nat, q: nat)
    requires Inv(s, lag) && Legal(s, e, lag) && lag <= 59 * MINUTE && Rivals(Step(s, e), p, q)
    ensures RivalOk(Step(s, e), p, q)
  {
    assert TimesOk(s.posts[p], s.clock, lag) && TimesOk(s.posts[q], s.clock, lag);
    if p == e.p {
      assert SlotOk(s, q);
      HolderMoves(s, e, lag, q);
    } else if q == e.p {
      assert Rivals(s, p, q) && SlotOk(s, p);
      RivalMoves(s, e, lag, p);
    } else {
      assert Rivals(s, p, q) && RivalOk(s, p, q);
    }
  }

  lemma StepKeepsInv(s: System, e: Event, lag: int)
    requires Inv(s, lag) && Legal(s, e, lag) && lag <= 59 * MINUTE
    ensures Inv(Step(s, e), lag)
  {
    var s' := Step(s, e);
    TimesStep(s.store, s.posts[e.p], e.at, e.fault, e.outcome, s.clock, lag);
    forall p | p in s'.posts ensures TimesOk(s'.posts[p], e.at, lag) && SlotOk(s', p) && OriginOk(s', p) {
      assert TimesOk(s.posts[p], s.clock, lag) && TimesOk(s.posts[e.p], s.clock, lag) && SlotOk(s, p);
      SlotStep(s, e, lag, p);
      OriginStep(s, e, lag, p);
    }
    forall p, q {:trigger Rivals(s', p, q)} | Rivals(s', p, q) ensures RivalOk(s', p, q) {
      RivalStep(s, e, lag, p, q);
    }
  }

  lemma {:induction false} RunInv(s: System, es: seq<Event>, lag: int)
    requires Inv(s, lag) && IsRun(s, es, lag) && lag <= 59 * MINUTE
    ensures Inv(After(s, es, lag), lag)
    decreases |es|
  {
    if es != [] {
      StepKeepsInv(s, es[0], lag);
      RunInv(Step(s, es[0]), es[1..], lag);
    }
  }

  /** Every state a run reaches, claims being sent within `lag`. */
  ghost predicate Reached(s: System, start: System, es: seq<Event>, lag: int) {
    Start(start) && IsRun(start, es, lag) && s == After(start, es, lag)
  }

  lemma StartInv(start: System, lag: int)
    requires Start(start)
    ensures Inv(start, lag)
  {
  }

  lemma ReachedInv(s: System, start: System, es: seq<Event>, lag: int)
    requires Reached(s, start, es, lag) && lag <= 59 * MINUTE
    ensures Inv(s, lag)
  {
    StartInv(start, lag);
    RunInv(start, es, lag);
  }

  // ---------- commands with a request id ----------

  /** The POST's job is still in the store. */
  predicate Keeps(s: System, p: nat, key: string, at: int) {
    p in s.posts && s.posts[p].Holds() && s.posts[p].Key() == key && at <= s.posts[p].HoldUntil()
  }

  /** A POST that lost the claim is handed the job of whoever keeps one for its key ... */
  lemma KeptIsHanded(s: System, start: System, es: seq<Event>, lag: int, e: Event, p: nat)
    requires Reached(s, start, es, lag) && lag <= 59 * MINUTE && Legal(s, e, lag) && !e.fault
    requires s.posts[e.p].explicit && s.posts[e.p].phase.Beaten? && Keeps(s, p, s.posts[e.p].Key(), e.at)
    ensures Step(s, e).posts[e.p].phase == Handed(s.posts[p].JobOf(), s.posts[e.p].phase.begun, e.at)
  {
    ReachedInv(s, start, es, lag);
    assert SlotOk(s, p);
  }

  /** ... and goes on to send exactly when nobody does. */
  lemma NothingKept(s: System, start: System, es: seq<Event>, lag: int, e: Event)
    requires Reached(s, start, es, lag) && lag <= 59 * MINUTE && Legal(s, e, lag) && !e.fault
    requires s.posts[e.p].explicit && s.posts[e.p].phase.Beaten?
    requires forall p | p in s.posts :: !Keeps(s, p, s.posts[e.p].Key(), e.at)
    ensures Step(s, e).posts[e.p].phase == Loose(Vanished, s.posts[e.p].phase.begun, e.at)
  {
    ReachedInv(s, start, es, lag);
    NotTaken(s, lag, e);
  }

  lemma NotTaken(s: System, lag: int, e: Event)
    requires Inv(s, lag) && Legal(s, e, lag) && s.posts[e.p].explicit
    requires forall p | p in s.posts :: !Keeps(s, p, s.posts[e.p].Key(), e.at)
    ensures !Taken(s.store, s.posts[e.p].Key(), e.at)
  {
    var key := s.posts[e.p].Key();
    if key in s.store {
      assert OriginOk(s, e.p);
      var p :| p in s.posts && s.posts[p].Holds() && s.posts[p].Key() == key
               && s.store[key] == Entry(JobValue(s.posts[p].JobOf()), s.posts[p].HoldUntil());
      assert !Keeps(s, p, key, e.at);
    }
  }

  /** The POST sends although it met no store error and its command is one that is claimed. */
  predicate SendsInOrder(po: Post) {
    po.Sends() && (po.phase.Sent? ==> po.phase.why == Vanished)
  }

  /** The POST has its claim or another's job, or found neither; not by a store error. */
  predicate Decided(po: Post) {
    po.Holds() || po.phase.Handed? || ((po.phase.Loose? || po.phase.Sent?) && po.phase.why == Vanished)
  }

  function DecidedAt(po: Post): int
    requires Decided(po)
  {
    if po.Holds() then po.phase.claimed else po.phase.at
  }

  /** Two POSTs that both won the claim of one request id never run at the same time: one
      has used up its whole budget before the other claims. */
  lemma RunsNeverOverlap(s: System, start: System, es: seq<Event>, lag: int, p: nat, q: nat)
    requires Reached(s, start, es, lag) && lag <= 59 * MINUTE
    requires Rivals(s, p, q) && s.posts[q].Holds() && s.posts[p].Sends() && s.posts[q].Sends()
    ensures var a, b := s.posts[p].phase, s.posts[q].phase;
      a.started + 61 * MINUTE < b.claimed || b.started + 61 * MINUTE < a.claimed
  {
    ReachedInv(s, start, es, lag);
    BudgetsDiffer(s, lag, p, q);
  }

  lemma BudgetsDiffer(s: System, lag: int, p: nat, q: nat)
    requires Inv(s, lag) && lag <= 59 * MINUTE
    requires Rivals(s, p, q) && s.posts[q].Holds() && s.posts[p].Sends() && s.posts[q].Sends()
    ensures var a, b := s.posts[p].phase, s.posts[q].phase;
      a.started + 61 * MINUTE < b.claimed || b.started + 61 * MINUTE < a.claimed
  {
    assert TimesOk(s.posts[p], s.clock, lag) && TimesOk(s.posts[q], s.clock, lag) && RivalOk(s, p, q);
    assert s.posts[p].explicit && s.posts[q].explicit;
  }

  // ---------- when sends overlap ----------

  /** A POST that lost the claim of its request id makes its lookup within `gap`. */
  predicate LooksWithin(s: System, e: Event, gap: int)
    requires e.p in s.posts
  {
    s.posts[e.p].explicit && s.posts[e.p].phase.Beaten? ==> e.at <= s.posts[e.p].phase.begun + gap
  }

  predicate Prompt(s: System, es: seq<Event>, lag: int, gap: int)
    requires IsRun(s, es, lag)
    decreases |es|
  {
    es == [] || (LooksWithin(s, es[0], gap) && Prompt(Step(s, es[0]), es[1..], lag, gap))
  }

  /** As long as no time has passed, what beat a POST is still there; and none has found
      nothing. */
  predicate InTime(s: System, q: nat)
    requires q in s.posts
  {
    var qo := s.posts[q];
    qo.explicit ==>
      && (qo.phase.Beaten? ==> qo.phase.begun <= s.clock && (s.clock == qo.phase.begun ==> Taken(s.store, qo.Key(), s.clock)))
      && !((qo.phase.Loose? || qo.phase.Sent?) && qo.phase.why == Vanished)
      && !qo.phase.Pointing? && !qo.phase.Directed?
  }

  lemma InTimeStep(s: System, e: Event, lag: int, q: nat)
    requires Legal(s, e, lag) && LooksWithin(s, e, 0) && IdsDiffer(s.posts) && q in s.posts && InTime(s, q)
    ensures InTime(Step(s, e), q)
  {
    if s.posts[q].explicit && q != e.p {
      KeyStep(s, e, s.posts[q]);
    }
  }

  lemma {:induction false} PromptNeverVanishes(s: System, es: seq<Event>, lag: int)
    requires IsRun(s, es, lag) && Prompt(s, es, lag, 0) && IdsDiffer(s.posts)
    requires forall q | q in s.posts :: InTime(s, q)
    ensures forall q | q in s.posts :: InTime(After(s, es, lag), q)
    decreases |es|
  {
    if es != [] {
      var s' := Step(s, es[0]);
      forall q | q in s'.posts ensures InTime(s', q) {
        InTimeStep(s, es[0], lag, q);
      }
      PromptNeverVanishes(s', es[1..], lag);
    }
  }

  /** Two POSTs of one request id send, neither because of a store error. */
  predicate BothSend(s: System, p: nat, q: nat) {
    && p in s.posts && q in s.posts && p != q && s.posts[p].explicit && s.posts[p].Key() == s.posts[q].Key()
    && SendsInOrder(s.posts[p]) && SendsInOrder(s.posts[q])
  }

  /** The second starts while the first may still be running. */
  predicate Overlap(s: System, p: nat, q: nat)
    requires BothSend(s, p, q)
  {
    s.posts[p].phase.started <= s.posts[q].phase.started <= s.posts[p].phase.started + WRITE_BUDGET
  }

  lemma PromptSendsApart(s: System, start: System, es: seq<Event>, lag: int, p: nat, q: nat)
    requires Reached(s, start, es, lag) && lag <= 59 * MINUTE && Prompt(start, es, lag, 0) && BothSend(s, p, q)
    ensures !Overlap(s, p, q)
  {
    PromptNeverVanishes(start, es, lag);
    assert InTime(s, p) && InTime(s, q);
    ReachedInv(s, start, es, lag);
    assert s.posts[q].explicit && TimesOk(s.posts[p], s.clock, lag) && TimesOk(s.posts[q], s.clock, lag);
    BudgetsDiffer(s, lag, p, q);
  }

  /** No run whose claims are sent within `lag` and whose lost claims are looked up within
      `gap` has two overlapping sends. */
  ghost predicate NeverOverlap(lag: int, gap: int) {
    forall start, es, p, q | Start(start) && IsRun(start, es, lag) && Prompt(start, es, lag, gap)
                             && BothSend(After(start, es, lag), p, q) ::
      !Overlap(After(start, es, lag), p, q)
  }

  /** The exact condition: claims are sent within 59 minutes, and losing a claim and looking
      up its job is one step. */
  lemma NeverOverlapIff(lag: nat, gap: nat)
    ensures NeverOverlap(lag, gap) <==> lag <= 59 * MINUTE && gap == 0
  {
    var po, o := Post("", "", "", "", true, true, Arrived), Outcome(200, "", "");
    if lag > 59 * MINUTE {
      var start, es := LateStartOverlaps(po, o, lag, gap);
      assert BothSend(After(start, es, lag), 0, 1);
    } else if gap > 0 {
      var start, es := LateLookOverlaps(po, o, lag, gap);
      assert BothSend(After(start, es, lag), 1, 2);
    } else {
      forall start, es, p, q | Start(start) && IsRun(start, es, lag) && Prompt(start, es, lag, gap)
                               && BothSend(After(start, es, lag), p, q)
        ensures !Overlap(After(start, es, lag), p, q)
      {
        PromptSendsApart(After(start, es, lag), start, es, lag, p, q);
      }
    }
  }

  lemma Prepend(s: System, e: Event, es: seq<Event>, lag: int)
    requires Legal(s, e, lag) && IsRun(Step(s, e), es, lag)
    ensures IsRun(s, [e] + es, lag) && After(s, [e] + es, lag) == After(Step(s, e), es, lag)
  {
    assert ([e] + es)[1..] == es;
  }

  lemma PrependPrompt(s: System, e: Event, es: seq<Event>, lag: int, gap: int)
    requires Legal(s, e, lag) && LooksWithin(s, e, gap) && IsRun(Step(s, e), es, lag) && Prompt(Step(s, e), es, lag, gap)
    ensures IsRun(s, [e] + es, lag) && After(s, [e] + es, lag) == After(Step(s, e), es, lag)
    ensures Prompt(s, [e] + es, lag, gap)
  {
    assert ([e] + es)[1..] == es;
  }

  /** The 59 minutes are exact: a claim sent any later can still be running when the next
      one, made two hours after it, is sent. */
  lemma LateStartOverlaps(po: Post, o: Outcome, lag: int, gap: nat) returns (start: System, es: seq<Event>)
    requires po.phase == Arrived && po.explicit && po.guarded && lag > 59 * MINUTE
    ensures Start(start) && start.posts == map[0 := po, 1 := po] && IsRun(start, es, lag) && Prompt(start, es, lag, gap)
    ensures var s := After(start, es, lag);
      && s.posts[0].phase.Running? && s.posts[1].phase.Running?
      && s.posts[0].phase.started <= s.posts[1].phase.started <= s.posts[0].phase.started + WRITE_BUDGET
      && s.posts[0] == po.(phase := s.posts[0].phase) && s.posts[1] == po.(phase := s.posts[1].phase)
  {
    var late, again := 59 * MINUTE + 1, RETENTION + 1;
    var e0, e1, e2 := Event(0, 0, false, o), Event(0, late, false, o), Event(1, again, false, o);
    start := System(map[0 := po, 1 := po], map[], 0);
    var s1 := Step(start, e0);
    assert s1.posts[0].phase == Holding(0, 0) && s1.posts[1] == po && s1.store[po.Key()].expires == RETENTION;
    var s2 := Step(s1, e1);
    assert s2.posts[0].phase == Running(0, 0, late) && s2.posts[1] == po && s2.store == s1.store;
    var s3 := Step(s2, e2);
    assert s3.posts[0] == s2.posts[0] && s3.posts[1].phase == Holding(again, again);
    PrependPrompt(s3, e2, [], lag, gap);
    PrependPrompt(s2, e2, [e2] + [], lag, gap);
    PrependPrompt(s1, e1, [e2] + ([e2] + []), lag, gap);
    PrependPrompt(start, e0, [e1] + ([e2] + ([e2] + [])), lag, gap);
    es := [e0] + ([e1] + ([e2] + ([e2] + [])));
  }

  /** And so is the lookup: a POST that loses the claim as the job expires, looks a
      nanosecond later and finds nothing, sends beside the POST that claims then. */
  lemma LateLookOverlaps(po: Post, o: Outcome, lag: nat, gap: nat) returns (start: System, es: seq<Event>)
    requires po.phase == Arrived && po.explicit && po.guarded && gap > 0
    ensures Start(start) && start.posts == map[0 := po, 1 := po, 2 := po] && IsRun(start, es, lag) && Prompt(start, es, lag, gap)
    ensures var s, late := After(start, es, lag), RETENTION + 1;
      && s.posts[1] == po.(phase := Sent(Vanished, RETENTION, late, late))
      && s.posts[2] == po.(phase := Running(late, late, late))
  {
    var late := RETENTION + 1;
    var e0, lose, look, claim := Event(0, 0, false, o), Event(1, RETENTION, false, o), Event(1, late, false, o), Event(2, late, false, o);
    start := System(map[0 := po, 1 := po, 2 := po], map[], 0);
    var s1 := Step(start, e0);
    assert s1.store[po.Key()].expires == RETENTION && s1.posts[1] == po && s1.posts[2] == po;
    var s2 := Step(s1, lose);
    assert s2.posts[1] == po.(phase := Beaten(RETENTION)) && s2.posts[2] == po && s2.store == s1.store;
    var s3 := Step(s2, look);
    assert s3.posts[1] == po.(phase := Loose(Vanished, RETENTION, late)) && s3.posts[2] == po && po.Key() !in s3.store;
    es := BothGo(s3, po, look, claim, lag, gap);
    PrependPrompt(s2, look, es, lag, gap);
    es := [look] + es;
    PrependPrompt(s1, lose, es, lag, gap);
    es := [lose] + es;
    PrependPrompt(start, e0, es, lag, gap);
    es := [e0] + es;
  }

  lemma BothGo(s: System, po: Post, look: Event, claim: Event, lag: nat, gap: nat) returns (es: seq<Event>)
    requires look.p == 1 && claim.p == 2 && look.at == claim.at == s.clock && !claim.fault
    requires 1 in s.posts && 2 in s.posts && po.explicit && po.guarded && po.phase == Arrived
    requires s.posts[1] == po.(phase := Loose(Vanished, RETENTION, s.clock)) && s.posts[2] == po && po.Key() !in s.store
    ensures IsRun(s, es, lag) && Prompt(s, es, lag, gap)
    ensures After(s, es, lag).posts[1] == po.(phase := Sent(Vanished, RETENTION, s.clock, s.clock))
    ensures After(s, es, lag).posts[2] == po.(phase := Running(s.clock, s.clock, s.clock))
  {
    var s1 := Step(s, claim);
    assert s1.posts[2].phase == Holding(s.clock, s.clock) && s1.posts[1] == s.posts[1];
    var s2 := Step(s1, look);
    PrependPrompt(s2, claim, [], lag, gap);
    PrependPrompt(s1, look, [claim] + [], lag, gap);
    PrependPrompt(s, claim, [look] + ([claim] + []), lag, gap);
    es := [claim] + ([look] + ([claim] + []));
  }

  /** Every POST that is decided in the two hours after a recorded outcome is handed that
      outcome. */
  lemma FinishedIsReplayed(s: System, start: System, es: seq<Event>, lag: int, p: nat, q: nat)
    requires Reached(s, start, es, lag) && lag <= 59 * MINUTE
    requires Rivals(s, p, q) && s.posts[p].phase.Finished? && s.posts[p].phase.recorded && Decided(s.posts[q])
    requires s.posts[p].phase.ended < DecidedAt(s.posts[q]) <= s.posts[p].phase.ended + 2 * HOUR
    ensures s.posts[q].phase.Handed? && s.posts[q].phase.job == Job(s.posts[p].id, Some(s.posts[p].phase.outcome))
  {
    ReachedInv(s, start, es, lag);
    RecordedIsHanded(s, lag, p, q);
  }

  lemma RecordedIsHanded(s: System, lag: int, p: nat, q: nat)
    requires Inv(s, lag)
    requires Rivals(s, p, q) && s.posts[p].phase.Finished? && s.posts[p].phase.recorded && Decided(s.posts[q])
    requires s.posts[p].phase.ended < DecidedAt(s.posts[q]) <= s.posts[p].phase.ended + RETENTION
    ensures s.posts[q].phase.Handed? && s.posts[q].phase.job == Job(s.posts[p].id, Some(s.posts[p].phase.outcome))
  {
    assert TimesOk(s.posts[p], s.clock, lag) && TimesOk(s.posts[q], s.clock, lag) && RivalOk(s, p, q);
  }
}
