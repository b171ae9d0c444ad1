/** What a claim of a request id keeps for two hours, however late it is sent. */
module CommandKept {
  import opened Clock
  import opened CommandJobs
  import opened CommandRuns

  /** For two hours after a claim its key is taken, and stays so at least until then. */
  predicate KeptOk(s: System, p: nat)
    requires p in s.posts
  {
    var po := s.posts[p];
    po.Holds() && s.clock <= po.phase.stored + RETENTION ==>
      po.Key() in s.store && s.store[po.Key()].expires >= po.phase.stored + RETENTION
  }

  /** The two hours of a claim, from the moment its job is in the store. */
  predicate Outside(at: int, po: Post)
    requires po.Holds()
  {
    at <= po.phase.stored || at > po.phase.stored + RETENTION
  }

  /** What another POST for the same key came to. */
  predicate RivalKept(s: System, p: nat, q: nat)
    requires Rivals(s, p, q)
  {
    var po, qo := s.posts[p], s.posts[q];
    && (qo.Holds() ==> qo.phase.stored > po.phase.stored + RETENTION || po.phase.stored > qo.phase.stored + RETENTION)
    && ((qo.phase.Loose? || qo.phase.Sent?) && qo.phase.why == Vanished ==> Outside(qo.phase.at, po))
  }

  /** A taken key, a lost claim and a failed lookup all point at an earlier holder. */
  ghost predicate TracedOk(s: System, q: nat)
    requires q in s.posts
  {
    var qo := s.posts[q];
    qo.explicit ==>
      && (qo.Key() in s.store ==> HeldBefore(s, qo.Key(), s.clock))
      && (qo.phase.Beaten? ==> HeldBefore(s, qo.Key(), qo.phase.begun))
      && ((qo.phase.Loose? || qo.phase.Sent?) && qo.phase.why == Vanished ==>
           HeldBefore(s, qo.Key(), qo.phase.at - RETENTION - 1))
  }

  ghost predicate KeptInv(s: System, lag: int) {
    && IdsDiffer(s.posts)
    && (forall p | p in s.posts :: TimesOk(s.posts[p], s.clock, lag))
    && (forall p | p in s.posts :: KeptOk(s, p))
    && (forall p, q {:trigger Rivals(s, p, q)} | Rivals(s, p, q) :: RivalKept(s, p, q))
    && (forall q | q in s.posts :: TracedOk(s, q))
  }

  lemma KeptStep(s: System, e: Event, lag: int, p: nat)
    requires Legal(s, e, lag) && IdsDiffer(s.posts) && p in s.posts && KeptOk(s, p) && TimesOk(s.posts[p], s.clock, lag)
    ensures KeptOk(Step(s, e), p)
  {
    if p != e.p {
      KeyStep(s, e, s.posts[p]);
    }
  }

  /** A rival of a holder moves. */
  lemma RivalGoes(s: System, e: Event, lag: int, p: nat)
    requires Legal(s, e, lag) && IdsDiffer(s.posts) && Rivals(s, p, e.p) && RivalKept(s, p, e.p) && KeptOk(s, p)
    requires TimesOk(s.posts[p], s.clock, lag) && TimesOk(s.posts[e.p], s.clock, lag)
    ensures Rivals(Step(s, e), p, e.p) && RivalKept(Step(s, e), p, e.p)
  {
    assert s.posts[e.p].explicit;
  }

  /** A holder moves on. */
  lemma HolderGoes(s: System, e: Event, lag: int, q: nat)
    requires Legal(s, e, lag) && Rivals(s, e.p, q) && RivalKept(s, e.p, q)
    ensures Rivals(Step(s, e), e.p, q) && RivalKept(Step(s, e), e.p, q)
  {
  }

  /** A POST becomes a holder: no other's two hours are still running. */
  lemma HolderComes(s: System, e: Event, lag: int, q: nat)
    requires Legal(s, e, lag) && IdsDiffer(s.posts) && Rivals(Step(s, e), e.p, q) && !s.posts[e.p].Holds()
    requires KeptOk(s, q) && TimesOk(s.posts[q], s.clock, lag) && TimesOk(s.posts[e.p], s.clock, lag)
    ensures RivalKept(Step(s, e), e.p, q)
  {
    assert s.posts[e.p].explicit && s.posts[q].explicit;
  }

  lemma RivalStep(s: System, e: Event, lag: int, p: nat, q: nat)
    requires KeptInv(s, lag) && Legal(s, e, lag) && Rivals(Step(s, e), p, q)
    ensures RivalKept(Step(s, e), p, q)
  {
    assert TimesOk(s.posts[p], s.clock, lag) && TimesOk(s.posts[q], s.clock, lag) && KeptOk(s, p) && KeptOk(s, q);
    if p != e.p || s.posts[p].Holds() {
      assert Rivals(s, p, q) && RivalKept(s, p, q);
    }
    if p == e.p {
      if s.posts[p].Holds() {
        HolderGoes(s, e, lag, q);
      } else {
        HolderComes(s, e, lag, q);
      }
    } else if q == e.p {
      RivalGoes(s, e, lag, p);
    }
  }

  /** A failed lookup comes after the two hours of whoever beat the POST. */
  lemma LookedTooLate(s: System, e: Event, lag: int)
    requires KeptInv(s, lag) && Legal(s, e, lag) && s.posts[e.p].explicit && s.posts[e.p].phase.Beaten?
    requires !Taken(s.store, s.posts[e.p].Key(), e.at)
    ensures HeldBefore(s, s.posts[e.p].Key(), e.at - RETENTION - 1)
  {
    var key := s.posts[e.p].Key();
    assert TracedOk(s, e.p);
    var p :| p in s.posts && s.posts[p].Holds() && s.posts[p].Key() == key && s.posts[p].phase.stored <= s.posts[e.p].phase.begun;
    assert KeptOk(s, p) && TimesOk(s.posts[p], s.clock, lag);
  }

  /** A key that is there after a step was held before it, or the mover holds it now. */
  lemma HeldAfter(s: System, e: Event, lag: int, q: nat)
    requires KeptInv(s, lag) && Legal(s, e, lag) && q in s.posts && s.posts[q].explicit && s.posts[q].Key() in Step(s, e).store
    ensures HeldBefore(Step(s, e), s.posts[q].Key(), e.at)
  {
    var key := s.posts[q].Key();
    KeyStep(s, e, s.posts[q]);
    assert TracedOk(s, q);
    if key in s.store {
      var p :| p in s.posts && s.posts[p].Holds() && s.posts[p].Key() == key && s.posts[p].phase.stored <= s.clock;
      assert Step(s, e).posts[p].Holds();
    } else {
      assert Step(s, e).posts[e.p].Holds() && TimesOk(s.posts[e.p], s.clock, lag);
      assert Step(s, e).posts[e.p].phase.stored <= e.at;
    }
  }

  lemma TracedStep(s: System, e: Event, lag: int, q: nat)
    requires KeptInv(s, lag) && Legal(s, e, lag) && q in s.posts
    ensures TracedOk(Step(s, e), q)
  {
    var s', qo, key := Step(s, e), s.posts[q], s.posts[q].Key();
    assert TracedOk(s, q) && TimesOk(qo, s.clock, lag);
    if qo.explicit {
      if key in s'.store {
        HeldAfter(s, e, lag, q);
      }
      if q == e.p && qo.phase.Beaten? && !Taken(s.store, key, e.at) {
        LookedTooLate(s, e, lag);
      }
      forall at | HeldBefore(s, key, at) ensures HeldBefore(s', key, at) {
        HeldStays(s, e, key, at);
      }
      TracedCases(s, e, q);
    }
  }

  lemma TracedCases(s: System, e: Event, q: nat)
    requires e.p in s.posts && q in s.posts && s.posts[q].explicit && TracedOk(s, q)
    requires !s.posts[q].phase.Directed? && !s.posts[q].phase.Pointing?
    requires var s', qo := Step(s, e), s.posts[q];
      var key := qo.Key();
      && (key in s'.store ==> HeldBefore(s', key, e.at))
      && (q == e.p && qo.phase.Beaten? && !Taken(s.store, key, e.at) ==> HeldBefore(s', key, e.at - RETENTION - 1))
      && (forall at | HeldBefore(s, key, at) :: HeldBefore(s', key, at))
    ensures TracedOk(Step(s, e), q)
  {
  }

  lemma StepKeepsKept(s: System, e: Event, lag: int)
    requires KeptInv(s, lag) && Legal(s, e, lag)
    ensures KeptInv(Step(s, e), lag)
  {
    var s' := Step(s, e);
    assert TimesOk(s.posts[e.p], s.clock, lag);
    TimesStep(s.store, s.posts[e.p], e.at, e.fault, e.outcome, s.clock, lag);
    forall p | p in s'.posts ensures TimesOk(s'.posts[p], e.at, lag) && KeptOk(s', p) && TracedOk(s', p) {
      assert TimesOk(s.posts[p], s.clock, lag) && KeptOk(s, p);
      KeptStep(s, e, lag, p);
      TracedStep(s, e, lag, p);
    }
    forall p, q {:trigger Rivals(s', p, q)} | Rivals(s', p, q) ensures RivalKept(s', p, q) {
      RivalStep(s, e, lag, p, q);
    }
  }

  lemma {:induction false} RunKept(s: System, es: seq<Event>, lag: int)
    requires KeptInv(s, lag) && IsRun(s, es, lag)
    ensures KeptInv(After(s, es, lag), lag)
    decreases |es|
  {
    if es != [] {
      StepKeepsKept(s, es[0], lag);
      RunKept(Step(s, es[0]), es[1..], lag);
    }
  }

  lemma StartKept(start: System, lag: int)
    requires Start(start)
    ensures KeptInv(start, lag)
  {
  }

  lemma ReachedKept(s: System, start: System, es: seq<Event>, lag: int)
    requires Reached(s, start, es, lag)
    ensures KeptInv(s, lag)
  {
    StartKept(start, lag);
    RunKept(start, es, lag);
  }

  // ---------- the promises ----------

  /** For two hours after a claim no other POST of that request id is let go to send, store
      errors aside and however late the claim itself is sent: a POST that sends was decided
      before the claim or more than two hours after it. */
  lemma SentOnce(s: System, start: System, es: seq<Event>, lag: int, p: nat, q: nat)
    requires Reached(s, start, es, lag) && Rivals(s, p, q) && SendsInOrder(s.posts[q])
    ensures var claimed := s.posts[p].phase.claimed;
      DecidedAt(s.posts[q]) <= claimed || DecidedAt(s.posts[q]) > claimed + 2 * HOUR
  {
    ReachedKept(s, start, es, lag);
    OneSendPerClaim(s, lag, p, q);
  }

  lemma OneSendPerClaim(s: System, lag: int, p: nat, q: nat)
    requires KeptInv(s, lag) && Rivals(s, p, q) && SendsInOrder(s.posts[q])
    ensures var claimed := s.posts[p].phase.claimed;
      DecidedAt(s.posts[q]) <= claimed || DecidedAt(s.posts[q]) > claimed + RETENTION
  {
    assert TimesOk(s.posts[p], s.clock, lag) && TimesOk(s.posts[q], s.clock, lag) && RivalKept(s, p, q);
    assert s.posts[p].explicit && s.posts[q].explicit;
  }

  /** Where claims are sent within 59 minutes, that lasts until the job expires, two hours
      after its outcome was recorded. */
  lemma SentOnceUntilExpiry(s: System, start: System, es: seq<Event>, lag: int, p: nat, q: nat)
    requires Reached(s, start, es, lag) && lag <= 59 * MINUTE && Rivals(s, p, q) && SendsInOrder(s.posts[q])
    ensures DecidedAt(s.posts[q]) <= s.posts[p].phase.claimed || DecidedAt(s.posts[q]) > s.posts[p].HoldUntil()
  {
    ReachedInv(s, start, es, lag);
    NoneWhileKept(s, lag, p, q);
  }

  lemma NoneWhileKept(s: System, lag: int, p: nat, q: nat)
    requires Inv(s, lag) && Rivals(s, p, q) && SendsInOrder(s.posts[q])
    ensures DecidedAt(s.posts[q]) <= s.posts[p].phase.claimed || DecidedAt(s.posts[q]) > s.posts[p].HoldUntil()
  {
    assert TimesOk(s.posts[p], s.clock, lag) && TimesOk(s.posts[q], s.clock, lag) && RivalOk(s, p, q);
    assert s.posts[p].explicit && s.posts[q].explicit;
  }

  /** Some POST claimed the key more than two hours before. */
  ghost predicate LongAfterAClaim(s: System, key: string, started: int) {
    HeldBefore(s, key, started - 2 * HOUR - 1)
  }

  /** And of any two sends of one request id, whether or not either had won, one comes more
      than two hours after some claim of it. */
  lemma SecondSendIsLate(s: System, start: System, es: seq<Event>, lag: int, p: nat, q: nat)
    requires Reached(s, start, es, lag) && BothSend(s, p, q)
    ensures || LongAfterAClaim(s, s.posts[p].Key(), s.posts[p].phase.started)
            || LongAfterAClaim(s, s.posts[p].Key(), s.posts[q].phase.started)
  {
    ReachedKept(s, start, es, lag);
    if s.posts[p].phase.Sent? {
      LooseIsLate(s, lag, p);
    } else if s.posts[q].phase.Sent? {
      assert s.posts[q].explicit;
      LooseIsLate(s, lag, q);
    } else {
      BothHold(s, lag, p, q);
    }
  }

  lemma LooseIsLate(s: System, lag: int, q: nat)
    requires KeptInv(s, lag) && q in s.posts && s.posts[q].explicit && s.posts[q].phase.Sent? && s.posts[q].phase.why == Vanished
    ensures LongAfterAClaim(s, s.posts[q].Key(), s.posts[q].phase.started)
  {
    assert TracedOk(s, q) && TimesOk(s.posts[q], s.clock, lag);
  }

  lemma BothHold(s: System, lag: int, p: nat, q: nat)
    requires KeptInv(s, lag) && Rivals(s, p, q) && s.posts[q].Holds() && s.posts[p].Sends() && s.posts[q].Sends()
    ensures || LongAfterAClaim(s, s.posts[p].Key(), s.posts[p].phase.started)
            || LongAfterAClaim(s, s.posts[p].Key(), s.posts[q].phase.started)
  {
    assert TimesOk(s.posts[p], s.clock, lag) && TimesOk(s.posts[q], s.clock, lag) && RivalKept(s, p, q);
  }
}
