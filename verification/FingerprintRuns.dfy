/** Commands without a request id: the claim is on the fingerprint for 90 seconds, and the
    job it points at is written in a second step. */
module FingerprintRuns {
  import opened Clock
  import opened Options
  import opened CommandJobs
  import opened CommandRuns

  /** A won fingerprint points at its winner for the whole window. */
  predicate PointOk(s: System, p: nat)
    requires p in s.posts
  {
    var po := s.posts[p];
    po.Points() && s.clock <= po.PointedAt() + DEDUP_WINDOW ==>
      po.Pointer() in s.store && s.store[po.Pointer()] == Entry(IdValue(po.id), po.PointedAt() + DEDUP_WINDOW)
  }

  /** `q` is the same command as the one whose fingerprint `p` won. */
  predicate Peers(s: System, p: nat, q: nat) {
    && p in s.posts && q in s.posts && p != q && s.posts[p].Points() && !s.posts[q].explicit
    && s.posts[p].tenant == s.posts[q].tenant
    && s.posts[p].bridge == s.posts[q].bridge
    && s.posts[p].fingerprint == s.posts[q].fingerprint
  }

  /** `q` began after `p` won, and had come this far by the end of the window. */
  predicate Within(po: Post, begun: int, at: int)
    requires po.Points()
  {
    po.PointedAt() < begun && at <= po.PointedAt() + 90 * SECOND
  }

  predicate PeerOk(s: System, p: nat, q: nat)
    requires Peers(s, p, q)
  {
    var po, qo := s.posts[p], s.posts[q];
    && (qo.Points() ==> qo.PointedAt() > po.PointedAt() + DEDUP_WINDOW || po.PointedAt() > qo.PointedAt() + DEDUP_WINDOW)
    && (qo.phase.Directed? && Within(po, qo.phase.begun, s.clock) ==> qo.phase.first == po.id)
    && (qo.phase.Handed? && Within(po, qo.phase.begun, qo.phase.at) ==>
         po.Holds() && po.phase.stored <= qo.phase.at && (qo.phase.job == po.JobOf() || qo.phase.job == Job(po.id, None)))
    && ((qo.phase.Loose? || qo.phase.Sent?) && qo.phase.why == Vanished && Within(po, qo.phase.begun, qo.phase.at) ==>
         !po.Holds() || qo.phase.at <= po.phase.stored)
  }

  /** A generated job is written by its own POST and nobody else. */
  predicate OwnJobOk(s: System, p: nat)
    requires p in s.posts
  {
    !s.posts[p].explicit && s.posts[p].Key() in s.store ==> s.posts[p].Holds()
  }

  ghost predicate PointersInv(s: System, lag: int) {
    && IdsDiffer(s.posts)
    && (forall p | p in s.posts :: TimesOk(s.posts[p], s.clock, lag))
    && (forall p | p in s.posts :: OwnJobOk(s, p))
    && (forall p | p in s.posts :: s.posts[p].explicit || SlotOk(s, p))
    && (forall p | p in s.posts :: PointOk(s, p))
    && (forall p, q {:trigger Peers(s, p, q)} | Peers(s, p, q) :: PeerOk(s, p, q))
  }

  lemma OwnJobStep(s: System, e: Event, lag: int, p: nat)
    requires Legal(s, e, lag) && IdsDiffer(s.posts) && p in s.posts && OwnJobOk(s, p)
    ensures OwnJobOk(Step(s, e), p)
  {
    KeyStep(s, e, s.posts[p]);
  }

  /** A generated job stays as its own POST last wrote it, however late that was. */
  lemma OwnSlotStep(s: System, e: Event, lag: int, p: nat)
    requires Legal(s, e, lag) && IdsDiffer(s.posts) && p in s.posts && !s.posts[p].explicit && SlotOk(s, p)
    ensures SlotOk(Step(s, e), p)
  {
    if p != e.p {
      KeyStep(s, e, s.posts[p]);
    }
  }

  lemma PointStep(s: System, e: Event, p: nat)
    requires e.p in s.posts && p in s.posts && s.clock <= e.at && PointOk(s, p)
    ensures PointOk(Step(s, e), p)
  {
    var po, eo := s.posts[p], s.posts[e.p];
    KeysApart(eo.tenant, eo.bridge, eo.id, po.tenant, po.fingerprint);
    if eo.phase.Directed? {
      KeysApart(eo.tenant, eo.bridge, eo.phase.first, po.tenant, po.fingerprint);
    }
  }

  /** A peer of the winner that has read the pointer looks for the job. */
  lemma PeerLooks(s: System, e: Event, lag: int, p: nat)
    requires Legal(s, e, lag) && Peers(s, p, e.p) && PeerOk(s, p, e.p) && SlotOk(s, p) && OwnJobOk(s, p)
    requires TimesOk(s.posts[p], s.clock, lag) && TimesOk(s.posts[e.p], s.clock, lag) && s.posts[e.p].phase.Directed?
    ensures Peers(Step(s, e), p, e.p) && PeerOk(Step(s, e), p, e.p)
  {
  }

  /** A peer of the winner moves otherwise. */
  lemma PeerMoves(s: System, e: Event, lag: int, p: nat)
    requires Legal(s, e, lag) && Peers(s, p, e.p) && PeerOk(s, p, e.p) && PointOk(s, p)
    requires TimesOk(s.posts[p], s.clock, lag) && TimesOk(s.posts[e.p], s.clock, lag) && !s.posts[e.p].phase.Directed?
    ensures Peers(Step(s, e), p, e.p) && PeerOk(Step(s, e), p, e.p)
  {
  }

  /** The winner moves on. */
  lemma WinnerMoves(s: System, e: Event, lag: int, q: nat)
    requires Legal(s, e, lag) && Peers(s, e.p, q) && PeerOk(s, e.p, q)
    requires TimesOk(s.posts[q], s.clock, lag) && TimesOk(s.posts[e.p], s.clock, lag)
    ensures Peers(Step(s, e), e.p, q) ==> PeerOk(Step(s, e), e.p, q)
  {
  }

  /** A POST becomes the winner: no earlier one's window is still open. */
  lemma WinnerComes(s: System, e: Event, lag: int, q: nat)
    requires Legal(s, e, lag) && Peers(Step(s, e), e.p, q) && !s.posts[e.p].Points()
    requires Peers(s, q, e.p) ==> PointOk(s, q)
    requires TimesOk(s.posts[q], s.clock, lag)
    ensures PeerOk(Step(s, e), e.p, q)
  {
    assert s.posts[q].Points() ==> Peers(s, q, e.p);
  }

  lemma PeerStep(s: System, e: Event, lag: int, p: nat, q: nat)
    requires PointersInv(s, lag) && Legal(s, e, lag) && Peers(Step(s, e), p, q)
    ensures PeerOk(Step(s, e), p, q)
  {
    assert TimesOk(s.posts[p], s.clock, lag) && TimesOk(s.posts[q], s.clock, lag);
    if p == e.p {
      assert PointOk(s, q);
      if s.posts[p].Points() {
        assert Peers(s, p, q) && PeerOk(s, p, q);
        WinnerMoves(s, e, lag, q);
      } else {
        WinnerComes(s, e, lag, q);
      }
    } else if q == e.p {
      assert Peers(s, p, q) && PeerOk(s, p, q) && PointOk(s, p) && SlotOk(s, p) && OwnJobOk(s, p);
      if s.posts[q].phase.Directed? {
        PeerLooks(s, e, lag, p);
      } else {
        PeerMoves(s, e, lag, p);
      }
    } else {
      assert Peers(s, p, q) && PeerOk(s, p, q);
    }
  }

  lemma StepKeepsPointers(s: System, e: Event, lag: int)
    requires PointersInv(s, lag) && Legal(s, e, lag)
    ensures PointersInv(Step(s, e), lag)
  {
    var s' := Step(s, e);
    assert TimesOk(s.posts[e.p], s.clock, lag);
    TimesStep(s.store, s.posts[e.p], e.at, e.fault, e.outcome, s.clock, lag);
    forall p | p in s'.posts
      ensures TimesOk(s'.posts[p], e.at, lag) && OwnJobOk(s', p) && PointOk(s', p) && (s'.posts[p].explicit || SlotOk(s', p))
    {
      assert TimesOk(s.posts[p], s.clock, lag) && OwnJobOk(s, p) && PointOk(s, p);
      OwnJobStep(s, e, lag, p);
      PointStep(s, e, p);
      if !s.posts[p].explicit {
        OwnSlotStep(s, e, lag, p);
      }
    }
    forall p, q {:trigger Peers(s', p, q)} | Peers(s', p, q) ensures PeerOk(s', p, q) {
      PeerStep(s, e, lag, p, q);
    }
  }

  lemma {:induction false} RunPointers(s: System, es: seq<Event>, lag: int)
    requires PointersInv(s, lag) && IsRun(s, es, lag)
    ensures PointersInv(After(s, es, lag), lag)
    decreases |es|
  {
    if es != [] {
      StepKeepsPointers(s, es[0], lag);
      RunPointers(Step(s, es[0]), es[1..], lag);
    }
  }

  lemma StartPointers(start: System, lag: int)
    requires Start(start)
    ensures PointersInv(start, lag)
  {
  }

  lemma ReachedPointers(s: System, start: System, es: seq<Event>, lag: int)
    requires Reached(s, start, es, lag)
    ensures PointersInv(s, lag)
  {
    StartPointers(start, lag);
    RunPointers(start, es, lag);
  }

  /** The same command again inside the window, meeting no store error of its own, whatever
      the winner met: it never wins the fingerprint, is handed the winner's job if that was
      written by then, and goes on to send if it was not. */
  lemma RetryInsideTheWindow(s: System, start: System, es: seq<Event>, lag: int, p: nat, q: nat)
    requires Reached(s, start, es, lag)
    requires Peers(s, p, q) && Decided(s.posts[q])
    requires var qo := s.posts[q]; Within(s.posts[p], if qo.Holds() then qo.phase.claimed else qo.phase.begun, DecidedAt(qo))
    ensures var po, qo := s.posts[p], s.posts[q];
      && !qo.Points()
      && if qo.phase.Handed?
         then po.Holds() && po.phase.stored <= qo.phase.at && qo.phase.job.id == po.id
         else !po.Holds() || qo.phase.at <= po.phase.stored
  {
    ReachedPointers(s, start, es, lag);
    assert PeerOk(s, p, q);
  }

  /** The look itself decides: a retry in the window is handed the winner's job exactly when
      that is stored at that moment. */
  lemma LookDecides(s: System, start: System, es: seq<Event>, lag: int, p: nat, e: Event)
    requires Reached(s, start, es, lag) && Legal(s, e, lag) && !e.fault
    requires Peers(s, p, e.p) && s.posts[e.p].phase.Directed? && Within(s.posts[p], s.posts[e.p].phase.begun, e.at)
    ensures var begun := s.posts[e.p].phase.begun;
      Step(s, e).posts[e.p].phase == if s.posts[p].Holds() then Handed(s.posts[p].JobOf(), begun, e.at) else Loose(Vanished, begun, e.at)
  {
    ReachedPointers(s, start, es, lag);
    assert PeerOk(s, p, e.p) && SlotOk(s, p) && OwnJobOk(s, p) && TimesOk(s.posts[p], s.clock, lag);
    LookFinds(s, e, lag, p);
  }

  lemma LookFinds(s: System, e: Event, lag: int, p: nat)
    requires Legal(s, e, lag) && !e.fault && Peers(s, p, e.p) && PeerOk(s, p, e.p) && SlotOk(s, p) && OwnJobOk(s, p)
    requires TimesOk(s.posts[p], s.clock, lag)
    requires s.posts[e.p].phase.Directed? && Within(s.posts[p], s.posts[e.p].phase.begun, e.at)
    ensures var begun := s.posts[e.p].phase.begun;
      Step(s, e).posts[e.p].phase == if s.posts[p].Holds() then Handed(s.posts[p].JobOf(), begun, e.at) else Loose(Vanished, begun, e.at)
  {
  }

  /** That gap is real: the loser of a fingerprint that looks between the two writes sends
      the command beside the winner. */
  lemma EarlyLookSendsTwice(po: Post, qo: Post, o: Outcome, lag: int) returns (start: System, es: seq<Event>)
    requires po.phase == Arrived && !po.explicit && po.guarded && qo == po.(id := qo.id) && qo.Key() != po.Key() && lag >= 0
    ensures Start(start) && start.posts == map[0 := po, 1 := qo] && IsRun(start, es, lag)
    ensures var s := After(start, es, lag);
      && s.posts[0].phase == Running(0, 1, 1) && s.posts[1].phase == Sent(Vanished, 1, 1, 1)
  {
    var e0, e1 := Event(0, 0, false, o), Event(1, 1, false, o);
    start := System(map[0 := po, 1 := qo], map[], 0);
    var s1 := Step(start, e0);
    assert s1 == System(map[0 := po.(phase := Pointing(0)), 1 := qo], map[po.Pointer() := Entry(IdValue(po.id), DEDUP_WINDOW)], 0);
    es := LookAndSend(po, qo, o, lag);
    Prepend(start, e0, es, lag);
    es := [e0] + es;
  }

  /** The fingerprint has just been claimed: the other POST comes, loses, looks and sends. */
  lemma LookAndSend(po: Post, qo: Post, o: Outcome, lag: int) returns (es: seq<Event>)
    requires !po.explicit && po.guarded && qo == po.(id := qo.id) && qo.phase == Arrived && lag >= 0
    ensures var s := System(map[0 := po.(phase := Pointing(0)), 1 := qo], map[po.Pointer() := Entry(IdValue(po.id), DEDUP_WINDOW)], 0);
      && IsRun(s, es, lag)
      && After(s, es, lag).posts[0].phase == Running(0, 1, 1) && After(s, es, lag).posts[1].phase == Sent(Vanished, 1, 1, 1)
  {
    var e1, p1 := Event(1, 1, false, o), Event(0, 1, false, o);
    var p0, store := po.(phase := Pointing(0)), map[po.Pointer() := Entry(IdValue(po.id), DEDUP_WINDOW)];
    var s1 := System(map[0 := p0, 1 := qo], store, 0);
    var s2 := System(map[0 := p0, 1 := qo.(phase := Beaten(1))], store, 1);
    var s3 := System(map[0 := p0, 1 := qo.(phase := Directed(po.id, 1))], store, 1);
    var s4 := System(map[0 := p0, 1 := qo.(phase := Loose(Vanished, 1, 1))], store, 1);
    assert Step(s1, e1) == s2;
    assert Step(s2, e1) == s3;
    assert Step(s3, e1) == s4 by { KeysApart(qo.tenant, qo.bridge, po.id, po.tenant, po.fingerprint); }
    BothSend(s4, e1, p1, lag);
    es := [e1] + ([p1] + ([p1] + []));
    Prepend(s3, e1, es, lag);
    es := [e1] + es;
    Prepend(s2, e1, es, lag);
    es := [e1] + es;
    Prepend(s1, e1, es, lag);
    es := [e1] + es;
  }

  lemma BothSend(s: System, e1: Event, p1: Event, lag: int)
    requires e1.p == 1 && e1.at == 1 && p1.p == 0 && p1.at == 1 && !p1.fault && lag >= 0
    requires 0 in s.posts && 1 in s.posts && s.clock == 1
    requires s.posts[0].phase == Pointing(0) && s.posts[1].phase == Loose(Vanished, 1, 1)
    ensures var es := [e1] + ([p1] + ([p1] + []));
      && IsRun(s, es, lag)
      && After(s, es, lag).posts[0].phase == Running(0, 1, 1) && After(s, es, lag).posts[1].phase == Sent(Vanished, 1, 1, 1)
  {
    var s1 := Step(s, e1);
    var s2 := Step(s1, p1);
    Prepend(s2, p1, [], lag);
    Prepend(s1, p1, [p1] + [], lag);
    Prepend(s, e1, [p1] + ([p1] + []), lag);
  }

  /** So is the other: a winner whose job write fails has taken the fingerprint all the same,
      and a retry at any later moment of the window finds nothing and sends again. */
  lemma FailedWriteSendsAgain(po: Post, qo: Post, o: Outcome, lag: nat, at: int) returns (start: System, es: seq<Event>)
    requires po.phase == Arrived && !po.explicit && po.guarded && qo == po.(id := qo.id) && qo.Key() != po.Key()
    requires 0 < at <= 90 * SECOND
    ensures Start(start) && start.posts == map[0 := po, 1 := qo] && IsRun(start, es, lag)
    ensures forall i | 0 <= i < |es| && es[i].p == 1 :: !es[i].fault
    ensures var s := After(start, es, lag);
      s.posts[0].phase == Sent(JobNotWritten, 0, 0, 0) && s.posts[1].phase == Sent(Vanished, at, at, at)
  {
    var e0, fail, e1 := Event(0, 0, false, o), Event(0, 0, true, o), Event(1, at, false, o);
    var store := map[po.Pointer() := Entry(IdValue(po.id), DEDUP_WINDOW)];
    start := System(map[0 := po, 1 := qo], map[], 0);
    es := RetrySends(po.(phase := Sent(JobNotWritten, 0, 0, 0)), po, qo, e1, lag);
    JobWriteFails(po, qo, o, lag, es);
    es := [e0] + ([fail] + ([e0] + es));
  }

  /** The fingerprint was claimed at 0 by POST 0, which has come to `phase`. */
  function Taken0(po: Post, qo: Post, phase: Phase): System {
    System(map[0 := po.(phase := phase), 1 := qo], map[po.Pointer() := Entry(IdValue(po.id), DEDUP_WINDOW)], 0)
  }

  /** The winner takes the fingerprint, cannot write its job and sends without a claim. */
  lemma JobWriteFails(po: Post, qo: Post, o: Outcome, lag: nat, rest: seq<Event>)
    requires po.phase == Arrived && !po.explicit && po.guarded
    requires IsRun(Taken0(po, qo, Sent(JobNotWritten, 0, 0, 0)), rest, lag)
    ensures var es := [Event(0, 0, false, o)] + ([Event(0, 0, true, o)] + ([Event(0, 0, false, o)] + rest));
      var start := System(map[0 := po, 1 := qo], map[], 0);
      && IsRun(start, es, lag)
      && After(start, es, lag) == After(Taken0(po, qo, Sent(JobNotWritten, 0, 0, 0)), rest, lag)
  {
    var e, fail := Event(0, 0, false, o), Event(0, 0, true, o);
    var start, s1, s2 := System(map[0 := po, 1 := qo], map[], 0), Taken0(po, qo, Pointing(0)), Taken0(po, qo, Loose(JobNotWritten, 0, 0));
    assert Step(start, e) == s1;
    LoseJob(po, qo, e, fail);
    Prepend(s2, e, rest, lag);
    Prepend(s1, fail, [e] + rest, lag);
    Prepend(start, e, [fail] + ([e] + rest), lag);
  }

  lemma LoseJob(po: Post, qo: Post, e: Event, fail: Event)
    requires e.p == 0 && fail.p == 0 && e.at == 0 && fail.at == 0 && fail.fault
    ensures Step(Taken0(po, qo, Pointing(0)), fail) == Taken0(po, qo, Loose(JobNotWritten, 0, 0))
    ensures Step(Taken0(po, qo, Loose(JobNotWritten, 0, 0)), e) == Taken0(po, qo, Sent(JobNotWritten, 0, 0, 0))
  {
    FirstMoves(po, qo, fail, Pointing(0), Loose(JobNotWritten, 0, 0));
    FirstMoves(po, qo, e, Loose(JobNotWritten, 0, 0), Sent(JobNotWritten, 0, 0, 0));
  }

  lemma FirstMoves(po: Post, qo: Post, e: Event, from: Phase, to: Phase)
    requires e.p == 0 && e.at == 0
    requires var s := Taken0(po, qo, from); Advance(s.store, po.(phase := from), 0, e.fault, e.outcome) == (s.store, to)
    ensures Step(Taken0(po, qo, from), e) == Taken0(po, qo, to)
  {
    assert map[0 := po.(phase := from), 1 := qo][0 := po.(phase := to)] == map[0 := po.(phase := to), 1 := qo];
  }

  lemma RetrySends(winner: Post, po: Post, qo: Post, e: Event, lag: nat) returns (es: seq<Event>)
    requires !qo.explicit && qo.guarded && qo.phase == Arrived && qo == po.(id := qo.id)
    requires e.p == 1 && !e.fault && 0 < e.at <= DEDUP_WINDOW
    ensures var s := System(map[0 := winner, 1 := qo], map[po.Pointer() := Entry(IdValue(po.id), DEDUP_WINDOW)], 0);
      && IsRun(s, es, lag) && es == [e, e, e, e]
      && After(s, es, lag).posts[0] == winner && After(s, es, lag).posts[1].phase == Sent(Vanished, e.at, e.at, e.at)
  {
    var store := map[po.Pointer() := Entry(IdValue(po.id), DEDUP_WINDOW)];
    var s1 := System(map[0 := winner, 1 := qo], store, 0);
    var s2 := System(map[0 := winner, 1 := qo.(phase := Beaten(e.at))], store, e.at);
    var s3 := System(map[0 := winner, 1 := qo.(phase := Directed(po.id, e.at))], store, e.at);
    var s4 := System(map[0 := winner, 1 := qo.(phase := Loose(Vanished, e.at, e.at))], store, e.at);
    assert Step(s1, e) == s2;
    assert Step(s2, e) == s3;
    assert Step(s3, e) == s4 by { KeysApart(qo.tenant, qo.bridge, po.id, po.tenant, po.fingerprint); }
    Prepend(s4, e, [], lag);
    Prepend(s3, e, [e] + [], lag);
    Prepend(s2, e, [e] + ([e] + []), lag);
    Prepend(s1, e, [e] + ([e] + ([e] + [])), lag);
    es := [e] + ([e] + ([e] + ([e] + [])));
  }
}
