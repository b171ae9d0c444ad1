/** Whose job a POST is handed: one of its own tenant and bridge, with its own request id or
    the id of a POST with its fingerprint. */
module CommandOwners {
  import opened Options
  import opened Text
  import opened CommandJobs
  import opened CommandRuns

  // ---------- the keys are unambiguous ----------

  predicate Plain(po: Post) {
    ':' !in po.tenant && ':' !in po.bridge
  }

  lemma FirstPart(a: string, rest: string, a': string, rest': string)
    requires ':' !in a && ':' !in a' && a + [':'] + rest == a' + [':'] + rest'
    ensures a == a' && rest == rest'
  {
    JoinSplits(a, ':', rest);
    JoinSplits(a', ':', rest');
    var s := a + [':'] + rest;
    assert s[..|a|] == a && s[..|a'|] == a';
    assert s[|a| + 1..] == rest && s[|a'| + 1..] == rest';
  }

  /** Different commands never share a job row, as long as neither tenant nor bridge id holds
      the separator; request ids may. */
  lemma JobKeysDiffer(t: string, b: string, id: string, t': string, b': string, id': string)
    requires ':' !in t && ':' !in b && ':' !in t' && ':' !in b'
    ensures JobKey(t, b, id) == JobKey(t', b', id') <==> t == t' && b == b' && id == id'
  {
    if JobKey(t, b, id) == JobKey(t', b', id') {
      var rest, rest' := b + [':'] + id, b' + [':'] + id';
      assert JobKey(t, b, id) == "cmdjob:" + (t + [':'] + rest) && JobKey(t', b', id') == "cmdjob:" + (t' + [':'] + rest');
      assert JobKey(t, b, id)[7..] == t + [':'] + rest && JobKey(t', b', id')[7..] == t' + [':'] + rest';
      FirstPart(t, rest, t', rest');
      FirstPart(b, id, b', id');
    }
  }

  lemma PointerKeysDiffer(t: string, f: string, t': string, f': string)
    requires ':' !in t && ':' !in t'
    ensures PointerKey(t, f) == PointerKey(t', f') <==> t == t' && f == f'
  {
    if PointerKey(t, f) == PointerKey(t', f') {
      assert PointerKey(t, f) == "cmdjobfp:" + (t + [':'] + f) && PointerKey(t', f') == "cmdjobfp:" + (t' + [':'] + f');
      assert PointerKey(t, f)[9..] == t + [':'] + f && PointerKey(t', f')[9..] == t' + [':'] + f';
      FirstPart(t, f, t', f');
    }
  }

  /** A bridge id that holds the separator can share another bridge's row. */
  lemma ColonsClash(t: string, b: string, c: string, id: string)
    ensures JobKey(t, b + ":" + c, id) == JobKey(t, b, c + ":" + id)
  {
    assert JobKey(t, b + ":" + c, id) == "cmdjob:" + t + ":" + b + ":" + c + ":" + id;
  }

  // ---------- the invariant ----------

  /** The job is what POST `p` has stored under the key, now or earlier. */
  predicate JobBy(s: System, p: nat, key: string, job: Job) {
    && p in s.posts && s.posts[p].Holds() && s.posts[p].Key() == key
    && (job == Job(s.posts[p].id, None)
        || (s.posts[p].phase.Finished? && s.posts[p].phase.recorded && job == Job(s.posts[p].id, Some(s.posts[p].phase.outcome))))
  }

  /** POST `w` took the fingerprint under the key. */
  predicate PointedBy(s: System, w: nat, key: string, id: string) {
    w in s.posts && s.posts[w].Points() && s.posts[w].Pointer() == key && s.posts[w].id == id
  }

  ghost predicate EntryOk(s: System, key: string)
    requires key in s.store
  {
    match s.store[key].value
    case JobValue(job) => exists p :: JobBy(s, p, key, job)
    case IdValue(id) => exists w :: PointedBy(s, w, key, id)
  }

  /** The id under which a POST that lost its claim was told to look. */
  ghost predicate LooksUnder(s: System, q: nat, id: string)
    requires q in s.posts
  {
    if s.posts[q].explicit then id == s.posts[q].id
    else exists w :: PointedBy(s, w, s.posts[q].Pointer(), id)
  }

  /** A handed job, the POST that stored it and the id it was found under. */
  predicate HandedBy(s: System, q: nat, p: nat, id: string)
    requires q in s.posts && s.posts[q].phase.Handed?
  {
    JobBy(s, p, JobKey(s.posts[q].tenant, s.posts[q].bridge, id), s.posts[q].phase.job)
  }

  ghost predicate LookOk(s: System, q: nat)
    requires q in s.posts
  {
    && (s.posts[q].phase.Directed? ==> !s.posts[q].explicit && LooksUnder(s, q, s.posts[q].phase.first))
    && (s.posts[q].phase.Handed? ==> exists p, id :: HandedBy(s, q, p, id) && LooksUnder(s, q, id))
    && (s.posts[q].phase.Pointing? ==> !s.posts[q].explicit)
  }

  ghost predicate OwnersInv(s: System) {
    (forall key | key in s.store :: EntryOk(s, key)) && (forall q | q in s.posts :: LookOk(s, q))
  }

  lemma JobByStays(s: System, e: Event, p: nat, key: string, job: Job)
    requires e.p in s.posts && JobBy(s, p, key, job)
    ensures JobBy(Step(s, e), p, key, job)
  {
  }

  lemma PointedByStays(s: System, e: Event, w: nat, key: string, id: string)
    requires e.p in s.posts && PointedBy(s, w, key, id)
    ensures PointedBy(Step(s, e), w, key, id)
  {
  }

  lemma LooksStays(s: System, e: Event, q: nat, id: string)
    requires e.p in s.posts && q in s.posts && LooksUnder(s, q, id)
    ensures LooksUnder(Step(s, e), q, id)
  {
    if !s.posts[q].explicit {
      var w :| PointedBy(s, w, s.posts[q].Pointer(), id);
      PointedByStays(s, e, w, s.posts[q].Pointer(), id);
      assert PointedBy(Step(s, e), w, Step(s, e).posts[q].Pointer(), id);
    }
  }

  lemma EntryStep(s: System, e: Event, key: string)
    requires OwnersInv(s) && e.p in s.posts && key in Step(s, e).store
    ensures EntryOk(Step(s, e), key)
  {
    var s' := Step(s, e);
    if key in s.store && s'.store[key] == s.store[key] {
      assert EntryOk(s, key);
      match s.store[key].value
      case JobValue(job) =>
        var p :| JobBy(s, p, key, job);
        JobByStays(s, e, p, key, job);
      case IdValue(id) =>
        var w :| PointedBy(s, w, key, id);
        PointedByStays(s, e, w, key, id);
    } else {
      Written(s, e, key);
    }
  }

  /** What a step writes is the mover's own. */
  lemma Written(s: System, e: Event, key: string)
    requires e.p in s.posts && LookOk(s, e.p) && key in Step(s, e).store
    requires key !in s.store || Step(s, e).store[key] != s.store[key]
    ensures EntryOk(Step(s, e), key)
  {
    var s' := Step(s, e);
    match s'.store[key].value
    case JobValue(job) => assert JobBy(s', e.p, key, job);
    case IdValue(id) => assert PointedBy(s', e.p, key, id);
  }

  lemma LookStep(s: System, e: Event, q: nat)
    requires OwnersInv(s) && e.p in s.posts && q in s.posts
    ensures LookOk(Step(s, e), q)
  {
    assert LookOk(s, q);
    if q == e.p && (s.posts[q].phase.Beaten? || s.posts[q].phase.Directed?) {
      Looked(s, e);
    } else if q != e.p && s.posts[q].phase.Directed? {
      LooksStays(s, e, q, s.posts[q].phase.first);
    } else if s.posts[q].phase.Handed? {
      var p, id :| HandedBy(s, q, p, id) && LooksUnder(s, q, id);
      JobByStays(s, e, p, JobKey(s.posts[q].tenant, s.posts[q].bridge, id), s.posts[q].phase.job);
      LooksStays(s, e, q, id);
      assert HandedBy(Step(s, e), q, p, id);
    }
  }

  /** A lookup reads what is stored under its key. */
  lemma Looked(s: System, e: Event)
    requires OwnersInv(s) && e.p in s.posts && (s.posts[e.p].phase.Beaten? || s.posts[e.p].phase.Directed?)
    ensures LookOk(Step(s, e), e.p)
  {
    var s', po := Step(s, e), s.posts[e.p];
    assert LookOk(s, e.p);
    if s'.posts[e.p].phase.Handed? {
      var id := if po.phase.Directed? then po.phase.first else po.id;
      var key := JobKey(po.tenant, po.bridge, id);
      assert EntryOk(s, key);
      var p :| JobBy(s, p, key, s'.posts[e.p].phase.job);
      JobByStays(s, e, p, key, s'.posts[e.p].phase.job);
      assert LooksUnder(s, e.p, id);
      LooksStays(s, e, e.p, id);
      assert HandedBy(s', e.p, p, id);
    } else if s'.posts[e.p].phase.Directed? {
      var id := s'.posts[e.p].phase.first;
      if po.phase.Beaten? {
        assert EntryOk(s, po.Pointer());
      }
      assert LooksUnder(s, e.p, id);
      LooksStays(s, e, e.p, id);
    }
  }

  lemma {:induction false} RunOwners(s: System, es: seq<Event>, lag: int)
    requires OwnersInv(s) && IsRun(s, es, lag)
    ensures OwnersInv(After(s, es, lag))
    decreases |es|
  {
    if es != [] {
      var s' := Step(s, es[0]);
      forall key | key in s'.store ensures EntryOk(s', key) {
        EntryStep(s, es[0], key);
      }
      forall q | q in s'.posts ensures LookOk(s', q) {
        LookStep(s, es[0], q);
      }
      RunOwners(s', es[1..], lag);
    }
  }

  // ---------- the promise ----------

  /** Whatever happens, a POST is handed only a job of its own tenant and bridge, that a holder
      has stored, as it stood pending or recorded; under the request id it gave, or else under
      the id of a POST of its tenant that took its fingerprint. */
  lemma HandedIsOwn(start: System, es: seq<Event>, lag: int, q: nat) returns (p: nat, w: nat)
    requires Start(start) && IsRun(start, es, lag) && q in start.posts
    requires forall x | x in After(start, es, lag).posts :: Plain(After(start, es, lag).posts[x])
    requires After(start, es, lag).posts[q].phase.Handed?
    ensures var posts := After(start, es, lag).posts;
      var job := posts[q].phase.job;
      && p in posts && posts[p].Holds() && job.id == posts[p].id
      && posts[p].tenant == posts[q].tenant && posts[p].bridge == posts[q].bridge
      && (job.outcome.Some? ==> posts[p].phase.Finished? && posts[p].phase.recorded && job.outcome.value == posts[p].phase.outcome)
      && (posts[q].explicit ==> job.id == posts[q].id)
      && (!posts[q].explicit ==>
            w in posts && !posts[w].explicit && posts[w].id == job.id
            && posts[w].tenant == posts[q].tenant && posts[w].fingerprint == posts[q].fingerprint)
  {
    var s := After(start, es, lag);
    RunOwners(start, es, lag);
    assert LookOk(s, q);
    var id;
    p, id :| HandedBy(s, q, p, id) && LooksUnder(s, q, id);
    var po, qo := s.posts[p], s.posts[q];
    JobKeysDiffer(po.tenant, po.bridge, po.id, qo.tenant, qo.bridge, id);
    w := q;
    if !qo.explicit {
      w :| PointedBy(s, w, qo.Pointer(), id);
      PointerKeysDiffer(s.posts[w].tenant, s.posts[w].fingerprint, qo.tenant, qo.fingerprint);
    }
  }

  // ---------- which commands are claimed ----------

  /** A command that is not one to claim goes straight out; any other tries its claim first. */
  predicate ClaimFits(po: Post) {
    || po.phase.Arrived?
    || (po.guarded <==> !((po.phase.Loose? || po.phase.Sent?) && po.phase.why == NotClaimed))
  }

  /** The POSTs that go out unclaimed are exactly those whose command is not one to claim, and
      none of these holds a job, is handed one, or waits for one. */
  lemma {:induction false} ClaimedIffGuarded(s: System, es: seq<Event>, lag: int, q: nat)
    requires IsRun(s, es, lag) && q in s.posts && ClaimFits(s.posts[q])
    ensures ClaimFits(After(s, es, lag).posts[q])
    decreases |es|
  {
    if es != [] {
      ClaimedIffGuarded(Step(s, es[0]), es[1..], lag, q);
    }
  }

  /** Nor do they leave anything in the store. */
  lemma UnguardedStoresNothing(s: System, e: Event)
    requires e.p in s.posts && !s.posts[e.p].guarded && ClaimFits(s.posts[e.p])
    ensures Step(s, e).store == s.store
  {
  }
}
