/** The command endpoint over the in-memory job store, statement by statement. */
module CommandHandler {
  import opened Options
  import opened Clock
  import opened CommandJobs
  import opened CommandRuns

  // ---------- outcomes and answers ----------

  datatype Failure = BadArgs | UnknownCmd | SendFailed | Other

  /** What the commander came back with. */
  datatype Sending = Answered(body: string) | Failed(kind: Failure, message: string)

  predicate TimeoutAt(message: string, i: int) {
    0 <= i <= |message| - 7 && message[i..i + 7] == "timeout"
  }

  ghost predicate MentionsTimeout(message: string) {
    exists i :: TimeoutAt(message, i)
  }

  ghost function OutcomeOf(r: Sending, expired: bool): Outcome {
    match r
    case Answered(body) => Outcome(200, body, "")
    case Failed(kind, message) =>
      if expired then Outcome(504, "", "timeout waiting for bridge response")
      else if MentionsTimeout(message) then Outcome(504, "", message)
      else match kind
        case BadArgs => Outcome(400, "", message)
        case UnknownCmd => Outcome(400, "", message)
        case SendFailed => Outcome(502, "", message)
        case Other => Outcome(500, "", "internal error")
  }

  /** The commander failed with no sign of a timeout. */
  ghost predicate FailedPlainly(r: Sending, expired: bool) {
    r.Failed? && !expired && !MentionsTimeout(r.message)
  }

  /** The status says exactly how a run ended; the body is the bridge's own, and the error its
      own or one of two fixed texts. */
  lemma StatusTellsHow(r: Sending, expired: bool)
    ensures var o := OutcomeOf(r, expired);
      && (o.status == 200 <==> r.Answered?)
      && (o.status == 504 <==> r.Failed? && (expired || MentionsTimeout(r.message)))
      && (o.status == 400 <==> FailedPlainly(r, expired) && r.kind in {BadArgs, UnknownCmd})
      && (o.status == 502 <==> FailedPlainly(r, expired) && r.kind == SendFailed)
      && (o.status == 500 <==> FailedPlainly(r, expired) && r.kind == Other)
      && o.status in {200, 400, 500, 502, 504}
      && (r.Answered? ==> o.body == r.body && o.error == "")
      && (r.Failed? ==> o.body == "")
      && (r.Failed? && expired ==> o.error == "timeout waiting for bridge response")
      && (o.status in {400, 502} || (o.status == 504 && !expired) ==> o.error == r.message)
      && (o.status == 500 ==> o.error == "internal error")
  {
  }

  /** When the text of an unforeseen failure gets out: two of them can be told apart exactly
      when the context has not expired and one of two different messages mentions a timeout. */
  lemma UnforeseenTextGetsOut(m: string, m': string, expired: bool)
    ensures OutcomeOf(Failed(Other, m), expired) != OutcomeOf(Failed(Other, m'), expired)
       <==> !expired && m != m' && (MentionsTimeout(m) || MentionsTimeout(m'))
  {
  }

  datatype Reply = Response(body: string) | Error(status: int, text: string) | Accepted(id: string)

  /** What a caller is told who waited for its own command. */
  function Direct(o: Outcome): Reply {
    if o.status != 200 then Error(o.status, o.error) else Response(o.body)
  }

  /** What a caller is told who is handed a job. */
  function WriteJob(j: Job): Reply {
    match j.outcome
    case None => Accepted(j.id)
    case Some(o) => if o.status >= 400 then Error(o.status, o.error) else Response(o.body)
  }

  /** A replayed outcome reads as the first caller's answer exactly for a 200 or an error. */
  lemma ReplayReadsTheSame(id: string, o: Outcome)
    ensures WriteJob(Job(id, Some(o))) == Direct(o) <==> o.status == 200 || o.status >= 400
  {
  }

  /** So whoever repeats a request id in the two hours after the command finished is told
      what the first caller was told. */
  lemma RepeatIsToldTheSame(s: System, start: System, es: seq<Event>, lag: int, p: nat, q: nat, r: Sending, expired: bool)
    requires Reached(s, start, es, lag) && lag <= 59 * MINUTE
    requires Rivals(s, p, q) && s.posts[p].phase.Finished? && s.posts[p].phase.recorded && Decided(s.posts[q])
    requires s.posts[p].phase.outcome == OutcomeOf(r, expired)
    requires s.posts[p].phase.ended < DecidedAt(s.posts[q]) <= s.posts[p].phase.ended + 2 * HOUR
    ensures s.posts[q].phase.Handed? && WriteJob(s.posts[q].phase.job) == Direct(s.posts[p].phase.outcome)
    ensures r.Answered? ==> WriteJob(s.posts[q].phase.job) == Response(r.body)
    ensures r.Failed? ==> WriteJob(s.posts[q].phase.job).Error? && WriteJob(s.posts[q].phase.job).status in {400, 500, 502, 504}
  {
    FinishedIsReplayed(s, start, es, lag, p, q);
    ReplayReadsTheSame(s.posts[p].id, s.posts[p].phase.outcome);
  }

  /** And whoever repeats it while the command is still running is told its request id. */
  lemma RepeatIsToldToWait(s: System, start: System, es: seq<Event>, lag: int, e: Event, p: nat)
    requires Reached(s, start, es, lag) && lag <= 59 * MINUTE && Legal(s, e, lag) && !e.fault
    requires Rivals(s, p, e.p) && s.posts[e.p].explicit && s.posts[e.p].phase.Beaten?
    requires (s.posts[p].phase.Holding? || s.posts[p].phase.Running?) && e.at <= s.posts[p].HoldUntil()
    ensures Step(s, e).posts[e.p].phase.Handed? && WriteJob(Step(s, e).posts[e.p].phase.job) == Accepted(s.posts[p].id)
  {
    KeptIsHanded(s, start, es, lag, e, p);
  }

  // ---------- the claim, run to its end ----------

  /** The store operations of a claim in order, each with its time and whether it failed. */
  type Op = (int, bool)

  predicate Settled(phase: Phase) {
    !(phase.Arrived? || phase.Pointing? || phase.Beaten? || phase.Directed?)
  }

  function Next(store: Store, po: Post, op: Op): (Store, Post) {
    if Settled(po.phase) then (store, po)
    else
      var next := Advance(store, po, op.0, op.1, Outcome(0, "", ""));
      (next.0, po.(phase := next.1))
  }

  /** Three operations are enough. */
  function Settle(store: Store, po: Post, first: Op, second: Op, third: Op): (r: (Store, Phase))
    requires po.phase == Arrived
    ensures r.1.Holding? || r.1.Handed? || r.1.Loose?
  {
    var a := Next(store, po, first);
    var b := Next(a.0, a.1, second);
    var c := Next(b.0, b.1, third);
    (c.0, c.1.phase)
  }

  class MemoryKV {
    var data: Store

    method Live(key: string, at: int) returns (found: bool)
      modifies this
      ensures data == Touched(old(data), key, at) && found == Taken(old(data), key, at)
    {
      found := key in data;
      if found && at > data[key].expires {
        data := data - {key};
        found := false;
      }
    }

    method SetNX(key: string, value: Value, ttl: int, at: int) returns (ok: bool)
      modifies this
      ensures ok == !Taken(old(data), key, at)
      ensures data == if ok then old(data)[key := Entry(value, at + ttl)] else old(data)
    {
      var found := Live(key, at);
      if found {
        return false;
      }
      data := data[key := Entry(value, at + ttl)];
      return true;
    }

    method Set(key: string, value: Value, ttl: int, at: int)
      modifies this
      ensures data == old(data)[key := Entry(value, at + ttl)]
    {
      data := data[key := Entry(value, at + ttl)];
    }

    method Get(key: string, at: int) returns (value: Option<Value>)
      modifies this
      ensures data == Touched(old(data), key, at)
      ensures value == if Taken(old(data), key, at) then Some(old(data)[key].value) else None
    {
      var found := Live(key, at);
      value := if found then Some(data[key].value) else None;
    }
  }

  /** `Begin`'s results: the claim is won, another's job is current, nothing is, or an error. */
  datatype Begun = Won | Current(job: Job) | Nothing | Failure

  function BegunOf(phase: Phase): Begun {
    match phase
    case Holding(_, _) => Won
    case Handed(job, _, _) => Current(job)
    case _ => Nothing
  }

  /** The two ways to go on without a claim are not told apart by the caller. */
  predicate SameBegun(r: Begun, phase: Phase) {
    if phase.Loose? then r == Nothing || r == Failure else r == BegunOf(phase)
  }

  class BridgeCommandHandler {
    const jobs: MemoryKV

    constructor ()
      ensures fresh(jobs) && jobs.data == map[]
    {
      var kv := new MemoryKV;
      jobs := kv;
      new;
      kv.data := map[];
    }

    method GetJob(key: string, op: Op) returns (r: Begun)
      modifies jobs
      ensures jobs.data == if op.1 then old(jobs.data) else Touched(old(jobs.data), key, op.0)
      ensures forall begun :: SameBegun(r, if op.1 then Loose(StoreError, begun, op.0) else ReadJob(old(jobs.data), key, begun, op.0))
    {
      if op.1 {
        return Failure;
      }
      var value := jobs.Get(key, op.0);
      match value
      case None => return Nothing;
      case Some(IdValue(_)) => return Failure;
      case Some(JobValue(job)) => return Current(job);
    }

    method Begin(po: Post, first: Op, second: Op, third: Op) returns (r: Begun)
      requires po.phase == Arrived && po.guarded
      modifies jobs
      ensures jobs.data == Settle(old(jobs.data), po, first, second, third).0
      ensures SameBegun(r, Settle(old(jobs.data), po, first, second, third).1)
    {
      var pending := JobValue(Job(po.id, None));
      if first.1 {
        return Failure;
      }
      if po.explicit {
        var ok := jobs.SetNX(po.Key(), pending, RETENTION, first.0);
        if ok {
          return Won;
        }
        r := GetJob(po.Key(), second);
        return;
      }
      var ok := jobs.SetNX(po.Pointer(), IdValue(po.id), DEDUP_WINDOW, first.0);
      if ok {
        if second.1 {
          return Failure;
        }
        jobs.Set(po.Key(), pending, RETENTION, second.0);
        return Won;
      }
      if second.1 {
        return Failure;
      }
      var pointer := jobs.Get(po.Pointer(), second.0);
      match pointer
      case None => return Failure;
      case Some(JobValue(_)) => return Failure;
      case Some(IdValue(id)) =>
        r := GetJob(JobKey(po.tenant, po.bridge, id), third);
    }

    method Finish(po: Post, outcome: Outcome, op: Op)
      requires po.phase.Running?
      modifies jobs
      ensures jobs.data == Advance(old(jobs.data), po, op.0, op.1, outcome).0
    {
      if !op.1 {
        jobs.Set(po.Key(), JobValue(Job(po.id, Some(outcome))), RETENTION, op.0);
      }
    }

    /** A POST: claim, then either hand out another's job or run and record. An asynchronous
        one that won is answered with its own pending job before the run; one that holds no
        claim waits for it like any other. */
    method SendCommand(po: Post, async: bool, first: Op, second: Op, third: Op, started: int, r: Sending, expired: bool, last: Op)
      returns (reply: Reply, sent: bool)
      requires po.phase == Arrived
      modifies jobs
      ensures var claim := Settle(old(jobs.data), po, first, second, third);
        var phase := claim.1;
        && sent == !phase.Handed?
        && reply == (if phase.Handed? then WriteJob(phase.job)
                     else if async && phase.Holding? then Accepted(po.id)
                     else Direct(OutcomeOf(r, expired)))
        && (jobs.data ==
            if phase.Holding? && !last.1
            then claim.0[po.Key() := Entry(JobValue(Job(po.id, Some(OutcomeOf(r, expired)))), last.0 + RETENTION)]
            else claim.0)
        && (r.Answered? && !phase.Handed? && !(async && phase.Holding?) ==> reply == Response(r.body))
        && (r.Answered? && phase.Holding? && !last.1 ==>
              && po.Key() in jobs.data
              && jobs.data[po.Key()] == Entry(JobValue(Job(po.id, Some(Outcome(200, r.body, "")))), last.0 + 2 * HOUR))
        && (r.Failed? && !phase.Handed? && !(async && phase.Holding?) ==>
              reply.Error? && (reply.status == 504 <==> expired || MentionsTimeout(r.message)))
    {
      ghost var claim := Settle(jobs.data, po, first, second, third);
      var won := false;
      if po.guarded {
        var begun := Begin(po, first, second, third);
        match begun
        case Current(job) =>
          return WriteJob(job), false;
        case Won =>
          won := true;
        case _ =>
      }
      assert won <==> claim.1.Holding?;
      sent := true;
      if async && won {
        reply := WriteJob(Job(po.id, None));
        var later := Run(r, expired);
        Finish(po.(phase := Running(first.0, first.0, started)), later, last);
        return;
      }
      var outcome := Run(r, expired);
      if won {
        Finish(po.(phase := Running(first.0, first.0, started)), outcome, last);
      }
      reply := Direct(outcome);
    }
  }

  method IsTimeoutError(message: string) returns (found: bool)
    ensures found <==> MentionsTimeout(message)
  {
    var i := 0;
    while i <= |message| - 7
      invariant 0 <= i
      invariant forall j | 0 <= j < i :: !TimeoutAt(message, j)
    {
      if message[i..i + 7] == "timeout" {
        assert TimeoutAt(message, i);
        return true;
      }
      i := i + 1;
    }
    return false;
  }

  /** The run's outcome, and the status the API answers with. */
  method Run(r: Sending, expired: bool) returns (o: Outcome)
    ensures o == OutcomeOf(r, expired)
  {
    match r
    case Answered(body) => o := Outcome(200, body, "");
    case Failed(kind, message) =>
      if expired {
        return Outcome(504, "", "timeout waiting for bridge response");
      }
      var timeout := IsTimeoutError(message);
      if timeout {
        return Outcome(504, "", message);
      }
      if kind == BadArgs || kind == UnknownCmd {
        return Outcome(400, "", message);
      }
      if kind == SendFailed {
        return Outcome(502, "", message);
      }
      o := Outcome(500, "", "internal error");
  }
}
