/** Bridge commands claimed before they are sent: the key-value store of jobs, and what one
    POST does against it, one store operation at a time. */
module CommandJobs {
  import opened Options
  import opened Clock

  const RETENTION: int := 2 * HOUR
  const DEDUP_WINDOW: int := 90 * SECOND
  const WRITE_BUDGET: int := 61 * MINUTE

  // ---------- the store ----------

  /** What the command came to: the status a synchronous caller is given, and its body. */
  datatype Outcome = Outcome(status: int, body: string, error: string)

  /** A command; pending while it has no outcome. */
  datatype Job = Job(id: string, outcome: Option<Outcome>)

  datatype Value = JobValue(job: Job) | IdValue(id: string)

  datatype Entry = Entry(value: Value, expires: int)

  type Store = map<string, Entry>

  function JobKey(tenant: string, bridge: string, id: string): string {
    "cmdjob:" + tenant + ":" + bridge + ":" + id
  }

  function PointerKey(tenant: string, fingerprint: string): string {
    "cmdjobfp:" + tenant + ":" + fingerprint
  }

  /** A job and a pointer never share a key. */
  lemma KeysApart(t: string, b: string, id: string, t': string, f: string)
    ensures JobKey(t, b, id) != PointerKey(t', f)
  {
    assert JobKey(t, b, id)[6] == ':' && PointerKey(t', f)[6] == 'f';
  }

  /** The key is there and has not expired. */
  predicate Taken(store: Store, key: string, at: int) {
    key in store && at <= store[key].expires
  }

  /** A look at a key drops it once it has expired. */
  function Touched(store: Store, key: string, at: int): Store {
    if key in store && !Taken(store, key, at) then store - {key} else store
  }

  // ---------- one POST ----------

  /** Why a POST goes on without a claim: its command is not one that is claimed, a store
      error before it took anything, one after it took the fingerprint, or nothing found. */
  datatype Why = NotClaimed | StoreError | JobNotWritten | Vanished

  datatype Phase =
    | Arrived
    | Pointing(claimed: int)                 // the fingerprint is claimed, the job not yet written
    | Beaten(begun: int)                     // the claim was lost
    | Directed(first: string, begun: int)    // the pointer was read
    | Holding(claimed: int, stored: int)     // the claim is won and its job is written
    | Running(claimed: int, stored: int, started: int)
    | Finished(claimed: int, stored: int, started: int, ended: int, outcome: Outcome, recorded: bool)
    | Handed(job: Job, begun: int, at: int)  // answered with another POST's job
    | Loose(why: Why, begun: int, at: int)   // goes on without a claim
    | Sent(why: Why, begun: int, at: int, started: int)

  /** `explicit`: the caller gave the request id; otherwise the id is generated. `guarded`:
      the command is one that is claimed at all. */
  datatype Post = Post(tenant: string, bridge: string, id: string, fingerprint: string,
                       explicit: bool, guarded: bool, phase: Phase)
  {
    function Key(): string {
      JobKey(tenant, bridge, id)
    }

    function Pointer(): string {
      PointerKey(tenant, fingerprint)
    }

    /** It has won the claim and its job is in the store. */
    predicate Holds() {
      phase.Holding? || phase.Running? || phase.Finished?
    }

    /** It has won the claim on its fingerprint, whatever became of its job. */
    predicate Points() {
      !explicit && (phase.Pointing? || Holds() || ((phase.Loose? || phase.Sent?) && phase.why == JobNotWritten))
    }

    /** When it won that claim. */
    function PointedAt(): int
      requires Points()
    {
      if phase.Loose? || phase.Sent? then phase.begun else phase.claimed
    }

    /** Its job as last written. */
    function JobOf(): Job {
      Job(id, if phase.Finished? && phase.recorded then Some(phase.outcome) else None)
    }

    /** How long its job stays in the store. */
    function HoldUntil(): int
      requires Holds()
    {
      RETENTION + if phase.Finished? && phase.recorded then phase.ended else phase.stored
    }

    /** It sends the command. */
    predicate Sends() {
      phase.Running? || phase.Finished? || phase.Sent?
    }
  }

  /** The next store operation of a POST, or the start or end of its run. */
  function Advance(store: Store, po: Post, at: int, fault: bool, outcome: Outcome): (Store, Phase) {
    var job, pending := po.Key(), JobValue(Job(po.id, None));
    match po.phase
    case Arrived =>
      if !po.guarded then (store, Loose(NotClaimed, at, at))
      else if fault then (store, Loose(StoreError, at, at))
      else if po.explicit then
        if Taken(store, job, at) then (store, Beaten(at))
        else (store[job := Entry(pending, at + RETENTION)], Holding(at, at))
      else
        if Taken(store, po.Pointer(), at) then (store, Beaten(at))
        else (store[po.Pointer() := Entry(IdValue(po.id), at + DEDUP_WINDOW)], Pointing(at))
    case Pointing(claimed) =>
      if fault then (store, Loose(JobNotWritten, claimed, at))
      else (store[job := Entry(pending, at + RETENTION)], Holding(claimed, at))
    case Beaten(begun) =>
      if fault then (store, Loose(StoreError, begun, at))
      else if po.explicit then (Touched(store, job, at), ReadJob(store, job, begun, at))
      else if !Taken(store, po.Pointer(), at) then (Touched(store, po.Pointer(), at), Loose(Vanished, begun, at))
      else
        match store[po.Pointer()].value {
          case IdValue(first) => (store, Directed(first, begun))
          case JobValue(_) => (store, Loose(StoreError, begun, at))
        }
    case Directed(first, begun) =>
      if fault then (store, Loose(StoreError, begun, at))
      else
        var key := JobKey(po.tenant, po.bridge, first);
        (Touched(store, key, at), ReadJob(store, key, begun, at))
    case Holding(claimed, stored) => (store, Running(claimed, stored, at))
    case Running(claimed, stored, started) =>
      (if fault then store else store[job := Entry(JobValue(Job(po.id, Some(outcome))), at + RETENTION)],
       Finished(claimed, stored, started, at, outcome, !fault))
    case Loose(why, begun, since) => (store, Sent(why, begun, since, at))
    case _ => (store, po.phase)
  }

  function ReadJob(store: Store, key: string, begun: int, at: int): Phase {
    if !Taken(store, key, at) then Loose(Vanished, begun, at)
    else
      match store[key].value
      case JobValue(job) => Handed(job, begun, at)
      case IdValue(_) => Loose(StoreError, begun, at)
  }
}
