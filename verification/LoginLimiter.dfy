/** The per-address login limiter: a table of windows that is swept on the way past, and
    how many failed attempts it lets through. */
module LoginLimiter {
  import opened Clock

  const MAX_PER_IP: nat := 5
  const WINDOW: int := 15 * MINUTE
  const SWEEP_AT: nat := 1024

  datatype Attempt = Attempt(count: nat, windowEnd: int)

  type Table = map<string, Attempt>

  predicate Expired(a: Attempt, now: int) {
    now > a.windowEnd
  }

  function Sweep(m: Table, now: int): Table {
    map ip | ip in m && !Expired(m[ip], now) :: m[ip]
  }

  /** The decision on an attempt, on a table that is never swept. */
  function Admit(m: Table, ip: string, now: int): (Table, bool) {
    if ip !in m || Expired(m[ip], now) then (m[ip := Attempt(0, now + WINDOW)], true)
    else (m, m[ip].count < MAX_PER_IP)
  }

  function AllowIP(m: Table, ip: string, now: int): (Table, bool) {
    Admit(if |m| > SWEEP_AT then Sweep(m, now) else m, ip, now)
  }

  function RecordAttempt(m: Table, ip: string): Table {
    if ip in m then m[ip := m[ip].(count := m[ip].count + 1)] else m
  }

  // ---------- sweeping changes no answer ----------

  datatype Call = Allow(ip: string, now: int) | Record(ip: string)

  /** The answers to the allow calls of a run, with and without sweeping. */
  function Answers(m: Table, calls: seq<Call>, sweeps: bool): seq<bool>
    decreases |calls|
  {
    if calls == [] then []
    else
      match calls[0]
      case Allow(ip, now) =>
        var r := if sweeps then AllowIP(m, ip, now) else Admit(m, ip, now);
        [r.1] + Answers(r.0, calls[1..], sweeps)
      case Record(ip) => Answers(RecordAttempt(m, ip), calls[1..], sweeps)
  }

  predicate ClockRuns(calls: seq<Call>, from: int)
    decreases |calls|
  {
    calls == [] ||
    match calls[0]
    case Allow(_, now) => from <= now && ClockRuns(calls[1..], now)
    case Record(_) => ClockRuns(calls[1..], from)
  }

  /** `m` is `n` without some windows that had already expired at `now`. */
  predicate SweptFrom(m: Table, n: Table, now: int) {
    && (forall ip | ip in m :: ip in n && n[ip] == m[ip])
    && (forall ip | ip in n && ip !in m :: Expired(n[ip], now))
  }

  lemma AllowAgrees(m: Table, n: Table, ip: string, now: int)
    requires SweptFrom(m, n, now)
    ensures AllowIP(m, ip, now).1 == Admit(n, ip, now).1
    ensures SweptFrom(AllowIP(m, ip, now).0, Admit(n, ip, now).0, now)
  {
    var swept := if |m| > SWEEP_AT then Sweep(m, now) else m;
    assert SweptFrom(swept, n, now);
  }

  lemma {:induction false} AnswersAgree(m: Table, n: Table, calls: seq<Call>, from: int)
    requires SweptFrom(m, n, from) && ClockRuns(calls, from)
    ensures Answers(m, calls, true) == Answers(n, calls, false)
    decreases |calls|
  {
    if calls != [] {
      match calls[0]
      case Allow(ip, now) =>
        assert SweptFrom(m, n, now);
        AllowAgrees(m, n, ip, now);
        AnswersAgree(AllowIP(m, ip, now).0, Admit(n, ip, now).0, calls[1..], now);
      case Record(ip) =>
        AnswersAgree(RecordAttempt(m, ip), RecordAttempt(n, ip), calls[1..], from);
    }
  }

  /** In every interleaving of decisions and recorded failures under a clock that does not
      run backwards, the limiter that sweeps answers as one that never does. */
  lemma SweepingIsInvisible(calls: seq<Call>, from: int)
    requires ClockRuns(calls, from)
    ensures Answers(map[], calls, true) == Answers(map[], calls, false)
  {
    AnswersAgree(map[], map[], calls, from);
  }

  /** And the table stays small: after a decision it has at most 1025 windows, or only
      windows that are still open. */
  lemma {:induction false} TableBounded(m: Table, ip: string, now: int)
    ensures var m' := AllowIP(m, ip, now).0;
      |m'| <= 1025 || forall k | k in m' :: now <= m'[k].windowEnd
  {
    var swept := if |m| > SWEEP_AT then Sweep(m, now) else m;
    var m' := AllowIP(m, ip, now).0;
    assert m'.Keys <= swept.Keys + {ip};
    if |m| <= SWEEP_AT {
      AtMostOneMore(m.Keys, m'.Keys, ip);
    }
  }

  lemma AtMostOneMore<T>(s: set<T>, s': set<T>, x: T)
    requires s' <= s + {x}
    ensures |s'| <= |s| + 1
  {
    Subset(s', s + {x});
  }

  lemma {:induction false} Subset<T>(a: set<T>, b: set<T>)
    requires a <= b
    ensures |a| <= |b|
  {
    if a != {} {
      var x :| x in a;
      Subset(a - {x}, b - {x});
    }
  }
}
