/** How many failed logins one address gets. Logins overlap: between the decision to let
    an attempt in and the record of its failure other attempts run. With at most `k` of an
    address in flight at once, a window costs it at most 4 + k failures and any fifteen
    minutes at most twice that; one login at a time (k = 1) gives the intended 5 and 10. */
module LoginBudget {
  import opened Options
  import opened Clock
  import opened LoginLimiter

  /** A failed attempt of the watched address: when, and since when its window was open. */
  datatype Failure = Failure(at: int, since: int)

  /** The table, and what the watched address has done so far. */
  datatype Watch = Watch(table: Table, inFlight: nat, since: Option<int>, failures: seq<Failure>)

  const START := Watch(map[], 0, None, [])

  datatype Event =
    | Begin(ip: string, now: int)               // the decision
    | End(ip: string, now: int, failed: bool)   // the outcome; only a failure is recorded

  function Step(w: Watch, e: Event, x: string): Watch {
    match e
    case Begin(ip, now) =>
      var r := AllowIP(w.table, ip, now);
      if ip != x || !r.1 then w.(table := r.0)
      else w.(table := r.0, inFlight := w.inFlight + 1,
              since := if x !in w.table || Expired(w.table[x], now) then Some(now) else w.since)
    case End(ip, now, failed) =>
      var table := if failed then RecordAttempt(w.table, ip) else w.table;
      if ip != x || w.inFlight == 0 then w.(table := table)
      else w.(table := table, inFlight := w.inFlight - 1,
              failures := if failed && w.since.Some? then w.failures + [Failure(now, w.since.value)] else w.failures)
  }

  /** The clock does not run backwards, only attempts that were let in end, and the watched
      address never has more than `k` in flight. */
  predicate Legal(w: Watch, e: Event, x: string, k: nat, before: int) {
    && before <= e.now
    && (e.Begin? && e.ip == x ==> w.inFlight < k)
    && (e.End? && e.ip == x ==> w.inFlight > 0)
  }

  predicate IsRun(es: seq<Event>, x: string, k: nat) {
    es == [] ||
    (var rest, e := es[..|es| - 1], es[|es| - 1];
     && IsRun(rest, x, k)
     && Legal(After(rest, x), e, x, k, if rest == [] then e.now else rest[|rest| - 1].now))
  }

  function After(es: seq<Event>, x: string): Watch {
    if es == [] then START else Step(After(es[..|es| - 1], x), es[|es| - 1], x)
  }

  /** Failures charged to the window opened at `o`. */
  function InWindow(fs: seq<Failure>, o: int): nat {
    if fs == [] then 0
    else InWindow(fs[..|fs| - 1], o) + if fs[|fs| - 1].since == o then 1 else 0
  }

  /** Failures that happened between `a` and `b`. */
  function Between(fs: seq<Failure>, a: int, b: int): nat {
    if fs == [] then 0
    else Between(fs[..|fs| - 1], a, b) + if a <= fs[|fs| - 1].at <= b then 1 else 0
  }

  // ---------- the invariant ----------

  /** Windows of one address do not overlap, and a failure of an earlier window happens
      before the later one opens. */
  predicate Ordered(fs: seq<Failure>) {
    forall i, j | 0 <= i < |fs| && 0 <= j < |fs| && fs[i].since < fs[j].since ::
      fs[i].since + WINDOW < fs[j].since && fs[i].at <= fs[j].since
  }

  ghost predicate Inv(w: Watch, x: string, k: nat, now: int) {
    && w.inFlight <= k
    && Charged(w.failures, k, now)
    && match w.since
       case None => w.inFlight == 0 && w.failures == [] && x !in w.table
       case Some(o) =>
         && o <= now
         && InWindow(w.failures, o) + w.inFlight <= MAX_PER_IP - 1 + k
         && (x in w.table ==> w.table[x] == Attempt(InWindow(w.failures, o), o + WINDOW))
         && (x !in w.table ==> o + WINDOW < now)
         && BeforeOrIn(w.failures, o)
  }

  ghost predicate Charged(fs: seq<Failure>, k: nat, now: int) {
    && Ordered(fs)
    && (forall i | 0 <= i < |fs| :: fs[i].since <= fs[i].at <= now)
    && (forall o :: InWindow(fs, o) <= MAX_PER_IP - 1 + k)
  }

  /** Every failure is of the window opened at `o`, or of one that was over by then. */
  predicate BeforeOrIn(fs: seq<Failure>, o: int) {
    forall i | 0 <= i < |fs| :: fs[i].since == o || (fs[i].since + WINDOW < o && fs[i].at <= o)
  }

  lemma {:induction false} InWindowZero(fs: seq<Failure>, o: int)
    requires forall i | 0 <= i < |fs| :: fs[i].since != o
    ensures InWindow(fs, o) == 0
  {
    if fs != [] {
      InWindowZero(fs[..|fs| - 1], o);
    }
  }

  lemma BeginKeepsInv(w: Watch, e: Event, x: string, k: nat, before: int)
    requires e.Begin? && Inv(w, x, k, before) && Legal(w, e, x, k, before)
    ensures Inv(Step(w, e, x), x, k, e.now)
  {
    var w' := Step(w, e, x);
    if e.ip == x && (x !in w.table || Expired(w.table[x], e.now)) {
      InWindowZero(w.failures, e.now);
    }
  }

  lemma EndKeepsInv(w: Watch, e: Event, x: string, k: nat, before: int)
    requires e.End? && Inv(w, x, k, before) && Legal(w, e, x, k, before)
    ensures Inv(Step(w, e, x), x, k, e.now)
  {
    if e.ip == x && e.failed {
      FailureKeepsInv(w, x, k, before, e.now);
    }
  }

  lemma FailureKeepsInv(w: Watch, x: string, k: nat, before: int, now: int)
    requires Inv(w, x, k, before) && before <= now && w.inFlight > 0
    ensures Inv(Step(w, End(x, now, true), x), x, k, now)
  {
    ChargeOne(w.failures, Failure(now, w.since.value), k, before);
  }

  lemma ChargeOne(fs: seq<Failure>, f: Failure, k: nat, before: int)
    requires Charged(fs, k, before) && BeforeOrIn(fs, f.since) && f.since <= f.at && before <= f.at
    requires InWindow(fs, f.since) + 1 <= MAX_PER_IP - 1 + k
    ensures Charged(fs + [f], k, f.at) && BeforeOrIn(fs + [f], f.since)
    ensures InWindow(fs + [f], f.since) == InWindow(fs, f.since) + 1
  {
    Append(fs, f);
    forall o ensures InWindow(fs + [f], o) <= MAX_PER_IP - 1 + k {
      assert InWindow(fs, o) <= MAX_PER_IP - 1 + k;
    }
  }

  /** One more failure, charged to the latest window. */
  lemma Append(fs: seq<Failure>, f: Failure)
    requires Ordered(fs) && f.since <= f.at && BeforeOrIn(fs, f.since)
    ensures Ordered(fs + [f]) && BeforeOrIn(fs + [f], f.since)
    ensures forall o :: InWindow(fs + [f], o) == InWindow(fs, o) + if f.since == o then 1 else 0
  {
    assert (fs + [f])[..|fs|] == fs;
  }

  lemma {:induction false} RunInv(es: seq<Event>, x: string, k: nat)
    requires IsRun(es, x, k)
    ensures Inv(After(es, x), x, k, if es == [] then 0 else es[|es| - 1].now)
  {
    if es != [] {
      var rest, e := es[..|es| - 1], es[|es| - 1];
      RunInv(rest, x, k);
      var before := if rest == [] then e.now else rest[|rest| - 1].now;
      assert Inv(After(rest, x), x, k, before);
      if e.Begin? {
        BeginKeepsInv(After(rest, x), e, x, k, before);
      } else {
        EndKeepsInv(After(rest, x), e, x, k, before);
      }
    }
  }

  // ---------- the promises ----------

  /** No window is charged more than 4 + k failures. */
  lemma WindowBudget(es: seq<Event>, x: string, k: nat, o: int)
    requires IsRun(es, x, k)
    ensures InWindow(After(es, x).failures, o) <= 4 + k
  {
    RunInv(es, x, k);
  }

  lemma {:induction false} TwoWindows(fs: seq<Failure>, a: int, b: int, o: int, o': int)
    requires forall i | 0 <= i < |fs| && a <= fs[i].at <= b :: fs[i].since == o || fs[i].since == o'
    ensures Between(fs, a, b) <= InWindow(fs, o) + InWindow(fs, o')
  {
    if fs != [] {
      TwoWindows(fs[..|fs| - 1], a, b, o, o');
    }
  }

  lemma {:induction false} NoneBetween(fs: seq<Failure>, a: int, b: int)
    requires forall i | 0 <= i < |fs| :: !(a <= fs[i].at <= b)
    ensures Between(fs, a, b) == 0
  {
    if fs != [] {
      NoneBetween(fs[..|fs| - 1], a, b);
    }
  }

  /** Any fifteen minutes touch at most two windows, so they hold at most 2 (4 + k) failures. */
  lemma QuarterHourBudget(es: seq<Event>, x: string, k: nat, a: int)
    requires IsRun(es, x, k)
    ensures Between(After(es, x).failures, a, a + 15 * MINUTE) <= 2 * (4 + k)
  {
    RunInv(es, x, k);
    var fs, b := After(es, x).failures, a + WINDOW;
    if i, j :| 0 <= i < |fs| && 0 <= j < |fs| && a <= fs[i].at <= b && a <= fs[j].at <= b && fs[i].since < fs[j].since {
      forall m | 0 <= m < |fs| && a <= fs[m].at <= b ensures fs[m].since == fs[i].since || fs[m].since == fs[j].since {
        MiddleWindow(fs, a, i, j, m);
      }
      TwoWindows(fs, a, b, fs[i].since, fs[j].since);
    } else if i :| 0 <= i < |fs| && a <= fs[i].at <= b {
      TwoWindows(fs, a, b, fs[i].since, fs[i].since);
    } else {
      NoneBetween(fs, a, b);
    }
  }

  /** Three windows do not fit into fifteen minutes. */
  lemma MiddleWindow(fs: seq<Failure>, a: int, i: nat, j: nat, m: nat)
    requires i < |fs| && j < |fs| && m < |fs| && Ordered(fs)
    requires forall n | 0 <= n < |fs| :: fs[n].since <= fs[n].at
    requires a <= fs[i].at <= a + WINDOW && a <= fs[j].at <= a + WINDOW && a <= fs[m].at <= a + WINDOW
    requires fs[i].since < fs[j].since
    ensures fs[m].since == fs[i].since || fs[m].since == fs[j].since
  {
  }

  /** One login at a time: five failures a window, ten in any fifteen minutes. */
  lemma OneAtATime(es: seq<Event>, x: string, o: int, a: int)
    requires IsRun(es, x, 1)
    ensures InWindow(After(es, x).failures, o) <= 5
    ensures Between(After(es, x).failures, a, a + 15 * MINUTE) <= 10
  {
    WindowBudget(es, x, 1, o);
    QuarterHourBudget(es, x, 1, a);
  }

  // ---------- the bounds are reached ----------

  /** At `t`, in the window opened at `o`: `n` failures charged to it, `m` attempts in flight,
      and `c` failures since the first window's end. */
  ghost predicate Reached(es: seq<Event>, x: string, k: nat, o: int, t: int, n: nat, m: nat, c: nat) {
    && IsRun(es, x, k) && es != [] && es[|es| - 1].now <= t
    && o <= t <= o + WINDOW && WINDOW <= t <= 2 * WINDOW
    && var w := After(es, x);
    && w.table == map[x := Attempt(n, o + WINDOW)] && w.inFlight == m && w.since == Some(o)
    && InWindow(w.failures, o) == n && Between(w.failures, WINDOW, 2 * WINDOW) == c
  }

  lemma FirstReaches(x: string, k: nat)
    requires k >= 1
    ensures Reached([Begin(x, 0)], x, k, 0, WINDOW, 0, 1, 0)
  {
    var es := [Begin(x, 0)];
    assert es[..0] == [];
    assert IsRun(es[..0], x, k) && After(es[..0], x) == START;
    assert IsRun(es, x, k);
  }

  lemma BeginReaches(es: seq<Event>, x: string, k: nat, o: int, t: int, n: nat, m: nat, c: nat)
    requires Reached(es, x, k, o, t, n, m, c) && n < MAX_PER_IP && m < k
    ensures Reached(es + [Begin(x, t)], x, k, o, t, n, m + 1, c)
  {
    assert (es + [Begin(x, t)])[..|es|] == es;
  }

  lemma EndReaches(es: seq<Event>, x: string, k: nat, o: int, t: int, n: nat, m: nat, c: nat)
    requires Reached(es, x, k, o, t, n, m, c) && m > 0
    ensures Reached(es + [End(x, t, true)], x, k, o, t, n + 1, m - 1, c + 1)
  {
    var w, f := After(es, x), Failure(t, o);
    assert (es + [End(x, t, true)])[..|es|] == es;
    assert (w.failures + [f])[..|w.failures|] == w.failures;
    assert RecordAttempt(w.table, x) == map[x := Attempt(n + 1, o + WINDOW)];
  }

  /** Four failures one after the other. */
  lemma FourFail(start: seq<Event>, x: string, k: nat, o: int, t: int, c: nat) returns (es: seq<Event>)
    requires Reached(start, x, k, o, t, 0, 1, c) && k >= 1
    ensures Reached(es, x, k, o, t, MAX_PER_IP - 1, 1, c + MAX_PER_IP - 1)
  {
    es := start;
    var n := 0;
    while n < MAX_PER_IP - 1
      invariant 0 <= n <= MAX_PER_IP - 1 && Reached(es, x, k, o, t, n, 1, c + n)
    {
      EndReaches(es, x, k, o, t, n, 1, c + n);
      es := es + [End(x, t, true)];
      BeginReaches(es, x, k, o, t, n + 1, 0, c + n + 1);
      es := es + [Begin(x, t)];
      n := n + 1;
    }
  }

  /** Then k attempts that are all let in before any of them fails. */
  lemma AllIn(start: seq<Event>, x: string, k: nat, o: int, t: int, c: nat) returns (es: seq<Event>)
    requires Reached(start, x, k, o, t, 0, 1, c) && k >= 1
    ensures Reached(es, x, k, o, t, MAX_PER_IP - 1, k, c + MAX_PER_IP - 1)
  {
    es := FourFail(start, x, k, o, t, c);
    var m := 1;
    while m < k
      invariant 1 <= m <= k && Reached(es, x, k, o, t, MAX_PER_IP - 1, m, c + MAX_PER_IP - 1)
    {
      BeginReaches(es, x, k, o, t, MAX_PER_IP - 1, m, c + MAX_PER_IP - 1);
      es := es + [Begin(x, t)];
      m := m + 1;
    }
  }

  lemma FullWindow(start: seq<Event>, x: string, k: nat, o: int, t: int, c: nat) returns (es: seq<Event>)
    requires Reached(start, x, k, o, t, 0, 1, c) && k >= 1
    ensures Reached(es, x, k, o, t, MAX_PER_IP - 1 + k, 0, c + MAX_PER_IP - 1 + k)
  {
    es := AllIn(start, x, k, o, t, c);
    var m, full := k, MAX_PER_IP - 1 + k;
    while m > 0
      invariant 0 <= m <= k && Reached(es, x, k, o, t, full - m, m, c + full - m)
    {
      EndReaches(es, x, k, o, t, full - m, m, c + full - m);
      es := es + [End(x, t, true)];
      m := m - 1;
    }
  }

  /** The window's bound is reached: four failures, then k attempts that are all let in
      before any of them fails. */
  lemma BudgetIsTight(x: string, k: nat) returns (es: seq<Event>)
    requires k >= 1
    ensures IsRun(es, x, k) && InWindow(After(es, x).failures, 0) == 4 + k
  {
    FirstReaches(x, k);
    es := FullWindow([Begin(x, 0)], x, k, 0, WINDOW, 0);
  }

  /** The next window opens as soon as the full one is over. */
  lemma NextWindow(es: seq<Event>, x: string, k: nat, n: nat, c: nat)
    requires Reached(es, x, k, 0, WINDOW, n, 0, c) && k >= 1
    ensures Reached(es + [Begin(x, WINDOW + 1)], x, k, WINDOW + 1, WINDOW + 1, 0, 1, c)
  {
    RunInv(es, x, k);
    assert (es + [Begin(x, WINDOW + 1)])[..|es|] == es;
    InWindowZero(After(es, x).failures, WINDOW + 1);
    assert After(es, x).table[x := Attempt(0, 2 * WINDOW + 1)] == map[x := Attempt(0, 2 * WINDOW + 1)];
  }

  /** And so is the quarter of an hour's: a window filled at its very end and the next one at
      its beginning. */
  lemma QuarterHourIsTight(x: string, k: nat) returns (es: seq<Event>)
    requires k >= 1
    ensures IsRun(es, x, k) && Between(After(es, x).failures, 15 * MINUTE, 30 * MINUTE) == 2 * (4 + k)
  {
    FirstReaches(x, k);
    es := FullWindow([Begin(x, 0)], x, k, 0, WINDOW, 0);
    NextWindow(es, x, k, MAX_PER_IP - 1 + k, MAX_PER_IP - 1 + k);
    es := FullWindow(es + [Begin(x, WINDOW + 1)], x, k, WINDOW + 1, WINDOW + 1, MAX_PER_IP - 1 + k);
  }
}
