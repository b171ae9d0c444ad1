/** Alerts over whole runs: across replicas, restarts and the daily purge of claims, and
    for one process on its own. */
module AlertRuns {
  import opened Clock
  import opened AlertRules

  // ---------- many replicas ----------

  const CLAIM_LIFE: int := 24 * HOUR

  /** A firing: the pair, the hour it was for, and the store's clock when it was claimed. */
  datatype Firing = Firing(key: string, hour: int, at: int)

  datatype System = System(replicas: map<nat, Fired>, claims: Claims, firings: seq<Firing>)

  datatype Event =
    | Cleanup(r: nat, now: int)                         // a pass of replica r begins
    | Attempt(r: nat, key: string, now: int, db: int)   // it comes to a due pair
    | Missed(r: nat, key: string, now: int)             // the same, but the claim meets a store error
    | Restart(r: nat)                                   // a replica starts with an empty memory
    | Purge(at: int)                                    // claims older than a day are dropped

  function MemoryOf(s: System, r: nat): Fired {
    if r in s.replicas then s.replicas[r] else map[]
  }

  function Step(s: System, e: Event): System {
    match e
    case Cleanup(r, now) => s.(replicas := s.replicas[r := Clean(MemoryOf(s, r), now)])
    case Attempt(r, key, now, db) =>
      var o := Consider(Outcome(MemoryOf(s, r), s.claims, []), key, now, db, {});
      System(s.replicas[r := o.fired], o.claims,
             s.firings + if o.triggered == [] then [] else [Firing(key, HourOf(now), db)])
    case Missed(r, key, now) =>
      var o := Consider(Outcome(MemoryOf(s, r), s.claims, []), key, now, now, {key});
      s.(replicas := s.replicas[r := o.fired])
    case Restart(r) => s.(replicas := s.replicas[r := map[]])
    case Purge(at) => s.(claims := map c | c in s.claims && s.claims[c] >= at - CLAIM_LIFE :: s.claims[c])
  }

  /** The store's clock at an event that reads it. */
  function StoreClock(e: Event, before: int): int {
    match e
    case Attempt(_, _, _, db) => db
    case Purge(at) => at
    case _ => before
  }

  /** One agreed clock that does not run backwards, and a pass that reaches a pair at most
      `lag` after it read the clock. */
  predicate Legal(e: Event, before: int, lag: int) {
    && before <= StoreClock(e, before)
    && (e.Attempt? ==> e.now <= e.db <= e.now + lag)
  }

  predicate IsRun(es: seq<Event>, start: int, lag: int) {
    es == [] || (IsRun(es[..|es| - 1], start, lag) && Legal(es[|es| - 1], ClockAfter(es[..|es| - 1], start), lag))
  }

  function ClockAfter(es: seq<Event>, start: int): int {
    if es == [] then start else StoreClock(es[|es| - 1], ClockAfter(es[..|es| - 1], start))
  }

  function After(es: seq<Event>): System {
    if es == [] then System(map[], map[], []) else Step(After(es[..|es| - 1]), es[|es| - 1])
  }

  /** A firing's claim is still in place, or the purge took it more than a day later; and
      it was made in the hour it is for, or at most `lag` after that. */
  predicate FiringOk(s: System, i: nat, clock: int, lag: int)
    requires i < |s.firings|
  {
    var f := s.firings[i];
    && f.hour * HOUR <= f.at <= clock
    && f.at < (f.hour + 1) * HOUR + lag
    && (((f.key, f.hour) in s.claims && s.claims[(f.key, f.hour)] == f.at) || f.at + CLAIM_LIFE < clock)
  }

  /** Two firings of a pair for one hour are more than a day apart. */
  predicate Apart(fs: seq<Firing>) {
    forall i, j | 0 <= i < j < |fs| && fs[i].key == fs[j].key && fs[i].hour == fs[j].hour :: fs[i].at + CLAIM_LIFE < fs[j].at
  }

  predicate Inv(s: System, clock: int, lag: int) {
    (forall i | 0 <= i < |s.firings| :: FiringOk(s, i, clock, lag)) && Apart(s.firings)
  }

  lemma StepKeepsInv(s: System, e: Event, before: int, lag: int)
    requires Inv(s, before, lag) && Legal(e, before, lag)
    ensures Inv(Step(s, e), StoreClock(e, before), lag)
  {
    var s', clock := Step(s, e), StoreClock(e, before);
    forall i | 0 <= i < |s'.firings| ensures FiringOk(s', i, clock, lag) {
      if i < |s.firings| {
        assert FiringOk(s, i, before, lag);
      }
    }
    if e.Attempt? && |s'.firings| > |s.firings| {
      forall i | 0 <= i < |s.firings| && s.firings[i].key == e.key && s.firings[i].hour == HourOf(e.now)
        ensures s.firings[i].at + CLAIM_LIFE < e.db
      {
        assert FiringOk(s, i, before, lag);
      }
    }
  }

  lemma {:induction false} RunInv(es: seq<Event>, start: int, lag: int)
    requires IsRun(es, start, lag)
    ensures Inv(After(es), ClockAfter(es, start), lag)
  {
    if es != [] {
      RunInv(es[..|es| - 1], start, lag);
      StepKeepsInv(After(es[..|es| - 1]), es[|es| - 1], ClockAfter(es[..|es| - 1], start), lag);
    }
  }

  /** Over any number of replicas, restarts and purges, a (rule, device) pair fires at most
      once for each UTC hour its passes begin in, as long as no pass takes 23 hours to reach
      a device. */
  lemma OncePerHour(es: seq<Event>, start: int, lag: int, i: nat, j: nat)
    requires IsRun(es, start, lag) && lag <= 23 * HOUR + 1
    requires i < j < |After(es).firings|
    ensures After(es).firings[i].key != After(es).firings[j].key || After(es).firings[i].hour != After(es).firings[j].hour
  {
    RunInv(es, start, lag);
    assert FiringOk(After(es), i, ClockAfter(es, start), lag) && FiringOk(After(es), j, ClockAfter(es, start), lag);
  }

  lemma Extend(es: seq<Event>, e: Event, start: int, lag: int)
    requires IsRun(es, start, lag) && Legal(e, ClockAfter(es, start), lag)
    ensures IsRun(es + [e], start, lag)
    ensures After(es + [e]) == Step(After(es), e) && ClockAfter(es + [e], start) == StoreClock(e, ClockAfter(es, start))
  {
    assert (es + [e])[..|es|] == es;
  }

  /** That bound is exact: with two nanoseconds more than 23 hours, or anything longer, a
      pair can fire twice for one hour. */
  lemma LagCanFireTwice(key: string, lag: int) returns (es: seq<Event>)
    requires lag > 23 * HOUR + 1
    ensures IsRun(es, 0, lag)
    ensures After(es).firings == [Firing(key, 0, 0), Firing(key, 0, 24 * HOUR + 1)]
  {
    var a, p, b := Attempt(0, key, 0, 0), Purge(CLAIM_LIFE + 1), Attempt(1, key, HOUR - 1, CLAIM_LIFE + 1);
    Extend([], a, 0, lag);
    Extend([] + [a], p, 0, lag);
    Extend([] + [a] + [p], b, 0, lag);
    es := [] + [a] + [p] + [b];
    assert HourOf(HOUR - 1) == 0 && HourOf(0) == 0;
    assert After([] + [a] + [p]).claims == map[];
  }

  // ---------- by the hour in which it goes out ----------

  /** How often a pair fires during a UTC hour, whatever hour the firings are for. */
  function During(fs: seq<Firing>, key: string, h: int): nat {
    if fs == [] then 0
    else
      var f := fs[|fs| - 1];
      During(fs[..|fs| - 1], key, h) + if f.key == key && HourOf(f.at) == h then 1 else 0
  }

  /** The hours those firings are for. */
  function Labels(fs: seq<Firing>, key: string, h: int): set<int> {
    if fs == [] then {}
    else
      var f := fs[|fs| - 1];
      Labels(fs[..|fs| - 1], key, h) + if f.key == key && HourOf(f.at) == h then {f.hour} else {}
  }

  lemma {:induction false} LabelOf(fs: seq<Firing>, key: string, h: int, x: int) returns (i: nat)
    requires x in Labels(fs, key, h)
    ensures i < |fs| && fs[i].key == key && HourOf(fs[i].at) == h && fs[i].hour == x
  {
    if x in Labels(fs[..|fs| - 1], key, h) {
      i := LabelOf(fs[..|fs| - 1], key, h, x);
    } else {
      i := |fs| - 1;
    }
  }

  /** Begun hours: `lag` in hours, rounded up. */
  function HoursUp(lag: int): int {
    (lag + HOUR - 1) / HOUR
  }

  lemma NewLabel(fs: seq<Firing>, f: Firing, key: string, h: int)
    requires Apart(fs + [f]) && f.key == key && HourOf(f.at) == h
    ensures f.hour !in Labels(fs, key, h)
  {
    forall x | x in Labels(fs, key, h) ensures x != f.hour {
      var i := LabelOf(fs, key, h, x);
      assert (fs + [f])[i] == fs[i] && (fs + [f])[|fs|] == f;
    }
  }

  /** Within one hour no two firings are for the same one. */
  lemma {:induction false} DuringIsLabels(fs: seq<Firing>, key: string, h: int)
    requires Apart(fs)
    ensures During(fs, key, h) == |Labels(fs, key, h)|
  {
    if fs != [] {
      var init, f := fs[..|fs| - 1], fs[|fs| - 1];
      assert fs == init + [f];
      DuringIsLabels(init, key, h);
      if f.key == key && HourOf(f.at) == h {
        NewLabel(init, f, key, h);
      }
    }
  }

  lemma {:induction false} AtMostTheRange(s: set<int>, lo: int, n: nat)
    requires forall x | x in s :: lo <= x < lo + n
    ensures |s| <= n
  {
    if n > 0 {
      AtMostTheRange(s - {lo + n - 1}, lo, n - 1);
      if lo + n - 1 in s {
        assert |s - {lo + n - 1}| == |s| - 1;
      } else {
        assert s - {lo + n - 1} == s;
      }
    } else {
      assert forall x :: x !in s;
      assert s == {};
    }
  }

  /** A pass that straddles the hour fires for the one it began in: during one UTC hour a
      pair fires at most once, and once more for every hour a pass may have begun earlier. */
  lemma FiringsDuringAnHour(es: seq<Event>, start: int, lag: nat, key: string, h: int)
    requires IsRun(es, start, lag)
    ensures During(After(es).firings, key, h) <= 1 + HoursUp(lag)
  {
    RunInv(es, start, lag);
    var fs := After(es).firings;
    DuringIsLabels(fs, key, h);
    forall x | x in Labels(fs, key, h) ensures h - HoursUp(lag) <= x <= h {
      var i := LabelOf(fs, key, h, x);
      assert FiringOk(After(es), i, ClockAfter(es, start), lag);
    }
    AtMostTheRange(Labels(fs, key, h), h - HoursUp(lag), 1 + HoursUp(lag));
  }

  /** `n` replicas have fired during hour `c`, each for its own hour. */
  ghost predicate HaveFired(es: seq<Event>, key: string, lag: nat, c: nat, n: nat) {
    && IsRun(es, c * HOUR, lag) && ClockAfter(es, c * HOUR) == c * HOUR
    && During(After(es).firings, key, c) == n
    && (forall r: nat | r >= n :: r !in After(es).replicas && (key, r) !in After(es).claims)
  }

  lemma AttemptFires(s: System, r: nat, key: string, now: int, db: int)
    requires r !in s.replicas && (key, HourOf(now)) !in s.claims
    ensures var s' := Step(s, Attempt(r, key, now, db));
      && s'.replicas.Keys == s.replicas.Keys + {r} && s'.claims.Keys == s.claims.Keys + {(key, HourOf(now))}
      && s'.firings == s.firings + [Firing(key, HourOf(now), db)]
  {
  }

  lemma OneMoreDuring(fs: seq<Firing>, f: Firing)
    ensures During(fs + [f], f.key, HourOf(f.at)) == During(fs, f.key, HourOf(f.at)) + 1
  {
    assert (fs + [f])[..|fs|] == fs;
  }

  lemma OneMoreFires(es: seq<Event>, key: string, lag: nat, c: nat, n: nat) returns (longer: seq<Event>)
    requires HaveFired(es, key, lag, c, n) && c == HoursUp(lag) && n <= c
    ensures HaveFired(longer, key, lag, c, n + 1)
  {
    var now := if n < c then (n + 1) * HOUR - 1 else c * HOUR;
    var e := Attempt(n, key, now, c * HOUR);
    assert HourOf(now) == n && HourOf(c * HOUR) == c;
    assert now <= c * HOUR <= now + lag;
    Extend(es, e, c * HOUR, lag);
    longer := es + [e];
    AttemptFires(After(es), n, key, now, c * HOUR);
    OneMoreDuring(After(es).firings, Firing(key, n, c * HOUR));
  }

  /** That many do fire, for every lag. */
  lemma FiringsDuringAnHourReached(key: string, lag: nat) returns (es: seq<Event>)
    ensures IsRun(es, HoursUp(lag) * HOUR, lag)
    ensures During(After(es).firings, key, HoursUp(lag)) == 1 + HoursUp(lag)
  {
    es := [];
    var n := 0;
    while n < 1 + HoursUp(lag)
      invariant 0 <= n <= 1 + HoursUp(lag) && HaveFired(es, key, lag, HoursUp(lag), n)
    {
      es := OneMoreFires(es, key, lag, HoursUp(lag), n);
      n := n + 1;
    }
  }

  ghost predicate OnceDuringAnHour(lag: nat) {
    forall es, start, key, h | IsRun(es, start, lag) :: During(After(es).firings, key, h) <= 1
  }

  /** So a pair goes out at most once during any UTC hour exactly when a pass takes no time. */
  lemma OnceDuringAnHourIff(lag: nat)
    ensures OnceDuringAnHour(lag) <==> lag == 0
  {
    if lag == 0 {
      forall es, start, key, h | IsRun(es, start, lag) ensures During(After(es).firings, key, h) <= 1 {
        FiringsDuringAnHour(es, start, lag, key, h);
      }
    } else {
      var es := FiringsDuringAnHourReached("", lag);
      assert During(After(es).firings, "", HoursUp(lag)) > 1;
    }
  }

  // ---------- one process ----------

  /** A pass of a lone process: its time and the pairs due then. Its claims are its own. */
  datatype Tick = Tick(now: int, due: seq<string>)

  function Alone(ticks: seq<Tick>): Outcome {
    if ticks == [] then Outcome(map[], map[], [])
    else
      var before, t := Alone(ticks[..|ticks| - 1]), ticks[|ticks| - 1];
      Pass(before.fired, before.claims, t.due, t.now, t.now, {})
  }

  /** When a pair fired, pass by pass. */
  function FiredAt(ticks: seq<Tick>, k: string): seq<int> {
    if ticks == [] then []
    else FiredAt(ticks[..|ticks| - 1], k) + if k in Alone(ticks).triggered then [ticks[|ticks| - 1].now] else []
  }

  predicate ClockRuns(ticks: seq<Tick>) {
    forall i, j | 0 <= i < j < |ticks| :: ticks[i].now <= ticks[j].now
  }

  /** The last of a pair's firings. */
  function Last(f: seq<int>): int
    requires f != []
  {
    f[|f| - 1]
  }

  /** A remembered firing is the last one, a forgotten one is over an hour old; every claim
      of the pair is for an hour no later than the last firing's. */
  ghost predicate Remembers(o: Outcome, f: seq<int>, now: int, k: string) {
    && (k in o.fired ==> f != [] && o.fired[k] == Last(f))
    && (k !in o.fired && f != [] ==> now - Last(f) > HOUR)
    && (forall h {:trigger (k, h) in o.claims} | (k, h) in o.claims :: f != [] && h <= HourOf(Last(f)))
    && (f != [] ==> Last(f) <= now)
  }

  predicate FarApart(f: seq<int>) {
    forall i | 0 <= i < |f| - 1 :: f[i + 1] - f[i] > HOUR
  }

  ghost predicate AloneOk(ticks: seq<Tick>, k: string) {
    var f := FiredAt(ticks, k);
    && FarApart(f)
    && if ticks == [] then f == [] else Remembers(Alone(ticks), f, ticks[|ticks| - 1].now, k)
  }

  lemma CountIn(s: seq<string>, k: string)
    ensures k in s <==> Count(s, k) > 0
  {
    if s != [] {
      CountIn(s[..|s| - 1], k);
      assert s == s[..|s| - 1] + [s[|s| - 1]];
    }
  }

  /** One pass over what a lone process remembers of a pair: it fires exactly when it is due
      and not remembered, because its hour cannot have been claimed. */
  lemma PassOne(o: Outcome, f: seq<int>, before: int, t: Tick, k: string)
    requires Remembers(o, f, before, k) && before <= t.now
    ensures var r := Pass(o.fired, o.claims, t.due, t.now, t.now, {});
      var fires := k in t.due && (f == [] || t.now - Last(f) > HOUR);
      && (k in r.triggered <==> fires)
      && Remembers(r, f + if fires then [t.now] else [], t.now, k)
  {
    var start := Outcome(Clean(o.fired, t.now), o.claims, []);
    var r := ConsiderAll(start, t.due, t.now, t.now, {});
    ConsiderOne(start, t.due, t.now, t.now, {}, k);
    CountIn(r.triggered, k);
    if f != [] && t.now - Last(f) > HOUR {
      assert HourOf(Last(f)) < HourOf(t.now);
    }
    assert (k, HourOf(t.now)) in o.claims ==> f != [] && HourOf(t.now) <= HourOf(Last(f));
  }

  /** The same, along a run. */
  lemma {:induction false} AlonePass(ticks: seq<Tick>, k: string)
    requires ticks != [] && ClockRuns(ticks) && AloneOk(ticks[..|ticks| - 1], k)
    ensures var f, t := FiredAt(ticks[..|ticks| - 1], k), ticks[|ticks| - 1];
      var fires := k in t.due && (f == [] || t.now - Last(f) > HOUR);
      && (k in Alone(ticks).triggered <==> fires)
      && FiredAt(ticks, k) == f + (if fires then [t.now] else [])
      && AloneOk(ticks, k)
  {
    var rest, t := ticks[..|ticks| - 1], ticks[|ticks| - 1];
    var f := FiredAt(rest, k);
    var before := if rest == [] then t.now else rest[|rest| - 1].now;
    PassOne(Alone(rest), f, before, t, k);
    assert f + [] == f;
  }

  lemma {:induction false} AloneInv(ticks: seq<Tick>, k: string)
    requires ClockRuns(ticks)
    ensures AloneOk(ticks, k)
  {
    if ticks != [] {
      AloneInv(ticks[..|ticks| - 1], k);
      AlonePass(ticks, k);
    }
  }

  /** On a lone process the shared claim never refuses what the local memory lets through:
      a pair fires exactly when it is due and has not fired in the last hour. */
  lemma FiresExactlyWhenDue(ticks: seq<Tick>, k: string)
    requires ticks != [] && ClockRuns(ticks)
    ensures var f, t := FiredAt(ticks[..|ticks| - 1], k), ticks[|ticks| - 1];
      k in Alone(ticks).triggered <==> k in t.due && (f == [] || t.now - Last(f) > HOUR)
  {
    AloneInv(ticks[..|ticks| - 1], k);
    AlonePass(ticks, k);
  }

  /** Consecutive firings of a pair are more than an hour apart, whatever it does meanwhile. */
  lemma FiringsFarApart(ticks: seq<Tick>, k: string)
    requires ClockRuns(ticks)
    ensures FarApart(FiredAt(ticks, k))
  {
    AloneInv(ticks, k);
  }

  predicate StaysDue(ticks: seq<Tick>, k: string, interval: int) {
    && (forall i | 0 <= i < |ticks| :: k in ticks[i].due)
    && (forall i | 0 <= i < |ticks| - 1 :: ticks[i + 1].now - ticks[i].now <= interval)
  }

  predicate CloseEnough(f: seq<int>, interval: int) {
    forall i | 0 <= i < |f| - 1 :: f[i + 1] - f[i] <= HOUR + interval
  }

  /** While a pair stays due and passes come at least every `interval`, its first pass fires,
      consecutive firings are at most an hour and an interval apart, and at no pass has the
      last firing been more than an hour ago. */
  lemma {:induction false} FiringsCloseEnough(ticks: seq<Tick>, k: string, interval: int)
    requires ClockRuns(ticks) && ticks != [] && StaysDue(ticks, k, interval)
    ensures var f := FiredAt(ticks, k);
      && f != [] && f[0] == ticks[0].now
      && ticks[|ticks| - 1].now - Last(f) <= HOUR
      && CloseEnough(f, interval)
  {
    var rest, t := ticks[..|ticks| - 1], ticks[|ticks| - 1];
    AloneInv(rest, k);
    AlonePass(ticks, k);
    if rest != [] {
      assert rest[|rest| - 1] == ticks[|ticks| - 2];
      assert t.now - ticks[|ticks| - 2].now <= interval;
      FiringsCloseEnough(rest, k, interval);
    } else {
      assert FiredAt(rest, k) == [];
    }
  }
}
