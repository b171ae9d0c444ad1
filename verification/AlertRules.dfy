/** One pass of the alert rule evaluator: which (rule, device) pairs are due, and what the
    process's own memory and the claims shared by all replicas let through. */
module AlertRules {
  import opened Options
  import opened Clock

  /** `hours` is the parsed threshold, `None` when the parameters do not parse. */
  datatype Rule = Rule(id: string, tenant: string, enabled: bool, condition: string, hours: Option<real>, filter: string)

  /** `lastSeen` is `None` for a device that was never heard. */
  datatype Device = Device(imei: string, lastSeen: Option<int>)

  type Fleet = map<string, seq<Device>>    // the devices of each tenant
  type Fired = map<string, int>            // this process: when a pair last fired
  type Claims = map<(string, int), int>    // shared: (pair, hour) and when it was claimed

  function DedupKey(rule: string, imei: string): string {
    rule + ":" + imei
  }

  /** The hour an instant falls into; the claim key's time stamp names exactly it. */
  function HourOf(now: int): int {
    now / HOUR
  }

  // ---------- which pairs are due ----------

  function DevicesOf(fleet: Fleet, tenant: string): seq<Device> {
    if tenant in fleet then fleet[tenant] else []
  }

  /** One device by its IMEI, else all of the tenant's. */
  function Filtered(fleet: Fleet, r: Rule): seq<Device> {
    var all := DevicesOf(fleet, r.tenant);
    if r.filter == "*" || r.filter == "" then all
    else
      var i := Position(all, r.filter);
      if i < |all| then [all[i]] else all
  }

  function Position(ds: seq<Device>, imei: string): (i: nat)
    ensures i <= |ds|
    ensures i < |ds| ==> ds[i].imei == imei
    ensures forall j | 0 <= j < i :: ds[j].imei != imei
  {
    if ds == [] || ds[0].imei == imei then 0 else 1 + Position(ds[1..], imei)
  }

  predicate Overdue(d: Device, hours: real, now: int) {
    d.lastSeen.Some? && now - d.lastSeen.value > (hours * (HOUR as real)).Floor
  }

  /** The rule is one the evaluator acts on. */
  predicate Active(r: Rule) {
    r.enabled && r.condition == "device_not_seen" && r.hours.Some? && r.hours.value > 0.0
  }

  function DueDevices(r: Rule, ds: seq<Device>, now: int): seq<string>
    requires Active(r)
  {
    if ds == [] then []
    else (if Overdue(ds[0], r.hours.value, now) then [DedupKey(r.id, ds[0].imei)] else []) + DueDevices(r, ds[1..], now)
  }

  /** The pairs due at `now`, in the order the pass comes to them. */
  function Due(rules: seq<Rule>, fleet: Fleet, now: int): seq<string> {
    if rules == [] then []
    else
      (if Active(rules[0]) then DueDevices(rules[0], Filtered(fleet, rules[0]), now) else [])
      + Due(rules[1..], fleet, now)
  }

  // ---------- what is let through ----------

  function Clean(fired: Fired, now: int): Fired {
    map k | k in fired && now - fired[k] <= HOUR :: fired[k]
  }

  datatype Outcome = Outcome(fired: Fired, claims: Claims, triggered: seq<string>)

  /** One due pair: remembered locally first, then claimed for its hour. `db` is the
      store's clock when the claim is made, `broken` the pairs whose claim meets a store
      error and which do not fire. */
  function Consider(o: Outcome, k: string, now: int, db: int, broken: set<string>): Outcome {
    if k in o.fired then o
    else
      var fired := o.fired[k := now];
      if k in broken || (k, HourOf(now)) in o.claims then o.(fired := fired)
      else Outcome(fired, o.claims[(k, HourOf(now)) := db], o.triggered + [k])
  }

  function ConsiderAll(o: Outcome, due: seq<string>, now: int, db: int, broken: set<string>): Outcome
    decreases |due|
  {
    if due == [] then o else ConsiderAll(Consider(o, due[0], now, db, broken), due[1..], now, db, broken)
  }

  /** A whole pass. */
  function Pass(fired: Fired, claims: Claims, due: seq<string>, now: int, db: int, broken: set<string>): Outcome {
    ConsiderAll(Outcome(Clean(fired, now), claims, []), due, now, db, broken)
  }

  function Count(s: seq<string>, k: string): nat {
    if s == [] then 0 else Count(s[..|s| - 1], k) + if s[|s| - 1] == k then 1 else 0
  }

  /** What a pass does to one pair depends on that pair alone: it fires once, exactly when
      it is due, not remembered, not claimed for the hour and its claim meets no store error;
      being due, it is remembered. */
  lemma {:induction false} ConsiderOne(o: Outcome, due: seq<string>, now: int, db: int, broken: set<string>, k: string)
    ensures var r := ConsiderAll(o, due, now, db, broken);
      var fires := k in due && k !in o.fired && k !in broken && (k, HourOf(now)) !in o.claims;
      && (k in r.fired <==> k in o.fired || k in due)
      && (k in r.fired ==> r.fired[k] == if k in o.fired then o.fired[k] else now)
      && Count(r.triggered, k) == Count(o.triggered, k) + (if fires then 1 else 0)
      && (forall h :: (k, h) in r.claims <==> (k, h) in o.claims || (fires && h == HourOf(now)))
      && (forall h | (k, h) in r.claims :: r.claims[(k, h)] == if (k, h) in o.claims then o.claims[(k, h)] else db)
    decreases |due|
  {
    if due != [] {
      var n := Consider(o, due[0], now, db, broken);
      assert o.triggered + [due[0]] != [] && (o.triggered + [due[0]])[..|o.triggered|] == o.triggered;
      ConsiderOne(n, due[1..], now, db, broken, k);
    }
  }

  /** The next device of a rule: either nothing to consider, or its key before the rest. */
  lemma DueNext(r: Rule, ds: seq<Device>, i: nat, now: int, later: seq<string>)
    requires Active(r) && i < |ds|
    ensures var rest := DueDevices(r, ds[i + 1..], now) + later;
      DueDevices(r, ds[i..], now) + later ==
        if Overdue(ds[i], r.hours.value, now) then [DedupKey(r.id, ds[i].imei)] + rest else rest
  {
    assert ds[i..][1..] == ds[i + 1..];
  }

  /** Considering a list is considering its first pair, then the rest. */
  lemma ConsiderNext(o: Outcome, k: string, rest: seq<string>, now: int, db: int, broken: set<string>)
    ensures ConsiderAll(o, [k] + rest, now, db, broken) == ConsiderAll(Consider(o, k, now, db, broken), rest, now, db, broken)
  {
    assert ([k] + rest)[1..] == rest;
  }

  // ---------- what fires, in the words of rules and devices ----------

  const ONE_HOUR: int := 3_600_000_000_000

  /** The rule watches the device: it is its tenant's, and the rule names no device, names
      this one, or names one the tenant does not have. Of two devices with one IMEI the first
      is meant. */
  predicate Watches(fleet: Fleet, r: Rule, d: Device) {
    && r.tenant in fleet
    && exists i | 0 <= i < |fleet[r.tenant]| ::
        && fleet[r.tenant][i] == d
        && (|| r.filter in {"*", ""}
            || (d.imei == r.filter && forall j | 0 <= j < i :: fleet[r.tenant][j].imei != r.filter)
            || forall j | 0 <= j < |fleet[r.tenant]| :: fleet[r.tenant][j].imei != r.filter)
  }

  /** The device was heard, and not for longer than the rule's hours, which are positive. */
  predicate Silent(r: Rule, d: Device, now: int) {
    && r.hours.Some? && r.hours.value > 0.0
    && d.lastSeen.Some? && (now - d.lastSeen.value) as real > r.hours.value * 3_600_000_000_000.0
  }

  /** Some enabled rule about silent devices has found the pair's device silent. */
  ghost predicate IsDue(rules: seq<Rule>, fleet: Fleet, now: int, k: string) {
    exists r, d :: r in rules && r.enabled && r.condition == "device_not_seen"
      && Watches(fleet, r, d) && Silent(r, d, now) && k == r.id + ":" + d.imei
  }

  lemma SilentIsOverdue(r: Rule, d: Device, now: int)
    requires r.hours.Some? && r.hours.value > 0.0
    ensures Silent(r, d, now) <==> Overdue(d, r.hours.value, now)
  {
    if d.lastSeen.Some? {
      var x := r.hours.value * (HOUR as real);
      assert x.Floor as real <= x < x.Floor as real + 1.0;
      assert now - d.lastSeen.value > x.Floor <==> now - d.lastSeen.value >= x.Floor + 1;
    }
  }

  lemma WatchedAreFiltered(fleet: Fleet, r: Rule, d: Device)
    ensures d in Filtered(fleet, r) <==> Watches(fleet, r, d)
  {
    var all := DevicesOf(fleet, r.tenant);
    if Watches(fleet, r, d) && r.filter !in {"*", ""} && Position(all, r.filter) < |all| {
      var i :| 0 <= i < |all| && all[i] == d && (d.imei == r.filter && forall j | 0 <= j < i :: all[j].imei != r.filter);
      assert i == Position(all, r.filter);
    }
  }

  lemma {:induction false} DueDevicesIff(r: Rule, ds: seq<Device>, now: int, k: string)
    requires Active(r)
    ensures k in DueDevices(r, ds, now) <==> exists d | d in ds :: Silent(r, d, now) && k == r.id + ":" + d.imei
  {
    if ds != [] {
      DueDevicesIff(r, ds[1..], now, k);
      SilentIsOverdue(r, ds[0], now);
      assert forall d | d in ds[1..] :: d in ds;
      assert forall d | d in ds :: d == ds[0] || d in ds[1..];
    }
  }

  /** The pass comes to exactly the pairs that are due. */
  lemma {:induction false} DueIff(rules: seq<Rule>, fleet: Fleet, now: int, k: string)
    ensures k in Due(rules, fleet, now) <==> IsDue(rules, fleet, now, k)
  {
    if rules != [] {
      var r := rules[0];
      DueIff(rules[1..], fleet, now, k);
      assert forall x | x in rules :: x == r || x in rules[1..];
      assert forall x | x in rules[1..] :: x in rules;
      if Active(r) {
        DueDevicesIff(r, Filtered(fleet, r), now, k);
      }
      forall d ensures d in Filtered(fleet, r) <==> Watches(fleet, r, d) {
        WatchedAreFiltered(fleet, r, d);
      }
      IsDueNext(rules, fleet, now, k);
    }
  }

  lemma IsDueNext(rules: seq<Rule>, fleet: Fleet, now: int, k: string)
    requires rules != []
    ensures IsDue(rules, fleet, now, k) <==>
      || IsDue(rules[1..], fleet, now, k)
      || (rules[0].enabled && rules[0].condition == "device_not_seen"
          && exists d :: Watches(fleet, rules[0], d) && Silent(rules[0], d, now) && k == rules[0].id + ":" + d.imei)
  {
    assert forall x | x in rules :: x == rules[0] || x in rules[1..];
    assert forall x | x in rules[1..] :: x in rules;
  }

  /** This process has let the pair through within the last hour. */
  predicate Remembered(fired: Fired, now: int, k: string) {
    k in fired && now - fired[k] <= ONE_HOUR
  }

  lemma {:induction false} CountIn(s: seq<string>, k: string)
    ensures Count(s, k) > 0 <==> k in s
  {
    if s != [] {
      CountIn(s[..|s| - 1], k);
      assert s == s[..|s| - 1] + [s[|s| - 1]];
    }
  }

  /** A pass lets a pair through once or not at all: exactly when it is due, this process has
      not let it through within the hour, nobody has claimed it for the clock hour and the
      store answers. Due or let through, it is remembered from its first time in the hour. */
  lemma PassFires(fired: Fired, claims: Claims, rules: seq<Rule>, fleet: Fleet, now: int, db: int, broken: set<string>, k: string)
    ensures var out, due := Pass(fired, claims, Due(rules, fleet, now), now, db, broken), IsDue(rules, fleet, now, k);
      && Count(out.triggered, k) <= 1
      && (k in out.triggered <==> due && !Remembered(fired, now, k) && (k, now / ONE_HOUR) !in claims && k !in broken)
      && (k in out.fired <==> due || Remembered(fired, now, k))
      && (k in out.fired ==> out.fired[k] == if Remembered(fired, now, k) then fired[k] else now)
      && (forall h :: (k, h) in out.claims <==> (k, h) in claims || (k in out.triggered && h == now / ONE_HOUR))
  {
    DueIff(rules, fleet, now, k);
    ConsiderOne(Outcome(Clean(fired, now), claims, []), Due(rules, fleet, now), now, db, broken, k);
    CountIn(Pass(fired, claims, Due(rules, fleet, now), now, db, broken).triggered, k);
  }

  /** The same devices, each heard no later than before, if it was heard. */
  predicate HeardNoLater(fleet: Fleet, older: Fleet) {
    && older.Keys == fleet.Keys
    && forall t | t in fleet ::
        && |older[t]| == |fleet[t]|
        && forall i | 0 <= i < |fleet[t]| ::
            && older[t][i].imei == fleet[t][i].imei
            && (fleet[t][i].lastSeen.Some? ==> older[t][i].lastSeen.Some? && older[t][i].lastSeen.value <= fleet[t][i].lastSeen.value)
  }

  /** A longer silence never stops an alert. */
  lemma SilenceKeepsFiring(rules: seq<Rule>, fleet: Fleet, older: Fleet, now: int, k: string)
    requires HeardNoLater(fleet, older) && IsDue(rules, fleet, now, k)
    ensures IsDue(rules, older, now, k)
  {
    var r, d :| r in rules && r.enabled && r.condition == "device_not_seen"
      && Watches(fleet, r, d) && Silent(r, d, now) && k == r.id + ":" + d.imei;
    var ds, ds' := fleet[r.tenant], older[r.tenant];
    var i :| 0 <= i < |ds| && ds[i] == d
      && (r.filter in {"*", ""} || (d.imei == r.filter && forall j | 0 <= j < i :: ds[j].imei != r.filter)
          || forall j | 0 <= j < |ds| :: ds[j].imei != r.filter);
    assert Watches(older, r, ds'[i]) && Silent(r, ds'[i], now) && k == r.id + ":" + ds'[i].imei;
  }

  // ---------- the evaluator ----------

  class Evaluator {
    var fired: Fired
    var claims: Claims // the shared claims table

    constructor ()
      ensures fired == map[] && claims == map[]
    {
      fired, claims := map[], map[];
    }

    method Evaluate(rules: seq<Rule>, fleet: Fleet, now: int, db: int, broken: set<string>) returns (triggered: seq<string>)
      modifies this
      ensures Outcome(fired, claims, triggered) == Pass(old(fired), old(claims), Due(rules, fleet, now), now, db, broken)
      ensures forall k :: k in triggered <==>
        IsDue(rules, fleet, now, k) && !Remembered(old(fired), now, k) && (k, now / ONE_HOUR) !in old(claims) && k !in broken
    {
      var todo := fired.Keys;
      while todo != {}
        invariant todo <= fired.Keys <= old(fired).Keys && claims == old(claims)
        invariant forall k | k in fired :: fired[k] == old(fired)[k]
        invariant forall k | k in old(fired) :: k in fired <==> (k in todo || now - old(fired)[k] <= HOUR)
      {
        var k :| k in todo;
        todo := todo - {k};
        if now - fired[k] > HOUR {
          fired := fired - {k};
        }
      }
      assert fired == Clean(old(fired), now);
      triggered := [];
      ghost var start := Outcome(fired, claims, []);
      for i := 0 to |rules|
        invariant ConsiderAll(Outcome(fired, claims, triggered), Due(rules[i..], fleet, now), now, db, broken)
               == ConsiderAll(start, Due(rules, fleet, now), now, db, broken)
      {
        var rule := rules[i];
        assert rules[i..][1..] == rules[i + 1..];
        assert [] + Due(rules[i + 1..], fleet, now) == Due(rules[i + 1..], fleet, now);
        if rule.enabled {
          triggered := EvaluateRule(rule, fleet, now, db, broken, triggered, Due(rules[i + 1..], fleet, now));
        }
      }
      forall k ensures k in triggered <==>
        IsDue(rules, fleet, now, k) && !Remembered(old(fired), now, k) && (k, now / ONE_HOUR) !in old(claims) && k !in broken {
        PassFires(old(fired), old(claims), rules, fleet, now, db, broken, k);
      }
    }

    /** One rule; `later` is what the pass still has to consider after it. */
    method EvaluateRule(rule: Rule, fleet: Fleet, now: int, db: int, broken: set<string>, before: seq<string>, ghost later: seq<string>)
      returns (triggered: seq<string>)
      requires rule.enabled
      modifies this
      ensures ConsiderAll(Outcome(fired, claims, triggered), later, now, db, broken)
           == ConsiderAll(Outcome(old(fired), old(claims), before),
                          (if Active(rule) then DueDevices(rule, Filtered(fleet, rule), now) else []) + later, now, db, broken)
    {
      triggered := before;
      if rule.condition != "device_not_seen" || rule.hours.None? || rule.hours.value <= 0.0 {
        assert [] + later == later;
        return;
      }
      var threshold := (rule.hours.value * (HOUR as real)).Floor;
      var devices := Filtered(fleet, rule);
      for i := 0 to |devices|
        invariant ConsiderAll(Outcome(fired, claims, triggered), DueDevices(rule, devices[i..], now) + later, now, db, broken)
               == ConsiderAll(Outcome(old(fired), old(claims), before), DueDevices(rule, devices, now) + later, now, db, broken)
      {
        var dev := devices[i];
        DueNext(rule, devices, i, now, later);
        if dev.lastSeen.None? || now - dev.lastSeen.value <= threshold {
          continue;
        }
        var key := DedupKey(rule.id, dev.imei);
        ConsiderNext(Outcome(fired, claims, triggered), key, DueDevices(rule, devices[i + 1..], now) + later, now, db, broken);
        if key in fired {
          continue;
        }
        fired := fired[key := now];
        if key in broken || (key, HourOf(now)) in claims {
          continue;
        }
        claims := claims[(key, HourOf(now)) := db];
        triggered := triggered + [key];
      }
      assert DueDevices(rule, devices[|devices|..], now) + later == later;
    }
  }
}
