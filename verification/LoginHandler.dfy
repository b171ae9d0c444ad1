/** The limiter as the login handler runs it, under its lock. */
module LoginHandler {
  import opened Clock
  import opened LoginLimiter

  /** How a login attempt that was let in turns out. */
  datatype Outcome = UnknownUser | Locked | Disabled | WrongPassword | NoSession | Success

  datatype Status = BadRequest | TooMany | Unauthorized | Forbidden | Error | Ok

  /** A login, start to end. `given`: an address and a password are both there; without
      them the limiter is not asked. */
  function Attempted(table: Table, ip: string, given: bool, now: int, outcome: Outcome): (Table, Status) {
    if !given then (table, BadRequest)
    else
      var (asked, allowed) := AllowIP(table, ip, now);
      if !allowed then (asked, TooMany)
      else match outcome
        case UnknownUser => (RecordAttempt(asked, ip), Unauthorized)
        case WrongPassword => (RecordAttempt(asked, ip), Unauthorized)
        case Locked => (asked, Forbidden)
        case Disabled => (asked, Forbidden)
        case NoSession => (asked, Error)
        case Success => (asked, Ok)
  }

  /** An unknown address and a wrong password cannot be told apart, by the answer or by what
      is charged; every other outcome charges nothing, and success is the only way in. */
  lemma UnknownLikeWrong(table: Table, ip: string, now: int, outcome: Outcome)
    ensures Attempted(table, ip, true, now, UnknownUser) == Attempted(table, ip, true, now, WrongPassword)
    ensures Attempted(table, ip, true, now, WrongPassword).1 in {Unauthorized, TooMany}
    ensures var status := Attempted(table, ip, true, now, outcome).1;
      status != TooMany ==>
        && (status == Ok <==> outcome == Success)
        && (status == Unauthorized <==> outcome in {UnknownUser, WrongPassword})
        && (status == Forbidden <==> outcome in {Locked, Disabled})
        && (status == Error <==> outcome == NoSession)
    ensures Attempted(table, ip, false, now, outcome) == (table, BadRequest)
    ensures var after := Attempted(table, ip, true, now, outcome);
      ip in after.0 && ip in AllowIP(table, ip, now).0 ==>
        after.0[ip].count == AllowIP(table, ip, now).0[ip].count + if after.1 == Unauthorized then 1 else 0
  {
  }

  /** Failed logins of one address, one after the other. */
  function Failing(table: Table, ip: string, fails: seq<(int, Outcome)>): (Table, seq<Status>) {
    if fails == [] then (table, [])
    else
      var before := Failing(table, ip, fails[..|fails| - 1]);
      var r := Attempted(before.0, ip, true, fails[|fails| - 1].0, fails[|fails| - 1].1);
      (r.0, before.1 + [r.1])
  }

  /** The first five of a window, of either kind, are answered 401; and with five charged
      every further login of the address in the window is turned away, right password or
      not, and charged nothing. */
  lemma {:induction false} FiveThenTooMany(ip: string, start: int, fails: seq<(int, Outcome)>)
    requires fails != [] && fails[0].0 == start
    requires forall i | 0 <= i < |fails| :: start <= fails[i].0 <= start + 15 * MINUTE && fails[i].1 in {UnknownUser, WrongPassword}
    ensures var (table, answers) := Failing(map[], ip, fails);
      && table == map[ip := Attempt(if |fails| < 5 then |fails| else 5, start + 15 * MINUTE)]
      && |answers| == |fails|
      && forall i | 0 <= i < |fails| :: answers[i] == if i < 5 then Unauthorized else TooMany
  {
    var init := fails[..|fails| - 1];
    if init == [] {
      assert Failing(map[], ip, init) == (map[], []);
      FirstFails(ip, start, fails[0].1);
    } else {
      FiveThenTooMany(ip, start, init);
      NextFails(ip, start, |init|, fails[|fails| - 1].0, fails[|fails| - 1].1);
    }
  }

  lemma FirstFails(ip: string, start: int, outcome: Outcome)
    requires outcome in {UnknownUser, WrongPassword}
    ensures Attempted(map[], ip, true, start, outcome) == (map[ip := Attempt(1, start + 15 * MINUTE)], Unauthorized)
  {
    assert map[ip := Attempt(0, start + 15 * MINUTE)][ip := Attempt(1, start + 15 * MINUTE)] == map[ip := Attempt(1, start + 15 * MINUTE)];
  }

  lemma NextFails(ip: string, start: int, n: nat, now: int, outcome: Outcome)
    requires start <= now <= start + 15 * MINUTE && n > 0 && outcome in {UnknownUser, WrongPassword}
    ensures Attempted(map[ip := Attempt(if n < 5 then n else 5, start + 15 * MINUTE)], ip, true, now, outcome)
         == (map[ip := Attempt(if n < 4 then n + 1 else 5, start + 15 * MINUTE)], if n < 5 then Unauthorized else TooMany)
  {
    var k := if n < 5 then n else 5;
    assert map[ip := Attempt(k, start + 15 * MINUTE)][ip := Attempt(k + 1, start + 15 * MINUTE)] == map[ip := Attempt(k + 1, start + 15 * MINUTE)];
  }

  /** An address with five charged is turned away exactly until its window is over, whatever
      else the table holds and however the login would have turned out; the first login after
      that opens a new window. */
  lemma LockedOutUntil(table: Table, ip: string, now: int, outcome: Outcome)
    requires ip in table && table[ip].count >= 5
    ensures var r := Attempted(table, ip, true, now, outcome);
      && (r.1 == TooMany <==> now <= table[ip].windowEnd)
      && ip in r.0
      && r.0[ip] == if r.1 == TooMany then table[ip] else Attempt(if r.1 == Unauthorized then 1 else 0, now + 15 * MINUTE)
  {
  }

  class LoginHandler {
    var ipAttempts: Table

    constructor ()
      ensures ipAttempts == map[]
    {
      ipAttempts := map[];
    }

    method Allow(ip: string, now: int) returns (ok: bool)
      modifies this
      ensures (ipAttempts, ok) == AllowIP(old(ipAttempts), ip, now)
    {
      if |ipAttempts| > SWEEP_AT {
        var todo := ipAttempts.Keys;
        while todo != {}
          invariant todo <= ipAttempts.Keys <= old(ipAttempts).Keys
          invariant forall k | k in ipAttempts :: ipAttempts[k] == old(ipAttempts)[k]
          invariant forall k | k in old(ipAttempts) :: k in ipAttempts <==> (k in todo || !Expired(old(ipAttempts)[k], now))
        {
          var k :| k in todo;
          todo := todo - {k};
          if now > ipAttempts[k].windowEnd {
            ipAttempts := ipAttempts - {k};
          }
        }
        assert ipAttempts == Sweep(old(ipAttempts), now);
      }
      if ip !in ipAttempts || now > ipAttempts[ip].windowEnd {
        ipAttempts := ipAttempts[ip := Attempt(0, now + WINDOW)];
        return true;
      }
      return ipAttempts[ip].count < MAX_PER_IP;
    }

    method RecordIPAttempt(ip: string)
      modifies this
      ensures ipAttempts == RecordAttempt(old(ipAttempts), ip)
    {
      if ip in ipAttempts {
        ipAttempts := ipAttempts[ip := ipAttempts[ip].(count := ipAttempts[ip].count + 1)];
      }
    }

    /** The decision path of one login, start to end. */
    method Login(ip: string, given: bool, now: int, outcome: Outcome) returns (status: Status)
      modifies this
      ensures (ipAttempts, status) == Attempted(old(ipAttempts), ip, given, now, outcome)
    {
      if !given {
        return BadRequest;
      }
      var allowed := Allow(ip, now);
      if !allowed {
        return TooMany;
      }
      if outcome.UnknownUser? {
        RecordIPAttempt(ip);
        return Unauthorized;
      }
      if outcome.Locked? || outcome.Disabled? {
        return Forbidden;
      }
      if outcome.WrongPassword? {
        RecordIPAttempt(ip);
        return Unauthorized;
      }
      return if outcome.NoSession? then Error else Ok;
    }
  }
}
