/** The provisioning endpoints as the Hub runs them: an object over the stored rows,
    each method proved to be the step of `Provisioning` that the run theorems are about. */
module ProvisioningHandler {
  import opened Clock
  import opened Options
  import opened Text
  import opened Provisioning

  class BridgeProvisionHandler {
    var config: map<string, ConfigRow>
    var bridges: map<BridgeRef, BridgeRow>

    ghost function Rows(): Db
      reads this
    {
      Db(config, bridges)
    }

    constructor ()
      ensures Rows() == Db(map[], map[])
    {
      config, bridges := map[], map[];
    }

    method InstallStash(key: string, t: string, b: string, stash: Stash, fault: Fault, now: int) returns (done: Stash, ok: bool)
      modifies this
      ensures InstallResult(Rows(), done, ok) == Install(old(Rows()), key, t, b, stash, fault, now)
    {
      done, ok := stash, true;
      if stash.installed || stash.passwordHash == "" {
        return;
      }
      if fault.CredentialsFail? {
        ok := false;
        return;
      }
      if (t, b) in bridges {
        bridges := bridges[(t, b) := bridges[(t, b)].(username := stash.bundle.username, passwordHash := stash.passwordHash)];
      }
      if fault.CertificateFail? {
        ok := false;
        return;
      }
      if (t, b) in bridges {
        bridges := bridges[(t, b) := bridges[(t, b)].(certPEM := stash.bundle.certPEM, certExpiry := stash.bundle.certExpires)];
      }
      done := stash.(installed := true);
      if !fault.RecordFail? {
        config := config[key := ConfigRow(Some(done), now)];
      }
    }

    /** The lookup of an unauthenticated claim: first the candidate keys, then the nonce. A
        row of `unread`, which cannot be read or does not parse, is passed over. */
    method Lookup(keys: seq<string>, unread: set<string>, id: string, nonce: string) returns (found: Option<string>)
      ensures found == FindStash(Rows(), Without(keys, unread), id, nonce)
    {
      var candidates: seq<string> := [];
      for i := 0 to |keys|
        invariant candidates == Candidates(keys[..i], id)
      {
        assert keys[..i + 1][..i] == keys[..i];
        if HasSuffix(keys[i], ":" + id) || keys[i] == STASH_PREFIX + id {
          candidates := candidates + [keys[i]];
        }
      }
      assert keys[..|keys|] == keys;
      found := Pick(candidates, unread, id, nonce);
      CandidatesSuffice(Rows(), keys, unread, id, nonce);
    }

    /** The first candidate whose stash carries the nonce. */
    method Pick(candidates: seq<string>, unread: set<string>, id: string, nonce: string) returns (found: Option<string>)
      requires forall c | c in candidates :: HasSuffix(c, ":" + id) || c == STASH_PREFIX + id
      ensures found == FindStash(Rows(), Without(candidates, unread), id, nonce)
    {
      assert candidates[0..] == candidates;
      for i := 0 to |candidates|
        invariant FindStash(Rows(), Without(candidates, unread), id, nonce) == FindStash(Rows(), Without(candidates[i..], unread), id, nonce)
      {
        var k := candidates[i];
        FindNext(Rows(), candidates, i, unread, id, nonce);
        if k in unread {
          continue;
        }
        if k in config && config[k].value.Some? {
          var stash := config[k].value.value;
          if (stash.bundle.bridgeID == id || stash.bundle.bridgeID == "") && stash.nonce == nonce {
            return Some(k);
          }
        }
      }
      return None;
    }

    method GenerateAndStash(t: string, b: string, draw: Option<Draw>, now: int) returns (nonce: Option<string>)
      modifies this
      ensures nonce == if draw.Some? then Some(draw.value.nonce) else None
      ensures Rows() == if draw.Some? then SetConfig(old(Rows()), StashKey(t, b), Some(StashOf(t, b, draw.value, now)), now) else old(Rows())
    {
      if draw.None? {
        return None;
      }
      config := config[StashKey(t, b) := ConfigRow(Some(StashOf(t, b, draw.value, now)), now)];
      return Some(draw.value.nonce);
    }

    method ProvisionQR(t: string, b: string, draw: Option<Draw>, encoded: bool, now: int) returns (answer: Answer)
      modifies this
      ensures (Rows(), answer) == Step(old(Rows()), now, QrEvent(t, b, draw, encoded))
    {
      if (t, b) !in bridges {
        return NotFound;
      }
      var nonce := GenerateAndStash(t, b, draw, now);
      if nonce.None? {
        return Failed;
      }
      answer := if encoded then Code(nonce.value) else Failed;
    }

    method Provision(t: string, b: string, draw: Option<Draw>, fault: Fault, now: int) returns (answer: Answer)
      modifies this
      ensures (Rows(), answer) == Step(old(Rows()), now, DirectEvent(t, b, draw, fault))
      ensures answer.Issued? ==>
        && draw.Some?
        && var d := draw.value;
        answer.bundle == Bundle(b, t, b, d.password, d.certPEM, d.keyPEM, d.certExpires)
    {
      if (t, b) !in bridges {
        return NotFound;
      }
      var nonce := GenerateAndStash(t, b, draw, now);
      if nonce.None? {
        return Failed;
      }
      if fault.ReadFail? {
        return Unavailable;
      }
      var key := StashKey(t, b);
      var stash := config[key].value.value;
      var done, ok := InstallStash(key, t, b, stash, fault, now);
      config := config[key := ConfigRow(None, now)];
      answer := if ok then Issued(done.bundle) else Failed;
    }

    method ClaimProvision(keys: seq<string>, unread: set<string>, id: string, nonce: string, owner: string,
                          probe: Probe, fault: Fault, now: int) returns (answer: Answer)
      modifies this
      ensures (Rows(), answer) == Step(old(Rows()), now, ClaimEvent(Without(keys, unread), id, nonce, owner, probe, fault))
      ensures answer.Issued? ==> exists k | HasStash(old(Rows()), k) ::
        && StashAt(old(Rows()), k).nonce == nonce && StashAt(old(Rows()), k).bundle == answer.bundle
        && now - StashAt(old(Rows()), k).createdAt <= 30 * MINUTE
        && !HasStash(Rows(), k)
    {
      if fault.ReadFail? {
        return Unavailable;
      }
      var found := Lookup(keys, unread, id, nonce);
      if found.None? {
        return NotFound;
      }
      var key := found.value;
      var stash := config[key].value.value;
      if now - stash.createdAt > PROVISION_TTL {
        config := config[key := ConfigRow(None, now)];
        return Gone;
      }
      var done, ok := InstallStash(key, StashTenant(key, owner), id, stash, fault, now);
      if !ok {
        return Failed;
      }
      if probe.Members? {
        var accepted, live := Tally(probe.accepted);
        if !live && |probe.accepted| > 0 {
          return Held(accepted, |probe.accepted|);
        }
      }
      config := config[key := ConfigRow(None, now)];
      answer := Issued(done.bundle);
      assert StashAt(old(Rows()), key) == stash && !HasStash(Rows(), key);
    }

    method ProvisionStatus(t: string, b: string, probe: Probe, read: Read, now: int) returns (answer: Answer)
      ensures (Rows(), answer) == Step(Rows(), now, StatusEvent(t, b, probe, read))
    {
      if (t, b) !in bridges {
        return NotFound;
      }
      var key := StashKey(t, b);
      if read.Unreadable? || key !in config || config[key].value.None? {
        return Report(Absent, 0, false, 0, 0);
      }
      if read.Corrupt? {
        return Unavailable;
      }
      var stash := config[key].value.value;
      answer := Report(Live, (now - stash.createdAt) / SECOND, false, 0, 0);
      if now - stash.createdAt > PROVISION_TTL {
        return answer.(state := Expired);
      }
      if !stash.installed && stash.passwordHash != "" {
        return answer.(state := Ready);
      }
      if probe.Members? {
        var accepted, live := Tally(probe.accepted);
        answer := answer.(checked := |probe.accepted| > 0, members := |probe.accepted|, accepted := accepted);
        if answer.checked && !live {
          answer := answer.(state := Pending);
        }
      }
    }

    method DeleteBridge(t: string, b: string) returns (answer: Answer)
      modifies this
      ensures forall now :: (Rows(), answer) == Step(old(Rows()), now, DeleteEvent(t, b))
    {
      if (t, b) !in bridges {
        return NotFound;
      }
      bridges := bridges - {(t, b)};
      config := config - {StashKey(t, b)};
      answer := Done;
    }
  }

  /** The members that accept, and whether all of them do. */
  method Tally(accepted: seq<bool>) returns (count: nat, live: bool)
    ensures count == CountAccepted(accepted)
    ensures |accepted| > 0 ==> (live <==> !Refused(Members(accepted)))
  {
    count := 0;
    for i := 0 to |accepted|
      invariant count == CountAccepted(accepted[..i])
    {
      assert accepted[..i + 1][..i] == accepted[..i];
      if accepted[i] {
        count := count + 1;
      }
    }
    assert accepted[..|accepted|] == accepted;
    live := count == |accepted|;
  }

  /** The keys a claim for a bridge could be for. */
  function Candidates(keys: seq<string>, id: string): (r: seq<string>)
    ensures forall c | c in r :: HasSuffix(c, ":" + id) || c == STASH_PREFIX + id
  {
    if keys == [] then []
    else
      var k, rest := keys[|keys| - 1], Candidates(keys[..|keys| - 1], id);
      if HasSuffix(k, ":" + id) || k == STASH_PREFIX + id then rest + [k] else rest
  }

  lemma {:induction false} FindInTwo(db: Db, a: seq<string>, b: seq<string>, id: string, nonce: string)
    ensures FindStash(db, a + b, id, nonce)
         == var first := FindStash(db, a, id, nonce); if first.Some? then first else FindStash(db, b, id, nonce)
  {
    if a == [] {
      assert a + b == b;
    } else {
      assert (a + b)[1..] == a[1..] + b;
      FindInTwo(db, a[1..], b, id, nonce);
    }
  }

  /** The keys whose rows can be read. */
  function Without(keys: seq<string>, unread: set<string>): seq<string> {
    if keys == [] then [] else (if keys[0] in unread then [] else [keys[0]]) + Without(keys[1..], unread)
  }

  lemma FindNext(db: Db, keys: seq<string>, i: nat, unread: set<string>, id: string, nonce: string)
    requires i < |keys|
    ensures FindStash(db, Without(keys[i..], unread), id, nonce) ==
      if keys[i] !in unread && Matches(db, keys[i], id, nonce) then Some(keys[i])
      else FindStash(db, Without(keys[i + 1..], unread), id, nonce)
  {
    var rest := Without(keys[i + 1..], unread);
    assert keys[i..][1..] == keys[i + 1..];
    assert ([keys[i]] + rest)[1..] == rest && [] + rest == rest;
  }

  lemma {:induction false} WithoutOneMore(keys: seq<string>, k: string, unread: set<string>)
    ensures Without(keys + [k], unread) == Without(keys, unread) + if k in unread then [] else [k]
  {
    if keys == [] {
      assert keys + [k] == [k] && [k][1..] == [];
    } else {
      assert (keys + [k])[1..] == keys[1..] + [k];
      WithoutOneMore(keys[1..], k, unread);
    }
  }

  /** Nothing that could match is dropped. */
  lemma {:induction false} CandidatesSuffice(db: Db, keys: seq<string>, unread: set<string>, id: string, nonce: string)
    ensures FindStash(db, Without(keys, unread), id, nonce) == FindStash(db, Without(Candidates(keys, id), unread), id, nonce)
  {
    if keys != [] {
      var init, k := keys[..|keys| - 1], keys[|keys| - 1];
      assert keys == init + [k];
      CandidatesSuffice(db, init, unread, id, nonce);
      var last := if k in unread then [] else [k];
      WithoutOneMore(init, k, unread);
      WithoutOneMore(Candidates(init, id), k, unread);
      FindInTwo(db, Without(init, unread), last, id, nonce);
      FindInTwo(db, Without(Candidates(init, id), unread), last, id, nonce);
    }
  }
}
