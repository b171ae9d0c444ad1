/** What every claim and every status request of a run is answered, read off the trace of
    requests and answers alone. */
module ProvisioningVerdicts {
  import opened Options
  import opened Provisioning
  import opened ProvisioningRuns

  // ---------- which codes are open ----------

  /** What one request does to the code `nonce` of a bridge: it may open it or close it. */
  predicate OpenAfter(open: bool, r: Record, t: string, b: string, nonce: string) {
    match r.event
    case QrEvent(t', b', Some(d), _) => if (t', b') == (t, b) && !r.answer.NotFound? then d.nonce == nonce else open
    case DirectEvent(t', b', Some(d), fault) =>
      if (t', b') == (t, b) && !r.answer.NotFound? then d.nonce == nonce && fault.ReadFail? else open
    case ClaimEvent(_, _, n, _, _, _) => open && !(n == nonce && (r.answer.Issued? || r.answer.Gone?))
    case DeleteEvent(t', b') => open && !((t', b') == (t, b) && r.answer.Done?)
    case ReapEvent(removed) => open && StashKey(t, b) !in removed
    case _ => open
  }

  /** A code is open from the request that minted it until the next mint for its bridge, the
      claim that was handed its bundle or told that it had expired, the bridge's deletion, or
      the reaper. */
  predicate Open(tr: seq<Record>, t: string, b: string, nonce: string) {
    tr != [] && OpenAfter(Open(tr[..|tr| - 1], t, b, nonce), tr[|tr| - 1], t, b, nonce)
  }

  predicate HoldsCode(db: Db, t: string, b: string, nonce: string) {
    HasStash(db, StashKey(t, b)) && StashAt(db, StashKey(t, b)).nonce == nonce
  }

  lemma ClaimOpens(db: Db, db': Db, tr: seq<Record>, r: Record, t: string, b: string, nonce: string)
    requires r.event.ClaimEvent? && Inv(db, tr) && ClaimPost(db, db', tr, r) && PlainId(t)
    ensures HoldsCode(db', t, b, nonce) <==> OpenAfter(HoldsCode(db, t, b, nonce), r, t, b, nonce)
  {
    if r.answer != Refusal(r.event) {
      MintsKeepTheirNonce(tr);
      var m := Minted(tr)[r.event.nonce];
      assert StashOk(db, tr, StashKey(m.t, m.b));
      if StashKey(t, b) == StashKey(m.t, m.b) {
        KeysInjective(t, b, m.t, m.b);
      } else if HoldsCode(db, t, b, nonce) {
        assert StashOk(db, tr, StashKey(t, b));
      }
    }
  }

  lemma DirectOpens(db: Db, db': Db, r: Record, t: string, b: string, nonce: string)
    requires r.event.DirectEvent? && DirectPost(db, db', r) && PlainId(t)
    requires forall x | x in db.bridges :: PlainId(x.0)
    ensures HoldsCode(db', t, b, nonce) <==> OpenAfter(HoldsCode(db, t, b, nonce), r, t, b, nonce)
  {
    if StashKey(t, b) == StashKey(r.event.t, r.event.b) && (r.event.t, r.event.b) in db.bridges {
      KeysInjective(t, b, r.event.t, r.event.b);
    }
  }

  lemma OtherOpens(db: Db, r: Record, t: string, b: string, nonce: string)
    requires !r.event.ClaimEvent? && !r.event.DirectEvent? && PlainId(t)
    requires r.answer == Step(db, r.now, r.event).1
    requires forall x | x in db.bridges :: PlainId(x.0)
    ensures HoldsCode(Step(db, r.now, r.event).0, t, b, nonce) <==> OpenAfter(HoldsCode(db, t, b, nonce), r, t, b, nonce)
  {
    if (r.event.QrEvent? || r.event.DeleteEvent?) && (r.event.t, r.event.b) in db.bridges
      && StashKey(t, b) == StashKey(r.event.t, r.event.b) {
      KeysInjective(t, b, r.event.t, r.event.b);
    }
  }

  /** A bridge's stash row holds a code exactly while the code is open. */
  lemma {:induction false} HeldIffOpen(start: Db, tr: seq<Record>, t: string, b: string, nonce: string)
    requires IsRun(start, tr) && PlainId(t)
    ensures HoldsCode(Final(start, tr), t, b, nonce) <==> Open(tr, t, b, nonce)
  {
    if tr != [] {
      var rest, r := tr[..|tr| - 1], tr[|tr| - 1];
      var db := Final(start, rest);
      HeldIffOpen(start, rest, t, b, nonce);
      RunInv(start, rest);
      match r.event
      case ClaimEvent(_, _, _, _, _, _) =>
        ClaimEffect(db, rest, r);
        ClaimOpens(db, Final(start, tr), rest, r, t, b, nonce);
      case DirectEvent(_, _, _, _) =>
        DirectEffect(db, r);
        DirectOpens(db, Final(start, tr), r, t, b, nonce);
      case _ =>
        OtherOpens(db, r, t, b, nonce);
    }
  }

  // ---------- the verdicts ----------

  const HALF_AN_HOUR: int := 1_800_000_000_000

  /** The broker members that take the credentials. */
  function Accepting(accepted: seq<bool>): set<nat> {
    set i: nat | i < |accepted| && accepted[i]
  }

  lemma {:induction false} CountIsNumber(accepted: seq<bool>)
    ensures CountAccepted(accepted) == |Accepting(accepted)|
  {
    if accepted != [] {
      var last := |accepted| - 1;
      CountIsNumber(accepted[..last]);
      if accepted[last] {
        assert Accepting(accepted) == Accepting(accepted[..last]) + {last};
      } else {
        assert Accepting(accepted) == Accepting(accepted[..last]);
      }
    }
  }

  /** A member that was asked does not take the credentials. */
  predicate SomeRefuses(probe: Probe) {
    probe.Members? && exists i | 0 <= i < |probe.accepted| :: !probe.accepted[i]
  }

  /** The verdict on a code that is open: 410 after half an hour; 500 when a credential write
      fails, unless the row was written by an earlier claim that was held; 503 while a member
      refuses the credentials; else the bundle drawn when the code was minted. */
  function OpenVerdict(m: Mint, held: bool, e: Event, now: int): Answer
    requires e.ClaimEvent?
  {
    if now - m.at > HALF_AN_HOUR then Gone
    else if (e.fault.CredentialsFail? || e.fault.CertificateFail?) && !held then Failed
    else if SomeRefuses(e.probe) then Held(|Accepting(e.probe.accepted)|, |e.probe.accepted|)
    else Issued(Bundle(m.b, m.t, m.b, m.draw.password, m.draw.certPEM, m.draw.keyPEM, m.draw.certExpires))
  }

  lemma FoundVerdict(db: Db, tr: seq<Record>, r: Record, m: Mint, held: bool)
    requires r.event.ClaimEvent? && !r.event.fault.ReadFail? && Inv(db, tr)
    requires r.event.nonce in Minted(tr) && m == Minted(tr)[r.event.nonce]
    requires Holding(db, m) && (held <==> StashAt(db, StashKey(m.t, m.b)).installed)
    requires FindStash(db, r.event.keys, r.event.id, r.event.nonce) == Some(StashKey(m.t, m.b))
    ensures Step(db, r.now, r.event).1 == OpenVerdict(m, held, r.event, r.now)
  {
    var key := StashKey(m.t, m.b);
    MintsKeepTheirNonce(tr);
    assert StashOk(db, tr, key);
    if r.event.probe.Members? {
      CountIsNumber(r.event.probe.accepted);
    }
  }

  /** Every claim of every run: 404 for anything but an open code given with its own bridge's
      id, and for an open code its verdict, whatever the store's key order and whichever other
      tenants use the same bridge id. */
  lemma ClaimVerdict(start: Db, tr: seq<Record>)
    requires IsRun(start, tr) && tr != [] && tr[|tr| - 1].event.ClaimEvent?
    requires SeesAll(Final(start, tr[..|tr| - 1]), tr[|tr| - 1].event.keys)
    ensures var rest, r := tr[..|tr| - 1], tr[|tr| - 1];
      var n, mints := r.event.nonce, Minted(rest);
      r.answer ==
        if r.event.fault.ReadFail? then Unavailable
        else if n in mints && mints[n].b == r.event.id && Open(rest, mints[n].t, mints[n].b, n)
        then OpenVerdict(mints[n], HeldBefore(rest, n), r.event, r.now)
        else NotFound
  {
    var rest, r := tr[..|tr| - 1], tr[|tr| - 1];
    var db, n := Final(start, rest), r.event.nonce;
    ClaimFinds(start, rest, r.event.keys, r.event.id, n);
    RunInv(start, rest);
    MintsKeepTheirNonce(rest);
    if n in Minted(rest) && Minted(rest)[n].b == r.event.id && !r.event.fault.ReadFail? {
      var m := Minted(rest)[n];
      MintsPlain(start, rest);
      HeldIffOpen(start, rest, m.t, m.b, n);
      if Holding(db, m) {
        InstalledIffHeld(start, rest, StashKey(m.t, m.b));
        FoundVerdict(db, rest, r, m, HeldBefore(rest, n));
      }
    }
  }

  /** The report on a code that is open. */
  function OpenReport(m: Mint, held: bool, probe: Probe, now: int): Answer {
    var age := (now - m.at) / 1_000_000_000;
    if now - m.at > HALF_AN_HOUR then Report(Expired, age, false, 0, 0)
    else if !held then Report(Ready, age, false, 0, 0)
    else if probe.Members? && probe.accepted != []
    then Report(if SomeRefuses(probe) then Pending else Live, age, true, |Accepting(probe.accepted)|, |probe.accepted|)
    else Report(Live, age, false, 0, 0)
  }

  /** Every status request of every run about a registered bridge: nothing to report while no
      code of the bridge is open, and otherwise the report on the open one. */
  lemma StatusVerdict(start: Db, tr: seq<Record>)
    requires IsRun(start, tr) && tr != [] && tr[|tr| - 1].event.StatusEvent?
    ensures var rest, r := tr[..|tr| - 1], tr[|tr| - 1];
      var t, b := r.event.t, r.event.b;
      var mints, none := Minted(rest), forall n | n in Minted(rest) :: !Open(rest, t, b, n);
      && (ExpectedRow(start, rest, t, b).None? ==> r.answer == NotFound)
      && (ExpectedRow(start, rest, t, b).Some? ==>
            && (none || r.event.read.Unreadable? ==> r.answer == Report(Absent, 0, false, 0, 0))
            && (!none && r.event.read.Corrupt? ==> r.answer == Unavailable)
            && (!none && r.event.read.Readable? ==>
                  forall n | n in mints && Open(rest, t, b, n) ::
                    r.answer == OpenReport(mints[n], HeldBefore(rest, n), r.event.probe, r.now)))
  {
    var rest, r := tr[..|tr| - 1], tr[|tr| - 1];
    var db, t, b := Final(start, rest), r.event.t, r.event.b;
    RowIsExpected(start, rest, t, b);
    RunInv(start, rest);
    if (t, b) in db.bridges {
      forall n ensures HoldsCode(db, t, b, n) <==> Open(rest, t, b, n) {
        HeldIffOpen(start, rest, t, b, n);
      }
      if HasStash(db, StashKey(t, b)) {
        StashReport(start, rest, r);
      }
    }
  }

  lemma StashReport(start: Db, tr: seq<Record>, r: Record)
    requires IsRun(start, tr) && r.event.StatusEvent? && (r.event.t, r.event.b) in Final(start, tr).bridges
    requires HasStash(Final(start, tr), StashKey(r.event.t, r.event.b))
    requires Inv(Final(start, tr), tr)
    ensures var s := StashAt(Final(start, tr), StashKey(r.event.t, r.event.b));
      && s.nonce in Minted(tr)
      && (r.event.read.Readable? ==>
            Step(Final(start, tr), r.now, r.event).1 == OpenReport(Minted(tr)[s.nonce], HeldBefore(tr, s.nonce), r.event.probe, r.now))
  {
    var db, key := Final(start, tr), StashKey(r.event.t, r.event.b);
    assert StashOk(db, tr, key);
    InstalledIffHeld(start, tr, key);
    var s := StashAt(db, key);
    StatusOf(db, r.event.t, r.event.b, r.event.probe, r.now, Minted(tr)[s.nonce], HeldBefore(tr, s.nonce));
  }

  lemma StatusOf(db: Db, t: string, b: string, probe: Probe, now: int, m: Mint, held: bool)
    requires (t, b) in db.bridges && HasStash(db, StashKey(t, b))
    requires var s := StashAt(db, StashKey(t, b)); s.createdAt == m.at && s.passwordHash != "" && (s.installed <==> held)
    ensures Status(db, t, b, probe, Readable, now) == OpenReport(m, held, probe, now)
  {
    if probe.Members? {
      CountIsNumber(probe.accepted);
    }
  }

  // ---------- what is handed out ----------

  /** The draw a request was given, if it was given one. */
  function DrawnIn(e: Event): Option<Draw> {
    match e
    case QrEvent(_, _, draw, _) => draw
    case DirectEvent(_, _, draw, _) => draw
    case _ => None
  }

  lemma {:induction false} MintedWhen(tr: seq<Record>, n: string) returns (i: nat)
    requires n in Minted(tr)
    ensures i < |tr| && MintOf(tr[i]) == Some(Minted(tr)[n])
  {
    var m := MintOf(tr[|tr| - 1]);
    if m.Some? && m.value.draw.nonce == n {
      i := |tr| - 1;
    } else {
      i := MintedWhen(tr[..|tr| - 1], n);
    }
  }

  /** The password handed out is one the bridge's row verifies, under whatever relation ties
      a drawn password to its hash; and user and certificate are the row's too. */
  lemma HandedOutWorks(start: Db, tr: seq<Record>, verifies: (string, string) -> bool)
    requires IsRun(start, tr) && tr != [] && tr[|tr| - 1].answer.Issued?
    requires forall i | 0 <= i < |tr| && DrawnIn(tr[i].event).Some? ::
      verifies(DrawnIn(tr[i].event).value.password, DrawnIn(tr[i].event).value.passwordHash)
    ensures var bundle := tr[|tr| - 1].answer.bundle;
      var row := RowAt(Final(start, tr), bundle.tenantID, bundle.bridgeID);
      && row.Some?
      && row.value.username == bundle.username && verifies(bundle.password, row.value.passwordHash)
      && row.value.certPEM == bundle.certPEM && row.value.certExpiry == bundle.certExpires
  {
    var rest, r := tr[..|tr| - 1], tr[|tr| - 1];
    if r.event.ClaimEvent? {
      ClaimAnswers(start, tr);
      var i := MintedWhen(rest, r.event.nonce);
      assert DrawnIn(tr[i].event).Some?;
    } else {
      assert r.event.DirectEvent?;
      DirectAnswers(start, tr);
    }
  }

  /** A QR that is shown carries the nonce drawn for it, and claiming it next, within half an
      hour and with nothing in the way, hands out what was drawn with it. */
  lemma ShownCodeIsClaimable(start: Db, tr: seq<Record>, r: Record)
    requires IsRun(start, tr) && tr != [] && tr[|tr| - 1].event.QrEvent? && tr[|tr| - 1].answer.Code?
    requires IsRun(start, tr + [r]) && r.event.ClaimEvent? && SeesAll(Final(start, tr), r.event.keys)
    requires r.event.id == tr[|tr| - 1].event.b && r.event.nonce == tr[|tr| - 1].answer.nonce
    requires r.event.fault.NoFault? && !SomeRefuses(r.event.probe) && r.now - tr[|tr| - 1].now <= HALF_AN_HOUR
    ensures var e := tr[|tr| - 1].event;
      && e.draw.Some? && r.event.nonce == e.draw.value.nonce
      && var d := e.draw.value;
      r.answer == Issued(Bundle(e.b, e.t, e.b, d.password, d.certPEM, d.keyPEM, d.certExpires))
  {
    assert (tr + [r])[..|tr|] == tr;
    var e := tr[|tr| - 1].event;
    assert MintOf(tr[|tr| - 1]) == Some(Mint(e.t, e.b, e.draw.value, tr[|tr| - 1].now));
    assert Open(tr, e.t, e.b, r.event.nonce);
    ClaimVerdict(start, tr + [r]);
  }
}
