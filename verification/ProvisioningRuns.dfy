/** Whole runs of bridge provisioning. What a run promises is stated over its trace
    of requests and answers, read independently of the stored rows. */
module ProvisioningRuns {
  import opened Clock
  import opened Options
  import opened Text
  import opened Provisioning

  datatype Record = Record(now: int, event: Event, answer: Answer)

  /** Where and when a nonce was minted, and what was drawn with it. */
  datatype Mint = Mint(t: string, b: string, draw: Draw, at: int)

  // ---------- reading a trace ----------

  /** The mint a record performs: any QR or direct call that got past its checks, whether or
      not the caller then got to see anything. */
  function MintOf(r: Record): Option<Mint> {
    match r.event
    case QrEvent(t, b, Some(d), _) => if r.answer.NotFound? then None else Some(Mint(t, b, d, r.now))
    case DirectEvent(t, b, Some(d), _) => if r.answer.NotFound? then None else Some(Mint(t, b, d, r.now))
    case _ => None
  }

  /** Every nonce minted so far. */
  function Minted(tr: seq<Record>): map<string, Mint> {
    if tr == [] then map[]
    else
      var before, m := Minted(tr[..|tr| - 1]), MintOf(tr[|tr| - 1]);
      if m.Some? then before[m.value.draw.nonce := m.value] else before
  }

  /** The most recently minted nonce of a bridge. */
  function Latest(tr: seq<Record>, t: string, b: string): Option<string> {
    if tr == [] then None
    else
      var m := MintOf(tr[|tr| - 1]);
      if m.Some? && m.value.t == t && m.value.b == b then Some(m.value.draw.nonce)
      else Latest(tr[..|tr| - 1], t, b)
  }

  predicate Delivers(r: Record, nonce: string) {
    && r.answer.Issued?
    && match r.event
       case ClaimEvent(_, _, n, _, _, _) => n == nonce
       case DirectEvent(_, _, Some(d), _) => d.nonce == nonce
       case _ => false
  }

  function RowOf(m: Mint): BridgeRow {
    BridgeRow(m.b, m.draw.passwordHash, m.draw.certPEM, m.draw.certExpires)
  }

  /** A failed install has changed the user and password when only its certificate write
      failed, and nothing when the first write did. */
  function HalfRow(row: BridgeRow, m: Mint, fault: Fault): BridgeRow {
    if fault.CertificateFail? then row.(username := m.b, passwordHash := m.draw.passwordHash) else row
  }

  /** The bridge row a reader of the trace expects: what it was when the bridge was
      registered, then the credentials of the last bundle a claim took up (200 or
      held) or a direct call handed out, or half of them where the install failed.
      Showing a QR does not appear here. */
  function ExpectedRow(start: Db, tr: seq<Record>, t: string, b: string): Option<BridgeRow> {
    if tr == [] then if (t, b) in start.bridges then Some(start.bridges[(t, b)]) else None
    else
      var rest, r := tr[..|tr| - 1], tr[|tr| - 1];
      var before := ExpectedRow(start, rest, t, b);
      match r.event
      case RegisterEvent(t', b') => if (t', b') == (t, b) && r.answer.Done? then Some(NEW_ROW) else before
      case DeleteEvent(t', b') => if (t', b') == (t, b) && r.answer.Done? then None else before
      case DirectEvent(t', b', Some(d), fault) =>
        if (t', b') == (t, b) then Rewritten(before, Mint(t, b, d, r.now), r.answer, fault) else before
      case ClaimEvent(_, _, n, _, _, fault) =>
        if n in Minted(rest) && Minted(rest)[n].t == t && Minted(rest)[n].b == b
        then Rewritten(before, Minted(rest)[n], r.answer, fault) else before
      case _ => before
  }

  function Rewritten(before: Option<BridgeRow>, m: Mint, answer: Answer, fault: Fault): Option<BridgeRow> {
    if answer.Issued? || answer.Held? then Some(RowOf(m))
    else if answer.Failed? && before.Some? then Some(HalfRow(before.value, m, fault))
    else before
  }

  // ---------- runs ----------

  function Final(start: Db, tr: seq<Record>): Db {
    if tr == [] then start
    else Step(Final(start, tr[..|tr| - 1]), tr[|tr| - 1].now, tr[|tr| - 1].event).0
  }

  /** What the environment guarantees about one request: nonces are never drawn twice,
      a drawn password has a hash, ids are plain, and the reaper removes only what it
      listed. */
  predicate Admissible(db: Db, minted: map<string, Mint>, now: int, e: Event) {
    match e
    case RegisterEvent(t, b) => PlainId(t) && PlainId(b)
    case QrEvent(_, _, Some(d), _) => d.nonce !in minted && d.passwordHash != ""
    case DirectEvent(_, _, Some(d), _) => d.nonce !in minted && d.passwordHash != ""
    case ReapEvent(removed) => forall k | k in removed :: Reapable(db, k, now)
    case _ => true
  }

  /** A claim's listing has every stash key. */
  predicate SeesAll(db: Db, keys: seq<string>) {
    forall k | k in db.config && HasPrefix(k, STASH_PREFIX) :: k in keys
  }

  predicate Start(db: Db) {
    db.config == map[] && forall r | r in db.bridges :: PlainId(r.0) && PlainId(r.1)
  }

  predicate IsRun(start: Db, tr: seq<Record>) {
    if tr == [] then Start(start)
    else
      var rest, r := tr[..|tr| - 1], tr[|tr| - 1];
      && IsRun(start, rest)
      && (rest != [] ==> rest[|rest| - 1].now <= r.now)
      && Admissible(Final(start, rest), Minted(rest), r.now, r.event)
      && r.answer == Step(Final(start, rest), r.now, r.event).1
  }

  // ---------- the invariant ----------

  /** A stash is the untouched bundle of the latest mint of its bridge, under that
      bridge's own key, never handed out, and recorded as installed only when the
      bridge row carries it. */
  predicate StashOk(db: Db, tr: seq<Record>, key: string)
    requires HasStash(db, key)
  {
    var s := StashAt(db, key);
    && s.nonce in Minted(tr)
    && var m := Minted(tr)[s.nonce];
    && PlainId(m.t) && PlainId(m.b)
    && key == StashKey(m.t, m.b)
    && (m.t, m.b) in db.bridges
    && s == StashOf(m.t, m.b, m.draw, m.at).(installed := s.installed)
    && s.passwordHash != ""
    && m.draw.nonce == s.nonce
    && Latest(tr, m.t, m.b) == Some(s.nonce)
    && m.at <= db.config[key].updatedAt
    && (s.installed ==> db.bridges[(m.t, m.b)] == RowOf(m))
  }

  ghost predicate Inv(db: Db, tr: seq<Record>) {
    && (forall k | HasStash(db, k) :: StashOk(db, tr, k))
    && (forall r | r in db.bridges :: PlainId(r.0) && PlainId(r.1))
    && (tr != [] ==> forall n | n in Minted(tr) :: Minted(tr)[n].at <= tr[|tr| - 1].now)
  }

  /** No stash carries this nonce. */
  ghost predicate NoStash(db: Db, nonce: string) {
    forall k | HasStash(db, k) :: StashAt(db, k).nonce != nonce
  }

  /** What appending one record does to the trace readings. */
  lemma Extended(tr: seq<Record>, r: Record)
    ensures (tr + [r])[..|tr|] == tr
    ensures Minted(tr + [r]) == (if MintOf(r).Some? then Minted(tr)[MintOf(r).value.draw.nonce := MintOf(r).value] else Minted(tr))
    ensures forall t, b ::
      Latest(tr + [r], t, b) ==
        if MintOf(r).Some? && MintOf(r).value.t == t && MintOf(r).value.b == b then Some(MintOf(r).value.draw.nonce)
        else Latest(tr, t, b)
  {
    assert (tr + [r])[..|tr|] == tr;
  }

  /** What a claim that finds a stash has found: the key, the minter and the row. */
  lemma Found(db: Db, tr: seq<Record>, key: string, id: string, nonce: string, owner: string)
    requires Inv(db, tr)
    requires Matches(db, key, id, nonce)
    ensures nonce in Minted(tr) && Minted(tr)[nonce].b == id
    ensures key == StashKey(Minted(tr)[nonce].t, id)
    ensures StashTenant(key, owner) == Minted(tr)[nonce].t
    ensures Holding(db, Minted(tr)[nonce])
  {
    assert StashOk(db, tr, key);
    TenantRecovered(Minted(tr)[nonce].t, id, owner);
  }

  // ---------- what each handler call does ----------

  /** Claimable: the nonce's own bridge still holds the nonce's own stash. */
  predicate Holding(db: Db, m: Mint) {
    HasStash(db, StashKey(m.t, m.b)) && StashAt(db, StashKey(m.t, m.b)).nonce == m.draw.nonce
  }

  /** Nothing outside one bridge's own two rows changes. */
  ghost predicate OnlyTouches(db: Db, db': Db, t: string, b: string) {
    && (forall x: BridgeRef | x != (t, b) ::
          (x in db.bridges <==> x in db'.bridges) && (x in db.bridges ==> db.bridges[x] == db'.bridges[x]))
    && (forall k: string | k != StashKey(t, b) ::
          (k in db.config <==> k in db'.config) && (k in db.config ==> db.config[k] == db'.config[k]))
  }

  /** What a claim is told whose code is no good; or that cannot be looked up. */
  function Refusal(e: Event): Answer
    requires e.ClaimEvent?
  {
    if e.fault.ReadFail? then Unavailable else NotFound
  }

  /** What a claim does, whatever install writes fail on the way. */
  ghost predicate ClaimPost(db: Db, db': Db, tr: seq<Record>, r: Record)
    requires r.event.ClaimEvent?
  {
    if r.answer == Refusal(r.event) then db' == db
    else
      && !r.event.fault.ReadFail?
      && r.event.nonce in Minted(tr)
      && var m := Minted(tr)[r.event.nonce];
      var key := StashKey(m.t, m.b);
      && m.b == r.event.id
      && Holding(db, m)
      && OnlyTouches(db, db', m.t, m.b)
      && (m.t, m.b) in db.bridges && (m.t, m.b) in db'.bridges
      && (r.answer.Gone? || r.answer.Issued? || r.answer.Held? || r.answer.Failed?)
      && (r.answer.Gone? <==> r.now - m.at > PROVISION_TTL)
      && (r.answer.Gone? ==> db'.bridges == db.bridges)
      && (r.answer.Gone? || r.answer.Issued? ==> !HasStash(db', key))
      && (r.answer.Held? || r.answer.Failed? ==>
            && HasStash(db', key)
            && StashAt(db', key) == StashAt(db, key).(installed := StashAt(db', key).installed)
            && (StashAt(db', key).installed ==> db'.bridges[(m.t, m.b)] == RowOf(m))
            && m.at <= db'.config[key].updatedAt)
      && (r.answer.Issued? || r.answer.Held? ==> db'.bridges[(m.t, m.b)] == RowOf(m))
      && (r.answer.Issued? ==> r.answer.bundle == BundleOf(m.t, m.b, m.draw))
      && (r.answer.Failed? ==> db'.bridges[(m.t, m.b)] == HalfRow(db.bridges[(m.t, m.b)], m, r.event.fault))
      && (r.event.fault.NoFault? ==> !r.answer.Failed?)
      && (r.answer.Held? || r.answer.Failed? ==>
            (StashAt(db', key).installed <==> StashAt(db, key).installed || (r.event.fault.NoFault? && r.answer.Held?)))
  }

  /** What an install leaves behind when its bridge exists. */
  ghost predicate InstallPost(db: Db, t: string, b: string, s: Stash, fault: Fault, now: int, r: InstallResult) {
    var key := StashKey(t, b);
    && OnlyTouches(db, r.db, t, b)
    && (t, b) in db.bridges && (t, b) in r.db.bridges
    && HasStash(r.db, key) && StashAt(r.db, key) == s.(installed := StashAt(r.db, key).installed)
    && key in db.config && r.db.config[key].updatedAt in {now, db.config[key].updatedAt}
    && (s.installed ==> r.ok && r.db == db)
    && (!s.installed && StashAt(r.db, key).installed ==> r.ok && fault.NoFault?)
    && (!s.installed && r.ok ==> r.db.bridges[(t, b)] == BridgeRow(b, s.passwordHash, s.bundle.certPEM, s.bundle.certExpires))
    && r.stash.bundle == s.bundle
    && (!r.ok && fault.CertificateFail? ==>
          r.db.bridges[(t, b)] == db.bridges[(t, b)].(username := b, passwordHash := s.passwordHash))
    && (!r.ok && !fault.CertificateFail? ==> r.db.bridges[(t, b)] == db.bridges[(t, b)])
    && (fault.NoFault? ==> r.ok && StashAt(r.db, key).installed)
  }

  lemma InstallEffect(db: Db, t: string, b: string, s: Stash, fault: Fault, now: int)
    requires !fault.ReadFail? && (t, b) in db.bridges && s.passwordHash != "" && s.bundle.username == b
    requires HasStash(db, StashKey(t, b)) && StashAt(db, StashKey(t, b)) == s
    ensures InstallPost(db, t, b, s, fault, now, Install(db, StashKey(t, b), t, b, s, fault, now))
  {
  }

  lemma ClaimEffect(db: Db, tr: seq<Record>, r: Record)
    requires r.event.ClaimEvent? && Inv(db, tr)
    requires forall n | n in Minted(tr) :: Minted(tr)[n].at <= r.now
    requires r.answer == Step(db, r.now, r.event).1
    ensures ClaimPost(db, Step(db, r.now, r.event).0, tr, r)
  {
    var e, db' := r.event, Step(db, r.now, r.event).0;
    var found := FindStash(db, e.keys, e.id, e.nonce);
    if found.Some? && !e.fault.ReadFail? {
      Found(db, tr, found.value, e.id, e.nonce, e.owner);
      FoundClaim(db, db', tr, r);
    }
  }

  lemma GoneClaim(db: Db, db': Db, tr: seq<Record>, r: Record)
    requires r.event.ClaimEvent? && !r.event.fault.ReadFail? && Inv(db, tr) && r.event.nonce in Minted(tr)
    requires var m := Minted(tr)[r.event.nonce];
      && m.b == r.event.id && Holding(db, m) && r.now - m.at > PROVISION_TTL
      && db' == SetConfig(db, StashKey(m.t, m.b), None, r.now) && r.answer == Gone
    ensures ClaimPost(db, db', tr, r)
  {
    MintsKeepTheirNonce(tr);
    assert StashOk(db, tr, StashKey(Minted(tr)[r.event.nonce].t, r.event.id));
  }

  lemma FoundClaim(db: Db, db': Db, tr: seq<Record>, r: Record)
    requires r.event.ClaimEvent? && !r.event.fault.ReadFail? && Inv(db, tr)
    requires forall n | n in Minted(tr) :: Minted(tr)[n].at <= r.now
    requires r.event.nonce in Minted(tr) && Minted(tr)[r.event.nonce].b == r.event.id
    requires var e, m := r.event, Minted(tr)[r.event.nonce];
      && Holding(db, m)
      && FindStash(db, e.keys, e.id, e.nonce) == Some(StashKey(m.t, m.b))
      && StashTenant(StashKey(m.t, m.b), e.owner) == m.t
      && (db', r.answer) == Claim(db, e.keys, e.id, e.nonce, e.owner, e.probe, e.fault, r.now)
    ensures ClaimPost(db, db', tr, r)
  {
    MintsKeepTheirNonce(tr);
    var e, m := r.event, Minted(tr)[r.event.nonce];
    var key := StashKey(m.t, m.b);
    var s := StashAt(db, key);
    assert StashOk(db, tr, key);
    if r.now - s.createdAt > PROVISION_TTL {
      GoneClaim(db, db', tr, r);
    } else {
      InstallEffect(db, m.t, m.b, s, e.fault, r.now);
      InstalledClaim(db, db', tr, r, Install(db, key, m.t, m.b, s, e.fault, r.now));
    }
  }

  /** The rest of a claim, once its install has run. */
  lemma InstalledClaim(db: Db, db': Db, tr: seq<Record>, r: Record, ir: InstallResult)
    requires r.event.ClaimEvent? && !r.event.fault.ReadFail? && Inv(db, tr)
    requires forall n | n in Minted(tr) :: Minted(tr)[n].at <= r.now
    requires r.event.nonce in Minted(tr)
    requires var m := Minted(tr)[r.event.nonce];
      && m.b == r.event.id && Holding(db, m) && r.now - m.at <= PROVISION_TTL
      && InstallPost(db, m.t, m.b, StashAt(db, StashKey(m.t, m.b)), r.event.fault, r.now, ir)
      && ((!ir.ok && db' == ir.db && r.answer == Failed)
          || (ir.ok && db' == ir.db && r.answer.Held?)
          || (ir.ok && db' == SetConfig(ir.db, StashKey(m.t, m.b), None, r.now) && r.answer == Issued(ir.stash.bundle)))
    ensures ClaimPost(db, db', tr, r)
  {
    MintsKeepTheirNonce(tr);
    var m := Minted(tr)[r.event.nonce];
    assert StashOk(db, tr, StashKey(m.t, m.b));
  }

  /** What a direct call does. One that cannot read its stash back leaves it there. */
  ghost predicate DirectPost(db: Db, db': Db, r: Record)
    requires r.event.DirectEvent?
  {
    var t, b, key := r.event.t, r.event.b, StashKey(r.event.t, r.event.b);
    if (t, b) !in db.bridges || r.event.draw.None? then db' == db && r.answer == (if (t, b) in db.bridges then Failed else NotFound)
    else
      var m := Mint(t, b, r.event.draw.value, r.now);
      && MintOf(r) == Some(m)
      && OnlyTouches(db, db', t, b)
      && (t, b) in db'.bridges
      && (r.event.fault.ReadFail? ==>
            && r.answer == Unavailable && db'.bridges == db.bridges
            && key in db'.config && db'.config[key] == ConfigRow(Some(StashOf(t, b, m.draw, r.now)), r.now))
      && (!r.event.fault.ReadFail? ==> !HasStash(db', key) && (r.answer.Issued? || r.answer.Failed?))
      && (r.answer.Issued? ==> r.answer.bundle == BundleOf(t, b, m.draw) && db'.bridges[(t, b)] == RowOf(m))
      && (r.answer.Failed? ==> db'.bridges[(t, b)] == HalfRow(db.bridges[(t, b)], m, r.event.fault))
  }

  lemma DirectEffect(db: Db, r: Record)
    requires r.event.DirectEvent? && r.answer == Step(db, r.now, r.event).1
    requires r.event.draw.Some? ==> r.event.draw.value.passwordHash != ""
    ensures DirectPost(db, Step(db, r.now, r.event).0, r)
  {
  }

  /** The invariant survives a step that touches one bridge only, if that bridge's own
      stash comes out in order. */
  lemma TouchKeepsInv(db: Db, db': Db, tr: seq<Record>, r: Record, t: string, b: string)
    requires Inv(db, tr) && OnlyTouches(db, db', t, b)
    requires forall n | n in Minted(tr) :: Minted(tr)[n].at <= r.now
    requires MintOf(r).Some? ==>
      var m := MintOf(r).value; m.t == t && m.b == b && m.draw.nonce !in Minted(tr) && m.at <= r.now
    requires (t, b) in db'.bridges ==> PlainId(t) && PlainId(b)
    requires HasStash(db', StashKey(t, b)) ==> StashOk(db', tr + [r], StashKey(t, b))
    ensures Inv(db', tr + [r])
  {
    Extended(tr, r);
    forall k | HasStash(db', k) ensures StashOk(db', tr + [r], k) {
      if k != StashKey(t, b) {
        assert StashOk(db, tr, k);
      }
    }
  }

  lemma ClaimKeepsInv(db: Db, db': Db, tr: seq<Record>, r: Record)
    requires r.event.ClaimEvent? && Inv(db, tr) && ClaimPost(db, db', tr, r)
    requires forall n | n in Minted(tr) :: Minted(tr)[n].at <= r.now
    ensures Inv(db', tr + [r])
  {
    if r.answer == Refusal(r.event) {
      SameDb(db, tr, r);
    } else {
      var m := Minted(tr)[r.event.nonce];
      ClaimedStash(db, db', tr, r, m);
      TouchKeepsInv(db, db', tr, r, m.t, m.b);
    }
  }

  /** The stash a claim found is gone or still in order. */
  lemma ClaimedStash(db: Db, db': Db, tr: seq<Record>, r: Record, m: Mint)
    requires r.event.ClaimEvent? && Inv(db, tr) && ClaimPost(db, db', tr, r) && r.answer != Refusal(r.event)
    requires m == Minted(tr)[r.event.nonce]
    ensures PlainId(m.t) && PlainId(m.b)
    ensures HasStash(db', StashKey(m.t, m.b)) ==> StashOk(db', tr + [r], StashKey(m.t, m.b))
  {
    Extended(tr, r);
    MintsKeepTheirNonce(tr);
    assert StashOk(db, tr, StashKey(m.t, m.b));
  }

  /** QR, registration and deletion, and the steps that touch no bridge row. */
  lemma OtherKeepsInv(db: Db, tr: seq<Record>, r: Record)
    requires Inv(db, tr) && !r.event.ClaimEvent? && !r.event.DirectEvent?
    requires Admissible(db, Minted(tr), r.now, r.event) && r.answer == Step(db, r.now, r.event).1
    requires forall n | n in Minted(tr) :: Minted(tr)[n].at <= r.now
    ensures Inv(Step(db, r.now, r.event).0, tr + [r])
  {
    Extended(tr, r);
    var db' := Step(db, r.now, r.event).0;
    match r.event
    case QrEvent(t, b, _, _) => QrKeepsInv(db, tr, r, t, b);
    case RegisterEvent(t, b) => if db' != db { NoStashUnregistered(db, tr, t, b); TouchKeepsInv(db, db', tr, r, t, b); } else { SameDb(db, tr, r); }
    case DeleteEvent(t, b) => if db' != db { TouchKeepsInv(db, db', tr, r, t, b); } else { SameDb(db, tr, r); }
    case StatusEvent(_, _, _, _) => SameDb(db, tr, r);
    case ReapEvent(_) => ReapKeepsInv(db, tr, r);
  }

  lemma QrKeepsInv(db: Db, tr: seq<Record>, r: Record, t: string, b: string)
    requires Inv(db, tr) && r.event.QrEvent? && r.event.t == t && r.event.b == b
    requires Admissible(db, Minted(tr), r.now, r.event) && r.answer == Step(db, r.now, r.event).1
    requires forall n | n in Minted(tr) :: Minted(tr)[n].at <= r.now
    ensures Inv(Step(db, r.now, r.event).0, tr + [r])
  {
    Extended(tr, r);
    if (t, b) in db.bridges {
      TouchKeepsInv(db, Step(db, r.now, r.event).0, tr, r, t, b);
    } else {
      SameDb(db, tr, r);
    }
  }

  lemma ReapKeepsInv(db: Db, tr: seq<Record>, r: Record)
    requires Inv(db, tr) && r.event.ReapEvent? && MintOf(r).None?
    requires forall n | n in Minted(tr) :: Minted(tr)[n].at <= r.now
    ensures Inv(Step(db, r.now, r.event).0, tr + [r])
  {
    Extended(tr, r);
    var db' := Step(db, r.now, r.event).0;
    ReapOnlyRemoves(db, r.now, r.event);
    forall k | HasStash(db', k) ensures StashOk(db', tr + [r], k) {
      assert StashOk(db, tr, k);
    }
  }

  lemma ReapOnlyRemoves(db: Db, now: int, e: Event)
    requires e.ReapEvent?
    ensures Step(db, now, e).0.bridges == db.bridges
    ensures forall k | HasStash(Step(db, now, e).0, k) :: HasStash(db, k) && Step(db, now, e).0.config[k] == db.config[k]
  {
  }

  lemma NoStashUnregistered(db: Db, tr: seq<Record>, t: string, b: string)
    requires Inv(db, tr) && (t, b) !in db.bridges && PlainId(t)
    ensures !HasStash(db, StashKey(t, b))
  {
    if HasStash(db, StashKey(t, b)) {
      assert StashOk(db, tr, StashKey(t, b));
      var m := Minted(tr)[StashAt(db, StashKey(t, b)).nonce];
      KeysInjective(t, b, m.t, m.b);
    }
  }

  lemma SameDb(db: Db, tr: seq<Record>, r: Record)
    requires Inv(db, tr) && MintOf(r).None?
    requires forall n | n in Minted(tr) :: Minted(tr)[n].at <= r.now
    ensures Inv(db, tr + [r])
  {
    Extended(tr, r);
    forall k | HasStash(db, k) ensures StashOk(db, tr + [r], k) {
      assert StashOk(db, tr, k);
    }
  }

  lemma {:induction false} RunInv(start: Db, tr: seq<Record>)
    requires IsRun(start, tr)
    ensures Inv(Final(start, tr), tr)
  {
    if tr != [] {
      var rest, r := tr[..|tr| - 1], tr[|tr| - 1];
      assert rest + [r] == tr;
      RunInv(start, rest);
      StepKeepsInv(Final(start, rest), rest, r);
    }
  }

  lemma StepKeepsInv(db: Db, tr: seq<Record>, r: Record)
    requires Inv(db, tr)
    requires Admissible(db, Minted(tr), r.now, r.event) && r.answer == Step(db, r.now, r.event).1
    requires tr != [] ==> tr[|tr| - 1].now <= r.now
    ensures Inv(Step(db, r.now, r.event).0, tr + [r])
  {
    var db' := Step(db, r.now, r.event).0;
    match r.event
    case ClaimEvent(_, _, _, _, _, _) =>
      ClaimEffect(db, tr, r);
      ClaimKeepsInv(db, db', tr, r);
    case DirectEvent(_, _, _, _) =>
      DirectEffect(db, r);
      DirectKeepsInv(db, db', tr, r);
    case _ => OtherKeepsInv(db, tr, r);
  }

  lemma DirectKeepsInv(db: Db, db': Db, tr: seq<Record>, r: Record)
    requires r.event.DirectEvent? && Inv(db, tr) && DirectPost(db, db', r) && Admissible(db, Minted(tr), r.now, r.event)
    requires forall n | n in Minted(tr) :: Minted(tr)[n].at <= r.now
    ensures Inv(db', tr + [r])
  {
    var t, b := r.event.t, r.event.b;
    Extended(tr, r);
    if (t, b) in db.bridges && r.event.draw.Some? {
      TouchKeepsInv(db, db', tr, r, t, b);
    } else {
      SameDb(db, tr, r);
    }
  }

  // ---------- what a claim finds ----------

  /** However the store orders its keys, and whatever other tenants use the same bridge
      id, a claim finds exactly the stash of the tenant that minted the nonce. */
  lemma ClaimFinds(start: Db, tr: seq<Record>, keys: seq<string>, id: string, nonce: string)
    requires IsRun(start, tr)
    requires SeesAll(Final(start, tr), keys)
    ensures FindStash(Final(start, tr), keys, id, nonce)
         == if nonce in Minted(tr) && Minted(tr)[nonce].b == id && Holding(Final(start, tr), Minted(tr)[nonce])
            then Some(StashKey(Minted(tr)[nonce].t, id)) else None
  {
    RunInv(start, tr);
    MintsKeepTheirNonce(tr);
    var db := Final(start, tr);
    var found := FindStash(db, keys, id, nonce);
    if found.Some? {
      Found(db, tr, found.value, id, nonce, "");
    } else if nonce in Minted(tr) && Minted(tr)[nonce].b == id {
      var key := StashKey(Minted(tr)[nonce].t, id);
      KeyTail(Minted(tr)[nonce].t, id);
      if HasStash(db, key) {
        assert StashOk(db, tr, key);
        assert !Matches(db, key, id, nonce);
      }
    }
  }

  lemma {:induction false} MintsKeepTheirNonce(tr: seq<Record>)
    ensures forall n | n in Minted(tr) :: Minted(tr)[n].draw.nonce == n
  {
    if tr != [] {
      MintsKeepTheirNonce(tr[..|tr| - 1]);
    }
  }

  lemma {:induction false} Prefix(start: Db, tr: seq<Record>, i: nat)
    requires IsRun(start, tr) && i <= |tr|
    ensures IsRun(start, tr[..i])
    ensures forall n | n in Minted(tr[..i]) :: n in Minted(tr) && Minted(tr)[n] == Minted(tr[..i])[n]
  {
    if i == |tr| {
      assert tr[..i] == tr;
    } else {
      var rest := tr[..|tr| - 1];
      assert rest[..i] == tr[..i];
      Prefix(start, rest, i);
    }
  }

  /** A minted nonce that has no stash never gets one back. */
  lemma {:induction false} GoneForever(start: Db, tr: seq<Record>, i: nat, nonce: string)
    requires IsRun(start, tr) && i <= |tr|
    requires nonce in Minted(tr[..i]) && NoStash(Final(start, tr[..i]), nonce)
    ensures NoStash(Final(start, tr), nonce) && nonce in Minted(tr)
  {
    if i == |tr| {
      assert tr[..i] == tr;
    } else {
      var rest, r := tr[..|tr| - 1], tr[|tr| - 1];
      assert rest[..i] == tr[..i];
      GoneForever(start, rest, i, nonce);
      RunInv(start, rest);
      StepAddsNoOldStash(Final(start, rest), rest, r, nonce);
    }
  }

  lemma StepAddsNoOldStash(db: Db, tr: seq<Record>, r: Record, nonce: string)
    requires Inv(db, tr) && Admissible(db, Minted(tr), r.now, r.event) && r.answer == Step(db, r.now, r.event).1
    requires tr != [] ==> tr[|tr| - 1].now <= r.now
    requires nonce in Minted(tr) && NoStash(db, nonce)
    ensures NoStash(Step(db, r.now, r.event).0, nonce)
  {
    var db' := Step(db, r.now, r.event).0;
    match r.event
    case ClaimEvent(_, _, _, _, _, _) =>
      ClaimEffect(db, tr, r);
      ClaimAddsNone(db, db', tr, r, nonce);
    case DirectEvent(t, b, _, _) =>
      DirectEffect(db, r);
      if db' != db { TouchAddsNone(db, db', t, b, nonce); }
    case QrEvent(t, b, _, _) => TouchAddsNone(db, db', t, b, nonce);
    case _ => OtherAddsNone(db, r, nonce);
  }

  lemma TouchAddsNone(db: Db, db': Db, t: string, b: string, nonce: string)
    requires NoStash(db, nonce) && OnlyTouches(db, db', t, b)
    requires HasStash(db', StashKey(t, b)) ==> StashAt(db', StashKey(t, b)).nonce != nonce
    ensures NoStash(db', nonce)
  {
    forall k | HasStash(db', k) ensures StashAt(db', k).nonce != nonce {
      if k != StashKey(t, b) {
        assert HasStash(db, k);
      }
    }
  }

  lemma OtherAddsNone(db: Db, r: Record, nonce: string)
    requires r.event.RegisterEvent? || r.event.StatusEvent? || r.event.DeleteEvent? || r.event.ReapEvent?
    requires NoStash(db, nonce)
    ensures NoStash(Step(db, r.now, r.event).0, nonce)
  {
    var db' := Step(db, r.now, r.event).0;
    forall k | HasStash(db', k) ensures StashAt(db', k).nonce != nonce {
      assert HasStash(db, k);
    }
  }

  lemma ClaimAddsNone(db: Db, db': Db, tr: seq<Record>, r: Record, nonce: string)
    requires r.event.ClaimEvent? && ClaimPost(db, db', tr, r) && NoStash(db, nonce)
    ensures NoStash(db', nonce)
  {
    if r.answer != Refusal(r.event) {
      var m := Minted(tr)[r.event.nonce];
      TouchAddsNone(db, db', m.t, m.b, nonce);
    }
  }

  lemma NoStashIsRefused(db: Db, now: int, e: Event)
    requires e.ClaimEvent? && NoStash(db, e.nonce)
    ensures Step(db, now, e).1 == Refusal(e)
  {
  }

  /** Each answer of a run is the step's, from where the run had got to. */
  lemma AnswerAt(start: Db, tr: seq<Record>, j: nat)
    requires IsRun(start, tr) && j < |tr|
    ensures IsRun(start, tr[..j]) && tr[j].answer == Step(Final(start, tr[..j]), tr[j].now, tr[j].event).1
  {
    Prefix(start, tr, j + 1);
    assert tr[..j + 1][..j] == tr[..j];
  }

  /** Every claim of a nonce whose stash is gone is refused, for the rest of the run. */
  lemma RefusedFrom(start: Db, tr: seq<Record>, i: nat, j: nat, nonce: string)
    requires IsRun(start, tr) && i <= j < |tr|
    requires nonce in Minted(tr[..i]) && NoStash(Final(start, tr[..i]), nonce)
    requires tr[j].event.ClaimEvent? && tr[j].event.nonce == nonce
    ensures tr[j].answer == Refusal(tr[j].event)
  {
    AnswerAt(start, tr, j);
    assert tr[..j][..i] == tr[..i];
    GoneForever(start, tr[..j], i, nonce);
    NoStashIsRefused(Final(start, tr[..j]), tr[j].now, tr[j].event);
  }

  // ---------- the promises ----------

  /** Single use: once a nonce's bundle has gone out, every later claim of it is refused. */
  lemma DeliveredOnce(start: Db, tr: seq<Record>, i: nat, j: nat, nonce: string)
    requires IsRun(start, tr) && i < j < |tr|
    requires Delivers(tr[i], nonce)
    requires tr[j].event.ClaimEvent? && tr[j].event.nonce == nonce
    ensures tr[j].answer == Refusal(tr[j].event)
  {
    var rest, r := tr[..i], tr[i];
    assert tr[..i + 1] == rest + [r];
    Prefix(start, tr, i + 1);
    Prefix(start, tr, i);
    RunInv(start, rest);
    RunInv(start, rest + [r]);
    Extended(rest, r);
    MintsKeepTheirNonce(rest + [r]);
    var db := Final(start, rest);
    if r.event.ClaimEvent? {
      ClaimEffect(db, rest, r);
    } else {
      DirectEffect(db, r);
    }
    BlankedIsGone(Final(start, rest + [r]), rest + [r], nonce);
    RefusedFrom(start, tr, i + 1, j, nonce);
  }

  lemma BlankedIsGone(db: Db, tr: seq<Record>, nonce: string)
    requires Inv(db, tr) && nonce in Minted(tr) && !HasStash(db, StashKey(Minted(tr)[nonce].t, Minted(tr)[nonce].b))
    ensures NoStash(db, nonce)
  {
    forall k | HasStash(db, k) ensures StashAt(db, k).nonce != nonce {
      assert StashOk(db, tr, k);
    }
  }

  /** A new QR or direct call invalidates every older code of the same bridge. */
  lemma NewMintInvalidates(start: Db, tr: seq<Record>, i: nat, j: nat, nonce: string)
    requires IsRun(start, tr) && i < j < |tr|
    requires nonce in Minted(tr[..i]) && MintOf(tr[i]).Some?
    requires MintOf(tr[i]).value.t == Minted(tr[..i])[nonce].t && MintOf(tr[i]).value.b == Minted(tr[..i])[nonce].b
    requires tr[j].event.ClaimEvent? && tr[j].event.nonce == nonce
    ensures tr[j].answer == Refusal(tr[j].event)
  {
    var rest, r := tr[..i], tr[i];
    assert tr[..i + 1] == rest + [r];
    Prefix(start, tr, i + 1);
    RunInv(start, rest + [r]);
    Extended(rest, r);
    var db' := Final(start, rest + [r]);
    forall k | HasStash(db', k) ensures StashAt(db', k).nonce != nonce {
      assert StashOk(db', rest + [r], k);
    }
    RefusedFrom(start, tr, i + 1, j, nonce);
  }

  /** Deleting a bridge invalidates every code ever minted for it. */
  lemma DeletedIsRefused(start: Db, tr: seq<Record>, i: nat, j: nat, nonce: string)
    requires IsRun(start, tr) && i < j < |tr|
    requires nonce in Minted(tr[..i])
    requires tr[i].event == DeleteEvent(Minted(tr[..i])[nonce].t, Minted(tr[..i])[nonce].b) && tr[i].answer.Done?
    requires tr[j].event.ClaimEvent? && tr[j].event.nonce == nonce
    ensures tr[j].answer == Refusal(tr[j].event)
  {
    var rest, r := tr[..i], tr[i];
    AnswerAt(start, tr, i);
    Prefix(start, tr, i + 1);
    RunInv(start, tr[..i + 1]);
    assert tr[..i + 1] == rest + [r];
    Extended(rest, r);
    assert Final(start, tr[..i + 1]) == Step(Final(start, rest), r.now, r.event).0;
    DeleteBlanks(Final(start, rest), r.now, r.event);
    BlankedIsGone(Final(start, tr[..i + 1]), tr[..i + 1], nonce);
    RefusedFrom(start, tr, i + 1, j, nonce);
  }

  lemma DeleteBlanks(db: Db, now: int, e: Event)
    requires e.DeleteEvent? && Step(db, now, e).1.Done?
    ensures !HasStash(Step(db, now, e).0, StashKey(e.t, e.b))
  {
  }

  /** Whatever a claim answers other than a plain refusal, it is about the latest code of
      the bridge it names; a bundle leaves, or is held, only within the TTL; and when one
      leaves, it is the minter's own bundle and the bridge row carries its hash and
      certificate, whatever install writes failed on the way. */
  lemma ClaimAnswers(start: Db, tr: seq<Record>)
    requires IsRun(start, tr) && tr != [] && tr[|tr| - 1].event.ClaimEvent?
    ensures var r, rest, db := tr[|tr| - 1], tr[..|tr| - 1], Final(start, tr);
      r.answer != Refusal(r.event) ==>
        && r.event.nonce in Minted(rest)
        && var m := Minted(rest)[r.event.nonce];
        && m.b == r.event.id
        && Latest(rest, m.t, m.b) == Some(r.event.nonce)
        && (r.answer.Gone? <==> r.now - m.at > 30 * MINUTE)
        && (r.answer.Issued? ==>
              && r.answer.bundle.bridgeID == m.b && r.answer.bundle.tenantID == m.t && r.answer.bundle.username == m.b
              && r.answer.bundle.password == m.draw.password && r.answer.bundle.certPEM == m.draw.certPEM
              && r.answer.bundle.keyPEM == m.draw.keyPEM && r.answer.bundle.certExpires == m.draw.certExpires)
        && (r.answer.Issued? || r.answer.Held? ==>
              && (m.t, m.b) in db.bridges
              && db.bridges[(m.t, m.b)] == BridgeRow(m.b, m.draw.passwordHash, m.draw.certPEM, m.draw.certExpires))
        && (r.answer.Issued? ==> !Holding(db, m))
        && (r.answer.Held? ==> Holding(db, m))
  {
    var rest, r := tr[..|tr| - 1], tr[|tr| - 1];
    RunInv(start, rest);
    ClaimEffect(Final(start, rest), rest, r);
    if r.answer != Refusal(r.event) {
      var m := Minted(rest)[r.event.nonce];
      assert StashOk(Final(start, rest), rest, StashKey(m.t, m.b));
    }
  }

  /** A direct call that answers 200 hands out the bundle it drew, the bridge row carries
      it, and nothing is left to claim. */
  lemma DirectAnswers(start: Db, tr: seq<Record>)
    requires IsRun(start, tr) && tr != [] && tr[|tr| - 1].event.DirectEvent? && tr[|tr| - 1].answer.Issued?
    ensures var e, bundle, db := tr[|tr| - 1].event, tr[|tr| - 1].answer.bundle, Final(start, tr);
      && e.draw.Some? && (e.t, e.b) in db.bridges
      && var d := e.draw.value;
      && bundle.bridgeID == e.b && bundle.tenantID == e.t && bundle.username == e.b && bundle.password == d.password
      && bundle.certPEM == d.certPEM && bundle.keyPEM == d.keyPEM && bundle.certExpires == d.certExpires
      && db.bridges[(e.t, e.b)] == BridgeRow(e.b, d.passwordHash, d.certPEM, d.certExpires)
      && !HasStash(db, StashKey(e.t, e.b))
  {
    DirectEffect(Final(start, tr[..|tr| - 1]), tr[|tr| - 1]);
  }

  /** At most one nonce per bridge is claimable at any reachable state. */
  lemma OneClaimable(start: Db, tr: seq<Record>, t: string, b: string, n: string, n': string)
    requires IsRun(start, tr)
    requires n in Minted(tr) && n' in Minted(tr)
    requires Minted(tr)[n].t == Minted(tr)[n'].t == t && Minted(tr)[n].b == Minted(tr)[n'].b == b
    requires Holding(Final(start, tr), Minted(tr)[n]) && Holding(Final(start, tr), Minted(tr)[n'])
    ensures n == n' && Latest(tr, t, b) == Some(n)
  {
    RunInv(start, tr);
    MintsKeepTheirNonce(tr);
    assert StashOk(Final(start, tr), tr, StashKey(t, b));
  }

  function RowAt(db: Db, t: string, b: string): Option<BridgeRow> {
    if (t, b) in db.bridges then Some(db.bridges[(t, b)]) else None
  }

  lemma ClaimRow(start: Db, tr: seq<Record>, r: Record, db: Db, db': Db, t: string, b: string)
    requires r.event.ClaimEvent? && ClaimPost(db, db', tr, r)
    requires ExpectedRow(start, tr, t, b) == RowAt(db, t, b)
    ensures ExpectedRow(start, tr + [r], t, b) == RowAt(db', t, b)
  {
    Extended(tr, r);
  }

  lemma DirectRow(start: Db, tr: seq<Record>, r: Record, db: Db, db': Db, t: string, b: string)
    requires r.event.DirectEvent? && DirectPost(db, db', r)
    requires ExpectedRow(start, tr, t, b) == RowAt(db, t, b)
    ensures ExpectedRow(start, tr + [r], t, b) == RowAt(db', t, b)
  {
    Extended(tr, r);
  }

  /** The bridge row is always the one the answers imply: a QR nobody scans changes nothing,
      and however often a held claim is retried the row carries the bundle last taken up,
      unless a later install failed half way. */
  lemma {:induction false} RowIsExpected(start: Db, tr: seq<Record>, t: string, b: string)
    requires IsRun(start, tr)
    ensures ExpectedRow(start, tr, t, b) == RowAt(Final(start, tr), t, b)
  {
    if tr != [] {
      var rest, r := tr[..|tr| - 1], tr[|tr| - 1];
      RowIsExpected(start, rest, t, b);
      assert rest + [r] == tr;
      var db, db' := Final(start, rest), Final(start, tr);
      RunInv(start, rest);
      match r.event
      case ClaimEvent(_, _, _, _, _, _) =>
        ClaimEffect(db, rest, r);
        ClaimRow(start, rest, r, db, db', t, b);
      case DirectEvent(_, _, _, _) =>
        DirectEffect(db, r);
        DirectRow(start, rest, r, db, db', t, b);
      case _ =>
    }
  }

  /** A report beside the answer to a claim of the same stash at the same moment: pending
      names the members and acceptances a held claim is told. */
  predicate StatusFits(status: Answer, claim: Answer, installed: bool) {
    && status.Report?
    && (status.state == Expired <==> claim == Gone)
    && (status.state == Live ==> claim.Issued?)
    && (status.state == Pending ==> claim == Held(status.accepted, status.members) && status.checked)
    && (status.state == Ready <==> claim != Gone && !installed)
    && (status.state == Ready ==> claim.Issued? || claim.Held?)
  }

  /** Status agrees with what claiming the bridge's latest code would answer at the same
      clock and prober result; Ready is exactly "not installed yet", and then the claim
      installs it; Absent means no code of the bridge is claimable. */
  lemma StatusAgreesWithClaim(start: Db, tr: seq<Record>, t: string, b: string,
                              keys: seq<string>, owner: string, probe: Probe, now: int, nonce: string)
    requires IsRun(start, tr) && (t, b) in Final(start, tr).bridges
    requires SeesAll(Final(start, tr), keys)
    requires nonce in Minted(tr) && Minted(tr)[nonce].t == t && Minted(tr)[nonce].b == b
    ensures var db := Final(start, tr);
      var claim := Claim(db, keys, b, nonce, owner, probe, NoFault, now).1;
      var status := Status(db, t, b, probe, Readable, now);
      && (!Holding(db, Minted(tr)[nonce]) ==> claim == NotFound)
      && (Holding(db, Minted(tr)[nonce]) ==>
            && Latest(tr, t, b) == Some(nonce)
            && StatusFits(status, claim, StashAt(db, StashKey(t, b)).installed))
      && status.Report? && (status.state == Absent ==> claim == NotFound)
  {
    ClaimFinds(start, tr, keys, b, nonce);
    RunInv(start, tr);
    MintsKeepTheirNonce(tr);
    var db := Final(start, tr);
    if Holding(db, Minted(tr)[nonce]) {
      assert StashOk(db, tr, StashKey(t, b));
      StatusOfStash(db, t, b, keys, owner, probe, now, nonce);
    }
  }

  /** Both read the same stash: its age, whether it is installed, and the prober. */
  lemma StatusOfStash(db: Db, t: string, b: string, keys: seq<string>, owner: string, probe: Probe, now: int, nonce: string)
    requires (t, b) in db.bridges && HasStash(db, StashKey(t, b)) && StashAt(db, StashKey(t, b)).passwordHash != ""
    requires FindStash(db, keys, b, nonce) == Some(StashKey(t, b))
    ensures var claim := Claim(db, keys, b, nonce, owner, probe, NoFault, now).1;
      var status := Status(db, t, b, probe, Readable, now);
      && StatusFits(status, claim, StashAt(db, StashKey(t, b)).installed)
      && status.state != Absent
  {
  }

  /** A claim of the nonce went through all its writes and was held. */
  predicate HoldsUp(r: Record, nonce: string) {
    r.event.ClaimEvent? && r.event.nonce == nonce && r.event.fault.NoFault? && r.answer.Held?
  }

  predicate HeldBefore(tr: seq<Record>, nonce: string) {
    exists i | 0 <= i < |tr| :: HoldsUp(tr[i], nonce)
  }

  lemma {:induction false} HeldWereMinted(start: Db, tr: seq<Record>, nonce: string)
    requires IsRun(start, tr) && HeldBefore(tr, nonce)
    ensures nonce in Minted(tr)
  {
    var i :| 0 <= i < |tr| && HoldsUp(tr[i], nonce);
    Prefix(start, tr, i + 1);
    assert tr[..i + 1][..i] == tr[..i];
    ClaimAnswers(start, tr[..i + 1]);
    Prefix(start, tr, i);
  }

  /** "Installed", which the status page reports as anything but Ready, means exactly that
      somebody has scanned the code, all writes went through, and they were held. */
  lemma {:induction false} InstalledIffHeld(start: Db, tr: seq<Record>, key: string)
    requires IsRun(start, tr) && HasStash(Final(start, tr), key)
    ensures StashAt(Final(start, tr), key).installed <==> HeldBefore(tr, StashAt(Final(start, tr), key).nonce)
  {
    var rest, r := tr[..|tr| - 1], tr[|tr| - 1];
    var db, db' := Final(start, rest), Final(start, tr);
    var n := StashAt(db', key).nonce;
    assert rest + [r] == tr;
    assert HeldBefore(tr, n) <==> HeldBefore(rest, n) || HoldsUp(r, n);
    RunInv(start, rest);
    StashOrigin(db, rest, r, key);
    if HasStash(db, key) && StashAt(db, key).nonce == n {
      InstalledIffHeld(start, rest, key);
    } else if HeldBefore(rest, n) {
      HeldWereMinted(start, rest, n);
    }
  }

  /** A stash found after a step was there before it, and only a held claim of its nonce
      may have marked it installed; or the step made it. */
  ghost predicate Origin(db: Db, db': Db, r: Record, key: string)
    requires HasStash(db', key)
  {
    var s := StashAt(db', key);
    || (HasStash(db, key) && StashAt(db, key).nonce == s.nonce
        && (s.installed <==> StashAt(db, key).installed || HoldsUp(r, s.nonce)))
    || ((r.event.QrEvent? || r.event.DirectEvent?) && r.event.draw.Some? && s.nonce == r.event.draw.value.nonce && !s.installed)
  }

  lemma StashOrigin(db: Db, tr: seq<Record>, r: Record, key: string)
    requires Inv(db, tr) && Admissible(db, Minted(tr), r.now, r.event) && r.answer == Step(db, r.now, r.event).1
    requires tr != [] ==> tr[|tr| - 1].now <= r.now
    requires HasStash(Step(db, r.now, r.event).0, key)
    ensures Origin(db, Step(db, r.now, r.event).0, r, key)
  {
    if r.event.ClaimEvent? {
      ClaimEffect(db, tr, r);
      ClaimOrigin(db, Step(db, r.now, r.event).0, tr, r, key);
    } else if r.event.DirectEvent? {
      DirectEffect(db, r);
      DirectOrigin(db, Step(db, r.now, r.event).0, r, key);
    } else {
      OtherOrigin(db, r, key);
    }
  }

  lemma DirectOrigin(db: Db, db': Db, r: Record, key: string)
    requires r.event.DirectEvent? && DirectPost(db, db', r) && HasStash(db', key)
    ensures Origin(db, db', r, key)
  {
  }

  lemma OtherOrigin(db: Db, r: Record, key: string)
    requires !r.event.ClaimEvent? && !r.event.DirectEvent? && HasStash(Step(db, r.now, r.event).0, key)
    ensures Origin(db, Step(db, r.now, r.event).0, r, key)
  {
  }

  lemma ClaimOrigin(db: Db, db': Db, tr: seq<Record>, r: Record, key: string)
    requires Inv(db, tr) && r.event.ClaimEvent?
    requires ClaimPost(db, db', tr, r) && HasStash(db', key)
    ensures Origin(db, db', r, key)
  {
    MintsKeepTheirNonce(tr);
    if HasStash(db, key) {
      assert StashOk(db, tr, key);
    }
  }

  /** Nothing that is done to one bridge changes what a claim of another bridge's code
      answers, even when two tenants use the same bridge id. */
  lemma OtherTenantsUnaffected(start: Db, tr: seq<Record>, nonce: string, keys: seq<string>, keys': seq<string>,
                               owner: string, probe: Probe, fault: Fault, now: int)
    requires IsRun(start, tr) && tr != []
    requires var r, rest := tr[|tr| - 1], tr[..|tr| - 1];
      && nonce in Minted(rest)
      && (r.event.QrEvent? || r.event.DirectEvent? || r.event.DeleteEvent?)
      && (r.event.t, r.event.b) != (Minted(rest)[nonce].t, Minted(rest)[nonce].b)
    requires var rest := tr[..|tr| - 1];
      SeesAll(Final(start, rest), keys) && SeesAll(Final(start, tr), keys')
    ensures var rest := tr[..|tr| - 1];
      Claim(Final(start, rest), keys, Minted(rest)[nonce].b, nonce, owner, probe, fault, now).1
      == Claim(Final(start, tr), keys', Minted(rest)[nonce].b, nonce, owner, probe, fault, now).1
  {
    var rest, r := tr[..|tr| - 1], tr[|tr| - 1];
    var db, db' := Final(start, rest), Final(start, tr);
    var m := Minted(rest)[nonce];
    Prefix(start, tr, |tr| - 1);
    ClaimFinds(start, rest, keys, m.b, nonce);
    ClaimFinds(start, tr, keys', m.b, nonce);
    RunInv(start, rest);
    MintsPlain(start, rest);
    OtherKeyKept(db, rest, r, m);
    SameAnswer(db, db', keys, keys', m.b, nonce, owner, probe, fault, now);
  }

  /** A claim's answer depends on the stash it finds and on nothing else in the store. */
  lemma SameAnswer(db: Db, db': Db, keys: seq<string>, keys': seq<string>, id: string, nonce: string,
                   owner: string, probe: Probe, fault: Fault, now: int)
    requires FindStash(db, keys, id, nonce) == FindStash(db', keys', id, nonce)
    requires var f := FindStash(db, keys, id, nonce);
      f.Some? ==> HasStash(db, f.value) && HasStash(db', f.value) && StashAt(db, f.value) == StashAt(db', f.value)
    ensures Claim(db, keys, id, nonce, owner, probe, fault, now).1 == Claim(db', keys', id, nonce, owner, probe, fault, now).1
  {
  }

  lemma OtherKeyKept(db: Db, tr: seq<Record>, r: Record, m: Mint)
    requires Inv(db, tr) && PlainId(m.t) && Admissible(db, Minted(tr), r.now, r.event) && r.answer == Step(db, r.now, r.event).1
    requires r.event.QrEvent? || r.event.DirectEvent? || r.event.DeleteEvent?
    requires (r.event.t, r.event.b) != (m.t, m.b)
    ensures var db', key := Step(db, r.now, r.event).0, StashKey(m.t, m.b);
      && (key in db.config <==> key in db'.config)
      && (key in db.config ==> db.config[key] == db'.config[key])
  {
    var e := r.event;
    if (e.t, e.b) in db.bridges && StashKey(e.t, e.b) == StashKey(m.t, m.b) {
      KeysInjective(e.t, e.b, m.t, m.b);
    }
    if e.DirectEvent? {
      DirectEffect(db, r);
    }
  }

  lemma {:induction false} MintsPlain(start: Db, tr: seq<Record>)
    requires IsRun(start, tr)
    ensures forall n | n in Minted(tr) :: PlainId(Minted(tr)[n].t) && PlainId(Minted(tr)[n].b)
  {
    if tr != [] {
      MintsPlain(start, tr[..|tr| - 1]);
      RunInv(start, tr[..|tr| - 1]);
    }
  }

  /** The reaper never takes a stash that could still be claimed. */
  lemma ReaperSparesClaimable(start: Db, tr: seq<Record>, key: string, now: int)
    requires IsRun(start, tr) && HasStash(Final(start, tr), key)
    requires Reapable(Final(start, tr), key, now)
    ensures now - StashAt(Final(start, tr), key).createdAt > 40 * MINUTE
  {
    RunInv(start, tr);
    assert StashOk(Final(start, tr), tr, key);
  }

  // ---------- a row written half way ----------

  /** It does happen: a bridge is registered and shown a QR, and the claim's certificate
      write fails. The row then has the new user and password and no certificate, and the
      answer is a failure. */
  lemma HalfWritten(t: string, b: string, d: Draw, keys: seq<string>, owner: string, probe: Probe) returns (tr: seq<Record>)
    requires PlainId(t) && PlainId(b) && d.passwordHash != "" && StashKey(t, b) in keys
    ensures IsRun(Db(map[], map[]), tr) && tr != [] && tr[|tr| - 1].answer == Failed
    ensures RowAt(Final(Db(map[], map[]), tr), t, b) == Some(NEW_ROW.(username := b, passwordHash := d.passwordHash))
  {
    var shown := QrShown(t, b, d);
    var db := Final(Db(map[], map[]), shown);
    var r := Record(0, ClaimEvent(keys, b, d.nonce, owner, probe, CertificateFail), Failed);
    FirstClaimFails(db, t, b, d, keys, owner, probe);
    AddRecord(Db(map[], map[]), shown, r);
    tr := shown + [r];
  }

  lemma QrShown(t: string, b: string, d: Draw) returns (tr: seq<Record>)
    requires PlainId(t) && PlainId(b) && d.passwordHash != ""
    ensures IsRun(Db(map[], map[]), tr) && tr != [] && tr[|tr| - 1].now == 0
    ensures Final(Db(map[], map[]), tr)
         == Db(map[StashKey(t, b) := ConfigRow(Some(StashOf(t, b, d, 0)), 0)], map[(t, b) := NEW_ROW])
  {
    var r0, r1 := Record(0, RegisterEvent(t, b), Done), Record(0, QrEvent(t, b, Some(d), true), Code(d.nonce));
    AddRecord(Db(map[], map[]), [], r0);
    assert Final(Db(map[], map[]), [] + [r0]) == Db(map[], map[(t, b) := NEW_ROW]);
    AddRecord(Db(map[], map[]), [] + [r0], r1);
    tr := [] + [r0] + [r1];
  }

  lemma AddRecord(start: Db, tr: seq<Record>, r: Record)
    requires IsRun(start, tr) && (tr != [] ==> tr[|tr| - 1].now <= r.now)
    requires Admissible(Final(start, tr), Minted(tr), r.now, r.event) && r.answer == Step(Final(start, tr), r.now, r.event).1
    ensures IsRun(start, tr + [r]) && Final(start, tr + [r]) == Step(Final(start, tr), r.now, r.event).0
    ensures Minted(tr + [r]) == (if MintOf(r).Some? then Minted(tr)[MintOf(r).value.draw.nonce := MintOf(r).value] else Minted(tr))
  {
    Extended(tr, r);
  }

  lemma FirstClaimFails(db: Db, t: string, b: string, d: Draw, keys: seq<string>, owner: string, probe: Probe)
    requires PlainId(t) && d.passwordHash != "" && StashKey(t, b) in keys
    requires db == Db(map[StashKey(t, b) := ConfigRow(Some(StashOf(t, b, d, 0)), 0)], map[(t, b) := NEW_ROW])
    ensures var r := Claim(db, keys, b, d.nonce, owner, probe, CertificateFail, 0);
      && r.1 == Failed
      && RowAt(r.0, t, b) == Some(NEW_ROW.(username := b, passwordHash := d.passwordHash))
  {
    KeyTail(t, b);
    TenantRecovered(t, b, owner);
    var found := FindStash(db, keys, b, d.nonce);
    assert Matches(db, StashKey(t, b), b, d.nonce);
    assert found == Some(StashKey(t, b));
  }
}
