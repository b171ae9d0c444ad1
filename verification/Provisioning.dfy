/** Bridge provisioning as functions on the stored rows: what one handler call
    does to `system_config` and `bridges`, and what it answers.

    A call is one step. The prober's answer, the random draws, the clock and the
    outcome of the install writes are parameters. */
module Provisioning {
  import opened Options
  import opened Clock
  import opened Text

  const STASH_PREFIX: string := "provision_stash:"
  const PROVISION_TTL: int := 30 * MINUTE
  /** How long past its TTL the stash reaper leaves a row alone. */
  const REAPER_GRACE: int := 10 * MINUTE

  /** What `generateAndStash` draws: the nonce, the password and the certificate. */
  datatype Draw = Draw(nonce: string, password: string, passwordHash: string,
                       certPEM: string, keyPEM: string, certExpires: int)

  datatype Bundle = Bundle(bridgeID: string, tenantID: string, username: string, password: string,
                           certPEM: string, keyPEM: string, certExpires: int)

  datatype Stash = Stash(nonce: string, bundle: Bundle, createdAt: int, passwordHash: string, installed: bool)

  /** A `system_config` row; `None` is the blank value a claim leaves behind. */
  datatype ConfigRow = ConfigRow(value: Option<Stash>, updatedAt: int)

  /** The columns of a bridge row that provisioning writes. */
  datatype BridgeRow = BridgeRow(username: string, passwordHash: string, certPEM: string, certExpiry: int)

  type BridgeRef = (string, string) // (tenant, bridge id)

  datatype Db = Db(config: map<string, ConfigRow>, bridges: map<BridgeRef, BridgeRow>)

  const NEW_ROW := BridgeRow("", "", "", 0)

  /** What the broker prober says: there is none, it could not run, or each member's answer. */
  datatype Probe = NoProber | ProbeFailed | Members(accepted: seq<bool>)

  /** Which store operation fails, if any: the read of the stash (listing the keys of a
      claim, or reading it back in a direct call and parsing it), or one of the install
      writes. */
  datatype Fault = NoFault | ReadFail | CredentialsFail | CertificateFail | RecordFail

  /** How the read of a stash row for the status page turns out. */
  datatype Read = Readable | Unreadable | Corrupt

  datatype State = Ready | Pending | Live | Absent | Expired

  datatype Answer =
    | NotFound                             // 404
    | Gone                                 // 410
    | Failed                               // 500
    | Unavailable                          // 500, the stash could not be read
    | Held(accepted: nat, members: nat)    // 503
    | Issued(bundle: Bundle)               // 200 with the bundle
    | Code(nonce: string)                  // 200 with the QR
    | Report(state: State, ageSec: int, checked: bool, accepted: nat, members: nat) // 200 with the status
    | Done                                 // 201, 204, or no reply at all

  // ---------- keys ----------

  function StashKey(t: string, b: string): string {
    STASH_PREFIX + t + ":" + b
  }

  /** The tenant read back from a stash key; `owner` stands in when the key carries none. */
  function StashTenant(key: string, owner: string): string {
    var rest := if HasPrefix(key, STASH_PREFIX) then key[|STASH_PREFIX|..] else key;
    var i := IndexOf(rest, ':');
    if i > 0 then rest[..i] else owner
  }

  /** An id that neither is empty nor holds the separator. */
  predicate PlainId(s: string) {
    s != "" && ':' !in s
  }

  // ---------- store operations ----------

  function SetConfig(db: Db, key: string, value: Option<Stash>, now: int): Db {
    db.(config := db.config[key := ConfigRow(value, now)])
  }

  /** An SQL update: a missing row is left missing, and that is not an error. */
  function SetCredentials(db: Db, t: string, b: string, username: string, hash: string): Db {
    if (t, b) in db.bridges
    then db.(bridges := db.bridges[(t, b) := db.bridges[(t, b)].(username := username, passwordHash := hash)])
    else db
  }

  function SetCertificate(db: Db, t: string, b: string, certPEM: string, expiry: int): Db {
    if (t, b) in db.bridges
    then db.(bridges := db.bridges[(t, b) := db.bridges[(t, b)].(certPEM := certPEM, certExpiry := expiry)])
    else db
  }

  predicate HasStash(db: Db, key: string) {
    key in db.config && db.config[key].value.Some?
  }

  function StashAt(db: Db, key: string): Stash
    requires HasStash(db, key)
  {
    db.config[key].value.value
  }

  // ---------- the handlers ----------

  function BundleOf(t: string, b: string, d: Draw): Bundle {
    Bundle(b, t, b, d.password, d.certPEM, d.keyPEM, d.certExpires)
  }

  function StashOf(t: string, b: string, d: Draw, now: int): Stash {
    Stash(d.nonce, BundleOf(t, b, d), now, d.passwordHash, false)
  }

  datatype InstallResult = InstallResult(db: Db, stash: Stash, ok: bool)

  function Install(db: Db, key: string, t: string, b: string, stash: Stash, fault: Fault, now: int): InstallResult {
    if stash.installed || stash.passwordHash == "" then InstallResult(db, stash, true)
    else if fault.CredentialsFail? then InstallResult(db, stash, false)
    else
      var db1 := SetCredentials(db, t, b, stash.bundle.username, stash.passwordHash);
      if fault.CertificateFail? then InstallResult(db1, stash, false)
      else
        var db2 := SetCertificate(db1, t, b, stash.bundle.certPEM, stash.bundle.certExpires);
        var done := stash.(installed := true);
        InstallResult(if fault.RecordFail? then db2 else SetConfig(db2, key, Some(done), now), done, true)
  }

  /** Whether a claim for (id, nonce) takes the stash under `key`. */
  predicate Matches(db: Db, key: string, id: string, nonce: string) {
    && (HasSuffix(key, ":" + id) || key == STASH_PREFIX + id)
    && HasStash(db, key)
    && (StashAt(db, key).bundle.bridgeID == id || StashAt(db, key).bundle.bridgeID == "")
    && StashAt(db, key).nonce == nonce
  }

  /** The first match in the order the store lists the keys. */
  function FindStash(db: Db, keys: seq<string>, id: string, nonce: string): (found: Option<string>)
    ensures found.Some? ==> found.value in keys && Matches(db, found.value, id, nonce)
    ensures found.None? ==> forall k | k in keys :: !Matches(db, k, id, nonce)
  {
    if keys == [] then None
    else if Matches(db, keys[0], id, nonce) then Some(keys[0])
    else FindStash(db, keys[1..], id, nonce)
  }

  function CountAccepted(accepted: seq<bool>): (n: nat)
    ensures n <= |accepted|
    ensures n == |accepted| <==> forall i | 0 <= i < |accepted| :: accepted[i]
  {
    if accepted == [] then 0
    else
      var last := |accepted| - 1;
      CountAccepted(accepted[..last]) + if accepted[last] then 1 else 0
  }

  /** A bundle is held only on an actual refusal from a member. */
  predicate Refused(probe: Probe) {
    probe.Members? && exists i | 0 <= i < |probe.accepted| :: !probe.accepted[i]
  }

  function Claim(db: Db, keys: seq<string>, id: string, nonce: string, owner: string,
                 probe: Probe, fault: Fault, now: int): (Db, Answer) {
    var found := FindStash(db, keys, id, nonce);
    if fault.ReadFail? then (db, Unavailable)
    else if found.None? then (db, NotFound)
    else
      var key, stash := found.value, StashAt(db, found.value);
      if now - stash.createdAt > PROVISION_TTL then (SetConfig(db, key, None, now), Gone)
      else
        var r := Install(db, key, StashTenant(key, owner), id, stash, fault, now);
        if !r.ok then (r.db, Failed)
        else if Refused(probe) then (r.db, Held(CountAccepted(probe.accepted), |probe.accepted|))
        else (SetConfig(r.db, key, None, now), Issued(r.stash.bundle))
  }

  /** The stash is stored before the QR is drawn, which may fail. */
  function Qr(db: Db, t: string, b: string, draw: Option<Draw>, encoded: bool, now: int): (Db, Answer) {
    if (t, b) !in db.bridges then (db, NotFound)
    else if draw.None? then (db, Failed)
    else
      (SetConfig(db, StashKey(t, b), Some(StashOf(t, b, draw.value, now)), now),
       if encoded then Code(draw.value.nonce) else Failed)
  }

  function Direct(db: Db, t: string, b: string, draw: Option<Draw>, fault: Fault, now: int): (Db, Answer) {
    if (t, b) !in db.bridges then (db, NotFound)
    else if draw.None? then (db, Failed)
    else
      var key, stash := StashKey(t, b), StashOf(t, b, draw.value, now);
      var stashed := SetConfig(db, key, Some(stash), now);
      if fault.ReadFail? then (stashed, Unavailable)
      else
        var r := Install(stashed, key, t, b, stash, fault, now);
        (SetConfig(r.db, key, None, now), if r.ok then Issued(r.stash.bundle) else Failed)
  }

  /** A row that cannot be read counts as none, one that does not parse is an error. */
  function Status(db: Db, t: string, b: string, probe: Probe, read: Read, now: int): Answer {
    if (t, b) !in db.bridges then NotFound
    else if read.Unreadable? || !HasStash(db, StashKey(t, b)) then Report(Absent, 0, false, 0, 0)
    else if read.Corrupt? then Unavailable
    else
      var stash := StashAt(db, StashKey(t, b));
      var age := (now - stash.createdAt) / SECOND;
      if now - stash.createdAt > PROVISION_TTL then Report(Expired, age, false, 0, 0)
      else if !stash.installed && stash.passwordHash != "" then Report(Ready, age, false, 0, 0)
      else if probe.Members? && |probe.accepted| > 0 then
        Report(if Refused(probe) then Pending else Live, age, true, CountAccepted(probe.accepted), |probe.accepted|)
      else Report(Live, age, false, 0, 0)
  }

  /** The bridge row goes, and its unclaimed stash with it. */
  function Delete(db: Db, t: string, b: string): (Db, Answer) {
    if (t, b) !in db.bridges then (db, NotFound)
    else (Db(db.config - {StashKey(t, b)}, db.bridges - {(t, b)}), Done)
  }

  /** A bridge row appears, whichever route registers it. */
  function Register(db: Db, t: string, b: string): (Db, Answer) {
    if (t, b) in db.bridges then (db, Failed)
    else (db.(bridges := db.bridges[(t, b) := NEW_ROW]), Done)
  }

  /** The rows a pass of the stash reaper lists. */
  predicate Reapable(db: Db, key: string, now: int) {
    key in db.config && HasPrefix(key, STASH_PREFIX) && db.config[key].updatedAt < now - PROVISION_TTL - REAPER_GRACE
  }

  // ---------- one step of the system ----------

  datatype Event =
    | RegisterEvent(t: string, b: string)
    | QrEvent(t: string, b: string, draw: Option<Draw>, encoded: bool)
    | DirectEvent(t: string, b: string, draw: Option<Draw>, fault: Fault)
    | ClaimEvent(keys: seq<string>, id: string, nonce: string, owner: string, probe: Probe, fault: Fault)
    | StatusEvent(t: string, b: string, probe: Probe, read: Read)
    | DeleteEvent(t: string, b: string)
    | ReapEvent(removed: set<string>)

  function Step(db: Db, now: int, e: Event): (Db, Answer) {
    match e
    case RegisterEvent(t, b) => Register(db, t, b)
    case QrEvent(t, b, draw, encoded) => Qr(db, t, b, draw, encoded, now)
    case DirectEvent(t, b, draw, fault) => Direct(db, t, b, draw, fault, now)
    case ClaimEvent(keys, id, nonce, owner, probe, fault) => Claim(db, keys, id, nonce, owner, probe, fault, now)
    case StatusEvent(t, b, probe, read) => (db, Status(db, t, b, probe, read, now))
    case DeleteEvent(t, b) => Delete(db, t, b)
    case ReapEvent(removed) => (db.(config := db.config - removed), Done)
  }

  // ---------- the keys are unambiguous ----------

  lemma KeyTail(t: string, b: string)
    ensures HasPrefix(StashKey(t, b), STASH_PREFIX)
    ensures StashKey(t, b)[|STASH_PREFIX|..] == t + ":" + b
    ensures HasSuffix(StashKey(t, b), ":" + b)
  {
    assert StashKey(t, b) == STASH_PREFIX + (t + ":" + b);
    assert StashKey(t, b) == (STASH_PREFIX + t) + (":" + b);
  }

  /** A stash key gives its tenant back exactly when the tenant id is non-empty and
      colon-free, or is read as missing and the stand-in happens to be that tenant. */
  lemma TenantRecovered(t: string, b: string, owner: string)
    ensures StashTenant(StashKey(t, b), owner) == t <==> PlainId(t) || ((t == "" || t[0] == ':') && owner == t)
  {
    KeyTail(t, b);
    var rest := t + ":" + b;
    if ':' !in t {
      JoinSplits(t, ':', b);
      assert rest[..|t|] == t;
    } else {
      var j := IndexOf(t, ':');
      assert rest == t[..j] + [':'] + rest[j + 1..];
      JoinSplits(t[..j], ':', rest[j + 1..]);
    }
  }

  /** Different (tenant, bridge) pairs never share a stash row. */
  lemma KeysInjective(t: string, b: string, t': string, b': string)
    requires PlainId(t) && PlainId(t')
    requires StashKey(t, b) == StashKey(t', b')
    ensures t == t' && b == b'
  {
    TenantRecovered(t, b, "");
    TenantRecovered(t', b', "");
    KeyTail(t, b);
    KeyTail(t', b');
    assert (t + ":" + b)[|t| + 1..] == b;
    assert (t' + ":" + b')[|t'| + 1..] == b';
  }
}
