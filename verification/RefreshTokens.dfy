/** Refresh tokens: issued at login, exchanged for a successor at every refresh, and
    revoked together when the user logs out. Each request is one step, random tokens are
    never drawn twice, and the store's deletes succeed; an insert may fail, and on a
    refresh that failure is ignored, as the handler does. */
module RefreshTokens {
  import opened Options
  import opened Clock

  const REFRESH_TTL: int := 7 * 24 * HOUR

  /** A stored row; its key is the token's hash, and hashing is taken to be injective. */
  datatype Row = Row(user: string, tenant: string, expires: int)

  type Rows = map<string, Row>

  datatype Request =
    | Login(user: string, tenant: string, token: string, stored: bool)
    | Refresh(presented: string, userOk: bool, token: string, stored: bool)
    | Logout(presented: string, access: Option<(string, string)>) // (user, tenant) of a valid access token

  function OfUser(rows: Rows, user: string, tenant: string): set<string> {
    set h | h in rows && rows[h].user == user && rows[h].tenant == tenant
  }

  /** Whether a refresh is answered with new tokens. */
  predicate Accepts(rows: Rows, now: int, r: Request)
    requires r.Refresh?
  {
    r.presented != "" && r.presented in rows && now <= rows[r.presented].expires && r.userOk
  }

  function LogoutRows(rows: Rows, presented: string, access: Option<(string, string)>): Rows {
    var first :=
      if presented == "" then rows
      else if presented in rows then rows - OfUser(rows, rows[presented].user, rows[presented].tenant)
      else rows - {presented};
    if access.Some? then first - OfUser(first, access.value.0, access.value.1) else first
  }

  /** The stored rows after a request, and whether it was answered with tokens. */
  function Step(rows: Rows, now: int, r: Request): (Rows, bool) {
    match r
    case Login(user, tenant, token, stored) =>
      if stored then (rows[token := Row(user, tenant, now + REFRESH_TTL)], true) else (rows, false)
    case Refresh(presented, _, token, stored) =>
      if presented == "" || presented !in rows then (rows, false)
      else
        var row, rest := rows[presented], rows - {presented};
        if !Accepts(rows, now, r) then (rest, false)
        else (if stored then rest[token := Row(row.user, row.tenant, now + REFRESH_TTL)] else rest, true)
    case Logout(presented, access) => (LogoutRows(rows, presented, access), false)
  }

  // ---------- reading a trace ----------

  datatype Record = Record(now: int, request: Request, ok: bool)

  /** To whom and when a token was handed out, and which login its chain started with. */
  datatype Issue = Issue(user: string, tenant: string, at: int, root: string)

  /** Every token handed out so far, and the last one of each login's chain. */
  datatype Ledger = Ledger(issues: map<string, Issue>, latest: map<string, string>)

  function Enter(l: Ledger, token: string, i: Issue): Ledger {
    Ledger(l.issues[token := i], l.latest[i.root := token])
  }

  function Entered(l: Ledger, r: Record): Ledger {
    match r.request
    case Login(user, tenant, token, _) => if r.ok then Enter(l, token, Issue(user, tenant, r.now, token)) else l
    case Refresh(presented, _, token, _) =>
      if r.ok && presented in l.issues then Enter(l, token, l.issues[presented].(at := r.now)) else l
    case Logout(_, _) => l
  }

  function Ledgered(tr: seq<Record>): Ledger {
    if tr == [] then Ledger(map[], map[]) else Entered(Ledgered(tr[..|tr| - 1]), tr[|tr| - 1])
  }

  function Issued(tr: seq<Record>): map<string, Issue> {
    Ledgered(tr).issues
  }

  /** Whether a request logs this user out, given what is stored. */
  predicate LogsOut(rows: Rows, r: Request, user: string, tenant: string) {
    r.Logout? &&
    ( r.access == Some((user, tenant))
      || (r.presented != "" && r.presented in rows && rows[r.presented].user == user && rows[r.presented].tenant == tenant))
  }

  function Final(tr: seq<Record>): Rows {
    if tr == [] then map[] else Step(Final(tr[..|tr| - 1]), tr[|tr| - 1].now, tr[|tr| - 1].request).0
  }

  predicate IsRun(tr: seq<Record>) {
    tr == [] ||
    (var rest, r := tr[..|tr| - 1], tr[|tr| - 1];
     && IsRun(rest)
     && (rest != [] ==> rest[|rest| - 1].now <= r.now)
     && (r.request.Logout? || (r.request.token != "" && r.request.token !in Issued(rest)))
     && r.ok == Step(Final(rest), r.now, r.request).1)
  }

  // ---------- the invariant ----------

  /** A stored token is the latest of its chain and carries what it was issued with. */
  predicate RowOk(rows: Rows, l: Ledger, h: string)
    requires h in rows
  {
    && h != "" && h in l.issues
    && rows[h] == Row(l.issues[h].user, l.issues[h].tenant, l.issues[h].at + REFRESH_TTL)
    && l.issues[h].root in l.latest && l.latest[l.issues[h].root] == h
  }

  predicate IssueOk(l: Ledger, h: string)
    requires h in l.issues
  {
    var root := l.issues[h].root;
    h != "" && root in l.issues && l.issues[root].user == l.issues[h].user && l.issues[root].tenant == l.issues[h].tenant
  }

  predicate Inv(rows: Rows, l: Ledger) {
    && (forall h {:trigger RowOk(rows, l, h)} | h in rows :: RowOk(rows, l, h))
    && (forall h {:trigger IssueOk(l, h)} | h in l.issues :: IssueOk(l, h))
  }

  lemma ShrinkKeepsInv(rows: Rows, rows': Rows, l: Ledger)
    requires Inv(rows, l) && forall h | h in rows' :: h in rows && rows'[h] == rows[h]
    ensures Inv(rows', l)
  {
    forall h | h in rows' ensures RowOk(rows', l, h) {
      assert RowOk(rows, l, h);
    }
  }

  /** A new token takes over its chain, when the chain has no other stored token. */
  lemma EnterKeepsInv(rows: Rows, l: Ledger, token: string, i: Issue)
    requires Inv(rows, l) && token != "" && token !in l.issues
    requires i.root == token || (i.root in l.issues && l.issues[i.root].user == i.user && l.issues[i.root].tenant == i.tenant)
    requires forall h | h in rows && h in l.issues :: l.issues[h].root != i.root
    ensures Inv(rows, Enter(l, token, i))
    ensures Inv(rows[token := Row(i.user, i.tenant, i.at + REFRESH_TTL)], Enter(l, token, i))
  {
    var l', rows' := Enter(l, token, i), rows[token := Row(i.user, i.tenant, i.at + REFRESH_TTL)];
    forall h {:trigger RowOk(rows, l', h)} {:trigger RowOk(rows', l', h)} | h in rows
      ensures RowOk(rows, l', h) && RowOk(rows', l', h)
    {
      assert RowOk(rows, l, h);
    }
    forall h {:trigger IssueOk(l', h)} | h in l'.issues ensures IssueOk(l', h) {
      EnterKeepsIssue(l, token, i, h);
    }
  }

  lemma EnterKeepsIssue(l: Ledger, token: string, i: Issue, h: string)
    requires token != "" && token !in l.issues
    requires i.root == token || (i.root in l.issues && l.issues[i.root].user == i.user && l.issues[i.root].tenant == i.tenant)
    requires h == token || (h in l.issues && IssueOk(l, h))
    ensures IssueOk(Enter(l, token, i), h)
  {
  }

  lemma StepKeepsInv(rows: Rows, l: Ledger, r: Record)
    requires Inv(rows, l) && r.ok == Step(rows, r.now, r.request).1
    requires r.request.Logout? || (r.request.token != "" && r.request.token !in l.issues)
    ensures Inv(Step(rows, r.now, r.request).0, Entered(l, r))
  {
    match r.request
    case Login(user, tenant, token, stored) =>
      if r.ok {
        forall h | h in rows && h in l.issues ensures l.issues[h].root != token {
          assert IssueOk(l, h);
        }
        EnterKeepsInv(rows, l, token, Issue(user, tenant, r.now, token));
      }
    case Refresh(presented, _, token, _) =>
      if presented in rows {
        var rest := rows - {presented};
        ShrinkKeepsInv(rows, rest, l);
        if r.ok {
          TakeOver(rows, l, presented);
          EnterKeepsInv(rest, l, token, l.issues[presented].(at := r.now));
        }
      }
    case Logout(presented, access) =>
      ShrinkKeepsInv(rows, LogoutRows(rows, presented, access), l);
  }

  /** Without the presented token its chain has none stored. */
  lemma TakeOver(rows: Rows, l: Ledger, presented: string)
    requires Inv(rows, l) && presented in rows
    ensures presented in l.issues && IssueOk(l, presented)
    ensures rows[presented] == Row(l.issues[presented].user, l.issues[presented].tenant, l.issues[presented].at + REFRESH_TTL)
    ensures forall h | h in rows - {presented} && h in l.issues :: l.issues[h].root != l.issues[presented].root
  {
    assert RowOk(rows, l, presented);
    forall h | h in rows - {presented} && h in l.issues ensures l.issues[h].root != l.issues[presented].root {
      assert RowOk(rows, l, h);
    }
  }

  lemma {:induction false} RunInv(tr: seq<Record>)
    requires IsRun(tr)
    ensures Inv(Final(tr), Ledgered(tr))
  {
    if tr != [] {
      RunInv(tr[..|tr| - 1]);
      StepKeepsInv(Final(tr[..|tr| - 1]), Ledgered(tr[..|tr| - 1]), tr[|tr| - 1]);
    }
  }

  lemma {:induction false} Prefix(tr: seq<Record>, i: nat)
    requires IsRun(tr) && i <= |tr|
    ensures IsRun(tr[..i])
    ensures forall h | h in Issued(tr[..i]) :: h in Issued(tr) && Issued(tr)[h] == Issued(tr[..i])[h]
  {
    if i == |tr| {
      assert tr[..i] == tr;
    } else {
      assert tr[..|tr| - 1][..i] == tr[..i];
      Prefix(tr[..|tr| - 1], i);
    }
  }

  /** A token that was handed out and is stored no longer never comes back. */
  lemma {:induction false} GoneForever(tr: seq<Record>, i: nat, h: string)
    requires IsRun(tr) && i <= |tr| && h in Issued(tr[..i]) && h !in Final(tr[..i])
    ensures h in Issued(tr) && h !in Final(tr)
  {
    if i == |tr| {
      assert tr[..i] == tr;
    } else {
      assert tr[..|tr| - 1][..i] == tr[..i];
      GoneForever(tr[..|tr| - 1], i, h);
    }
  }

  /** From there on every refresh with it is refused. */
  lemma RefusedFrom(tr: seq<Record>, i: nat, j: nat, h: string)
    requires IsRun(tr) && i <= j < |tr| && h in Issued(tr[..i]) && h !in Final(tr[..i])
    requires tr[j].request.Refresh? && tr[j].request.presented == h
    ensures !tr[j].ok
  {
    Cut(tr, j);
    assert tr[..j][..i] == tr[..i];
    GoneForever(tr[..j], i, h);
  }

  // ---------- the promises ----------

  /** A refresh token is exchanged at most once: whatever a refresh with it answered, a
      later one with the same token gets nothing. */
  lemma ExchangedOnce(tr: seq<Record>, i: nat, j: nat, h: string)
    requires IsRun(tr) && i < j < |tr|
    requires tr[i].request.Refresh? && tr[i].request.presented == h && h in Issued(tr[..i])
    requires tr[j].request.Refresh? && tr[j].request.presented == h
    ensures !tr[j].ok
  {
    Cut(tr, i);
    RunInv(tr[..i]);
    assert IssueOk(Ledgered(tr[..i]), h);
    RefreshRemoves(Final(tr[..i]), tr[i].now, tr[i].request);
    RefusedFrom(tr, i + 1, j, h);
  }

  lemma Cut(tr: seq<Record>, i: nat)
    requires IsRun(tr) && i < |tr|
    ensures IsRun(tr[..i]) && IsRun(tr[..i + 1])
    ensures Final(tr[..i + 1]) == Step(Final(tr[..i]), tr[i].now, tr[i].request).0
    ensures Ledgered(tr[..i + 1]) == Entered(Ledgered(tr[..i]), tr[i])
    ensures tr[i].ok == Step(Final(tr[..i]), tr[i].now, tr[i].request).1
    ensures tr[i].request.Logout? || (tr[i].request.token != "" && tr[i].request.token !in Issued(tr[..i]))
  {
    Prefix(tr, i);
    Prefix(tr, i + 1);
    assert tr[..i + 1][..i] == tr[..i];
  }

  lemma RefreshRemoves(rows: Rows, now: int, r: Request)
    requires r.Refresh? && r.presented != r.token && r.presented != ""
    ensures r.presented !in Step(rows, now, r).0
  {
  }

  /** Each login's chain has at most one token that still works: the last one issued. */
  lemma OneLivePerLogin(tr: seq<Record>, a: string, b: string)
    requires IsRun(tr) && a in Final(tr) && b in Final(tr)
    requires a in Issued(tr) && b in Issued(tr) && Issued(tr)[a].root == Issued(tr)[b].root
    ensures a == b && Issued(tr)[a].root in Ledgered(tr).latest && a == Ledgered(tr).latest[Issued(tr)[a].root]
  {
    RunInv(tr);
    assert RowOk(Final(tr), Ledgered(tr), a) && RowOk(Final(tr), Ledgered(tr), b);
  }

  /** After a user's logout, no token handed out to that user before it is ever accepted. */
  lemma LogoutRevokesAll(tr: seq<Record>, i: nat, j: nat, h: string)
    requires IsRun(tr) && i < j < |tr| && h in Issued(tr[..i])
    requires LogsOut(Final(tr[..i]), tr[i].request, Issued(tr[..i])[h].user, Issued(tr[..i])[h].tenant)
    requires tr[j].request.Refresh? && tr[j].request.presented == h
    ensures !tr[j].ok
  {
    Cut(tr, i);
    RunInv(tr[..i]);
    LogoutRemoves(Final(tr[..i]), Ledgered(tr[..i]), tr[i].now, tr[i].request, h);
    RefusedFrom(tr, i + 1, j, h);
  }

  lemma LogoutRemoves(rows: Rows, l: Ledger, now: int, r: Request, h: string)
    requires Inv(rows, l) && h in l.issues && LogsOut(rows, r, l.issues[h].user, l.issues[h].tenant)
    ensures h !in Step(rows, now, r).0
  {
    if h in rows {
      assert RowOk(rows, l, h);
    }
  }

  /** A logout by one user leaves every other user's tokens as they were. */
  lemma LogoutSparesOthers(tr: seq<Record>, i: nat, h: string)
    requires IsRun(tr) && i < |tr| && tr[i].request.Logout? && h in Final(tr[..i])
    requires !LogsOut(Final(tr[..i]), tr[i].request, Final(tr[..i])[h].user, Final(tr[..i])[h].tenant)
    ensures h in Final(tr[..i + 1]) && Final(tr[..i + 1])[h] == Final(tr[..i])[h]
  {
    Cut(tr, i);
    RunInv(tr[..i]);
    assert RowOk(Final(tr[..i]), Ledgered(tr[..i]), h);
    LogoutKeeps(Final(tr[..i]), tr[i].request.presented, tr[i].request.access, h);
  }

  lemma LogoutKeeps(rows: Rows, presented: string, access: Option<(string, string)>, h: string)
    requires h in rows && h != "" && !LogsOut(rows, Logout(presented, access), rows[h].user, rows[h].tenant)
    ensures h in LogoutRows(rows, presented, access) && LogoutRows(rows, presented, access)[h] == rows[h]
  {
  }

  // ---------- which refresh is accepted ----------

  const SEVEN_DAYS: int := 604_800 * SECOND

  /** Read off the requests and answers: the token was handed out and stored, and since then
      it was not presented to a refresh and its user was not logged out, neither by an access
      token nor by a token of theirs that was itself good. */
  predicate Good(tr: seq<Record>, h: string)
    decreases |tr|
  {
    tr != [] &&
    var rest, r := tr[..|tr| - 1], tr[|tr| - 1];
    match r.request
    case Login(_, _, token, stored) => if token == h then r.ok && stored else Good(rest, h)
    case Refresh(presented, _, token, stored) => if token == h then r.ok && stored else presented != h && Good(rest, h)
    case Logout(presented, access) =>
      && Good(rest, h) && h in Issued(rest)
      && access != Some((Issued(rest)[h].user, Issued(rest)[h].tenant))
      && !(Good(rest, presented) && presented in Issued(rest)
           && Issued(rest)[presented].user == Issued(rest)[h].user && Issued(rest)[presented].tenant == Issued(rest)[h].tenant)
  }

  /** The stored tokens are the good ones. */
  lemma {:induction false} StoredIffGood(tr: seq<Record>, h: string)
    requires IsRun(tr)
    ensures h in Final(tr) <==> Good(tr, h)
    decreases |tr|
  {
    if tr != [] {
      var rest, r := tr[..|tr| - 1], tr[|tr| - 1];
      RunInv(rest);
      StoredIffGood(rest, h);
      if h in Final(rest) {
        assert RowOk(Final(rest), Ledgered(rest), h);
      }
      match r.request
      case Login(_, _, _, _) =>
      case Refresh(presented, _, _, _) =>
        if presented in Final(rest) {
          assert RowOk(Final(rest), Ledgered(rest), presented);
        }
      case Logout(presented, access) =>
        StoredIffGood(rest, presented);
        LoggedOutIff(Final(rest), Ledgered(rest), presented, access, h);
    }
  }

  lemma LoggedOutIff(rows: Rows, l: Ledger, presented: string, access: Option<(string, string)>, h: string)
    requires Inv(rows, l)
    ensures h in LogoutRows(rows, presented, access) <==>
      && h in rows && access != Some((rows[h].user, rows[h].tenant))
      && !(presented in rows && rows[presented].user == rows[h].user && rows[presented].tenant == rows[h].tenant)
    ensures h in rows ==> h in l.issues && rows[h].user == l.issues[h].user && rows[h].tenant == l.issues[h].tenant
    ensures presented in rows ==>
      presented in l.issues && rows[presented].user == l.issues[presented].user && rows[presented].tenant == l.issues[presented].tenant
  {
    if h in rows {
      assert RowOk(rows, l, h);
    }
    if presented in rows {
      assert RowOk(rows, l, presented);
    }
  }

  /** A refresh is answered with new tokens exactly when the token presented is good, at most
      seven days old, and its user still there and enabled. */
  lemma AcceptedIff(tr: seq<Record>, i: nat)
    requires IsRun(tr) && i < |tr| && tr[i].request.Refresh?
    ensures var r, before := tr[i], tr[..i];
      var h := r.request.presented;
      r.ok <==> Good(before, h) && h in Issued(before) && r.now - Issued(before)[h].at <= SEVEN_DAYS && r.request.userOk
  {
    Cut(tr, i);
    RunInv(tr[..i]);
    StoredIffGood(tr[..i], tr[i].request.presented);
    RefreshAnswer(Final(tr[..i]), Ledgered(tr[..i]), tr[i].now, tr[i].request);
  }

  lemma RefreshAnswer(rows: Rows, l: Ledger, now: int, r: Request)
    requires Inv(rows, l) && r.Refresh?
    ensures r.presented in rows ==> r.presented in l.issues && IssueOk(l, r.presented)
    ensures Step(rows, now, r).1 <==>
      r.presented in rows && r.presented in l.issues && now - l.issues[r.presented].at <= SEVEN_DAYS && r.userOk
  {
    if r.presented in rows {
      assert RowOk(rows, l, r.presented) && IssueOk(l, r.presented);
    }
  }

  /** An accepted refresh is within seven days of the token's issue, and the successor
      belongs to the user and tenant that logged in. */
  lemma AcceptedRefresh(tr: seq<Record>, i: nat)
    requires IsRun(tr) && i < |tr| && tr[i].request.Refresh? && tr[i].ok
    ensures var r, before, after := tr[i], Issued(tr[..i]), Issued(tr[..i + 1]);
      && r.request.presented in before
      && r.request.userOk && r.now - before[r.request.presented].at <= SEVEN_DAYS
      && r.request.token in after
      && var next := after[r.request.token];
      && next.root == before[r.request.presented].root && next.root in before
      && next.user == before[next.root].user && next.tenant == before[next.root].tenant
  {
    Cut(tr, i);
    RunInv(tr[..i]);
    RefreshAnswer(Final(tr[..i]), Ledgered(tr[..i]), tr[i].now, tr[i].request);
  }

  /** The session endpoints over the stored tokens. */
  class SessionHandler {
    var tokens: Rows

    constructor ()
      ensures tokens == map[]
    {
      tokens := map[];
    }

    method IssueSession(user: string, tenant: string, token: string, stored: bool, now: int) returns (ok: bool)
      modifies this
      ensures (tokens, ok) == Step(old(tokens), now, Login(user, tenant, token, stored))
    {
      if !stored {
        return false;
      }
      tokens := tokens[token := Row(user, tenant, now + REFRESH_TTL)];
      return true;
    }

    method RefreshToken(presented: string, userOk: bool, token: string, stored: bool, now: int) returns (ok: bool)
      modifies this
      ensures (tokens, ok) == Step(old(tokens), now, Refresh(presented, userOk, token, stored))
    {
      if presented == "" || presented !in tokens {
        return false;
      }
      var row := tokens[presented];
      if now > row.expires {
        tokens := tokens - {presented};
        return false;
      }
      tokens := tokens - {presented};
      if !userOk {
        return false;
      }
      if stored {
        tokens := tokens[token := Row(row.user, row.tenant, now + REFRESH_TTL)];
      }
      return true;
    }

    method DeleteByUser(user: string, tenant: string)
      modifies this
      ensures tokens == old(tokens) - OfUser(old(tokens), user, tenant)
    {
      var todo := tokens.Keys;
      while todo != {}
        invariant todo <= tokens.Keys <= old(tokens).Keys
        invariant forall h | h in tokens :: tokens[h] == old(tokens)[h]
        invariant forall h | h in old(tokens) :: h in tokens <==> (h in todo || h !in OfUser(old(tokens), user, tenant))
      {
        var h :| h in todo;
        todo := todo - {h};
        if tokens[h].user == user && tokens[h].tenant == tenant {
          tokens := tokens - {h};
        }
      }
    }

    method EndSession(presented: string, access: Option<(string, string)>)
      modifies this
      ensures forall now :: (tokens, false) == Step(old(tokens), now, Logout(presented, access))
    {
      if presented != "" {
        if presented in tokens {
          DeleteByUser(tokens[presented].user, tokens[presented].tenant);
        } else {
          tokens := tokens - {presented};
        }
      }
      if access.Some? {
        DeleteByUser(access.value.0, access.value.1);
      }
    }
  }
}
