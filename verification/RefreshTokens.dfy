/**
 * The `refresh_tokens` table and the operations of the authentication service on it:
 * issue at login, single-use rotation with re-use detection, and logout.
 *
 * Random tokens and row ids are idealised as fresh: the n-th issued token is the number n,
 * and the row that stores its hash is row n. One refresh reads one instant of the clock.
 */
module RefreshTokens {
  import opened Wrappers

  datatype Row = Row(user: nat, issuedAt: int, expiresAt: int, revokedAt: Option<int>, replacedBy: Option<nat>) {
    predicate Live() { revokedAt == None }
  }

  type Table = seq<Row>

  datatype Outcome = NotFound | ReuseDetected | Expired | UserInactive | DatabaseFailure | Rotated(token: nat)

  // ---------------------------------------------------------------- statements

  function Issue(t: Table, user: nat, now: int, ttl: int): Table {
    t + [Row(user, now, now + ttl, None, None)]
  }

  function RevokeUser(t: Table, user: nat, now: int): (r: Table)
    ensures |r| == |t|
  {
    seq(|t|, i requires 0 <= i < |t| =>
      if t[i].user == user && t[i].Live() then t[i].(revokedAt := Some(now)) else t[i])
  }

  function RevokeToken(t: Table, token: nat, now: int): (r: Table)
    ensures |r| == |t|
  {
    if token < |t| && t[token].Live() then t[token := t[token].(revokedAt := Some(now))] else t
  }

  function CloseRow(t: Table, token: nat, now: int, next: Option<nat>): Table
    requires token < |t|
  {
    t[token := t[token].(revokedAt := Some(now), replacedBy := next)]
  }

  predicate IsOtherLive(t: Table, user: nat, token: nat, j: int) {
    0 <= j < |t| && j != token && t[j].user == user && t[j].Live()
  }

  // The rows the rotation's sub-select may return: the latest un-revoked token of the user other
  // than the one presented. Ties on the issue time are broken arbitrarily by the database.
  ghost predicate IsLatestOther(t: Table, user: nat, token: nat, pick: Option<nat>) {
    match pick
    case None => forall j :: !IsOtherLive(t, user, token, j)
    case Some(p) =>
      && IsOtherLive(t, user, token, p)
      && forall j :: IsOtherLive(t, user, token, j) ==> t[j].issuedAt <= t[p].issuedAt
  }

  // ---------------------------------------------------------------- refresh

  // What one call of refresh may do to the table.
  ghost predicate RefreshStep(t: Table, token: nat, now: int, ttl: int, t': Table, out: Outcome) {
    match out
    case NotFound => token >= |t| && t' == t
    case ReuseDetected => token < |t| && !t[token].Live() && t' == RevokeUser(t, t[token].user, now)
    case Expired => token < |t| && t[token].Live() && t[token].expiresAt < now && t' == t
    case UserInactive => token < |t| && t[token].Live() && now <= t[token].expiresAt && t' == t
    case DatabaseFailure => token < |t| && t[token].Live() && now <= t[token].expiresAt && t' == t
    case Rotated(successor) =>
      && token < |t| && t[token].Live() && now <= t[token].expiresAt
      && successor == |t|
      && var issued := Issue(t, t[token].user, now, ttl);
         exists pick: Option<nat> ::
           IsLatestOther(issued, t[token].user, token, pick) && t' == CloseRow(issued, token, now, pick)
  }

  // One row is closed, one appended, and no other row changes.
  ghost predicate Rotates(t: Table, token: nat, now: int, ttl: int, t': Table, successor: nat)
    requires token < |t|
  {
    && |t'| == |t| + 1 && successor == |t|
    && t'[token] == t[token].(revokedAt := Some(now), replacedBy := t'[token].replacedBy)
    && t'[successor] == Row(t[token].user, now, now + ttl, None, None)
    && forall i :: 0 <= i < |t| && i != token ==> t'[i] == t[i]
  }

  // Every un-revoked row of the user is revoked, and no other row changes.
  ghost predicate EndsAll(t: Table, user: nat, now: int, t': Table) {
    && |t'| == |t|
    && forall i :: 0 <= i < |t| ==>
         t'[i] == if t[i].user == user && t[i].revokedAt == None then t[i].(revokedAt := Some(now)) else t[i]
  }

  /**
   * The service with the database connection it holds: `tokens` is the table as this connection
   * sees it, `savepoint` the table a ROLLBACK returns to, present while a transaction is open.
   */
  class AuthService {
    var tokens: Table
    var savepoint: Option<Table>
    const ttl: int

    constructor (ttl: int)
      ensures tokens == [] && savepoint == None && this.ttl == ttl
    {
      tokens, savepoint, this.ttl := [], None, ttl;
    }

    method Begin()
      modifies this
      ensures tokens == old(tokens) && savepoint == Some(old(tokens))
    {
      savepoint := Some(tokens);
    }

    method Commit()
      modifies this
      ensures tokens == old(tokens) && savepoint == None
    {
      savepoint := None;
    }

    // Outside a transaction ROLLBACK has nothing to undo.
    method Rollback()
      modifies this
      ensures savepoint == None
      ensures tokens == if old(savepoint).Some? then old(savepoint).value else old(tokens)
    {
      if savepoint.Some? { tokens := savepoint.value; }
      savepoint := None;
    }

    method SelectLatestOther(user: nat, token: nat) returns (pick: Option<nat>)
      ensures pick.Some? ==>
                && pick.value < |tokens| && pick.value != token && tokens[pick.value].user == user
                && tokens[pick.value].revokedAt == None
      ensures forall j :: 0 <= j < |tokens| && j != token && tokens[j].user == user && tokens[j].revokedAt == None
                ==> pick.Some? && tokens[j].issuedAt <= tokens[pick.value].issuedAt
      ensures IsLatestOther(tokens, user, token, pick)
    {
      pick := None;
      for j := 0 to |tokens|
        invariant pick.Some? ==> pick.value < j && IsOtherLive(tokens, user, token, pick.value)
        invariant forall i :: i < j && IsOtherLive(tokens, user, token, i) ==>
                                pick.Some? && tokens[i].issuedAt <= tokens[pick.value].issuedAt
      {
        if IsOtherLive(tokens, user, token, j) && (pick.None? || tokens[pick.value].issuedAt <= tokens[j].issuedAt) {
          pick := Some(j);
        }
      }
    }

    // `failing` stands for an exception thrown by a statement after the new token was inserted.
    method Refresh(token: nat, now: int, userActive: bool, failing: bool) returns (out: Outcome)
      requires savepoint == None
      modifies this
      ensures savepoint == None
      ensures RefreshStep(old(tokens), token, now, ttl, tokens, out)
      ensures out.NotFound? <==> token >= |old(tokens)|
      ensures out.ReuseDetected? <==> token < |old(tokens)| && !old(tokens)[token].Live()
      ensures out.Expired? <==>
                token < |old(tokens)| && old(tokens)[token].Live() && old(tokens)[token].expiresAt < now
      ensures out.UserInactive? ==> !userActive
      ensures out.DatabaseFailure? ==> userActive && failing
      ensures out.Rotated? ==> userActive && !failing && Rotates(old(tokens), token, now, ttl, tokens, out.token)
      ensures out.ReuseDetected? ==> EndsAll(old(tokens), old(tokens)[token].user, now, tokens)
      ensures !out.Rotated? && !out.ReuseDetected? ==> tokens == old(tokens)
    {
      Begin();
      if token >= |tokens| {
        out := NotFound;
      } else if tokens[token].revokedAt.Some? {
        tokens := RevokeUser(tokens, tokens[token].user, now);
        Commit();
        out := ReuseDetected;
      } else if tokens[token].expiresAt < now {
        out := Expired;
      } else if !userActive {
        out := UserInactive;
      } else {
        var user := tokens[token].user;
        var successor := |tokens|;
        tokens := Issue(tokens, user, now, ttl);
        if failing {
          out := DatabaseFailure;
        } else {
          var pick := SelectLatestOther(user, token);
          tokens := CloseRow(tokens, token, now, pick);
          Commit();
          out := Rotated(successor);
        }
      }
      if !out.Rotated? {
        Rollback();
      }
    }

    method IssueTokens(user: nat, now: int) returns (token: nat)
      requires savepoint == None
      modifies this
      ensures savepoint == None
      ensures |tokens| == |old(tokens)| + 1 && tokens[..|old(tokens)|] == old(tokens) && token == |old(tokens)|
      ensures tokens[token].user == user && tokens[token].Live() && tokens[token].replacedBy == None
      ensures tokens[token].issuedAt == now && tokens[token].expiresAt == now + ttl
    {
      Begin();
      token := |tokens|;
      tokens := Issue(tokens, user, now, ttl);
      Commit();
    }

    method Logout(token: Option<nat>, allDevices: bool, user: nat, now: int)
      requires savepoint == None
      modifies this
      ensures savepoint == None
      ensures |tokens| == |old(tokens)|
      ensures forall i :: 0 <= i < |tokens| ==>
                          var named := if allDevices then old(tokens)[i].user == user else token == Some(i);
                          tokens[i] == if named && old(tokens)[i].Live() then old(tokens)[i].(revokedAt := Some(now))
                                       else old(tokens)[i]
      ensures tokens == if allDevices then RevokeUser(old(tokens), user, now)
                        else if token.Some? then RevokeToken(old(tokens), token.value, now)
                        else old(tokens)
    {
      if allDevices {
        tokens := RevokeUser(tokens, user, now);
      } else if token.Some? {
        tokens := RevokeToken(tokens, token.value, now);
      }
    }
  }

  // ---------------------------------------------------------------- counting un-revoked tokens

  ghost function LiveCount(t: Table, user: nat): nat {
    if t == [] then 0
    else LiveCount(t[..|t| - 1], user) + (if t[|t| - 1].user == user && t[|t| - 1].Live() then 1 else 0)
  }

  lemma {:induction false} LiveCountUpdate(t: Table, i: nat, r: Row, user: nat)
    requires i < |t| && r.user == t[i].user
    ensures LiveCount(t[i := r], user)
         == LiveCount(t, user) - (if t[i].user == user && t[i].Live() then 1 else 0)
                               + (if r.user == user && r.Live() then 1 else 0)
  {
    var last := |t| - 1;
    if i == last {
      assert t[i := r][..last] == t[..last];
    } else {
      assert t[i := r][..last] == t[..last][i := r];
      LiveCountUpdate(t[..last], i, r, user);
    }
  }

  lemma {:induction false} NoneLive(t: Table, user: nat)
    requires forall i :: 0 <= i < |t| && t[i].user == user ==> !t[i].Live()
    ensures LiveCount(t, user) == 0
  {
    if t != [] { NoneLive(t[..|t| - 1], user); }
  }

  // A successful rotation keeps the number of un-revoked tokens of every user.
  lemma RotationKeepsLiveCount(t: Table, token: nat, now: int, ttl: int, t': Table, out: Outcome, user: nat)
    requires RefreshStep(t, token, now, ttl, t', out) && out.Rotated?
    ensures LiveCount(t', user) == LiveCount(t, user)
  {
    var issued := Issue(t, t[token].user, now, ttl);
    assert issued[..|t|] == t;
    LiveCountUpdate(issued, token, t'[token], user);
  }

  // What became of the presented token decides the outcome: only one that is known, un-revoked and not yet
  // expired is ever rotated, a revoked one is always taken as re-used.
  lemma TokenDecidesOutcome(t: Table, token: nat, now: int, ttl: int, t': Table, out: Outcome)
    requires RefreshStep(t, token, now, ttl, t', out)
    ensures out == NotFound <==> token >= |t|
    ensures out == ReuseDetected <==> token < |t| && t[token].revokedAt.Some?
    ensures out == Expired ==> token < |t| && t[token].revokedAt.None? && t[token].expiresAt < now
    ensures out.Rotated? || out == UserInactive || out == DatabaseFailure ==>
              token < |t| && t[token].revokedAt.None? && now <= t[token].expiresAt
    ensures out.Rotated? ==> Rotates(t, token, now, ttl, t', out.token)
    ensures out == ReuseDetected ==> EndsAll(t, t[token].user, now, t')
    ensures !out.Rotated? && out != ReuseDetected ==> t' == t
  {
  }

  // Presenting a revoked token leaves its user without any un-revoked token, although the call
  // ends in the exception path and its ROLLBACK, and touches no other user's tokens.
  lemma ReuseRevokesAll(t: Table, token: nat, now: int, ttl: int, t': Table, out: Outcome)
    requires RefreshStep(t, token, now, ttl, t', out) && out.ReuseDetected?
    ensures LiveCount(t', t[token].user) == 0
    ensures |t'| == |t| && forall i :: 0 <= i < |t| && t[i].user != t[token].user ==> t'[i] == t[i]
  {
    NoneLive(t', t[token].user);
  }

  // ---------------------------------------------------------------- which token replaces which

  // The sub-select of a rotation is bound to return the token just inserted if and only if every
  // other un-revoked token of the user was issued strictly earlier.
  lemma SubselectFindsNewToken(t: Table, token: nat, now: int, ttl: int)
    requires token < |t|
    ensures (forall j :: 0 <= j < |t| && j != token && t[j].user == t[token].user && t[j].revokedAt == None
                         ==> t[j].issuedAt < now)
       <==> (forall pick | IsLatestOther(Issue(t, t[token].user, now, ttl), t[token].user, token, pick)
               :: pick == Some(|t|))
  {
    var user := t[token].user;
    var issued := Issue(t, user, now, ttl);
    assert IsOtherLive(issued, user, token, |t|);
    if !(forall j :: IsOtherLive(t, user, token, j) ==> t[j].issuedAt < now) {
      var best := LatestOf(t, user, token, |t|);
      assert IsLatestOther(issued, user, token, Some(best)) by {
        assert forall j :: IsOtherLive(issued, user, token, j) && j < |t| ==> IsOtherLive(t, user, token, j);
        assert IsOtherLive(issued, user, token, best);
      }
    }
  }

  // Two un-revoked tokens of one instant: refreshing one within that instant may link it to the other
  // instead of the new token.
  lemma TieMayMislink(user: nat, now: int, ttl: int)
    requires ttl >= 0
    ensures var t := [Row(user, now, now + ttl, None, None), Row(user, now, now + ttl, None, None)];
            RefreshStep(t, 0, now, ttl, CloseRow(Issue(t, user, now, ttl), 0, now, Some(1)), Rotated(2))
  {
    var t := [Row(user, now, now + ttl, None, None), Row(user, now, now + ttl, None, None)];
    var issued := Issue(t, user, now, ttl);
    assert IsOtherLive(issued, user, 0, 1);
    assert IsLatestOther(issued, user, 0, Some(1));
  }

  lemma {:induction false} LatestOf(t: Table, user: nat, token: nat, n: nat) returns (best: nat)
    requires n <= |t| && exists j :: j < n && IsOtherLive(t, user, token, j)
    ensures best < n && IsOtherLive(t, user, token, best)
    ensures forall j :: j < n && IsOtherLive(t, user, token, j) ==> t[j].issuedAt <= t[best].issuedAt
  {
    if exists j :: j < n - 1 && IsOtherLive(t, user, token, j) {
      best := LatestOf(t, user, token, n - 1);
      if IsOtherLive(t, user, token, n - 1) && t[best].issuedAt < t[n - 1].issuedAt {
        best := n - 1;
      }
    } else {
      best := n - 1;
    }
  }

  // ---------------------------------------------------------------- runs

  datatype Step =
    | Login(user: nat)
    | Refresh(token: nat, out: Outcome)
    | Logout(token: nat)
    | LogoutAll(user: nat)

  // The table together with an observer's record of where each token came from: None for a token
  // issued at login, Some(i) for one issued while token i was being refreshed.
  datatype History = History(rows: Table, origin: seq<Option<nat>>)

  const EMPTY := History([], [])

  ghost predicate IssuedBefore(t: Table, now: int) {
    forall i :: 0 <= i < |t| ==> t[i].issuedAt < now
  }

  ghost predicate Next(h: History, step: Step, now: int, ttl: int, h': History) {
    match step
    case Login(user) =>
      IssuedBefore(h.rows, now) && h' == History(Issue(h.rows, user, now, ttl), h.origin + [None])
    case Refresh(token, out) =>
      && RefreshStep(h.rows, token, now, ttl, h'.rows, out)
      && (out.Rotated? ==> IssuedBefore(h.rows, now))
      && h'.origin == if out.Rotated? then h.origin + [Some(token)] else h.origin
    case Logout(token) => h' == h.(rows := RevokeToken(h.rows, token, now))
    case LogoutAll(user) => h' == h.(rows := RevokeUser(h.rows, user, now))
  }

  // A run: `run[k]` is the state after k steps of any kind, issue times strictly increasing.
  ghost predicate IsRun(run: seq<History>, steps: seq<Step>, times: seq<int>, ttl: int) {
    && |run| == |steps| + 1 && |times| == |steps| && run[0] == EMPTY
    && forall k :: 0 <= k < |steps| ==> Next(run[k], steps[k], times[k], ttl, run[k + 1])
  }

  // Token j, issued while refreshing token i, is what row i names as its replacement.
  ghost predicate OriginLinked(h: History, j: int)
    requires |h.origin| == |h.rows| && 0 <= j < |h.rows|
  {
    match h.origin[j]
    case None => true
    case Some(i) => i < j && h.rows[i].replacedBy == Some(j) && h.rows[i].user == h.rows[j].user
  }

  // Row i is replaced only by a token issued while refreshing it, and is then revoked.
  ghost predicate ReplacementLinked(h: History, i: int)
    requires |h.origin| == |h.rows| && 0 <= i < |h.rows|
  {
    match h.rows[i].replacedBy
    case None => true
    case Some(j) => j < |h.rows| && h.origin[j] == Some(i) && !h.rows[i].Live()
  }

  // `replaced_by` is exactly the inverse of "was issued while refreshing".
  ghost predicate Linked(h: History) {
    && |h.origin| == |h.rows|
    && (forall j :: 0 <= j < |h.rows| ==> OriginLinked(h, j))
    && (forall i :: 0 <= i < |h.rows| ==> ReplacementLinked(h, i))
  }

  // With strictly increasing issue times a rotation closes the presented row onto the new one.
  lemma RotationLinksNewToken(t: Table, token: nat, now: int, ttl: int, t': Table, out: Outcome)
    requires RefreshStep(t, token, now, ttl, t', out) && out.Rotated? && IssuedBefore(t, now)
    ensures t' == CloseRow(Issue(t, t[token].user, now, ttl), token, now, Some(|t|))
  {
    var issued := Issue(t, t[token].user, now, ttl);
    var pick: Option<nat> :|
      IsLatestOther(issued, t[token].user, token, pick) && t' == CloseRow(issued, token, now, pick);
    SubselectFindsNewToken(t, token, now, ttl);
  }

  lemma LoginKeepsLinked(h: History, row: Row, h': History)
    requires Linked(h) && row.replacedBy == None
    requires h' == History(h.rows + [row], h.origin + [None])
    ensures Linked(h')
  {
    forall j | 0 <= j < |h'.rows| ensures OriginLinked(h', j) && ReplacementLinked(h', j) {
      if j < |h.rows| { assert OriginLinked(h, j) && ReplacementLinked(h, j); }
    }
  }

  lemma RevocationKeepsLinked(h: History, h': History)
    requires Linked(h) && h'.origin == h.origin && |h'.rows| == |h.rows|
    requires forall i :: 0 <= i < |h.rows| ==>
               h'.rows[i] == h.rows[i]
                 || (h.rows[i].Live() && exists at: int :: h'.rows[i] == h.rows[i].(revokedAt := Some(at)))
    ensures Linked(h')
  {
    forall j | 0 <= j < |h'.rows| ensures OriginLinked(h', j) && ReplacementLinked(h', j) {
      assert OriginLinked(h, j) && ReplacementLinked(h, j);
    }
  }

  lemma RotationKeepsLinked(h: History, token: nat, row: Row, at: int, h': History)
    requires Linked(h) && token < |h.rows| && h.rows[token].Live()
    requires row.user == h.rows[token].user && row.replacedBy == None
    requires h'.rows == CloseRow(h.rows + [row], token, at, Some(|h.rows|))
    requires h'.origin == h.origin + [Some(token)]
    ensures Linked(h')
  {
    assert ReplacementLinked(h, token);
    forall j | 0 <= j < |h'.rows| ensures OriginLinked(h', j) && ReplacementLinked(h', j) {
      if j < |h.rows| { assert OriginLinked(h, j) && ReplacementLinked(h, j); }
    }
  }

  lemma NextKeepsLinked(h: History, step: Step, now: int, ttl: int, h': History)
    requires Linked(h) && Next(h, step, now, ttl, h')
    ensures Linked(h')
  {
    match step
    case Login(user) =>
      LoginKeepsLinked(h, Row(user, now, now + ttl, None, None), h');
    case Refresh(token, out) =>
      if out.Rotated? {
        RotationLinksNewToken(h.rows, token, now, ttl, h'.rows, out);
        RotationKeepsLinked(h, token, Row(h.rows[token].user, now, now + ttl, None, None), now, h');
      } else {
        RevocationKeepsLinked(h, h');
      }
    case _ =>
      RevocationKeepsLinked(h, h');
  }

  lemma {:induction false} RunIsLinked(run: seq<History>, steps: seq<Step>, times: seq<int>, ttl: int, k: nat)
    requires IsRun(run, steps, times, ttl) && k < |run|
    ensures Linked(run[k])
  {
    if k > 0 {
      RunIsLinked(run, steps, times, ttl, k - 1);
      NextKeepsLinked(run[k - 1], steps[k - 1], times[k - 1], ttl, run[k]);
    }
  }

  // The login a token descends from.
  ghost function Root(h: History, i: nat): (r: nat)
    requires Linked(h) && i < |h.rows|
    ensures r <= i && h.origin[r] == None && h.rows[r].user == h.rows[i].user
    decreases i
  {
    assert OriginLinked(h, i);
    if h.origin[i].None? then i else Root(h, h.origin[i].value)
  }

  lemma {:induction false} ChainIsLine(h: History, i: nat, j: nat)
    requires Linked(h) && i < j < |h.rows| && Root(h, i) == Root(h, j)
    ensures h.rows[i].replacedBy.Some? && h.rows[i].replacedBy.value <= j
    decreases i + j
  {
    assert OriginLinked(h, j);
    if h.origin[j].Some? {
      var p := h.origin[j].value;
      if p < i {
        ChainIsLine(h, p, i);
      } else if i < p {
        ChainIsLine(h, i, p);
      }
    }
  }

  // Tokens form disjoint acyclic chains, one per login; in each at most one token is un-revoked,
  // and that token is the last of its chain.
  lemma OneLiveTokenPerLogin(run: seq<History>, steps: seq<Step>, times: seq<int>, ttl: int, k: nat)
    requires IsRun(run, steps, times, ttl) && k < |run|
    ensures Linked(run[k])
    ensures forall i, j | 0 <= i < |run[k].rows| && 0 <= j < |run[k].rows| && i != j
                            && Root(run[k], i) == Root(run[k], j) && run[k].rows[i].Live()
              :: j < i && !run[k].rows[j].Live()
  {
    RunIsLinked(run, steps, times, ttl, k);
    var h := run[k];
    forall i, j | 0 <= i < |h.rows| && 0 <= j < |h.rows| && i != j && Root(h, i) == Root(h, j) && h.rows[i].Live()
      ensures j < i && !h.rows[j].Live()
    {
      assert ReplacementLinked(h, i) && ReplacementLinked(h, j);
      if i < j { ChainIsLine(h, i, j); } else { ChainIsLine(h, j, i); }
    }
  }
  // ---------------------------------------------------------------- revoked for good

  // The step ends the row's life: its token is logged out, or all tokens of its user are.
  ghost predicate LogsOut(h: History, step: Step, i: nat)
    requires i < |h.rows|
  {
    step == Logout(i) || step == LogoutAll(h.rows[i].user)
  }

  // No step brings a revoked row back, moves the instant of its revocation, or removes a row.
  lemma NextKeepsRevoked(h: History, step: Step, now: int, ttl: int, h': History, i: nat)
    requires Next(h, step, now, ttl, h') && i < |h.rows| && !h.rows[i].Live()
    ensures i < |h'.rows| && h'.rows[i] == h.rows[i]
  {
  }

  // A logout revokes each row it names, as of now, and leaves every other row alone.
  lemma LogoutRevokes(h: History, step: Step, now: int, ttl: int, h': History)
    requires Next(h, step, now, ttl, h') && (step.Logout? || step.LogoutAll?)
    ensures |h'.rows| == |h.rows|
    ensures forall i :: 0 <= i < |h.rows| ==>
                        h'.rows[i] == if LogsOut(h, step, i) && h.rows[i].Live()
                                      then h.rows[i].(revokedAt := Some(now)) else h.rows[i]
  {
  }

  lemma {:induction false} RunKeepsRevoked(run: seq<History>, steps: seq<Step>, times: seq<int>, ttl: int, k: nat,
                                           l: nat, i: nat)
    requires IsRun(run, steps, times, ttl) && k <= l < |run| && i < |run[k].rows| && !run[k].rows[i].Live()
    ensures i < |run[l].rows| && run[l].rows[i] == run[k].rows[i]
    decreases l - k
  {
    if k < l {
      RunKeepsRevoked(run, steps, times, ttl, k, l - 1, i);
      NextKeepsRevoked(run[l - 1], steps[l - 1], times[l - 1], ttl, run[l], i);
    }
  }

  // A token that was logged out, alone or with all of its user's, is never rotated again: presenting it
  // is re-use. The same holds of the token a rotation replaced.
  lemma EndedStaysEnded(run: seq<History>, steps: seq<Step>, times: seq<int>, ttl: int, k: nat, l: nat, i: nat)
    requires IsRun(run, steps, times, ttl) && k < l < |steps| && i < |run[k].rows|
    requires LogsOut(run[k], steps[k], i) || (steps[k].Refresh? && steps[k].token == i && steps[k].out.Rotated?)
    requires steps[l].Refresh? && steps[l].token == i
    ensures steps[l].out == ReuseDetected
  {
    assert Next(run[k], steps[k], times[k], ttl, run[k + 1]) && Next(run[l], steps[l], times[l], ttl, run[l + 1]);
    if steps[k].Logout? || steps[k].LogoutAll? { LogoutRevokes(run[k], steps[k], times[k], ttl, run[k + 1]); }
    RunKeepsRevoked(run, steps, times, ttl, k + 1, l, i);
  }
}
