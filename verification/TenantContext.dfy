/**
 * Tenant context on pooled database connections: the six `app.*` settings are applied either
 * transaction-scoped (read-write runs) or session-scoped and reset afterwards (read-only runs).
 * Any statement may fail; rollback and cleanup are assumed to succeed, and the callback issues
 * neither transaction control nor settings.
 */
module TenantContext {
  import opened Wrappers

  // ---------------------------------------------------------------- the database session

  datatype Setting = TenantId | UserId | ActorKind | RequestId | IpInet | UserAgent

  // An unset setting reads as the empty string.
  datatype Settings = Settings(tenantId: string, userId: string, actorKind: string,
                               requestId: string, ipInet: string, userAgent: string) {
    function With(key: Setting, value: string): Settings {
      match key
      case TenantId => this.(tenantId := value)
      case UserId => this.(userId := value)
      case ActorKind => this.(actorKind := value)
      case RequestId => this.(requestId := value)
      case IpInet => this.(ipInet := value)
      case UserAgent => this.(userAgent := value)
    }
  }

  const UNSET := Settings("", "", "", "", "", "")

  // `committed` and `rolledBack` are the settings in force once the open transaction ends.
  datatype Transaction = Closed | Open(committed: Settings, rolledBack: Settings) | Aborted(rolledBack: Settings)

  datatype Connection = Connection(tx: Transaction, current: Settings)

  const CLEAN := Connection(Closed, UNSET)

  datatype Statement =
    | Begin
    | Commit
    | Rollback
    | SetConfig(key: Setting, value: string, isLocal: bool)
    | ClearSettings
    | Query

  function RolledBack(c: Connection): Connection {
    if c.tx.Closed? then c else Connection(Closed, c.tx.rolledBack)
  }

  function Execute(c: Connection, s: Statement): Connection {
    match s
    case Begin => if c.tx.Closed? then c.(tx := Open(c.current, c.current)) else c
    case Commit => if c.tx.Open? then Connection(Closed, c.tx.committed) else RolledBack(c)
    case Rollback => RolledBack(c)
    case SetConfig(key, value, isLocal) =>
      (match c.tx
       case Closed => if isLocal then c else c.(current := c.current.With(key, value))
       case Open(committed, rolledBack) =>
         Connection(if isLocal then c.tx else Open(committed.With(key, value), rolledBack), c.current.With(key, value))
       case Aborted(_) => c)
    case ClearSettings => if c.tx.Closed? then c.(current := UNSET) else c
    case Query => c
  }

  // A failing statement never reached the server, was rejected by it, or ran and its reply was lost.
  datatype Fault = Unreached | Rejected | ReplyLost

  function Fail(c: Connection, s: Statement, f: Fault): Connection {
    match f
    case Unreached => c
    case ReplyLost => Execute(c, s)
    case Rejected =>
      if s.Commit? then RolledBack(c)
      else if c.tx.Open? then c.(tx := Aborted(c.tx.rolledBack))
      else c
  }

  // How long a setting lasts: a local one until its transaction ends, either way; one made for the session
  // survives a commit but not a rollback; and once a statement is rejected a commit is a rollback.
  lemma SettingsLast(c: Connection, key: Setting, value: string)
    requires c.tx.Open?
    ensures var own, all := Execute(c, SetConfig(key, value, true)), Execute(c, SetConfig(key, value, false));
            && own.current == all.current == c.current.With(key, value)
            && Execute(own, Commit) == Execute(c, Commit) && Execute(own, Rollback) == Execute(c, Rollback)
            && Execute(all, Commit) == Connection(Closed, c.tx.committed.With(key, value))
            && Execute(all, Rollback) == Execute(c, Rollback) == Connection(Closed, c.tx.rolledBack)
            && Execute(Fail(all, Query, Rejected), Commit) == Execute(c, Rollback)
            && Fail(c, Commit, Rejected) == Execute(c, Rollback)
  {
  }

  // ---------------------------------------------------------------- the context of a run

  datatype Context = Context(tenantId: string, userId: Option<string>, actorKind: Option<string>,
                             requestId: Option<string>, ipInet: Option<string>, userAgent: Option<string>)

  predicate IsHex(c: char) { '0' <= c <= '9' || 'a' <= c <= 'f' || 'A' <= c <= 'F' }

  predicate IsUuid(s: string) {
    && |s| == 36
    && forall i :: 0 <= i < 36 ==>
         if i == 8 || i == 13 || i == 18 || i == 23 then s[i] == '-' else IsHex(s[i])
  }

  predicate AcceptsTenantRun(ctx: Context) {
    && IsUuid(ctx.tenantId)
    && (ctx.userId.Some? ==> IsUuid(ctx.userId.value))
    && (ctx.requestId.Some? ==> IsUuid(ctx.requestId.value))
  }

  function OrEmpty(v: Option<string>): string { if v.Some? then v.value else "" }

  function Printable(s: string): string {
    if s == "" then ""
    else Printable(s[..|s| - 1]) + if ' ' <= s[|s| - 1] <= '~' then [s[|s| - 1]] else ""
  }

  function Truncated(s: string): string { if |s| <= 512 then s else s[..512] }

  function DefaultActor(ctx: Context): string {
    if ctx.actorKind.Some? then ctx.actorKind.value else if OrEmpty(ctx.userId) != "" then "user" else "system"
  }

  // The settings after the statements of a run.
  function Expected(ctx: Context): Settings {
    Settings(ctx.tenantId, OrEmpty(ctx.userId), DefaultActor(ctx),
             OrEmpty(ctx.requestId), OrEmpty(ctx.ipInet), Truncated(Printable(OrEmpty(ctx.userAgent))))
  }

  // What a query of a run is meant to see, said of the context alone: each given value under its setting
  // and nothing under the others; without a kind of actor a user if one is given and the system if not.
  ghost predicate OwnContext(ctx: Context, seen: Settings) {
    && seen.tenantId == ctx.tenantId
    && Reads(ctx.userId, seen.userId) && Reads(ctx.requestId, seen.requestId) && Reads(ctx.ipInet, seen.ipInet)
    && (ctx.actorKind.Some? ==> seen.actorKind == ctx.actorKind.value)
    && (ctx.actorKind.None? ==>
          && (seen.actorKind == "user" <==> ctx.userId.Some? && ctx.userId.value != "")
          && (seen.actorKind == "system" <==> ctx.userId.None? || ctx.userId.value == ""))
    && (ctx.userAgent.None? ==> seen.userAgent == "")
    && (ctx.userAgent.Some? ==> KeepsPrintable(ctx.userAgent.value, seen.userAgent))
  }

  predicate Reads(given: Option<string>, seen: string) {
    match given
    case None => seen == ""
    case Some(value) => seen == value
  }

  // The positions of the printable characters, in order and without omission.
  ghost predicate PrintableAt(given: string, at: seq<nat>) {
    && Increasing(at)
    && (forall k :: 0 <= k < |at| ==> at[k] < |given|)
    && forall i: nat :: i < |given| ==> (i in at <==> ' ' <= given[i] <= '~')
  }

  predicate Increasing(at: seq<nat>) { forall k, l :: 0 <= k < l < |at| ==> at[k] < at[l] }

  // The first 512 printable characters of a text, or all of them if there are fewer.
  ghost predicate KeepsPrintable(given: string, kept: string) {
    exists at: seq<nat> :: PrintableAt(given, at) && KeepsFirst(given, at, kept)
  }

  predicate KeepsFirst(given: string, at: seq<nat>, kept: string)
    requires forall k :: 0 <= k < |at| ==> at[k] < |given|
  {
    && |kept| == (if |at| <= 512 then |at| else 512)
    && forall k :: 0 <= k < |kept| ==> kept[k] == given[at[k]]
  }

  function SetUnlessEmpty(key: Setting, given: Option<string>, value: string, isLocal: bool): seq<Statement> {
    if OrEmpty(given) == "" then [] else [SetConfig(key, value, isLocal)]
  }

  // The settings after the statements every run issues.
  function Required(ctx: Context): Settings {
    Settings(ctx.tenantId, OrEmpty(ctx.userId), DefaultActor(ctx), "", "", "")
  }

  function OptionalStatements(ctx: Context, isLocal: bool): seq<Statement> {
    SetUnlessEmpty(RequestId, ctx.requestId, OrEmpty(ctx.requestId), isLocal)
    + SetUnlessEmpty(IpInet, ctx.ipInet, OrEmpty(ctx.ipInet), isLocal)
    + SetUnlessEmpty(UserAgent, ctx.userAgent, Truncated(Printable(OrEmpty(ctx.userAgent))), isLocal)
  }

  function RequiredStatements(ctx: Context, isLocal: bool): seq<Statement> {
    [SetConfig(TenantId, ctx.tenantId, isLocal),
     SetConfig(ActorKind, DefaultActor(ctx), isLocal),
     SetConfig(UserId, OrEmpty(ctx.userId), isLocal)]
  }

  function ContextStatements(ctx: Context, isLocal: bool): seq<Statement> {
    RequiredStatements(ctx, isLocal) + OptionalStatements(ctx, isLocal)
  }

  function Setup(readOnly: bool, ctx: Context): seq<Statement> {
    if readOnly then ContextStatements(ctx, false) else [Begin] + ContextStatements(ctx, true)
  }

  function ExecuteAll(c: Connection, ss: seq<Statement>): Connection {
    if ss == [] then c else Execute(ExecuteAll(c, ss[..|ss| - 1]), ss[|ss| - 1])
  }

  // ---------------------------------------------------------------- one run on one client

  predicate Faulty(script: seq<Option<Fault>>) { exists i :: 0 <= i < |script| && script[i].Some? }

  function Queries(n: nat): seq<Statement> { seq(n, i => Query) }

  /** A pooled client: `script` says which of its coming statements fail, and how; `issued` lists
      the statements given to it so far. */
  class PoolClient {
    var connection: Connection
    var script: seq<Option<Fault>>
    var issued: seq<Statement>

    constructor ()
      ensures connection == CLEAN && script == [] && issued == []
    {
      connection, script, issued := CLEAN, [], [];
    }

    method Issue(s: Statement) returns (ok: bool)
      modifies this
      ensures ok ==> connection == Execute(old(connection), s)
      ensures !ok ==> exists f :: connection == Fail(old(connection), s, f)
      ensures ok <==> old(script) == [] || old(script)[0] == None
      ensures issued == old(issued) + [s]
      ensures script == if old(script) == [] then [] else old(script)[1..]
      ensures !ok || Faulty(script) ==> Faulty(old(script))
    {
      ok := true;
      issued := issued + [s];
      if script != [] {
        var next := script[0];
        script := script[1..];
        if next.Some? {
          connection := Fail(connection, s, next.value);
          return false;
        }
      }
      connection := Execute(connection, s);
    }

    // Settings keep the transaction's rollback target, whether they succeed or fail.
    ghost predicate Rolls(before: Transaction)
      reads this
    {
      match before
      case Closed => connection.tx == Closed
      case Open(committed, target) => connection.tx == before || connection.tx == Aborted(target)
      case Aborted(target) => connection.tx == before
    }

    method SetConfiguration(key: Setting, value: string, isLocal: bool) returns (ok: bool)
      requires if isLocal then connection.tx.Open? else connection.tx.Closed?
      modifies this
      ensures Rolls(old(connection.tx))
      ensures ok ==> connection == old(connection).(current := old(connection.current).With(key, value))
      ensures ok ==> issued == old(issued) + [SetConfig(key, value, isLocal)]
      ensures !ok || Faulty(script) ==> Faulty(old(script))
    {
      ok := Issue(SetConfig(key, value, isLocal));
    }

    method SetIfGiven(key: Setting, given: Option<string>, value: string, isLocal: bool) returns (ok: bool)
      requires if isLocal then connection.tx.Open? else connection.tx.Closed?
      modifies this
      ensures Rolls(old(connection.tx))
      ensures ok ==> connection == if OrEmpty(given) == "" then old(connection)
                                   else old(connection).(current := old(connection.current).With(key, value))
      ensures ok ==> issued == old(issued) + SetUnlessEmpty(key, given, value, isLocal)
      ensures !ok || Faulty(script) ==> Faulty(old(script))
    {
      ok := true;
      if OrEmpty(given) != "" { ok := SetConfiguration(key, value, isLocal); }
    }

    method ApplyRequired(ctx: Context, isLocal: bool) returns (ok: bool)
      requires if isLocal then connection.tx.Open? else connection.tx.Closed?
      requires connection.current == UNSET
      modifies this
      ensures Rolls(old(connection.tx))
      ensures ok ==> connection == Connection(old(connection.tx), Required(ctx))
      ensures ok ==> issued == old(issued) + RequiredStatements(ctx, isLocal)
      ensures !ok || Faulty(script) ==> Faulty(old(script))
    {
      ok := SetConfiguration(TenantId, ctx.tenantId, isLocal);
      if !ok { return; }
      ok := SetConfiguration(ActorKind, DefaultActor(ctx), isLocal);
      if !ok { return; }
      ok := SetConfiguration(UserId, OrEmpty(ctx.userId), isLocal);
    }

    method ApplyOptionals(ctx: Context, isLocal: bool) returns (ok: bool)
      requires if isLocal then connection.tx.Open? else connection.tx.Closed?
      requires connection.current == Required(ctx)
      modifies this
      ensures Rolls(old(connection.tx))
      ensures ok ==> connection == Connection(old(connection.tx), Expected(ctx))
      ensures ok ==> issued == old(issued) + OptionalStatements(ctx, isLocal)
      ensures !ok || Faulty(script) ==> Faulty(old(script))
    {
      ok := SetIfGiven(RequestId, ctx.requestId, OrEmpty(ctx.requestId), isLocal);
      if !ok { return; }
      ok := SetIfGiven(IpInet, ctx.ipInet, OrEmpty(ctx.ipInet), isLocal);
      if !ok { return; }
      ok := SetIfGiven(UserAgent, ctx.userAgent, Truncated(Printable(OrEmpty(ctx.userAgent))), isLocal);
    }

    method ApplyContext(ctx: Context, isLocal: bool) returns (ok: bool)
      requires if isLocal then connection.tx.Open? else connection.tx.Closed?
      requires connection.current == UNSET
      modifies this
      ensures Rolls(old(connection.tx))
      ensures ok ==> connection == Connection(old(connection.tx), Expected(ctx))
      ensures ok ==> issued == old(issued) + ContextStatements(ctx, isLocal)
      ensures !ok || Faulty(script) ==> Faulty(old(script))
    {
      ok := ApplyRequired(ctx, isLocal);
      if !ok { return; }
      ok := ApplyOptionals(ctx, isLocal);
    }

    // The callback: `queries` statements, the first failing one ends it, then it throws or returns.
    // `seen` lists the settings in force at each statement that ran.
    method RunCallback(queries: nat, throws: bool) returns (ok: bool, seen: seq<Settings>)
      modifies this
      ensures Rolls(old(connection.tx)) && connection.current == old(connection.current)
      ensures ok ==> connection == old(connection) && !throws && |seen| == queries
      ensures ok ==> issued == old(issued) + Queries(queries)
      ensures (!ok && !throws) || Faulty(script) ==> Faulty(old(script))
      ensures forall i :: 0 <= i < |seen| ==> seen[i] == old(connection.current)
    {
      seen := [];
      while |seen| < queries
        invariant connection == old(connection) && |seen| <= queries
        invariant issued == old(issued) + Queries(|seen|) && (Faulty(script) ==> Faulty(old(script)))
        invariant forall i :: 0 <= i < |seen| ==> seen[i] == old(connection.current)
      {
        ok := Issue(Query);
        if !ok { return; }
        assert Queries(|seen| + 1) == Queries(|seen|) + [Query];
        seen := seen + [connection.current];
      }
      ok := !throws;
    }

    // The transaction up to its commit; a failure is left to the caller.
    method Transact(ctx: Context, queries: nat, throws: bool) returns (ok: bool, seen: seq<Settings>)
      requires connection == CLEAN
      modifies this
      ensures RolledBack(connection) == CLEAN
      ensures forall i :: 0 <= i < |seen| ==> seen[i] == Expected(ctx)
      ensures ok ==> connection == CLEAN && |seen| == queries && !throws
      ensures ok ==> issued == old(issued) + Setup(false, ctx) + Queries(queries) + [Commit]
      ensures !ok ==> throws || Faulty(old(script))
    {
      seen := [];
      ok := Issue(Begin);
      if !ok { return; }
      ok := ApplyContext(ctx, true);
      if !ok { return; }
      assert issued == old(issued) + Setup(false, ctx);
      ok, seen := RunCallback(queries, throws);
      if !ok { return; }
      ok := Issue(Commit);
    }

    method WithTenantContext(ctx: Context, queries: nat, throws: bool) returns (ok: bool, seen: seq<Settings>)
      requires connection == CLEAN
      modifies this
      ensures connection == CLEAN
      ensures forall i :: 0 <= i < |seen| ==> OwnContext(ctx, seen[i])
      ensures ok ==> AcceptsTenantRun(ctx) && !throws && |seen| == queries
      ensures AcceptsTenantRun(ctx) <==>
                IsUuid(ctx.tenantId) && forall id :: id in {ctx.userId, ctx.requestId} && id.Some? ==> IsUuid(id.value)
      ensures ok ==> issued == old(issued) + Setup(false, ctx) + Queries(queries) + [Commit]
      ensures !ok && AcceptsTenantRun(ctx)
              ==> (throws || Faulty(old(script))) && issued != [] && issued[|issued| - 1] == Rollback
      ensures !AcceptsTenantRun(ctx) ==> issued == old(issued)
    {
      seen := [];
      if !AcceptsTenantRun(ctx) { return false, seen; }
      ok, seen := Transact(ctx, queries, throws);
      ExpectedIsOwn(ctx);
      if !ok {
        connection, issued := Execute(connection, Rollback), issued + [Rollback];
      }
    }

    method WithReadOnlyTenantContext(ctx: Context, queries: nat, throws: bool) returns (ok: bool, seen: seq<Settings>)
      requires connection == CLEAN
      modifies this
      ensures connection == CLEAN
      ensures forall i :: 0 <= i < |seen| ==> OwnContext(ctx, seen[i])
      ensures ok ==> IsUuid(ctx.tenantId) && !throws && |seen| == queries
      ensures ok ==> issued == old(issued) + Setup(true, ctx) + Queries(queries) + [ClearSettings]
      ensures !ok && IsUuid(ctx.tenantId) ==>
                (throws || Faulty(old(script))) && issued != [] && issued[|issued| - 1] == ClearSettings
      ensures !IsUuid(ctx.tenantId) ==> issued == old(issued)
    {
      seen := [];
      if !IsUuid(ctx.tenantId) { return false, seen; }
      ok := ApplyContext(ctx, false);
      ExpectedIsOwn(ctx);
      if ok { ok, seen := RunCallback(queries, throws); }
      connection, issued := Execute(connection, ClearSettings), issued + [ClearSettings];
    }
  }

  // ---------------------------------------------------------------- what the settings mean

  lemma PositionAdded(s: string, at: seq<nat>)
    requires s != "" && PrintableAt(s[..|s| - 1], at)
    ensures PrintableAt(s, if ' ' <= s[|s| - 1] <= '~' then at + [|s| - 1] else at)
  {
    var n := |s| - 1;
    var more := if ' ' <= s[n] <= '~' then at + [n] else at;
    forall i: nat | i < |s| ensures i in more <==> ' ' <= s[i] <= '~' {
      if i < n { assert s[..n][i] == s[i]; }
    }
  }

  // The kept characters stand at the listed positions.
  predicate Spells(s: string, at: seq<nat>, kept: string) {
    |kept| == |at| && forall k :: 0 <= k < |at| ==> at[k] < |s| && kept[k] == s[at[k]]
  }

  lemma SpellsMore(s: string, at: seq<nat>, kept: string)
    requires s != "" && Spells(s[..|s| - 1], at, kept)
    ensures Spells(s, at, kept) && Spells(s, at + [|s| - 1], kept + [s[|s| - 1]])
  {
  }

  lemma {:induction false} PrintablePositions(s: string) returns (at: seq<nat>)
    ensures PrintableAt(s, at) && Spells(s, at, Printable(s))
  {
    if s == "" {
      at := [];
    } else {
      var n := |s| - 1;
      at := PrintablePositions(s[..n]);
      PositionAdded(s, at);
      SpellsMore(s, at, Printable(s[..n]));
      if ' ' <= s[n] <= '~' { at := at + [n]; }
    }
  }

  lemma FirstIsIn(at: seq<nat>)
    requires at != []
    ensures at[0] in at
  {
  }

  lemma {:induction false} PositionsAreUnique(a: seq<nat>, b: seq<nat>)
    requires Increasing(a) && Increasing(b) && forall i: nat :: i in a <==> i in b
    ensures a == b
  {
    if a == [] {
      if b != [] {
        FirstIsIn(b);
        assert false;
      }
    } else {
      assert a[|a| - 1] in b;
      var m, n := |a| - 1, |b| - 1;
      assert b[n] in a && a[m] == b[n];
      forall i: nat ensures i in a[..m] <==> i in b[..n] {
        assert i in a[..m] <==> i in a && i != a[m];
        assert i in b[..n] <==> i in b && i != b[n];
      }
      PositionsAreUnique(a[..m], b[..n]);
    }
  }

  // The statements leave what a query is meant to see.
  lemma ExpectedIsOwn(ctx: Context)
    ensures OwnContext(ctx, Expected(ctx))
  {
    if ctx.userAgent.Some? { AgentIsKept(ctx.userAgent.value); }
  }

  lemma AgentIsKept(given: string)
    ensures KeepsPrintable(given, Truncated(Printable(given)))
  {
    var at := PrintablePositions(given);
    assert KeepsFirst(given, at, Truncated(Printable(given)));
  }

  // What a query is meant to see is determined by the context.
  lemma OwnContextIsUnique(ctx: Context, seen: Settings)
    requires OwnContext(ctx, seen)
    ensures seen == Expected(ctx)
  {
    if ctx.userAgent.Some? {
      var given := ctx.userAgent.value;
      var at := PrintablePositions(given);
      var b: seq<nat> :| PrintableAt(given, b) && KeepsFirst(given, b, seen.userAgent);
      PositionsAreUnique(at, b);
    }
  }

  const HEX_DIGITS := "0123456789abcdefABCDEF"

  lemma HexIs(c: char)
    ensures IsHex(c) <==> c in HEX_DIGITS
  {
    if '0' <= c <= '9' { assert HEX_DIGITS[c as int - '0' as int] == c; }
    if 'a' <= c <= 'f' { assert HEX_DIGITS[10 + c as int - 'a' as int] == c; }
    if 'A' <= c <= 'F' { assert HEX_DIGITS[16 + c as int - 'A' as int] == c; }
  }

  ghost predicate Group(s: string, n: nat) { |s| == n && forall i :: 0 <= i < n ==> s[i] in HEX_DIGITS }

  lemma SliceIsGroup(s: string, from: nat, n: nat)
    requires from + n <= |s|
    ensures Group(s[from..from + n], n) <==> forall i :: from <= i < from + n ==> IsHex(s[i])
  {
    forall i | from <= i < from + n ensures IsHex(s[i]) <==> s[from..from + n][i - from] in HEX_DIGITS { HexIs(s[i]); }
    if Group(s[from..from + n], n) {
      forall i | from <= i < from + n ensures IsHex(s[i]) { assert s[from..from + n][i - from] in HEX_DIGITS; }
    }
  }

  // The test every run makes of its ids: five groups of hexadecimal digits, of 8, 4, 4, 4 and 12, joined
  // by hyphens.
  lemma UuidIsFiveGroups(s: string)
    ensures IsUuid(s) <==>
            && |s| == 36 && s[8..9] == s[13..14] == s[18..19] == s[23..24] == "-"
            && Group(s[0..8], 8) && Group(s[9..13], 4) && Group(s[14..18], 4) && Group(s[19..23], 4)
            && Group(s[24..36], 12)
  {
    if |s| == 36 {
      SliceIsGroup(s, 0, 8);
      SliceIsGroup(s, 9, 4);
      SliceIsGroup(s, 14, 4);
      SliceIsGroup(s, 19, 4);
      SliceIsGroup(s, 24, 12);
    }
  }

  // ---------------------------------------------------------------- many runs over one pool

  datatype Phase = Preparing(done: nat) | Body | RollingBack | Cleaning | Released

  datatype Run = Run(client: nat, readOnly: bool, ctx: Context, phase: Phase)

  datatype Pool = Pool(connections: seq<Connection>, runs: seq<Run>)

  // What a run does next; a `fault` is the failure of the statement it issues.
  datatype Action =
    | Prepare(fault: Option<Fault>)
    | BodyQuery(fault: Option<Fault>, caught: bool)
    | BodyThrow
    | BodyReturn(fault: Option<Fault>)
    | Recover

  datatype Event = Acquire(run: Run) | Act(i: nat, action: Action)

  ghost predicate IdleClient(p: Pool, c: int) {
    forall i :: 0 <= i < |p.runs| && p.runs[i].client == c ==> p.runs[i].phase.Released?
  }

  function AfterFailure(run: Run): Phase { if run.readOnly then Cleaning else RollingBack }

  function Attempted(c: Connection, s: Statement, fault: Option<Fault>): Connection {
    if fault.Some? then Fail(c, s, fault.value) else Execute(c, s)
  }

  function Prepared(run: Run, done: nat): Phase {
    if done == |Setup(run.readOnly, run.ctx)| then Body else Preparing(done)
  }

  // One action of a run on the connection it holds. No query runs in an aborted transaction.
  ghost predicate RunStep(run: Run, c: Connection, a: Action, c': Connection, phase: Phase) {
    match a
    case Prepare(fault) =>
      && run.phase.Preparing? && run.phase.done < |Setup(run.readOnly, run.ctx)|
      && c' == Attempted(c, Setup(run.readOnly, run.ctx)[run.phase.done], fault)
      && phase == if fault.Some? then AfterFailure(run) else Prepared(run, run.phase.done + 1)
    case BodyQuery(fault, caught) =>
      && run.phase.Body? && (c.tx.Aborted? ==> fault.Some?)
      && c' == Attempted(c, Query, fault)
      && phase == if fault.Some? && !caught then AfterFailure(run) else Body
    case BodyThrow =>
      run.phase.Body? && c' == c && phase == AfterFailure(run)
    case BodyReturn(fault) =>
      && run.phase.Body?
      && (if run.readOnly then c' == c && phase == Cleaning
          else c' == Attempted(c, Commit, fault) && phase == if fault.Some? then RollingBack else Released)
    case Recover =>
      && (run.phase.RollingBack? || run.phase.Cleaning?)
      && c' == Execute(c, if run.phase.RollingBack? then Rollback else ClearSettings)
      && phase == Released
  }

  ghost predicate Next(p: Pool, e: Event, p': Pool) {
    match e
    case Acquire(run) =>
      && run.client < |p.connections| && IdleClient(p, run.client)
      && (if run.readOnly then IsUuid(run.ctx.tenantId) else AcceptsTenantRun(run.ctx))
      && run.phase == Preparing(0)
      && p' == p.(runs := p.runs + [run])
    case Act(i, action) =>
      && i < |p.runs| && p.runs[i].client < |p.connections|
      && exists c: Connection, phase: Phase ::
           && RunStep(p.runs[i], p.connections[p.runs[i].client], action, c, phase)
           && p' == Pool(p.connections[p.runs[i].client := c], p.runs[i := p.runs[i].(phase := phase)])
  }

  // What a connection looks like in each phase of the run that holds it.
  ghost predicate HeldOk(run: Run, c: Connection) {
    match run.phase
    case Preparing(done) =>
      && done < |Setup(run.readOnly, run.ctx)|
      && c == ExecuteAll(CLEAN, Setup(run.readOnly, run.ctx)[..done])
    case Body =>
      if run.readOnly then c == Connection(Closed, Expected(run.ctx))
      else c == Connection(Open(UNSET, UNSET), Expected(run.ctx)) || c == Connection(Aborted(UNSET), Expected(run.ctx))
    case RollingBack => !run.readOnly && RolledBack(c) == CLEAN
    case Cleaning => run.readOnly && c.tx == Closed
    case Released => true
  }

  ghost predicate Inv(p: Pool) {
    && (forall i :: 0 <= i < |p.runs| ==> p.runs[i].client < |p.connections|)
    && (forall i :: 0 <= i < |p.runs| ==> HeldOk(p.runs[i], p.connections[p.runs[i].client]))
    && (forall i, j :: 0 <= i < j < |p.runs| && p.runs[i].client == p.runs[j].client
                       ==> p.runs[i].phase.Released? || p.runs[j].phase.Released?)
    && (forall c: nat :: c < |p.connections| && IdleClient(p, c) ==> p.connections[c] == CLEAN)
  }

  lemma {:induction false} SetupPrefix(readOnly: bool, ctx: Context, n: nat)
    requires n <= |Setup(readOnly, ctx)|
    ensures var c := ExecuteAll(CLEAN, Setup(readOnly, ctx)[..n]);
            if readOnly then c.tx == Closed
            else if n == 0 then c == CLEAN else c.tx == Open(UNSET, UNSET)
  {
    var ss := Setup(readOnly, ctx);
    if n > 0 {
      SetupPrefix(readOnly, ctx, n - 1);
      assert ss[..n][..n - 1] == ss[..n - 1];
      SetupKinds(readOnly, ctx, n - 1);
    }
  }

  lemma {:induction false} ExecuteAllAppend(c: Connection, ss: seq<Statement>, tt: seq<Statement>)
    ensures ExecuteAll(c, ss + tt) == ExecuteAll(ExecuteAll(c, ss), tt)
  {
    if tt == [] {
      assert ss + tt == ss;
    } else {
      ExecuteAllAppend(c, ss, tt[..|tt| - 1]);
      assert (ss + tt)[..|ss + tt| - 1] == ss + tt[..|tt| - 1];
    }
  }

  lemma SetOne(c: Connection, s: Statement)
    ensures ExecuteAll(c, [s]) == Execute(c, s)
  {
    assert [s][..0] == [];
  }

  lemma SetThree(c: Connection, s1: Statement, s2: Statement, s3: Statement)
    ensures ExecuteAll(c, [s1, s2, s3]) == Execute(Execute(Execute(c, s1), s2), s3)
  {
    assert [s1, s2, s3][..2] == [s1, s2] && [s1, s2][..1] == [s1];
    SetOne(c, s1);
  }

  lemma SetOptional(c: Connection, key: Setting, given: Option<string>, value: string, isLocal: bool)
    requires if isLocal then c.tx.Open? else c.tx.Closed?
    ensures ExecuteAll(c, SetUnlessEmpty(key, given, value, isLocal))
         == if OrEmpty(given) == "" then c else c.(current := c.current.With(key, value))
  {
    if OrEmpty(given) != "" { SetOne(c, SetConfig(key, value, isLocal)); }
  }

  lemma ExecuteParts(c: Connection, a: seq<Statement>, b: seq<Statement>, d: seq<Statement>, e: seq<Statement>)
    ensures ExecuteAll(c, a + (b + d + e)) == ExecuteAll(ExecuteAll(ExecuteAll(ExecuteAll(c, a), b), d), e)
  {
    ExecuteAllAppend(c, a, b + d + e);
    ExecuteAllAppend(ExecuteAll(c, a), b + d, e);
    ExecuteAllAppend(ExecuteAll(c, a), b, d);
  }

  lemma SetOptionals(c: Connection, ctx: Context, agent: string, isLocal: bool)
    requires if isLocal then c.tx.Open? else c.tx.Closed?
    requires c.current.requestId == c.current.ipInet == c.current.userAgent == ""
    requires OrEmpty(ctx.userAgent) == "" ==> agent == ""
    ensures var c1 := ExecuteAll(c, SetUnlessEmpty(RequestId, ctx.requestId, OrEmpty(ctx.requestId), isLocal));
            var c2 := ExecuteAll(c1, SetUnlessEmpty(IpInet, ctx.ipInet, OrEmpty(ctx.ipInet), isLocal));
            ExecuteAll(c2, SetUnlessEmpty(UserAgent, ctx.userAgent, agent, isLocal))
            == c.(current := c.current.(requestId := OrEmpty(ctx.requestId), ipInet := OrEmpty(ctx.ipInet),
                                        userAgent := agent))
  {
    SetOptional(c, RequestId, ctx.requestId, OrEmpty(ctx.requestId), isLocal);
    var c1 := c.(current := c.current.(requestId := OrEmpty(ctx.requestId)));
    SetOptional(c1, IpInet, ctx.ipInet, OrEmpty(ctx.ipInet), isLocal);
    var c2 := c1.(current := c1.current.(ipInet := OrEmpty(ctx.ipInet)));
    SetOptional(c2, UserAgent, ctx.userAgent, agent, isLocal);
  }

  // The settings statements turn unset settings into exactly the context's own.
  lemma ContextStatementsYield(c: Connection, ctx: Context, isLocal: bool)
    requires (if isLocal then c.tx.Open? else c.tx.Closed?) && c.current == UNSET
    ensures ExecuteAll(c, ContextStatements(ctx, isLocal)) == c.(current := Expected(ctx))
  {
    var s1 := SetConfig(TenantId, ctx.tenantId, isLocal);
    var s2 := SetConfig(ActorKind, DefaultActor(ctx), isLocal);
    var s3 := SetConfig(UserId, OrEmpty(ctx.userId), isLocal);
    var agent := Truncated(Printable(OrEmpty(ctx.userAgent)));
    ExecuteParts(c, [s1, s2, s3],
                 SetUnlessEmpty(RequestId, ctx.requestId, OrEmpty(ctx.requestId), isLocal),
                 SetUnlessEmpty(IpInet, ctx.ipInet, OrEmpty(ctx.ipInet), isLocal),
                 SetUnlessEmpty(UserAgent, ctx.userAgent, agent, isLocal));
    SetThree(c, s1, s2, s3);
    SetOptionals(Execute(Execute(Execute(c, s1), s2), s3), ctx, agent, isLocal);
  }

  // Once the whole setup has run, the settings are exactly the run's own.
  lemma SetupYieldsContext(readOnly: bool, ctx: Context)
    ensures ExecuteAll(CLEAN, Setup(readOnly, ctx))
         == Connection(if readOnly then Closed else Open(UNSET, UNSET), Expected(ctx))
    ensures OwnContext(ctx, ExecuteAll(CLEAN, Setup(readOnly, ctx)).current)
  {
    ExpectedIsOwn(ctx);
    if readOnly {
      ContextStatementsYield(CLEAN, ctx, false);
    } else {
      ExecuteAllAppend(CLEAN, [Begin], ContextStatements(ctx, true));
      SetOne(CLEAN, Begin);
      ContextStatementsYield(Execute(CLEAN, Begin), ctx, true);
    }
  }

  lemma SetupKinds(readOnly: bool, ctx: Context, n: nat)
    requires n < |Setup(readOnly, ctx)|
    ensures var s := Setup(readOnly, ctx)[n];
            if n == 0 && !readOnly then s == Begin else s.SetConfig? && s.isLocal == !readOnly
  {
    ContextSets(ctx, !readOnly);
    var ss := ContextStatements(ctx, !readOnly);
    assert Setup(readOnly, ctx) == (if readOnly then [] else [Begin]) + ss;
    if readOnly { assert Setup(readOnly, ctx)[n] == ss[n]; }
    if !readOnly && n > 0 { assert Setup(readOnly, ctx)[n] == ss[n - 1]; }
  }

  predicate AllSet(ss: seq<Statement>, isLocal: bool) {
    forall i :: 0 <= i < |ss| ==> ss[i].SetConfig? && ss[i].isLocal == isLocal
  }

  lemma AllSetConcat(a: seq<Statement>, b: seq<Statement>, isLocal: bool)
    requires AllSet(a, isLocal) && AllSet(b, isLocal)
    ensures AllSet(a + b, isLocal)
  {
  }

  lemma ContextSets(ctx: Context, isLocal: bool)
    ensures AllSet(ContextStatements(ctx, isLocal), isLocal)
  {
    var a := SetUnlessEmpty(RequestId, ctx.requestId, OrEmpty(ctx.requestId), isLocal);
    var b := SetUnlessEmpty(IpInet, ctx.ipInet, OrEmpty(ctx.ipInet), isLocal);
    var c := SetUnlessEmpty(UserAgent, ctx.userAgent, Truncated(Printable(OrEmpty(ctx.userAgent))), isLocal);
    AllSetConcat(a, b, isLocal);
    AllSetConcat(a + b, c, isLocal);
    AllSetConcat(RequiredStatements(ctx, isLocal), a + b + c, isLocal);
  }

  lemma PrepareFails(run: Run, c: Connection, s: Statement, fault: Fault)
    requires if run.readOnly then c.tx == Closed else c == CLEAN || c.tx == Open(UNSET, UNSET)
    requires if s == Begin then !run.readOnly
             else s.SetConfig? && s.isLocal == !run.readOnly && (c == CLEAN ==> run.readOnly)
    ensures HeldOk(run.(phase := AfterFailure(run)), Fail(c, s, fault))
  {
  }

  lemma PrepareKeepsShape(run: Run, c: Connection, fault: Option<Fault>, c': Connection, phase: Phase)
    requires HeldOk(run, c) && RunStep(run, c, Prepare(fault), c', phase)
    ensures HeldOk(run.(phase := phase), c')
  {
    var ss := Setup(run.readOnly, run.ctx);
    var n := run.phase.done;
    SetupPrefix(run.readOnly, run.ctx, n);
    SetupKinds(run.readOnly, run.ctx, n);
    if fault.Some? {
      PrepareFails(run, c, ss[n], fault.value);
    } else {
      ExecuteNext(CLEAN, ss, n);
      if n + 1 == |ss| { SetupYieldsContext(run.readOnly, run.ctx); }
    }
  }

  lemma ExecuteNext(c: Connection, ss: seq<Statement>, n: nat)
    requires n < |ss|
    ensures ExecuteAll(c, ss[..n + 1]) == Execute(ExecuteAll(c, ss[..n]), ss[n])
    ensures n + 1 == |ss| ==> ExecuteAll(c, ss[..n + 1]) == ExecuteAll(c, ss)
  {
    assert ss[..n + 1][..n] == ss[..n];
    assert n + 1 == |ss| ==> ss[..n + 1] == ss;
  }

  // One action keeps the shape of the connection its run holds, and leaves it clean on release.
  lemma RunStepKeepsShape(run: Run, c: Connection, a: Action, c': Connection, phase: Phase)
    requires HeldOk(run, c) && RunStep(run, c, a, c', phase)
    ensures HeldOk(run.(phase := phase), c') && (phase.Released? ==> c' == CLEAN) && !run.phase.Released?
  {
    if a.Prepare? { PrepareKeepsShape(run, c, a.fault, c', phase); }
  }

  lemma AcquireKeepsInv(p: Pool, run: Run)
    requires Inv(p) && run.client < |p.connections| && IdleClient(p, run.client) && run.phase == Preparing(0)
    ensures Inv(p.(runs := p.runs + [run]))
  {
    var p', n := p.(runs := p.runs + [run]), |p.runs|;
    forall i | 0 <= i < |p'.runs| ensures HeldOk(p'.runs[i], p'.connections[p'.runs[i].client]) {
      if i == n { FreshIsHeld(run); } else { assert p'.runs[i] == p.runs[i]; }
    }
    forall i, j | 0 <= i < j < |p'.runs| && p'.runs[i].client == p'.runs[j].client
      ensures p'.runs[i].phase.Released? || p'.runs[j].phase.Released?
    {
      assert p'.runs[i] == p.runs[i];
      if j < n { assert p'.runs[j] == p.runs[j]; }
    }
    IdleBefore(p, run);
  }

  lemma FreshIsHeld(run: Run)
    requires run.phase == Preparing(0)
    ensures HeldOk(run, CLEAN)
  {
    assert Setup(run.readOnly, run.ctx)[..0] == [];
  }

  lemma IdleBefore(p: Pool, run: Run)
    requires forall c: nat :: c < |p.connections| && IdleClient(p, c) ==> p.connections[c] == CLEAN
    ensures var p' := p.(runs := p.runs + [run]);
            forall c: nat :: c < |p'.connections| && IdleClient(p', c) ==> p'.connections[c] == CLEAN
  {
    var p' := p.(runs := p.runs + [run]);
    forall c: nat | c < |p'.connections| && IdleClient(p', c) ensures p'.connections[c] == CLEAN {
      assert forall i :: 0 <= i < |p.runs| ==> p'.runs[i] == p.runs[i];
      assert IdleClient(p, c);
    }
  }

  lemma ActKeepsInv(p: Pool, i: nat, a: Action, c: Connection, phase: Phase)
    requires Inv(p) && i < |p.runs| && p.runs[i].client < |p.connections|
    requires RunStep(p.runs[i], p.connections[p.runs[i].client], a, c, phase)
    ensures Inv(Pool(p.connections[p.runs[i].client := c], p.runs[i := p.runs[i].(phase := phase)]))
  {
    var run, client := p.runs[i], p.runs[i].client;
    var p' := Pool(p.connections[client := c], p.runs[i := run.(phase := phase)]);
    RunStepKeepsShape(run, p.connections[client], a, c, phase);
    ActKeepsIdle(p, i, c, phase);
    forall j | 0 <= j < |p'.runs| ensures HeldOk(p'.runs[j], p'.connections[p'.runs[j].client]) {
      if j != i { OthersStayOk(p, i, c, j); }
    }
  }

  lemma OthersStayOk(p: Pool, i: nat, c: Connection, j: nat)
    requires Inv(p) && i < |p.runs| && j < |p.runs| && i != j && !p.runs[i].phase.Released?
    ensures HeldOk(p.runs[j], p.connections[p.runs[i].client := c][p.runs[j].client])
  {
    assert HeldOk(p.runs[j], p.connections[p.runs[j].client]);
    if p.runs[j].client == p.runs[i].client {
      assert p.runs[j].phase.Released?;
    }
  }

  lemma ActKeepsIdle(p: Pool, i: nat, c: Connection, phase: Phase)
    requires Inv(p) && i < |p.runs| && p.runs[i].client < |p.connections| && (phase.Released? ==> c == CLEAN)
    ensures var p' := Pool(p.connections[p.runs[i].client := c], p.runs[i := p.runs[i].(phase := phase)]);
            forall d: nat :: d < |p'.connections| && IdleClient(p', d) ==> p'.connections[d] == CLEAN
  {
    var client := p.runs[i].client;
    var p' := Pool(p.connections[client := c], p.runs[i := p.runs[i].(phase := phase)]);
    forall d: nat | d < |p'.connections| && IdleClient(p', d) ensures p'.connections[d] == CLEAN {
      if d == client {
        assert p'.runs[i].phase.Released?;
      } else {
        assert forall j :: 0 <= j < |p.runs| && j != i ==> p'.runs[j] == p.runs[j];
        assert IdleClient(p, d);
      }
    }
  }

  lemma NextKeepsInv(p: Pool, e: Event, p': Pool)
    requires Inv(p) && Next(p, e, p')
    ensures Inv(p')
  {
    match e
    case Acquire(run) => AcquireKeepsInv(p, run);
    case Act(i, a) =>
      var c: Connection, phase: Phase :|
        && RunStep(p.runs[i], p.connections[p.runs[i].client], a, c, phase)
        && p' == Pool(p.connections[p.runs[i].client := c], p.runs[i := p.runs[i].(phase := phase)]);
      ActKeepsInv(p, i, a, c, phase);
  }

  ghost predicate IsHistory(states: seq<Pool>, events: seq<Event>) {
    && |states| == |events| + 1
    && states[0].runs == [] && (forall c :: 0 <= c < |states[0].connections| ==> states[0].connections[c] == CLEAN)
    && forall k :: 0 <= k < |events| ==> Next(states[k], events[k], states[k + 1])
  }

  lemma {:induction false} HistoryKeepsInv(states: seq<Pool>, events: seq<Event>, k: nat)
    requires IsHistory(states, events) && k < |states|
    ensures Inv(states[k])
  {
    if k > 0 {
      HistoryKeepsInv(states, events, k - 1);
      NextKeepsInv(states[k - 1], events[k - 1], states[k]);
    }
  }

  // Whatever runs interleave and whatever statements fail: an idle client has no open transaction
  // and no setting, no two active runs share a client, and a query that runs inside a callback sees
  // exactly the context of its own run.
  lemma Isolation(states: seq<Pool>, events: seq<Event>, k: nat)
    requires IsHistory(states, events) && k < |states|
    ensures forall c: nat | c < |states[k].connections| && IdleClient(states[k], c) :: states[k].connections[c] == CLEAN
    ensures forall i, j | 0 <= i < j < |states[k].runs| && states[k].runs[i].client == states[k].runs[j].client
              :: states[k].runs[i].phase.Released? || states[k].runs[j].phase.Released?
    ensures k < |events| && events[k].Act? && events[k].action.BodyQuery? && events[k].action.fault.None? ==>
              SeesOwnContext(states[k], events[k].i)
  {
    HistoryKeepsInv(states, events, k);
    if k < |events| {
      assert Next(states[k], events[k], states[k + 1]);
      if events[k].Act? && events[k].i < |states[k].runs| { ExpectedIsOwn(states[k].runs[events[k].i].ctx); }
    }
  }

  ghost predicate SeesOwnContext(p: Pool, i: nat) {
    && i < |p.runs| && p.runs[i].client < |p.connections|
    && OwnContext(p.runs[i].ctx, p.connections[p.runs[i].client].current)
  }

  // The assumption that cleanup succeeds is needed: without it a read-only run that got past its
  // first statement leaves its tenant in the settings of a recycled client, and only then.
  lemma FailedCleanupLeaks(ctx: Context, n: nat)
    requires IsUuid(ctx.tenantId) && n <= |Setup(true, ctx)|
    ensures ExecuteAll(CLEAN, Setup(true, ctx)[..n]) == CLEAN <==> n == 0
  {
    if n > 0 { TenantStays(ctx, n); }
  }

  lemma TenantSetOnce(ctx: Context, n: nat)
    requires 0 < n < |Setup(true, ctx)|
    ensures Setup(true, ctx)[n].SetConfig? && Setup(true, ctx)[n].key != TenantId
  {
  }

  lemma {:induction false} OthersKeepTenant(c: Connection, ss: seq<Statement>)
    requires forall i :: 0 <= i < |ss| ==> ss[i].SetConfig? && ss[i].key != TenantId
    ensures ExecuteAll(c, ss).current.tenantId == c.current.tenantId
  {
    if ss != [] { OthersKeepTenant(c, ss[..|ss| - 1]); }
  }

  lemma OthersInSetup(ctx: Context, n: nat)
    requires 0 < n <= |Setup(true, ctx)|
    ensures var rest := Setup(true, ctx)[1..n];
            forall i :: 0 <= i < |rest| ==> rest[i].SetConfig? && rest[i].key != TenantId
  {
    var ss := Setup(true, ctx);
    forall i | 0 <= i < n - 1 ensures ss[1..n][i].SetConfig? && ss[1..n][i].key != TenantId {
      TenantSetOnce(ctx, i + 1);
    }
  }

  lemma TenantStays(ctx: Context, n: nat)
    requires 0 < n <= |Setup(true, ctx)|
    ensures ExecuteAll(CLEAN, Setup(true, ctx)[..n]).current.tenantId == ctx.tenantId
  {
    var ss := Setup(true, ctx);
    OthersInSetup(ctx, n);
    assert ss[..n] == [ss[0]] + ss[1..n];
    ExecuteAllAppend(CLEAN, [ss[0]], ss[1..n]);
    SetOne(CLEAN, ss[0]);
    OthersKeepTenant(Execute(CLEAN, ss[0]), ss[1..n]);
  }
}
