/**
 * The per-tenant hash chain of audit events: how the insert trigger extends it and how `verifyChain`
 * re-derives it. The digest is a parameter, idealised as collision-free with non-empty hexadecimal
 * output; hashes are kept in their hexadecimal form.
 */
module AuditChain {
  import opened Wrappers

  // The hashed fields, as text; an absent optional field is the empty string.
  datatype Content = Content(id: string, tenant: string, actorKind: string, actorId: string, operation: string,
                             resourceKind: string, resourceId: string, dataClass: string, occurredAtText: string)

  datatype Event = Event(content: Content, occurredAt: int, previousHash: Option<string>, eventHash: string)

  type Digest = string -> string

  // ---------------------------------------------------------------- the canonical text

  function Join(parts: seq<string>): string {
    if parts == [] then "" else if |parts| == 1 then parts[0] else parts[0] + "|" + Join(parts[1..])
  }

  function Parts(c: Content, prevHex: string): seq<string> {
    [c.id, c.tenant, c.actorKind, c.actorId, c.operation, c.resourceKind, c.resourceId, c.dataClass, c.occurredAtText,
     prevHex]
  }

  function ComputeHash(h: Digest, c: Content, prevHex: string): string {
    h(Join(Parts(c, prevHex)))
  }

  // ---------------------------------------------------------------- the recipe of the insert trigger

  // An event as the table holds it, with its nullable columns.
  datatype Columns = Columns(id: string, tenant: string, actorKind: string, actorId: Option<string>,
                             operation: string, resourceKind: string, resourceId: Option<string>,
                             dataClass: Option<string>, occurredAtText: string)

  function Coalesce(v: Option<string>): string { if v.Some? then v.value else "" }

  // Absent arguments are skipped, separator and all; `first` says that nothing has been written yet.
  function ConcatWs(parts: seq<Option<string>>, first: bool): string {
    if parts == [] then ""
    else if parts[0].None? then ConcatWs(parts[1..], first)
    else (if first then "" else "|") + parts[0].value + ConcatWs(parts[1..], false)
  }

  function TriggerParts(r: Columns, prevHash: Option<string>): seq<Option<string>> {
    [Some(r.id), Some(r.tenant), Some(r.actorKind), Some(Coalesce(r.actorId)), Some(r.operation),
     Some(r.resourceKind), Some(Coalesce(r.resourceId)), Some(Coalesce(r.dataClass)), Some(r.occurredAtText),
     Some(Coalesce(prevHash))]
  }

  // The trigger joins in SQL what the service joins from a row with its nulls read as empty texts.
  lemma RecipesAgree(r: Columns, prevHash: Option<string>)
    ensures ConcatWs(TriggerParts(r, prevHash), true)
         == Join(Parts(Content(r.id, r.tenant, r.actorKind, Coalesce(r.actorId), r.operation, r.resourceKind,
                               Coalesce(r.resourceId), Coalesce(r.dataClass), r.occurredAtText), Hex(prevHash)))
  {
    var c := Content(r.id, r.tenant, r.actorKind, Coalesce(r.actorId), r.operation, r.resourceKind,
                     Coalesce(r.resourceId), Coalesce(r.dataClass), r.occurredAtText);
    AllGiven(TriggerParts(r, prevHash), Parts(c, Hex(prevHash)), true);
  }

  // Of arguments that are all given none is skipped.
  lemma {:induction false} AllGiven(parts: seq<Option<string>>, texts: seq<string>, first: bool)
    requires |parts| == |texts| > 0 && forall i :: 0 <= i < |parts| ==> parts[i] == Some(texts[i])
    ensures ConcatWs(parts, first) == (if first then "" else "|") + Join(texts)
  {
    if |parts| > 1 {
      AllGiven(parts[1..], texts[1..], false);
    } else {
      assert parts[1..] == [];
    }
  }

  // ---------------------------------------------------------------- the text determines the event

  predicate NoBar(s: string) { '|' !in s }

  // Identifiers, enumeration values and timestamps never contain the separator. The resource kind,
  // the only free text among the hashed fields, may.
  predicate WellTyped(c: Content) {
    && NoBar(c.id) && NoBar(c.tenant) && NoBar(c.actorKind) && NoBar(c.actorId) && NoBar(c.operation)
    && NoBar(c.resourceId) && NoBar(c.dataClass) && NoBar(c.occurredAtText)
  }

  ghost predicate CollisionFree(h: Digest) {
    && (forall s, t :: h(s) == h(t) ==> s == t)
    && (forall s :: h(s) != "" && NoBar(h(s)))
  }

  lemma FirstField(a: string, r: string, a': string, r': string)
    requires NoBar(a) && NoBar(a') && a + "|" + r == a' + "|" + r'
    ensures a == a' && r == r'
  {
    var s := a + "|" + r;
    assert s[|a|] == '|' && s[|a'|] == '|';
    assert forall i :: 0 <= i < |a| ==> s[i] == a[i] != '|';
    assert forall i :: 0 <= i < |a'| ==> s[i] == a'[i] != '|';
    assert a == s[..|a|] && a' == s[..|a'|];
    assert r == s[|a| + 1..] && r' == s[|a'| + 1..];
  }

  lemma LastField(r: string, z: string, r': string, z': string)
    requires NoBar(z) && NoBar(z') && r + "|" + z == r' + "|" + z'
    ensures r == r' && z == z'
  {
    var s := r + "|" + z;
    assert s[|r|] == '|' && s[|r'|] == '|';
    assert forall i :: |r| < i < |s| ==> s[i] == z[i - |r| - 1] != '|';
    assert forall i :: |r'| < i < |s| ==> s[i] == z'[i - |r'| - 1] != '|';
    assert r == s[..|r|] && r' == s[..|r'|];
    assert z == s[|r| + 1..] && z' == s[|r'| + 1..];
  }

  // What follows the operation in the canonical text.
  function Tail(c: Content, prevHex: string): string {
    c.resourceKind + "|" + c.resourceId + "|" + c.dataClass + "|" + c.occurredAtText + "|" + prevHex
  }

  lemma JoinIs(c: Content, prevHex: string)
    ensures Join(Parts(c, prevHex))
         == c.id + "|"
           + (c.tenant + "|" + (c.actorKind + "|" + (c.actorId + "|" + (c.operation + "|" + Tail(c, prevHex)))))
  {
    var p := Parts(c, prevHex);
    JoinStep(p); JoinStep(p[1..]); JoinStep(p[2..]); JoinStep(p[3..]); JoinStep(p[4..]);
    JoinStep(p[5..]); JoinStep(p[6..]); JoinStep(p[7..]); JoinStep(p[8..]);
    assert Join(p[9..]) == prevHex;
    assert Join(p[5..]) == Tail(c, prevHex);
  }

  lemma JoinStep(p: seq<string>)
    requires |p| > 1
    ensures Join(p) == p[0] + "|" + Join(p[1..])
  {
  }

  lemma TailInjective(c: Content, p: string, c': Content, p': string)
    requires WellTyped(c) && WellTyped(c') && NoBar(p) && NoBar(p') && Tail(c, p) == Tail(c', p')
    ensures c.resourceKind == c'.resourceKind && c.resourceId == c'.resourceId
    ensures c.dataClass == c'.dataClass && c.occurredAtText == c'.occurredAtText && p == p'
  {
    var r1, r1' := c.resourceKind + "|" + c.resourceId, c'.resourceKind + "|" + c'.resourceId;
    var r2, r2' := r1 + "|" + c.dataClass, r1' + "|" + c'.dataClass;
    var r3, r3' := r2 + "|" + c.occurredAtText, r2' + "|" + c'.occurredAtText;
    LastField(r3, p, r3', p');
    LastField(r2, c.occurredAtText, r2', c'.occurredAtText);
    LastField(r1, c.dataClass, r1', c'.dataClass);
    LastField(c.resourceKind, c.resourceId, c'.resourceKind, c'.resourceId);
  }

  // The canonical text determines every hashed field and the previous hash, whatever the resource
  // kind contains: five fields are read from the left and four from the right.
  lemma CanonicalInjective(c: Content, p: string, c': Content, p': string)
    requires WellTyped(c) && WellTyped(c') && NoBar(p) && NoBar(p')
    requires Join(Parts(c, p)) == Join(Parts(c', p'))
    ensures c == c' && p == p'
  {
    JoinIs(c, p);
    JoinIs(c', p');
    var t5, t5' := Tail(c, p), Tail(c', p');
    var t4, t4' := c.operation + "|" + t5, c'.operation + "|" + t5';
    var t3, t3' := c.actorId + "|" + t4, c'.actorId + "|" + t4';
    var t2, t2' := c.actorKind + "|" + t3, c'.actorKind + "|" + t3';
    FirstField(c.id, c.tenant + "|" + t2, c'.id, c'.tenant + "|" + t2');
    FirstField(c.tenant, t2, c'.tenant, t2');
    FirstField(c.actorKind, t3, c'.actorKind, t3');
    FirstField(c.actorId, t4, c'.actorId, t4');
    FirstField(c.operation, t5, c'.operation, t5');
    TailInjective(c, p, c', p');
  }

  // ---------------------------------------------------------------- verification

  function ExpectedPrevious(log: seq<Event>, i: nat): Option<string>
    requires i < |log|
  {
    if i == 0 then None else Some(log[i - 1].eventHash)
  }

  function Hex(hash: Option<string>): string { if hash.Some? then hash.value else "" }

  predicate HashOk(h: Digest, log: seq<Event>, i: nat)
    requires i < |log|
  {
    log[i].eventHash == ComputeHash(h, log[i].content, Hex(ExpectedPrevious(log, i)))
  }

  predicate LinkOk(log: seq<Event>, i: nat)
    requires i < |log|
  {
    log[i].previousHash == ExpectedPrevious(log, i)
  }

  predicate EventOk(h: Digest, log: seq<Event>, i: nat)
    requires i < |log|
  {
    HashOk(h, log, i) && LinkOk(log, i)
  }

  predicate Intact(h: Digest, log: seq<Event>) {
    forall i :: 0 <= i < |log| ==> EventOk(h, log, i)
  }

  datatype Reason = HashMismatch | BrokenLink

  datatype VerifyResult = VerifyResult(ok: bool, rowsChecked: nat, broken: Option<(string, Reason)>)

  predicate InWindow(log: seq<Event>, from: int, to: int, i: nat) {
    i < |log| && from <= log[i].occurredAt <= to
  }

  // The rows are the positions in the window, in increasing order.
  ghost predicate Covers(rows: seq<nat>, log: seq<Event>, from: int, to: int) {
    && (forall k :: 0 <= k < |rows| ==> InWindow(log, from, to, rows[k]))
    && (forall k, l :: 0 <= k < l < |rows| ==> rows[k] < rows[l])
    && (forall i: nat :: InWindow(log, from, to, i) ==> i in rows)
  }

  // The query: the tenant's events of the window, in order.
  function Window(log: seq<Event>, from: int, to: int): (rows: seq<nat>)
    ensures Covers(rows, log, from, to)
  {
    if log == [] then [] else
      var last := log[|log| - 1];
      Window(log[..|log| - 1], from, to) + (if from <= last.occurredAt <= to then [|log| - 1] else [])
  }

  // Position i is the first of the window that does not check out.
  ghost predicate FirstBad(h: Digest, log: seq<Event>, from: int, to: int, i: nat) {
    && InWindow(log, from, to, i) && !EventOk(h, log, i)
    && forall j: nat :: j < i && InWindow(log, from, to, j) ==> EventOk(h, log, j)
  }

  lemma RowsTellOfWindow(h: Digest, log: seq<Event>, from: int, to: int, rows: seq<nat>, k: nat)
    requires Covers(rows, log, from, to) && k <= |rows|
    requires forall l :: 0 <= l < k ==> EventOk(h, log, rows[l])
    ensures k == |rows| ==> forall i: nat :: InWindow(log, from, to, i) ==> EventOk(h, log, i)
    ensures k < |rows| && !EventOk(h, log, rows[k]) ==> FirstBad(h, log, from, to, rows[k])
  {
    forall j: nat | InWindow(log, from, to, j) && (k < |rows| ==> j < rows[k]) ensures EventOk(h, log, j) {
      var l :| 0 <= l < |rows| && rows[l] == j;
    }
  }

  // The loop over the rows read; `k` is where it stops.
  method CheckRows(h: Digest, log: seq<Event>, rows: seq<nat>) returns (k: nat, reason: Option<Reason>)
    requires forall l :: 0 <= l < |rows| ==> rows[l] < |log|
    ensures k <= |rows| && (k == |rows| <==> reason.None?)
    ensures forall l :: 0 <= l < k ==> EventOk(h, log, rows[l])
    ensures k < |rows| ==>
              !EventOk(h, log, rows[k]) && reason == Some(if HashOk(h, log, rows[k]) then BrokenLink else HashMismatch)
  {
    k := 0;
    while k < |rows|
      invariant k <= |rows|
      invariant forall l :: 0 <= l < k ==> EventOk(h, log, rows[l])
    {
      var i := rows[k];
      if !HashOk(h, log, i) { return k, Some(HashMismatch); }
      if !LinkOk(log, i) { return k, Some(BrokenLink); }
      k := k + 1;
    }
    reason := None;
  }

  // What the verification of a window has to answer.
  ghost predicate Verdict(h: Digest, log: seq<Event>, from: int, to: int, r: VerifyResult) {
    && r.rowsChecked == |Window(log, from, to)|
    && (r.ok <==> forall i: nat :: InWindow(log, from, to, i) ==> EventOk(h, log, i))
    && (r.ok <==> r.broken.None?)
    && (!r.ok ==> exists i: nat ::
          && FirstBad(h, log, from, to, i)
          && r.broken == Some((log[i].content.id, if HashOk(h, log, i) then BrokenLink else HashMismatch)))
  }

  // `log` holds the tenant's events ordered by time and id.
  method VerifyChain(h: Digest, log: seq<Event>, from: int, to: int) returns (r: VerifyResult)
    ensures Verdict(h, log, from, to, r)
  {
    var rows := Window(log, from, to);
    var k, reason := CheckRows(h, log, rows);
    RowsTellOfWindow(h, log, from, to, rows, k);
    if reason.None? { return VerifyResult(true, |rows|, None); }
    assert FirstBad(h, log, from, to, rows[k]);
    return VerifyResult(false, |rows|, Some((log[rows[k]].content.id, reason.value)));
  }

  // ---------------------------------------------------------------- the insert trigger

  // The event the trigger makes of an insert: it links to the last event of the tenant's order.
  function Chained(h: Digest, log: seq<Event>, c: Content, at: int): Event {
    var previous := if log == [] then None else Some(log[|log| - 1].eventHash);
    Event(c, at, previous, ComputeHash(h, c, Hex(previous)))
  }

  ghost predicate DistinctIds(log: seq<Event>) {
    forall i, j :: 0 <= i < j < |log| ==> log[i].content.id != log[j].content.id
  }

  ghost predicate AllWellTyped(log: seq<Event>) {
    forall i :: 0 <= i < |log| ==> WellTyped(log[i].content)
  }

  lemma HexOk(h: Digest, log: seq<Event>, i: nat)
    requires CollisionFree(h) && i < |log| && Intact(h, log)
    ensures NoBar(Hex(ExpectedPrevious(log, i)))
    ensures i > 0 ==> Hex(ExpectedPrevious(log, i)) != ""
  {
    if i > 0 { assert EventOk(h, log, i - 1); }
  }

  // Inserting an event keeps an intact log intact if and only if the event sorts after all others;
  // in particular logs built by strictly later inserts verify.
  lemma InsertKeepsIntactIffLast(h: Digest, log: seq<Event>, c: Content, at: int, pos: nat)
    requires CollisionFree(h) && Intact(h, log) && AllWellTyped(log) && WellTyped(c) && pos <= |log|
    requires DistinctIds(log) && forall i :: 0 <= i < |log| ==> log[i].content.id != c.id
    ensures Intact(h, log[..pos] + [Chained(h, log, c, at)] + log[pos..]) <==> pos == |log|
  {
    var e := Chained(h, log, c, at);
    var log' := log[..pos] + [e] + log[pos..];
    if pos == |log| {
      forall i | 0 <= i < |log'| ensures EventOk(h, log', i) {
        if i < |log| { assert EventOk(h, log, i); }
      }
    } else if 0 < pos {
      EqualHashes(h, log, pos - 1, |log| - 1);
      assert ExpectedPrevious(log', pos) == Some(log[pos - 1].eventHash);
      assert !EventOk(h, log', pos);
    } else {
      assert !EventOk(h, log', 0);
    }
  }

  lemma EqualHashes(h: Digest, log: seq<Event>, i: nat, j: nat)
    requires CollisionFree(h) && Intact(h, log) && AllWellTyped(log) && DistinctIds(log) && i < j < |log|
    ensures log[i].eventHash != log[j].eventHash
  {
    assert EventOk(h, log, i) && EventOk(h, log, j);
    HexOk(h, log, i);
    HexOk(h, log, j);
    if log[i].eventHash == log[j].eventHash {
      CanonicalInjective(log[i].content, Hex(ExpectedPrevious(log, i)), log[j].content, Hex(ExpectedPrevious(log, j)));
    }
  }

  // ---------------------------------------------------------------- tamper evidence

  // The last hash binds the whole history: intact logs that end in the same hash agree in length
  // and in every hashed field, link and hash.
  lemma {:induction false} LastHashBindsHistory(h: Digest, a: seq<Event>, b: seq<Event>)
    requires CollisionFree(h) && Intact(h, a) && Intact(h, b) && AllWellTyped(a) && AllWellTyped(b)
    requires a != [] && b != [] && a[|a| - 1].eventHash == b[|b| - 1].eventHash
    ensures |a| == |b|
    ensures forall i :: 0 <= i < |a| ==> a[i].content == b[i].content && a[i].previousHash == b[i].previousHash
                                         && a[i].eventHash == b[i].eventHash
  {
    var m, n := |a| - 1, |b| - 1;
    assert EventOk(h, a, m) && EventOk(h, b, n);
    HexOk(h, a, m);
    HexOk(h, b, n);
    CanonicalInjective(a[m].content, Hex(ExpectedPrevious(a, m)), b[n].content, Hex(ExpectedPrevious(b, n)));
    if m > 0 {
      IntactPrefix(h, a, m);
      IntactPrefix(h, b, n);
      LastHashBindsHistory(h, a[..m], b[..n]);
    }
  }

  lemma IntactPrefix(h: Digest, log: seq<Event>, n: nat)
    requires Intact(h, log) && n <= |log|
    ensures Intact(h, log[..n])
  {
    forall i | 0 <= i < n ensures EventOk(h, log[..n], i) { assert EventOk(h, log, i); }
  }

  function Without(log: seq<Event>, i: nat): seq<Event>
    requires i < |log|
  {
    log[..i] + log[i + 1..]
  }

  // The log once event i has become e. Time and id are hashed and order the log, so e may sort
  // anywhere among the other events.
  function Forged(log: seq<Event>, i: nat, e: Event, pos: nat): seq<Event>
    requires i < |log| && pos < |log|
  {
    Without(log, i)[..pos] + [e] + Without(log, i)[pos..]
  }

  // Where the event that followed event i is then.
  function OldSuccessor(i: nat, pos: nat): nat { if pos <= i then i + 1 else i }

  predicate Suspect(i: nat, pos: nat, j: nat) { j == pos || j == pos + 1 || j == OldSuccessor(i, pos) }

  // Events away from the forged one and from the gap it left check out as before.
  lemma OthersStayOk(h: Digest, log: seq<Event>, i: nat, e: Event, pos: nat, j: nat)
    requires Intact(h, log) && i < |log| && pos < |log| && j < |log| && !Suspect(i, pos, j)
    ensures EventOk(h, Forged(log, i, e, pos), j)
  {
    var k := if j < pos then (if j < i then j else j + 1) else (if j - 1 < i then j - 1 else j);
    assert EventOk(h, log, k);
    assert Forged(log, i, e, pos)[j] == log[k];
    assert ExpectedPrevious(Forged(log, i, e, pos), j) == ExpectedPrevious(log, k);
  }

  // An event that moved away breaks the link of the event that followed it.
  lemma GapIsSeen(h: Digest, log: seq<Event>, i: nat, e: Event, pos: nat)
    requires CollisionFree(h) && Intact(h, log) && AllWellTyped(log) && DistinctIds(log)
    requires i < |log| - 1 && pos < |log| && pos != i
    ensures !EventOk(h, Forged(log, i, e, pos), OldSuccessor(i, pos))
  {
    var forged, k := Forged(log, i, e, pos), OldSuccessor(i, pos);
    assert EventOk(h, log, i + 1);
    assert forged[k] == log[i + 1];
    if i > 0 {
      assert forged[k - 1] == log[i - 1];
      EqualHashes(h, log, i - 1, i);
    }
  }

  // The last event moved forward breaks its own hash or the link of its new successor.
  lemma LastMovedIsSeen(h: Digest, log: seq<Event>, e: Event, pos: nat)
    requires CollisionFree(h) && Intact(h, log) && AllWellTyped(log) && WellTyped(e.content)
    requires pos < |log| - 1 && forall j :: 0 <= j < |log| - 1 ==> log[j].content.id != e.content.id
    ensures var forged := Forged(log, |log| - 1, e, pos);
            !EventOk(h, forged, pos) || !EventOk(h, forged, pos + 1)
  {
    var forged := Forged(log, |log| - 1, e, pos);
    assert EventOk(h, log, pos) && forged[pos] == e && forged[pos + 1] == log[pos];
    if pos > 0 && HashOk(h, forged, pos) {
      assert EventOk(h, log, pos - 1) && forged[pos - 1] == log[pos - 1];
      HexOk(h, log, pos - 1);
      HexOk(h, log, pos);
      if e.eventHash == log[pos - 1].eventHash {
        CanonicalInjective(e.content, Hex(ExpectedPrevious(forged, pos)),
                           log[pos - 1].content, Hex(ExpectedPrevious(log, pos - 1)));
      }
    }
  }

  // An event changed in place breaks its own hash or the link of its successor.
  lemma ChangedInPlaceIsSeen(h: Digest, log: seq<Event>, i: nat, e: Event)
    requires CollisionFree(h) && Intact(h, log) && AllWellTyped(log) && WellTyped(e.content)
    requires i < |log| - 1 && e.content != log[i].content
    ensures var forged := Forged(log, i, e, i); !EventOk(h, forged, i) || !EventOk(h, forged, i + 1)
  {
    var forged := Forged(log, i, e, i);
    assert EventOk(h, log, i) && EventOk(h, log, i + 1) && forged[i] == e && forged[i + 1] == log[i + 1];
    HexOk(h, log, i);
    var prev := Hex(ExpectedPrevious(log, i));
    assert ExpectedPrevious(forged, i) == ExpectedPrevious(log, i);
    if HashOk(h, forged, i) && e.eventHash == log[i].eventHash {
      CanonicalInjective(e.content, prev, log[i].content, prev);
    }
  }

  // Some event, at one of three places, does not check out.
  lemma ForgeryIsSeen(h: Digest, log: seq<Event>, i: nat, e: Event, pos: nat) returns (j: nat)
    requires CollisionFree(h) && Intact(h, log) && AllWellTyped(log) && DistinctIds(log) && WellTyped(e.content)
    requires i < |log| && pos < |log| && !(i == pos == |log| - 1)
    requires e.content != log[i].content && forall k :: 0 <= k < |log| && k != i ==> log[k].content.id != e.content.id
    ensures j < |log| && Suspect(i, pos, j) && !EventOk(h, Forged(log, i, e, pos), j)
  {
    var forged := Forged(log, i, e, pos);
    if i == |log| - 1 {
      LastMovedIsSeen(h, log, e, pos);
      j := if EventOk(h, forged, pos) then pos + 1 else pos;
    } else if pos == i {
      ChangedInPlaceIsSeen(h, log, i, e);
      j := if EventOk(h, forged, pos) then pos + 1 else pos;
    } else {
      GapIsSeen(h, log, i, e, pos);
      j := OldSuccessor(i, pos);
    }
  }

  predicate CoversAll(log: seq<Event>, from: int, to: int) {
    forall j :: 0 <= j < |log| ==> from <= log[j].occurredAt <= to
  }

  // Changing a hashed field of any event, unless it was the last and stays so, makes a verification
  // of the whole log fail, wherever the event then sorts and whatever hash and link it is given. The
  // event reported is the forged one, its new successor or its old one.
  lemma TamperingIsDetected(h: Digest, log: seq<Event>, i: nat, e: Event, pos: nat, from: int, to: int, r: VerifyResult)
    requires CollisionFree(h) && Intact(h, log) && AllWellTyped(log) && DistinctIds(log) && WellTyped(e.content)
    requires i < |log| && pos < |log| && !(i == pos == |log| - 1)
    requires e.content != log[i].content && forall k :: 0 <= k < |log| && k != i ==> log[k].content.id != e.content.id
    requires CoversAll(Forged(log, i, e, pos), from, to) && Verdict(h, Forged(log, i, e, pos), from, to, r)
    ensures !r.ok
    ensures exists j :: 0 <= j < |log| && Suspect(i, pos, j) && r.broken.value.0 == Forged(log, i, e, pos)[j].content.id
    ensures forall j: nat :: j < |log| && !Suspect(i, pos, j) ==> EventOk(h, Forged(log, i, e, pos), j)
  {
    var forged := Forged(log, i, e, pos);
    var j := ForgeryIsSeen(h, log, i, e, pos);
    forall k: nat | k < |log| && !Suspect(i, pos, k) ensures EventOk(h, forged, k) {
      OthersStayOk(h, log, i, e, pos, k);
    }
    assert InWindow(forged, from, to, j);
    assert !r.ok;
    var k: nat :| FirstBad(h, forged, from, to, k) && r.broken.value.0 == forged[k].content.id;
  }

  // A hashed change goes unnoticed for some choice of hash and link if and only if the event was the
  // last and stays the last: nothing after it binds it.
  lemma UnnoticedIffLast(h: Digest, log: seq<Event>, i: nat, c: Content, pos: nat)
    requires CollisionFree(h) && Intact(h, log) && AllWellTyped(log) && DistinctIds(log) && WellTyped(c)
    requires i < |log| && pos < |log|
    requires c != log[i].content && forall k :: 0 <= k < |log| && k != i ==> log[k].content.id != c.id
    ensures (exists e: Event :: e.content == c && Intact(h, Forged(log, i, e, pos))) <==> i == pos == |log| - 1
  {
    if i == pos == |log| - 1 {
      var rest := log[..i];
      var e := Chained(h, rest, c, log[i].occurredAt);
      IntactPrefix(h, log, i);
      InsertKeepsIntactIffLast(h, rest, c, log[i].occurredAt, |rest|);
      assert Without(log, i) == rest && Forged(log, i, e, pos) == rest[..|rest|] + [e] + rest[|rest|..];
      assert e.content == c && Intact(h, Forged(log, i, e, pos));
    } else {
      forall e: Event | e.content == c ensures !Intact(h, Forged(log, i, e, pos)) {
        var j := ForgeryIsSeen(h, log, i, e, pos);
      }
    }
  }

  // A row whose tenant is changed leaves its log: what is left verifies if and only if it was the
  // last, and otherwise fails at the event that followed it and nowhere else.
  lemma RemovalIsDetected(h: Digest, log: seq<Event>, i: nat)
    requires CollisionFree(h) && Intact(h, log) && AllWellTyped(log) && DistinctIds(log) && i < |log|
    ensures Intact(h, Without(log, i)) <==> i == |log| - 1
    ensures forall j :: 0 <= j < |log| - 1 ==> (EventOk(h, Without(log, i), j) <==> j != i)
  {
    var rest := Without(log, i);
    forall j | 0 <= j < |rest| ensures EventOk(h, rest, j) <==> j != i {
      var k := if j < i then j else j + 1;
      assert EventOk(h, log, k) && rest[j] == log[k];
      if j == i && i > 0 { EqualHashes(h, log, i - 1, i); }
    }
    assert i < |rest| ==> !EventOk(h, rest, i);
  }

  // ---------------------------------------------------------------- a digest of the assumed kind

  // Every character becomes two, so the images of distinct texts differ and contain no bar.
  function Spell(s: string): string {
    if s == "" then "x" else (if s[0] == '|' then ['o', 'o'] else ['i', s[0]]) + Spell(s[1..])
  }

  lemma SpellTail(s: string)
    requires s != ""
    ensures |Spell(s)| > 2 && Spell(s)[2..] == Spell(s[1..])
    ensures if s[0] == '|' then Spell(s)[0] == 'o' else Spell(s)[0] == 'i' && Spell(s)[1] == s[0]
  {
    assert |Spell(s[1..])| > 0;
  }

  lemma SameSpelling(s: string, t: string)
    requires Spell(s) == Spell(t)
    ensures s == "" <==> t == ""
    ensures s != "" && t != "" ==> s[0] == t[0] && Spell(s[1..]) == Spell(t[1..])
  {
    if s != "" { SpellTail(s); }
    if t != "" { SpellTail(t); }
  }

  lemma {:induction false} SpellInjective(s: string, t: string)
    requires Spell(s) == Spell(t)
    ensures s == t
  {
    SameSpelling(s, t);
    if s != "" {
      SpellInjective(s[1..], t[1..]);
      assert s == [s[0]] + s[1..] && t == [t[0]] + t[1..];
    }
  }

  lemma {:induction false} SpellHasNoBar(s: string)
    ensures Spell(s) != "" && NoBar(Spell(s))
  {
    if s != "" { SpellHasNoBar(s[1..]); }
  }

  lemma SpellIsCollisionFree()
    ensures CollisionFree(Spell)
  {
    forall s, t | Spell(s) == Spell(t) ensures s == t { SpellInjective(s, t); }
    forall s ensures Spell(s) != "" && NoBar(Spell(s)) { SpellHasNoBar(s); }
  }

  function SampleContent(id: string, at: string): Content {
    Content(id, "t", "user", "", "read", "guest", "", "", at)
  }

  // Two events of one transaction share their time; if the second draws the smaller id it sorts
  // first, and the chain is broken.
  lemma SecondSortsFirst(h: Digest, a: Content, b: Content, at: int)
    requires CollisionFree(h) && WellTyped(a) && WellTyped(b) && a.id != b.id
    ensures var first := Chained(h, [], b, at);
            Intact(h, [first]) && !Intact(h, [Chained(h, [first], a, at), first])
  {
    var first := Chained(h, [], b, at);
    var log := [first];
    assert EventOk(h, log, 0);
    var second := Chained(h, log, a, at);
    InsertKeepsIntactIffLast(h, log, a, at, 0);
    assert log[..0] + [second] + log[0..] == [second, first];
  }

  lemma SameTimeBreaksChain()
    ensures var first := Chained(Spell, [], SampleContent("b", "noon"), 12);
            Intact(Spell, [first]) && !Intact(Spell, [Chained(Spell, [first], SampleContent("a", "noon"), 12), first])
  {
    SpellIsCollisionFree();
    assert "a" != "b" by { assert "a"[0] != "b"[0]; }
    SecondSortsFirst(Spell, SampleContent("a", "noon"), SampleContent("b", "noon"), 12);
  }
}
