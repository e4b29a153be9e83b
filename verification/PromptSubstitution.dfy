/**
 * Substitution of `{{variable}}` placeholders in prompt templates.
 */
module PromptSubstitution {
  import opened Ascii
  import opened Wrappers

  // ---------------------------------------------------------------- recognising a placeholder

  predicate IsSpace(c: char) {
    c == ' ' || '\t' <= c <= '\r' || c == '\U{00a0}' || c == '\U{1680}' || '\U{2000}' <= c <= '\U{200a}'
    || c == '\U{2028}' || c == '\U{2029}' || c == '\U{202f}' || c == '\U{205f}' || c == '\U{3000}' || c == '\U{feff}'
  }

  predicate IsNameStart(c: char) { IsLower(c) || IsUpper(c) || c == '_' }

  predicate IsNameChar(c: char) { IsNameStart(c) || IsDigit(c) || c == '.' }

  const SPACES := "\U{9}\U{a}\U{b}\U{c}\U{d}\U{20}\U{a0}\U{1680}\U{2000}\U{2001}\U{2002}\U{2003}\U{2004}\U{2005}"
    + "\U{2006}\U{2007}\U{2008}\U{2009}\U{200a}\U{2028}\U{2029}\U{202f}\U{205f}\U{3000}\U{feff}"

  // A name is of ASCII letters, underscores, digits and dots, and starts with one of the former two.
  lemma NameCharactersAre(c: char)
    ensures IsNameStart(c) <==> c in SMALL_LETTERS || c in CAPITAL_LETTERS || c == '_'
    ensures IsNameChar(c) <==> c in SMALL_LETTERS || c in CAPITAL_LETTERS || c in DIGITS || c in "_."
  {
    LettersAndDigits(c);
  }

  lemma SpacesAre(c: char)
    ensures IsSpace(c) <==> c in SPACES
  {
    if '\U{9}' <= c <= '\U{d}' { assert SPACES[c as int - 9] == c; }
    if '\U{2000}' <= c <= '\U{200a}' { assert SPACES[8 + c as int - 0x2000] == c; }
  }

  // The first position from i on whose character is not of the given class.
  function Skip(t: string, i: nat, kind: char -> bool): (j: nat)
    requires i <= |t|
    ensures i <= j <= |t| && (forall k :: i <= k < j ==> kind(t[k])) && (j < |t| ==> !kind(t[j]))
    decreases |t| - i
  {
    if i < |t| && kind(t[i]) then Skip(t, i + 1, kind) else i
  }

  // What follows the name: spaces and the closing braces.
  function CloseAt(t: string, b: nat): (r: Option<nat>)
    requires b <= |t|
    ensures r.Some? ==> b + 2 <= r.value <= |t|
  {
    var c := Skip(t, b, IsSpace);
    if c + 2 <= |t| && t[c..c + 2] == "}}" then Some(c + 2) else None
  }

  datatype Match = Match(length: nat, key: string)

  // The placeholder at the start of t, if there is one, found by a greedy scan.
  function MatchStart(t: string): (m: Option<Match>)
    ensures m.Some? ==> 4 < m.value.length <= |t|
  {
    if |t| < 2 || t[..2] != "{{" then None
    else
      var a := Skip(t, 2, IsSpace);
      if a == |t| || !IsNameStart(t[a]) then None
      else
        var b := Skip(t, a, IsNameChar);
        var end := CloseAt(t, b);
        if end.Some? then Some(Match(end.value, t[a..b])) else None
  }

  // The text from a to b is made of characters of the given class.
  ghost predicate AllOf(t: string, a: nat, b: nat, kind: char -> bool)
    requires a <= b <= |t|
  {
    forall k :: a <= k < b ==> kind(t[k])
  }

  // Two braces, spaces up to a, a name up to b, spaces up to c, two braces, and anything after them.
  ghost predicate Shape(t: string, a: nat, b: nat, c: nat) {
    && 2 <= a < b <= c && c + 2 <= |t|
    && t[..2] == "{{" && AllOf(t, 2, a, IsSpace)
    && IsNameStart(t[a]) && AllOf(t, a, b, IsNameChar)
    && AllOf(t, b, c, IsSpace) && t[c..c + 2] == "}}"
  }

  lemma {:induction false} SkipIs(t: string, i: nat, j: nat, kind: char -> bool)
    requires i <= j <= |t| && AllOf(t, i, j, kind) && (j < |t| ==> !kind(t[j]))
    ensures Skip(t, i, kind) == j
    decreases j - i
  {
    if i < j { SkipIs(t, i + 1, j, kind); }
  }

  // Spaces, names and braces are disjoint, so a text has the shape in at most one way, and the greedy
  // scan finds it: no other way of matching the expression exists.
  lemma ShapeIsScanned(t: string, a: nat, b: nat, c: nat)
    requires Shape(t, a, b, c)
    ensures MatchStart(t) == Some(Match(c + 2, t[a..b]))
  {
    assert t[c] == t[c..c + 2][0] == '}';
    SkipIs(t, 2, a, IsSpace);
    SkipIs(t, a, b, IsNameChar);
    SkipIs(t, b, c, IsSpace);
  }

  lemma MatchIffShape(t: string, m: Match)
    ensures MatchStart(t) == Some(m)
            <==> exists a: nat, b: nat, c: nat :: Shape(t, a, b, c) && m == Match(c + 2, t[a..b])
  {
    if MatchStart(t) == Some(m) {
      var a := Skip(t, 2, IsSpace);
      var b := Skip(t, a, IsNameChar);
      var c := Skip(t, b, IsSpace);
      assert Shape(t, a, b, c) && m == Match(c + 2, t[a..b]);
    }
    if a: nat, b: nat, c: nat :| Shape(t, a, b, c) && m == Match(c + 2, t[a..b]) {
      ShapeIsScanned(t, a, b, c);
    }
  }

  // What recognises a match at the start of a text; everything below but the last section holds of
  // any such recogniser.
  type Matcher = m: string -> Option<Match> | forall t :: m(t).Some? ==> 0 < m(t).value.length <= |t|
    witness t => None

  function MatchAt(m: Matcher, t: string, i: nat): Option<Match>
    requires i <= |t|
  {
    m(t[i..])
  }

  // ---------------------------------------------------------------- substitution

  // The leftmost match at or after position i.
  function FindMatch(m: Matcher, t: string, i: nat): (r: Option<nat>)
    requires i <= |t|
    ensures r.Some? ==> i <= r.value < |t| && MatchAt(m, t, r.value).Some?
    ensures forall k :: i <= k < (if r.Some? then r.value else |t|) ==> MatchAt(m, t, k).None?
    decreases |t| - i
  {
    if i == |t| then None else if MatchAt(m, t, i).Some? then Some(i) else FindMatch(m, t, i + 1)
  }

  // Replace every match, found left to right, by the value of its key; replacement continues after
  // the match and never looks at a value.
  function Replace(m: Matcher, t: string, value: string -> string): string
    decreases |t|
  {
    var i := FindMatch(m, t, 0);
    if i.None? then t
    else
      var found := MatchAt(m, t, i.value).value;
      t[..i.value] + value(found.key) + Replace(m, t[i.value + found.length..], value)
  }

  // ---------------------------------------------------------------- values

  // A composite is an object or array with its members; `json` is the value's JSON text.
  datatype Value =
    | Undefined
    | Null
    | Text(text: string)
    | Scalar(json: string)
    | Composite(members: map<string, Value>, json: string)

  function SplitDots(s: string): (r: seq<string>)
    ensures |r| > 0
  {
    if s == "" then [""]
    else
      var rest := SplitDots(s[1..]);
      if s[0] == '.' then [""] + rest else [[s[0]] + rest[0]] + rest[1..]
  }

  function Member(v: Value, name: string): Value {
    if v.Composite? && name in v.members then v.members[name] else Undefined
  }

  function Walk(v: Value, parts: seq<string>): Value
    decreases |parts|
  {
    if parts == [] then v else Walk(Member(v, parts[0]), parts[1..])
  }

  method LookupDotted(obj: Value, dotted: string) returns (r: Value)
    ensures r == Walk(obj, SplitDots(dotted))
  {
    var parts := SplitDots(dotted);
    var cur := obj;
    for i := 0 to |parts|
      invariant Walk(obj, parts) == Walk(cur, parts[i..])
    {
      if !cur.Composite? {
        UndefinedStays(parts[i + 1..]);
        return Undefined;
      }
      cur := Member(cur, parts[i]);
      assert parts[i..][1..] == parts[i + 1..];
    }
    assert parts[|parts|..] == [];
    return cur;
  }

  lemma {:induction false} UndefinedStays(parts: seq<string>)
    ensures Walk(Undefined, parts) == Undefined
  {
    if parts != [] { UndefinedStays(parts[1..]); }
  }

  function ValueText(v: Value): string {
    match v
    case Undefined => ""
    case Null => ""
    case Text(text) => text
    case Scalar(json) => json
    case Composite(_, json) => json
  }

  function Values(vars: Value): string -> string { (key: string) => ValueText(Walk(vars, SplitDots(key))) }

  function Substitute(template: string, vars: Value): string {
    Replace(MatchStart, template, Values(vars))
  }

  // A dotted key that continues another looks up its rest in what the other finds.
  lemma LookupComposes(v: Value, a: string, b: string)
    ensures Walk(v, SplitDots(a + "." + b)) == Walk(Walk(v, SplitDots(a)), SplitDots(b))
  {
    SplitJoined(a, b);
    WalkConcat(v, SplitDots(a), SplitDots(b));
  }

  lemma {:induction false} SplitJoined(a: string, b: string)
    ensures SplitDots(a + "." + b) == SplitDots(a) + SplitDots(b)
  {
    if a == "" {
      assert a + "." + b == "." + b;
      assert ("." + b)[1..] == b;
    } else {
      assert (a + "." + b)[1..] == a[1..] + "." + b;
      SplitJoined(a[1..], b);
    }
  }

  lemma {:induction false} WalkConcat(v: Value, p: seq<string>, q: seq<string>)
    ensures Walk(v, p + q) == Walk(Walk(v, p), q)
    decreases |p|
  {
    if p == [] {
      assert p + q == q;
    } else {
      assert (p + q)[1..] == p[1..] + q;
      WalkConcat(Member(v, p[0]), p[1..], q);
    }
  }

  // ---------------------------------------------------------------- segments

  datatype Segment = Literal(c: char) | Placeholder(source: string, key: string)

  function Parse(m: Matcher, t: string): seq<Segment>
    decreases |t|
  {
    if t == "" then []
    else
      var found := m(t);
      if found.Some? then [Placeholder(t[..found.value.length], found.value.key)] + Parse(m, t[found.value.length..])
      else [Literal(t[0])] + Parse(m, t[1..])
  }

  function Source(s: Segment): string { if s.Literal? then [s.c] else s.source }

  function Print(segments: seq<Segment>): string {
    if segments == [] then "" else Source(segments[0]) + Print(segments[1..])
  }

  function Render(segments: seq<Segment>, value: string -> string): string {
    if segments == [] then ""
    else (if segments[0].Literal? then [segments[0].c] else value(segments[0].key)) + Render(segments[1..], value)
  }

  // How much of a non-empty text its first segment covers.
  function Step(m: Matcher, t: string): (n: nat)
    requires t != ""
    ensures 0 < n <= |t|
  {
    if m(t).Some? then m(t).value.length else 1
  }

  lemma ParseStep(m: Matcher, t: string)
    requires t != ""
    ensures Parse(m, t) != [] && Parse(m, t)[1..] == Parse(m, t[Step(m, t)..])
    ensures Source(Parse(m, t)[0]) == t[..Step(m, t)]
    ensures Parse(m, t)[0] == if m(t).Some? then Placeholder(t[..Step(m, t)], m(t).value.key) else Literal(t[0])
  {
  }

  lemma PrintStep(p: seq<Segment>)
    requires p != []
    ensures Print(p) == Source(p[0]) + Print(p[1..])
  {
  }

  lemma PrintParsed(m: Matcher, t: string)
    requires t != ""
    ensures Print(Parse(m, t)) == t[..Step(m, t)] + Print(Parse(m, t[Step(m, t)..]))
  {
    var p, n := Parse(m, t), Step(m, t);
    ParseStep(m, t);
    PrintStep(p);
    assert Source(p[0]) == t[..n] && p[1..] == Parse(m, t[n..]);
  }

  lemma Cut(t: string, n: nat)
    requires n <= |t|
    ensures t[..n] + t[n..] == t
  {
  }

  // The segments print back to the template.
  lemma {:induction false} ParsePrints(m: Matcher, t: string)
    ensures Print(Parse(m, t)) == t
    decreases |t|
  {
    if t != "" {
      PrintParsed(m, t);
      Cut(t, Step(m, t));
      ParsePrints(m, t[Step(m, t)..]);
    }
  }

  lemma {:induction false} FindShift(m: Matcher, t: string, i: nat)
    requires 0 < i <= |t|
    ensures FindMatch(m, t[1..], i - 1) == (var r := FindMatch(m, t, i); if r.Some? then Some(r.value - 1) else None)
    decreases |t| - i
  {
    assert t[1..][i - 1..] == t[i..];
    if i < |t| { FindShift(m, t, i + 1); }
  }

  // Dropping a first character that starts no match drops it from the result.
  lemma {:induction false} ReplaceSkips(m: Matcher, t: string, value: string -> string)
    requires t != "" && m(t).None?
    ensures Replace(m, t, value) == [t[0]] + Replace(m, t[1..], value)
  {
    assert t[0..] == t;
    FindShift(m, t, 1);
    assert FindMatch(m, t, 0) == FindMatch(m, t, 1);
    if FindMatch(m, t, 0).Some? {
      SkipBeforeMatch(m, t, value, FindMatch(m, t, 0).value);
    } else {
      assert t == [t[0]] + t[1..];
    }
  }

  lemma SkipBeforeMatch(m: Matcher, t: string, value: string -> string, k: nat)
    requires 0 < k < |t| && FindMatch(m, t, 0) == Some(k) && FindMatch(m, t[1..], 0) == Some(k - 1)
    ensures Replace(m, t, value) == [t[0]] + Replace(m, t[1..], value)
  {
    assert t[1..][k - 1..] == t[k..];
    var found := m(t[k..]).value;
    var rest := t[k + found.length..];
    assert t[1..][k - 1 + found.length..] == rest;
    var tail := Replace(m, rest, value);
    var whole := ReplaceAt(m, t, value, k, rest);
    var part := ReplaceAt(m, t[1..], value, k - 1, rest);
    Glue(t, k, value(found.key), tail, whole, part);
  }

  lemma Glue(t: string, k: nat, v: string, tail: string, whole: string, part: string)
    requires 0 < k <= |t| && whole == t[..k] + v + tail && part == t[1..][..k - 1] + v + tail
    ensures whole == [t[0]] + part
  {
    assert t[..k] == [t[0]] + t[1..][..k - 1];
  }

  lemma ReplaceAt(m: Matcher, t: string, value: string -> string, i: nat, rest: string) returns (out: string)
    requires FindMatch(m, t, 0) == Some(i) && rest == t[i + m(t[i..]).value.length..]
    ensures out == Replace(m, t, value) == t[..i] + value(m(t[i..]).value.key) + Replace(m, rest, value)
  {
    out := Replace(m, t, value);
  }

  lemma ReplaceTakes(m: Matcher, t: string, value: string -> string)
    requires m(t).Some?
    ensures Replace(m, t, value) == value(m(t).value.key) + Replace(m, t[m(t).value.length..], value)
  {
    assert t[0..] == t;
    assert FindMatch(m, t, 0) == Some(0);
    assert t[..0] + value(m(t).value.key) == value(m(t).value.key);
  }

  // Substitution renders the segments: literals as they stand, placeholders by their values. So it
  // makes a single pass, and no brace inside a value is ever expanded.
  lemma {:induction false} ReplaceRendersSegments(m: Matcher, t: string, value: string -> string)
    ensures Replace(m, t, value) == Render(Parse(m, t), value)
    decreases |t|
  {
    if t == "" {
      assert FindMatch(m, t, 0) == None;
    } else {
      ParseStep(m, t);
      ReplaceRendersSegments(m, t[Step(m, t)..], value);
      if m(t).Some? { ReplaceTakes(m, t, value); } else { ReplaceSkips(m, t, value); }
    }
  }

  ghost predicate MatchFree(m: Matcher, t: string) { forall i :: 0 <= i < |t| ==> MatchAt(m, t, i).None? }

  // A template is left alone whatever the values are if and only if it has no placeholder.
  lemma IdentityIffMatchFree(m: Matcher, t: string)
    ensures MatchFree(m, t) <==> forall value :: Replace(m, t, value) == t
  {
    if !MatchFree(m, t) {
      var long := t + "x";
      var value := (key: string) => long;
      assert FindMatch(m, t, 0).Some?;
      assert |Replace(m, t, value)| >= |long|;
    }
  }

  // ---------------------------------------------------------------- concatenation

  // A match is decided by the text it covers.
  ghost predicate Local(m: Matcher) {
    forall a, b ::
      && (m(a).Some? ==> m(a + b) == m(a))
      && (m(a + b).Some? && m(a + b).value.length <= |a| ==> m(a) == m(a + b))
  }

  // No match starts inside another.
  ghost predicate Disjoint(m: Matcher) {
    forall t: string, j: nat :: m(t).Some? && 0 < j < m(t).value.length ==> MatchAt(m, t, j).None?
  }

  ghost predicate StraddlesAt(m: Matcher, a: string, b: string, i: nat)
    requires i <= |a|
  {
    MatchAt(m, a + b, i).Some? && i + MatchAt(m, a + b, i).value.length > |a|
  }

  // Some placeholder of a + b begins in a and ends in b.
  ghost predicate Straddles(m: Matcher, a: string, b: string) {
    exists i :: 0 <= i < |a| && StraddlesAt(m, a, b, i)
  }

  lemma StraddleShift(m: Matcher, a: string, b: string, n: nat)
    requires 0 < n <= |a| && forall i :: 0 <= i < n ==> !StraddlesAt(m, a, b, i)
    ensures Straddles(m, a, b) <==> Straddles(m, a[n..], b)
  {
    forall i | n <= i <= |a| ensures (a + b)[i..] == (a[n..] + b)[i - n..] {}
    if Straddles(m, a, b) {
      var i :| 0 <= i < |a| && StraddlesAt(m, a, b, i);
      assert StraddlesAt(m, a[n..], b, i - n);
    }
    if Straddles(m, a[n..], b) {
      var i :| 0 <= i < |a[n..]| && StraddlesAt(m, a[n..], b, i);
      assert StraddlesAt(m, a, b, n + i);
    }
  }

  // The segments of a concatenation are those of its parts if and only if no placeholder straddles
  // the cut.
  lemma {:induction false} ParseConcat(m: Matcher, a: string, b: string)
    requires Local(m) && Disjoint(m)
    ensures Parse(m, a + b) == Parse(m, a) + Parse(m, b) <==> !Straddles(m, a, b)
    decreases |a|
  {
    if a == "" {
      assert a + b == b;
    } else if Step(m, a + b) > |a| {
      StraddlingParseDiffers(m, a, b);
    } else {
      ConcatStep(m, a, b);
      ParseConcat(m, a[Step(m, a + b)..], b);
      ParsesFromStep(m, a, b);
    }
  }

  lemma StraddlingParseDiffers(m: Matcher, a: string, b: string)
    requires a != "" && Step(m, a + b) > |a|
    ensures Straddles(m, a, b) && Parse(m, a + b) != Parse(m, a) + Parse(m, b)
  {
    assert (a + b)[0..] == a + b;
    assert StraddlesAt(m, a, b, 0);
    ParseStep(m, a + b);
    ParseStep(m, a);
    assert (Parse(m, a) + Parse(m, b))[0] == Parse(m, a)[0];
    assert |Source(Parse(m, a + b)[0])| != |Source(Parse(m, a)[0])|;
  }

  lemma ParsesFromStep(m: Matcher, a: string, b: string)
    requires a != "" && Step(m, a + b) <= |a| && m(a) == m(a + b)
    requires (a + b)[..Step(m, a + b)] == a[..Step(m, a + b)] && (a + b)[Step(m, a + b)..] == a[Step(m, a + b)..] + b
    ensures Parse(m, a + b) == Parse(m, a) + Parse(m, b)
       <==> Parse(m, a[Step(m, a + b)..] + b) == Parse(m, a[Step(m, a + b)..]) + Parse(m, b)
  {
    ParseStep(m, a + b);
    ParseStep(m, a);
    SameFromFirst(Parse(m, a + b), Parse(m, a), Parse(m, b));
  }

  lemma SameFromFirst(whole: seq<Segment>, p: seq<Segment>, q: seq<Segment>)
    requires whole != [] && p != [] && whole[0] == p[0]
    ensures whole == p + q <==> whole[1..] == p[1..] + q
  {
    assert whole == [whole[0]] + whole[1..];
    assert p + q == [p[0]] + (p[1..] + q);
  }

  // A first segment of a + b that lies within a is the first segment of a.
  lemma ConcatStep(m: Matcher, a: string, b: string)
    requires Local(m) && Disjoint(m) && a != "" && Step(m, a + b) <= |a|
    ensures var n := Step(m, a + b);
            && m(a) == m(a + b) && (a + b)[..n] == a[..n] && (a + b)[n..] == a[n..] + b
            && (Straddles(m, a, b) <==> Straddles(m, a[n..], b))
  {
    var t, n := a + b, Step(m, a + b);
    assert t[0..] == t;
    assert m(a) == m(t) && t[..n] == a[..n] && t[n..] == a[n..] + b;
    forall i | 0 <= i < n ensures !StraddlesAt(m, a, b, i) {
      if i > 0 { assert MatchAt(m, t, i).None?; }
    }
    StraddleShift(m, a, b, n);
  }

  lemma {:induction false} RenderConcat(p: seq<Segment>, q: seq<Segment>, value: string -> string)
    ensures Render(p + q, value) == Render(p, value) + Render(q, value)
  {
    if p == [] {
      assert p + q == q;
    } else {
      assert (p + q)[1..] == p[1..] + q;
      RenderConcat(p[1..], q, value);
    }
  }

  // ---------------------------------------------------------------- placeholders

  lemma {:induction false} SkipPrefix(a: string, b: string, i: nat, kind: char -> bool)
    requires i <= |a|
    ensures Skip(a, i, kind) < |a| ==> Skip(a + b, i, kind) == Skip(a, i, kind)
    ensures Skip(a + b, i, kind) < |a| ==> Skip(a, i, kind) == Skip(a + b, i, kind)
    decreases |a| - i
  {
    if i < |a| && kind(a[i]) { SkipPrefix(a, b, i + 1, kind); }
  }

  lemma CloseIsLocal(a: string, b: string, q: nat)
    requires q <= |a|
    ensures CloseAt(a, q).Some? ==> CloseAt(a + b, q) == CloseAt(a, q)
    ensures CloseAt(a + b, q).Some? && CloseAt(a + b, q).value <= |a| ==> CloseAt(a, q) == CloseAt(a + b, q)
  {
    SkipPrefix(a, b, q, IsSpace);
    var r, r' := Skip(a + b, q, IsSpace), Skip(a, q, IsSpace);
    if r + 2 <= |a| { assert (a + b)[r..r + 2] == a[r..r + 2]; }
    if r' + 2 <= |a| { assert (a + b)[r'..r' + 2] == a[r'..r' + 2]; }
  }

  lemma PlaceholdersAreLocal(a: string, b: string)
    ensures MatchStart(a).Some? ==> MatchStart(a + b) == MatchStart(a)
    ensures MatchStart(a + b).Some? && MatchStart(a + b).value.length <= |a| ==> MatchStart(a) == MatchStart(a + b)
  {
    var t := a + b;
    if |a| >= 2 {
      assert t[..2] == a[..2];
      SkipPrefix(a, b, 2, IsSpace);
      var p := Skip(t, 2, IsSpace);
      if p < |a| && IsNameStart(a[p]) { NameIsLocal(a, b, p); }
    }
  }

  lemma NameIsLocal(a: string, b: string, p: nat)
    requires p < |a|
    ensures var q := Skip(a + b, p, IsNameChar);
            var q' := Skip(a, p, IsNameChar);
            && (CloseAt(a, q').Some? ==> q == q' && CloseAt(a + b, q) == CloseAt(a, q') && (a + b)[p..q] == a[p..q])
            && (CloseAt(a + b, q).Some? && CloseAt(a + b, q).value <= |a|
                ==> q == q' && CloseAt(a, q') == CloseAt(a + b, q) && (a + b)[p..q] == a[p..q])
  {
    SkipPrefix(a, b, p, IsNameChar);
    var q := Skip(a + b, p, IsNameChar);
    var q' := Skip(a, p, IsNameChar);
    if q < |a| {
      CloseIsLocal(a, b, q);
      assert (a + b)[p..q] == a[p..q];
    }
  }

  lemma PlaceholdersAreDisjoint(t: string, j: nat)
    requires MatchStart(t).Some? && 0 < j < MatchStart(t).value.length
    ensures MatchStart(t[j..]).None?
  {
    var a := Skip(t, 2, IsSpace);
    var b := Skip(t, a, IsNameChar);
    var c := Skip(t, b, IsSpace);
    assert t[c..c + 2][0] == '}' && t[c..c + 2][1] == '}';
    assert t[2] != '{';
    assert j > 1 ==> t[j] != '{';
    if |t[j..]| >= 2 { assert t[j..][..2][0] == t[j] && t[j..][..2][1] == t[j + 1]; }
  }

  // The prompt substitution: it renders the template's segments, which print back to the template;
  // it is the identity exactly on placeholder-free templates; and it distributes over concatenation
  // wherever no placeholder straddles the cut.
  lemma {:induction false} SubstituteRendersSegments(template: string, vars: Value)
    ensures Print(Parse(MatchStart, template)) == template
    ensures Substitute(template, vars)
            == Render(Parse(MatchStart, template), Values(vars))
    ensures MatchFree(MatchStart, template) ==> Substitute(template, vars) == template
  {
    ParsePrints(MatchStart, template);
    ReplaceRendersSegments(MatchStart, template, Values(vars));
    IdentityIffMatchFree(MatchStart, template);
  }

  lemma SubstituteDistributes(a: string, b: string, vars: Value)
    ensures Parse(MatchStart, a + b) == Parse(MatchStart, a) + Parse(MatchStart, b) <==> !Straddles(MatchStart, a, b)
    ensures !Straddles(MatchStart, a, b) ==> Substitute(a + b, vars) == Substitute(a, vars) + Substitute(b, vars)
  {
    forall p, q
      ensures MatchStart(p).Some? ==> MatchStart(p + q) == MatchStart(p)
      ensures MatchStart(p + q).Some? && MatchStart(p + q).value.length <= |p| ==> MatchStart(p) == MatchStart(p + q)
    {
      PlaceholdersAreLocal(p, q);
    }
    forall t: string, j: nat | MatchStart(t).Some? && 0 < j < MatchStart(t).value.length
      ensures MatchAt(MatchStart, t, j).None?
    {
      PlaceholdersAreDisjoint(t, j);
    }
    var value := Values(vars);
    ParseConcat(MatchStart, a, b);
    ReplaceRendersSegments(MatchStart, a, value);
    ReplaceRendersSegments(MatchStart, b, value);
    ReplaceRendersSegments(MatchStart, a + b, value);
    RenderConcat(Parse(MatchStart, a), Parse(MatchStart, b), value);
  }
  // ---------------------------------------------------------------- what is put in

  // The text a value is shown as: nothing for a missing one, a text as it is, any other by its JSON.
  predicate Shows(v: Value, text: string) {
    && (v.Undefined? || v.Null? ==> text == "")
    && (v.Text? ==> text == v.text)
    && (v.Scalar? || v.Composite? ==> text == v.json)
  }

  // What a segment becomes: a literal itself, a placeholder what its name is found to hold.
  predicate Becomes(s: Segment, vars: Value, text: string) {
    if s.Literal? then text == [s.c] else Shows(Walk(vars, SplitDots(s.key)), text)
  }

  ghost predicate AllBecome(segments: seq<Segment>, vars: Value, texts: seq<string>) {
    |texts| == |segments| && forall i :: 0 <= i < |segments| ==> Becomes(segments[i], vars, texts[i])
  }

  function Joined(texts: seq<string>): string { if texts == [] then "" else texts[0] + Joined(texts[1..]) }

  lemma {:induction false} RenderedTexts(segments: seq<Segment>, vars: Value) returns (texts: seq<string>)
    ensures AllBecome(segments, vars, texts)
    ensures Joined(texts) == Render(segments, Values(vars))
  {
    if segments == [] {
      texts := [];
    } else {
      var s := segments[0];
      var rest := RenderedTexts(segments[1..], vars);
      texts := [if s.Literal? then [s.c] else ValueText(Walk(vars, SplitDots(s.key)))] + rest;
      assert texts[1..] == rest;
      forall i | 0 <= i < |segments| ensures Becomes(segments[i], vars, texts[i]) {
        if i > 0 { assert Becomes(segments[1..][i - 1], vars, rest[i - 1]); }
      }
    }
  }

  // Substitution puts in place of each placeholder what its name is found to hold, and keeps the rest.
  lemma SubstituteShowsValues(template: string, vars: Value)
    ensures exists texts :: AllBecome(Parse(MatchStart, template), vars, texts)
                            && Substitute(template, vars) == Joined(texts)
  {
    var segments := Parse(MatchStart, template);
    ReplaceRendersSegments(MatchStart, template, Values(vars));
    var texts := RenderedTexts(segments, vars);
    assert AllBecome(segments, vars, texts);
  }

  lemma {:induction false} OnePart(name: string)
    requires '.' !in name
    ensures SplitDots(name) == [name]
  {
    if name != "" {
      OnePart(name[1..]);
      assert name == [name[0]] + name[1..];
    }
  }

  // A name without a dot finds the member of that name, and nothing in anything but an object that has it.
  lemma LookupFindsMember(v: Value, name: string)
    requires '.' !in name
    ensures v.Composite? && name in v.members ==> Walk(v, SplitDots(name)) == v.members[name]
    ensures !v.Composite? || name !in v.members ==> Walk(v, SplitDots(name)) == Undefined
  {
    OnePart(name);
    assert [name][1..] == [];
  }
}
