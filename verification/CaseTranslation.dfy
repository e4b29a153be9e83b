/**
 * Translation of the keys of nested JSON between snake_case and camelCase at the HTTP boundary.
 */
module CaseTranslation {
  import opened Ascii

  // ---------------------------------------------------------------- keys

  predicate IsTail(c: char) { IsLower(c) || IsDigit(c) }

  // Replace every uppercase letter by an underscore and its lowercase form.
  function CamelToSnakeKey(k: string): string {
    if k == "" then ""
    else if IsUpper(k[0]) then ['_', LowerChar(k[0])] + CamelToSnakeKey(k[1..])
    else [k[0]] + CamelToSnakeKey(k[1..])
  }

  // Replace, from left to right, every underscore followed by a lowercase letter or digit.
  function SnakeToCamelKey(k: string): string {
    if k == "" then ""
    else if |k| > 1 && k[0] == '_' && IsTail(k[1]) then [UpperChar(k[1])] + SnakeToCamelKey(k[2..])
    else [k[0]] + SnakeToCamelKey(k[1..])
  }

  predicate PairAt(k: string, i: nat) { i + 1 < |k| && k[i] == '_' && IsTail(k[i + 1]) }

  // Some underscore is directly followed by a lowercase letter or digit.
  predicate HasSnakePair(k: string) { exists i: nat :: i < |k| && PairAt(k, i) }

  lemma PairOfTail(k: string, n: nat)
    requires n <= |k| && HasSnakePair(k[n..])
    ensures HasSnakePair(k)
  {
    var i: nat :| i < |k[n..]| && PairAt(k[n..], i);
    assert PairAt(k, n + i);
  }

  lemma {:induction false} RoundTripKey(k: string)
    requires !HasSnakePair(k)
    ensures SnakeToCamelKey(CamelToSnakeKey(k)) == k
  {
    if k != "" {
      assert !PairAt(k, 0);
      if HasSnakePair(k[1..]) { PairOfTail(k, 1); }
      FirstMakesRoundTrip(k);
      RoundTripKey(k[1..]);
      assert k == [k[0]] + k[1..];
    }
  }

  lemma CamelOfPair(c: char, rest: string)
    requires IsTail(c)
    ensures SnakeToCamelKey(['_', c] + rest) == [UpperChar(c)] + SnakeToCamelKey(rest)
  {
    assert (['_', c] + rest)[2..] == rest;
  }

  lemma CamelOfOther(c: char, rest: string)
    requires c == '_' && rest != "" ==> !IsTail(rest[0])
    ensures SnakeToCamelKey([c] + rest) == [c] + SnakeToCamelKey(rest)
  {
    assert ([c] + rest)[1..] == rest;
  }

  lemma SnakeOf(c: char, rest: string)
    ensures CamelToSnakeKey([c] + rest) == (if IsUpper(c) then ['_', LowerChar(c)] else [c]) + CamelToSnakeKey(rest)
  {
    assert ([c] + rest)[1..] == rest;
  }

  // A first character that begins no snake pair makes the round trip by itself.
  lemma FirstMakesRoundTrip(k: string)
    requires k != "" && !PairAt(k, 0)
    ensures SnakeToCamelKey(CamelToSnakeKey(k)) == [k[0]] + SnakeToCamelKey(CamelToSnakeKey(k[1..]))
  {
    var rest := CamelToSnakeKey(k[1..]);
    if IsUpper(k[0]) {
      CamelOfPair(LowerChar(k[0]), rest);
    } else {
      assert rest != "" ==> rest[0] == if IsUpper(k[1]) then '_' else k[1];
      CamelOfOther(k[0], rest);
    }
  }

  // A round trip never lengthens a key and shortens every key with a snake pair.
  lemma {:induction false} RoundTripShortens(k: string)
    ensures |SnakeToCamelKey(CamelToSnakeKey(k))| <= |k|
    ensures HasSnakePair(k) ==> |SnakeToCamelKey(CamelToSnakeKey(k))| < |k|
    decreases |k|
  {
    if k != "" {
      var s := CamelToSnakeKey(k);
      if IsUpper(k[0]) {
        assert s[2..] == CamelToSnakeKey(k[1..]);
        RoundTripShortens(k[1..]);
        PairNotFirst(k);
      } else if PairAt(k, 0) {
        assert CamelToSnakeKey(k[1..]) == [k[1]] + CamelToSnakeKey(k[1..][1..]);
        assert k[1..][1..] == k[2..];
        assert s[2..] == CamelToSnakeKey(k[2..]);
        RoundTripShortens(k[2..]);
      } else {
        assert s[1..] == CamelToSnakeKey(k[1..]);
        RoundTripShortens(k[1..]);
        PairNotFirst(k);
      }
    }
  }

  lemma PairNotFirst(k: string)
    requires k != "" && !PairAt(k, 0)
    ensures HasSnakePair(k) <==> HasSnakePair(k[1..])
  {
    if HasSnakePair(k) {
      var i: nat :| i < |k| && PairAt(k, i);
      assert PairAt(k[1..], i - 1);
    }
    if HasSnakePair(k[1..]) { PairOfTail(k, 1); }
  }

  // Translating to snake case and back is the identity on a key exactly when it has no snake pair.
  lemma {:induction false} KeyRoundTrip(k: string)
    ensures SnakeToCamelKey(CamelToSnakeKey(k)) == k <==> !HasSnakePair(k)
  {
    if HasSnakePair(k) { RoundTripShortens(k); } else { RoundTripKey(k); }
  }

  predicate NoUpper(k: string) { forall i :: 0 <= i < |k| ==> !IsUpper(k[i]) }

  predicate DigitPairAt(k: string, i: nat) { i + 1 < |k| && k[i] == '_' && IsDigit(k[i + 1]) }

  predicate HasDigitPair(k: string) { exists i: nat :: i < |k| && DigitPairAt(k, i) }

  lemma {:induction false} SnakeHasNoUpper(k: string)
    ensures NoUpper(CamelToSnakeKey(k))
  {
    if k != "" { SnakeHasNoUpper(k[1..]); }
  }

  lemma DigitPairNotFirst(k: string, n: nat)
    requires n <= |k| && forall i: nat :: i < n ==> !DigitPairAt(k, i)
    ensures HasDigitPair(k) <==> HasDigitPair(k[n..])
  {
    if HasDigitPair(k) {
      var i: nat :| i < |k| && DigitPairAt(k, i);
      assert DigitPairAt(k[n..], i - n);
    }
    if HasDigitPair(k[n..]) {
      var i: nat :| i < |k[n..]| && DigitPairAt(k[n..], i);
      assert DigitPairAt(k, n + i);
    }
  }

  function ThereAndBack(k: string): string { CamelToSnakeKey(SnakeToCamelKey(k)) }

  lemma LowerOfUpper(c: char)
    requires IsTail(c)
    ensures IsUpper(UpperChar(c)) <==> !IsDigit(c)
    ensures LowerChar(UpperChar(c)) == c
  {
  }

  lemma ThereAndBackStep(k: string)
    requires NoUpper(k) && k != ""
    ensures ThereAndBack(k)
            == if !PairAt(k, 0) then [k[0]] + ThereAndBack(k[1..])
               else if IsDigit(k[1]) then [k[1]] + ThereAndBack(k[2..])
               else ['_', k[1]] + ThereAndBack(k[2..])
  {
    if PairAt(k, 0) {
      assert SnakeToCamelKey(k) == [UpperChar(k[1])] + SnakeToCamelKey(k[2..]);
      SnakeOf(UpperChar(k[1]), SnakeToCamelKey(k[2..]));
      LowerOfUpper(k[1]);
    } else {
      assert SnakeToCamelKey(k) == [k[0]] + SnakeToCamelKey(k[1..]);
      SnakeOf(k[0], SnakeToCamelKey(k[1..]));
    }
  }

  // The way back from camel case never lengthens a key without uppercase letters, and is the
  // identity on it exactly when no underscore precedes a digit.
  lemma {:induction false} ReverseOnLower(k: string)
    requires NoUpper(k)
    ensures |ThereAndBack(k)| <= |k|
    ensures ThereAndBack(k) == k <==> !HasDigitPair(k)
    ensures HasDigitPair(k) ==> |ThereAndBack(k)| < |k|
    decreases |k|
  {
    if k != "" {
      ThereAndBackStep(k);
      if PairAt(k, 0) {
        ReverseOnLower(k[2..]);
        assert k == ['_', k[1]] + k[2..];
        if IsDigit(k[1]) { assert DigitPairAt(k, 0); } else { DigitPairNotFirst(k, 2); }
      } else {
        ReverseOnLower(k[1..]);
        assert k == [k[0]] + k[1..];
        DigitPairNotFirst(k, 1);
      }
    }
  }

  // The reverse composition is the identity on a key exactly when the key has no uppercase letter
  // and no underscore followed by a digit.
  lemma {:induction false} KeyReverseRoundTrip(k: string)
    ensures CamelToSnakeKey(SnakeToCamelKey(k)) == k <==> NoUpper(k) && !HasDigitPair(k)
  {
    SnakeHasNoUpper(SnakeToCamelKey(k));
    if NoUpper(k) { ReverseOnLower(k); }
  }

  // ---------------------------------------------------------------- trees

  // A scalar is any value that is neither an array nor a plain object.
  datatype Json = Scalar(text: string) | Array(items: seq<Json>) | Object(members: seq<Member>)

  datatype Member = Member(key: string, value: Json)

  // `out[key] = value`: overwrite in place, or append.
  function Assign(out: seq<Member>, key: string, value: Json): seq<Member> {
    if out == [] then [Member(key, value)]
    else if out[0].key == key then [Member(key, value)] + out[1..]
    else [out[0]] + Assign(out[1..], key, value)
  }

  function Translate(f: string -> string, j: Json): Json
    decreases j, 1
  {
    match j
    case Scalar(_) => j
    case Array(items) => Array(TranslateItems(f, items))
    case Object(members) => Object(TranslateMembers(f, members))
  }

  function TranslateItems(f: string -> string, items: seq<Json>): (r: seq<Json>)
    ensures |r| == |items|
    ensures forall i :: 0 <= i < |items| ==> r[i] == Translate(f, items[i])
    decreases items, 0
  {
    if items == [] then []
    else TranslateItems(f, items[..|items| - 1]) + [Translate(f, items[|items| - 1])]
  }

  function TranslateMembers(f: string -> string, members: seq<Member>): seq<Member>
    decreases members, 0
  {
    if members == [] then []
    else
      var last := members[|members| - 1];
      Assign(TranslateMembers(f, members[..|members| - 1]), f(last.key), Translate(f, last.value))
  }

  method TranslateKeys(f: string -> string, input: Json) returns (r: Json)
    ensures r == Translate(f, input)
    decreases input
  {
    match input {
      case Scalar(_) =>
        r := input;
      case Array(items) =>
        var mapped := [];
        for i := 0 to |items|
          invariant mapped == TranslateItems(f, items[..i])
        {
          var item := TranslateKeys(f, items[i]);
          mapped := mapped + [item];
          assert items[..i + 1][..i] == items[..i];
        }
        assert items[..|items|] == items;
        r := Array(mapped);
      case Object(members) =>
        var out := [];
        for i := 0 to |members|
          invariant out == TranslateMembers(f, members[..i])
        {
          var value := TranslateKeys(f, members[i].value);
          out := Assign(out, f(members[i].key), value);
          assert members[..i + 1][..i] == members[..i];
        }
        assert members[..|members|] == members;
        r := Object(out);
    }
  }

  method SnakeToCamel(input: Json) returns (r: Json)
    ensures r == Translate(SnakeToCamelKey, input)
  {
    r := TranslateKeys(SnakeToCamelKey, input);
  }

  method CamelToSnake(input: Json) returns (r: Json)
    ensures r == Translate(CamelToSnakeKey, input)
  {
    r := TranslateKeys(CamelToSnakeKey, input);
  }

  // ---------------------------------------------------------------- equality up to key order

  ghost predicate Distinct(ms: seq<Member>) {
    forall i, j :: 0 <= i < j < |ms| ==> ms[i].key != ms[j].key
  }

  // No object anywhere has a key twice.
  ghost predicate WellFormed(j: Json)
    decreases j
  {
    match j
    case Scalar(_) => true
    case Array(items) => forall i :: 0 <= i < |items| ==> WellFormed(items[i])
    case Object(members) => Distinct(members) && forall i :: 0 <= i < |members| ==> WellFormed(members[i].value)
  }

  function Keys(ms: seq<Member>): set<string> { set i | 0 <= i < |ms| :: ms[i].key }

  // The same value, objects compared by their keys regardless of order.
  ghost predicate Same(a: Json, b: Json)
    decreases a
  {
    match a
    case Scalar(_) => a == b
    case Array(items) =>
      b.Array? && |b.items| == |items| && forall i :: 0 <= i < |items| ==> Same(items[i], b.items[i])
    case Object(members) =>
      && b.Object? && Keys(members) == Keys(b.members)
      && forall i, j :: 0 <= i < |members| && 0 <= j < |b.members| && members[i].key == b.members[j].key
                        ==> Same(members[i].value, b.members[j].value)
  }

  ghost predicate NoSnakePairIn(j: Json)
    decreases j
  {
    match j
    case Scalar(_) => true
    case Array(items) => forall i :: 0 <= i < |items| ==> NoSnakePairIn(items[i])
    case Object(members) =>
      forall i :: 0 <= i < |members| ==> !HasSnakePair(members[i].key) && NoSnakePairIn(members[i].value)
  }

  function RoundTrip(j: Json): Json { Translate(SnakeToCamelKey, Translate(CamelToSnakeKey, j)) }

  // ---------------------------------------------------------------- filling an object

  lemma {:induction false} AssignKeys(out: seq<Member>, key: string, value: Json)
    ensures Keys(Assign(out, key, value)) == Keys(out) + {key}
  {
    if out == [] {
      assert Assign(out, key, value)[0].key == key;
    } else {
      SplitKeys(out);
      SplitKeys(Assign(out, key, value));
      if out[0].key == key {
        assert Assign(out, key, value)[1..] == out[1..];
      } else {
        AssignKeys(out[1..], key, value);
        assert Assign(out, key, value)[1..] == Assign(out[1..], key, value);
      }
    }
  }

  // A key that is not there yet is appended.
  lemma {:induction false} AssignAppends(out: seq<Member>, key: string, value: Json)
    requires key !in Keys(out)
    ensures Assign(out, key, value) == out + [Member(key, value)]
  {
    if out != [] {
      SplitKeys(out);
      AssignAppends(out[1..], key, value);
      assert out[0].key in Keys(out);
      assert out + [Member(key, value)] == [out[0]] + (out[1..] + [Member(key, value)]);
    }
  }

  lemma SplitKeys(ms: seq<Member>)
    requires ms != []
    ensures Keys(ms) == {ms[0].key} + Keys(ms[1..])
  {
    forall k | k in Keys(ms) ensures k in {ms[0].key} + Keys(ms[1..]) {
      var i :| 0 <= i < |ms| && ms[i].key == k;
      if i > 0 { assert ms[1..][i - 1].key == k; }
    }
    forall k | k in Keys(ms[1..]) ensures k in Keys(ms) {
      var i :| 0 <= i < |ms[1..]| && ms[1..][i].key == k;
      assert ms[i + 1].key == k;
    }
  }

  lemma KeysOfInit(ms: seq<Member>)
    requires ms != []
    ensures Keys(ms) == Keys(ms[..|ms| - 1]) + {ms[|ms| - 1].key}
  {
    var n := |ms| - 1;
    forall k | k in Keys(ms) ensures k in Keys(ms[..n]) + {ms[n].key} {
      var i :| 0 <= i < |ms| && ms[i].key == k;
      if i < n { assert ms[..n][i].key == k; }
    }
    forall k | k in Keys(ms[..n]) ensures k in Keys(ms) {
      var i :| 0 <= i < n && ms[..n][i].key == k;
      assert ms[i].key == k;
    }
    assert ms[n].key in Keys(ms);
  }

  // The keys of a translated object are the images of the keys.
  lemma {:induction false} TranslatedKeys(f: string -> string, ms: seq<Member>)
    ensures Keys(TranslateMembers(f, ms)) == set k | k in Keys(ms) :: f(k)
  {
    if ms != [] {
      var n := |ms| - 1;
      TranslatedKeys(f, ms[..n]);
      AssignKeys(TranslateMembers(f, ms[..n]), f(ms[n].key), Translate(f, ms[n].value));
      KeysOfInit(ms);
    }
  }

  // Keys with distinct images never merge: members are translated one by one, in order.
  lemma {:induction false} TranslatedInOrder(f: string -> string, ms: seq<Member>)
    requires forall i, j :: 0 <= i < j < |ms| ==> f(ms[i].key) != f(ms[j].key)
    ensures |TranslateMembers(f, ms)| == |ms|
    ensures forall i :: 0 <= i < |ms| ==> TranslateMembers(f, ms)[i] == Member(f(ms[i].key), Translate(f, ms[i].value))
  {
    if ms != [] {
      var n := |ms| - 1;
      TranslatedInOrder(f, ms[..n]);
      var init := TranslateMembers(f, ms[..n]);
      forall i | 0 <= i < n ensures init[i].key != f(ms[n].key) { assert init[i].key == f(ms[..n][i].key); }
      AssignAppends(init, f(ms[n].key), Translate(f, ms[n].value));
    }
  }

  // ---------------------------------------------------------------- the round trip on trees

  // If some key of an object has a snake pair, the round trip changes the set of its keys: the
  // longest such key has no preimage.
  lemma {:induction false} PairChangesKeys(ms: seq<Member>, i: nat)
    requires i < |ms| && HasSnakePair(ms[i].key)
    ensures Keys(TranslateMembers(SnakeToCamelKey, TranslateMembers(CamelToSnakeKey, ms))) != Keys(ms)
  {
    TranslatedKeys(CamelToSnakeKey, ms);
    TranslatedKeys(SnakeToCamelKey, TranslateMembers(CamelToSnakeKey, ms));
    var result := Keys(TranslateMembers(SnakeToCamelKey, TranslateMembers(CamelToSnakeKey, ms)));
    var longest := LongestPair(ms, |ms|, i);
    var k := ms[longest].key;
    assert k in Keys(ms);
    if k in result {
      var s :| s in Keys(TranslateMembers(CamelToSnakeKey, ms)) && SnakeToCamelKey(s) == k;
      var k' :| k' in Keys(ms) && CamelToSnakeKey(k') == s;
      NotHit(ms, longest, k');
    }
  }

  // No key of the object makes the round trip to its longest key with a snake pair.
  lemma NotHit(ms: seq<Member>, longest: nat, k: string)
    requires longest < |ms| && k in Keys(ms) && HasSnakePair(ms[longest].key)
    requires forall j :: 0 <= j < |ms| && HasSnakePair(ms[j].key) ==> |ms[j].key| <= |ms[longest].key|
    ensures SnakeToCamelKey(CamelToSnakeKey(k)) != ms[longest].key
  {
    KeyRoundTrip(k);
    RoundTripShortens(k);
  }

  lemma {:induction false} LongestPair(ms: seq<Member>, n: nat, i: nat) returns (best: nat)
    requires n <= |ms| && i < n && HasSnakePair(ms[i].key)
    ensures best < n && HasSnakePair(ms[best].key)
    ensures forall j :: 0 <= j < n && HasSnakePair(ms[j].key) ==> |ms[j].key| <= |ms[best].key|
  {
    if i == n - 1 && forall j :: 0 <= j < n - 1 ==> !HasSnakePair(ms[j].key) {
      best := i;
    } else {
      var other :| 0 <= other < n - 1 && HasSnakePair(ms[other].key);
      best := LongestPair(ms, n - 1, other);
      if HasSnakePair(ms[n - 1].key) && |ms[best].key| < |ms[n - 1].key| { best := n - 1; }
    }
  }

  // Without snake pairs on its own keys, an object keeps keys and order, and its members' values
  // make the round trip each.
  lemma {:induction false} RoundTripMembers(ms: seq<Member>)
    requires Distinct(ms) && forall i :: 0 <= i < |ms| ==> !HasSnakePair(ms[i].key)
    ensures var r := TranslateMembers(SnakeToCamelKey, TranslateMembers(CamelToSnakeKey, ms));
            |r| == |ms| && forall i :: 0 <= i < |ms| ==> r[i] == Member(ms[i].key, RoundTrip(ms[i].value))
  {
    forall i | 0 <= i < |ms| ensures SnakeToCamelKey(CamelToSnakeKey(ms[i].key)) == ms[i].key {
      RoundTripKey(ms[i].key);
    }
    TranslatedInOrder(CamelToSnakeKey, ms);
    var t := TranslateMembers(CamelToSnakeKey, ms);
    TranslatedInOrder(SnakeToCamelKey, t);
  }

  // For every tree, translating its keys to snake case and back yields the tree exactly when no key
  // has an underscore directly followed by a lowercase letter or digit; otherwise the result
  // differs even when the order of keys is ignored.
  lemma {:induction false} TreeRoundTrip(j: Json)
    requires WellFormed(j)
    ensures NoSnakePairIn(j) ==> RoundTrip(j) == j
    ensures Same(RoundTrip(j), j) <==> NoSnakePairIn(j)
    decreases j
  {
    match j
    case Scalar(_) =>
    case Array(items) =>
      forall i | 0 <= i < |items|
        ensures NoSnakePairIn(items[i]) ==> RoundTrip(items[i]) == items[i]
        ensures Same(RoundTrip(items[i]), items[i]) <==> NoSnakePairIn(items[i])
      {
        TreeRoundTrip(items[i]);
      }
      RoundTripArray(items);
    case Object(members) =>
      forall i | 0 <= i < |members|
        ensures NoSnakePairIn(members[i].value) ==> RoundTrip(members[i].value) == members[i].value
        ensures Same(RoundTrip(members[i].value), members[i].value) <==> NoSnakePairIn(members[i].value)
      {
        TreeRoundTrip(members[i].value);
      }
      RoundTripObject(members);
  }

  lemma RoundTripArray(items: seq<Json>)
    requires forall i :: 0 <= i < |items| ==>
               && (NoSnakePairIn(items[i]) ==> RoundTrip(items[i]) == items[i])
               && (Same(RoundTrip(items[i]), items[i]) <==> NoSnakePairIn(items[i]))
    ensures NoSnakePairIn(Array(items)) ==> RoundTrip(Array(items)) == Array(items)
    ensures Same(RoundTrip(Array(items)), Array(items)) <==> NoSnakePairIn(Array(items))
  {
    var r := RoundTrip(Array(items));
    assert |r.items| == |items| && forall i :: 0 <= i < |items| ==> r.items[i] == RoundTrip(items[i]);
  }

  lemma RoundTripObject(ms: seq<Member>)
    requires Distinct(ms)
    requires forall i :: 0 <= i < |ms| ==>
               && (NoSnakePairIn(ms[i].value) ==> RoundTrip(ms[i].value) == ms[i].value)
               && (Same(RoundTrip(ms[i].value), ms[i].value) <==> NoSnakePairIn(ms[i].value))
    ensures NoSnakePairIn(Object(ms)) ==> RoundTrip(Object(ms)) == Object(ms)
    ensures Same(RoundTrip(Object(ms)), Object(ms)) <==> NoSnakePairIn(Object(ms))
  {
    var r := TranslateMembers(SnakeToCamelKey, TranslateMembers(CamelToSnakeKey, ms));
    assert RoundTrip(Object(ms)) == Object(r);
    if i :| 0 <= i < |ms| && HasSnakePair(ms[i].key) {
      PairChangesKeys(ms, i);
    } else {
      RoundTripMembers(ms);
      SameMembers(ms, r);
    }
  }

  // Members with the same keys are the same object exactly when their values are the same.
  lemma SameMembers(ms: seq<Member>, r: seq<Member>)
    requires Distinct(ms) && forall i :: 0 <= i < |ms| ==> !HasSnakePair(ms[i].key)
    requires forall i :: 0 <= i < |ms| ==>
               && (NoSnakePairIn(ms[i].value) ==> RoundTrip(ms[i].value) == ms[i].value)
               && (Same(RoundTrip(ms[i].value), ms[i].value) <==> NoSnakePairIn(ms[i].value))
    requires |r| == |ms| && forall i :: 0 <= i < |ms| ==> r[i] == Member(ms[i].key, RoundTrip(ms[i].value))
    ensures NoSnakePairIn(Object(ms)) ==> r == ms
    ensures Same(Object(r), Object(ms)) <==> NoSnakePairIn(Object(ms))
  {
    assert Keys(r) == Keys(ms) by {
      assert forall i :: 0 <= i < |ms| ==> r[i].key == ms[i].key;
    }
    if NoSnakePairIn(Object(ms)) {
      assert r == ms;
      forall i, j | 0 <= i < |r| && 0 <= j < |ms| && r[i].key == ms[j].key ensures Same(r[i].value, ms[j].value) {
        assert ms[i].key == ms[j].key;
      }
    } else {
      var i :| 0 <= i < |ms| && !NoSnakePairIn(ms[i].value);
      assert r[i].key == ms[i].key && !Same(r[i].value, ms[i].value);
    }
  }

  // On keys without snake pairs the translation to snake case is injective, so no members merge.
  lemma {:induction false} CamelToSnakeInjective(a: string, b: string)
    requires !HasSnakePair(a) && !HasSnakePair(b) && CamelToSnakeKey(a) == CamelToSnakeKey(b)
    ensures a == b
  {
    RoundTripKey(a);
    RoundTripKey(b);
  }
}
