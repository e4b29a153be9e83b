/**
 * Lists kept in one text column: joined with a spaced middle dot when a brief is written, split
 * again when it is read without its payload.
 */
module SummaryText {

  const SEPARATOR: string := " \U{00b7} "

  function Join(items: seq<string>): string {
    if items == [] then "" else if |items| == 1 then items[0] else items[0] + SEPARATOR + Join(items[1..])
  }

  predicate SeparatorAt(s: string, i: nat) {
    i + 3 <= |s| && s[i] == SEPARATOR[0] && s[i + 1] == SEPARATOR[1] && s[i + 2] == SEPARATOR[2]
  }

  // The position of the first separator, or the length of the text.
  function FirstSeparator(s: string, from: nat): (i: nat)
    requires from <= |s|
    ensures from <= i <= |s| && (i < |s| ==> SeparatorAt(s, i))
    ensures forall k :: from <= k < i ==> !SeparatorAt(s, k)
    decreases |s| - from
  {
    if from == |s| || SeparatorAt(s, from) then from else FirstSeparator(s, from + 1)
  }

  function Split(s: string): seq<string>
    decreases |s|
  {
    var i := FirstSeparator(s, 0);
    if i == |s| then [s] else [s[..i]] + Split(s[i + 3..])
  }

  // What reading the column yields: an absent or empty text gives the empty list.
  function ReadColumn(s: string): seq<string> {
    if s == "" then [] else Split(s)
  }

  ghost predicate Contains(s: string) { exists i: nat :: i < |s| && SeparatorAt(s, i) }

  predicate EndsHalfway(s: string) {
    |s| >= 2 && s[|s| - 2] == SEPARATOR[0] && s[|s| - 1] == SEPARATOR[1]
  }

  // No element contains the separator and none but the last ends in its first two characters.
  ghost predicate Splittable(items: seq<string>) {
    && (forall i :: 0 <= i < |items| ==> !Contains(items[i]))
    && (forall i :: 0 <= i < |items| - 1 ==> !EndsHalfway(items[i]))
  }

  // The conditions said of whole texts: a separator stands somewhere inside, or all but its last character
  // at the end.
  lemma ContainsMeans(s: string)
    ensures Contains(s) <==> exists a, b :: IsAround(s, a, b)
    ensures EndsHalfway(s) <==> |s| >= 2 && s[|s| - 2..] == SEPARATOR[..2]
  {
    if Contains(s) {
      var i: nat :| i < |s| && SeparatorAt(s, i);
      assert s[i..i + 3] == SEPARATOR;
      assert IsAround(s, s[..i], s[i + 3..]);
    }
    if a, b :| IsAround(s, a, b) { AroundIsAt(s, a, b); }
    if |s| >= 2 { assert s[|s| - 2..] == [s[|s| - 2], s[|s| - 1]]; }
  }

  lemma AroundIsAt(s: string, a: string, b: string)
    requires IsAround(s, a, b)
    ensures SeparatorAt(s, |a|)
  {
    assert s[|a|] == SEPARATOR[0] && s[|a| + 1] == SEPARATOR[1] && s[|a| + 2] == SEPARATOR[2];
  }

  predicate IsAround(s: string, a: string, b: string) { s == a + SEPARATOR + b }

  lemma FirstSeparatorIs(s: string, i: nat)
    requires i <= |s| && (i < |s| ==> SeparatorAt(s, i)) && forall k: nat :: k < i ==> !SeparatorAt(s, k)
    ensures FirstSeparator(s, 0) == i
  {
  }

  // An element followed by a separator is split off whole exactly when it neither contains the
  // separator nor ends halfway into one; otherwise the first piece is shorter.
  lemma FirstPiece(a: string, rest: string)
    ensures var s := a + SEPARATOR + rest;
            if !Contains(a) && !EndsHalfway(a) then FirstSeparator(s, 0) == |a| else FirstSeparator(s, 0) < |a|
  {
    var s := a + SEPARATOR + rest;
    assert s[|a|] == SEPARATOR[0] && s[|a| + 1] == SEPARATOR[1] && s[|a| + 2] == SEPARATOR[2];
    assert SeparatorAt(s, |a|);
    if Contains(a) {
      var i: nat :| i < |a| && SeparatorAt(a, i);
      assert SeparatorAt(s, i);
    } else if EndsHalfway(a) {
      assert SeparatorAt(s, |a| - 2);
    } else {
      forall k: nat | k < |a| ensures !SeparatorAt(s, k) {
        if k + 3 <= |a| { assert !SeparatorAt(a, k); }
      }
      FirstSeparatorIs(s, |a|);
    }
  }

  lemma SplitWhole(a: string)
    ensures Split(a) == [a] <==> !Contains(a)
  {
    if Contains(a) {
      var i: nat :| i < |a| && SeparatorAt(a, i);
      assert FirstSeparator(a, 0) != |a|;
      assert Split(a)[0] != a;
    } else {
      FirstSeparatorIs(a, |a|);
    }
  }

  lemma HeadIsSplitOff(a: string, rest: string)
    requires !Contains(a) && !EndsHalfway(a)
    ensures Split(a + SEPARATOR + rest) == [a] + Split(rest)
  {
    var s := a + SEPARATOR + rest;
    FirstPiece(a, rest);
    assert s[..|a|] == a && s[|a| + 3..] == rest;
  }

  lemma HeadIsTorn(a: string, rest: string)
    requires Contains(a) || EndsHalfway(a)
    ensures Split(a + SEPARATOR + rest)[0] != a
  {
    FirstPiece(a, rest);
    assert |Split(a + SEPARATOR + rest)[0]| < |a|;
  }

  lemma {:induction false} SplitJoinIff(items: seq<string>)
    requires items != []
    ensures Split(Join(items)) == items <==> Splittable(items)
    decreases |items|
  {
    var a := items[0];
    if |items| == 1 {
      SplitWhole(a);
    } else if Contains(a) || EndsHalfway(a) {
      HeadIsTorn(a, Join(items[1..]));
    } else {
      HeadIsSplitOff(a, Join(items[1..]));
      SplitJoinIff(items[1..]);
      SplittableTail(items);
      assert items == [a] + items[1..];
      assert ([a] + Split(Join(items[1..])))[1..] == Split(Join(items[1..]));
    }
  }

  lemma SplittableTail(items: seq<string>)
    requires |items| > 1 && !Contains(items[0]) && !EndsHalfway(items[0])
    ensures Splittable(items) <==> Splittable(items[1..])
  {
    if Splittable(items[1..]) {
      forall i | 0 < i < |items| ensures !Contains(items[i]) { assert items[1..][i - 1] == items[i]; }
      forall i | 0 < i < |items| - 1 ensures !EndsHalfway(items[i]) { assert items[1..][i - 1] == items[i]; }
    }
  }

  lemma {:induction false} JoinIsEmpty(items: seq<string>)
    ensures Join(items) == "" <==> items == [] || items == [""]
  {
  }

  // Reading back a joined list gives the list exactly when no element contains the separator, none
  // but the last ends in " <dot>", and the list is not a single empty string.
  lemma ReadBackIff(items: seq<string>)
    ensures ReadColumn(Join(items)) == items <==> Splittable(items) && items != [""]
  {
    JoinIsEmpty(items);
    if items != [] && items != [""] { SplitJoinIff(items); }
  }
}
