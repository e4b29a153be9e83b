/**
 * The preference store and its two writers: card captures that are confident enough, and exceptions
 * a person resolved. Each request runs in one transaction, so a failing one changes nothing.
 */
module Preferences {
  import opened Ascii
  import opened Wrappers

  // ---------------------------------------------------------------- fields and their classification

  datatype Field = Field(name: string, value: string, confidence: real)

  datatype Kind = Pillow | Allergy | Temperature | Dietary | FoodDislike | FoodLike | View | Bedding | RoomType
                | RoomPosition | Amenity | Service | Language | Other

  datatype Polarity = Likes | Dislikes | Requires | Avoids | Noted

  function Lower(s: string): string { seq(|s|, i requires 0 <= i < |s| => LowerChar(s[i])) }

  predicate OccursAt(s: string, t: string, i: nat) { i + |t| <= |s| && s[i..i + |t|] == t }

  predicate Includes(s: string, t: string) {
    exists i: nat :: i <= |s| && OccursAt(s, t, i)
  }

  predicate IncludesAny(s: string, ts: seq<string>) {
    exists k :: 0 <= k < |ts| && Includes(s, ts[k])
  }

  function ClassifyKind(name: string): Kind {
    var n := Lower(name);
    if Includes(n, "pillow") then Pillow
    else if IncludesAny(n, ["allergy", "allergen"]) then Allergy
    else if Includes(n, "temperature") then Temperature
    else if IncludesAny(n, ["diet", "vegan", "vegetarian", "halal", "kosher"]) then Dietary
    else if IncludesAny(n, ["beverage", "drink", "tea", "coffee", "food", "meal"]) then
      (if IncludesAny(n, ["dislike", "avoid"]) then FoodDislike else FoodLike)
    else if Includes(n, "view") then View
    else if Includes(n, "bed") then Bedding
    else if Includes(n, "room") && IncludesAny(n, ["type", "suite"]) then RoomType
    else if IncludesAny(n, ["room", "floor", "quiet", "corridor"]) then RoomPosition
    else if IncludesAny(n, ["amenity", "espresso", "machine"]) then Amenity
    else if IncludesAny(n, ["service", "turndown", "housekeep"]) then Service
    else if IncludesAny(n, ["language", "english", "danish", "speak"]) then Language
    else Other
  }

  function ClassifyPolarity(name: string): Polarity {
    var n := Lower(name);
    if IncludesAny(n, ["allergy", "avoid"]) then Avoids
    else if IncludesAny(n, ["require", "must", "need"]) then Requires
    else if Includes(n, "dislike") then Dislikes
    else if IncludesAny(n, ["like", "prefer", "favourite", "favorite"]) then Likes
    else Noted
  }

  // A rule applies to a lower-cased name that has one of its words and, if it lists further words, one
  // of those too.
  datatype Rule<T> = Rule(words: seq<string>, further: seq<string>, choice: T)

  predicate Applies<T>(r: Rule<T>, n: string) {
    IncludesAny(n, r.words) && (r.further == [] || IncludesAny(n, r.further))
  }

  const FOOD_WORDS := ["beverage", "drink", "tea", "coffee", "food", "meal"]

  const KIND_RULES: seq<Rule<Kind>> := [
    Rule(["pillow"], [], Pillow),
    Rule(["allergy", "allergen"], [], Allergy),
    Rule(["temperature"], [], Temperature),
    Rule(["diet", "vegan", "vegetarian", "halal", "kosher"], [], Dietary),
    Rule(FOOD_WORDS, ["dislike", "avoid"], FoodDislike),
    Rule(FOOD_WORDS, [], FoodLike),
    Rule(["view"], [], View),
    Rule(["bed"], [], Bedding),
    Rule(["room"], ["type", "suite"], RoomType),
    Rule(["room", "floor", "quiet", "corridor"], [], RoomPosition),
    Rule(["amenity", "espresso", "machine"], [], Amenity),
    Rule(["service", "turndown", "housekeep"], [], Service),
    Rule(["language", "english", "danish", "speak"], [], Language)
  ]

  const POLARITY_RULES: seq<Rule<Polarity>> := [
    Rule(["allergy", "avoid"], [], Avoids),
    Rule(["require", "must", "need"], [], Requires),
    Rule(["dislike"], [], Dislikes),
    Rule(["like", "prefer", "favourite", "favorite"], [], Likes)
  ]

  // The first rule that applies decides; none leaves the given value.
  ghost predicate FirstRule<T>(rules: seq<Rule<T>>, n: string, otherwise: T, result: T) {
    if exists i :: 0 <= i < |rules| && Applies(rules[i], n)
    then exists i :: 0 <= i < |rules| && Applies(rules[i], n) && result == rules[i].choice
                     && forall j :: 0 <= j < i ==> !Applies(rules[j], n)
    else result == otherwise
  }

  lemma IncludesOne(n: string, t: string)
    ensures IncludesAny(n, [t]) <==> Includes(n, t)
  {
    assert [t][0] == t;
  }

  lemma {:induction false} FirstApplying<T>(rules: seq<Rule<T>>, n: string, i: nat) returns (first: nat)
    requires i < |rules| && Applies(rules[i], n)
    ensures first < |rules| && Applies(rules[first], n) && forall j :: 0 <= j < first ==> !Applies(rules[j], n)
    decreases i
  {
    if j: nat :| j < i && Applies(rules[j], n) { first := FirstApplying(rules, n, j); } else { first := i; }
  }

  // If the first rule to apply is the given one, and each tells its choice, so does the whole list.
  lemma RulesDecide<T>(rules: seq<Rule<T>>, n: string, otherwise: T, result: T)
    requires forall i :: 0 <= i < |rules| && Applies(rules[i], n) && (forall j :: 0 <= j < i ==> !Applies(rules[j], n))
                         ==> result == rules[i].choice
    requires (forall i :: 0 <= i < |rules| ==> !Applies(rules[i], n)) ==> result == otherwise
    ensures FirstRule(rules, n, otherwise, result)
  {
    if i: nat :| i < |rules| && Applies(rules[i], n) {
      var first := FirstApplying(rules, n, i);
    }
  }

  lemma SingleWords(n: string)
    ensures IncludesAny(n, ["pillow"]) <==> Includes(n, "pillow")
    ensures IncludesAny(n, ["temperature"]) <==> Includes(n, "temperature")
    ensures IncludesAny(n, ["view"]) <==> Includes(n, "view")
    ensures IncludesAny(n, ["bed"]) <==> Includes(n, "bed")
    ensures IncludesAny(n, ["room"]) <==> Includes(n, "room")
    ensures IncludesAny(n, ["dislike"]) <==> Includes(n, "dislike")
  {
    IncludesOne(n, "pillow");
    IncludesOne(n, "temperature");
    IncludesOne(n, "view");
    IncludesOne(n, "bed");
    IncludesOne(n, "room");
    IncludesOne(n, "dislike");
  }

  lemma KindRulesSay(n: string)
    ensures Applies(KIND_RULES[0], n) <==> Includes(n, "pillow")
    ensures Applies(KIND_RULES[1], n) <==> IncludesAny(n, ["allergy", "allergen"])
    ensures Applies(KIND_RULES[2], n) <==> Includes(n, "temperature")
    ensures Applies(KIND_RULES[3], n) <==> IncludesAny(n, ["diet", "vegan", "vegetarian", "halal", "kosher"])
    ensures Applies(KIND_RULES[4], n) <==> IncludesAny(n, FOOD_WORDS) && IncludesAny(n, ["dislike", "avoid"])
    ensures Applies(KIND_RULES[5], n) <==> IncludesAny(n, FOOD_WORDS)
    ensures Applies(KIND_RULES[6], n) <==> Includes(n, "view")
    ensures Applies(KIND_RULES[7], n) <==> Includes(n, "bed")
    ensures Applies(KIND_RULES[8], n) <==> Includes(n, "room") && IncludesAny(n, ["type", "suite"])
    ensures Applies(KIND_RULES[9], n) <==> IncludesAny(n, ["room", "floor", "quiet", "corridor"])
    ensures Applies(KIND_RULES[10], n) <==> IncludesAny(n, ["amenity", "espresso", "machine"])
    ensures Applies(KIND_RULES[11], n) <==> IncludesAny(n, ["service", "turndown", "housekeep"])
    ensures Applies(KIND_RULES[12], n) <==> IncludesAny(n, ["language", "english", "danish", "speak"])
  {
    SingleWords(n);
  }

  lemma KindOfRule(name: string, i: nat)
    requires i < |KIND_RULES| && Applies(KIND_RULES[i], Lower(name))
    requires forall j :: 0 <= j < i ==> !Applies(KIND_RULES[j], Lower(name))
    ensures ClassifyKind(name) == KIND_RULES[i].choice
  {
    KindRulesSay(Lower(name));
  }

  // Rule by rule, in order: a field's kind is that of the first rule its name falls under.
  lemma KindIsFirstRule(name: string)
    ensures FirstRule(KIND_RULES, Lower(name), Other, ClassifyKind(name))
  {
    var n := Lower(name);
    forall i: nat | i < |KIND_RULES| && Applies(KIND_RULES[i], n)
                    && forall j :: 0 <= j < i ==> !Applies(KIND_RULES[j], n)
      ensures ClassifyKind(name) == KIND_RULES[i].choice
    {
      KindOfRule(name, i);
    }
    if forall i :: 0 <= i < |KIND_RULES| ==> !Applies(KIND_RULES[i], n) { KindOfNone(name); }
    RulesDecide(KIND_RULES, n, Other, ClassifyKind(name));
  }

  lemma KindOfNone(name: string)
    requires forall j :: 0 <= j < |KIND_RULES| ==> !Applies(KIND_RULES[j], Lower(name))
    ensures ClassifyKind(name) == Other
  {
    KindRulesSay(Lower(name));
  }

  lemma PolarityIsFirstRule(name: string)
    ensures FirstRule(POLARITY_RULES, Lower(name), Noted, ClassifyPolarity(name))
  {
    var n := Lower(name);
    SingleWords(n);
    assert Applies(POLARITY_RULES[0], n) <==> IncludesAny(n, ["allergy", "avoid"]);
    assert Applies(POLARITY_RULES[1], n) <==> IncludesAny(n, ["require", "must", "need"]);
    assert Applies(POLARITY_RULES[2], n) <==> Includes(n, "dislike");
    assert Applies(POLARITY_RULES[3], n) <==> IncludesAny(n, ["like", "prefer", "favourite", "favorite"]);
    RulesDecide(POLARITY_RULES, n, Noted, ClassifyPolarity(name));
  }

  lemma LowerIsLowered(s: string)
    ensures Lower(Lower(s)) == Lower(s)
  {
  }

  // Neither classification nor the key of a row depends on the case of letters.
  lemma CaseDoesNotMatter(f: Field, g: Field, guest: nat)
    requires Lower(f.name) == Lower(g.name) && Lower(f.value) == Lower(g.value)
    ensures ClassifyPolarity(f.name) == ClassifyPolarity(g.name) && FieldKey(guest, f) == FieldKey(guest, g)
    ensures FieldKey(guest, f) == FieldKey(guest, Field(Lower(f.name), Lower(f.value), f.confidence))
  {
    LowerIsLowered(f.name);
    LowerIsLowered(f.value);
  }

  lemma IncludesEither(n: string, a: string, b: string)
    ensures IncludesAny(n, [a, b]) <==> Includes(n, a) || Includes(n, b)
  {
    assert [a, b][0] == a && [a, b][1] == b;
  }

  // The two classifiers do not contradict each other on food: what is classified as disliked never
  // gets a favourable polarity, what is classified as liked never an unfavourable one.
  lemma FoodPolarityAgrees(name: string)
    ensures ClassifyKind(name) == FoodDislike ==> ClassifyPolarity(name) in {Avoids, Requires, Dislikes}
    ensures ClassifyKind(name) == FoodLike ==> ClassifyPolarity(name) in {Requires, Likes, Noted}
  {
    var n := Lower(name);
    IncludesEither(n, "allergy", "allergen");
    IncludesEither(n, "allergy", "avoid");
    IncludesEither(n, "dislike", "avoid");
  }

  // An allergy is to be avoided only if the field's name says "allergy" or "avoid": one called
  // "allergen" is an allergy of another polarity.
  lemma AllergyPolarity(name: string)
    requires ClassifyKind(name) == Allergy
    ensures ClassifyPolarity(name) == Avoids <==> Includes(Lower(name), "allergy") || Includes(Lower(name), "avoid")
    ensures ClassifyPolarity(name) != Avoids ==> Includes(Lower(name), "allergen")
  {
    var n := Lower(name);
    IncludesEither(n, "allergy", "allergen");
    IncludesEither(n, "allergy", "avoid");
  }

  lemma LacksLetter(s: string, t: string, c: char)
    requires c in t && c !in s
    ensures !Includes(s, t)
  {
    var k :| 0 <= k < |t| && t[k] == c;
    forall i: nat | i <= |s| ensures !OccursAt(s, t, i) {
      assert i + |t| <= |s| ==> s[i..i + |t|][k] == s[i + k];
    }
  }

  lemma AllergenIsNotAvoided()
    ensures ClassifyKind("allergen") == Allergy && ClassifyPolarity("allergen") != Avoids
  {
    var n := "allergen";
    assert Lower(n) == n;
    LacksLetter(n, "pillow", 'p');
    LacksLetter(n, "allergy", 'y');
    LacksLetter(n, "avoid", 'v');
    IncludesEither(n, "allergy", "allergen");
    assert OccursAt(n, n, 0);
    AllergyPolarity(n);
  }

  // ---------------------------------------------------------------- rows

  // The column keeps three decimals, rounding halves away from zero; stored values are thousandths.
  function Stored(c: real): int {
    if c >= 0.0 then (c * 1000.0 + 0.5).Floor else -((-c * 1000.0 + 0.5).Floor)
  }

  predicate InRange(stored: int) { 0 <= stored <= 1000 }

  datatype Source = CardCapture | ExceptionResolution

  datatype Preference = Preference(guest: nat, kind: Kind, polarity: Polarity, detail: string, confidence: int,
                                   count: nat, source: Source)

  datatype Key = Key(guest: nat, kind: Kind, detail: string)

  function KeyOf(p: Preference): Key { Key(p.guest, p.kind, Lower(p.detail)) }

  function FieldKey(guest: nat, f: Field): Key { Key(guest, ClassifyKind(f.name), Lower(f.value)) }

  function Max(a: int, b: int): int { if a < b then b else a }

  // What `GREATEST(confidence, c)` is once stored.
  function Greatest(confidence: int, c: real): int {
    var current := confidence as real / 1000.0;
    Stored(if current < c then c else current)
  }

  function Reinforced(p: Preference, key: Key, c: real): Preference {
    if KeyOf(p) == key then p.(confidence := Greatest(p.confidence, c), count := p.count + 1) else p
  }

  function ReinforceAll(rows: seq<Preference>, key: Key, c: real): (r: seq<Preference>)
    ensures |r| == |rows|
  {
    seq(|rows|, i requires 0 <= i < |rows| => Reinforced(rows[i], key, c))
  }

  predicate HasKey(rows: seq<Preference>, key: Key) {
    exists i :: 0 <= i < |rows| && KeyOf(rows[i]) == key
  }

  // The upsert statement; None when the range constraint of the column rejects it.
  function Upsert(rows: seq<Preference>, guest: nat, f: Field, source: Source): Option<seq<Preference>> {
    var key := FieldKey(guest, f);
    if HasKey(rows, key) then
      var r := ReinforceAll(rows, key, f.confidence);
      if forall i :: 0 <= i < |r| && KeyOf(r[i]) == key ==> InRange(r[i].confidence) then Some(r) else None
    else if InRange(Stored(f.confidence)) then
      Some(rows + [Preference(guest, key.kind, ClassifyPolarity(f.name), f.value, Stored(f.confidence), 1, source)])
    else None
  }

  function Persist(rows: seq<Preference>, guest: nat, fields: seq<Field>, source: Source): Option<seq<Preference>>
    decreases |fields|
  {
    if fields == [] then Some(rows)
    else
      var r := Upsert(rows, guest, fields[0], source);
      if r.None? then None else Persist(r.value, guest, fields[1..], source)
  }

  // ---------------------------------------------------------------- captures and exceptions

  const ACCEPT_CONFIDENCE := 0.75

  function MinConfidence(fields: seq<Field>): real
    requires fields != []
  {
    if |fields| == 1 then fields[0].confidence
    else
      var m := MinConfidence(fields[1..]);
      if fields[0].confidence < m then fields[0].confidence else m
  }

  function AggregateConfidence(fields: seq<Field>): real {
    if fields == [] then 0.0 else MinConfidence(fields)
  }

  datatype ExceptionKind = LowOcrConfidence | OtherKind

  datatype Status = Open | InProgress | Resolved | Dismissed

  datatype ExceptionItem = ExceptionItem(kind: ExceptionKind, status: Status, resolvedAt: Option<int>,
                                         guest: Option<nat>, fields: Option<seq<Field>>)

  // What a patch request asks for; `fields` is the part of its payload patch that matters here.
  datatype PatchRequest = PatchRequest(status: Option<Status>, fields: Option<seq<Field>>, others: bool)

  datatype Store = Store(rows: seq<Preference>, exceptions: seq<ExceptionItem>)

  datatype CaptureResult = Accepted | PendingReview(item: nat) | CaptureFailed

  function Captured(s: Store, guest: Option<nat>, fields: seq<Field>): (Store, CaptureResult) {
    var overall := AggregateConfidence(fields);
    if !InRange(Stored(overall)) then (s, CaptureFailed)
    else if overall < ACCEPT_CONFIDENCE then
      (s.(exceptions := s.exceptions + [ExceptionItem(LowOcrConfidence, Open, None, guest, Some(fields))]),
       PendingReview(|s.exceptions|))
    else if guest.None? then (s, Accepted)
    else
      var r := Persist(s.rows, guest.value, fields, CardCapture);
      if r.Some? then (s.(rows := r.value), Accepted) else (s, CaptureFailed)
  }

  datatype PatchResult = Patched | NothingToUpdate | NotFound | PatchFailed

  function PatchedItem(x: ExceptionItem, p: PatchRequest, now: int): ExceptionItem {
    x.(status := if p.status.Some? then p.status.value else x.status,
       resolvedAt := if p.status == Some(Resolved) || p.status == Some(Dismissed) then Some(now) else x.resolvedAt,
       fields := if p.fields.Some? then p.fields else x.fields)
  }

  function PatchedStore(s: Store, item: nat, p: PatchRequest, now: int): (Store, PatchResult) {
    if p.status.None? && p.fields.None? && !p.others then (s, NothingToUpdate)
    else if item >= |s.exceptions| then (s, NotFound)
    else
      var x := PatchedItem(s.exceptions[item], p, now);
      var exceptions := s.exceptions[item := x];
      if p.status == Some(Resolved) && x.kind == LowOcrConfidence && x.guest.Some? && x.fields.Some? then
        var r := Persist(s.rows, x.guest.value, x.fields.value, ExceptionResolution);
        if r.Some? then (Store(r.value, exceptions), Patched) else (s, PatchFailed)
      else (s.(exceptions := exceptions), Patched)
  }

  // Every row under the key takes the greater confidence and one more count, all others stay.
  ghost predicate Raised(rows: seq<Preference>, key: Key, c: real, after: seq<Preference>) {
    && |after| == |rows|
    && forall i :: 0 <= i < |rows| ==>
         after[i] == if KeyOf(rows[i]) == key
                     then rows[i].(confidence := Max(rows[i].confidence, Stored(c)), count := rows[i].count + 1)
                     else rows[i]
  }

  ghost predicate RaisesInRange(rows: seq<Preference>, key: Key, c: real) {
    forall i :: 0 <= i < |rows| && KeyOf(rows[i]) == key ==> InRange(Max(rows[i].confidence, Stored(c)))
  }

  // The upsert in terms of the rows it meets.
  lemma UpsertIs(rows: seq<Preference>, guest: nat, f: Field, source: Source)
    ensures var u, key := Upsert(rows, guest, f, source), FieldKey(guest, f);
            if HasKey(rows, key)
            then (u.Some? <==> RaisesInRange(rows, key, f.confidence))
              && (u.Some? ==> Raised(rows, key, f.confidence, u.value))
            else (u.Some? <==> InRange(Stored(f.confidence)))
  {
    var key := FieldKey(guest, f);
    forall i | 0 <= i < |rows|
      ensures Greatest(rows[i].confidence, f.confidence) == Max(rows[i].confidence, Stored(f.confidence))
    {
      GreatestIsMax(rows[i].confidence, f.confidence);
    }
    var r := ReinforceAll(rows, key, f.confidence);
    assert forall i :: 0 <= i < |rows| ==> KeyOf(r[i]) == KeyOf(rows[i]);
  }

  // What a patch makes of an item: the status asked for or the one it had, the instant of closing when the
  // request closes it, the patched fields if any; kind and guest never change.
  predicate TakesPatch(x: ExceptionItem, p: PatchRequest, now: int, y: ExceptionItem) {
    && Some(y.status) == (if p.status.None? then Some(x.status) else p.status)
    && y.resolvedAt == (if p.status in {Some(Resolved), Some(Dismissed)} then Some(now) else x.resolvedAt)
    && y.fields == (if p.fields.None? then x.fields else p.fields)
    && y.kind == x.kind && y.guest == x.guest
  }

  // The patched item is a held-back card that the request resolves.
  predicate Confirms(y: ExceptionItem, p: PatchRequest) {
    p.status == Some(Resolved) && y.kind == LowOcrConfidence && y.guest.Some? && y.fields.Some?
  }

  predicate Least(f: Field, fields: seq<Field>) { forall g :: g in fields ==> f.confidence <= g.confidence }

  /** The tables as one request's transaction sees them. */
  class PreferenceStore {
    var rows: seq<Preference>
    var exceptions: seq<ExceptionItem>

    function View(): Store
      reads this
    {
      Store(rows, exceptions)
    }

    constructor ()
      ensures View() == Store([], [])
    {
      rows, exceptions := [], [];
    }

    // The upsert, row by row: update the rows under the field's key, or insert one if there is none.
    method UpsertPreference(guest: nat, f: Field, source: Source) returns (ok: bool)
      modifies this
      ensures exceptions == old(exceptions)
      ensures !ok ==> rows == old(rows)
      ensures ok && HasKey(old(rows), FieldKey(guest, f)) ==> Raised(old(rows), FieldKey(guest, f), f.confidence, rows)
      ensures ok && !HasKey(old(rows), FieldKey(guest, f)) ==>
                rows == old(rows) + [Preference(guest, ClassifyKind(f.name), ClassifyPolarity(f.name), f.value,
                                                Stored(f.confidence), 1, source)]
      ensures ok <==> if HasKey(old(rows), FieldKey(guest, f))
                      then RaisesInRange(old(rows), FieldKey(guest, f), f.confidence)
                      else InRange(Stored(f.confidence))
      ensures Upsert(old(rows), guest, f, source) == if ok then Some(rows) else None
    {
      var key := FieldKey(guest, f);
      var updated := rows;
      var hit := false;
      for i := 0 to |rows|
        invariant |updated| == |rows| && rows == old(rows) && exceptions == old(exceptions)
        invariant hit <==> exists j :: 0 <= j < i && KeyOf(rows[j]) == key
        invariant forall j :: 0 <= j < |rows| ==>
                                updated[j] == if j < i then Reinforced(rows[j], key, f.confidence) else rows[j]
        invariant forall j :: 0 <= j < i && KeyOf(rows[j]) == key ==> InRange(updated[j].confidence)
      {
        if KeyOf(rows[i]) == key {
          GreatestIsMax(rows[i].confidence, f.confidence);
          updated := updated[i := Reinforced(rows[i], key, f.confidence)];
          if !InRange(updated[i].confidence) {
            UpsertIs(rows, guest, f, source);
            return false;
          }
          hit := true;
        }
      }
      UpsertIs(rows, guest, f, source);
      if !hit {
        if !InRange(Stored(f.confidence)) { return false; }
        updated := rows
          + [Preference(guest, key.kind, ClassifyPolarity(f.name), f.value, Stored(f.confidence), 1, source)];
      } else {
        assert updated == ReinforceAll(rows, key, f.confidence);
      }
      rows := updated;
      ok := true;
    }

    // The loop both writers share: they differ in nothing but the source they record.
    method PersistFields(guest: nat, fields: seq<Field>, source: Source) returns (ok: bool)
      modifies this
      ensures exceptions == old(exceptions)
      ensures Persist(old(rows), guest, fields, source) == if ok then Some(rows) else None
    {
      ok := true;
      var i := 0;
      while i < |fields|
        invariant i <= |fields| && exceptions == old(exceptions)
        invariant Persist(old(rows), guest, fields, source) == Persist(rows, guest, fields[i..], source)
      {
        ok := UpsertPreference(guest, fields[i], source);
        if !ok { return; }
        assert fields[i..][1..] == fields[i + 1..];
        i := i + 1;
      }
    }

    method ProcessCardCapture(guest: Option<nat>, fields: seq<Field>) returns (result: CaptureResult)
      modifies this
      ensures result.Accepted? ==>
                && exceptions == old(exceptions) && (forall f :: f in fields ==> f.confidence >= ACCEPT_CONFIDENCE)
                && fields != [] && Some(rows) == if guest.None? then Some(old(rows))
                                                 else Persist(old(rows), guest.value, fields, CardCapture)
      ensures result.PendingReview? ==>
                && rows == old(rows) && result.item == |old(exceptions)|
                && (fields == [] || exists f :: f in fields && f.confidence < ACCEPT_CONFIDENCE)
                && exceptions == old(exceptions) + [ExceptionItem(LowOcrConfidence, Open, None, guest, Some(fields))]
      ensures fields == [] ==> result.PendingReview?
      ensures result.CaptureFailed? ==> View() == old(View())
      ensures result.CaptureFailed? <==>
                || (exists f :: f in fields && Least(f, fields) && !InRange(Stored(f.confidence)))
                || ((forall f :: f in fields ==> f.confidence >= ACCEPT_CONFIDENCE) && fields != [] && guest.Some?
                    && Persist(old(rows), guest.value, fields, CardCapture).None?)
      ensures (View(), result) == Captured(old(View()), guest, fields)
    {
      if fields != [] { MinIsLeast(fields); }
      var savedRows := rows;
      var overall := AggregateConfidence(fields);
      if !InRange(Stored(overall)) { return CaptureFailed; }
      if overall < ACCEPT_CONFIDENCE {
        exceptions := exceptions + [ExceptionItem(LowOcrConfidence, Open, None, guest, Some(fields))];
        return PendingReview(|exceptions| - 1);
      }
      if guest.Some? {
        var ok := PersistFields(guest.value, fields, CardCapture);
        if !ok {
          rows := savedRows;
          return CaptureFailed;
        }
      }
      return Accepted;
    }

    method Patch(item: nat, p: PatchRequest, now: int) returns (result: PatchResult)
      modifies this
      ensures result.NothingToUpdate? <==> p.status.None? && p.fields.None? && !p.others
      ensures result.NotFound? <==> !result.NothingToUpdate? && item >= |old(exceptions)|
      ensures result.Patched? ==>
                && item < |exceptions| && exceptions == old(exceptions)[item := exceptions[item]]
                && TakesPatch(old(exceptions)[item], p, now, exceptions[item])
                && Some(rows) == if Confirms(exceptions[item], p)
                                 then Persist(old(rows), exceptions[item].guest.value, exceptions[item].fields.value,
                                              ExceptionResolution)
                                 else Some(old(rows))
      ensures !result.Patched? ==> View() == old(View())
      ensures (View(), result) == PatchedStore(old(View()), item, p, now)
    {
      var saved := View();
      if p.status.None? && p.fields.None? && !p.others { return NothingToUpdate; }
      if item >= |exceptions| { return NotFound; }
      var x := PatchedItem(exceptions[item], p, now);
      exceptions := exceptions[item := x];
      if p.status == Some(Resolved) && x.kind == LowOcrConfidence && x.guest.Some? && x.fields.Some? {
        var ok := PersistFields(x.guest.value, x.fields.value, ExceptionResolution);
        if !ok {
          rows, exceptions := saved.rows, saved.exceptions;
          return PatchFailed;
        }
      }
      return Patched;
    }
  }

  // ---------------------------------------------------------------- rounding

  lemma StoredIsMonotone(a: real, b: real)
    requires a <= b
    ensures Stored(a) <= Stored(b)
  {
  }

  // The column keeps the nearest thousandth and, of two equally near, the one farther from zero.
  lemma StoredIsNearest(c: real)
    ensures var off := Stored(c) as real - c * 1000.0;
            -0.5 <= off <= 0.5 && (off == 0.5 ==> c > 0.0) && (off == -0.5 ==> c < 0.0)
  {
  }

  lemma StoredOfThousandths(n: int)
    ensures Stored(n as real / 1000.0) == n
  {
    var c := n as real / 1000.0;
    assert c * 1000.0 == n as real;
    if n >= 0 {
      assert (n as real + 0.5).Floor == n;
    } else {
      assert -c * 1000.0 == (-n) as real;
      assert ((-n) as real + 0.5).Floor == -n;
    }
  }

  // Rounding after taking the greatest is taking the greatest of the rounded values.
  lemma GreatestIsMax(confidence: int, c: real)
    ensures Greatest(confidence, c) == Max(confidence, Stored(c))
  {
    var current := confidence as real / 1000.0;
    StoredOfThousandths(confidence);
    if current < c { StoredIsMonotone(current, c); } else { StoredIsMonotone(c, current); }
  }

  // ---------------------------------------------------------------- what the store says under a key

  // Confidence and reinforcement count under a key, if there is a row.
  ghost function ValueOf(rows: seq<Preference>, key: Key): Option<(int, nat)> {
    if rows == [] then None
    else if KeyOf(rows[0]) == key then Some((rows[0].confidence, rows[0].count))
    else ValueOf(rows[1..], key)
  }

  ghost function Bump(v: Option<(int, nat)>, c: real): Option<(int, nat)> {
    if v.Some? then Some((Max(v.value.0, Stored(c)), v.value.1 + 1)) else Some((Stored(c), 1))
  }

  lemma {:induction false} ValueOfReinforced(rows: seq<Preference>, key: Key, c: real, k: Key)
    ensures ValueOf(ReinforceAll(rows, key, c), k)
         == if k == key && ValueOf(rows, k).Some? then Bump(ValueOf(rows, k), c) else ValueOf(rows, k)
  {
    if rows != [] {
      GreatestIsMax(rows[0].confidence, c);
      assert ReinforceAll(rows, key, c)[1..] == ReinforceAll(rows[1..], key, c);
      ValueOfReinforced(rows[1..], key, c, k);
    }
  }

  lemma {:induction false} ValueOfAppended(rows: seq<Preference>, p: Preference, k: Key)
    ensures ValueOf(rows + [p], k)
         == if ValueOf(rows, k).Some? then ValueOf(rows, k)
            else if KeyOf(p) == k then Some((p.confidence, p.count)) else None
  {
    if rows != [] {
      assert (rows + [p])[1..] == rows[1..] + [p];
      ValueOfAppended(rows[1..], p, k);
    }
  }

  lemma {:induction false} HasKeyIsValue(rows: seq<Preference>, k: Key)
    ensures HasKey(rows, k) <==> ValueOf(rows, k).Some?
  {
    if rows != [] {
      HasKeyIsValue(rows[1..], k);
      if HasKey(rows, k) && KeyOf(rows[0]) != k {
        var i :| 0 <= i < |rows| && KeyOf(rows[i]) == k;
        assert rows[1..][i - 1] == rows[i];
      }
    }
  }

  // An upsert bumps the value under the field's key and no other.
  lemma UpsertBumps(rows: seq<Preference>, guest: nat, f: Field, source: Source, k: Key)
    requires Upsert(rows, guest, f, source).Some?
    ensures ValueOf(Upsert(rows, guest, f, source).value, k)
         == if k == FieldKey(guest, f) then Bump(ValueOf(rows, k), f.confidence) else ValueOf(rows, k)
  {
    var key := FieldKey(guest, f);
    HasKeyIsValue(rows, key);
    if HasKey(rows, key) {
      ValueOfReinforced(rows, key, f.confidence, k);
    } else {
      var p := Preference(guest, key.kind, ClassifyPolarity(f.name), f.value, Stored(f.confidence), 1, source);
      ValueOfAppended(rows, p, k);
    }
  }

  ghost function BumpOne(v: Option<(int, nat)>, guest: nat, f: Field, k: Key): Option<(int, nat)> {
    if k == FieldKey(guest, f) then Bump(v, f.confidence) else v
  }

  ghost function BumpAll(v: Option<(int, nat)>, guest: nat, fields: seq<Field>, k: Key): Option<(int, nat)>
    decreases |fields|
  {
    if fields == [] then v
    else BumpAll(BumpOne(v, guest, fields[0], k), guest, fields[1..], k)
  }

  lemma {:induction false} PersistBumps(rows: seq<Preference>, guest: nat, fields: seq<Field>, source: Source, k: Key)
    requires Persist(rows, guest, fields, source).Some?
    ensures ValueOf(Persist(rows, guest, fields, source).value, k) == BumpAll(ValueOf(rows, k), guest, fields, k)
    decreases |fields|
  {
    if fields != [] {
      UpsertBumps(rows, guest, fields[0], source, k);
      PersistBumps(Upsert(rows, guest, fields[0], source).value, guest, fields[1..], source, k);
    }
  }

  // ---------------------------------------------------------------- order independence

  lemma {:induction false} BumpAllConcat(v: Option<(int, nat)>, guest: nat, a: seq<Field>, b: seq<Field>, k: Key)
    ensures BumpAll(v, guest, a + b, k) == BumpAll(BumpAll(v, guest, a, k), guest, b, k)
    decreases |a|
  {
    if a == [] {
      assert a + b == b;
    } else {
      assert (a + b)[1..] == a[1..] + b;
      BumpAllConcat(BumpOne(v, guest, a[0], k), guest, a[1..], b, k);
    }
  }

  // A field persisted before others leaves the same as one persisted after them.
  lemma {:induction false} BumpOneCommutes(v: Option<(int, nat)>, guest: nat, f: Field, a: seq<Field>, k: Key)
    ensures BumpAll(BumpOne(v, guest, f, k), guest, a, k) == BumpOne(BumpAll(v, guest, a, k), guest, f, k)
    decreases |a|
  {
    if a != [] {
      assert BumpOne(BumpOne(v, guest, f, k), guest, a[0], k) == BumpOne(BumpOne(v, guest, a[0], k), guest, f, k);
      BumpOneCommutes(BumpOne(v, guest, a[0], k), guest, f, a[1..], k);
    }
  }

  lemma BumpAllOne(v: Option<(int, nat)>, guest: nat, f: Field, k: Key)
    ensures BumpAll(v, guest, [f], k) == BumpOne(v, guest, f, k)
  {
    assert [f][1..] == [];
  }

  lemma BumpToFront(v: Option<(int, nat)>, guest: nat, fields: seq<Field>, j: nat, k: Key)
    requires j < |fields|
    ensures BumpAll(v, guest, fields, k) == BumpAll(v, guest, [fields[j]] + fields[..j] + fields[j + 1..], k)
  {
    var x, a, b := fields[j], fields[..j], fields[j + 1..];
    assert fields == a + [x] + b;
    BumpAllConcat(v, guest, a + [x], b, k);
    BumpAllConcat(v, guest, a, [x], k);
    BumpAllConcat(v, guest, [x] + a, b, k);
    BumpAllConcat(v, guest, [x], a, k);
    BumpAllOne(v, guest, x, k);
    BumpAllOne(BumpAll(v, guest, a, k), guest, x, k);
    BumpOneCommutes(v, guest, x, a, k);
  }

  lemma RemoveOne(a: seq<Field>, b: seq<Field>, j: nat)
    requires a != [] && j < |b| && b[j] == a[0] && multiset(a) == multiset(b)
    ensures multiset(a[1..]) == multiset(b[..j] + b[j + 1..])
  {
    assert a == [a[0]] + a[1..];
    assert b == b[..j] + [b[j]] + b[j + 1..];
    assert multiset(a) == multiset{a[0]} + multiset(a[1..]);
    assert multiset(b) == multiset(b[..j]) + multiset{b[j]} + multiset(b[j + 1..]);
    assert multiset(a[1..]) == multiset(a) - multiset{a[0]};
    assert multiset(b[..j] + b[j + 1..]) == multiset(b[..j]) + multiset(b[j + 1..]) == multiset(b) - multiset{b[j]};
  }

  lemma {:induction false} BumpsCommute(v: Option<(int, nat)>, guest: nat, a: seq<Field>, b: seq<Field>, k: Key)
    requires multiset(a) == multiset(b)
    ensures BumpAll(v, guest, a, k) == BumpAll(v, guest, b, k)
    decreases |a|
  {
    if a == [] {
      assert |b| == |multiset(b)| == 0;
    } else {
      assert a[0] in multiset(b);
      var j :| 0 <= j < |b| && b[j] == a[0];
      var rest := b[..j] + b[j + 1..];
      RemoveOne(a, b, j);
      BumpToFront(v, guest, b, j, k);
      assert [b[j]] + b[..j] + b[j + 1..] == [a[0]] + rest;
      assert ([a[0]] + rest)[1..] == rest;
      BumpsCommute(BumpOne(v, guest, a[0], k), guest, a[1..], rest, k);
    }
  }

  // ---------------------------------------------------------------- one row per key

  ghost predicate Unique(rows: seq<Preference>) {
    forall i, j :: 0 <= i < j < |rows| ==> KeyOf(rows[i]) != KeyOf(rows[j])
  }

  ghost predicate AllInRange(rows: seq<Preference>) {
    forall i :: 0 <= i < |rows| ==> InRange(rows[i].confidence)
  }

  lemma {:induction false} PersistKeepsUnique(rows: seq<Preference>, guest: nat, fields: seq<Field>, source: Source)
    requires Unique(rows) && AllInRange(rows) && Persist(rows, guest, fields, source).Some?
    ensures Unique(Persist(rows, guest, fields, source).value) && AllInRange(Persist(rows, guest, fields, source).value)
    decreases |fields|
  {
    if fields != [] {
      var r := Upsert(rows, guest, fields[0], source).value;
      assert forall i :: 0 <= i < |rows| ==> KeyOf(r[i]) == KeyOf(rows[i]);
      PersistKeepsUnique(r, guest, fields[1..], source);
    }
  }

  // ---------------------------------------------------------------- when a batch is rejected

  // Whether the range constraint lets one field pass, once the given key is known or not.
  predicate Passes(f: Field, known: bool) {
    Stored(f.confidence) <= 1000 && (Stored(f.confidence) >= 0 || known)
  }

  predicate Earlier(guest: nat, fields: seq<Field>, j: nat)
    requires j < |fields|
  {
    exists i :: 0 <= i < j && FieldKey(guest, fields[i]) == FieldKey(guest, fields[j])
  }

  predicate Acceptable(rows: seq<Preference>, guest: nat, fields: seq<Field>, j: nat)
    requires j < |fields|
  {
    Passes(fields[j], HasKey(rows, FieldKey(guest, fields[j])) || Earlier(guest, fields, j))
  }

  lemma UpsertPasses(rows: seq<Preference>, guest: nat, f: Field, source: Source)
    requires AllInRange(rows)
    ensures Upsert(rows, guest, f, source).Some? <==> Passes(f, HasKey(rows, FieldKey(guest, f)))
  {
    UpsertIs(rows, guest, f, source);
    if HasKey(rows, FieldKey(guest, f)) {
      var i :| 0 <= i < |rows| && KeyOf(rows[i]) == FieldKey(guest, f);
      assert RaisesInRange(rows, FieldKey(guest, f), f.confidence) ==>
          InRange(Max(rows[i].confidence, Stored(f.confidence)));
    }
  }

  lemma UpsertAddsKey(rows: seq<Preference>, guest: nat, f: Field, source: Source, k: Key)
    requires Upsert(rows, guest, f, source).Some?
    ensures HasKey(Upsert(rows, guest, f, source).value, k) <==> HasKey(rows, k) || k == FieldKey(guest, f)
  {
    UpsertBumps(rows, guest, f, source, k);
    HasKeyIsValue(rows, k);
    HasKeyIsValue(Upsert(rows, guest, f, source).value, k);
  }

  lemma UpsertKeepsRange(rows: seq<Preference>, guest: nat, f: Field, source: Source)
    requires AllInRange(rows) && Upsert(rows, guest, f, source).Some?
    ensures AllInRange(Upsert(rows, guest, f, source).value)
  {
    var u := Upsert(rows, guest, f, source).value;
    assert HasKey(rows, FieldKey(guest, f)) ==> forall i :: 0 <= i < |rows| ==> KeyOf(u[i]) == KeyOf(rows[i]);
  }

  lemma LaterAcceptable(rows: seq<Preference>, guest: nat, fields: seq<Field>, source: Source, j: nat)
    requires 0 < j < |fields| && Upsert(rows, guest, fields[0], source).Some?
    ensures Acceptable(Upsert(rows, guest, fields[0], source).value, guest, fields[1..], j - 1)
            <==> Acceptable(rows, guest, fields, j)
  {
    var k := FieldKey(guest, fields[j]);
    UpsertAddsKey(rows, guest, fields[0], source, k);
    assert Earlier(guest, fields, j) <==> FieldKey(guest, fields[0]) == k || Earlier(guest, fields[1..], j - 1) by {
      if Earlier(guest, fields, j) {
        var i :| 0 <= i < j && FieldKey(guest, fields[i]) == k;
        if i > 0 { assert fields[1..][i - 1] == fields[i]; }
      }
      if Earlier(guest, fields[1..], j - 1) {
        var i :| 0 <= i < j - 1 && FieldKey(guest, fields[1..][i]) == k;
        assert fields[i + 1] == fields[1..][i];
      }
    }
  }

  // A batch is persisted if and only if no stored confidence exceeds the range and every negative one
  // comes after a row or a field of its key.
  lemma {:induction false} PersistSucceedsIff(rows: seq<Preference>, guest: nat, fields: seq<Field>, source: Source)
    requires AllInRange(rows)
    ensures Persist(rows, guest, fields, source).Some?
            <==> forall j :: 0 <= j < |fields| ==> Acceptable(rows, guest, fields, j)
    decreases |fields|
  {
    if fields != [] {
      UpsertPasses(rows, guest, fields[0], source);
      assert Acceptable(rows, guest, fields, 0) <==> Upsert(rows, guest, fields[0], source).Some?;
      if Upsert(rows, guest, fields[0], source).Some? {
        var u := Upsert(rows, guest, fields[0], source).value;
        UpsertKeepsRange(rows, guest, fields[0], source);
        PersistSucceedsIff(u, guest, fields[1..], source);
        forall j | 0 < j < |fields|
          ensures Acceptable(u, guest, fields[1..], j - 1) <==> Acceptable(rows, guest, fields, j)
        {
          LaterAcceptable(rows, guest, fields, source, j);
        }
        AllOfTail(rows, u, guest, fields);
      }
    }
  }

  lemma AllOfTail(rows: seq<Preference>, u: seq<Preference>, guest: nat, fields: seq<Field>)
    requires fields != [] && Acceptable(rows, guest, fields, 0)
    requires forall j :: 0 < j < |fields| ==>
               (Acceptable(u, guest, fields[1..], j - 1) <==> Acceptable(rows, guest, fields, j))
    ensures (forall j :: 0 <= j < |fields[1..]| ==> Acceptable(u, guest, fields[1..], j))
            <==> forall j :: 0 <= j < |fields| ==> Acceptable(rows, guest, fields, j)
  {
    if forall j :: 0 <= j < |fields| ==> Acceptable(rows, guest, fields, j) {
      forall j | 0 <= j < |fields[1..]| ensures Acceptable(u, guest, fields[1..], j) {
        assert Acceptable(rows, guest, fields, j + 1);
      }
    }
  }

  // The field would pass as the first of its batch.
  predicate PassesFirst(rows: seq<Preference>, guest: nat, f: Field) { Passes(f, HasKey(rows, FieldKey(guest, f))) }

  lemma SafeOrderSucceeds(rows: seq<Preference>, guest: nat, fields: seq<Field>, b: seq<Field>, source: Source)
    requires AllInRange(rows) && multiset(b) == multiset(fields)
    requires AllPassFirst(rows, guest, fields)
    ensures Persist(rows, guest, b, source).Some?
  {
    PersistSucceedsIff(rows, guest, b, source);
    forall j | 0 <= j < |b| ensures Acceptable(rows, guest, b, j) {
      assert b[j] in multiset(b);
      assert PassesFirst(rows, guest, b[j]);
    }
  }

  lemma ToFront(fields: seq<Field>, j: nat) returns (b: seq<Field>)
    requires j < |fields|
    ensures multiset(b) == multiset(fields) && b != [] && b[0] == fields[j]
  {
    b := [fields[j]] + fields[..j] + fields[j + 1..];
    assert fields == fields[..j] + [fields[j]] + fields[j + 1..];
  }

  ghost predicate EveryOrderSucceeds(rows: seq<Preference>, guest: nat, fields: seq<Field>, source: Source) {
    forall b: seq<Field> :: multiset(b) == multiset(fields) ==> Persist(rows, guest, b, source).Some?
  }

  predicate AllPassFirst(rows: seq<Preference>, guest: nat, fields: seq<Field>) {
    forall f :: f in fields ==> PassesFirst(rows, guest, f)
  }

  // Every order of the fields is persisted if and only if each of them would pass as the first.
  lemma EveryOrderSucceedsIff(rows: seq<Preference>, guest: nat, fields: seq<Field>, source: Source)
    requires AllInRange(rows)
    ensures EveryOrderSucceeds(rows, guest, fields, source) <==> AllPassFirst(rows, guest, fields)
  {
    if AllPassFirst(rows, guest, fields) {
      forall b: seq<Field> | multiset(b) == multiset(fields) ensures Persist(rows, guest, b, source).Some? {
        SafeOrderSucceeds(rows, guest, fields, b, source);
      }
    } else {
      var f :| f in fields && !PassesFirst(rows, guest, f);
      var j :| 0 <= j < |fields| && fields[j] == f;
      var b := ToFront(fields, j);
      UpsertPasses(rows, guest, b[0], source);
      assert Persist(rows, guest, b, source).None?;
    }
  }

  // Confidence and count under every key depend neither on the order in which fields are persisted nor
  // on which of the two writers persists them. Both orders go through when every stored confidence is
  // at most one, and negative only under a key that already has a row.
  lemma OrderDoesNotMatter(rows: seq<Preference>, guest: nat, a: seq<Field>, b: seq<Field>, s1: Source, s2: Source,
                           k: Key)
    requires multiset(a) == multiset(b) && AllInRange(rows)
    ensures var u, v := Persist(rows, guest, a, s1), Persist(rows, guest, b, s2);
            && (AllPassFirst(rows, guest, a) ==> u.Some? && v.Some?)
            && (u.Some? && v.Some? ==> ValueOf(u.value, k) == ValueOf(v.value, k))
  {
    EveryOrderSucceedsIff(rows, guest, a, s1);
    EveryOrderSucceedsIff(rows, guest, a, s2);
    if Persist(rows, guest, a, s1).Some? && Persist(rows, guest, b, s2).Some? {
      PersistBumps(rows, guest, a, s1, k);
      PersistBumps(rows, guest, b, s2, k);
      BumpsCommute(ValueOf(rows, k), guest, a, b, k);
    }
  }

  // Two fields of one key, persisted in one order and rejected in the other.
  lemma OrderDecidesSuccess()
    ensures var f, g := Field("Tea", "green", 0.5), Field("Tea", "green", -0.1);
            Persist([], 0, [f, g], ExceptionResolution).Some? && Persist([], 0, [g, f], ExceptionResolution).None?
  {
    var f, g := Field("Tea", "green", 0.5), Field("Tea", "green", -0.1);
    assert Stored(0.5) == 500 && Stored(-0.1) == -100;
    assert FieldKey(0, [f, g][0]) == FieldKey(0, [f, g][1]);
    PersistSucceedsIff([], 0, [f, g], ExceptionResolution);
    PersistSucceedsIff([], 0, [g, f], ExceptionResolution);
    assert Acceptable([], 0, [f, g], 0) && Acceptable([], 0, [f, g], 1) && !Acceptable([], 0, [g, f], 0);
  }

  // ---------------------------------------------------------------- the two writers agree

  // A row apart from its source.
  function Erase(p: Preference): Preference { p.(source := CardCapture) }

  ghost predicate SameRows(a: seq<Preference>, b: seq<Preference>) {
    |a| == |b| && forall i :: 0 <= i < |a| ==> Erase(a[i]) == Erase(b[i])
  }

  lemma UpsertAgrees(a: seq<Preference>, b: seq<Preference>, guest: nat, f: Field, s1: Source, s2: Source)
    requires SameRows(a, b)
    ensures var u, v := Upsert(a, guest, f, s1), Upsert(b, guest, f, s2);
            u.Some? == v.Some? && (u.Some? ==> SameRows(u.value, v.value))
  {
    var key := FieldKey(guest, f);
    assert forall i :: 0 <= i < |a| ==> KeyOf(a[i]) == KeyOf(Erase(a[i])) && KeyOf(b[i]) == KeyOf(Erase(b[i]));
    assert HasKey(a, key) <==> HasKey(b, key);
    if HasKey(a, key) {
      var r, t := ReinforceAll(a, key, f.confidence), ReinforceAll(b, key, f.confidence);
      forall i | 0 <= i < |a|
        ensures Erase(r[i]) == Erase(t[i]) && KeyOf(r[i]) == KeyOf(t[i]) && r[i].confidence == t[i].confidence
      {
        assert a[i].confidence == Erase(a[i]).confidence == b[i].confidence
               && a[i].count == Erase(a[i]).count == b[i].count;
      }
    }
  }

  lemma {:induction false} WritersAgree(a: seq<Preference>, b: seq<Preference>, guest: nat, fields: seq<Field>,
                                        s1: Source, s2: Source)
    requires SameRows(a, b)
    ensures var u, v := Persist(a, guest, fields, s1), Persist(b, guest, fields, s2);
            u.Some? == v.Some? && (u.Some? ==> SameRows(u.value, v.value))
    decreases |fields|
  {
    if fields != [] {
      UpsertAgrees(a, b, guest, fields[0], s1, s2);
      var u, v := Upsert(a, guest, fields[0], s1), Upsert(b, guest, fields[0], s2);
      if u.Some? { WritersAgree(u.value, v.value, guest, fields[1..], s1, s2); }
    }
  }

  // Resolving a held-back card leaves the same rows, apart from their source, as accepting its
  // fields automatically would have.
  lemma ResolutionEqualsAcceptance(s: Store, guest: nat, fields: seq<Field>, now: int)
    requires Captured(s, Some(guest), fields).1.PendingReview?
    ensures var held := Captured(s, Some(guest), fields);
            var request := PatchRequest(Some(Resolved), None, false);
            var (resolved, outcome) := PatchedStore(held.0, held.1.item, request, now);
            var auto := Persist(s.rows, guest, fields, CardCapture);
            && (outcome.Patched? <==> auto.Some?)
            && (auto.Some? ==> SameRows(resolved.rows, auto.value))
  {
    WritersAgree(s.rows, s.rows, guest, fields, CardCapture, ExceptionResolution);
  }

  // ---------------------------------------------------------------- resolving again

  // Every field already has a row at least as confident.
  ghost predicate Covered(rows: seq<Preference>, guest: nat, fields: seq<Field>) {
    forall j :: 0 <= j < |fields| ==> CoveredBy(rows, FieldKey(guest, fields[j]), Stored(fields[j].confidence))
  }

  ghost predicate CoveredBy(rows: seq<Preference>, k: Key, confidence: int) {
    ValueOf(rows, k).Some? && ValueOf(rows, k).value.0 >= confidence
  }

  lemma {:induction false} BumpAllGrows(v: Option<(int, nat)>, guest: nat, fields: seq<Field>, k: Key)
    ensures v.Some? ==> BumpAll(v, guest, fields, k).Some? && BumpAll(v, guest, fields, k).value.0 >= v.value.0
    ensures forall j :: 0 <= j < |fields| && FieldKey(guest, fields[j]) == k ==>
              BumpAll(v, guest, fields, k).Some? && BumpAll(v, guest, fields, k).value.0 >= Stored(fields[j].confidence)
    decreases |fields|
  {
    if fields != [] {
      var v0 := BumpOne(v, guest, fields[0], k);
      BumpAllGrows(v0, guest, fields[1..], k);
      forall j | 1 <= j < |fields| && FieldKey(guest, fields[j]) == k
        ensures BumpAll(v, guest, fields, k).Some?
                && BumpAll(v, guest, fields, k).value.0 >= Stored(fields[j].confidence)
      {
        assert fields[1..][j - 1] == fields[j];
      }
    }
  }

  lemma PersistCovers(rows: seq<Preference>, guest: nat, fields: seq<Field>, source: Source)
    requires Persist(rows, guest, fields, source).Some?
    ensures Covered(Persist(rows, guest, fields, source).value, guest, fields)
  {
    forall j | 0 <= j < |fields|
      ensures CoveredBy(Persist(rows, guest, fields, source).value, FieldKey(guest, fields[j]),
                        Stored(fields[j].confidence))
    {
      var k := FieldKey(guest, fields[j]);
      PersistBumps(rows, guest, fields, source, k);
      BumpAllGrows(ValueOf(rows, k), guest, fields, k);
    }
  }

  lemma PersistKeepsCovered(rows: seq<Preference>, guest: nat, fields: seq<Field>, source: Source, k: Key,
                            confidence: int)
    requires Persist(rows, guest, fields, source).Some? && CoveredBy(rows, k, confidence)
    ensures CoveredBy(Persist(rows, guest, fields, source).value, k, confidence)
  {
    PersistBumps(rows, guest, fields, source, k);
    BumpAllGrows(ValueOf(rows, k), guest, fields, k);
  }

  ghost predicate OnlyCountsDiffer(a: seq<Preference>, b: seq<Preference>) {
    |a| == |b| && forall i :: 0 <= i < |a| ==> b[i] == a[i].(count := b[i].count)
  }

  lemma {:induction false} UniqueValue(rows: seq<Preference>, i: nat)
    requires Unique(rows) && i < |rows|
    ensures ValueOf(rows, KeyOf(rows[i])) == Some((rows[i].confidence, rows[i].count))
  {
    if i > 0 {
      assert KeyOf(rows[0]) != KeyOf(rows[i]);
      assert rows[1..][i - 1] == rows[i];
      UniqueValue(rows[1..], i - 1);
    }
  }

  function Occurrences(guest: nat, fields: seq<Field>, k: Key): nat {
    if fields == [] then 0
    else Occurrences(guest, fields[1..], k) + if FieldKey(guest, fields[0]) == k then 1 else 0
  }

  lemma {:induction false} BumpAllCounts(v: Option<(int, nat)>, guest: nat, fields: seq<Field>, k: Key)
    requires v.Some?
    ensures BumpAll(v, guest, fields, k).Some?
    ensures BumpAll(v, guest, fields, k).value.1 == v.value.1 + Occurrences(guest, fields, k)
    decreases |fields|
  {
    if fields != [] { BumpAllCounts(BumpOne(v, guest, fields[0], k), guest, fields[1..], k); }
  }

  // Each covered field adds one to the count of its key, so only persisting nothing changes nothing.
  lemma CoveredCountsGrow(rows: seq<Preference>, guest: nat, fields: seq<Field>, source: Source)
    requires Unique(rows) && AllInRange(rows) && Covered(rows, guest, fields)
    ensures Persist(rows, guest, fields, source).Some?
    ensures Persist(rows, guest, fields, source).value == rows <==> fields == []
    ensures var r := Persist(rows, guest, fields, source).value;
            |r| == |rows| && forall i :: 0 <= i < |rows| ==>
              r[i].count == rows[i].count + Occurrences(guest, fields, KeyOf(rows[i]))
  {
    CoveredChangesCounts(rows, guest, fields, source);
    var r := Persist(rows, guest, fields, source).value;
    forall i | 0 <= i < |rows| ensures r[i].count == rows[i].count + Occurrences(guest, fields, KeyOf(rows[i])) {
      var k := KeyOf(rows[i]);
      assert KeyOf(r[i]) == k;
      PersistKeepsUnique(rows, guest, fields, source);
      UniqueValue(rows, i);
      UniqueValue(r, i);
      PersistBumps(rows, guest, fields, source, k);
      BumpAllCounts(ValueOf(rows, k), guest, fields, k);
    }
    if fields != [] {
      var k := FieldKey(guest, fields[0]);
      assert CoveredBy(rows, k, Stored(fields[0].confidence));
      HasKeyIsValue(rows, k);
      var i :| 0 <= i < |rows| && KeyOf(rows[i]) == k;
      assert r[i].count > rows[i].count;
    }
  }

  // Persisting covered fields never fails, adds no row and changes no confidence.
  lemma {:induction false} CoveredChangesCounts(rows: seq<Preference>, guest: nat, fields: seq<Field>, source: Source)
    requires Unique(rows) && AllInRange(rows) && Covered(rows, guest, fields)
    ensures Persist(rows, guest, fields, source).Some?
    ensures OnlyCountsDiffer(rows, Persist(rows, guest, fields, source).value)
    decreases |fields|
  {
    if fields != [] {
      var f, key := fields[0], FieldKey(guest, fields[0]);
      assert CoveredBy(rows, key, Stored(f.confidence));
      HasKeyIsValue(rows, key);
      var r := ReinforceAll(rows, key, f.confidence);
      forall i | 0 <= i < |rows| ensures r[i] == rows[i].(count := r[i].count) && KeyOf(r[i]) == KeyOf(rows[i]) {
        GreatestIsMax(rows[i].confidence, f.confidence);
        UniqueValue(rows, i);
      }
      assert Upsert(rows, guest, f, source) == Some(r);
      forall j | 0 <= j < |fields[1..]|
        ensures CoveredBy(r, FieldKey(guest, fields[1..][j]), Stored(fields[1..][j].confidence))
      {
        assert CoveredBy(rows, FieldKey(guest, fields[j + 1]), Stored(fields[j + 1].confidence));
        ValueOfReinforced(rows, key, f.confidence, FieldKey(guest, fields[j + 1]));
      }
      CoveredChangesCounts(r, guest, fields[1..], source);
    }
  }

  // ---------------------------------------------------------------- runs

  datatype Step =
    | Capture(guest: Option<nat>, fields: seq<Field>)
    | Patch(item: nat, request: PatchRequest, now: int)

  // Why a field was persisted: with the whole card it came from, or by resolving an exception.
  datatype Origin = Card(fields: seq<Field>) | Resolution(item: nat)

  datatype Entry = Entry(guest: nat, field: Field, origin: Origin)

  // The store together with an observer's log of every field persisted so far.
  datatype History = History(store: Store, log: seq<Entry>)

  function Entries(guest: nat, fields: seq<Field>, origin: Origin): seq<Entry> {
    seq(|fields|, i requires 0 <= i < |fields| => Entry(guest, fields[i], origin))
  }

  function Next(h: History, step: Step): History {
    match step
    case Capture(guest, fields) =>
      var (store, result) := Captured(h.store, guest, fields);
      var entries := if result.Accepted? && guest.Some? then Entries(guest.value, fields, Card(fields)) else [];
      History(store, h.log + entries)
    case Patch(item, p, now) =>
      var (store, result) := PatchedStore(h.store, item, p, now);
      if result.Patched? && Confirms(store.exceptions[item], p) then
        var x := store.exceptions[item];
        History(store, h.log + Entries(x.guest.value, x.fields.value, Resolution(item)))
      else History(store, h.log)
  }

  function RunFrom(h: History, steps: seq<Step>): History {
    if steps == [] then h else Next(RunFrom(h, steps[..|steps| - 1]), steps[|steps| - 1])
  }

  const EMPTY := History(Store([], []), [])

  function EntryKey(e: Entry): Key { FieldKey(e.guest, e.field) }

  // How often a key was persisted, and whether m is the greatest confidence persisted under it.
  ghost function TimesPersisted(log: seq<Entry>, k: Key): nat {
    if log == [] then 0
    else TimesPersisted(log[..|log| - 1], k) + (if EntryKey(log[|log| - 1]) == k then 1 else 0)
  }

  ghost predicate IsGreatestPersisted(log: seq<Entry>, k: Key, m: int) {
    && (exists i :: 0 <= i < |log| && EntryKey(log[i]) == k && Stored(log[i].field.confidence) == m)
    && (forall i :: 0 <= i < |log| && EntryKey(log[i]) == k ==> Stored(log[i].field.confidence) <= m)
  }

  ghost predicate Summarises(v: Option<(int, nat)>, log: seq<Entry>, k: Key) {
    if v.None? then TimesPersisted(log, k) == 0
    else v.value.1 > 0 && v.value.1 == TimesPersisted(log, k) && IsGreatestPersisted(log, k, v.value.0)
  }

  lemma {:induction false} NeverPersisted(log: seq<Entry>, k: Key)
    requires TimesPersisted(log, k) == 0
    ensures forall i :: 0 <= i < |log| ==> EntryKey(log[i]) != k
  {
    if log != [] {
      NeverPersisted(log[..|log| - 1], k);
      forall i | 0 <= i < |log| ensures EntryKey(log[i]) != k {
        if i < |log| - 1 { assert log[..|log| - 1][i] == log[i]; }
      }
    }
  }

  lemma SummaryStep(v: Option<(int, nat)>, log: seq<Entry>, e: Entry, k: Key)
    requires Summarises(v, log, k)
    ensures Summarises(if EntryKey(e) == k then Bump(v, e.field.confidence) else v, log + [e], k)
  {
    var log' := log + [e];
    assert log'[..|log|] == log;
    if v.None? {
      NeverPersisted(log, k);
      assert EntryKey(e) == k ==> EntryKey(log'[|log|]) == k;
    } else {
      var i :| 0 <= i < |log| && EntryKey(log[i]) == k && Stored(log[i].field.confidence) == v.value.0;
      assert EntryKey(log'[i]) == k;
      assert log'[|log|] == e;
    }
  }

  lemma {:induction false} SummaryEntries(v: Option<(int, nat)>, log: seq<Entry>, guest: nat, fields: seq<Field>,
                                          origin: Origin, k: Key)
    requires Summarises(v, log, k)
    ensures Summarises(BumpAll(v, guest, fields, k), log + Entries(guest, fields, origin), k)
    decreases |fields|
  {
    if fields == [] {
      assert log + Entries(guest, fields, origin) == log;
    } else {
      var e := Entry(guest, fields[0], origin);
      SummaryStep(v, log, e, k);
      SummaryEntries(BumpOne(v, guest, fields[0], k), log + [e], guest, fields[1..], origin, k);
      assert log + Entries(guest, fields, origin) == log + [e] + Entries(guest, fields[1..], origin);
    }
  }

  // Rows keep key and source; new ones have the key of a persisted field and the given source.
  lemma {:induction false} PersistSources(rows: seq<Preference>, guest: nat, fields: seq<Field>, source: Source)
    requires Persist(rows, guest, fields, source).Some?
    ensures var r := Persist(rows, guest, fields, source).value;
            forall i :: 0 <= i < |r| ==>
              (i < |rows| && KeyOf(r[i]) == KeyOf(rows[i]) && r[i].source == rows[i].source)
              || (r[i].source == source && exists j :: 0 <= j < |fields| && FieldKey(guest, fields[j]) == KeyOf(r[i]))
    decreases |fields|
  {
    if fields != [] {
      var u := Upsert(rows, guest, fields[0], source).value;
      var r := Persist(rows, guest, fields, source).value;
      PersistSources(u, guest, fields[1..], source);
      forall i | 0 <= i < |r|
        ensures (i < |rows| && KeyOf(r[i]) == KeyOf(rows[i]) && r[i].source == rows[i].source)
             || (r[i].source == source && exists j :: 0 <= j < |fields| && FieldKey(guest, fields[j]) == KeyOf(r[i]))
      {
        if i < |u| && KeyOf(r[i]) == KeyOf(u[i]) && r[i].source == u[i].source {
          if i >= |rows| { assert FieldKey(guest, fields[0]) == KeyOf(r[i]); }
        } else {
          var j :| 0 <= j < |fields[1..]| && FieldKey(guest, fields[1..][j]) == KeyOf(r[i]);
          assert fields[1..][j] == fields[j + 1];
        }
      }
    }
  }

  function SourceOf(o: Origin): Source { if o.Card? then CardCapture else ExceptionResolution }

  // A card persists its fields only if all of them are confident; a resolution only those of an
  // exception item of this guest that was raised for low confidence and has been resolved.
  ghost predicate Justified(h: History, e: Entry) {
    match e.origin
    case Card(fields) => e.field in fields && forall f :: f in fields ==> f.confidence >= ACCEPT_CONFIDENCE
    case Resolution(item) =>
      && item < |h.store.exceptions|
      && var x := h.store.exceptions[item];
         x.kind == LowOcrConfidence && x.guest == Some(e.guest) && x.resolvedAt.Some?
  }

  ghost predicate HasOrigin(h: History, p: Preference) {
    exists j :: 0 <= j < |h.log| && EntryKey(h.log[j]) == KeyOf(p) && SourceOf(h.log[j].origin) == p.source
  }

  ghost predicate Inv(h: History) {
    && Unique(h.store.rows) && AllInRange(h.store.rows)
    && (forall k :: Summarises(ValueOf(h.store.rows, k), h.log, k))
    && (forall j :: 0 <= j < |h.log| ==> Justified(h, h.log[j]))
    && (forall i :: 0 <= i < |h.store.rows| ==> HasOrigin(h, h.store.rows[i]))
  }

  lemma {:induction false} MinIsLeast(fields: seq<Field>)
    requires fields != []
    ensures forall f :: f in fields ==> f.confidence >= MinConfidence(fields)
    ensures exists f :: f in fields && f.confidence == MinConfidence(fields)
  {
    assert fields[0] in fields;
    if |fields| > 1 {
      MinIsLeast(fields[1..]);
      var least :| least in fields[1..] && least.confidence == MinConfidence(fields[1..]);
      assert least in fields;
      forall f | f in fields ensures f.confidence >= MinConfidence(fields) {
        assert f == fields[0] || f in fields[1..];
      }
    }
  }

  // Persisting a batch of justified entries keeps the invariant.
  lemma PersistKeepsInv(h: History, guest: nat, fields: seq<Field>, origin: Origin, exceptions: seq<ExceptionItem>,
                        h': History)
    requires Inv(h) && Persist(h.store.rows, guest, fields, SourceOf(origin)).Some?
    requires h' == History(Store(Persist(h.store.rows, guest, fields, SourceOf(origin)).value, exceptions),
                           h.log + Entries(guest, fields, origin))
    requires forall j :: 0 <= j < |h.log| ==> Justified(h', h.log[j])
    requires forall j :: 0 <= j < |fields| ==> Justified(h', Entry(guest, fields[j], origin))
    ensures Inv(h')
  {
    var rows, source := h.store.rows, SourceOf(origin);
    PersistKeepsUnique(rows, guest, fields, source);
    forall k ensures Summarises(ValueOf(h'.store.rows, k), h'.log, k) {
      PersistBumps(rows, guest, fields, source, k);
      SummaryEntries(ValueOf(rows, k), h.log, guest, fields, origin, k);
    }
    forall i | 0 <= i < |h'.store.rows| ensures HasOrigin(h', h'.store.rows[i]) {
      PersistKeepsOrigin(h, guest, fields, origin, h', i);
    }
  }

  lemma PersistKeepsOrigin(h: History, guest: nat, fields: seq<Field>, origin: Origin, h': History, i: nat)
    requires Persist(h.store.rows, guest, fields, SourceOf(origin)).Some?
    requires forall j :: 0 <= j < |h.store.rows| ==> HasOrigin(h, h.store.rows[j])
    requires h'.store.rows == Persist(h.store.rows, guest, fields, SourceOf(origin)).value
    requires h'.log == h.log + Entries(guest, fields, origin) && i < |h'.store.rows|
    ensures HasOrigin(h', h'.store.rows[i])
  {
    var rows, source, p := h.store.rows, SourceOf(origin), h'.store.rows[i];
    PersistSources(rows, guest, fields, source);
    if i < |rows| && KeyOf(p) == KeyOf(rows[i]) && p.source == rows[i].source {
      assert HasOrigin(h, rows[i]);
      var j :| 0 <= j < |h.log| && EntryKey(h.log[j]) == KeyOf(p) && SourceOf(h.log[j].origin) == p.source;
      assert h'.log[j] == h.log[j];
    } else {
      var j :| 0 <= j < |fields| && FieldKey(guest, fields[j]) == KeyOf(p);
      assert h'.log[|h.log| + j] == Entry(guest, fields[j], origin);
    }
  }

  lemma CaptureKeepsInv(h: History, guest: Option<nat>, fields: seq<Field>)
    requires Inv(h)
    ensures Inv(Next(h, Capture(guest, fields)))
  {
    var h' := Next(h, Capture(guest, fields));
    var result := Captured(h.store, guest, fields).1;
    forall j | 0 <= j < |h.log| ensures Justified(h', h.log[j]) { assert Justified(h, h.log[j]); }
    if result.Accepted? && guest.Some? {
      MinIsLeast(fields);
      PersistKeepsInv(h, guest.value, fields, Card(fields), h.store.exceptions, h');
    } else {
      assert h'.log == h.log;
      forall i | 0 <= i < |h'.store.rows| ensures HasOrigin(h', h'.store.rows[i]) {
        assert HasOrigin(h, h.store.rows[i]);
      }
    }
  }

  lemma PatchKeepsInv(h: History, item: nat, p: PatchRequest, now: int)
    requires Inv(h)
    ensures Inv(Next(h, Patch(item, p, now)))
  {
    var h' := Next(h, Patch(item, p, now));
    forall j | 0 <= j < |h.log| ensures Justified(h', h.log[j]) { assert Justified(h, h.log[j]); }
    var result := PatchedStore(h.store, item, p, now).1;
    if result.Patched? && Confirms(h'.store.exceptions[item], p) {
      var x := h'.store.exceptions[item];
      PersistKeepsInv(h, x.guest.value, x.fields.value, Resolution(item), h'.store.exceptions, h');
    } else {
      assert h'.log == h.log && h'.store.rows == h.store.rows;
      forall i | 0 <= i < |h'.store.rows| ensures HasOrigin(h', h'.store.rows[i]) {
        assert HasOrigin(h, h.store.rows[i]);
      }
    }
  }

  lemma {:induction false} RunKeepsInv(steps: seq<Step>)
    ensures Inv(RunFrom(EMPTY, steps))
  {
    if steps != [] {
      RunKeepsInv(steps[..|steps| - 1]);
      var h := RunFrom(EMPTY, steps[..|steps| - 1]);
      match steps[|steps| - 1] {
        case Capture(guest, fields) => CaptureKeepsInv(h, guest, fields);
        case Patch(item, p, now) => PatchKeepsInv(h, item, p, now);
      }
    }
  }

  // In every run from the empty store there is one row per guest, kind and lower-cased detail; its
  // confidence is the greatest and its count the number of all fields persisted under that key; and
  // every persisted field comes from a card whose fields all reach the threshold or from a resolved
  // low-confidence exception, the row's source telling which kind of writer created it.
  lemma {:induction false} StoreSummarisesHistory(steps: seq<Step>)
    ensures var h := RunFrom(EMPTY, steps);
            && Unique(h.store.rows)
            && (forall i :: 0 <= i < |h.store.rows| ==>
                  var p := h.store.rows[i];
                  IsGreatestPersisted(h.log, KeyOf(p), p.confidence) && p.count == TimesPersisted(h.log, KeyOf(p)))
            && (forall j :: 0 <= j < |h.log| ==> HasKey(h.store.rows, EntryKey(h.log[j])) && Justified(h, h.log[j]))
            && (forall i :: 0 <= i < |h.store.rows| ==> HasOrigin(h, h.store.rows[i]))
  {
    RunKeepsInv(steps);
    var h := RunFrom(EMPTY, steps);
    forall i | 0 <= i < |h.store.rows|
      ensures IsGreatestPersisted(h.log, KeyOf(h.store.rows[i]), h.store.rows[i].confidence)
      ensures h.store.rows[i].count == TimesPersisted(h.log, KeyOf(h.store.rows[i]))
    {
      UniqueValue(h.store.rows, i);
      assert Summarises(ValueOf(h.store.rows, KeyOf(h.store.rows[i])), h.log, KeyOf(h.store.rows[i]));
    }
    forall j | 0 <= j < |h.log| ensures HasKey(h.store.rows, EntryKey(h.log[j])) {
      var k := EntryKey(h.log[j]);
      HasKeyIsValue(h.store.rows, k);
      assert Summarises(ValueOf(h.store.rows, k), h.log, k);
      if ValueOf(h.store.rows, k).None? { NeverPersisted(h.log, k); }
    }
  }

  lemma NextKeepsCovered(h: History, step: Step, k: Key, confidence: int)
    requires CoveredBy(h.store.rows, k, confidence)
    ensures CoveredBy(Next(h, step).store.rows, k, confidence)
  {
    match step
    case Capture(guest, fields) =>
      if guest.Some? && Persist(h.store.rows, guest.value, fields, CardCapture).Some? {
        PersistKeepsCovered(h.store.rows, guest.value, fields, CardCapture, k, confidence);
      }
    case Patch(item, p, now) =>
      if item < |h.store.exceptions| {
        var x := PatchedItem(h.store.exceptions[item], p, now);
        if x.guest.Some? && x.fields.Some?
           && Persist(h.store.rows, x.guest.value, x.fields.value, ExceptionResolution).Some?
        {
          PersistKeepsCovered(h.store.rows, x.guest.value, x.fields.value, ExceptionResolution, k, confidence);
        }
      }
  }

  lemma {:induction false} RunKeepsCovered(h: History, steps: seq<Step>, k: Key, confidence: int)
    requires CoveredBy(h.store.rows, k, confidence)
    ensures CoveredBy(RunFrom(h, steps).store.rows, k, confidence)
  {
    if steps != [] {
      RunKeepsCovered(h, steps[..|steps| - 1], k, confidence);
      NextKeepsCovered(RunFrom(h, steps[..|steps| - 1]), steps[|steps| - 1], k, confidence);
    }
  }

  // Resolving an item again, while it still names the same guest and fields, succeeds, adds no row and
  // changes no confidence, whatever happened to the store in between; but it counts every field again,
  // so it is without effect on the rows if and only if there are no fields.
  lemma ResolvingAgainIsHarmless(before: seq<Step>, item: nat, p: PatchRequest, now: int, between: seq<Step>,
                                 q: PatchRequest, later: int)
    requires var h := RunFrom(EMPTY, before);
             && PatchedStore(h.store, item, p, now).1.Patched?
             && Confirms(PatchedItem(h.store.exceptions[item], p, now), p)
    requires var h2 := RunFrom(Next(RunFrom(EMPTY, before), Patch(item, p, now)), between);
             && item < |h2.store.exceptions| && q.status == Some(Resolved)
               && Confirms(PatchedItem(h2.store.exceptions[item], q, later), q)
             && PatchedItem(h2.store.exceptions[item], q, later).guest
               == PatchedItem(RunFrom(EMPTY, before).store.exceptions[item], p, now).guest
             && PatchedItem(h2.store.exceptions[item], q, later).fields
               == PatchedItem(RunFrom(EMPTY, before).store.exceptions[item], p, now).fields
    ensures var h2 := RunFrom(Next(RunFrom(EMPTY, before), Patch(item, p, now)), between);
            && PatchedStore(h2.store, item, q, later).1.Patched?
            && OnlyCountsDiffer(h2.store.rows, Next(h2, Patch(item, q, later)).store.rows)
            && (Next(h2, Patch(item, q, later)).store.rows == h2.store.rows
                <==> PatchedItem(h2.store.exceptions[item], q, later).fields == Some([]))
  {
    var h := RunFrom(EMPTY, before);
    var x := PatchedItem(h.store.exceptions[item], p, now);
    var h1 := Next(h, Patch(item, p, now));
    var h2 := RunFrom(h1, between);
    PersistCovers(h.store.rows, x.guest.value, x.fields.value, ExceptionResolution);
    forall j | 0 <= j < |x.fields.value|
      ensures CoveredBy(h2.store.rows, FieldKey(x.guest.value, x.fields.value[j]), Stored(x.fields.value[j].confidence))
    {
      RunKeepsCovered(h1, between, FieldKey(x.guest.value, x.fields.value[j]), Stored(x.fields.value[j].confidence));
    }
    RunConcat(EMPTY, before + [Patch(item, p, now)], between);
    assert (before + [Patch(item, p, now)])[..|before|] == before;
    RunKeepsInv(before + [Patch(item, p, now)] + between);
    CoveredChangesCounts(h2.store.rows, x.guest.value, x.fields.value, ExceptionResolution);
    CoveredCountsGrow(h2.store.rows, x.guest.value, x.fields.value, ExceptionResolution);
  }

  lemma {:induction false} RunConcat(h: History, a: seq<Step>, b: seq<Step>)
    ensures RunFrom(h, a + b) == RunFrom(RunFrom(h, a), b)
  {
    if b == [] {
      assert a + b == a;
    } else {
      RunConcat(h, a, b[..|b| - 1]);
      assert (a + b)[..|a + b| - 1] == a + b[..|b| - 1];
    }
  }
  // ---------------------------------------------------------------- the state of an exception

  // The status last asked for with success and the instant the item was last closed, from the requests.
  ghost function Asked(steps: seq<Step>, item: nat): (Status, Option<int>) {
    if steps == [] then (Open, None)
    else
      var n := |steps| - 1;
      var before := Asked(steps[..n], item);
      match steps[n]
      case Capture(_, _) => before
      case Patch(i, p, now) =>
        if i != item || p.status.None? || !PatchedStore(RunFrom(EMPTY, steps[..n]).store, i, p, now).1.Patched?
        then before
        else (p.status.value, if p.status.value in {Resolved, Dismissed} then Some(now) else before.1)
  }

  lemma PatchedTakesPatch(s: Store, item: nat, p: PatchRequest, now: int)
    ensures var (s', result) := PatchedStore(s, item, p, now);
            && |s'.exceptions| == |s.exceptions|
            && (forall i :: 0 <= i < |s.exceptions| && i != item ==> s'.exceptions[i] == s.exceptions[i])
            && (result.Patched? ==> item < |s.exceptions|
                                    && TakesPatch(s.exceptions[item], p, now, s'.exceptions[item]))
            && (!result.Patched? ==> s' == s)
  {
  }

  lemma CaptureAddsItem(s: Store, guest: Option<nat>, fields: seq<Field>)
    ensures var (s', result) := Captured(s, guest, fields);
            s'.exceptions == if result.PendingReview?
                             then s.exceptions + [ExceptionItem(LowOcrConfidence, Open, None, guest, Some(fields))]
                             else s.exceptions
  {
  }

  // In every run an item's status is the one last asked for with success, open if none was, and its
  // closing instant that of the last request that resolved or dismissed it.
  lemma {:induction false} StatusIsLastAsked(steps: seq<Step>, item: nat)
    ensures var xs := RunFrom(EMPTY, steps).store.exceptions;
            Asked(steps, item) == if item < |xs| then (xs[item].status, xs[item].resolvedAt) else (Open, None)
  {
    if steps != [] {
      var n := |steps| - 1;
      StatusIsLastAsked(steps[..n], item);
      var s := RunFrom(EMPTY, steps[..n]).store;
      match steps[n]
      case Capture(guest, fields) => CaptureAddsItem(s, guest, fields);
      case Patch(i, p, now) => PatchedTakesPatch(s, i, p, now);
    }
  }
}
