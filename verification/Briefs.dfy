/**
 * The morning brief of one property and date: ranking the AI's items, keeping those whose guest
 * arrives, storing them with their counts, and reading them back.
 */
module Briefs {
  import opened Wrappers
  import SummaryText

  // ---------------------------------------------------------------- stable sorting

  // Insert behind every element that does not rank after x.
  function InsertStable<T>(rank: T -> int, s: seq<T>, x: T): (r: seq<T>)
    ensures |r| == |s| + 1
  {
    if s == [] || rank(s[|s| - 1]) <= rank(x) then s + [x]
    else InsertStable(rank, s[..|s| - 1], x) + [s[|s| - 1]]
  }

  function StableSort<T>(rank: T -> int, xs: seq<T>): (r: seq<T>)
    ensures |r| == |xs|
  {
    if xs == [] then [] else InsertStable(rank, StableSort(rank, xs[..|xs| - 1]), xs[|xs| - 1])
  }

  function Filter<T>(p: T -> bool, xs: seq<T>): seq<T> {
    if xs == [] then []
    else Filter(p, xs[..|xs| - 1]) + (if p(xs[|xs| - 1]) then [xs[|xs| - 1]] else [])
  }

  lemma {:induction false} InsertPast<T>(rank: T -> int, s: seq<T>, t: seq<T>, x: T)
    requires forall i :: 0 <= i < |s| ==> rank(s[i]) <= rank(x)
    requires forall i :: 0 <= i < |t| ==> rank(t[i]) > rank(x)
    ensures InsertStable(rank, s + t, x) == s + [x] + t
  {
    if t == [] {
      assert s + t == s;
    } else {
      var n := |t| - 1;
      assert (s + t)[..|s + t| - 1] == s + t[..n];
      assert (s + t)[|s + t| - 1] == t[n];
      InsertPast(rank, s, t[..n], x);
      assert t == t[..n] + [t[n]];
    }
  }

  lemma {:induction false} FilterHolds<T>(p: T -> bool, xs: seq<T>)
    ensures forall i :: 0 <= i < |Filter(p, xs)| ==> p(Filter(p, xs)[i])
  {
    if xs != [] { FilterHolds(p, xs[..|xs| - 1]); }
  }

  lemma {:induction false} FilterConcat<T>(p: T -> bool, a: seq<T>, b: seq<T>)
    ensures Filter(p, a + b) == Filter(p, a) + Filter(p, b)
  {
    if b == [] {
      assert a + b == a;
    } else {
      FilterConcat(p, a, b[..|b| - 1]);
      assert (a + b)[..|a + b| - 1] == a + b[..|b| - 1];
    }
  }

  lemma {:induction false} FiltersCommute<T>(p: T -> bool, q: T -> bool, xs: seq<T>)
    ensures Filter(p, Filter(q, xs)) == Filter(q, Filter(p, xs))
  {
    if xs != [] {
      var n := |xs| - 1;
      FiltersCommute(p, q, xs[..n]);
      var last := if q(xs[n]) then [xs[n]] else [];
      var last' := if p(xs[n]) then [xs[n]] else [];
      FilterConcat(p, Filter(q, xs[..n]), last);
      FilterConcat(q, Filter(p, xs[..n]), last');
    }
  }

  lemma InsertLast<T>(rank: T -> int, s: seq<T>, x: T)
    requires s != [] ==> rank(s[|s| - 1]) <= rank(x)
    ensures InsertStable(rank, s, x) == s + [x]
  {
  }

  // A list in strictly increasing rank order is left as it is.
  lemma {:induction false} SortedIsFixed<T>(rank: T -> int, xs: seq<T>)
    requires forall i, j :: 0 <= i < j < |xs| ==> rank(xs[i]) < rank(xs[j])
    ensures StableSort(rank, xs) == xs
  {
    if xs != [] {
      var n := |xs| - 1;
      SortedIsFixed(rank, xs[..n]);
      assert xs == xs[..n] + [xs[n]];
      InsertLast(rank, xs[..n], xs[n]);
    }
  }

  // ---------------------------------------------------------------- items

  datatype Priority = Vip | Attention | Standard

  datatype AiItem = AiItem(guest: nat, priority: Priority, sayThis: string, callouts: seq<string>)

  datatype Arrival = Arrival(guest: nat, stay: nat, displayName: string, room: Option<string>, arrivalAt: int,
                             preferences: seq<string>, recentIssues: seq<string>)

  datatype Payload = Payload(displayName: string, room: Option<string>, arrivalAt: int, callouts: seq<string>,
                             recentIssues: seq<string>)

  datatype Row = Row(guest: nat, stay: nat, priority: Priority, sortIndex: nat, preferenceSummary: string,
                     sayThis: string, historySummary: string, attentionNotes: string, payload: Payload)

  function Order(p: Priority): int {
    match p
    case Vip => 0
    case Attention => 1
    case Standard => 2
  }

  const RANK := (x: AiItem) => Order(x.priority)

  function Having(p: Priority): AiItem -> bool { (x: AiItem) => x.priority == p }

  // What ranking means, without an algorithm: the vip items, then those needing attention, then the
  // others, each group in the order the AI gave.
  function Ranked(items: seq<AiItem>): seq<AiItem> {
    Filter(Having(Vip), items) + Filter(Having(Attention), items) + Filter(Having(Standard), items)
  }

  lemma {:induction false} SortRanks(items: seq<AiItem>)
    ensures StableSort(RANK, items) == Ranked(items)
  {
    if items != [] {
      var n := |items| - 1;
      SortRanks(items[..n]);
      FilterHolds(Having(Vip), items[..n]);
      FilterHolds(Having(Attention), items[..n]);
      FilterHolds(Having(Standard), items[..n]);
      InsertRanked(Filter(Having(Vip), items[..n]), Filter(Having(Attention), items[..n]),
                   Filter(Having(Standard), items[..n]), items[n]);
    }
  }

  // An item enters ranked groups at the end of its own group.
  lemma InsertRanked(v: seq<AiItem>, a: seq<AiItem>, s: seq<AiItem>, x: AiItem)
    requires forall i :: 0 <= i < |v| ==> v[i].priority == Vip
    requires forall i :: 0 <= i < |a| ==> a[i].priority == Attention
    requires forall i :: 0 <= i < |s| ==> s[i].priority == Standard
    ensures InsertStable(RANK, v + a + s, x)
         == (v + (if Having(Vip)(x) then [x] else [])) + (a + (if Having(Attention)(x) then [x] else []))
            + (s + (if Having(Standard)(x) then [x] else []))
  {
    assert v + [] == v && a + [] == a && s + [] == s;
    match x.priority {
      case Vip =>
        InsertPast(RANK, v, a + s, x);
        assert v + (a + s) == v + a + s && v + [x] + (a + s) == v + [x] + a + s;
      case Attention =>
        InsertPast(RANK, v + a, s, x);
        assert v + a + [x] + s == v + (a + [x]) + s;
      case Standard =>
        InsertPast(RANK, v + a + s, [], x);
        assert v + a + s + [] == v + a + s && v + a + s + [x] + [] == v + a + (s + [x]);
    }
  }

  // Dropping items before ranking them is ranking them and dropping afterwards.
  lemma DropCommutesWithRanking(keep: AiItem -> bool, items: seq<AiItem>)
    ensures Filter(keep, StableSort(RANK, items)) == StableSort(RANK, Filter(keep, items))
  {
    SortRanks(items);
    SortRanks(Filter(keep, items));
    var v, a, s := Filter(Having(Vip), items), Filter(Having(Attention), items), Filter(Having(Standard), items);
    FilterConcat(keep, v + a, s);
    FilterConcat(keep, v, a);
    FiltersCommute(keep, Having(Vip), items);
    FiltersCommute(keep, Having(Attention), items);
    FiltersCommute(keep, Having(Standard), items);
  }

  // ---------------------------------------------------------------- generation

  // The first arrival of a guest.
  function ArrivalOf(arrivals: seq<Arrival>, guest: nat): (r: Option<Arrival>)
    ensures r.Some? ==> r.value in arrivals && r.value.guest == guest
    ensures r.None? ==> forall i :: 0 <= i < |arrivals| ==> arrivals[i].guest != guest
  {
    FindFirst(arrivals, (a: Arrival) => a.guest == guest)
  }

  function Arrives(arrivals: seq<Arrival>): AiItem -> bool { (x: AiItem) => ArrivalOf(arrivals, x.guest).Some? }

  function MakeRow(x: AiItem, a: Arrival, index: nat): Row {
    Row(x.guest, a.stay, x.priority, index, SummaryText.Join(a.preferences), x.sayThis,
        SummaryText.Join(a.recentIssues), SummaryText.Join(x.callouts),
        Payload(a.displayName, a.room, a.arrivalAt, x.callouts, a.recentIssues))
  }

  // The rows inserted for a ranked list, indexed by position in that list.
  function RowsOf(sorted: seq<AiItem>, arrivals: seq<Arrival>): seq<Row> {
    if sorted == [] then []
    else
      var n := |sorted| - 1;
      var a := ArrivalOf(arrivals, sorted[n].guest);
      RowsOf(sorted[..n], arrivals) + (if a.Some? then [MakeRow(sorted[n], a.value, n)] else [])
  }

  function CountOf(rows: seq<Row>, p: Priority): nat {
    if rows == [] then 0 else CountOf(rows[..|rows| - 1], p) + (if rows[|rows| - 1].priority == p then 1 else 0)
  }

  lemma RowsOfNext(sorted: seq<AiItem>, arrivals: seq<Arrival>, i: nat)
    requires i < |sorted|
    ensures var a, rows := ArrivalOf(arrivals, sorted[i].guest), RowsOf(sorted[..i], arrivals);
            RowsOf(sorted[..i + 1], arrivals) == if a.Some? then rows + [MakeRow(sorted[i], a.value, i)] else rows
  {
    assert sorted[..i + 1][..i] == sorted[..i];
  }

  lemma CountOfNext(rows: seq<Row>, row: Row)
    ensures forall p :: CountOf(rows + [row], p) == CountOf(rows, p) + if row.priority == p then 1 else 0
  {
    assert (rows + [row])[..|rows|] == rows;
  }

  datatype Status = Generating | Ready

  datatype Brief = Brief(status: Status, itemCount: nat, vipCount: nat, attentionCount: nat)

  datatype Store = Store(brief: Option<Brief>, items: seq<Row>)

  datatype Totals = Totals(arrivals: nat, vip: nat, attention: nat)

  datatype Result =
    | Existing(totals: Totals)
    | NoArrivals(totals: Totals)
    | Generated(totals: Totals)
    | InProgress
    | AiFailed

  function StoredTotals(b: Brief): Totals { Totals(b.itemCount, b.vipCount, b.attentionCount) }

  /** The brief row of one property and date, and its items. */
  class BriefStore {
    var brief: Option<Brief>
    var items: seq<Row>

    function View(): Store
      reads this
    {
      Store(brief, items)
    }

    constructor ()
      ensures View() == Store(None, [])
    {
      brief, items := None, [];
    }

    // The insert loop: items of guests who do not arrive are skipped, their positions left unused.
    method PersistItems(sorted: seq<AiItem>, arrivals: seq<Arrival>) returns (vipCount: nat, attentionCount: nat)
      modifies this`items
      ensures items == RowsOf(sorted, arrivals)
      ensures vipCount == CountOf(items, Vip) && attentionCount == CountOf(items, Attention)
    {
      items := [];
      vipCount, attentionCount := 0, 0;
      for i := 0 to |sorted|
        invariant items == RowsOf(sorted[..i], arrivals)
        invariant vipCount == CountOf(items, Vip) && attentionCount == CountOf(items, Attention)
      {
        var item := sorted[i];
        var arrival := ArrivalOf(arrivals, item.guest);
        RowsOfNext(sorted, arrivals, i);
        if arrival.Some? {
          if item.priority == Vip { vipCount := vipCount + 1; }
          if item.priority == Attention { attentionCount := attentionCount + 1; }
          CountOfNext(items, MakeRow(item, arrival.value, i));
          items := items + [MakeRow(item, arrival.value, i)];
        }
      }
      assert sorted[..|sorted|] == sorted;
    }

    // One request in its transaction; `ai` is the AI's answer, None if the call throws.
    method GenerateBrief(force: bool, arrivals: seq<Arrival>, ai: Option<seq<AiItem>>) returns (result: Result)
      modifies this
      ensures result.InProgress? || result.Existing? <==> old(brief).Some? && !force
      ensures result.InProgress? ==> old(brief).value.status == Generating
      ensures result.Existing? ==> old(brief).value.status == Ready && result.totals == StoredTotals(old(brief).value)
      ensures result.AiFailed? <==> (old(brief).None? || force) && arrivals != [] && ai.None?
      ensures result.InProgress? || result.Existing? || result.AiFailed? ==> brief == old(brief) && items == old(items)
      ensures result.NoArrivals? ==> arrivals == [] && result.totals == Totals(0, 0, 0) && items == old(items)
      ensures result.NoArrivals? ==>
                brief == Some(if old(brief).Some? then old(brief).value.(status := Ready, itemCount := 0)
                              else Brief(Ready, 0, 0, 0))
      ensures (View(), result) == Generate(old(View()), force, arrivals, ai)
    {
      if brief.Some? && !force {
        if brief.value.status == Generating { return InProgress; }
        return Existing(StoredTotals(brief.value));
      }
      var saved := brief;
      brief := if brief.Some? then Some(brief.value.(status := Generating)) else Some(Brief(Generating, 0, 0, 0));
      if arrivals == [] {
        brief := Some(brief.value.(status := Ready, itemCount := 0));
        return NoArrivals(Totals(0, 0, 0));
      }
      if ai.None? {
        brief := saved;
        return AiFailed;
      }
      var sorted := StableSort(RANK, ai.value);
      var vipCount, attentionCount := PersistItems(sorted, arrivals);
      brief := Some(Brief(Ready, |arrivals|, vipCount, attentionCount));
      return Generated(Totals(|arrivals|, vipCount, attentionCount));
    }
  }

  function Generate(s: Store, force: bool, arrivals: seq<Arrival>, ai: Option<seq<AiItem>>): (Store, Result) {
    if s.brief.Some? && !force then
      (s, if s.brief.value.status == Generating then InProgress else Existing(StoredTotals(s.brief.value)))
    else if arrivals == [] then
      (s.(brief := Some(if s.brief.Some? then s.brief.value.(status := Ready, itemCount := 0)
                        else Brief(Ready, 0, 0, 0))),
       NoArrivals(Totals(0, 0, 0)))
    else if ai.None? then (s, AiFailed)
    else
      var rows := RowsOf(StableSort(RANK, ai.value), arrivals);
      var totals := Totals(|arrivals|, CountOf(rows, Vip), CountOf(rows, Attention));
      (Store(Some(Brief(Ready, totals.arrivals, totals.vip, totals.attention)), rows), Generated(totals))
  }

  // ---------------------------------------------------------------- reading back

  // One item as the reader returns it; the payload is always present in rows this service wrote.
  datatype Shown = Shown(guest: nat, priority: Priority, sayThis: string, displayName: string, room: Option<string>,
                         arrivalAt: int, callouts: seq<string>, recentIssues: seq<string>)

  function Show(r: Row): Shown {
    Shown(r.guest, r.priority, r.sayThis, r.payload.displayName, r.payload.room, r.payload.arrivalAt,
          r.payload.callouts, r.payload.recentIssues)
  }

  function LoadBrief(s: Store): seq<Shown> {
    var rows := StableSort((r: Row) => r.sortIndex, s.items);
    seq(|rows|, i requires 0 <= i < |rows| => Show(rows[i]))
  }

  // What the caller is meant to see of an AI item.
  function Presented(x: AiItem, arrivals: seq<Arrival>): Shown
    requires ArrivalOf(arrivals, x.guest).Some?
  {
    var a := ArrivalOf(arrivals, x.guest).value;
    Shown(x.guest, x.priority, x.sayThis, a.displayName, a.room, a.arrivalAt, x.callouts, a.recentIssues)
  }

  // The columns kept beside the payload.
  predicate Describes(row: Row, x: AiItem, a: Arrival) {
    && row.stay == a.stay && row.sayThis == x.sayThis
    && row.preferenceSummary == SummaryText.Join(a.preferences)
    && row.historySummary == SummaryText.Join(a.recentIssues)
    && row.attentionNotes == SummaryText.Join(x.callouts)
  }

  // The rows are the arriving items of the ranked list, in order, with increasing indices.
  lemma {:induction false} RowsAreArrivingItems(sorted: seq<AiItem>, arrivals: seq<Arrival>)
    ensures var kept, rows := Filter(Arrives(arrivals), sorted), RowsOf(sorted, arrivals);
            && |rows| == |kept|
            && (forall i :: 0 <= i < |rows| ==>
                  && ArrivalOf(arrivals, kept[i].guest).Some? && rows[i].sortIndex < |sorted|
                  && Show(rows[i]) == Presented(kept[i], arrivals)
                  && Describes(rows[i], kept[i], ArrivalOf(arrivals, kept[i].guest).value))
            && (forall i, j :: 0 <= i < j < |rows| ==> rows[i].sortIndex < rows[j].sortIndex)
  {
    if sorted != [] { RowsAreArrivingItems(sorted[..|sorted| - 1], arrivals); }
  }

  // Rows with strictly increasing indices are read in the order they were written.
  lemma LoadIs(s: Store, rows: seq<Row>)
    requires s.items == rows && forall i, j :: 0 <= i < j < |rows| ==> rows[i].sortIndex < rows[j].sortIndex
    ensures |LoadBrief(s)| == |rows| && forall i :: 0 <= i < |rows| ==> LoadBrief(s)[i] == Show(rows[i])
  {
    SortedIsFixed((r: Row) => r.sortIndex, rows);
  }

  // Rows inserted in ranked order read back as the arriving items in that order.
  lemma RankedRowsReadBack(s: Store, arrivals: seq<Arrival>, ai: seq<AiItem>)
    requires s.items == RowsOf(StableSort(RANK, ai), arrivals)
    ensures var expected := Ranked(Filter(Arrives(arrivals), ai));
            && |LoadBrief(s)| == |expected|
            && (forall i :: 0 <= i < |expected| ==>
                  ArrivalOf(arrivals, expected[i].guest).Some? && LoadBrief(s)[i] == Presented(expected[i], arrivals))
            && (forall i, j :: 0 <= i < j < |s.items| ==> s.items[i].sortIndex < s.items[j].sortIndex)
  {
    RowsAreArrivingItems(StableSort(RANK, ai), arrivals);
    DropCommutesWithRanking(Arrives(arrivals), ai);
    SortRanks(Filter(Arrives(arrivals), ai));
    LoadIs(s, s.items);
  }

  // A generated brief reads back as exactly the AI items whose guest arrives, vip before attention
  // before standard and otherwise in the AI's order; its sort indices strictly increase, its stored
  // counts are those of its rows, and a later unforced call reports the same totals.
  lemma GeneratedBriefReadsBack(s: Store, force: bool, arrivals: seq<Arrival>, ai: seq<AiItem>,
                                arrivals': seq<Arrival>, ai': Option<seq<AiItem>>)
    requires Generate(s, force, arrivals, Some(ai)).1.Generated?
    ensures var (s', result) := Generate(s, force, arrivals, Some(ai));
            var expected := Ranked(Filter(Arrives(arrivals), ai));
            && |LoadBrief(s')| == |expected|
            && (forall i :: 0 <= i < |expected| ==>
                  ArrivalOf(arrivals, expected[i].guest).Some? && LoadBrief(s')[i] == Presented(expected[i], arrivals))
            && (forall i, j :: 0 <= i < j < |s'.items| ==> s'.items[i].sortIndex < s'.items[j].sortIndex)
            && s'.brief == Some(Brief(Ready, |arrivals|, CountOf(s'.items, Vip), CountOf(s'.items, Attention)))
            && Generate(s', false, arrivals', ai') == (s', Existing(result.totals))
  {
    RankedRowsReadBack(Generate(s, force, arrivals, Some(ai)).0, arrivals, ai);
  }

  // ---------------------------------------------------------------- runs

  ghost predicate Consistent(s: Store) {
    match s.brief
    case None => s.items == []
    case Some(b) =>
      b.status == Ready && b.vipCount == CountOf(s.items, Vip) && b.attentionCount == CountOf(s.items, Attention)
  }

  datatype Request = Request(force: bool, arrivals: seq<Arrival>, ai: Option<seq<AiItem>>)

  function RunAll(requests: seq<Request>): Store {
    if requests == [] then Store(None, [])
    else
      var r := requests[|requests| - 1];
      Generate(RunAll(requests[..|requests| - 1]), r.force, r.arrivals, r.ai).0
  }

  // After any requests the stored counts are those of the stored items.
  lemma {:induction false} CountsMatchItems(requests: seq<Request>)
    ensures Consistent(RunAll(requests))
  {
    if requests != [] { CountsMatchItems(requests[..|requests| - 1]); }
  }

  // Regenerating on a day without arrivals leaves the old items and their counts in place while it
  // answers with zeros. A later unforced call repeats those zeros if and only if no stored item was
  // vip or needed attention; the code does not meet the property otherwise.
  lemma {:induction false} EmptyRegenerationKeepsCounts(requests: seq<Request>, ai: Option<seq<AiItem>>,
                                                        arrivals': seq<Arrival>, ai': Option<seq<AiItem>>)
    ensures var s := RunAll(requests);
            var (s', result) := Generate(s, true, [], ai);
            && result == NoArrivals(Totals(0, 0, 0)) && s'.items == s.items
            && (Generate(s', false, arrivals', ai').1 == Existing(result.totals)
                <==> CountOf(s.items, Vip) == 0 && CountOf(s.items, Attention) == 0)
  {
    CountsMatchItems(requests);
  }

  lemma SingleArrival(a: Arrival, x: AiItem)
    requires x.guest == a.guest && x.priority == Vip
    ensures Generate(Store(None, []), false, [a], Some([x])).0 == Store(Some(Brief(Ready, 1, 1, 0)), [MakeRow(x, a, 0)])
  {
    SortedIsFixed(RANK, [x]);
    assert [x][..0] == [] && RowsOf([], [a]) == [];
    var rows := [MakeRow(x, a, 0)];
    assert RowsOf([x], [a]) == rows && StableSort(RANK, [x]) == [x];
    assert rows[..0] == [];
    assert CountOf(rows[..0], Vip) == 0 && CountOf(rows[..0], Attention) == 0;
    assert RowsOf(StableSort(RANK, [x]), [a]) == rows;
  }

  // A concrete such day: one vip arrives, then none does, and the brief still counts one.
  lemma StaleCountsExample(a: Arrival, x: AiItem)
    requires x.guest == a.guest && x.priority == Vip
    ensures var s := RunAll([Request(false, [a], Some([x])), Request(true, [], None)]);
            Generate(s, false, [], None).1 == Existing(Totals(0, 1, 0)) && |LoadBrief(s)| == 1
  {
    var r1, r2 := Request(false, [a], Some([x])), Request(true, [], None);
    SingleArrival(a, x);
    assert [r1, r2][..1] == [r1] && [r1][..0] == [];
    assert RunAll([r1]) == Generate(RunAll([]), false, [a], Some([x])).0;
    assert RunAll([r1, r2]) == Generate(RunAll([r1]), true, [], None).0;
  }
  // A request whose AI call fails leaves no trace, in any run.
  lemma FailedCallLeavesNoTrace(requests: seq<Request>, r: Request)
    requires (RunAll(requests).brief.None? || r.force) && r.arrivals != [] && r.ai.None?
    ensures RunAll(requests + [r]) == RunAll(requests)
  {
    assert (requests + [r])[..|requests|] == requests;
  }
}
