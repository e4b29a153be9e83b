/**
 * The audit and guest queries: a WHERE text assembled clause by clause, whose numbered placeholders
 * must stay in step with the list of parameters, and the page it yields.
 */
module PagedQueries {
  import opened Wrappers
  import opened KeysetPaging

  // ---------------------------------------------------------------- statements with placeholders

  datatype Value = Instant(at: int) | Text(text: string) | Identifier(id: int) | Number(n: nat)

  datatype Column = OccurredFrom | OccurredTo | ResourceKind | ResourceId | ActorId | Operation
                  | NameLike | EmailIs | PhoneIs | KeyBefore

  // A clause on a column and the placeholder numbers its text mentions, in order.
  datatype Clause = Clause(column: Column, placeholders: seq<nat>)

  datatype Statement = Statement(where: seq<Clause>, params: seq<Value>, limit: nat)

  // What a clause asks of a row once its placeholders are replaced by parameters.
  datatype Filter = Filter(column: Column, operands: seq<Value>)

  predicate AllAtMost(placeholders: seq<nat>, n: nat) {
    forall k :: 0 <= k < |placeholders| ==> 1 <= placeholders[k] <= n
  }

  function Bind(params: seq<Value>, placeholders: seq<nat>): seq<Value>
    requires AllAtMost(placeholders, |params|)
  {
    seq(|placeholders|, k requires 0 <= k < |placeholders| => params[placeholders[k] - 1])
  }

  // None when some placeholder has no parameter.
  function Resolve(where: seq<Clause>, params: seq<Value>): Option<seq<Filter>> {
    if where == [] then Some([])
    else
      var last := where[|where| - 1];
      var init := Resolve(where[..|where| - 1], params);
      if init.Some? && AllAtMost(last.placeholders, |params|)
      then Some(init.value + [Filter(last.column, Bind(params, last.placeholders))]) else None
  }

  lemma {:induction false} ResolveExtends(where: seq<Clause>, params: seq<Value>, more: seq<Value>)
    requires forall c :: 0 <= c < |where| ==> AllAtMost(where[c].placeholders, |params|)
    ensures Resolve(where, params + more) == Resolve(where, params)
  {
    if where != [] {
      var last := where[|where| - 1].placeholders;
      assert Bind(params + more, last) == Bind(params, last);
      ResolveExtends(where[..|where| - 1], params, more);
    }
  }

  // The placeholder numbers of the whole text from left to right, each clause counted once even if
  // its text repeats a number.
  function Numbers(where: seq<Clause>): seq<nat> {
    if where == [] then [] else
      var last := where[|where| - 1];
      Numbers(where[..|where| - 1])
        + (if last.column.NameLike? then last.placeholders[..Min(1, |last.placeholders|)] else last.placeholders)
  }

  function Min(a: nat, b: nat): nat { if a < b then a else b }

  function UpTo(n: nat): seq<nat> { seq(n, i requires 0 <= i < n => i + 1) }

  // Two more parameters take the next two numbers.
  lemma NextTwo(params: seq<Value>, a: Value, b: Value)
    ensures UpTo(|params| + 2) == UpTo(|params|) + [|params| + 1, |params| + 2]
    ensures Bind(params + [a, b], [|params| + 1, |params| + 2]) == [a, b]
  {
  }

  // The filters of one optional search term; an empty string counts as not given.
  predicate Given(o: Option<string>) { o.Some? && o.value != "" }

  function OneText(column: Column, o: Option<string>): seq<Filter> {
    if Given(o) then [Filter(column, [Text(o.value)])] else []
  }

  function OneInstant(column: Column, o: Option<int>): seq<Filter> {
    if o.Some? then [Filter(column, [Instant(o.value)])] else []
  }

  function OneName(o: Option<string>): seq<Filter> {
    if Given(o) then [Filter(NameLike, [Text(o.value), Text(o.value), Text(o.value)])] else []
  }

  function KeyFilter(c: Option<Key>): seq<Filter> {
    if c.Some? then [Filter(KeyBefore, [Instant(c.value.at), Identifier(c.value.id)])] else []
  }

  /** The lists `where` and `params` and the counter `i` that the query methods maintain. */
  class StatementBuilder {
    var where: seq<Clause>
    var params: seq<Value>
    var i: nat

    // Text and parameters are in step: the next number is free, and every number used so far is
    // used in order for the parameter at its place.
    ghost predicate InStep()
      reads this
    {
      && i == |params| + 1
      && Numbers(where) == UpTo(|params|)
      && (forall c :: 0 <= c < |where| ==> AllAtMost(where[c].placeholders, |params|))
      && Resolve(where, params).Some?
    }

    ghost function Filters(): seq<Filter>
      reads this
      requires InStep()
    {
      Resolve(where, params).value
    }

    constructor ()
      ensures InStep() && Filters() == [] && params == []
    {
      where, params, i := [], [], 1;
    }

    method Push(column: Column, value: Value)
      requires InStep() && !column.KeyBefore? && !column.NameLike?
      modifies this
      ensures InStep() && Filters() == old(Filters()) + [Filter(column, [value])]
    {
      ResolveExtends(where, params, [value]);
      where := where + [Clause(column, [i])];
      params := params + [value];
      i := i + 1;
      assert where[..|where| - 1] == old(where);
      assert UpTo(|params|) == UpTo(|params| - 1) + [|params|];
      assert Bind(params, [|params|]) == [value];
    }

    // The name search mentions its one parameter three times.
    method PushName(o: Option<string>)
      requires InStep()
      modifies this
      ensures InStep() && Filters() == old(Filters()) + OneName(o)
    {
      if !Given(o) { return; }
      var value := Text(o.value);
      ResolveExtends(where, params, [value]);
      where := where + [Clause(NameLike, [i, i, i])];
      params := params + [value];
      i := i + 1;
      assert where[..|where| - 1] == old(where);
      assert UpTo(|params|) == UpTo(|params| - 1) + [|params|];
      assert Bind(params, where[|where| - 1].placeholders) == [value, value, value];
    }

    method PushCursor(cursor: Option<Key>)
      requires InStep()
      modifies this
      ensures InStep() && Filters() == old(Filters()) + KeyFilter(cursor)
    {
      if cursor.None? { return; }
      var key := cursor.value;
      ResolveExtends(where, params, [Instant(key.at), Identifier(key.id)]);
      where := where + [Clause(KeyBefore, [i, i + 1])];
      params := params + [Instant(key.at), Identifier(key.id)];
      i := i + 2;
      assert where[..|where| - 1] == old(where);
      NextTwo(old(params), Instant(key.at), Identifier(key.id));
    }

    method PushInstant(column: Column, o: Option<int>)
      requires InStep() && !column.KeyBefore? && !column.NameLike?
      modifies this
      ensures InStep() && Filters() == old(Filters()) + OneInstant(column, o)
    {
      if o.Some? { Push(column, Instant(o.value)); }
    }

    method PushText(column: Column, o: Option<string>)
      requires InStep() && !column.KeyBefore? && !column.NameLike?
      modifies this
      ensures InStep() && Filters() == old(Filters()) + OneText(column, o)
    {
      if Given(o) { Push(column, Text(o.value)); }
    }

    method Finish(limit: nat) returns (s: Statement)
      requires InStep()
      modifies this
      ensures InPlace(s) && s.params[s.limit - 1] == Number(limit)
      ensures Resolve(s.where, s.params) == Some(old(Filters()))
    {
      ResolveExtends(where, params, [Number(limit)]);
      params := params + [Number(limit)];
      s := Statement(where, params, i);
      assert UpTo(|params|) == UpTo(|params| - 1) + [|params|];
    }
  }

  // The text numbers its placeholders 1, 2, ... in step with the parameters, the limit last.
  ghost predicate InPlace(s: Statement) {
    s.limit == |s.params| && s.limit > 0 && Numbers(s.where) + [s.limit] == UpTo(|s.params|)
  }

  // ---------------------------------------------------------------- cursors as texts

  // How a cursor's key becomes text and is read back.
  datatype Codec = Codec(encode: Key -> string, decode: string -> Option<Key>)

  // Keys of whole milliseconds, the only ones a cursor carries, are read back as they were.
  ghost predicate RoundTrips(codec: Codec) {
    forall k: Key :: k.at % 1000 == 0 ==> codec.encode(k) != "" && codec.decode(codec.encode(k)) == Some(k)
  }

  // A cursor that does not decode counts as not given.
  function Resume(cursor: Option<string>, decode: string -> Option<Key>): Option<Key> {
    if Given(cursor) then decode(cursor.value) else None
  }

  datatype Answer<T> = Answer(items: seq<Row<T>>, nextCursor: Option<string>, hasMore: bool)

  function Encoded<T>(page: Page<T>, codec: Codec): Answer<T> {
    Answer(page.items, if page.nextCursor.Some? then Some(codec.encode(page.nextCursor.value)) else None, page.hasMore)
  }

  lemma ResumesWhereItEnded<T>(page: Page<T>, codec: Codec)
    requires RoundTrips(codec) && (page.nextCursor.Some? ==> page.nextCursor.value.at % 1000 == 0)
    ensures Resume(Encoded(page, codec).nextCursor, codec.decode) == page.nextCursor
  {
  }

  lemma CursorsAreWhole<T>(table: seq<Row<T>>, matches: Row<T> -> bool, cursor: Option<Key>, limit: nat)
    ensures var next := Fetch(table, matches, cursor, limit).nextCursor;
            next.Some? ==> next.value.at % 1000 == 0
  {
  }

  // The text of an answer leaves less to fetch than there was before it.
  lemma TextShrinks<T>(table: seq<Row<T>>, matches: Row<T> -> bool, cursor: Option<string>, limit: nat, codec: Codec)
    requires limit > 0 && NewestFirst(table) && RoundTrips(codec)
    requires Fetch(table, matches, Resume(cursor, codec.decode), limit).hasMore
    ensures var answer := Encoded(Fetch(table, matches, Resume(cursor, codec.decode), limit), codec);
            |Select(table, matches, Resume(answer.nextCursor, codec.decode))|
            < |Select(table, matches, Resume(cursor, codec.decode))|
  {
    var c := Resume(cursor, codec.decode);
    SelectShrinks(table, matches, c, limit);
    CursorsAreWhole(table, matches, c, limit);
    var page := Fetch(table, matches, c, limit);
    ResumesWhereItEnded(page, codec);
    assert Resume(Encoded(page, codec).nextCursor, codec.decode) == page.nextCursor;
  }

  // Asking for page after page with the text of the last answer, and concatenating.
  ghost function FollowTexts<T>(table: seq<Row<T>>, matches: Row<T> -> bool, cursor: Option<string>, limit: nat,
                                codec: Codec): seq<Row<T>>
    requires limit > 0 && NewestFirst(table) && RoundTrips(codec)
    decreases |Select(table, matches, Resume(cursor, codec.decode))|
  {
    var page := Fetch(table, matches, Resume(cursor, codec.decode), limit);
    var answer := Encoded(page, codec);
    if answer.hasMore then
      TextShrinks(table, matches, cursor, limit, codec);
      answer.items + FollowTexts(table, matches, answer.nextCursor, limit, codec)
    else answer.items
  }

  lemma {:induction false} TextsFollowKeys<T>(table: seq<Row<T>>, matches: Row<T> -> bool, cursor: Option<string>,
                                              limit: nat, codec: Codec)
    requires limit > 0 && NewestFirst(table) && RoundTrips(codec)
    ensures FollowTexts(table, matches, cursor, limit, codec)
         == FollowAll(table, matches, Resume(cursor, codec.decode), limit)
    decreases |Select(table, matches, Resume(cursor, codec.decode))|
  {
    var c := Resume(cursor, codec.decode);
    var page := Fetch(table, matches, c, limit);
    if page.hasMore {
      SelectShrinks(table, matches, c, limit);
      ResumesWhereItEnded(page, codec);
      TextsFollowKeys(table, matches, Encoded(page, codec).nextCursor, limit, codec);
    }
  }

  // The caller who follows the texts of the answers gets exactly the matching rows, each once and newest
  // first, if and only if no page boundary falls between rows the truncated cursor cannot tell apart.
  lemma TextPagesTile<T>(table: seq<Row<T>>, matches: Row<T> -> bool, cursor: Option<string>, limit: nat, codec: Codec)
    requires limit > 0 && NewestFirst(table) && RoundTrips(codec)
    ensures var rows := Select(table, matches, Resume(cursor, codec.decode));
            FollowTexts(table, matches, cursor, limit, codec) == rows <==> BoundariesSafe(rows, limit)
  {
    TextsFollowKeys(table, matches, cursor, limit, codec);
    PagesTile(table, matches, Resume(cursor, codec.decode), limit);
  }

  // ---------------------------------------------------------------- audit events

  datatype EventData = EventData(resourceKind: string, resourceId: string, actorId: string, operation: string)

  datatype EventTerms = EventTerms(from: Option<int>, to: Option<int>, resourceType: Option<string>,
                                   resourceId: Option<string>, actorId: Option<string>, operation: Option<string>)

  datatype EventQuery = EventQuery(terms: EventTerms, limit: nat, cursor: Option<string>)

  // What the caller asked for, with no reference to the text of the statement.
  predicate EventMatches(q: EventTerms, r: Row<EventData>) {
    && (q.from.Some? ==> r.key.at >= q.from.value)
    && (q.to.Some? ==> r.key.at <= q.to.value)
    && (Given(q.resourceType) ==> r.data.resourceKind == q.resourceType.value)
    && (Given(q.resourceId) ==> r.data.resourceId == q.resourceId.value)
    && (Given(q.actorId) ==> r.data.actorId == q.actorId.value)
    && (Given(q.operation) ==> r.data.operation == q.operation.value)
  }

  function WantedEvents(q: EventTerms): Row<EventData> -> bool { (r: Row<EventData>) => EventMatches(q, r) }

  predicate IsInstant(ops: seq<Value>) { |ops| == 1 && ops[0].Instant? }
  predicate IsText(ops: seq<Value>, n: nat) {
    |ops| == n && forall k :: 0 <= k < n ==> ops[k].Text? && ops[k] == ops[0]
  }
  predicate IsKey(ops: seq<Value>) { |ops| == 2 && ops[0].Instant? && ops[1].Identifier? }

  // How the database evaluates one filter on an event row.
  predicate EventHolds(f: Filter, r: Row<EventData>) {
    var ops := f.operands;
    match f.column
    case OccurredFrom => IsInstant(ops) && r.key.at >= ops[0].at
    case OccurredTo => IsInstant(ops) && r.key.at <= ops[0].at
    case ResourceKind => IsText(ops, 1) && r.data.resourceKind == ops[0].text
    case ResourceId => IsText(ops, 1) && r.data.resourceId == ops[0].text
    case ActorId => IsText(ops, 1) && r.data.actorId == ops[0].text
    case Operation => IsText(ops, 1) && r.data.operation == ops[0].text
    case KeyBefore => IsKey(ops) && Before(r.key, Key(ops[0].at, ops[1].id))
    case _ => false
  }

  predicate EventHoldsAll(fs: seq<Filter>, r: Row<EventData>) {
    forall k :: 0 <= k < |fs| ==> EventHolds(fs[k], r)
  }

  lemma HoldsConcat(a: seq<Filter>, b: seq<Filter>, r: Row<EventData>)
    ensures EventHoldsAll(a + b, r) <==> EventHoldsAll(a, r) && EventHoldsAll(b, r)
  {
    if EventHoldsAll(a + b, r) {
      forall k | 0 <= k < |a| ensures EventHolds(a[k], r) { assert (a + b)[k] == a[k]; }
      forall k | 0 <= k < |b| ensures EventHolds(b[k], r) { assert (a + b)[|a| + k] == b[k]; }
    }
  }

  lemma HoldsOne(fs: seq<Filter>, r: Row<EventData>)
    requires |fs| <= 1
    ensures EventHoldsAll(fs, r) <==> (fs != [] ==> EventHolds(fs[0], r))
  {
  }

  function EventFilters(q: EventTerms, c: Option<Key>): seq<Filter> {
    OneInstant(OccurredFrom, q.from) + OneInstant(OccurredTo, q.to) + OneText(ResourceKind, q.resourceType)
    + OneText(ResourceId, q.resourceId) + OneText(ActorId, q.actorId) + OneText(Operation, q.operation) + KeyFilter(c)
  }

  function TextOf(column: Column, d: EventData): string {
    match column
    case ResourceKind => d.resourceKind
    case ResourceId => d.resourceId
    case ActorId => d.actorId
    case _ => d.operation
  }

  lemma TextFilterMeans(column: Column, o: Option<string>, r: Row<EventData>)
    requires column.ResourceKind? || column.ResourceId? || column.ActorId? || column.Operation?
    ensures EventHoldsAll(OneText(column, o), r) <==> (Given(o) ==> TextOf(column, r.data) == o.value)
  {
    HoldsOne(OneText(column, o), r);
  }

  lemma InstantFiltersMean(from: Option<int>, to: Option<int>, r: Row<EventData>)
    ensures EventHoldsAll(OneInstant(OccurredFrom, from) + OneInstant(OccurredTo, to), r)
            <==> (from.Some? ==> r.key.at >= from.value) && (to.Some? ==> r.key.at <= to.value)
  {
    HoldsConcat(OneInstant(OccurredFrom, from), OneInstant(OccurredTo, to), r);
    HoldsOne(OneInstant(OccurredFrom, from), r);
    HoldsOne(OneInstant(OccurredTo, to), r);
  }

  lemma KeyFilterMeans(c: Option<Key>, r: Row<EventData>)
    ensures EventHoldsAll(KeyFilter(c), r) <==> After(r.key, c)
  {
    HoldsOne(KeyFilter(c), r);
  }

  lemma HoldsConcatSix(a: seq<Filter>, b: seq<Filter>, c: seq<Filter>, d: seq<Filter>, e: seq<Filter>, f: seq<Filter>,
                       r: Row<EventData>)
    ensures EventHoldsAll(a + b + c + d + e + f, r)
            <==> EventHoldsAll(a, r) && EventHoldsAll(b, r) && EventHoldsAll(c, r)
                 && EventHoldsAll(d, r) && EventHoldsAll(e, r) && EventHoldsAll(f, r)
  {
    HoldsConcat(a + b + c + d + e, f, r);
    HoldsConcat(a + b + c + d, e, r);
    HoldsConcat(a + b + c, d, r);
    HoldsConcat(a + b, c, r);
    HoldsConcat(a, b, r);
  }

  // The filters select exactly the rows the caller asked for that lie after the cursor.
  lemma EventFiltersMean(q: EventTerms, c: Option<Key>, r: Row<EventData>)
    ensures EventHoldsAll(EventFilters(q, c), r) <==> EventMatches(q, r) && After(r.key, c)
  {
    HoldsConcatSix(OneInstant(OccurredFrom, q.from) + OneInstant(OccurredTo, q.to),
                   OneText(ResourceKind, q.resourceType), OneText(ResourceId, q.resourceId),
                   OneText(ActorId, q.actorId), OneText(Operation, q.operation), KeyFilter(c), r);
    InstantFiltersMean(q.from, q.to, r);
    TextFilterMeans(ResourceKind, q.resourceType, r);
    TextFilterMeans(ResourceId, q.resourceId, r);
    TextFilterMeans(ActorId, q.actorId, r);
    TextFilterMeans(Operation, q.operation, r);
    KeyFilterMeans(c, r);
  }

  // The built statement numbers its placeholders in step with the parameters, and its clauses,
  // with the parameters put in their places, are the filters asked for.
  method BuildEventQuery(q: EventQuery, decode: string -> Option<Key>) returns (s: Statement)
    ensures InPlace(s) && s.params[s.limit - 1] == Number(q.limit + 1)
    ensures Resolve(s.where, s.params) == Some(EventFilters(q.terms, Resume(q.cursor, decode)))
  {
    var b := new StatementBuilder();
    b.PushInstant(OccurredFrom, q.terms.from);
    b.PushInstant(OccurredTo, q.terms.to);
    b.PushText(ResourceKind, q.terms.resourceType);
    b.PushText(ResourceId, q.terms.resourceId);
    b.PushText(ActorId, q.terms.actorId);
    b.PushText(Operation, q.terms.operation);
    b.PushCursor(Resume(q.cursor, decode));
    assert [] + OneInstant(OccurredFrom, q.terms.from) == OneInstant(OccurredFrom, q.terms.from);
    s := b.Finish(q.limit + 1);
  }

  // Running the built statement, its limit included, gives the page the paging theorems speak of, its
  // cursor encoded for the caller.
  method QueryEvents(table: seq<Row<EventData>>, q: EventQuery, codec: Codec) returns (answer: Answer<EventData>)
    ensures answer == Encoded(Fetch(table, WantedEvents(q.terms), Resume(q.cursor, codec.decode), q.limit), codec)
  {
    var s := BuildEventQuery(q, codec.decode);
    var c := Resume(q.cursor, codec.decode);
    var filters := Resolve(s.where, s.params).value;
    var holds := (r: Row<EventData>) => EventHoldsAll(filters, r);
    var rows := Select(table, holds, None);
    forall r ensures EventHoldsAll(filters, r) <==> EventMatches(q.terms, r) && After(r.key, c) {
      EventFiltersMean(q.terms, c, r);
    }
    SameSelection(table, holds, WantedEvents(q.terms), c);
    var fetched := s.params[s.limit - 1].n;
    answer := Encoded(PageOf(if |rows| > fetched then rows[..fetched] else rows, q.limit), codec);
  }

  // A cursor clause among the filters selects what resuming after the cursor does.
  lemma {:induction false} SameSelection<T(!new)>(table: seq<Row<T>>, holds: Row<T> -> bool, matches: Row<T> -> bool,
                                                  c: Option<Key>)
    requires forall r :: holds(r) <==> matches(r) && After(r.key, c)
    ensures Select(table, holds, None) == Select(table, matches, c)
  {
    if table != [] { SameSelection(table[1..], holds, matches, c); }
  }

  // ---------------------------------------------------------------- guests

  datatype GuestData = GuestData(displayName: string, nameVariants: seq<string>, emailLower: string, phone: string)

  datatype GuestTerms = GuestTerms(q: Option<string>, email: Option<string>, phone: Option<string>)

  datatype GuestQuery = GuestQuery(terms: GuestTerms, limit: Option<nat>, cursor: Option<string>)

  // `ilike` and `lower` are the database's substring match without case and its lower-casing.
  datatype Collation = Collation(ilike: (string, string) -> bool, lower: string -> string)

  predicate GuestMatches(db: Collation, q: GuestTerms, r: Row<GuestData>) {
    && (Given(q.q) ==> db.ilike(r.data.displayName, q.q.value) || r.data.emailLower == db.lower(q.q.value)
                       || q.q.value in r.data.nameVariants)
    && (Given(q.email) ==> r.data.emailLower == db.lower(q.email.value))
    && (Given(q.phone) ==> r.data.phone == q.phone.value)
  }

  function WantedGuests(db: Collation, q: GuestTerms): Row<GuestData> -> bool {
    (r: Row<GuestData>) => GuestMatches(db, q, r)
  }

  predicate GuestHolds(db: Collation, f: Filter, r: Row<GuestData>) {
    var ops := f.operands;
    match f.column
    case NameLike => IsText(ops, 3)
                     && (db.ilike(r.data.displayName, ops[0].text) || r.data.emailLower == db.lower(ops[1].text)
                         || ops[2].text in r.data.nameVariants)
    case EmailIs => IsText(ops, 1) && r.data.emailLower == db.lower(ops[0].text)
    case PhoneIs => IsText(ops, 1) && r.data.phone == ops[0].text
    case KeyBefore => IsKey(ops) && Before(r.key, Key(ops[0].at, ops[1].id))
    case _ => false
  }

  predicate GuestHoldsAll(db: Collation, fs: seq<Filter>, r: Row<GuestData>) {
    forall k :: 0 <= k < |fs| ==> GuestHolds(db, fs[k], r)
  }

  function GuestLimit(limit: Option<nat>): nat {
    if limit.Some? then Min(limit.value, 100) else 20
  }

  function GuestFilters(q: GuestTerms, c: Option<Key>): seq<Filter> {
    OneName(q.q) + OneText(EmailIs, q.email) + OneText(PhoneIs, q.phone) + KeyFilter(c)
  }

  lemma GuestFiltersMean(db: Collation, q: GuestTerms, c: Option<Key>, r: Row<GuestData>)
    ensures GuestHoldsAll(db, GuestFilters(q, c), r) <==> GuestMatches(db, q, r) && After(r.key, c)
  {
    var f1, f2, f3 := OneName(q.q), OneText(EmailIs, q.email), OneText(PhoneIs, q.phone);
    GuestHoldsConcat(db, f1 + f2 + f3, KeyFilter(c), r);
    GuestHoldsConcat(db, f1 + f2, f3, r);
    GuestHoldsConcat(db, f1, f2, r);
    GuestNameMeans(db, q.q, r);
    GuestTextMeans(db, q.email, q.phone, r);
    GuestHoldsOne(db, KeyFilter(c), r);
  }

  lemma GuestNameMeans(db: Collation, o: Option<string>, r: Row<GuestData>)
    ensures GuestHoldsAll(db, OneName(o), r)
            <==> (Given(o) ==> db.ilike(r.data.displayName, o.value) || r.data.emailLower == db.lower(o.value)
                               || o.value in r.data.nameVariants)
  {
    GuestHoldsOne(db, OneName(o), r);
  }

  lemma GuestTextMeans(db: Collation, email: Option<string>, phone: Option<string>, r: Row<GuestData>)
    ensures GuestHoldsAll(db, OneText(EmailIs, email), r)
            <==> (Given(email) ==> r.data.emailLower == db.lower(email.value))
    ensures GuestHoldsAll(db, OneText(PhoneIs, phone), r) <==> (Given(phone) ==> r.data.phone == phone.value)
  {
    GuestHoldsOne(db, OneText(EmailIs, email), r);
    GuestHoldsOne(db, OneText(PhoneIs, phone), r);
  }

  lemma GuestHoldsOne(db: Collation, fs: seq<Filter>, r: Row<GuestData>)
    requires |fs| <= 1
    ensures GuestHoldsAll(db, fs, r) <==> (fs != [] ==> GuestHolds(db, fs[0], r))
  {
  }

  lemma GuestHoldsConcat(db: Collation, a: seq<Filter>, b: seq<Filter>, r: Row<GuestData>)
    ensures GuestHoldsAll(db, a + b, r) <==> GuestHoldsAll(db, a, r) && GuestHoldsAll(db, b, r)
  {
    if GuestHoldsAll(db, a + b, r) {
      forall k | 0 <= k < |a| ensures GuestHolds(db, a[k], r) { assert (a + b)[k] == a[k]; }
      forall k | 0 <= k < |b| ensures GuestHolds(db, b[k], r) { assert (a + b)[|a| + k] == b[k]; }
    }
  }

  method BuildGuestSearch(q: GuestQuery, decode: string -> Option<Key>) returns (s: Statement)
    ensures InPlace(s) && s.params[s.limit - 1] == Number(GuestLimit(q.limit) + 1)
    ensures s.params[s.limit - 1] == Number(if q.limit.None? then 21
                                            else if q.limit.value > 100 then 101 else q.limit.value + 1)
    ensures Resolve(s.where, s.params) == Some(GuestFilters(q.terms, Resume(q.cursor, decode)))
  {
    var b := new StatementBuilder();
    b.PushName(q.terms.q);
    b.PushText(EmailIs, q.terms.email);
    b.PushText(PhoneIs, q.terms.phone);
    b.PushCursor(Resume(q.cursor, decode));
    assert [] + OneName(q.terms.q) == OneName(q.terms.q);
    s := b.Finish(GuestLimit(q.limit) + 1);
  }

  method SearchGuests(db: Collation, table: seq<Row<GuestData>>, q: GuestQuery, codec: Codec)
    returns (answer: Answer<GuestData>)
    ensures answer
            == Encoded(Fetch(table, WantedGuests(db, q.terms), Resume(q.cursor, codec.decode), GuestLimit(q.limit)),
                       codec)
  {
    var s := BuildGuestSearch(q, codec.decode);
    var c := Resume(q.cursor, codec.decode);
    var filters := Resolve(s.where, s.params).value;
    var holds := (r: Row<GuestData>) => GuestHoldsAll(db, filters, r);
    var rows := Select(table, holds, None);
    forall r ensures GuestHoldsAll(db, filters, r) <==> GuestMatches(db, q.terms, r) && After(r.key, c) {
      GuestFiltersMean(db, q.terms, c, r);
    }
    SameSelection(table, holds, WantedGuests(db, q.terms), c);
    var fetched := s.params[s.limit - 1].n;
    answer := Encoded(PageOf(if |rows| > fetched then rows[..fetched] else rows, GuestLimit(q.limit)), codec);
  }
}
