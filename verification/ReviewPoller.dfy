/**
 * Review polling: fetched reviews are inserted once per tenant, source and external id, and each new
 * one is linked to a guest by a confidence band. The adapter, the model's answers and the failing of
 * single statements are parameters; row ids are positions.
 *
 * A poll is one transaction. A statement that fails while a review is linked is caught and noted, but
 * the transaction is aborted from then on: the next statement fails too, outside any handler, and the
 * whole poll is rolled back.
 */
module ReviewPoller {
  import opened Wrappers

  const AUTO_LINK_CONFIDENCE := 0.85

  const NEEDS_REVIEW_CONFIDENCE := 0.5

  const LOOK_BACK: int := 30 * 24 * 3600 * 1000

  datatype Source = Tripadvisor | BookingCom | Google | Manual

  datatype ExternalReview = ExternalReview(externalId: string, postedAt: int, body: string, authorAlias: Option<string>)

  // ---------------------------------------------------------------- the model's answer

  datatype Json =
    | Null
    | Bool(b: bool)
    | Num(n: real)
    | Str(s: string)
    | Arr(items: seq<Json>)
    | Obj(fields: map<string, Json>)

  datatype LinkResult = LinkResult(guest: Option<string>, confidence: real)

  function Field(j: Json, name: string): Option<Json> {
    if j.Obj? && name in j.fields then Some(j.fields[name]) else None
  }

  // None when reading the answer throws: a raw text that parses to null has no fields to read.
  function ParseLinkResult(output: Json, parse: string -> Option<Json>): Option<LinkResult> {
    if !output.Obj? && !output.Arr? then Some(LinkResult(None, 0.0))
    else
      var raw := Field(output, "rawText");
      if raw.Some? && raw.value.Str? && parse(raw.value.s).None? then Some(LinkResult(None, 0.0))
      else
        var obj := if raw.Some? && raw.value.Str? then parse(raw.value.s).value else output;
        if obj.Null? then None
        else
          var guest, confidence := Field(obj, "linkedGuestId"), Field(obj, "confidence");
          Some(LinkResult(
            if guest.Some? && guest.value.Str? then Some(guest.value.s) else None,
            if confidence.Some? && confidence.value.Num? then confidence.value.n else 0.0))
  }

  // The parsed answer holds a guest exactly when the field is a text, and no confidence but a number.
  ghost predicate ReadsAs(obj: Json, link: LinkResult) {
    && (forall g :: link.guest == Some(g) <==>
          obj.Obj? && "linkedGuestId" in obj.fields && obj.fields["linkedGuestId"] == Str(g))
    && (forall c :: obj.Obj? && "confidence" in obj.fields && obj.fields["confidence"] == Num(c)
          ==> link.confidence == c)
    && (link.confidence != 0.0 ==> obj.Obj? && "confidence" in obj.fields && obj.fields["confidence"].Num?)
  }

  // Where the answer is read: in a raw text it carries, if that parses, and otherwise in itself; an
  // unreadable raw text and a scalar say nothing.
  lemma AnswerIsRead(output: Json, parse: string -> Option<Json>)
    ensures var raw := output.Obj? && "rawText" in output.fields && output.fields["rawText"].Str?;
            var link := ParseLinkResult(output, parse);
            if !output.Obj? && !output.Arr? then link == Some(LinkResult(None, 0.0))
            else if !raw then link.Some? && ReadsAs(output, link.value)
            else
              match parse(output.fields["rawText"].s)
              case None => link == Some(LinkResult(None, 0.0))
              case Some(obj) => (link.None? <==> obj == Null) && (link.Some? ==> ReadsAs(obj, link.value))
  {
  }

  // ---------------------------------------------------------------- tables

  datatype LinkStatus = Unlinked | AutoLinked

  datatype Review = Review(tenant: string, property: string, integration: string, source: Source, ext: ExternalReview,
                           status: LinkStatus, guest: Option<string>, confidence: Option<real>)

  // A question for a person: which guest wrote this review?
  datatype QueueItem = QueueItem(tenant: string, property: string, review: nat, suggestion: LinkResult)

  datatype Integration = Integration(id: string, tenant: string, property: Option<string>, kind: string, active: bool,
                                     lastPolled: Option<int>)

  datatype Tables = Tables(reviews: seq<Review>, queue: seq<QueueItem>)

  datatype Key = Key(tenant: string, source: Source, externalId: string)

  function KeyOf(r: Review): Key { Key(r.tenant, r.source, r.ext.externalId) }

  predicate HasKey(reviews: seq<Review>, k: Key) {
    exists i :: 0 <= i < |reviews| && KeyOf(reviews[i]) == k
  }

  function Kind(source: Source): string {
    match source
    case Tripadvisor => "review_tripadvisor"
    case BookingCom => "review_booking"
    case Google => "review_google"
    case Manual => "manual"
  }

  // The values of the column's type.
  const INTEGRATION_KINDS :=
    ["pms", "review_tripadvisor", "review_booking", "review_google", "email_m365", "email_google"]

  // Every source but the manual one has a kind of its own that the column knows.
  lemma KindsAreKnown(a: Source, b: Source)
    ensures Kind(a) in INTEGRATION_KINDS <==> !a.Manual?
    ensures Kind(a) == Kind(b) <==> a == b
    ensures Kind(Tripadvisor) == INTEGRATION_KINDS[1] && Kind(BookingCom) == INTEGRATION_KINDS[2]
            && Kind(Google) == INTEGRATION_KINDS[3]
  {
    assert Kind(a)[0] == 'm' <==> a.Manual?;
    assert forall i :: 0 <= i < |INTEGRATION_KINDS| ==> INTEGRATION_KINDS[i][0] != 'm';
  }

  // ---------------------------------------------------------------- linking one review

  // What the world answers at one position of the batch: whether the review's insert goes through, the
  // candidates found, the model's output, and whether the update and the insert of linking go through.
  // No candidates at all is a failed query, no output a failed call.
  datatype Environment = Environment(stores: bool, candidates: Option<seq<string>>, output: Option<Json>,
                                     parse: string -> Option<Json>, updates: bool, inserts: bool)

  // Threw is an exception of the program, Broke one of the database.
  datatype LinkOutcome = Linked | Queued | NotLinked | Threw | Broke

  function Relinked(t: Tables, r: nat, status: LinkStatus, guest: Option<string>, confidence: Option<real>): Tables
    requires r < |t.reviews|
  {
    t.(reviews := t.reviews[r := t.reviews[r].(status := status, guest := guest, confidence := confidence)])
  }

  predicate AutoLinks(link: LinkResult) {
    link.guest.Some? && link.guest.value != "" && link.confidence >= AUTO_LINK_CONFIDENCE
  }

  function ApplyBand(t: Tables, r: nat, link: LinkResult, env: Environment): (Tables, LinkOutcome)
    requires r < |t.reviews|
  {
    var row := t.reviews[r];
    if !env.updates then (t, Broke)
    else if AutoLinks(link) then (Relinked(t, r, AutoLinked, link.guest, Some(link.confidence)), Linked)
    else
      var noted := Relinked(t, r, Unlinked, row.guest, Some(link.confidence));
      if link.confidence < NEEDS_REVIEW_CONFIDENCE then (noted, NotLinked)
      else if !env.inserts then (noted, Broke)
      else (noted.(queue := t.queue + [QueueItem(row.tenant, row.property, r, link)]), Queued)
  }

  function LinkReview(t: Tables, r: nat, env: Environment): (Tables, LinkOutcome)
    requires r < |t.reviews|
  {
    if env.candidates.None? then (t, Broke)
    else if env.candidates.value == [] then
      if env.updates then (Relinked(t, r, Unlinked, t.reviews[r].guest, t.reviews[r].confidence), NotLinked)
      else (t, Broke)
    else if env.output.None? then (t, Threw)
    else
      match ParseLinkResult(env.output.value, env.parse)
      case None => (t, Threw)
      case Some(link) => ApplyBand(t, r, link, env)
  }

  // ---------------------------------------------------------------- one poll

  datatype Problem = FetchFailed | NoIntegration | LinkFailed(externalId: string)

  datatype Summary = Summary(fetched: nat, newReviews: nat, duplicates: nat, linked: nat, queued: nat, unlinked: nat,
                             errors: seq<Problem>)

  const NOTHING := Summary(0, 0, 0, 0, 0, 0, [])

  // `fetch` answers with what is newer than the given instant; `env` is what each position of the
  // batch meets; `finishes` says whether the last statements, the stamp and the commit, go through. The
  // two selects of an integration take one matching row without ordering them: `ownPick` and
  // `tenantPick` say which one the database happens to return.
  datatype Poll = Poll(tenant: string, property: string, source: Source, now: int,
                       fetch: int -> Option<seq<ExternalReview>>, env: nat -> Environment, finishes: bool,
                       ownPick: nat, tenantPick: nat)

  datatype Outcome = Committed(summary: Summary) | Aborted

  datatype State = State(tables: Tables, integrations: seq<Integration>)

  predicate ForProperty(i: Integration, p: Poll) {
    i.property == Some(p.property) && i.kind == Kind(p.source) && i.active
  }

  predicate ForTenant(i: Integration, p: Poll) {
    i.tenant == p.tenant && i.kind == Kind(p.source) && i.active
  }

  // Any matching row, as `pick` has it; none only if no row matches.
  function SelectOne(integrations: seq<Integration>, matches: Integration -> bool, pick: nat): (r: Option<Integration>)
    ensures r.Some? ==> r.value in integrations && matches(r.value)
    ensures r.None? ==> forall i :: 0 <= i < |integrations| ==> !matches(integrations[i])
    ensures pick < |integrations| && matches(integrations[pick]) ==> r == Some(integrations[pick])
  {
    if pick < |integrations| && matches(integrations[pick]) then Some(integrations[pick])
    else FindFirst(integrations, matches)
  }

  function OwnRow(integrations: seq<Integration>, p: Poll): Option<Integration> {
    SelectOne(integrations, (x: Integration) => ForProperty(x, p), p.ownPick)
  }

  function Since(integrations: seq<Integration>, p: Poll): int {
    var own := OwnRow(integrations, p);
    if own.Some? && own.value.lastPolled.Some? then own.value.lastPolled.value else p.now - LOOK_BACK
  }

  function FindIntegration(integrations: seq<Integration>, p: Poll): Option<string> {
    var row := SelectOne(integrations, (x: Integration) => ForTenant(x, p), p.tenantPick);
    if row.Some? then Some(row.value.id) else None
  }

  function Stamped(integrations: seq<Integration>, id: string, now: int): seq<Integration> {
    seq(|integrations|, i requires 0 <= i < |integrations| =>
      if integrations[i].id == id then integrations[i].(lastPolled := Some(now)) else integrations[i])
  }

  function Counted(s: Summary, outcome: LinkOutcome, externalId: string): Summary {
    match outcome
    case Linked => s.(linked := s.linked + 1)
    case Queued => s.(queued := s.queued + 1)
    case NotLinked => s.(unlinked := s.unlinked + 1)
    case _ => s.(unlinked := s.unlinked + 1, errors := s.errors + [LinkFailed(externalId)])
  }

  function Fresh(p: Poll, integration: string, ext: ExternalReview): Review {
    Review(p.tenant, p.property, integration, p.source, ext, Unlinked, None, None)
  }

  // Where a poll stands in its batch; broken once a statement has failed.
  datatype Progress = Progress(tables: Tables, summary: Summary, broken: bool)

  function IngestOne(g: Progress, p: Poll, integration: string, ext: ExternalReview, env: Environment): Progress {
    var t, s := g.tables, g.summary;
    if g.broken || !env.stores then g.(broken := true)
    else if HasKey(t.reviews, Key(p.tenant, p.source, ext.externalId)) then
      g.(summary := s.(duplicates := s.duplicates + 1))
    else
      var (t', outcome) := LinkReview(t.(reviews := t.reviews + [Fresh(p, integration, ext)]), |t.reviews|, env);
      Progress(t', Counted(s.(newReviews := s.newReviews + 1), outcome, ext.externalId), outcome.Broke?)
  }

  // The batch from position i on.
  function Ingest(g: Progress, p: Poll, integration: string, batch: seq<ExternalReview>, i: nat): Progress
    requires i <= |batch|
    decreases |batch| - i
  {
    if i == |batch| then g else Ingest(IngestOne(g, p, integration, batch[i], p.env(i)), p, integration, batch, i + 1)
  }

  function Begun(t: Tables, batch: seq<ExternalReview>): Progress {
    Progress(t, NOTHING.(fetched := |batch|), false)
  }

  // The kind of the manual source is no value of the column's type, so already the first select fails.
  function PollAndLink(st: State, p: Poll): (State, Outcome) {
    if Kind(p.source) !in INTEGRATION_KINDS then (st, Aborted)
    else
      match p.fetch(Since(st.integrations, p))
      case None => (st, Committed(NOTHING.(errors := [FetchFailed])))
      case Some(batch) =>
        match FindIntegration(st.integrations, p)
        case None => (st, Committed(NOTHING.(fetched := |batch|, errors := [NoIntegration])))
        case Some(id) =>
          var g := Ingest(Begun(st.tables, batch), p, id, batch, 0);
          if g.broken || !p.finishes then (st, Aborted)
          else (State(g.tables, Stamped(st.integrations, id, p.now)), Committed(g.summary))
  }

  /** The ingest service's connection in its transaction; once a statement failed, every other one does. */
  class Poller {
    var tables: Tables
    var integrations: seq<Integration>
    var broken: bool

    function View(): State
      reads this
    {
      State(tables, integrations)
    }

    constructor (integrations: seq<Integration>)
      ensures View() == State(Tables([], []), integrations) && !broken
    {
      this.tables, this.integrations, broken := Tables([], []), integrations, false;
    }

    // The insert that does nothing on a conflict; an id of None is a duplicate.
    method UpsertReview(row: Review, stores: bool) returns (ok: bool, id: Option<nat>)
      modifies this`tables, this`broken
      ensures ok <==> !old(broken) && stores
      ensures broken == !ok && (!ok ==> tables == old(tables))
      ensures ok ==> (id.None? <==> HasKey(old(tables.reviews), KeyOf(row)))
      ensures ok && id.None? ==> tables == old(tables)
      ensures ok && id.Some? ==>
                id.value == |old(tables.reviews)| && tables == old(tables).(reviews := old(tables.reviews) + [row])
    {
      id := None;
      if broken || !stores {
        broken := true;
        return false, None;
      }
      ok := true;
      var i := 0;
      while i < |tables.reviews|
        invariant i <= |tables.reviews|
        invariant forall j :: 0 <= j < i ==> KeyOf(tables.reviews[j]) != KeyOf(row)
      {
        if KeyOf(tables.reviews[i]) == KeyOf(row) { return; }
        i := i + 1;
      }
      id := Some(|tables.reviews|);
      tables := tables.(reviews := tables.reviews + [row]);
    }

    // Ends with an exception of the database whenever one of its statements fails.
    method LinkReviewToGuest(r: nat, env: Environment) returns (outcome: LinkOutcome)
      requires r < |tables.reviews| && !broken
      modifies this`tables, this`broken
      ensures (tables, outcome) == LinkReview(old(tables), r, env) && broken == outcome.Broke?
    {
      broken := env.candidates.None?;
      if broken { return Broke; }
      if env.candidates.value != [] && env.output.None? { return Threw; }
      var link := None;
      if env.candidates.value != [] {
        link := ParseLinkResult(env.output.value, env.parse);
        if link.None? { return Threw; }
      }
      broken := !env.updates;
      if broken { return Broke; }
      if link.None? {
        tables := Relinked(tables, r, Unlinked, tables.reviews[r].guest, tables.reviews[r].confidence);
        return NotLinked;
      }
      var found := link.value;
      if AutoLinks(found) {
        tables := Relinked(tables, r, AutoLinked, found.guest, Some(found.confidence));
        return Linked;
      }
      var row := tables.reviews[r];
      tables := Relinked(tables, r, Unlinked, row.guest, Some(found.confidence));
      if found.confidence < NEEDS_REVIEW_CONFIDENCE { return NotLinked; }
      broken := !env.inserts;
      if broken { return Broke; }
      tables := tables.(queue := tables.queue + [QueueItem(row.tenant, row.property, r, found)]);
      outcome := Queued;
    }

    method Run(p: Poll) returns (outcome: Outcome)
      requires !broken
      modifies this
      ensures !p.source.Manual? && p.fetch(Since(old(integrations), p)).None? ==>
                outcome == Committed(Summary(0, 0, 0, 0, 0, 0, [FetchFailed])) && View() == old(View())
      ensures !p.source.Manual? && FindIntegration(old(integrations), p).None? ==>
                match p.fetch(Since(old(integrations), p))
                case None => true
                case Some(batch) =>
                  outcome == Committed(Summary(|batch|, 0, 0, 0, 0, 0, [NoIntegration])) && View() == old(View())
      ensures outcome.Aborted? ==> View() == old(View())
      ensures (View(), outcome) == PollAndLink(old(View()), p) && !broken
    {
      if Kind(p.source) !in INTEGRATION_KINDS { return Aborted; }
      var fetched := p.fetch(Since(integrations, p));
      if fetched.None? { return Committed(NOTHING.(errors := [FetchFailed])); }
      var batch := fetched.value;
      var s := NOTHING.(fetched := |batch|);
      var found := FindIntegration(integrations, p);
      if found.None? { return Committed(s.(errors := [NoIntegration])); }
      var saved := tables;
      for i := 0 to |batch|
        invariant integrations == old(integrations)
        invariant Ingest(Progress(tables, s, broken), p, found.value, batch, i)
               == Ingest(Begun(saved, batch), p, found.value, batch, 0)
      {
        var ok, id := UpsertReview(Fresh(p, found.value, batch[i]), p.env(i).stores);
        if !ok {
          StaysBroken(Progress(tables, s, true), p, found.value, batch, i);
          tables, broken := saved, false;
          return Aborted;
        }
        if id.None? {
          s := s.(duplicates := s.duplicates + 1);
        } else {
          s := s.(newReviews := s.newReviews + 1);
          var linked := LinkReviewToGuest(id.value, p.env(i));
          s := Counted(s, linked, batch[i].externalId);
        }
      }
      if broken || !p.finishes {
        tables, broken := saved, false;
        return Aborted;
      }
      integrations := Stamped(integrations, found.value, p.now);
      outcome := Committed(s);
    }
  }

  lemma {:induction false} StaysBroken(g: Progress, p: Poll, integration: string, batch: seq<ExternalReview>, i: nat)
    requires i <= |batch| && g.broken
    ensures Ingest(g, p, integration, batch, i) == g
    decreases |batch| - i
  {
    if i < |batch| { StaysBroken(g, p, integration, batch, i + 1); }
  }

  // ---------------------------------------------------------------- what every poll keeps

  ghost predicate KeysUnique(reviews: seq<Review>) {
    forall i, j :: 0 <= i < j < |reviews| ==> KeyOf(reviews[i]) != KeyOf(reviews[j])
  }

  // A linked review has a guest and enough confidence, any other has none.
  ghost predicate LinkSound(r: Review) {
    match r.status
    case AutoLinked => r.guest.Some? && r.guest.value != "" && r.confidence.Some?
      && r.confidence.value >= AUTO_LINK_CONFIDENCE
    case Unlinked => r.guest.None?
  }

  ghost predicate Asked(t: Tables, q: QueueItem) {
    && q.review < |t.reviews|
    && var row := t.reviews[q.review];
       && row.status == Unlinked && row.tenant == q.tenant && row.property == q.property
       && row.confidence == Some(q.suggestion.confidence) && q.suggestion.confidence >= NEEDS_REVIEW_CONFIDENCE
  }

  // Every question is about an unlinked review whose confidence calls for one, and is asked once.
  ghost predicate QueueSound(t: Tables) {
    && (forall i :: 0 <= i < |t.queue| ==> Asked(t, t.queue[i]))
    && (forall i, j :: 0 <= i < j < |t.queue| ==> t.queue[i].review != t.queue[j].review)
  }

  ghost predicate Inv(t: Tables) {
    && KeysUnique(t.reviews)
    && (forall i :: 0 <= i < |t.reviews| ==> LinkSound(t.reviews[i]))
    && QueueSound(t)
  }

  // What a stretch of a poll may do: add reviews and questions, count each, touch nothing older.
  ghost predicate Accounts(t: Tables, s: Summary, t': Tables, s': Summary, seen: nat) {
    && t.reviews <= t'.reviews && t.queue <= t'.queue
    && s'.fetched == s.fetched
    && s'.newReviews + s'.duplicates == s.newReviews + s.duplicates + seen
    && s'.newReviews - s.newReviews == (s'.linked - s.linked) + (s'.queued - s.queued) + (s'.unlinked - s.unlinked)
    && s'.newReviews - s.newReviews == |t'.reviews| - |t.reviews|
    && s'.queued - s.queued == |t'.queue| - |t.queue|
  }

  // Which band a suggestion falls into: a guest is taken from 0.85 on, below that a person is asked from
  // 0.5 on, as is one for a certain suggestion without a guest, and a lower one is only noted.
  lemma LinkBands(t: Tables, r: nat, env: Environment)
    requires r < |t.reviews| && env.updates && env.inserts && Suggestion(env).Some?
    ensures var (t', outcome) := LinkReview(t, r, env);
            var link, row := Suggestion(env).value, t'.reviews[r];
            var certain := link.guest.Some? && link.guest.value != "" && link.confidence >= 0.85;
            && |t'.reviews| == |t.reviews| && row.confidence == Some(link.confidence)
            && (outcome == Linked <==> certain) && (outcome == Queued <==> !certain && link.confidence >= 0.5)
            && (outcome == NotLinked <==> !certain && link.confidence < 0.5)
            && (certain ==> row.status == AutoLinked && row.guest == link.guest)
            && (!certain ==> row.status == Unlinked && row.guest == t.reviews[r].guest)
            && (outcome == Queued ==>
                  t'.queue == t.queue + [QueueItem(t.reviews[r].tenant, t.reviews[r].property, r, link)])
            && (outcome != Queued ==> t'.queue == t.queue)
  {
  }

  // Without candidates the review is noted as unlinked and nobody is asked; when the model or its answer
  // fails nothing is written at all.
  lemma LinkWithoutSuggestion(t: Tables, r: nat, env: Environment)
    requires r < |t.reviews| && env.updates && env.candidates.Some? && Suggestion(env).None?
    ensures var (t', outcome) := LinkReview(t, r, env);
            var row := t.reviews[r];
            if env.candidates.value == []
            then outcome == NotLinked && t' == t.(reviews := t.reviews[r := row.(status := Unlinked)])
            else outcome == Threw && t' == t
  {
    assert t.reviews[r].(status := Unlinked, guest := t.reviews[r].guest, confidence := t.reviews[r].confidence)
        == t.reviews[r].(status := Unlinked);
  }

  // Linking touches the one review, keeping its key, and asks at most one question, about it.
  lemma LinkTouchesOne(t: Tables, r: nat, env: Environment)
    requires r < |t.reviews| && t.reviews[r].status == Unlinked && t.reviews[r].guest.None?
    ensures var (t', outcome) := LinkReview(t, r, env);
            && |t'.reviews| == |t.reviews|
              && (forall i :: 0 <= i < |t.reviews| && i != r ==> t'.reviews[i] == t.reviews[i])
            && KeyOf(t'.reviews[r]) == KeyOf(t.reviews[r]) && LinkSound(t'.reviews[r])
            && (if outcome.Queued? then |t'.queue| == |t.queue| + 1 && t'.queue[..|t.queue|] == t.queue
              && AsksOf(t', t'.queue[|t.queue|], r)
                else t'.queue == t.queue)
  {
  }

  ghost predicate AsksOf(t: Tables, q: QueueItem, r: nat) {
    && q.review == r < |t.reviews| && Asked(t, q)
  }

  lemma OneKeepsInv(g: Progress, p: Poll, integration: string, ext: ExternalReview, env: Environment)
    requires Inv(g.tables) && !IngestOne(g, p, integration, ext, env).broken
    ensures var g' := IngestOne(g, p, integration, ext, env);
            && Inv(g'.tables) && Accounts(g.tables, g.summary, g'.tables, g'.summary, 1)
            && HasKey(g'.tables.reviews, Key(p.tenant, p.source, ext.externalId))
  {
    var t, key := g.tables, Key(p.tenant, p.source, ext.externalId);
    if !HasKey(t.reviews, key) {
      var n := |t.reviews|;
      var t1 := t.(reviews := t.reviews + [Fresh(p, integration, ext)]);
      var (t2, outcome) := LinkReview(t1, n, env);
      LinkTouchesOne(t1, n, env);
      assert t2.reviews[..n] == t.reviews;
      assert KeyOf(t2.reviews[n]) == key;
      forall i | 0 <= i < |t.queue| ensures Asked(t2, t2.queue[i]) && t2.queue[i].review < n {
        assert Asked(t, t.queue[i]) && t2.queue[i] == t.queue[i];
      }
    }
  }

  lemma {:induction false} BatchKeepsInv(g: Progress, p: Poll, integration: string, batch: seq<ExternalReview>, i: nat)
    requires Inv(g.tables) && i <= |batch| && !Ingest(g, p, integration, batch, i).broken
    ensures var g' := Ingest(g, p, integration, batch, i);
            && Inv(g'.tables) && Accounts(g.tables, g.summary, g'.tables, g'.summary, |batch| - i)
            && forall k :: i <= k < |batch| ==>
                 HasKey(g'.tables.reviews, Key(p.tenant, p.source, batch[k].externalId))
    decreases |batch| - i
  {
    if i < |batch| {
      var g1 := IngestOne(g, p, integration, batch[i], p.env(i));
      if g1.broken { StaysBroken(g1, p, integration, batch, i + 1); }
      OneKeepsInv(g, p, integration, batch[i], p.env(i));
      BatchKeepsInv(g1, p, integration, batch, i + 1);
      var g2 := Ingest(g1, p, integration, batch, i + 1);
      HasKeyGrows(g1.tables.reviews, g2.tables.reviews, Key(p.tenant, p.source, batch[i].externalId));
    }
  }

  lemma HasKeyGrows(a: seq<Review>, b: seq<Review>, k: Key)
    requires a <= b && HasKey(a, k)
    ensures HasKey(b, k)
  {
    var i :| 0 <= i < |a| && KeyOf(a[i]) == k;
    assert KeyOf(b[i]) == k;
  }

  // ---------------------------------------------------------------- runs of polls

  datatype History = History(state: State, outcomes: seq<Outcome>)

  function RunPolls(st: State, polls: seq<Poll>): History
    decreases |polls|
  {
    if polls == [] then History(st, [])
    else
      var before := RunPolls(st, polls[..|polls| - 1]);
      var (after, outcome) := PollAndLink(before.state, polls[|polls| - 1]);
      History(after, before.outcomes + [outcome])
  }

  function SumNew(os: seq<Outcome>): nat {
    if os == [] then 0
    else SumNew(os[..|os| - 1]) + if os[|os| - 1].Committed? then os[|os| - 1].summary.newReviews else 0
  }

  function SumQueued(os: seq<Outcome>): nat {
    if os == [] then 0
    else SumQueued(os[..|os| - 1]) + if os[|os| - 1].Committed? then os[|os| - 1].summary.queued else 0
  }

  // The poll has something to ingest and an integration to book it to.
  predicate ReachesLoop(st: State, p: Poll) {
    !p.source.Manual? && p.fetch(Since(st.integrations, p)).Some? && FindIntegration(st.integrations, p).Some?
  }

  // What a committed poll adds is what it counts.
  ghost predicate Booked(t: Tables, s: Summary, t': Tables) {
    && t.reviews <= t'.reviews && t.queue <= t'.queue
    && s.newReviews == s.linked + s.queued + s.unlinked
    && |t'.reviews| == |t.reviews| + s.newReviews
    && |t'.queue| == |t.queue| + s.queued
  }

  // One poll, whatever is fetched and whatever fails: an aborted one changes nothing.
  lemma PollKeepsInv(st: State, p: Poll)
    requires Inv(st.tables)
    ensures var (st', outcome) := PollAndLink(st, p);
            && Inv(st'.tables)
            && (outcome.Aborted? ==> st' == st)
            && (outcome.Committed? ==> Booked(st.tables, outcome.summary, st'.tables))
            && (outcome.Committed? && ReachesLoop(st, p) ==>
                  outcome.summary.fetched == outcome.summary.newReviews + outcome.summary.duplicates)
  {
    if ReachesLoop(st, p) && PollAndLink(st, p).1.Committed? {
      var batch := p.fetch(Since(st.integrations, p)).value;
      BatchKeepsInv(Begun(st.tables, batch), p, FindIntegration(st.integrations, p).value, batch, 0);
    }
  }

  // A review the poll fetched, booked to its tenant, property and source and to the given integration.
  predicate BookedTo(r: Review, p: Poll, integration: string, batch: seq<ExternalReview>) {
    && r.tenant == p.tenant && r.property == p.property && r.source == p.source && r.integration == integration
    && r.ext in batch
  }

  lemma {:induction false} AddedAreBooked(g: Progress, p: Poll, integration: string, batch: seq<ExternalReview>, i: nat)
    requires i <= |batch|
    ensures var rows := Ingest(g, p, integration, batch, i).tables.reviews;
            && |g.tables.reviews| <= |rows|
            && forall k :: |g.tables.reviews| <= k < |rows| ==> BookedTo(rows[k], p, integration, batch)
    decreases |batch| - i
  {
    if i < |batch| {
      var g1 := IngestOne(g, p, integration, batch[i], p.env(i));
      AddedAreBooked(g1, p, integration, batch, i + 1);
      OneIsBooked(g, p, integration, batch, i);
      LaterStay(g1, p, integration, batch, i + 1);
    }
  }

  lemma OneIsBooked(g: Progress, p: Poll, integration: string, batch: seq<ExternalReview>, i: nat)
    requires i < |batch|
    ensures var rows, n := IngestOne(g, p, integration, batch[i], p.env(i)).tables.reviews, |g.tables.reviews|;
            && n <= |rows| <= n + 1 && rows[..n] == g.tables.reviews
            && (|rows| > n ==> BookedTo(rows[n], p, integration, batch))
  {
    var t, n := g.tables, |g.tables.reviews|;
    var t1 := t.(reviews := t.reviews + [Fresh(p, integration, batch[i])]);
    LinkTouchesOne(t1, n, p.env(i));
    LinkKeepsOrigin(t1, n, p.env(i));
  }

  lemma LinkKeepsOrigin(t: Tables, r: nat, env: Environment)
    requires r < |t.reviews|
    ensures var row := LinkReview(t, r, env).0.reviews[r];
            row == t.reviews[r].(status := row.status, guest := row.guest, confidence := row.confidence)
  {
  }

  lemma {:induction false} LaterStay(g: Progress, p: Poll, integration: string, batch: seq<ExternalReview>, i: nat)
    requires i <= |batch|
    ensures g.tables.reviews <= Ingest(g, p, integration, batch, i).tables.reviews
    decreases |batch| - i
  {
    if i < |batch| {
      OneIsBooked(g, p, integration, batch, i);
      LaterStay(IngestOne(g, p, integration, batch[i], p.env(i)), p, integration, batch, i + 1);
    }
  }

  // What a poll adds is what it fetched, booked to its own tenant, property, source and integration.
  lemma PollBooksItsOwn(st: State, p: Poll)
    requires ReachesLoop(st, p) && PollAndLink(st, p).1.Committed?
    ensures var rows, before := PollAndLink(st, p).0.tables.reviews, st.tables.reviews;
            var batch, id := p.fetch(Since(st.integrations, p)).value, FindIntegration(st.integrations, p).value;
            before <= rows && forall k :: |before| <= k < |rows| ==> BookedTo(rows[k], p, id, batch)
  {
    var batch, id := p.fetch(Since(st.integrations, p)).value, FindIntegration(st.integrations, p).value;
    AddedAreBooked(Begun(st.tables, batch), p, id, batch, 0);
    LaterStay(Begun(st.tables, batch), p, id, batch, 0);
  }

  // Over every sequence of polls by any tenants and sources, aborted ones included: reviews stay unique,
  // every one of them was counted as new by exactly one committed poll, and every question as queued.
  lemma {:induction false} PollsKeepInv(integrations: seq<Integration>, polls: seq<Poll>)
    ensures var h := RunPolls(State(Tables([], []), integrations), polls);
            && Inv(h.state.tables)
            && SumNew(h.outcomes) == |h.state.tables.reviews|
            && SumQueued(h.outcomes) == |h.state.tables.queue|
    decreases |polls|
  {
    if polls != [] {
      var n := |polls| - 1;
      PollsKeepInv(integrations, polls[..n]);
      var before := RunPolls(State(Tables([], []), integrations), polls[..n]);
      PollKeepsInv(before.state, polls[n]);
      var h := RunPolls(State(Tables([], []), integrations), polls);
      assert h.outcomes[..|h.outcomes| - 1] == before.outcomes;
    }
  }

  // Reviews that are there already are only counted, as far as their inserts go through.
  lemma {:induction false} AllDuplicates(g: Progress, p: Poll, integration: string, batch: seq<ExternalReview>, i: nat)
    requires i <= |batch| && !g.broken
    requires forall k :: i <= k < |batch| ==> HasKey(g.tables.reviews, Key(p.tenant, p.source, batch[k].externalId))
    ensures var g' := Ingest(g, p, integration, batch, i);
            if forall k :: i <= k < |batch| ==> p.env(k).stores
            then g' == g.(summary := g.summary.(duplicates := g.summary.duplicates + |batch| - i))
            else g'.broken
    decreases |batch| - i
  {
    if i < |batch| {
      var g1 := IngestOne(g, p, integration, batch[i], p.env(i));
      if g1.broken {
        StaysBroken(g1, p, integration, batch, i + 1);
      } else {
        AllDuplicates(g1, p, integration, batch, i + 1);
      }
    }
  }

  // Whatever happened in between, polling reviews that a committed poll has ingested, in any order and
  // from any property of the tenant, changes no review and no question, counts only duplicates, and
  // commits unless an insert or the end of the poll fails: no review is linked again.
  lemma {:induction false} RepollChangesNothing(st: State, p: Poll, between: seq<Poll>, again: Poll)
    requires Inv(st.tables) && again.tenant == p.tenant && again.source == p.source
    requires ReachesLoop(st, p) && PollAndLink(st, p).1.Committed?
    requires var h := RunPolls(PollAndLink(st, p).0, between).state;
             var batch := again.fetch(Since(h.integrations, again));
             && batch.Some?
             && forall e :: e in batch.value ==>
                  exists d :: d in p.fetch(Since(st.integrations, p)).value && d.externalId == e.externalId
    ensures var h := RunPolls(PollAndLink(st, p).0, between).state;
            var (h', outcome) := PollAndLink(h, again);
            && h'.tables == h.tables
            && (outcome.Committed? ==> outcome.summary.newReviews == outcome.summary.queued == 0)
            && (outcome.Committed? && ReachesLoop(h, again) ==> outcome.summary.duplicates == outcome.summary.fetched)
            && (ReachesLoop(h, again) ==>
                  var batch := again.fetch(Since(h.integrations, again)).value;
                  outcome.Committed? <==> again.finishes && forall k :: 0 <= k < |batch| ==> again.env(k).stores)
  {
    var first, id := p.fetch(Since(st.integrations, p)).value, FindIntegration(st.integrations, p).value;
    BatchKeepsInv(Begun(st.tables, first), p, id, first, 0);
    var st1 := PollAndLink(st, p).0;
    PollsOnlyAdd(st1, between);
    var h := RunPolls(st1, between).state;
    var batch := again.fetch(Since(h.integrations, again)).value;
    forall k | 0 <= k < |batch| ensures HasKey(h.tables.reviews, Key(again.tenant, again.source, batch[k].externalId)) {
      assert batch[k] in batch;
      var d :| d in first && d.externalId == batch[k].externalId;
      HasKeyGrows(st1.tables.reviews, h.tables.reviews, Key(p.tenant, p.source, d.externalId));
    }
    if FindIntegration(h.integrations, again).Some? {
      AllDuplicates(Begun(h.tables, batch), again, FindIntegration(h.integrations, again).value, batch, 0);
    }
  }

  lemma {:induction false} PollsOnlyAdd(st: State, polls: seq<Poll>)
    requires Inv(st.tables)
    ensures Inv(RunPolls(st, polls).state.tables)
    ensures st.tables.reviews <= RunPolls(st, polls).state.tables.reviews
    ensures st.tables.queue <= RunPolls(st, polls).state.tables.queue
    decreases |polls|
  {
    if polls != [] {
      PollsOnlyAdd(st, polls[..|polls| - 1]);
      PollKeepsInv(RunPolls(st, polls[..|polls| - 1]).state, polls[|polls| - 1]);
    }
  }

  // ---------------------------------------------------------------- when a poll commits

  // What the model suggests for a review that has candidates.
  function Suggestion(env: Environment): Option<LinkResult> {
    if env.candidates.Some? && env.candidates.value != [] && env.output.Some?
    then ParseLinkResult(env.output.value, env.parse) else None
  }

  // The suggestion is neither certain enough to be taken nor low enough to be ignored.
  predicate Ambiguous(env: Environment) {
    var link := Suggestion(env);
    link.Some? && link.value.confidence >= NEEDS_REVIEW_CONFIDENCE && !AutoLinks(link.value)
  }

  // Some statement that linking issues fails: the search for candidates, the update of the review, which
  // is skipped only when the model gave no answer, or the insert of a question.
  predicate StatementFails(env: Environment) {
    || env.candidates.None?
    || ((env.candidates.value == [] || Suggestion(env).Some?) && !env.updates)
    || (Ambiguous(env) && !env.inserts)
  }

  lemma BreaksIffStatementFails(t: Tables, r: nat, env: Environment)
    requires r < |t.reviews|
    ensures LinkReview(t, r, env).1 == Broke <==> StatementFails(env)
  {
  }

  // The first of its external id in the batch, and not stored before.
  predicate IsNew(reviews: seq<Review>, p: Poll, batch: seq<ExternalReview>, i: nat, from: nat)
    requires i < |batch|
  {
    && !HasKey(reviews, Key(p.tenant, p.source, batch[i].externalId))
    && forall j :: from <= j < i ==> batch[j].externalId != batch[i].externalId
  }

  predicate GoesThrough(reviews: seq<Review>, p: Poll, batch: seq<ExternalReview>, i: nat, from: nat)
    requires i < |batch|
  {
    p.env(i).stores && (IsNew(reviews, p, batch, i, from) ==> !StatementFails(p.env(i)))
  }

  predicate AllGoThrough(reviews: seq<Review>, p: Poll, batch: seq<ExternalReview>, from: nat) {
    forall k :: from <= k < |batch| ==> GoesThrough(reviews, p, batch, k, from)
  }

  // The model's answer, or the reading of it, fails.
  predicate AnswerFails(env: Environment) {
    env.candidates.Some? && env.candidates.value != [] && Suggestion(env).None?
  }

  lemma ThrowsIffAnswerFails(t: Tables, r: nat, env: Environment)
    requires r < |t.reviews|
    ensures LinkReview(t, r, env).1 == Threw <==> AnswerFails(env)
  {
  }

  lemma KeysAfterOne(g: Progress, p: Poll, integration: string, ext: ExternalReview, env: Environment, k: Key)
    requires !IngestOne(g, p, integration, ext, env).broken
    ensures HasKey(IngestOne(g, p, integration, ext, env).tables.reviews, k)
            <==> HasKey(g.tables.reviews, k) || k == Key(p.tenant, p.source, ext.externalId)
  {
    var t, n, key := g.tables, |g.tables.reviews|, Key(p.tenant, p.source, ext.externalId);
    if !HasKey(t.reviews, key) {
      var t1 := t.(reviews := t.reviews + [Fresh(p, integration, ext)]);
      LinkTouchesOne(t1, n, env);
      var rows := LinkReview(t1, n, env).0.reviews;
      assert KeyOf(rows[n]) == key && forall i :: 0 <= i < n ==> rows[i] == t.reviews[i];
      if HasKey(t.reviews, k) { HasKeyGrows(t.reviews, rows, k) by { assert rows[..n] == t.reviews; } }
    }
  }

  // What is new later in the batch does not depend on where one starts to look.
  lemma SameLater(g: Progress, p: Poll, integration: string, batch: seq<ExternalReview>, i: nat, k: nat)
    requires i < k < |batch| && !IngestOne(g, p, integration, batch[i], p.env(i)).broken
    ensures var later := IngestOne(g, p, integration, batch[i], p.env(i)).tables.reviews;
            GoesThrough(later, p, batch, k, i + 1) <==> GoesThrough(g.tables.reviews, p, batch, k, i)
  {
    KeysAfterOne(g, p, integration, batch[i], p.env(i), Key(p.tenant, p.source, batch[k].externalId));
    var later := IngestOne(g, p, integration, batch[i], p.env(i)).tables.reviews;
    assert IsNew(later, p, batch, k, i + 1) <==> IsNew(g.tables.reviews, p, batch, k, i);
  }

  lemma {:induction false} UnbrokenIff(g: Progress, p: Poll, integration: string, batch: seq<ExternalReview>, i: nat)
    requires i <= |batch| && !g.broken
    ensures !Ingest(g, p, integration, batch, i).broken
            <==> AllGoThrough(g.tables.reviews, p, batch, i)
    decreases |batch| - i
  {
    if i < |batch| {
      var g1 := IngestOne(g, p, integration, batch[i], p.env(i));
      var rows := g.tables.reviews;
      BreaksIffStatementFails(g.tables.(reviews := rows + [Fresh(p, integration, batch[i])]), |rows|, p.env(i));
      assert g1.broken <==> !GoesThrough(rows, p, batch, i, i);
      if g1.broken {
        StaysBroken(g1, p, integration, batch, i + 1);
      } else {
        UnbrokenIff(g1, p, integration, batch, i + 1);
        var later := g1.tables.reviews;
        forall k | i + 1 <= k < |batch|
          ensures GoesThrough(later, p, batch, k, i + 1) <==> GoesThrough(rows, p, batch, k, i)
        {
          SameLater(g, p, integration, batch, i, k);
        }
        if AllGoThrough(later, p, batch, i + 1) {
          forall k | i <= k < |batch| ensures GoesThrough(rows, p, batch, k, i) {
            assert k > i ==> GoesThrough(later, p, batch, k, i + 1);
          }
        } else {
          var k :| i + 1 <= k < |batch| && !GoesThrough(later, p, batch, k, i + 1);
          assert !GoesThrough(rows, p, batch, k, i);
        }
      }
    }
  }

  // A poll that reaches its loop commits if and only if every insert goes through, no linking statement
  // of a new review fails, and the poll can be finished.
  lemma CommitsIff(st: State, p: Poll)
    requires ReachesLoop(st, p)
    ensures var batch := p.fetch(Since(st.integrations, p)).value;
            PollAndLink(st, p).1.Committed? <==> p.finishes && AllGoThrough(st.tables.reviews, p, batch, 0)
  {
    var batch := p.fetch(Since(st.integrations, p)).value;
    UnbrokenIff(Begun(st.tables, batch), p, FindIntegration(st.integrations, p).value, batch, 0);
  }

  // The errors noted from position i on are of the new reviews whose answer failed.
  ghost predicate NotesFailures(g: Progress, g': Progress, p: Poll, batch: seq<ExternalReview>, from: nat) {
    && g.summary.errors <= g'.summary.errors
    && (forall k :: from <= k < |batch| && IsNew(g.tables.reviews, p, batch, k, from) && AnswerFails(p.env(k))
                    ==> LinkFailed(batch[k].externalId) in g'.summary.errors[|g.summary.errors|..])
    && forall e :: e in g'.summary.errors[|g.summary.errors|..] ==>
         exists k :: from <= k < |batch| && IsNew(g.tables.reviews, p, batch, k, from) && AnswerFails(p.env(k))
                     && e == LinkFailed(batch[k].externalId)
  }

  lemma OneNotesFailure(g: Progress, p: Poll, integration: string, ext: ExternalReview, env: Environment)
    requires !IngestOne(g, p, integration, ext, env).broken
    ensures var fails := !HasKey(g.tables.reviews, Key(p.tenant, p.source, ext.externalId)) && AnswerFails(env);
            IngestOne(g, p, integration, ext, env).summary.errors
            == g.summary.errors + if fails then [LinkFailed(ext.externalId)] else []
  {
    var rows := g.tables.reviews;
    ThrowsIffAnswerFails(g.tables.(reviews := rows + [Fresh(p, integration, ext)]), |rows|, env);
  }

  lemma LaterIsNew(g: Progress, p: Poll, integration: string, batch: seq<ExternalReview>, i: nat, k: nat)
    requires i < k < |batch| && !IngestOne(g, p, integration, batch[i], p.env(i)).broken
    ensures var later := IngestOne(g, p, integration, batch[i], p.env(i)).tables.reviews;
            IsNew(later, p, batch, k, i + 1) <==> IsNew(g.tables.reviews, p, batch, k, i)
  {
    KeysAfterOne(g, p, integration, batch[i], p.env(i), Key(p.tenant, p.source, batch[k].externalId));
  }

  lemma {:induction false} FailuresAreNoted(g: Progress, p: Poll, integration: string, batch: seq<ExternalReview>,
                                            i: nat)
    requires i <= |batch| && !Ingest(g, p, integration, batch, i).broken
    ensures NotesFailures(g, Ingest(g, p, integration, batch, i), p, batch, i)
    decreases |batch| - i
  {
    if i < |batch| {
      var g1 := IngestOne(g, p, integration, batch[i], p.env(i));
      if g1.broken { StaysBroken(g1, p, integration, batch, i + 1); }
      OneNotesFailure(g, p, integration, batch[i], p.env(i));
      FailuresAreNoted(g1, p, integration, batch, i + 1);
      OneMoreNoted(g, g1, Ingest(g1, p, integration, batch, i + 1), p, integration, batch, i);
    }
  }

  lemma OneMoreNoted(g: Progress, g1: Progress, g': Progress, p: Poll, integration: string,
                     batch: seq<ExternalReview>, i: nat)
    requires i < |batch| && !g1.broken && g1 == IngestOne(g, p, integration, batch[i], p.env(i))
    requires NotesFailures(g1, g', p, batch, i + 1)
    ensures NotesFailures(g, g', p, batch, i)
  {
    OneNotesFailure(g, p, integration, batch[i], p.env(i));
    var n, n1, errors := |g.summary.errors|, |g1.summary.errors|, g'.summary.errors;
    assert errors[n..] == errors[n..n1] + errors[n1..];
    assert errors[n..n1] == g1.summary.errors[n..];
    forall k | i <= k < |batch| && IsNew(g.tables.reviews, p, batch, k, i) && AnswerFails(p.env(k))
      ensures LinkFailed(batch[k].externalId) in errors[n..]
    {
      if k > i { LaterIsNew(g, p, integration, batch, i, k); }
    }
    forall e | e in errors[n..]
      ensures exists k :: i <= k < |batch| && IsNew(g.tables.reviews, p, batch, k, i) && AnswerFails(p.env(k))
                          && e == LinkFailed(batch[k].externalId)
    {
      if e in errors[n1..] {
        var k :| i + 1 <= k < |batch| && IsNew(g1.tables.reviews, p, batch, k, i + 1) && AnswerFails(p.env(k))
                 && e == LinkFailed(batch[k].externalId);
        LaterIsNew(g, p, integration, batch, i, k);
      } else {
        assert e in errors[n..n1];
        assert IsNew(g.tables.reviews, p, batch, i, i);
      }
    }
  }

  // The errors of a committed poll are those of its new reviews for which the model or its answer failed.
  lemma ErrorsAreFailedAnswers(st: State, p: Poll)
    requires ReachesLoop(st, p) && PollAndLink(st, p).1.Committed?
    ensures var batch, errors := p.fetch(Since(st.integrations, p)).value, PollAndLink(st, p).1.summary.errors;
            && (forall k :: 0 <= k < |batch| && IsNew(st.tables.reviews, p, batch, k, 0) && AnswerFails(p.env(k))
                            ==> LinkFailed(batch[k].externalId) in errors)
            && forall e :: e in errors ==>
                 exists k :: 0 <= k < |batch| && IsNew(st.tables.reviews, p, batch, k, 0) && AnswerFails(p.env(k))
                             && e == LinkFailed(batch[k].externalId)
  {
    var batch, errors := p.fetch(Since(st.integrations, p)).value, PollAndLink(st, p).1.summary.errors;
    FailuresAreNoted(Begun(st.tables, batch), p, FindIntegration(st.integrations, p).value, batch, 0);
    assert errors[0..] == errors;
  }

  // The exception queue has no column `description`, so the insert of a question always fails; here no
  // other statement does.
  predicate OnThisSchema(env: Environment) {
    env.stores && env.candidates.Some? && env.updates && !env.inserts
  }

  // Then a poll commits if and only if none of its new reviews is ambiguous, and never queues any.
  lemma SchemaCommitsIff(st: State, p: Poll)
    requires ReachesLoop(st, p) && p.finishes
    requires forall k :: OnThisSchema(p.env(k))
    ensures var batch := p.fetch(Since(st.integrations, p)).value;
            PollAndLink(st, p).1.Committed?
            <==> forall k :: 0 <= k < |batch| && IsNew(st.tables.reviews, p, batch, k, 0) ==> !Ambiguous(p.env(k))
  {
    var batch := p.fetch(Since(st.integrations, p)).value;
    CommitsIff(st, p);
    forall k | 0 <= k < |batch|
      ensures GoesThrough(st.tables.reviews, p, batch, k, 0)
              <==> (IsNew(st.tables.reviews, p, batch, k, 0) ==> !Ambiguous(p.env(k)))
    {
      assert OnThisSchema(p.env(k));
    }
  }

  // Whenever it is made, the poll fetches the review as a new one and its question cannot be inserted.
  ghost predicate Stuck(st: State, p: Poll, externalId: string) {
    && !HasKey(st.tables.reviews, Key(p.tenant, p.source, externalId))
    && FindIntegration(st.integrations, p).Some?
    && forall since :: p.fetch(since).Some? && Blocks(p, p.fetch(since).value, externalId)
  }

  ghost predicate Blocks(p: Poll, batch: seq<ExternalReview>, externalId: string) {
    exists i :: 0 <= i < |batch| && FirstOf(batch, externalId, i) && Ambiguous(p.env(i)) && !p.env(i).inserts
  }

  predicate FirstOf(batch: seq<ExternalReview>, externalId: string, i: nat) {
    && i < |batch| && batch[i].externalId == externalId
    && forall j :: 0 <= j < i ==> batch[j].externalId != externalId
  }

  lemma StuckPollAborts(st: State, p: Poll, externalId: string)
    requires Stuck(st, p, externalId)
    ensures PollAndLink(st, p) == (st, Aborted)
  {
    if ReachesLoop(st, p) {
      CommitsIff(st, p);
      var batch := p.fetch(Since(st.integrations, p)).value;
      assert Blocks(p, batch, externalId);
      var i :| 0 <= i < |batch| && FirstOf(batch, externalId, i) && Ambiguous(p.env(i)) && !p.env(i).inserts;
      assert IsNew(st.tables.reviews, p, batch, i, 0) && !GoesThrough(st.tables.reviews, p, batch, i, 0);
    }
  }

  // One ambiguous review stops all polls that fetch it, for ever: each is rolled back as a whole, so the
  // review is new and the instant to start from is the same the next time.
  lemma {:induction false} AbortsForEver(st: State, polls: seq<Poll>, externalId: string)
    requires forall k :: 0 <= k < |polls| ==> Stuck(st, polls[k], externalId)
    ensures RunPolls(st, polls).state == st
    ensures forall o :: o in RunPolls(st, polls).outcomes ==> o == Aborted
    decreases |polls|
  {
    if polls != [] {
      var n := |polls| - 1;
      var p := polls[n];
      assert forall k :: 0 <= k < n ==> polls[..n][k] == polls[k];
      AbortsForEver(st, polls[..n], externalId);
      StuckPollAborts(st, p, externalId);
    }
  }

  // One review, one candidate, and a model that is sixty percent sure of nobody.
  function SampleEnv(): Environment {
    Environment(true, Some(["guest"]), Some(Obj(map["confidence" := Num(0.6)])), (s: string) => None, true, false)
  }

  function SamplePoll(now: int): Poll {
    Poll("t", "p", Tripadvisor, now, (since: int) => Some([ExternalReview("r1", 0, "Lovely stay", None)]),
         (i: nat) => SampleEnv(), true, 0, 0)
  }

  lemma AmbiguousPollIsStuck(now: int)
    ensures var st := State(Tables([], []), [Integration("i", "t", Some("p"), "review_tripadvisor", true, None)]);
            Stuck(st, SamplePoll(now), "r1") && PollAndLink(st, SamplePoll(now)) == (st, Aborted)
  {
    var st := State(Tables([], []), [Integration("i", "t", Some("p"), "review_tripadvisor", true, None)]);
    var p := SamplePoll(now);
    var batch := [ExternalReview("r1", 0, "Lovely stay", None)];
    assert ForTenant(st.integrations[0], p);
    assert Suggestion(SampleEnv()) == Some(LinkResult(None, 0.6));
    assert FirstOf(batch, "r1", 0) && Ambiguous(p.env(0)) && !p.env(0).inserts;
    assert Blocks(p, batch, "r1");
    StuckPollAborts(st, p, "r1");
  }

  // A poll of direct feedback never gets past its first statement.
  lemma {:induction false} ManualAlwaysAborts(st: State, polls: seq<Poll>)
    requires forall k :: 0 <= k < |polls| ==> polls[k].source.Manual?
    ensures RunPolls(st, polls).state == st
    ensures forall o :: o in RunPolls(st, polls).outcomes ==> o == Aborted
    decreases |polls|
  {
    if polls != [] { ManualAlwaysAborts(st, polls[..|polls| - 1]); }
  }

  // ---------------------------------------------------------------- where the next poll starts

  // Which integrations a poll uses: to start from, an active one of the source's kind and the property; to
  // book its reviews to, an active one of the kind and the tenant.
  lemma IntegrationsUsed(integrations: seq<Integration>, p: Poll)
    ensures OwnRow(integrations, p).Some? ==>
              var own := OwnRow(integrations, p).value;
              own in integrations && own.property == Some(p.property) && own.kind == Kind(p.source) && own.active
    ensures OwnRow(integrations, p).None? ==>
              forall x :: x in integrations && x.property == Some(p.property) && x.kind == Kind(p.source) ==> !x.active
    ensures FindIntegration(integrations, p).Some? ==>
              exists x :: x in integrations && x.tenant == p.tenant && x.kind == Kind(p.source) && x.active
                          && FindIntegration(integrations, p) == Some(x.id)
    ensures FindIntegration(integrations, p).None? ==>
              forall x :: x in integrations && x.tenant == p.tenant && x.kind == Kind(p.source) ==> !x.active
  {
  }

  function StampedRow(row: Integration, id: string, now: int): Integration {
    if row.id == id then row.(lastPolled := Some(now)) else row
  }

  lemma {:induction false} FirstAfterStamp(integrations: seq<Integration>, matches: Integration -> bool, id: string,
                                           now: int)
    requires forall x: Integration, t :: matches(x.(lastPolled := t)) == matches(x)
    ensures FindFirst(Stamped(integrations, id, now), matches)
            == match FindFirst(integrations, matches) {
                 case None => None
                 case Some(row) => Some(StampedRow(row, id, now))
               }
  {
    if integrations != [] {
      var row := integrations[0];
      assert row.(lastPolled := row.lastPolled) == row;
      FirstAfterStamp(integrations[1..], matches, id, now);
      assert Stamped(integrations, id, now)[1..] == Stamped(integrations[1..], id, now);
    }
  }

  lemma OwnRowAfter(integrations: seq<Integration>, p: Poll, id: string, now: int)
    ensures OwnRow(Stamped(integrations, id, now), p)
            == match OwnRow(integrations, p) { case None => None case Some(row) => Some(StampedRow(row, id, now)) }
  {
    FirstAfterStamp(integrations, (x: Integration) => ForProperty(x, p), id, now);
  }

  // The row a poll stamps, any of the tenant's of that kind, is the one the next poll starts from, any
  // of the property's own.
  predicate StampsRowOf(integrations: seq<Integration>, p: Poll, next: Poll) {
    var own := OwnRow(integrations, next);
    own.Some? && FindIntegration(integrations, p) == Some(own.value.id)
  }

  // Whichever rows the database returns, the next poll starts where this one was made exactly when this
  // one reached its loop, committed and stamped the row the next one reads; otherwise it starts where it
  // would have without this poll.
  lemma NextPollStart(st: State, p: Poll, next: Poll)
    ensures Since(PollAndLink(st, p).0.integrations, next)
            == if ReachesLoop(st, p) && PollAndLink(st, p).1.Committed? && StampsRowOf(st.integrations, p, next)
               then p.now else Since(st.integrations, next)
  {
    if ReachesLoop(st, p) {
      OwnRowAfter(st.integrations, next, FindIntegration(st.integrations, p).value, p.now);
    }
  }

  // With a single active integration of the kind, belonging to the property, committed polls advance.
  lemma SingleIntegrationAdvances(st: State, p: Poll, next: Poll, i: nat)
    requires !p.source.Manual? && p.fetch(Since(st.integrations, p)).Some? && i < |st.integrations|
    requires next.tenant == p.tenant && next.property == p.property && next.source == p.source
    requires ForTenant(st.integrations[i], p) && ForProperty(st.integrations[i], p)
    requires forall j :: 0 <= j < |st.integrations| && j != i ==>
                           !ForTenant(st.integrations[j], p) && !ForProperty(st.integrations[j], p)
    ensures Since(PollAndLink(st, p).0.integrations, next)
            == if PollAndLink(st, p).1.Committed? then p.now else Since(st.integrations, next)
  {
    var row := st.integrations[i];
    assert OwnRow(st.integrations, next) == Some(row);
    assert SelectOne(st.integrations, (x: Integration) => ForTenant(x, p), p.tenantPick) == Some(row);
    NextPollStart(st, p, next);
  }

  // Two properties of a tenant with one integration each: if the select returns the first property's,
  // polls of the second look back thirty days for ever.
  lemma SharedKindNeverAdvances(p: Poll, next: Poll, id1: string, id2: string, other: string)
    requires other != p.property && id1 != id2 && p.tenantPick == 0
    requires next.property == p.property && next.source == p.source
    ensures var rows := [Integration(id1, p.tenant, Some(other), Kind(p.source), true, None),
                         Integration(id2, p.tenant, Some(p.property), Kind(p.source), true, None)];
            Since(PollAndLink(State(Tables([], []), rows), p).0.integrations, next) == next.now - LOOK_BACK
  {
    var rows := [Integration(id1, p.tenant, Some(other), Kind(p.source), true, None),
                 Integration(id2, p.tenant, Some(p.property), Kind(p.source), true, None)];
    assert OwnRow(rows, p) == Some(rows[1]) && OwnRow(rows, next) == Some(rows[1]);
    assert FindIntegration(rows, p) == Some(id1);
    NextPollStart(State(Tables([], []), rows), p, next);
  }
}
