/**
 * Captures taken offline: the browser's store of queued captures, the functions that read and write
 * it, and the replay that uploads what is queued when the device is online. The class runs one
 * replay undisturbed; the step machine below it interleaves any number of replays and enqueues at
 * every await.
 */
module OfflineQueue {
  import opened Wrappers

  type Id = string

  type Payload = string

  const MAX_ATTEMPTS: nat := 5

  datatype Row = Row(payload: Payload, attempts: nat, lastError: Option<string>)

  type Store = map<Id, Row>

  datatype Item = Item(id: Id, row: Row)

  function Failed(row: Row, error: string): Row {
    row.(attempts := row.attempts + 1, lastError := Some(error))
  }

  // Every queued row once; keys are random, so the order tells nothing.
  ghost predicate Lists(items: seq<Item>, queue: Store) {
    && (forall i, j :: 0 <= i < j < |items| ==> items[i].id != items[j].id)
    && (forall item :: item in items ==> item.id in queue && queue[item.id] == item.row)
    && (forall id :: id in queue ==> Item(id, queue[id]) in items)
  }

  lemma ListsOneMore(items: seq<Item>, queue: Store, more: Store, id: Id)
    requires Lists(items, queue) && id !in queue && id in more && more - {id} == queue
    ensures Lists(items + [Item(id, more[id])], more)
  {
    var all := items + [Item(id, more[id])];
    forall k | k in more ensures Item(k, more[k]) in all {
      assert k != id ==> k in more - {id} && Item(k, queue[k]) in items;
    }
  }

  // ---------------------------------------------------------------- the store and one replay

  // An upload and its outcome as the device saw it.
  datatype Attempt = Attempt(id: Id, payload: Payload, ok: bool)

  datatype Device = Device(queue: Store, log: seq<Attempt>)

  function Marked(queue: Store, id: Id, error: string): Store {
    if id in queue then queue[id := Failed(queue[id], error)] else queue
  }

  // One item of a replay; `outcome` is None when the upload succeeds.
  function ReplayOne(d: Device, item: Item, outcome: Option<string>): Device {
    if item.row.attempts >= MAX_ATTEMPTS then d
    else
      var log := d.log + [Attempt(item.id, item.row.payload, outcome.None?)];
      match outcome
      case None => Device(d.queue - {item.id}, log)
      case Some(error) => Device(Marked(d.queue, item.id, error), log)
  }

  function ReplayItems(d: Device, items: seq<Item>, outcome: Id -> Option<string>): Device
    decreases |items|
  {
    if items == [] then d
    else ReplayItems(ReplayOne(d, items[0], outcome(items[0].id)), items[1..], outcome)
  }

  // What one replay makes of a queued capture: nothing once it has used up its attempts, gone once uploaded,
  // and otherwise kept with its contents, one more attempt and the message.
  predicate Replayed(row: Row, outcome: Option<string>, after: Store, id: Id) {
    if row.attempts >= MAX_ATTEMPTS then id in after && after[id] == row
    else if outcome.None? then id !in after
    else
      && id in after && after[id].payload == row.payload
      && after[id].attempts == row.attempts + 1 && after[id].lastError == outcome
  }

  // The attempts one replay makes: each capture with attempts left once, with its contents and its outcome.
  ghost predicate Tried(attempts: seq<Attempt>, queue: Store, outcome: Id -> Option<string>) {
    && (forall i, j :: 0 <= i < j < |attempts| ==> attempts[i].id != attempts[j].id)
    && (forall i :: 0 <= i < |attempts| ==> attempts[i].id in queue)
    && (forall id :: id in queue && queue[id].attempts < MAX_ATTEMPTS ==>
          Attempt(id, queue[id].payload, outcome(id).None?) in attempts)
    && (forall i :: 0 <= i < |attempts| ==>
          queue[attempts[i].id].attempts < MAX_ATTEMPTS && attempts[i].payload == queue[attempts[i].id].payload)
  }

  predicate DistinctIds(items: seq<Item>) { forall i, j :: 0 <= i < j < |items| ==> items[i].id != items[j].id }

  predicate AllQueued(items: seq<Item>, queue: Store) {
    forall i :: 0 <= i < |items| ==> items[i].id in queue && queue[items[i].id] == items[i].row
  }

  // One item of a replay concerns its own capture only.
  lemma OneIsReplayed(d: Device, item: Item, outcome: Option<string>)
    requires item.id in d.queue && d.queue[item.id] == item.row
    ensures var after := ReplayOne(d, item, outcome).queue;
            && Replayed(item.row, outcome, after, item.id)
            && after - {item.id} == d.queue - {item.id}
  {
  }

  lemma OthersStay(before: Store, after: Store, id: Id, k: Id)
    requires after - {id} == before - {id} && k != id
    ensures (k in after <==> k in before) && (k in before ==> after[k] == before[k])
  {
    assert k in after - {id} <==> k in before - {id};
    assert k in before ==> (after - {id})[k] == (before - {id})[k];
  }

  lemma {:induction false} ItemsAreReplayed(d: Device, items: seq<Item>, outcome: Id -> Option<string>)
    requires DistinctIds(items) && AllQueued(items, d.queue)
    ensures var after := ReplayItems(d, items, outcome).queue;
            && (forall i :: 0 <= i < |items| ==> Replayed(items[i].row, outcome(items[i].id), after, items[i].id))
            && forall k :: (forall i :: 0 <= i < |items| ==> items[i].id != k)
                           ==> (k in after <==> k in d.queue) && (k in d.queue ==> after[k] == d.queue[k])
    decreases |items|
  {
    if items != [] {
      var first, rest := items[0], items[1..];
      var d1 := ReplayOne(d, first, outcome(first.id));
      OneIsReplayed(d, first, outcome(first.id));
      forall i | 0 <= i < |rest| ensures rest[i].id in d1.queue && d1.queue[rest[i].id] == rest[i].row {
        assert rest[i] == items[i + 1];
        OthersStay(d.queue, d1.queue, first.id, rest[i].id);
      }
      ItemsAreReplayed(d1, rest, outcome);
      var after := ReplayItems(d, items, outcome).queue;
      forall i | 0 <= i < |items| ensures Replayed(items[i].row, outcome(items[i].id), after, items[i].id) {
        if i > 0 { assert items[i] == rest[i - 1]; }
      }
      forall k | forall i :: 0 <= i < |items| ==> items[i].id != k
        ensures (k in after <==> k in d.queue) && (k in d.queue ==> after[k] == d.queue[k])
      {
        OthersStay(d.queue, d1.queue, first.id, k);
      }
    }
  }

  function Tries(items: seq<Item>, outcome: Id -> Option<string>): seq<Attempt> {
    if items == [] then []
    else
      (if items[0].row.attempts >= MAX_ATTEMPTS then []
       else [Attempt(items[0].id, items[0].row.payload, outcome(items[0].id).None?)])
      + Tries(items[1..], outcome)
  }

  lemma {:induction false} LogGrowsByTries(d: Device, items: seq<Item>, outcome: Id -> Option<string>)
    ensures ReplayItems(d, items, outcome).log == d.log + Tries(items, outcome)
    decreases |items|
  {
    if items != [] { LogGrowsByTries(ReplayOne(d, items[0], outcome(items[0].id)), items[1..], outcome); }
  }

  predicate IsTry(x: Attempt, item: Item, outcome: Id -> Option<string>) {
    item.row.attempts < MAX_ATTEMPTS && x == Attempt(item.id, item.row.payload, outcome(item.id).None?)
  }

  // Tries come from items, in their order.
  lemma {:induction false} TryHasItem(items: seq<Item>, outcome: Id -> Option<string>, k: nat) returns (i: nat)
    requires k < |Tries(items, outcome)|
    ensures i < |items| && IsTry(Tries(items, outcome)[k], items[i], outcome)
  {
    var n := |Tries(items, outcome)| - |Tries(items[1..], outcome)|;
    if k < n {
      i := 0;
    } else {
      i := TryHasItem(items[1..], outcome, k - n);
      i := i + 1;
    }
  }

  lemma {:induction false} TriesInOrder(items: seq<Item>, outcome: Id -> Option<string>, k: nat, l: nat)
    returns (i: nat, j: nat)
    requires k < l < |Tries(items, outcome)|
    ensures i < j < |items|
    ensures IsTry(Tries(items, outcome)[k], items[i], outcome) && IsTry(Tries(items, outcome)[l], items[j], outcome)
  {
    var n := |Tries(items, outcome)| - |Tries(items[1..], outcome)|;
    if k < n {
      i := 0;
      j := TryHasItem(items[1..], outcome, l - n);
      j := j + 1;
    } else {
      i, j := TriesInOrder(items[1..], outcome, k - n, l - n);
      i, j := i + 1, j + 1;
    }
  }

  lemma {:induction false} ItemHasTry(items: seq<Item>, outcome: Id -> Option<string>, i: nat)
    requires i < |items| && items[i].row.attempts < MAX_ATTEMPTS
    ensures Attempt(items[i].id, items[i].row.payload, outcome(items[i].id).None?) in Tries(items, outcome)
  {
    if i > 0 { ItemHasTry(items[1..], outcome, i - 1); }
  }

  lemma TriesAre(items: seq<Item>, outcome: Id -> Option<string>, queue: Store)
    requires Lists(items, queue)
    ensures Tried(Tries(items, outcome), queue, outcome)
  {
    var tries := Tries(items, outcome);
    forall k, l | 0 <= k < l < |tries| ensures tries[k].id != tries[l].id {
      var i, j := TriesInOrder(items, outcome, k, l);
    }
    forall k | 0 <= k < |tries|
      ensures tries[k].id in queue && queue[tries[k].id].attempts < MAX_ATTEMPTS
              && tries[k].payload == queue[tries[k].id].payload
    {
      var i := TryHasItem(items, outcome, k);
      assert items[i] in items;
    }
    forall id | id in queue && queue[id].attempts < MAX_ATTEMPTS
      ensures Attempt(id, queue[id].payload, outcome(id).None?) in tries
    {
      var i :| 0 <= i < |items| && items[i] == Item(id, queue[id]);
      ItemHasTry(items, outcome, i);
    }
  }

  // A replay of all that is queued, capture by capture.
  lemma ReplayMeans(d: Device, items: seq<Item>, outcome: Id -> Option<string>)
    requires Lists(items, d.queue)
    ensures var after := ReplayItems(d, items, outcome);
            && (forall id :: id in d.queue ==> Replayed(d.queue[id], outcome(id), after.queue, id))
            && (forall id :: id in after.queue ==> id in d.queue)
            && d.log <= after.log && Tried(after.log[|d.log|..], d.queue, outcome)
  {
    assert forall i :: 0 <= i < |items| ==> items[i] in items;
    ItemsAreReplayed(d, items, outcome);
    LogGrowsByTries(d, items, outcome);
    TriesAre(items, outcome, d.queue);
    var after := ReplayItems(d, items, outcome);
    assert after.log[|d.log|..] == Tries(items, outcome);
    forall id | id in d.queue ensures Replayed(d.queue[id], outcome(id), after.queue, id) {
      var i :| 0 <= i < |items| && items[i] == Item(id, d.queue[id]);
    }
  }

  class CaptureQueue {
    var captures: Store
    var log: seq<Attempt>

    function View(): Device
      reads this
    {
      Device(captures, log)
    }

    constructor ()
      ensures View() == Device(map[], [])
    {
      captures, log := map[], [];
    }

    // The key is a fresh random one.
    method EnqueueCapture(id: Id, payload: Payload)
      requires id !in captures
      modifies this`captures
      ensures captures == old(captures)[id := Row(payload, 0, None)]
    {
      captures := captures[id := Row(payload, 0, None)];
    }

    method ListQueuedCaptures() returns (items: seq<Item>)
      ensures Lists(items, captures)
    {
      items := [];
      var rest := captures.Keys;
      while rest != {}
        invariant rest <= captures.Keys
        invariant Lists(items, captures - rest)
        decreases |rest|
      {
        var id :| id in rest;
        assert captures - (rest - {id}) - {id} == captures - rest;
        ListsOneMore(items, captures - rest, captures - (rest - {id}), id);
        items := items + [Item(id, captures[id])];
        rest := rest - {id};
      }
      assert captures - rest == captures;
    }

    method RemoveCapture(id: Id)
      modifies this`captures
      ensures captures == old(captures) - {id}
    {
      captures := captures - {id};
    }

    method MarkCaptureFailure(id: Id, error: string)
      modifies this`captures
      ensures captures.Keys == old(captures).Keys
      ensures forall k :: k in captures && k != id ==> captures[k] == old(captures)[k]
      ensures id in captures ==>
                && captures[id].payload == old(captures)[id].payload
                && captures[id].attempts == old(captures)[id].attempts + 1 && captures[id].lastError == Some(error)
      ensures captures == Marked(old(captures), id, error)
    {
      if id !in captures { return; }
      var row := captures[id];
      captures := captures[id := Failed(row, error)];
    }

    // A replay nothing else interrupts; the network answers according to `outcome`.
    method Replay(online: bool, outcome: Id -> Option<string>) returns (queued: seq<Item>)
      modifies this
      ensures !online ==> View() == old(View())
      ensures online ==> forall id :: id in captures ==> id in old(captures)
      ensures online ==> forall id :: id in old(captures) ==> Replayed(old(captures)[id], outcome(id), captures, id)
      ensures online ==> old(log) <= log && Tried(log[|old(log)|..], old(captures), outcome)
      ensures online ==> Lists(queued, old(captures)) && View() == ReplayItems(old(View()), queued, outcome)
    {
      queued := [];
      if !online { return; }
      queued := ListQueuedCaptures();
      ghost var before := View();
      for i := 0 to |queued|
        invariant ReplayItems(before, queued, outcome) == ReplayItems(View(), queued[i..], outcome)
      {
        var q := queued[i];
        assert queued[i..][0] == q && queued[i..][1..] == queued[i + 1..];
        if q.row.attempts >= MAX_ATTEMPTS { continue; }
        var refused := outcome(q.id);
        log := log + [Attempt(q.id, q.row.payload, refused.None?)];
        if refused.None? {
          RemoveCapture(q.id);
        } else {
          MarkCaptureFailure(q.id, refused.value);
        }
      }
      ReplayMeans(before, queued, outcome);
    }
  }

  // ---------------------------------------------------------------- replays and enqueues interleaved

  // Where a replay stands with the first item left: not yet uploaded, accepted by the server but not
  // yet removed, refused but not yet read back, or read back and about to be written.
  datatype Phase = Ready | Accepted | Refused(error: string) | Updating(row: Row)

  datatype Replay = Replay(left: seq<Item>, phase: Phase)

  // What was enqueued, and how many replays had started by then.
  datatype Capture = Capture(payload: Payload, since: nat)

  datatype State = State(queue: Store, replays: seq<Replay>, log: seq<Attempt>, enqueued: map<Id, Capture>)

  datatype Event =
    | Enqueue(id: Id, payload: Payload)
    | Start(items: seq<Item>)
    | Skip(r: nat)
    | Upload(r: nat, outcome: Option<string>)
    | Remove(r: nat)
    | Fetch(r: nat)
    | Put(r: nat)

  ghost predicate At(s: State, r: nat, phase: Phase) {
    r < |s.replays| && s.replays[r].left != [] && s.replays[r].phase == phase
  }

  ghost predicate Enabled(s: State, e: Event) {
    match e
    case Enqueue(id, _) => id !in s.enqueued
    case Start(items) => Lists(items, s.queue)
    case Skip(r) => At(s, r, Ready) && s.replays[r].left[0].row.attempts >= MAX_ATTEMPTS
    case Upload(r, _) => At(s, r, Ready) && s.replays[r].left[0].row.attempts < MAX_ATTEMPTS
    case Remove(r) => At(s, r, Accepted)
    case Fetch(r) => r < |s.replays| && s.replays[r].left != [] && s.replays[r].phase.Refused?
    case Put(r) => r < |s.replays| && s.replays[r].left != [] && s.replays[r].phase.Updating?
  }

  function In(s: State, r: nat, phase: Phase): State
    requires r < |s.replays|
  {
    s.(replays := s.replays[r := s.replays[r].(phase := phase)])
  }

  function Done(s: State, r: nat): State
    requires r < |s.replays| && s.replays[r].left != []
  {
    s.(replays := s.replays[r := Replay(s.replays[r].left[1..], Ready)])
  }

  ghost function Step(s: State, e: Event): State
    requires Enabled(s, e)
  {
    match e
    case Enqueue(id, payload) =>
      s.(queue := s.queue[id := Row(payload, 0, None)], enqueued := s.enqueued[id := Capture(payload, |s.replays|)])
    case Start(items) => s.(replays := s.replays + [Replay(items, Ready)])
    case Skip(r) => Done(s, r)
    case Upload(r, outcome) =>
      var item := s.replays[r].left[0];
      In(s, r, if outcome.None? then Accepted else Refused(outcome.value))
        .(log := s.log + [Attempt(item.id, item.row.payload, outcome.None?)])
    case Remove(r) => Done(s, r).(queue := s.queue - {s.replays[r].left[0].id})
    case Fetch(r) =>
      var id := s.replays[r].left[0].id;
      if id !in s.queue then Done(s, r)
      else In(s, r, Updating(Failed(s.queue[id], s.replays[r].phase.error)))
    case Put(r) => Done(s, r).(queue := s.queue[s.replays[r].left[0].id := s.replays[r].phase.row])
  }

  // The state after the events, None when one of them is not possible where it stands.
  ghost function Run(s: State, events: seq<Event>): Option<State> {
    if events == [] then Some(s)
    else
      var before := Run(s, events[..|events| - 1]);
      var e := events[|events| - 1];
      if before.Some? && Enabled(before.value, e) then Some(Step(before.value, e)) else None
  }

  const EMPTY := State(map[], [], [], map[])

  function Count(log: seq<Attempt>, id: Id, ok: bool): nat {
    if log == [] then 0
    else
      var last := log[|log| - 1];
      Count(log[..|log| - 1], id, ok) + if last.id == id && last.ok == ok then 1 else 0
  }

  // ---------------------------------------------------------------- nothing is lost

  ghost predicate ReplayKnows(s: State, replay: Replay) {
    && (forall item :: item in replay.left ==> item.id in s.enqueued && item.row.payload == s.enqueued[item.id].payload)
    && (replay.left != [] && replay.phase.Accepted? ==> Count(s.log, replay.left[0].id, true) > 0)
    && (replay.left != [] && replay.phase.Updating?
      ==> replay.phase.row.payload == s.enqueued[replay.left[0].id].payload)
  }

  ghost predicate Inv(s: State) {
    && (forall id :: id in s.queue ==> id in s.enqueued && s.queue[id].payload == s.enqueued[id].payload)
    && (forall r :: 0 <= r < |s.replays| ==> ReplayKnows(s, s.replays[r]))
    && (forall id :: id in s.enqueued ==> id in s.queue || Count(s.log, id, true) > 0)
    && (forall a :: a in s.log ==> a.id in s.enqueued && a.payload == s.enqueued[a.id].payload)
  }

  lemma CountGrows(log: seq<Attempt>, a: Attempt, id: Id, ok: bool)
    ensures Count(log + [a], id, ok) == Count(log, id, ok) + if a.id == id && a.ok == ok then 1 else 0
  {
    assert (log + [a])[..|log|] == log;
  }

  lemma LogGrows(s: State, e: Event, id: Id)
    requires Enabled(s, e)
    ensures Count(Step(s, e).log, id, true) >= Count(s.log, id, true)
    ensures e.Upload? && e.outcome.None? && id == s.replays[e.r].left[0].id ==> Count(Step(s, e).log, id, true) > 0
  {
    if e.Upload? {
      var item := s.replays[e.r].left[0];
      CountGrows(s.log, Attempt(item.id, item.row.payload, e.outcome.None?), id, true);
    }
  }

  lemma StillKnows(s: State, e: Event, replay: Replay)
    requires Enabled(s, e) && ReplayKnows(s, replay)
    ensures ReplayKnows(Step(s, e), replay)
  {
    if replay.left != [] { LogGrows(s, e, replay.left[0].id); }
  }

  lemma StepReplays(s: State, e: Event, r: nat)
    requires Inv(s) && Enabled(s, e) && r < |Step(s, e).replays|
    ensures ReplayKnows(Step(s, e), Step(s, e).replays[r])
  {
    var s' := Step(s, e);
    if r < |s.replays| {
      assert ReplayKnows(s, s.replays[r]);
      StillKnows(s, e, s.replays[r]);
      if s'.replays[r] != s.replays[r] { LogGrows(s, e, s.replays[r].left[0].id); }
    }
  }

  lemma StepStore(s: State, e: Event)
    requires Inv(s) && Enabled(s, e)
    ensures var s' := Step(s, e);
            && (forall id :: id in s'.queue ==> id in s'.enqueued && s'.queue[id].payload == s'.enqueued[id].payload)
            && (forall id :: id in s'.enqueued ==> id in s'.queue || Count(s'.log, id, true) > 0)
            && (forall a :: a in s'.log ==> a.id in s'.enqueued && a.payload == s'.enqueued[a.id].payload)
  {
    forall id ensures Count(Step(s, e).log, id, true) >= Count(s.log, id, true) { LogGrows(s, e, id); }
    if !e.Enqueue? && !e.Start? {
      assert ReplayKnows(s, s.replays[e.r]);
      assert s.replays[e.r].left[0] in s.replays[e.r].left;
    }
  }

  lemma StepKeepsInv(s: State, e: Event)
    requires Inv(s) && Enabled(s, e)
    ensures Inv(Step(s, e))
  {
    StepStore(s, e);
    forall r | 0 <= r < |Step(s, e).replays| ensures ReplayKnows(Step(s, e), Step(s, e).replays[r]) {
      StepReplays(s, e, r);
    }
  }

  lemma {:induction false} RunKeepsInv(events: seq<Event>)
    requires Run(EMPTY, events).Some?
    ensures Inv(Run(EMPTY, events).value)
  {
    if events != [] {
      var init := events[..|events| - 1];
      RunKeepsInv(init);
      StepKeepsInv(Run(EMPTY, init).value, events[|events| - 1]);
    }
  }

  // In every interleaving of enqueues and replays, a capture that is no longer queued has been
  // uploaded, with the contents it was enqueued with.
  lemma NothingIsLost(events: seq<Event>, id: Id)
    requires Run(EMPTY, events).Some? && id in Run(EMPTY, events).value.enqueued
    ensures var s := Run(EMPTY, events).value;
            id in s.queue || Attempt(id, s.enqueued[id].payload, true) in s.log
  {
    RunKeepsInv(events);
    var s := Run(EMPTY, events).value;
    if id !in s.queue {
      CountedIsThere(s.log, id);
    }
  }

  lemma {:induction false} CountedIsThere(log: seq<Attempt>, id: Id)
    requires Count(log, id, true) > 0
    ensures exists a :: a in log && a.id == id && a.ok
  {
    var last := log[|log| - 1];
    if !(last.id == id && last.ok) { CountedIsThere(log[..|log| - 1], id); }
  }

  // ---------------------------------------------------------------- replays that do not overlap

  ghost predicate Quiet(s: State) {
    forall r :: 0 <= r < |s.replays| ==> s.replays[r].left == []
  }

  // A replay starts only once the one before it is over; enqueues may come at any time.
  ghost predicate NoOverlap(events: seq<Event>) {
    events == [] ||
    (var init := events[..|events| - 1];
     && NoOverlap(init)
     && (events[|events| - 1].Start? && Run(EMPTY, init).Some? ==> Quiet(Run(EMPTY, init).value)))
  }

  function Current(s: State): Replay {
    if s.replays == [] then Replay([], Ready) else s.replays[|s.replays| - 1]
  }

  // The item at hand is `id`, in the given kind of phase.
  ghost predicate Holds(s: State, id: Id, phase: Phase -> bool) {
    var c := Current(s);
    c.left != [] && c.left[0].id == id && phase(c.phase)
  }

  ghost predicate IsAccepted(s: State, id: Id) { Holds(s, id, (p: Phase) => p.Accepted?) }

  ghost predicate IsRefused(s: State, id: Id) { Holds(s, id, (p: Phase) => p.Refused? || p.Updating?) }

  ghost predicate Pending(s: State, id: Id) {
    exists item :: item in Current(s).left && item.id == id
  }

  // The one running replay sees the rows as they were when it started.
  ghost predicate Faithful(s: State) {
    var c := Current(s);
    && (forall r :: 0 <= r < |s.replays| - 1 ==> s.replays[r].left == [])
    && (forall i, j :: 0 <= i < j < |c.left| ==> c.left[i].id != c.left[j].id)
    && (forall item :: item in c.left ==> item.id in s.queue && s.queue[item.id] == item.row)
    && (c.left != [] && !c.phase.Ready? ==> c.left[0].row.attempts < MAX_ATTEMPTS)
    && (c.left != [] && c.phase.Updating? ==> exists error :: c.phase.row == Failed(c.left[0].row, error))
  }

  // What the log says of one capture.
  ghost predicate Accounted(s: State, id: Id) {
    && (id !in s.enqueued ==> id !in s.queue && Count(s.log, id, true) == 0 && Count(s.log, id, false) == 0)
    && (id in s.enqueued ==>
          && s.enqueued[id].since <= |s.replays|
          && Count(s.log, id, true) == (if id in s.queue && !IsAccepted(s, id) then 0 else 1)
          && Count(s.log, id, false) <= MAX_ATTEMPTS)
    && (id in s.queue ==>
          && s.queue[id].attempts <= MAX_ATTEMPTS
          && Count(s.log, id, false) == s.queue[id].attempts + (if IsRefused(s, id) then 1 else 0)
          && (id in s.enqueued && s.queue[id].attempts < MAX_ATTEMPTS ==>
                s.queue[id].attempts + (if Pending(s, id) then 1 else 0) >= |s.replays| - s.enqueued[id].since))
  }

  // A step of the running replay.
  lemma ActKeepsFaithful(s: State, e: Event)
    requires Faithful(s) && Enabled(s, e) && !e.Enqueue? && !e.Start?
    ensures e.r == |s.replays| - 1 && Faithful(Step(s, e))
  {
    var c := Current(s);
    assert e.r == |s.replays| - 1 && c.left[0] in c.left;
    if e.Skip? || e.Remove? || e.Put? {
      AdvanceKeepsFaithful(s, e);
    } else {
      assert Current(Step(s, e)).left == c.left;
    }
  }

  lemma AdvanceKeepsFaithful(s: State, e: Event)
    requires Faithful(s) && Enabled(s, e) && (e.Skip? || e.Remove? || e.Put?)
    ensures Faithful(Step(s, e))
  {
    var s' := Step(s, e);
    var c, c' := Current(s), Current(s');
    assert e.r == |s.replays| - 1 && c'.left == c.left[1..];
    forall item | item in c'.left ensures item.id in s'.queue && s'.queue[item.id] == item.row {
      var k :| 0 <= k < |c'.left| && c'.left[k] == item;
      assert c.left[k + 1] == item && item in c.left && c.left[0].id != item.id;
    }
  }

  lemma StepKeepsFaithful(s: State, e: Event)
    requires Faithful(s) && Enabled(s, e) && (e.Start? ==> Quiet(s))
    requires forall id :: Accounted(s, id)
    ensures Faithful(Step(s, e))
  {
    if e.Enqueue? {
      assert Accounted(s, e.id);
    } else if !e.Start? {
      ActKeepsFaithful(s, e);
    }
  }

  lemma StepKeepsAccount(s: State, e: Event, id: Id)
    requires Faithful(s) && Enabled(s, e) && (e.Start? ==> Quiet(s)) && Accounted(s, id)
    ensures Accounted(Step(s, e), id)
  {
    match e
    case Enqueue(_, _) =>
    case Start(items) => StartKeepsAccount(s, items, id);
    case Skip(r) => PendingAfter(s, e, id);
    case Upload(r, outcome) => UploadKeepsAccount(s, r, outcome, id);
    case Remove(r) => PendingAfter(s, e, id);
    case Fetch(r) => FetchKeepsAccount(s, r, id);
    case Put(r) => PendingAfter(s, e, id);
  }

  lemma StartKeepsAccount(s: State, items: seq<Item>, id: Id)
    requires Faithful(s) && Lists(items, s.queue) && Quiet(s) && Accounted(s, id)
    ensures Accounted(Step(s, Start(items)), id)
  {
    var s' := Step(s, Start(items));
    if id in s.queue {
      assert Item(id, s.queue[id]) in Current(s').left;
      assert Pending(s', id);
    }
  }

  lemma UploadKeepsAccount(s: State, r: nat, outcome: Option<string>, id: Id)
    requires Faithful(s) && Enabled(s, Upload(r, outcome)) && Accounted(s, id)
    ensures Accounted(Step(s, Upload(r, outcome)), id)
  {
    var s' := Step(s, Upload(r, outcome));
    var item := s.replays[r].left[0];
    assert item in s.replays[r].left;
    var a := Attempt(item.id, item.row.payload, outcome.None?);
    CountGrows(s.log, a, id, true);
    CountGrows(s.log, a, id, false);
    assert Current(s').left == Current(s).left;
    assert Pending(s', id) <==> Pending(s, id);
  }

  lemma FetchKeepsAccount(s: State, r: nat, id: Id)
    requires Faithful(s) && Enabled(s, Fetch(r)) && Accounted(s, id)
    ensures Accounted(Step(s, Fetch(r)), id)
  {
    var s' := Step(s, Fetch(r));
    assert s.replays[r].left[0] in s.replays[r].left;
    assert Current(s').left == Current(s).left;
    assert Pending(s', id) <==> Pending(s, id);
  }

  // An item leaves the list when it is dealt with, the others stay.
  lemma PendingAfter(s: State, e: Event, id: Id)
    requires Faithful(s) && Enabled(s, e) && (e.Skip? || e.Remove? || e.Put?)
    ensures e.r == |s.replays| - 1
    ensures Pending(Step(s, e), id) <==> Pending(s, id) && id != s.replays[e.r].left[0].id
  {
    var before, after := Current(s).left, Current(Step(s, e)).left;
    assert before == [before[0]] + after;
    forall k | 0 <= k < |after| ensures after[k].id != before[0].id { assert after[k] == before[k + 1]; }
    if Pending(s, id) && id != before[0].id {
      var item :| item in before && item.id == id;
      assert item in after;
    }
  }

  lemma {:induction false} RunKeepsAccounts(events: seq<Event>)
    requires Run(EMPTY, events).Some? && NoOverlap(events)
    ensures Faithful(Run(EMPTY, events).value)
    ensures forall id :: Accounted(Run(EMPTY, events).value, id)
  {
    if events != [] {
      var init, e := events[..|events| - 1], events[|events| - 1];
      RunKeepsAccounts(init);
      var s := Run(EMPTY, init).value;
      StepKeepsFaithful(s, e);
      forall id ensures Accounted(Step(s, e), id) { StepKeepsAccount(s, e, id); }
    }
  }

  // When replays do not overlap, a capture is uploaded at most once and refused at most five times,
  // and between replays exactly the uploaded captures have left the queue.
  lemma UploadedOnce(events: seq<Event>, id: Id)
    requires Run(EMPTY, events).Some? && NoOverlap(events) && id in Run(EMPTY, events).value.enqueued
    ensures var s := Run(EMPTY, events).value;
            && Count(s.log, id, true) <= 1 && Count(s.log, id, false) <= MAX_ATTEMPTS
            && (Quiet(s) ==> (id !in s.queue <==> Count(s.log, id, true) == 1))
  {
    RunKeepsAccounts(events);
    assert Accounted(Run(EMPTY, events).value, id);
  }

  // After five completed replays a capture has been uploaded once, or has been refused five times and
  // is left aside.
  lemma FiveReplaysSettle(events: seq<Event>, id: Id)
    requires Run(EMPTY, events).Some? && NoOverlap(events) && id in Run(EMPTY, events).value.enqueued
    requires var s := Run(EMPTY, events).value;
             Quiet(s) && |s.replays| >= s.enqueued[id].since + MAX_ATTEMPTS
    ensures var s := Run(EMPTY, events).value;
            if id in s.queue then s.queue[id].attempts == MAX_ATTEMPTS && Count(s.log, id, false) == MAX_ATTEMPTS
            else Count(s.log, id, true) == 1
  {
    RunKeepsAccounts(events);
    assert Accounted(Run(EMPTY, events).value, id);
  }

  // ---------------------------------------------------------------- the undisturbed replay is such a run

  lemma RunOneMore(s: State, events: seq<Event>, e: Event)
    requires Run(s, events).Some? && Enabled(Run(s, events).value, e)
    ensures Run(s, events + [e]) == Some(Step(Run(s, events).value, e))
  {
    assert (events + [e])[..|events|] == events;
  }

  lemma {:induction false} RunSplits(s: State, a: seq<Event>, b: seq<Event>)
    requires Run(s, a).Some? && Run(Run(s, a).value, b).Some?
    ensures Run(s, a + b) == Run(Run(s, a).value, b)
  {
    if b == [] {
      assert a + b == a;
    } else {
      var n := |b| - 1;
      RunSplits(s, a, b[..n]);
      RunOneMore(s, a + b[..n], b[n]);
      assert a + b == a + b[..n] + [b[n]];
    }
  }

  function ItemEvents(r: nat, item: Item, outcome: Option<string>): seq<Event> {
    if item.row.attempts >= MAX_ATTEMPTS then [Skip(r)]
    else if outcome.None? then [Upload(r, outcome), Remove(r)]
    else [Upload(r, outcome), Fetch(r), Put(r)]
  }

  function ReplayEvents(r: nat, items: seq<Item>, outcome: Id -> Option<string>): seq<Event> {
    if items == [] then []
    else ItemEvents(r, items[0], outcome(items[0].id)) + ReplayEvents(r, items[1..], outcome)
  }

  // A replay at the first of its items, whose row is still as listed.
  ghost predicate Poised(s: State, r: nat, items: seq<Item>) {
    && r < |s.replays| && items != [] && s.replays[r] == Replay(items, Ready)
    && items[0].id in s.queue && s.queue[items[0].id] == items[0].row
  }

  lemma RunOne(s: State, e: Event)
    requires Enabled(s, e)
    ensures Run(s, [e]) == Some(Step(s, e))
  {
    RunOneMore(s, [], e);
    assert [] + [e] == [e];
  }

  lemma AcceptedIsRun(s: State, r: nat, items: seq<Item>)
    requires Poised(s, r, items) && items[0].row.attempts < MAX_ATTEMPTS
    ensures Run(s, [Upload(r, None), Remove(r)])
            == Some(State(s.queue - {items[0].id}, s.replays[r := Replay(items[1..], Ready)],
                          s.log + [Attempt(items[0].id, items[0].row.payload, true)], s.enqueued))
  {
    RunOne(s, Upload(r, None));
    RunOneMore(s, [Upload(r, None)], Remove(r));
    assert [Upload(r, None)] + [Remove(r)] == [Upload(r, None), Remove(r)];
    assert Step(Step(s, Upload(r, None)), Remove(r)).replays == s.replays[r := Replay(items[1..], Ready)];
  }

  lemma RefusedIsRun(s: State, r: nat, items: seq<Item>, error: string)
    requires Poised(s, r, items) && items[0].row.attempts < MAX_ATTEMPTS
    ensures Run(s, [Upload(r, Some(error)), Fetch(r), Put(r)])
            == Some(State(Marked(s.queue, items[0].id, error), s.replays[r := Replay(items[1..], Ready)],
                          s.log + [Attempt(items[0].id, items[0].row.payload, false)], s.enqueued))
  {
    var item, upload := items[0], Upload(r, Some(error));
    var log := s.log + [Attempt(item.id, item.row.payload, false)];
    RunOne(s, upload);
    var s1 := State(s.queue, s.replays[r := Replay(items, Refused(error))], log, s.enqueued);
    assert Step(s, upload) == s1;
    RunOneMore(s, [upload], Fetch(r));
    assert [upload] + [Fetch(r)] == [upload, Fetch(r)];
    var s2 := State(s.queue, s.replays[r := Replay(items, Updating(Failed(item.row, error)))], log, s.enqueued);
    assert Step(s1, Fetch(r)).replays == s2.replays;
    RunOneMore(s, [upload, Fetch(r)], Put(r));
    assert [upload, Fetch(r)] + [Put(r)] == [upload, Fetch(r), Put(r)];
    assert Step(s2, Put(r)).replays == s.replays[r := Replay(items[1..], Ready)];
  }

  lemma ItemIsRun(s: State, r: nat, items: seq<Item>, outcome: Option<string>)
    requires Poised(s, r, items)
    ensures var d := ReplayOne(Device(s.queue, s.log), items[0], outcome);
            Run(s, ItemEvents(r, items[0], outcome))
              == Some(State(d.queue, s.replays[r := Replay(items[1..], Ready)], d.log, s.enqueued))
  {
    if items[0].row.attempts >= MAX_ATTEMPTS {
      RunOne(s, Skip(r));
    } else if outcome.None? {
      AcceptedIsRun(s, r, items);
    } else {
      RefusedIsRun(s, r, items, outcome.value);
    }
  }

  // From the moment its list is read, a replay nobody interrupts is a run of the step machine that
  // ends with everything on the list dealt with.
  lemma {:induction false} ReplayIsRun(s: State, r: nat, items: seq<Item>, outcome: Id -> Option<string>)
    requires r < |s.replays| && s.replays[r] == Replay(items, Ready)
    requires forall i, j :: 0 <= i < j < |items| ==> items[i].id != items[j].id
    requires forall item :: item in items ==> item.id in s.queue && s.queue[item.id] == item.row
    ensures var d := ReplayItems(Device(s.queue, s.log), items, outcome);
            Run(s, ReplayEvents(r, items, outcome))
              == Some(State(d.queue, s.replays[r := Replay([], Ready)], d.log, s.enqueued))
    decreases |items|
  {
    if items == [] {
      assert s.replays[r := Replay([], Ready)] == s.replays;
    } else {
      var item, o := items[0], outcome(items[0].id);
      ItemIsRun(s, r, items, o);
      var next := Run(s, ItemEvents(r, item, o)).value;
      forall other | other in items[1..] ensures other.id in next.queue && next.queue[other.id] == other.row {
        var k :| 1 <= k < |items| && items[k] == other;
        assert items[k].id != items[0].id && items[k] in items;
      }
      ReplayIsRun(next, r, items[1..], outcome);
      RunSplits(s, ItemEvents(r, item, o), ReplayEvents(r, items[1..], outcome));
      assert next.replays[r := Replay([], Ready)] == s.replays[r := Replay([], Ready)];
    }
  }

  // ---------------------------------------------------------------- why overlap matters

  // Two replays that both read the queue before either uploads: the capture is uploaded twice.
  lemma OverlapUploadsTwice()
    ensures exists events, id :: Run(EMPTY, events).Some? && Count(Run(EMPTY, events).value.log, id, true) == 2
  {
    var row, sent := Row("photo", 0, None), Attempt("a", "photo", true);
    var items := [Item("a", row)];
    var s0 := BothStarted("a", row);
    var e0 := [Enqueue("a", "photo"), Start(items), Start(items)];
    RunOneMore(EMPTY, e0, Upload(0, None));
    var e1, s1 := e0 + [Upload(0, None)], Step(s0, Upload(0, None));
    RunOneMore(EMPTY, e1, Upload(1, None));
    var e2, s2 := e1 + [Upload(1, None)], Step(s1, Upload(1, None));
    CountGrows([], sent, "a", true);
    CountGrows([] + [sent], sent, "a", true);
    assert s2.log == [] + [sent] + [sent];
    assert Run(EMPTY, e2) == Some(s2);
  }

  // The slower of two overlapping replays puts back a capture the other has uploaded and removed.
  lemma OverlapPutsBack()
    ensures exists events, id ::
              && Run(EMPTY, events).Some? && Quiet(Run(EMPTY, events).value)
              && id in Run(EMPTY, events).value.queue && Count(Run(EMPTY, events).value.log, id, true) == 1
  {
    var row, refused, sent := Row("photo", 0, None), Attempt("a", "photo", false), Attempt("a", "photo", true);
    var items := [Item("a", row)];
    var e2, s2 := FirstRefused("a", row);
    AcceptedIsRun(s2, 1, items);
    var s4 := Run(s2, [Upload(1, None), Remove(1)]).value;
    assert items[1..] == [] && s4.log == [refused] + [sent];
    RunSplits(EMPTY, e2, [Upload(1, None), Remove(1)]);
    var e4 := e2 + [Upload(1, None), Remove(1)];
    RunOneMore(EMPTY, e4, Put(0));
    var s5 := Step(s4, Put(0));
    assert Quiet(s5) && "a" in s5.queue;
    CountGrows([], refused, "a", true);
    CountGrows([refused], sent, "a", true);
    assert [] + [refused] == [refused];
    assert Run(EMPTY, e4 + [Put(0)]) == Some(s5) && Count(s5.log, "a", true) == 1;
  }

  lemma FirstRefused(id: Id, row: Row) returns (events: seq<Event>, s: State)
    requires row.attempts == 0 && row.lastError.None?
    ensures Run(EMPTY, events) == Some(s)
    ensures var items := [Item(id, row)];
            s == State(map[id := row], [Replay(items, Updating(Failed(row, "timeout"))), Replay(items, Ready)],
                       [Attempt(id, row.payload, false)], map[id := Capture(row.payload, 0)])
  {
    var items := [Item(id, row)];
    var s0 := BothStarted(id, row);
    var e0 := [Enqueue(id, row.payload), Start(items), Start(items)];
    var upload := Upload(0, Some("timeout"));
    RunOneMore(EMPTY, e0, upload);
    var s1 := Step(s0, upload);
    RunOneMore(EMPTY, e0 + [upload], Fetch(0));
    events, s := e0 + [upload] + [Fetch(0)], Step(s1, Fetch(0));
  }

  lemma BothStarted(id: Id, row: Row) returns (s: State)
    requires row.attempts == 0 && row.lastError.None?
    ensures var items := [Item(id, row)];
            Run(EMPTY, [Enqueue(id, row.payload), Start(items), Start(items)]) == Some(s)
    ensures var waiting := Replay([Item(id, row)], Ready);
            s == State(map[id := row], [waiting, waiting], [], map[id := Capture(row.payload, 0)])
  {
    var items := [Item(id, row)];
    assert Run(EMPTY, []) == Some(EMPTY);
    RunOneMore(EMPTY, [], Enqueue(id, row.payload));
    assert [] + [Enqueue(id, row.payload)] == [Enqueue(id, row.payload)];
    RunOneMore(EMPTY, [Enqueue(id, row.payload)], Start(items));
    assert [Enqueue(id, row.payload)] + [Start(items)] == [Enqueue(id, row.payload), Start(items)];
    RunOneMore(EMPTY, [Enqueue(id, row.payload), Start(items)], Start(items));
    assert [Enqueue(id, row.payload), Start(items)] + [Start(items)]
           == [Enqueue(id, row.payload), Start(items), Start(items)];
    s := Run(EMPTY, [Enqueue(id, row.payload), Start(items), Start(items)]).value;
  }

  // ---------------------------------------------------------------- which overlaps can duplicate

  // The replay holds the capture with attempts left, and has not got its answer yet.
  ghost predicate MayUpload(replay: Replay, id: Id) {
    exists p: nat :: p < |replay.left| && HoldsAt(replay, id, p)
  }

  predicate HoldsAt(replay: Replay, id: Id, p: nat) {
    p < |replay.left| && replay.left[p].id == id && replay.left[p].row.attempts < MAX_ATTEMPTS
      && (p > 0 || replay.phase.Ready?)
  }

  ghost function Holders(replays: seq<Replay>, id: Id): nat {
    if replays == [] then 0
    else Holders(replays[..|replays| - 1], id) + if MayUpload(replays[|replays| - 1], id) then 1 else 0
  }

  lemma {:induction false} HoldersUpdate(replays: seq<Replay>, r: nat, replay: Replay, id: Id)
    requires r < |replays|
    ensures Holders(replays[r := replay], id) + (if MayUpload(replays[r], id) then 1 else 0)
         == Holders(replays, id) + (if MayUpload(replay, id) then 1 else 0)
  {
    var n := |replays| - 1;
    if r == n {
      assert replays[r := replay][..n] == replays[..n];
    } else {
      assert replays[r := replay][..n] == replays[..n][r := replay];
      HoldersUpdate(replays[..n], r, replay, id);
    }
  }

  ghost predicate DistinctItems(s: State) {
    forall r :: 0 <= r < |s.replays| ==> DistinctLeft(s.replays[r].left)
  }

  ghost predicate DistinctLeft(left: seq<Item>) {
    forall i, j :: 0 <= i < j < |left| ==> left[i].id != left[j].id
  }

  predicate NoStart(events: seq<Event>) { forall k :: 0 <= k < |events| ==> !events[k].Start? }

  // Dealing with the first item takes nothing from what a replay may still upload later.
  lemma TailMayUpload(replay: Replay, id: Id)
    requires replay.left != []
    ensures MayUpload(Replay(replay.left[1..], Ready), id)
            <==> exists p: nat :: 0 < p < |replay.left| && HoldsAt(replay, id, p)
  {
    var tail := Replay(replay.left[1..], Ready);
    if MayUpload(tail, id) {
      var p: nat :| p < |tail.left| && HoldsAt(tail, id, p);
      assert HoldsAt(replay, id, p + 1);
    }
    if p: nat :| 0 < p < |replay.left| && HoldsAt(replay, id, p) { assert HoldsAt(tail, id, p - 1); }
  }

  // Without further replays, an upload of the capture uses up one holder.
  lemma StepUsesHolder(s: State, e: Event, id: Id)
    requires DistinctItems(s) && Enabled(s, e) && !e.Start?
    ensures DistinctItems(Step(s, e))
    ensures var s' := Step(s, e);
            Count(s'.log, id, true) + Holders(s'.replays, id) <= Count(s.log, id, true) + Holders(s.replays, id)
  {
    var s' := Step(s, e);
    if !e.Enqueue? {
      var before, after := s.replays[e.r], s'.replays[e.r];
      assert DistinctLeft(before.left);
      assert s'.replays == s.replays[e.r := after];
      HoldersUpdate(s.replays, e.r, after, id);
      if e.Upload? {
        var item := before.left[0];
        CountGrows(s.log, Attempt(item.id, item.row.payload, e.outcome.None?), id, true);
        UploadUses(before, after, id);
      } else {
        LeavesUse(before, after, id);
      }
    }
  }

  lemma UploadUses(before: Replay, after: Replay, id: Id)
    requires before.left != [] && before.phase.Ready? && before.left[0].row.attempts < MAX_ATTEMPTS
    requires DistinctLeft(before.left) && after.left == before.left && !after.phase.Ready?
    ensures MayUpload(after, id) ==> MayUpload(before, id)
    ensures before.left[0].id == id ==> MayUpload(before, id) && !MayUpload(after, id)
  {
    if MayUpload(after, id) {
      var p: nat :| p < |after.left| && HoldsAt(after, id, p);
      assert HoldsAt(before, id, p);
    }
    assert before.left[0].id == id ==> HoldsAt(before, id, 0);
  }

  lemma LeavesUse(before: Replay, after: Replay, id: Id)
    requires before.left != []
    requires (after.left == before.left && !after.phase.Ready?) || after == Replay(before.left[1..], Ready)
    ensures MayUpload(after, id) ==> MayUpload(before, id)
  {
    TailMayUpload(before, id);
    if after.left == before.left && MayUpload(after, id) {
      var p: nat :| p < |after.left| && HoldsAt(after, id, p);
      assert HoldsAt(before, id, p);
    }
  }

  lemma {:induction false} RunUsesHolders(s: State, events: seq<Event>, id: Id)
    requires DistinctItems(s) && NoStart(events) && Run(s, events).Some?
    ensures var s' := Run(s, events).value;
            DistinctItems(s')
              && Count(s'.log, id, true) + Holders(s'.replays, id) <= Count(s.log, id, true) + Holders(s.replays, id)
  {
    if events != [] {
      var n := |events| - 1;
      RunUsesHolders(s, events[..n], id);
      StepUsesHolder(Run(s, events[..n]).value, events[n], id);
    }
  }

  // One replay moves on to its next item, whatever state it is in.
  lemma MoveOn(s: State, r: nat, id: Id) returns (events: seq<Event>)
    requires r < |s.replays| && s.replays[r].left != []
    ensures NoStart(events) && Run(s, events).Some?
    ensures var s' := Run(s, events).value;
            s'.replays == s.replays[r := Replay(s.replays[r].left[1..], Ready)]
              && Count(s'.log, id, true) >= Count(s.log, id, true)
  {
    match s.replays[r].phase {
      case Accepted =>
        events := [Remove(r)];
        RunOne(s, Remove(r));
      case Updating(_) =>
        events := [Put(r)];
        RunOne(s, Put(r));
      case Refused(_) => events := MoveOnRefused(s, r);
      case Ready => events := MoveOnReady(s, r, id);
    }
  }

  lemma MoveOnRefused(s: State, r: nat) returns (events: seq<Event>)
    requires r < |s.replays| && s.replays[r].left != [] && s.replays[r].phase.Refused?
    ensures NoStart(events) && Run(s, events).Some? && Run(s, events).value.log == s.log
    ensures Run(s, events).value.replays == s.replays[r := Replay(s.replays[r].left[1..], Ready)]
  {
    RunOne(s, Fetch(r));
    events := [Fetch(r)];
    var s1 := Step(s, Fetch(r));
    if s.replays[r].left[0].id in s.queue {
      RunOneMore(s, [Fetch(r)], Put(r));
      assert Step(s1, Put(r)).replays == s.replays[r := Replay(s.replays[r].left[1..], Ready)];
      events := [Fetch(r)] + [Put(r)];
    }
  }

  lemma MoveOnReady(s: State, r: nat, id: Id) returns (events: seq<Event>)
    requires r < |s.replays| && s.replays[r].left != [] && s.replays[r].phase.Ready?
    ensures NoStart(events) && Run(s, events).Some?
    ensures var s' := Run(s, events).value;
            s'.replays == s.replays[r := Replay(s.replays[r].left[1..], Ready)]
              && Count(s'.log, id, true) >= Count(s.log, id, true)
  {
    var item := s.replays[r].left[0];
    if item.row.attempts >= MAX_ATTEMPTS {
      events := [Skip(r)];
      RunOne(s, Skip(r));
    } else {
      RunOne(s, Upload(r, None));
      var s1 := Step(s, Upload(r, None));
      CountGrows(s.log, Attempt(item.id, item.row.payload, true), id, true);
      RunOneMore(s, [Upload(r, None)], Remove(r));
      assert Step(s1, Remove(r)).replays == s.replays[r := Replay(s.replays[r].left[1..], Ready)];
      events := [Upload(r, None)] + [Remove(r)];
    }
  }

  // A replay that may upload the capture can be driven to do so, the others standing still.
  lemma {:induction false} DriveToUpload(s: State, r: nat, id: Id) returns (events: seq<Event>)
    requires r < |s.replays| && MayUpload(s.replays[r], id)
    ensures NoStart(events) && Run(s, events).Some?
    ensures var s' := Run(s, events).value;
            && Count(s'.log, id, true) > Count(s.log, id, true)
            && |s'.replays| == |s.replays|
            && forall q :: 0 <= q < |s.replays| && q != r ==> s'.replays[q] == s.replays[q]
    decreases |s.replays[r].left|
  {
    var replay := s.replays[r];
    if HoldsAt(replay, id, 0) {
      events := [Upload(r, None)];
      RunOne(s, Upload(r, None));
      CountGrows(s.log, Attempt(id, replay.left[0].row.payload, true), id, true);
    } else {
      var first := MoveOn(s, r, id);
      var s1 := Run(s, first).value;
      TailMayUpload(replay, id);
      var rest := DriveToUpload(s1, r, id);
      RunSplits(s, first, rest);
      events := first + rest;
    }
  }

  lemma {:induction false} SomeHolder(replays: seq<Replay>, id: Id) returns (r: nat)
    requires Holders(replays, id) > 0
    ensures r < |replays| && MayUpload(replays[r], id)
  {
    var n := |replays| - 1;
    if MayUpload(replays[n], id) { r := n; } else { r := SomeHolder(replays[..n], id); }
  }

  // All holders can be made to upload.
  lemma {:induction false} DriveHolders(s: State, id: Id, n: nat) returns (events: seq<Event>)
    requires Holders(s.replays, id) >= n
    ensures NoStart(events) && Run(s, events).Some?
    ensures Count(Run(s, events).value.log, id, true) >= Count(s.log, id, true) + n
    decreases n
  {
    if n == 0 {
      events := [];
    } else {
      var r := SomeHolder(s.replays, id);
      var first := DriveToUpload(s, r, id);
      var s1 := Run(s, first).value;
      assert s1.replays == s.replays[r := s1.replays[r]];
      HoldersUpdate(s.replays, r, s1.replays[r], id);
      var rest := DriveHolders(s1, id, n - 1);
      RunSplits(s, first, rest);
      events := first + rest;
    }
  }

  lemma {:induction false} RunKeepsDistinct(events: seq<Event>)
    requires Run(EMPTY, events).Some?
    ensures DistinctItems(Run(EMPTY, events).value)
  {
    if events != [] {
      var n := |events| - 1;
      RunKeepsDistinct(events[..n]);
      var s, e := Run(EMPTY, events[..n]).value, events[n];
      forall r | 0 <= r < |Step(s, e).replays| ensures DistinctLeft(Step(s, e).replays[r].left) {
        if r < |s.replays| { assert DistinctLeft(s.replays[r].left); }
      }
    }
  }

  // From any reachable state, and without further replays being started, the capture can end up
  // uploaded twice or more exactly when the uploads so far and the replays that still hold it with
  // attempts left are two or more: an overlap duplicates only what both replays hold.
  lemma DuplicatesIffHeldTwice(events: seq<Event>, id: Id)
    requires Run(EMPTY, events).Some?
    ensures var s := Run(EMPTY, events).value;
            (exists more :: NoStart(more) && Run(s, more).Some? && Count(Run(s, more).value.log, id, true) >= 2)
              <==> Count(s.log, id, true) + Holders(s.replays, id) >= 2
  {
    var s := Run(EMPTY, events).value;
    RunKeepsDistinct(events);
    if more :| NoStart(more) && Run(s, more).Some? && Count(Run(s, more).value.log, id, true) >= 2 {
      RunUsesHolders(s, more, id);
    }
    if Count(s.log, id, true) + Holders(s.replays, id) >= 2 {
      var more := DriveHolders(s, id, Holders(s.replays, id));
      assert NoStart(more) && Run(s, more).Some? && Count(Run(s, more).value.log, id, true) >= 2;
    }
  }
}
