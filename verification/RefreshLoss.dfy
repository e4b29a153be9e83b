/**
 * The refresh protocol when answers are lost and pages are reloaded. The token store outlives a
 * reload, the calls of a page and its shared refresh do not; a request the page had sent may still
 * reach the service, whose answer then goes nowhere.
 *
 * A world is the system of the protocol together with requests of pages that are gone and an
 * observer's notes: whose each token is, which tokens were ever stored, which token a client
 * presented last, and which stored tokens became useless and why.
 */
module RefreshLoss {
  import opened Wrappers
  import opened RefreshProtocol
  import T = RefreshTokens

  datatype Cause = LostAnswer | Reloaded

  datatype Orphan = Orphan(client: nat, token: nat)

  datatype World = World(
    sys: System,
    orphans: multiset<Orphan>,
    owner: seq<nat>,
    stored: set<nat>,
    asked: map<nat, nat>,
    stale: map<nat, Cause>
  )

  datatype Event =
    | Protocol(action: Action)
    | AnswerLost(client: nat, result: Option<nat>)
    | Reload(client: nat)
    | OrphanServed(client: nat, token: nat, out: T.Outcome)

  // ---------------------------------------------------------------- steps

  // The client still stores the token it presented last.
  predicate KeepsAsked(w: World, c: nat) {
    c < |w.sys.clients| && c in w.asked && w.sys.clients[c].refresh == Some(w.asked[c])
  }

  function TokensOf(client: Client): set<nat> { if client.refresh.Some? then {client.refresh.value} else {} }

  // What the observer notes of a step of the protocol; a store that changes is no longer stale.
  function Observed(w: World, a: Action, sys: System): World
    requires a.client < |w.sys.clients| == |sys.clients|
  {
    var before, after := w.sys.clients[a.client], sys.clients[a.client];
    World(sys, w.orphans,
          if |sys.server| > |w.sys.server| then w.owner + [a.client] else w.owner,
          w.stored + TokensOf(after),
          if a.Unauthorized? && Presented(before).Some? then w.asked[a.client := Presented(before).value] else w.asked,
          if after.refresh != before.refresh then w.stale - {a.client} else w.stale)
  }

  ghost predicate ProtocolStep(w: World, a: Action, now: int, ttl: int, w': World) {
    && Next(w.sys, a, now, ttl, w'.sys)
    && |w'.sys.clients| == |w.sys.clients|
    && w' == Observed(w, a, w'.sys)
  }

  // The connection breaks under the answer: to the client a failed request like any other.
  ghost predicate AnswerLostStep(w: World, c: nat, result: Option<nat>, w': World) {
    && c < |w.sys.clients| && RefreshResponse(c, result) in w.sys.net
    && w' == w.(sys := SetClient(w.sys, c, OnRefreshResponse(w.sys.clients[c], None))
                       .(net := Receive(w.sys.net, RefreshResponse(c, result))),
                stale := if result.Some? && KeepsAsked(w, c) then w.stale[c := LostAnswer] else w.stale)
  }

  function Fresh(client: Client): Client { client.(inFlight := false, calls := map[]) }

  // The page goes: its messages have no receiver any more, its refresh request may still be served.
  ghost predicate ReloadStep(w: World, c: nat, w': World) {
    && c < |w.sys.clients|
    && w'.sys.server == w.sys.server && w'.sys.clients == w.sys.clients[c := Fresh(w.sys.clients[c])]
    && (forall m :: w'.sys.net[m] == if m.client == c then 0 else w.sys.net[m])
    && (forall o :: w'.orphans[o] == w.orphans[o] + if o.client == c then w.sys.net[RefreshRequest(c, o.token)] else 0)
    && w'.owner == w.owner && w'.stored == w.stored && w'.asked == w.asked
    && w'.stale == if c in w.stale || (Rotating(w.sys, c) && KeepsAsked(w, c)) then w.stale[c := Reloaded] else w.stale
  }

  ghost predicate OrphanStep(w: World, c: nat, token: nat, out: T.Outcome, now: int, ttl: int, w': World) {
    && c < |w.sys.clients| && Orphan(c, token) in w.orphans
    && T.RefreshStep(w.sys.server, token, now, ttl, w'.sys.server, out)
    && w' == w.(sys := w.sys.(server := w'.sys.server),
                orphans := w.orphans - multiset{Orphan(c, token)},
                owner := if out.Rotated? then w.owner + [c] else w.owner,
                stale := if out.Rotated? && w.sys.clients[c].refresh == Some(token) then w.stale[c := Reloaded]
                         else w.stale)
  }

  ghost predicate WorldNext(w: World, e: Event, now: int, ttl: int, w': World) {
    match e
    case Protocol(a) => ProtocolStep(w, a, now, ttl, w')
    case AnswerLost(c, result) => AnswerLostStep(w, c, result, w')
    case Reload(c) => ReloadStep(w, c, w')
    case OrphanServed(c, token, out) => OrphanStep(w, c, token, out, now, ttl, w')
  }

  datatype Timed = Timed(event: Event, now: int)

  ghost predicate Starts(w: World) {
    Init(w.sys) && w == World(w.sys, multiset{}, [], {}, map[], map[])
  }

  // The world is reached by the events from some start.
  ghost predicate Reached(events: seq<Timed>, ttl: int, w: World) {
    if events == [] then Starts(w)
    else
      var last := events[|events| - 1];
      exists before :: Reached(events[..|events| - 1], ttl, before) && WorldNext(before, last.event, last.now, ttl, w)
  }

  predicate Reuses(e: Event) {
    match e
    case Protocol(a) => a.ServerRefresh? && a.out.ReuseDetected?
    case OrphanServed(_, _, out) => out.ReuseDetected?
    case _ => false
  }

  predicate NoReuse(events: seq<Timed>) { forall k :: 0 <= k < |events| ==> !Reuses(events[k].event) }

  // ---------------------------------------------------------------- the invariant

  // A token nobody has stored yet is un-revoked.
  ghost predicate TokensOk(w: World) {
    && |w.owner| == |w.sys.server|
    && (forall t :: t in w.stored ==> t < |w.sys.server|)
    && (forall c :: c in w.asked ==> w.asked[c] in w.stored)
    && (forall t: nat :: t < |w.sys.server| && t !in w.stored ==> LiveToken(w.sys.server, t))
  }

  predicate Announces(m: Message, token: nat) { !m.RefreshRequest? && Carries(m, token) }

  ghost predicate MessageFits(w: World, m: Message) {
    && m.client < |w.sys.clients| && w.sys.net[m] == 1
    && (forall t: nat :: Carries(m, t) ==> t < |w.owner| && w.owner[t] == m.client)
    && (forall t: nat :: Announces(m, t) ==> t !in w.stored)
    && (m.RefreshRequest? ==> m.token in w.stored && m.client in w.asked && w.asked[m.client] == m.token)
    && (IsRefreshOf(m, m.client) ==> w.sys.clients[m.client].inFlight)
  }

  ghost predicate Apart(m: Message, m': Message) {
    && !(IsRefreshOf(m, m.client) && IsRefreshOf(m', m.client))
    && (forall t: nat :: Announces(m, t) ==> !Announces(m', t))
  }

  ghost predicate NetOk(w: World) {
    && (forall m :: m in w.sys.net ==> MessageFits(w, m))
    && (forall m, m' :: m in w.sys.net && m' in w.sys.net && m != m' ==> Apart(m, m'))
  }

  ghost predicate OrphansOk(w: World) {
    forall o :: o in w.orphans ==>
      o.client < |w.sys.clients| && o.token < |w.owner| && w.owner[o.token] == o.client && o.token in w.stored
  }

  // A stored token is revoked exactly when its replacement is on its way or it went stale.
  ghost predicate StoreFits(w: World, c: nat)
    requires c < |w.sys.clients|
  {
    match w.sys.clients[c].refresh
    case None => c !in w.stale
    case Some(t) =>
      && t in w.stored && t < |w.owner| && w.owner[t] == c
      && (!LiveToken(w.sys.server, t) <==> c in w.stale || (Rotating(w.sys, c) && KeepsAsked(w, c)))
  }

  predicate Undelivered(client: Client) { exists k :: k in client.calls && client.calls[k] == Settled(None) }

  // A refresh in flight has a call waiting for it, and a client whose answer was lost has a call that
  // is about to log it out.
  ghost predicate CallsFit(w: World, c: nat)
    requires c < |w.sys.clients|
  {
    && (w.sys.clients[c].inFlight ==> exists k :: k in w.sys.clients[c].calls && w.sys.clients[c].calls[k] == Waiting)
    && (c in w.stale && w.stale[c] == LostAnswer ==> Undelivered(w.sys.clients[c]))
  }

  ghost predicate WorldInv(w: World) {
    && TokensOk(w) && NetOk(w) && OrphansOk(w)
    && (forall c: nat :: c < |w.sys.clients| ==> StoreFits(w, c))
    && (forall c: nat :: c < |w.sys.clients| ==> CallsFit(w, c))
  }

  // ---------------------------------------------------------------- every step keeps it

  // A step of one client that touches neither the network nor the service.
  lemma QuietKeepsInv(w: World, c: nat, client: Client)
    requires WorldInv(w) && c < |w.sys.clients| && client.inFlight == w.sys.clients[c].inFlight
    requires client.refresh == w.sys.clients[c].refresh || client.refresh == None
    requires client.inFlight ==> exists k :: k in client.calls && client.calls[k] == Waiting
    requires client.refresh == w.sys.clients[c].refresh && client.refresh.Some? && Undelivered(w.sys.clients[c])
             ==> Undelivered(client)
    ensures WorldInv(w.(sys := SetClient(w.sys, c, client),
                        stale := if client.refresh != w.sys.clients[c].refresh then w.stale - {c} else w.stale))
  {
    var w' := w.(sys := SetClient(w.sys, c, client),
                 stale := if client.refresh != w.sys.clients[c].refresh then w.stale - {c} else w.stale);
    forall m | m in w'.sys.net ensures MessageFits(w', m) { assert MessageFits(w, m); }
    forall d: nat | d < |w'.sys.clients| ensures StoreFits(w', d) && CallsFit(w', d) {
      assert StoreFits(w, d) && CallsFit(w, d);
      assert Rotating(w'.sys, d) <==> Rotating(w.sys, d);
    }
  }

  function AfterPresent(w: World, c: nat, call: nat): World
    requires c < |w.sys.clients| && Presented(w.sys.clients[c]).Some?
  {
    var token := Presented(w.sys.clients[c]).value;
    w.(sys := SetClient(w.sys, c, OnUnauthorized(w.sys.clients[c], call))
              .(net := Send(w.sys.net, RefreshRequest(c, token))),
       asked := w.asked[c := token])
  }

  lemma PresentKeepsNet(w: World, c: nat, call: nat)
    requires WorldInv(w) && c < |w.sys.clients| && Presented(w.sys.clients[c]).Some?
    ensures NetOk(AfterPresent(w, c, call)) && !Rotating(w.sys, c)
  {
    var req, w' := RefreshRequest(c, Presented(w.sys.clients[c]).value), AfterPresent(w, c, call);
    assert StoreFits(w, c);
    forall m | m in w.sys.net ensures !IsRefreshOf(m, c) && m != req && MessageFits(w', m) { assert MessageFits(w, m); }
    forall m, m' | m in w'.sys.net && m' in w'.sys.net && m != m' ensures Apart(m, m') {
      if m != req && m' != req { assert Apart(m, m'); }
    }
  }

  lemma PresentKeepsInv(w: World, c: nat, call: nat)
    requires WorldInv(w) && c < |w.sys.clients| && Presented(w.sys.clients[c]).Some?
    requires call in w.sys.clients[c].calls && w.sys.clients[c].calls[call] == Sent
    ensures WorldInv(AfterPresent(w, c, call))
  {
    var w' := AfterPresent(w, c, call);
    PresentKeepsNet(w, c, call);
    assert StoreFits(w, c);
    forall d: nat | d < |w'.sys.clients| ensures StoreFits(w', d) { PresentKeepsStore(w, c, call, d); }
    forall d: nat | d < |w'.sys.clients| ensures CallsFit(w', d) {
      assert CallsFit(w, d);
      if d == c {
        assert w'.sys.clients[c].calls[call] == Waiting;
        UndeliveredStays(w.sys.clients[c], w'.sys.clients[c], call);
      }
    }
  }

  lemma PresentKeepsStore(w: World, c: nat, call: nat, d: nat)
    requires WorldInv(w) && c < |w.sys.clients| && Presented(w.sys.clients[c]).Some? && d < |w.sys.clients|
    ensures StoreFits(AfterPresent(w, c, call), d)
  {
    PresentKeepsNet(w, c, call);
    assert StoreFits(w, d);
    SameResponses(w.sys, AfterPresent(w, c, call).sys, d);
  }

  lemma SameResponses(s: System, s': System, d: nat)
    requires forall t :: RefreshResponse(d, Some(t)) in s.net <==> RefreshResponse(d, Some(t)) in s'.net
    ensures Rotating(s, d) <==> Rotating(s', d)
  {
    if Rotating(s, d) { var t :| RefreshResponse(d, Some(t)) in s.net; assert RefreshResponse(d, Some(t)) in s'.net; }
    if Rotating(s', d) { var t :| RefreshResponse(d, Some(t)) in s'.net; assert RefreshResponse(d, Some(t)) in s.net; }
  }

  // A call that is not about to log out changes; the others stay.
  lemma UndeliveredStays(before: Client, after: Client, call: nat)
    requires call in before.calls ==> before.calls[call] != Settled(None)
    requires forall k :: k in before.calls && k != call ==> k in after.calls && after.calls[k] == before.calls[k]
    ensures Undelivered(before) ==> Undelivered(after)
  {
    if Undelivered(before) {
      var k :| k in before.calls && before.calls[k] == Settled(None);
      assert k in after.calls && after.calls[k] == Settled(None);
    }
  }

  function AfterLogin(w: World, c: nat, row: T.Row): World {
    w.(sys := w.sys.(server := w.sys.server + [row], net := Send(w.sys.net, LoginResponse(c, |w.sys.server|))),
       owner := w.owner + [c])
  }

  lemma LoginKeepsNet(w: World, c: nat, row: T.Row)
    requires WorldInv(w) && c < |w.sys.clients| && row.Live()
    ensures NetOk(AfterLogin(w, c, row))
  {
    var m0, w' := LoginResponse(c, |w.sys.server|), AfterLogin(w, c, row);
    forall m | m in w.sys.net ensures m != m0 && MessageFits(w', m) && Apart(m, m0) && Apart(m0, m) {
      assert MessageFits(w, m);
      assert !Carries(m, |w.sys.server|);
    }
    forall m, m' | m in w'.sys.net && m' in w'.sys.net && m != m' ensures Apart(m, m') {
      if m != m0 && m' != m0 { assert Apart(m, m'); }
    }
  }

  lemma LoginKeepsInv(w: World, c: nat, row: T.Row)
    requires WorldInv(w) && c < |w.sys.clients| && row.Live()
    ensures WorldInv(AfterLogin(w, c, row))
  {
    var w' := AfterLogin(w, c, row);
    LoginKeepsNet(w, c, row);
    forall d: nat | d < |w'.sys.clients| ensures StoreFits(w', d) && CallsFit(w', d) {
      assert StoreFits(w, d) && CallsFit(w, d);
      SameResponses(w.sys, w'.sys, d);
    }
  }

  // What becomes of the notes when message m0 leaves the network and its client becomes `client`.
  function StaleAfter(w: World, m0: Message, client: Client): map<nat, Cause>
    requires m0.client < |w.sys.clients|
  {
    if client.refresh != w.sys.clients[m0.client].refresh then w.stale - {m0.client}
    else if m0.RefreshResponse? && m0.result.Some? && KeepsAsked(w, m0.client) then w.stale[m0.client := LostAnswer]
    else w.stale
  }

  function AfterDelivery(w: World, m0: Message, client: Client): World
    requires m0.client < |w.sys.clients|
  {
    w.(sys := SetClient(w.sys, m0.client, client).(net := Receive(w.sys.net, m0)),
       stored := w.stored + TokensOf(client), stale := StaleAfter(w, m0, client))
  }

  // The message is delivered, or lost: then the store stays as it was.
  ghost predicate Delivers(w: World, m0: Message, client: Client) {
    && m0 in w.sys.net && m0.client < |w.sys.clients|
    && client.inFlight == (w.sys.clients[m0.client].inFlight && m0.LoginResponse?)
    && (if client.refresh == w.sys.clients[m0.client].refresh then !m0.LoginResponse?
        else client.refresh.Some? && Announces(m0, client.refresh.value))
  }

  lemma DeliveryKeepsNet(w: World, m0: Message, client: Client)
    requires WorldInv(w) && Delivers(w, m0, client)
    ensures NetOk(AfterDelivery(w, m0, client)) && TokensOk(AfterDelivery(w, m0, client))
  {
    var w' := AfterDelivery(w, m0, client);
    assert MessageFits(w, m0) && StoreFits(w, m0.client);
    forall m | m in w'.sys.net ensures MessageFits(w', m) && m != m0 { assert MessageFits(w, m) && Apart(m, m0); }
    forall m, m' | m in w'.sys.net && m' in w'.sys.net && m != m' ensures Apart(m, m') { assert Apart(m, m'); }
  }

  // A store that receives a token nobody had stored holds an un-revoked one.
  lemma DeliveryKeepsStore(w: World, m0: Message, client: Client)
    requires WorldInv(w) && Delivers(w, m0, client)
    ensures StoreFits(AfterDelivery(w, m0, client), m0.client)
  {
    var c, w' := m0.client, AfterDelivery(w, m0, client);
    assert MessageFits(w, m0) && StoreFits(w, c);
    if client.refresh == w.sys.clients[c].refresh {
      DeliveryEndsRotation(w, m0);
      assert !Rotating(w'.sys, c) by { SameResponses(w'.sys, w.sys.(net := w'.sys.net), c); }
    } else {
      assert LiveToken(w.sys.server, client.refresh.value);
      assert !KeepsAsked(w', c);
    }
  }

  lemma DeliveryKeepsOthers(w: World, m0: Message, client: Client, d: nat)
    requires WorldInv(w) && Delivers(w, m0, client) && d < |w.sys.clients| && d != m0.client
    ensures StoreFits(AfterDelivery(w, m0, client), d)
  {
    assert StoreFits(w, d);
    SameResponses(w.sys, AfterDelivery(w, m0, client).sys, d);
  }

  lemma DeliveryKeepsInv(w: World, m0: Message, client: Client)
    requires WorldInv(w) && Delivers(w, m0, client)
    requires client.inFlight ==> exists k :: k in client.calls && client.calls[k] == Waiting
    requires m0.client in StaleAfter(w, m0, client) && StaleAfter(w, m0, client)[m0.client] == LostAnswer
             ==> Undelivered(client)
    ensures WorldInv(AfterDelivery(w, m0, client))
  {
    var w' := AfterDelivery(w, m0, client);
    DeliveryKeepsNet(w, m0, client);
    forall d: nat | d < |w'.sys.clients| ensures StoreFits(w', d) && CallsFit(w', d) {
      assert CallsFit(w, d);
      if d == m0.client { DeliveryKeepsStore(w, m0, client); } else { DeliveryKeepsOthers(w, m0, client, d); }
    }
  }

  // Receiving the answer ends a rotation; while any other refresh message is out there is none.
  lemma DeliveryEndsRotation(w: World, m0: Message)
    requires NetOk(w) && m0 in w.sys.net
    ensures var net := Receive(w.sys.net, m0);
            Rotating(w.sys.(net := net), m0.client) <==> Rotating(w.sys, m0.client) && m0.LoginResponse?
    ensures m0.RefreshRequest? || m0 == RefreshResponse(m0.client, None) ==> !Rotating(w.sys, m0.client)
    ensures m0.RefreshResponse? && m0.result.Some? ==> Rotating(w.sys, m0.client)
  {
    var c, net := m0.client, Receive(w.sys.net, m0);
    assert MessageFits(w, m0);
    forall t | RefreshResponse(c, Some(t)) in w.sys.net && !m0.LoginResponse?
      ensures m0 == RefreshResponse(c, Some(t))
    {
      assert m0 != RefreshResponse(c, Some(t)) ==> Apart(m0, RefreshResponse(c, Some(t)));
    }
    if m0.LoginResponse? && Rotating(w.sys, c) {
      var t :| RefreshResponse(c, Some(t)) in w.sys.net;
      assert RefreshResponse(c, Some(t)) in net;
    }
  }

  // ---------------------------------------------------------------- the service and the page

  function AfterRefusal(w: World, c: nat, token: nat): World {
    w.(sys := w.sys.(net := Send(Receive(w.sys.net, RefreshRequest(c, token)), RefreshResponse(c, None))))
  }

  lemma RefusalKeepsInv(w: World, c: nat, token: nat)
    requires WorldInv(w) && RefreshRequest(c, token) in w.sys.net
    ensures WorldInv(AfterRefusal(w, c, token))
  {
    var req, resp, w' := RefreshRequest(c, token), RefreshResponse(c, None), AfterRefusal(w, c, token);
    AnswerKeepsNet(w, w', req, resp);
    forall d: nat | d < |w'.sys.clients| ensures StoreFits(w', d) && CallsFit(w', d) {
      assert StoreFits(w, d) && CallsFit(w, d);
      SameResponses(w.sys, w'.sys, d);
    }
  }

  // Any other message is no nearer to the answer than it was to the request.
  lemma OthersKeepFit(w: World, w': World, req: Message, resp: Message, m: Message)
    requires WorldInv(w) && req in w.sys.net && req.RefreshRequest? && resp.RefreshResponse?
    requires resp.client == req.client && m in w.sys.net && m != req
    requires w'.sys.net == Send(Receive(w.sys.net, req), resp) && w'.sys.clients == w.sys.clients
    requires w'.stored == w.stored && w'.asked == w.asked && w.owner <= w'.owner
    requires resp.result.Some? ==> resp.result.value == |w.owner|
    ensures m != resp && MessageFits(w', m) && Apart(m, resp) && Apart(resp, m)
  {
    assert MessageFits(w, req) && IsRefreshOf(req, req.client);
    assert MessageFits(w, m) && Apart(m, req);
    assert Announces(resp, |w.owner|) ==> !Announces(m, |w.owner|);
  }

  // A request is replaced by its answer, which announces at most a token issued just now.
  lemma AnswerKeepsNet(w: World, w': World, req: Message, resp: Message)
    requires WorldInv(w) && req in w.sys.net && req.RefreshRequest? && resp.RefreshResponse?
    requires resp.client == req.client
    requires w'.sys.net == Send(Receive(w.sys.net, req), resp) && w'.sys.clients == w.sys.clients
    requires w'.stored == w.stored && w'.asked == w.asked && w.owner <= w'.owner
    requires resp.result.Some? ==>
               resp.result.value == |w.owner| && w'.owner == w.owner + [req.client] && |w.owner| !in w.stored
    ensures NetOk(w')
  {
    assert MessageFits(w, req) && IsRefreshOf(req, req.client);
    forall m | m in w.sys.net && m != req ensures m != resp && MessageFits(w', m) && Apart(m, resp) && Apart(resp, m) {
      OthersKeepFit(w, w', req, resp, m);
    }
    assert MessageFits(w', resp) && req !in w'.sys.net;
    forall m, m' | m in w'.sys.net && m' in w'.sys.net && m != m' ensures Apart(m, m') {
      if m != resp && m' != resp { assert Apart(m, m'); }
    }
  }

  // The table after a rotation, as far as the invariant cares.
  predicate Rotates(before: T.Table, token: nat, after: T.Table) {
    && |after| == |before| + 1 && LiveToken(before, token) && !LiveToken(after, token) && LiveToken(after, |before|)
    && (forall t: nat :: t < |before| && t != token ==> after[t] == before[t])
  }

  function AfterRotation(w: World, c: nat, token: nat, server: T.Table): World {
    w.(sys := w.sys.(server := server,
                     net := Send(Receive(w.sys.net, RefreshRequest(c, token)),
                                 RefreshResponse(c, Some(|w.sys.server|)))),
       owner := w.owner + [c])
  }

  lemma RotationKeepsNet(w: World, c: nat, token: nat, server: T.Table)
    requires WorldInv(w) && RefreshRequest(c, token) in w.sys.net && Rotates(w.sys.server, token, server)
    ensures NetOk(AfterRotation(w, c, token, server)) && TokensOk(AfterRotation(w, c, token, server))
  {
    var req, resp := RefreshRequest(c, token), RefreshResponse(c, Some(|w.sys.server|));
    assert MessageFits(w, req) && Carries(req, token);
    AnswerKeepsNet(w, AfterRotation(w, c, token, server), req, resp);
  }

  // The presented token is superseded; any other token the client may store keeps its state.
  lemma RotationKeepsStore(w: World, c: nat, token: nat, server: T.Table)
    requires WorldInv(w) && RefreshRequest(c, token) in w.sys.net && Rotates(w.sys.server, token, server)
    requires c < |w.sys.clients|
    ensures StoreFits(AfterRotation(w, c, token, server), c)
  {
    var req, w' := RefreshRequest(c, token), AfterRotation(w, c, token, server);
    assert MessageFits(w, req) && StoreFits(w, c);
    DeliveryEndsRotation(w, req);
    assert RefreshResponse(c, Some(|w.sys.server|)) in w'.sys.net;
    assert Rotating(w'.sys, c) && KeepsAsked(w', c) == (w.sys.clients[c].refresh == Some(token));
  }

  lemma RotationKeepsInv(w: World, c: nat, token: nat, server: T.Table)
    requires WorldInv(w) && RefreshRequest(c, token) in w.sys.net && Rotates(w.sys.server, token, server)
    ensures WorldInv(AfterRotation(w, c, token, server))
  {
    var req, w' := RefreshRequest(c, token), AfterRotation(w, c, token, server);
    RotationKeepsNet(w, c, token, server);
    assert MessageFits(w, req) && Carries(req, token);
    forall d: nat | d < |w'.sys.clients| ensures StoreFits(w', d) {
      if d == c {
        RotationKeepsStore(w, c, token, server);
      } else {
        assert StoreFits(w, d);
        SameResponses(w.sys, w'.sys, d);
      }
    }
    forall d: nat | d < |w'.sys.clients| ensures CallsFit(w', d) { assert CallsFit(w, d); }
  }

  lemma RotatedTable(t: T.Table, token: nat, now: int, ttl: int, t': T.Table, out: T.Outcome)
    requires T.RefreshStep(t, token, now, ttl, t', out) && !out.ReuseDetected?
    ensures if out.Rotated? then Rotates(t, token, t') && out.token == |t| else t' == t
  {
  }

  lemma ReloadKeepsNet(w: World, c: nat, w': World)
    requires WorldInv(w) && ReloadStep(w, c, w')
    ensures NetOk(w') && OrphansOk(w') && !Rotating(w'.sys, c)
  {
    forall m | m in w'.sys.net ensures MessageFits(w', m) && m in w.sys.net { assert MessageFits(w, m); }
    forall m, m' | m in w'.sys.net && m' in w'.sys.net && m != m' ensures Apart(m, m') { assert Apart(m, m'); }
    forall o | o in w'.orphans
      ensures o.client < |w'.sys.clients| && o.token < |w'.owner| && w'.owner[o.token] == o.client
              && o.token in w'.stored
    {
      if o !in w.orphans {
        assert RefreshRequest(c, o.token) in w.sys.net;
        assert MessageFits(w, RefreshRequest(c, o.token)) && Carries(RefreshRequest(c, o.token), o.token);
      }
    }
    forall t ensures RefreshResponse(c, Some(t)) !in w'.sys.net {}
  }

  lemma ReloadKeepsInv(w: World, c: nat, w': World)
    requires WorldInv(w) && ReloadStep(w, c, w')
    ensures WorldInv(w')
  {
    ReloadKeepsNet(w, c, w');
    assert StoreFits(w, c);
    forall d: nat | d < |w'.sys.clients| ensures StoreFits(w', d) && CallsFit(w', d) {
      assert StoreFits(w, d) && CallsFit(w, d);
      if d != c { SameResponses(w.sys, w'.sys, d); }
    }
  }

  lemma OrphanKeepsNet(w: World, c: nat, token: nat, out: T.Outcome, now: int, ttl: int, w': World)
    requires WorldInv(w) && OrphanStep(w, c, token, out, now, ttl, w') && !out.ReuseDetected?
    ensures TokensOk(w') && NetOk(w') && OrphansOk(w')
  {
    RotatedTable(w.sys.server, token, now, ttl, w'.sys.server, out);
    assert Orphan(c, token) in w.orphans;
    assert forall o :: o in w'.orphans ==> o in w.orphans;
    forall m | m in w'.sys.net ensures MessageFits(w', m) { assert MessageFits(w, m); }
  }

  // Only the client whose page is gone may find its stored token revoked.
  lemma OrphanKeepsStore(w: World, c: nat, token: nat, out: T.Outcome, now: int, ttl: int, w': World, d: nat)
    requires WorldInv(w) && OrphanStep(w, c, token, out, now, ttl, w') && !out.ReuseDetected? && d < |w.sys.clients|
    ensures StoreFits(w', d)
  {
    RotatedTable(w.sys.server, token, now, ttl, w'.sys.server, out);
    assert Orphan(c, token) in w.orphans;
    assert StoreFits(w, d);
    SameResponses(w.sys, w'.sys, d);
    assert KeepsAsked(w', d) == KeepsAsked(w, d);
  }

  lemma OrphanKeepsInv(w: World, c: nat, token: nat, out: T.Outcome, now: int, ttl: int, w': World)
    requires WorldInv(w) && OrphanStep(w, c, token, out, now, ttl, w') && !out.ReuseDetected?
    ensures WorldInv(w')
  {
    OrphanKeepsNet(w, c, token, out, now, ttl, w');
    forall d: nat | d < |w'.sys.clients| ensures StoreFits(w', d) && CallsFit(w', d) {
      OrphanKeepsStore(w, c, token, out, now, ttl, w', d);
      assert CallsFit(w, d);
    }
  }

  lemma SettledWaiters(client: Client, result: Option<nat>)
    requires exists k :: k in client.calls && client.calls[k] == Waiting
    ensures result.None? ==> Undelivered(OnRefreshResponse(client, result))
  {
    var k :| k in client.calls && client.calls[k] == Waiting;
    assert OnRefreshResponse(client, result).calls[k] == Settled(result);
  }

  // An answer that does not arrive settles the waiting calls with nothing.
  lemma LossKeepsInv(w: World, m0: Message)
    requires WorldInv(w) && m0 in w.sys.net && !m0.LoginResponse? && m0.client < |w.sys.clients|
    ensures WorldInv(AfterDelivery(w, m0, OnRefreshResponse(w.sys.clients[m0.client], None)))
    ensures AfterDelivery(w, m0, OnRefreshResponse(w.sys.clients[m0.client], None)).stored == w.stored
  {
    var client := w.sys.clients[m0.client];
    assert MessageFits(w, m0) && CallsFit(w, m0.client) && StoreFits(w, m0.client);
    SettledWaiters(client, None);
    DeliveryKeepsInv(w, m0, OnRefreshResponse(client, None));
  }

  // ---------------------------------------------------------------- runs

  lemma ClientStepKeepsInv(w: World, a: Action, now: int, ttl: int, w': World)
    requires WorldInv(w) && ProtocolStep(w, a, now, ttl, w') && IsClientStep(a)
    requires !(a.Unauthorized? && Presented(w.sys.clients[a.client]).Some?)
    ensures WorldInv(w')
  {
    var c := a.client;
    var before, after := w.sys.clients[c], w'.sys.clients[c];
    assert StoreFits(w, c) && CallsFit(w, c);
    if after.inFlight {
      var k :| k in before.calls && before.calls[k] == Waiting;
      assert k in after.calls && after.calls[k] == Waiting;
    }
    if after.refresh == before.refresh && before.refresh.Some? && !a.LoggedOut? {
      UndeliveredStays(before, after, a.call);
    }
    QuietKeepsInv(w, c, after);
    assert w'.stored == w.stored;
  }

  lemma ServerStepKeepsInv(w: World, a: Action, now: int, ttl: int, w': World)
    requires WorldInv(w) && ProtocolStep(w, a, now, ttl, w') && a.ServerRefresh? && !a.out.ReuseDetected?
    ensures WorldInv(w')
  {
    var c, token := a.client, a.token;
    RotatedTable(w.sys.server, token, now, ttl, w'.sys.server, a.out);
    assert StoreFits(w, c);
    assert w'.stored == w.stored;
    if a.out.Rotated? {
      RotationKeepsInv(w, c, token, w'.sys.server);
    } else {
      RefusalKeepsInv(w, c, token);
    }
  }

  lemma LoginStepKeepsInv(w: World, a: Action, now: int, ttl: int, w': World)
    requires WorldInv(w) && ProtocolStep(w, a, now, ttl, w') && a.ServerLogin?
    ensures WorldInv(w')
  {
    assert StoreFits(w, a.client);
    assert w'.stored == w.stored;
    LoginKeepsInv(w, a.client, T.Row(a.user, now, now + ttl, None, None));
  }

  lemma PresentStepKeepsInv(w: World, a: Action, now: int, ttl: int, w': World)
    requires WorldInv(w) && ProtocolStep(w, a, now, ttl, w') && a.Unauthorized?
    requires Presented(w.sys.clients[a.client]).Some?
    ensures WorldInv(w')
  {
    assert StoreFits(w, a.client);
    assert w'.stored == w.stored;
    PresentKeepsInv(w, a.client, a.call);
  }

  predicate IsDelivery(a: Action) { a.RequestLost? || a.LoginDelivered? || a.ResponseDelivered? }

  lemma DeliveryStepKeepsInv(w: World, a: Action, now: int, ttl: int, w': World)
    requires WorldInv(w) && ProtocolStep(w, a, now, ttl, w') && IsDelivery(a)
    ensures WorldInv(w')
  {
    var c := a.client;
    match a
    case LoginDelivered(_, token) => TokenArrives(w, LoginResponse(c, token), StoreTokens(w.sys.clients[c], token));
    case RequestLost(_, token) => NothingArrives(w, a, RefreshRequest(c, token), now, ttl, w');
    case ResponseDelivered(_, result) =>
      if result.Some? {
        TokenArrives(w, RefreshResponse(c, result), OnRefreshResponse(w.sys.clients[c], result));
      } else {
        NothingArrives(w, a, RefreshResponse(c, None), now, ttl, w');
      }
  }

  lemma NothingArrives(w: World, a: Action, m0: Message, now: int, ttl: int, w': World)
    requires WorldInv(w) && ProtocolStep(w, a, now, ttl, w') && m0.client == a.client
    requires (a.RequestLost? && m0 == RefreshRequest(a.client, a.token))
             || (a == ResponseDelivered(a.client, None) && m0 == RefreshResponse(a.client, None))
    ensures WorldInv(w')
  {
    assert StoreFits(w, a.client);
    LossKeepsInv(w, m0);
    assert w'.stored == w.stored;
  }

  lemma ProtocolKeepsInv(w: World, a: Action, now: int, ttl: int, w': World)
    requires WorldInv(w) && ProtocolStep(w, a, now, ttl, w') && !Reuses(Protocol(a))
    ensures WorldInv(w')
  {
    if a.Unauthorized? && Presented(w.sys.clients[a.client]).Some? {
      PresentStepKeepsInv(w, a, now, ttl, w');
    } else if a.ServerLogin? {
      LoginStepKeepsInv(w, a, now, ttl, w');
    } else if a.ServerRefresh? {
      ServerStepKeepsInv(w, a, now, ttl, w');
    } else if IsDelivery(a) {
      DeliveryStepKeepsInv(w, a, now, ttl, w');
    } else {
      ClientStepKeepsInv(w, a, now, ttl, w');
    }
  }

  lemma TokenArrives(w: World, m0: Message, client: Client)
    requires WorldInv(w) && m0 in w.sys.net && m0.client < |w.sys.clients|
    requires match m0
             case LoginResponse(c, token) => client == StoreTokens(w.sys.clients[c], token)
             case RefreshResponse(c, result) => result.Some? && client == OnRefreshResponse(w.sys.clients[c], result)
             case _ => false
    ensures WorldInv(AfterDelivery(w, m0, client)) && client.refresh != w.sys.clients[m0.client].refresh
  {
    assert MessageFits(w, m0) && StoreFits(w, m0.client) && CallsFit(w, m0.client);
    assert Announces(m0, client.refresh.value);
    DeliveryKeepsInv(w, m0, client);
  }

  lemma StepKeepsInv(w: World, e: Event, now: int, ttl: int, w': World)
    requires WorldInv(w) && WorldNext(w, e, now, ttl, w') && !Reuses(e)
    ensures WorldInv(w')
  {
    match e
    case Protocol(a) => ProtocolKeepsInv(w, a, now, ttl, w');
    case AnswerLost(c, result) => LossKeepsInv(w, RefreshResponse(c, result));
    case Reload(c) => ReloadKeepsInv(w, c, w');
    case OrphanServed(c, token, out) => OrphanKeepsInv(w, c, token, out, now, ttl, w');
  }

  lemma {:induction false} ReachedKeepsInv(events: seq<Timed>, ttl: int, w: World)
    requires Reached(events, ttl, w) && NoReuse(events)
    ensures WorldInv(w)
  {
    if events != [] {
      var n, last := |events| - 1, events[|events| - 1];
      var before :| Reached(events[..n], ttl, before) && WorldNext(before, last.event, last.now, ttl, w);
      ReachedKeepsInv(events[..n], ttl, before);
      StepKeepsInv(before, last.event, last.now, ttl, w);
    }
  }

  // ---------------------------------------------------------------- when a revoked token is presented

  // The page has resumed every call whose refresh has settled, as it does before it handles any
  // further event: settling a promise and resuming its waiters happen in one turn.
  predicate Drained(client: Client) { forall k :: k in client.calls ==> !client.calls[k].Settled? }

  // Before the first re-use, the token a client presents is revoked exactly when the client went
  // stale: either the answer to its rotation was lost and this 401 is handled before any of the
  // waiting calls resumed, or the page was reloaded while the rotation was under way.
  lemma PresentedRevokedIffStale(events: seq<Timed>, ttl: int, w: World, c: nat)
    requires Reached(events, ttl, w) && NoReuse(events)
    requires c < |w.sys.clients| && Presented(w.sys.clients[c]).Some?
    ensures !LiveToken(w.sys.server, Presented(w.sys.clients[c]).value) <==> c in w.stale
    ensures c in w.stale && w.stale[c] == LostAnswer ==> Undelivered(w.sys.clients[c])
    ensures c in w.stale && Drained(w.sys.clients[c]) ==> w.stale[c] == Reloaded
  {
    ReachedKeepsInv(events, ttl, w);
    assert StoreFits(w, c) && CallsFit(w, c);
    NothingUnderWay(w, c);
  }

  lemma NothingUnderWay(w: World, c: nat)
    requires NetOk(w) && c < |w.sys.clients| && !w.sys.clients[c].inFlight
    ensures !Rotating(w.sys, c) && forall t :: RefreshRequest(c, t) !in w.sys.net
  {
    forall m | m in w.sys.net ensures !IsRefreshOf(m, c) { assert MessageFits(w, m); }
    assert forall t :: IsRefreshOf(RefreshRequest(c, t), c) && IsRefreshOf(RefreshResponse(c, Some(t)), c);
  }

  predicate LosesRotation(e: Event, c: nat) { e.AnswerLost? && e.client == c && e.result.Some? }

  ghost predicate Occurred(events: seq<Timed>, which: Event -> bool) {
    exists k :: 0 <= k < |events| && which(events[k].event)
  }

  lemma OccurredEarlier(events: seq<Timed>, which: Event -> bool)
    requires events != []
    ensures Occurred(events, which) <==> Occurred(events[..|events| - 1], which) || which(events[|events| - 1].event)
  {
    var n := |events| - 1;
    if k :| 0 <= k < |events| && which(events[k].event) {
      if k < n { assert events[..n][k] == events[k]; }
    }
  }

  lemma CauseOfStep(w: World, e: Event, now: int, ttl: int, w': World, c: nat)
    requires WorldNext(w, e, now, ttl, w')
    ensures c in w'.stale && w'.stale[c] == LostAnswer
            ==> (c in w.stale && w.stale[c] == LostAnswer) || LosesRotation(e, c)
    ensures c in w'.stale && w'.stale[c] == Reloaded ==>
              (c in w.stale && w.stale[c] == Reloaded) || e == Reload(c) || exists o :: o in w.orphans && o.client == c
    ensures forall o :: o in w'.orphans && o.client == c ==> o in w.orphans || e == Reload(c)
  {
    match e
    case Protocol(_) => assert w'.orphans == w.orphans;
    case AnswerLost(_, _) => assert w'.orphans == w.orphans;
    case Reload(d) => CauseOfReload(w, d, w', c);
    case OrphanServed(d, token, out) => CauseOfOrphan(w, d, token, out, now, ttl, w');
  }

  lemma CauseOfOrphan(w: World, d: nat, token: nat, out: T.Outcome, now: int, ttl: int, w': World)
    requires OrphanStep(w, d, token, out, now, ttl, w')
    ensures Orphan(d, token) in w.orphans && forall o :: o in w'.orphans ==> o in w.orphans
    ensures w'.stale == w.stale || w'.stale == w.stale[d := Reloaded]
  {
  }

  lemma CauseOfReload(w: World, d: nat, w': World, c: nat)
    requires ReloadStep(w, d, w')
    ensures c in w'.stale && c != d ==> c in w.stale && w'.stale[c] == w.stale[c]
    ensures d in w'.stale ==> w'.stale[d] == Reloaded
    ensures forall o :: o in w'.orphans && o.client == c && c != d ==> o in w.orphans
  {
  }

  // No client goes stale, and no request outlives its page, without a loss or a reload.
  lemma {:induction false} StaleHasCause(events: seq<Timed>, ttl: int, w: World, c: nat)
    requires Reached(events, ttl, w)
    ensures c in w.stale && w.stale[c] == LostAnswer ==> Occurred(events, e => LosesRotation(e, c))
    ensures c in w.stale && w.stale[c] == Reloaded ==> Occurred(events, e => e == Reload(c))
    ensures forall o :: o in w.orphans && o.client == c ==> Occurred(events, e => e == Reload(c))
  {
    if events != [] {
      var n, last := |events| - 1, events[|events| - 1];
      var before :| Reached(events[..n], ttl, before) && WorldNext(before, last.event, last.now, ttl, w);
      StaleHasCause(events[..n], ttl, before, c);
      CauseOfStep(before, last.event, last.now, ttl, w, c);
      OccurredEarlier(events, e => LosesRotation(e, c));
      OccurredEarlier(events, e => e == Reload(c));
    }
  }

  // ---------------------------------------------------------------- losses a page survives

  // A 401 or a reload is handled only once settled calls have resumed, and no page is reloaded while
  // its refresh is under way. Answers may be lost at any time.
  predicate Orderly(w: World, e: Event) {
    match e
    case Protocol(a) =>
      a.Unauthorized? && a.client < |w.sys.clients| ==> Drained(w.sys.clients[a.client])
    case Reload(c) => c < |w.sys.clients| ==> Drained(w.sys.clients[c]) && !w.sys.clients[c].inFlight
    case _ => true
  }

  ghost predicate OrderlyTo(events: seq<Timed>, ttl: int, w: World) {
    if events == [] then Starts(w)
    else
      var last := events[|events| - 1];
      exists before ::
        && OrderlyTo(events[..|events| - 1], ttl, before)
        && Orderly(before, last.event) && WorldNext(before, last.event, last.now, ttl, w)
  }

  // No request has lost its page, and every token on its way to the service is un-revoked.
  ghost predicate OrderlyInv(w: World) {
    && WorldInv(w) && w.orphans == multiset{}
    && (forall c :: c in w.stale ==> w.stale[c] == LostAnswer)
    && (forall c, t :: RefreshRequest(c, t) in w.sys.net ==> LiveToken(w.sys.server, t))
  }

  lemma PresentsLive(w: World, c: nat)
    requires OrderlyInv(w) && c < |w.sys.clients| && Drained(w.sys.clients[c]) && Presented(w.sys.clients[c]).Some?
    ensures LiveToken(w.sys.server, Presented(w.sys.clients[c]).value)
  {
    assert StoreFits(w, c) && CallsFit(w, c);
    NothingUnderWay(w, c);
  }

  // Serving one request leaves the tokens of all others alone.
  lemma ServedKeepsOthers(w: World, a: Action, now: int, ttl: int, w': World, c: nat, t: nat)
    requires OrderlyInv(w) && ProtocolStep(w, a, now, ttl, w') && a.ServerRefresh? && !a.out.ReuseDetected?
    requires RefreshRequest(c, t) in w'.sys.net
    ensures LiveToken(w'.sys.server, t)
  {
    var req, other := RefreshRequest(a.client, a.token), RefreshRequest(c, t);
    RotatedTable(w.sys.server, a.token, now, ttl, w'.sys.server, a.out);
    assert MessageFits(w, req) && MessageFits(w, other) && Carries(req, a.token) && Carries(other, t);
    assert req != other ==> Apart(req, other);
  }

  lemma RequestIsOld(w: World, e: Event, now: int, ttl: int, w': World, c: nat, t: nat)
    requires WorldNext(w, e, now, ttl, w') && RefreshRequest(c, t) in w'.sys.net
    ensures RefreshRequest(c, t) in w.sys.net
            || (e.Protocol? && e.action.Unauthorized? && e.action.client == c && c < |w.sys.clients|
                && Presented(w.sys.clients[c]) == Some(t))
  {
  }

  lemma TableGrows(w: World, e: Event, now: int, ttl: int, w': World)
    requires w.orphans == multiset{} && WorldNext(w, e, now, ttl, w') && !(e.Protocol? && e.action.ServerRefresh?)
    ensures w.sys.server <= w'.sys.server
  {
  }

  lemma OrderlyNet(w: World, e: Event, now: int, ttl: int, w': World, c: nat, t: nat)
    requires OrderlyInv(w) && Orderly(w, e) && WorldNext(w, e, now, ttl, w') && !Reuses(e)
    requires RefreshRequest(c, t) in w'.sys.net
    ensures LiveToken(w'.sys.server, t)
  {
    if e.Protocol? && e.action.ServerRefresh? {
      ServedKeepsOthers(w, e.action, now, ttl, w', c, t);
    } else {
      RequestIsOld(w, e, now, ttl, w', c, t);
      TableGrows(w, e, now, ttl, w');
      if RefreshRequest(c, t) !in w.sys.net { PresentsLive(w, c); }
    }
  }

  lemma OrderlyMeetsNoReuse(w: World, e: Event, now: int, ttl: int, w': World)
    requires OrderlyInv(w) && WorldNext(w, e, now, ttl, w')
    ensures !Reuses(e)
  {
    if e.Protocol? && e.action.ServerRefresh? { assert LiveToken(w.sys.server, e.action.token); }
  }

  lemma OrderlyReload(w: World, c: nat, w': World)
    requires OrderlyInv(w) && Orderly(w, Reload(c)) && ReloadStep(w, c, w')
    ensures w'.orphans == multiset{} && w'.stale == w.stale
  {
    NothingUnderWay(w, c);
    assert CallsFit(w, c);
    assert forall o :: w'.orphans[o] == 0;
  }

  lemma OrderlyStale(w: World, e: Event, now: int, ttl: int, w': World)
    requires OrderlyInv(w) && Orderly(w, e) && WorldNext(w, e, now, ttl, w')
    ensures w'.orphans == multiset{} && forall c :: c in w'.stale ==> w'.stale[c] == LostAnswer
  {
    if e.Reload? { OrderlyReload(w, e.client, w'); }
  }

  lemma OrderlyStep(w: World, e: Event, now: int, ttl: int, w': World)
    requires OrderlyInv(w) && Orderly(w, e) && WorldNext(w, e, now, ttl, w')
    ensures !Reuses(e) && OrderlyInv(w')
  {
    OrderlyMeetsNoReuse(w, e, now, ttl, w');
    StepKeepsInv(w, e, now, ttl, w');
    OrderlyStale(w, e, now, ttl, w');
    forall c, t | RefreshRequest(c, t) in w'.sys.net ensures LiveToken(w'.sys.server, t) {
      OrderlyNet(w, e, now, ttl, w', c, t);
    }
  }

  lemma NoReuseExtends(events: seq<Timed>)
    requires events != [] && NoReuse(events[..|events| - 1]) && !Reuses(events[|events| - 1].event)
    ensures NoReuse(events)
  {
    forall k | 0 <= k < |events| ensures !Reuses(events[k].event) {
      if k < |events| - 1 { assert events[..|events| - 1][k] == events[k]; }
    }
  }

  lemma ReachedExtends(events: seq<Timed>, ttl: int, before: World, w: World)
    requires events != [] && Reached(events[..|events| - 1], ttl, before)
    requires WorldNext(before, events[|events| - 1].event, events[|events| - 1].now, ttl, w)
    ensures Reached(events, ttl, w)
  {
  }

  // Lost answers alone do no harm: as long as a page resumes its settled calls before it handles the
  // next 401, and is not reloaded in the middle of a refresh, the service never takes the re-use
  // branch and every token presented is un-revoked.
  lemma {:induction false} OrderlyNeverReuses(events: seq<Timed>, ttl: int, w: World)
    requires OrderlyTo(events, ttl, w)
    ensures NoReuse(events) && Reached(events, ttl, w) && OrderlyInv(w)
  {
    if events != [] {
      var n, last := |events| - 1, events[|events| - 1];
      var before :|
        OrderlyTo(events[..n], ttl, before) && Orderly(before, last.event)
          && WorldNext(before, last.event, last.now, ttl, w);
      OrderlyNeverReuses(events[..n], ttl, before);
      OrderlyStep(before, last.event, last.now, ttl, w);
      NoReuseExtends(events);
      ReachedExtends(events, ttl, before, w);
    } else {
      assert w.sys.net == multiset{};
    }
  }

  // ---------------------------------------------------------------- and those it does not

  const USER := 5
  const TTL := 100

  // A signed-in page with two calls out, and the table its one token is in.
  const SIGNED_IN := Client(Some(0), Some(0), None, false, map[7 := Sent, 8 := Sent])
  const FIRST := [T.Row(USER, 0, TTL, None, None)]
  const SECOND := [T.Row(USER, 0, TTL, Some(1), Some(1)), T.Row(USER, 1, TTL + 1, None, None)]

  lemma Extend(events: seq<Timed>, w: World, e: Event, now: int, w': World)
    requires Reached(events, TTL, w) && NoReuse(events) && WorldNext(w, e, now, TTL, w')
    ensures Reached(events + [Timed(e, now)], TTL, w')
    ensures !Reuses(e) ==> NoReuse(events + [Timed(e, now)])
  {
    var more := events + [Timed(e, now)];
    assert more[..|more| - 1] == events && more[|more| - 1] == Timed(e, now);
    ReachedExtends(more, TTL, w, w');
    if !Reuses(e) { NoReuseExtends(more); }
  }

  const SIGN_IN := [Timed(Protocol(ServerLogin(0, USER)), 0), Timed(Protocol(LoginDelivered(0, 0)), 0)]
  const TWO_CALLS := [Timed(Protocol(Start(0, 7)), 0), Timed(Protocol(Start(0, 8)), 0)]
  const ROTATION := [Timed(Protocol(Unauthorized(0, 7)), 1), Timed(Protocol(ServerRefresh(0, 0, T.Rotated(1))), 1)]

  lemma ExtendTwo(events: seq<Timed>, w: World, e: Timed, w1: World, f: Timed, w2: World)
    requires Reached(events, TTL, w) && NoReuse(events) && !Reuses(e.event)
    requires WorldNext(w, e.event, e.now, TTL, w1) && WorldNext(w1, f.event, f.now, TTL, w2)
    ensures Reached(events + [e, f], TTL, w2) && (!Reuses(f.event) ==> NoReuse(events + [e, f]))
    ensures NoReuse(events + [e])
  {
    Pair(events, e, f);
    Extend(events, w, e.event, e.now, w1);
    Extend(events + [e], w1, f.event, f.now, w2);
  }

  lemma Pair(events: seq<Timed>, e: Timed, f: Timed)
    ensures events + [e] + [f] == events + [e, f]
  {
  }

  lemma SignIn() returns (w: World)
    ensures Reached(SIGN_IN, TTL, w) && NoReuse(SIGN_IN)
    ensures w == World(System(FIRST, [IDLE], multiset{}), multiset{}, [0], {0}, map[], map[])
  {
    var w0 := World(System([], [NEW_CLIENT], multiset{}), multiset{}, [], {}, map[], map[]);
    var m := LoginResponse(0, 0);
    var w1 := World(System(FIRST, [NEW_CLIENT], multiset{m}), multiset{}, [0], {}, map[], map[]);
    assert w0.stored + TokensOf(NEW_CLIENT) == {} && w0.owner + [0] == [0] && Send(multiset{}, m) == multiset{m};
    w := World(System(FIRST, [IDLE], multiset{}), multiset{}, [0], {0}, map[], map[]);
    assert Receive(multiset{m}, m) == multiset{} && w1.stale - {0} == w1.stale && {} + {0} == {0};
    assert [NEW_CLIENT][0 := IDLE] == [IDLE];
    assert Reached([], TTL, w0);
    ExtendTwo([], w0, SIGN_IN[0], w1, SIGN_IN[1], w);
    assert [] + [SIGN_IN[0], SIGN_IN[1]] == SIGN_IN;
  }

  lemma StartTwo() returns (w: World)
    ensures Reached(SIGN_IN + TWO_CALLS, TTL, w) && NoReuse(SIGN_IN + TWO_CALLS)
    ensures w == World(System(FIRST, [SIGNED_IN], multiset{}), multiset{}, [0], {0}, map[], map[])
  {
    var w0 := SignIn();
    var c1 := SIGNED_IN.(calls := map[7 := Sent]);
    var w1 := w0.(sys := w0.sys.(clients := [c1]));
    w := w0.(sys := w0.sys.(clients := [SIGNED_IN]));
    StartsCall(w0, w1, IDLE, c1, 7);
    StartsCall(w1, w, c1, SIGNED_IN, 8);
    ExtendTwo(SIGN_IN, w0, TWO_CALLS[0], w1, TWO_CALLS[1], w);
    assert [TWO_CALLS[0], TWO_CALLS[1]] == TWO_CALLS;
  }

  lemma StartsCall(w: World, w': World, c: Client, c': Client, call: nat)
    requires w.sys.clients == [c] && c.refresh == Some(0) && w.stored == {0} && call !in c.calls
    requires c' == c.(calls := c.calls[call := Sent]) && w' == w.(sys := w.sys.(clients := [c']))
    ensures WorldNext(w, Protocol(Start(0, call)), 0, TTL, w')
  {
    assert [c][0 := c'] == [c'] && {0} + {0} == {0};
  }

  const IDLE := Client(Some(0), Some(0), None, false, map[])
  const WAITING := Client(Some(0), Some(0), None, true, map[7 := Waiting, 8 := Sent])
  const COMMON := SIGN_IN + TWO_CALLS + ROTATION

  lemma FirstRotation()
    ensures T.RefreshStep(FIRST, 0, 1, TTL, SECOND, T.Rotated(1))
  {
    var issued := T.Issue(FIRST, USER, 1, TTL);
    assert T.IsOtherLive(issued, USER, 0, 1);
    assert T.IsLatestOther(issued, USER, 0, Some(1)) && SECOND == T.CloseRow(issued, 0, 1, Some(1));
  }

  // The world once the first call presented the token.
  function FirstAsks(): World {
    World(System(FIRST, [WAITING], multiset{RefreshRequest(0, 0)}), multiset{}, [0], {0}, map[0 := 0], map[])
  }

  lemma FirstCallAsks(w: World)
    requires w == World(System(FIRST, [SIGNED_IN], multiset{}), multiset{}, [0], {0}, map[], map[])
    ensures WorldNext(w, ROTATION[0].event, 1, TTL, FirstAsks())
  {
    assert [SIGNED_IN][0 := WAITING] == [WAITING] && SIGNED_IN.calls[7 := Waiting] == WAITING.calls;
    assert {0} + {0} == {0} && Send(multiset{}, RefreshRequest(0, 0)) == multiset{RefreshRequest(0, 0)};
  }

  lemma FirstCallIsAnswered(w: World)
    requires w == Rotated(WAITING, multiset{RefreshResponse(0, Some(1))}, map[])
    ensures WorldNext(FirstAsks(), ROTATION[1].event, 1, TTL, w)
  {
    var req, resp := RefreshRequest(0, 0), RefreshResponse(0, Some(1));
    FirstRotation();
    assert Send(Receive(multiset{req}, req), resp) == multiset{resp} && [0] + [0] == [0, 0];
  }

  // The first call gets a 401, and the service rotates the token.
  lemma RotateOnce() returns (w: World)
    ensures Reached(COMMON, TTL, w) && NoReuse(COMMON)
    ensures w == Rotated(WAITING, multiset{RefreshResponse(0, Some(1))}, map[])
  {
    var w0 := StartTwo();
    w := Rotated(WAITING, multiset{RefreshResponse(0, Some(1))}, map[]);
    FirstCallAsks(w0);
    FirstCallIsAnswered(w);
    ExtendTwo(SIGN_IN + TWO_CALLS, w0, ROTATION[0], FirstAsks(), ROTATION[1], w);
    assert [ROTATION[0], ROTATION[1]] == ROTATION;
  }

  const REUSE := Timed(Protocol(ServerRefresh(0, 0, T.ReuseDetected)), 2)

  // Once token 0 is rotated, a request that presents it again meets the re-use branch.
  lemma SecondUse(events: seq<Timed>, w: World, w1: World, e: Timed)
    requires Reached(events, TTL, w) && NoReuse(events) && !Reuses(e.event) && WorldNext(w, e.event, e.now, TTL, w1)
    requires w1.sys.server == SECOND && |w1.sys.clients| == 1 && RefreshRequest(0, 0) in w1.sys.net && |w1.owner| == 2
    requires w1.sys.clients[0].refresh == Some(0) && 0 in w1.stored
    ensures exists w2 :: Reached(events + [e, REUSE], TTL, w2)
    ensures NoReuse(events + [e]) && Reuses(REUSE.event)
  {
    var server := T.RevokeUser(SECOND, USER, 2);
    assert T.RefreshStep(SECOND, 0, 2, TTL, server, T.ReuseDetected);
    var sys := w1.sys.(server := server,
                       net := Send(Receive(w1.sys.net, RefreshRequest(0, 0)), Answer(0, T.ReuseDetected)));
    var w2 := Observed(w1, REUSE.event.action, sys);
    assert ProtocolStep(w1, REUSE.event.action, 2, TTL, w2);
    ExtendTwo(events, w, e, w1, REUSE, w2);
  }

  // The page once the answer to its rotation is lost.
  const SETTLED := Client(Some(0), Some(0), None, false, map[7 := Settled(None), 8 := Sent])

  function Rotated(client: Client, net: multiset<Message>, stale: map<nat, Cause>): World {
    World(System(SECOND, [client], net), multiset{}, [0, 0], {0}, map[0 := 0], stale)
  }

  lemma LosesAnswer()
    ensures var resp := RefreshResponse(0, Some(1));
            WorldNext(Rotated(WAITING, multiset{resp}, map[]), AnswerLost(0, Some(1)), 2, TTL,
                      Rotated(SETTLED, multiset{}, map[0 := LostAnswer]))
  {
    assert Settle(WAITING.calls, None) == SETTLED.calls && [WAITING][0 := SETTLED] == [SETTLED];
    assert Receive(multiset{RefreshResponse(0, Some(1))}, RefreshResponse(0, Some(1))) == multiset{};
  }

  function Asking(page: Client, call: nat): Client {
    page.(inFlight := true, calls := page.calls[call := Waiting])
  }

  lemma PresentsAgain(page: Client, call: nat, stale: map<nat, Cause>)
    requires page.refresh == Some(0) && !page.inFlight && call in page.calls && page.calls[call] == Sent
    ensures WorldNext(Rotated(page, multiset{}, stale), Protocol(Unauthorized(0, call)), 2, TTL,
                      Rotated(Asking(page, call), multiset{RefreshRequest(0, 0)}, stale))
  {
    assert [page][0 := Asking(page, call)] == [Asking(page, call)] && {0} + {0} == {0};
    assert Send(multiset{}, RefreshRequest(0, 0)) == multiset{RefreshRequest(0, 0)};
  }

  // Then the service meets the re-use branch.
  lemma PresentsInVain(events: seq<Timed>, page: Client, call: nat, stale: map<nat, Cause>)
    requires Reached(events, TTL, Rotated(page, multiset{}, stale)) && NoReuse(events)
    requires page.refresh == Some(0) && !page.inFlight && call in page.calls && page.calls[call] == Sent
    ensures var e := Timed(Protocol(Unauthorized(0, call)), 2);
            NoReuse(events + [e]) && exists w :: Reached(events + [e, REUSE], TTL, w)
  {
    PresentsAgain(page, call, stale);
    var w := Rotated(Asking(page, call), multiset{RefreshRequest(0, 0)}, stale);
    SecondUse(events, Rotated(page, multiset{}, stale), w, Timed(Protocol(Unauthorized(0, call)), 2));
  }

  const LOSS := Timed(AnswerLost(0, Some(1)), 2)
  const HASTY := Timed(Protocol(Unauthorized(0, 8)), 2)

  lemma AnswerIsLost() returns (w: World)
    ensures Reached(COMMON + [LOSS], TTL, w) && NoReuse(COMMON + [LOSS])
    ensures w == Rotated(SETTLED, multiset{}, map[0 := LostAnswer])
  {
    var w0 := RotateOnce();
    w := Rotated(SETTLED, multiset{}, map[0 := LostAnswer]);
    LosesAnswer();
    Extend(COMMON, w0, LOSS.event, 2, w);
  }

  // The answer to a rotation is lost, and the second 401 is handled before the first call resumes.
  lemma HastyCallIsReuse()
    ensures NoReuse(COMMON + [LOSS] + [HASTY])
    ensures exists w :: Reached(COMMON + [LOSS] + [HASTY, REUSE], TTL, w)
  {
    var w := AnswerIsLost();
    PresentsInVain(COMMON + [LOSS], SETTLED, 8, map[0 := LostAnswer]);
  }

  const RELOAD := Timed(Reload(0), 2)
  const NEXT_CALL := Timed(Protocol(Start(0, 9)), 2)
  const NEXT_401 := Timed(Protocol(Unauthorized(0, 9)), 2)

  const CALLED := Client(Some(0), Some(0), None, false, map[9 := Sent])

  lemma Reloads()
    ensures WorldNext(Rotated(WAITING, multiset{RefreshResponse(0, Some(1))}, map[]), Reload(0), 2, TTL,
                      Rotated(IDLE, multiset{}, map[0 := Reloaded]))
    ensures WorldNext(Rotated(IDLE, multiset{}, map[0 := Reloaded]), Protocol(Start(0, 9)), 2, TTL,
                      Rotated(CALLED, multiset{}, map[0 := Reloaded]))
  {
    var w := Rotated(WAITING, multiset{RefreshResponse(0, Some(1))}, map[]);
    assert [WAITING][0 := Fresh(WAITING)] == [IDLE];
    assert RefreshResponse(0, Some(1)) in w.sys.net && Rotating(w.sys, 0);
    assert [IDLE][0 := CALLED] == [CALLED] && {0} + {0} == {0} && IDLE.calls[9 := Sent] == CALLED.calls;
  }

  // The page is reloaded while the answer is on its way, and its first call gets a 401.
  lemma ReloadIsReuse()
    ensures NoReuse(COMMON + [RELOAD, NEXT_CALL] + [NEXT_401])
    ensures exists w :: Reached(COMMON + [RELOAD, NEXT_CALL] + [NEXT_401, REUSE], TTL, w)
  {
    var w0 := RotateOnce();
    var w2 := Rotated(CALLED, multiset{}, map[0 := Reloaded]);
    Reloads();
    ExtendTwo(COMMON, w0, RELOAD, Rotated(IDLE, multiset{}, map[0 := Reloaded]), NEXT_CALL, w2);
    PresentsInVain(COMMON + [RELOAD, NEXT_CALL], CALLED, 9, map[0 := Reloaded]);
  }
}
