/**
 * The refresh protocol between web clients and the authentication service: any number of clients
 * (one script realm each), any number of concurrent API calls per client, logins and local logouts,
 * interleaved arbitrarily over a network that reorders messages.
 *
 * Between two suspension points a client runs without interruption; each such stretch of the source
 * is one function below. The access and the refresh token of one issue carry the same number.
 */
module RefreshProtocol {
  import opened Wrappers
  import opened RefreshTokens

  // ---------------------------------------------------------------- the client

  // Where one API call stands: its first request is out, it awaits the shared refresh, the refresh
  // it awaited has settled, its retry is out, or it is over. Calls carry fresh numbers.
  datatype Call = Sent | Waiting | Settled(result: Option<nat>) | Retrying(token: nat) | Over

  datatype Client = Client(
    access: Option<nat>,
    refresh: Option<nat>,
    principal: Option<string>,
    inFlight: bool,
    calls: map<nat, Call>
  )

  const NEW_CLIENT := Client(None, None, None, false, map[])

  function StartCall(c: Client, call: nat): Client {
    c.(calls := c.calls[call := Sent])
  }

  function LocalLogout(c: Client): Client {
    c.(access := None, refresh := None, principal := None)
  }

  function StoreTokens(c: Client, token: nat): Client {
    c.(access := Some(token), refresh := Some(token))
  }

  // The token a call that received a 401 presents to the service, if it is the one to refresh.
  function Presented(c: Client): Option<nat> {
    if c.inFlight then None else c.refresh
  }

  // A call receives a 401: join the refresh in flight, start one, or give up and log out.
  function OnUnauthorized(c: Client, call: nat): Client {
    if c.inFlight then c.(calls := c.calls[call := Waiting])
    else if c.refresh.Some? then c.(inFlight := true, calls := c.calls[call := Waiting])
    else LocalLogout(c.(calls := c.calls[call := Over]))
  }

  function Settle(calls: map<nat, Call>, result: Option<nat>): map<nat, Call> {
    map k | k in calls :: if calls[k] == Waiting then Settled(result) else calls[k]
  }

  // The response of the refresh in flight arrives: None stands for any response that is not OK.
  function OnRefreshResponse(c: Client, result: Option<nat>): Client {
    var c1 := if result.Some? then StoreTokens(c, result.value) else c;
    c1.(inFlight := false, calls := Settle(c.calls, result))
  }

  function OnResume(c: Client, call: nat): Client
    requires call in c.calls && c.calls[call].Settled?
  {
    match c.calls[call].result
    case Some(token) => c.(calls := c.calls[call := Retrying(token)])
    case None => LocalLogout(c.(calls := c.calls[call := Over]))
  }

  function OnFinalResponse(c: Client, call: nat): Client {
    c.(calls := c.calls[call := Over])
  }

  /** The module state of the API client together with the token store it reads and writes. */
  class ApiClient {
    var accessToken: Option<nat>
    var refreshToken: Option<nat>
    var principal: Option<string>
    var inFlightRefresh: bool
    var calls: map<nat, Call>

    function View(): Client
      reads this
    {
      Client(accessToken, refreshToken, principal, inFlightRefresh, calls)
    }

    constructor ()
      ensures View() == NEW_CLIENT
    {
      accessToken, refreshToken, principal, inFlightRefresh, calls := None, None, None, false, map[];
    }

    method SetTokens(access: nat, refresh: nat)
      modifies this
      ensures View() == old(View()).(access := Some(access), refresh := Some(refresh))
    {
      accessToken, refreshToken := Some(access), Some(refresh);
    }

    method SetPrincipal(p: string)
      modifies this
      ensures View() == old(View()).(principal := Some(p))
    {
      principal := Some(p);
    }

    method Logout()
      modifies this
      ensures accessToken == refreshToken == None && principal == None
      ensures inFlightRefresh == old(inFlightRefresh) && calls == old(calls)
    {
      accessToken, refreshToken, principal := None, None, None;
    }

    method BeginCall(call: nat)
      modifies this
      ensures View() == old(View()).(calls := old(calls)[call := Sent])
    {
      calls := calls[call := Sent];
    }

    // Up to the first suspension of a call that got a 401; `request` is the token put on the wire.
    method HandleUnauthorized(call: nat) returns (request: Option<nat>)
      modifies this
      ensures request == if old(inFlightRefresh) then None else old(refreshToken)
      ensures calls == old(calls)[call := if inFlightRefresh then Waiting else Over]
      ensures inFlightRefresh <==> old(inFlightRefresh) || request.Some?
      ensures if inFlightRefresh then
                accessToken == old(accessToken) && refreshToken == old(refreshToken) && principal == old(principal)
              else accessToken == refreshToken == None && principal == None
      ensures View() == OnUnauthorized(old(View()), call) && request == old(Presented(View()))
    {
      request := None;
      if inFlightRefresh {
        calls := calls[call := Waiting];
      } else if refreshToken.None? {
        calls := calls[call := Over];
        Logout();
      } else {
        request := refreshToken;
        inFlightRefresh := true;
        calls := calls[call := Waiting];
      }
    }

    method HandleRefreshResponse(result: Option<nat>)
      modifies this
      ensures !inFlightRefresh && principal == old(principal)
      ensures accessToken == (if result.Some? then result else old(accessToken))
      ensures refreshToken == (if result.Some? then result else old(refreshToken))
      ensures calls.Keys == old(calls).Keys
      ensures forall k :: k in calls ==> calls[k] == if old(calls)[k] == Waiting then Settled(result) else old(calls)[k]
      ensures View() == OnRefreshResponse(old(View()), result)
    {
      if result.Some? {
        SetTokens(result.value, result.value);
      }
      inFlightRefresh := false;
      calls := Settle(calls, result);
    }

    method Resume(call: nat)
      requires call in calls && calls[call].Settled?
      modifies this
      ensures old(calls)[call].result.Some? ==>
                View() == old(View()).(calls := old(calls)[call := Retrying(old(calls)[call].result.value)])
      ensures old(calls)[call].result.None? ==>
                && calls == old(calls)[call := Over] && inFlightRefresh == old(inFlightRefresh)
                && accessToken == refreshToken == None && principal == None
      ensures View() == OnResume(old(View()), call)
    {
      match calls[call].result {
        case Some(token) =>
          calls := calls[call := Retrying(token)];
        case None =>
          calls := calls[call := Over];
          Logout();
      }
    }
  }

  // ---------------------------------------------------------------- the distributed system

  datatype Message =
    | RefreshRequest(client: nat, token: nat)
    | RefreshResponse(client: nat, result: Option<nat>)
    | LoginResponse(client: nat, token: nat)

  datatype System = System(server: Table, clients: seq<Client>, net: multiset<Message>)

  datatype Action =
    | Start(client: nat, call: nat)
    | Unauthorized(client: nat, call: nat)
    | Resumed(client: nat, call: nat)
    | Finished(client: nat, call: nat)
    | LoggedOut(client: nat)
    | ServerLogin(client: nat, user: nat)
    | LoginDelivered(client: nat, token: nat)
    | ServerRefresh(client: nat, token: nat, out: Outcome)
    | RequestLost(client: nat, token: nat)
    | ResponseDelivered(client: nat, result: Option<nat>)

  function Send(net: multiset<Message>, m: Message): multiset<Message> { net + multiset{m} }
  function Receive(net: multiset<Message>, m: Message): multiset<Message> { net - multiset{m} }

  function Answer(client: nat, out: Outcome): Message {
    RefreshResponse(client, if out.Rotated? then Some(out.token) else None)
  }

  function SetClient(s: System, c: nat, client: Client): System
    requires c < |s.clients|
  {
    s.(clients := s.clients[c := client])
  }

  // One step of the system. `now` is the server's clock; every other choice is in the action.
  ghost predicate Next(s: System, a: Action, now: int, ttl: int, s': System) {
    && a.client < |s.clients|
    && var c := s.clients[a.client];
       match a
       case Start(_, call) => call !in c.calls && s' == SetClient(s, a.client, StartCall(c, call))
       case Unauthorized(_, call) =>
         && call in c.calls && c.calls[call] == Sent
         && var s1 := SetClient(s, a.client, OnUnauthorized(c, call));
            s' == if Presented(c).Some?
                  then s1.(net := Send(s.net, RefreshRequest(a.client, Presented(c).value)))
                  else s1
       case Resumed(_, call) =>
         call in c.calls && c.calls[call].Settled? && s' == SetClient(s, a.client, OnResume(c, call))
       case Finished(_, call) =>
         && call in c.calls && (c.calls[call].Sent? || c.calls[call].Retrying?)
         && s' == SetClient(s, a.client, OnFinalResponse(c, call))
       case LoggedOut(_) => s' == SetClient(s, a.client, LocalLogout(c))
       case ServerLogin(_, user) =>
         s' == s.(server := Issue(s.server, user, now, ttl), net := Send(s.net, LoginResponse(a.client, |s.server|)))
       case LoginDelivered(_, token) =>
         && LoginResponse(a.client, token) in s.net
         && s' == SetClient(s, a.client, StoreTokens(c, token)).(net := Receive(s.net, LoginResponse(a.client, token)))
       case ServerRefresh(_, token, out) =>
         && RefreshRequest(a.client, token) in s.net
         && RefreshStep(s.server, token, now, ttl, s'.server, out)
         && s'.clients == s.clients
         && s'.net == Send(Receive(s.net, RefreshRequest(a.client, token)), Answer(a.client, out))
       case RequestLost(_, token) =>
         && RefreshRequest(a.client, token) in s.net
         && s' == SetClient(s, a.client, OnRefreshResponse(c, None))
               .(net := Receive(s.net, RefreshRequest(a.client, token)))
       case ResponseDelivered(_, result) =>
         && RefreshResponse(a.client, result) in s.net
         && s' == SetClient(s, a.client, OnRefreshResponse(c, result))
               .(net := Receive(s.net, RefreshResponse(a.client, result)))
  }

  ghost predicate Init(s: System) {
    s.server == [] && s.net == multiset{} && forall c :: 0 <= c < |s.clients| ==> s.clients[c] == NEW_CLIENT
  }

  ghost predicate IsRun(run: seq<System>, actions: seq<Action>, times: seq<int>, ttl: int) {
    && |run| == |actions| + 1 && |times| == |actions| && Init(run[0])
    && forall k :: 0 <= k < |actions| ==> Next(run[k], actions[k], times[k], ttl, run[k + 1])
  }

  // ---------------------------------------------------------------- the invariant

  predicate IsRefreshOf(m: Message, c: nat) {
    m.client == c && !m.LoginResponse?
  }

  predicate Carries(m: Message, token: nat) {
    match m
    case RefreshRequest(_, t) => t == token
    case RefreshResponse(_, r) => r == Some(token)
    case LoginResponse(_, t) => t == token
  }

  predicate LiveToken(t: Table, token: nat) { token < |t| && t[token].Live() }

  // Every message is unique, carries a token that is still un-revoked, and belongs, if it is part of
  // a refresh, to a client that knows it has one in flight.
  ghost predicate MessageOk(s: System, m: Message) {
    && s.net[m] == 1
    && m.client < |s.clients|
    && (forall token :: Carries(m, token) ==> LiveToken(s.server, token))
    && (IsRefreshOf(m, m.client) ==> s.clients[m.client].inFlight)
  }

  // Distinct messages carry distinct tokens and belong to refreshes of distinct clients.
  ghost predicate PairOk(m: Message, m': Message) {
    && (forall token :: Carries(m, token) ==> !Carries(m', token))
    && !(IsRefreshOf(m, m.client) && IsRefreshOf(m', m.client))
  }

  // The token of a new session is on its way to the client.
  ghost predicate Rotating(s: System, c: nat) {
    exists token :: RefreshResponse(c, Some(token)) in s.net
  }

  // A stored refresh token is un-revoked, unless its replacement is on its way; no message carries
  // it but this client's own refresh request.
  ghost predicate StoreOk(s: System, c: nat)
    requires c < |s.clients|
  {
    s.clients[c].refresh.Some? ==>
      var token := s.clients[c].refresh.value;
      && token < |s.server|
      && (LiveToken(s.server, token) || Rotating(s, c))
      && forall m :: m in s.net && Carries(m, token) ==> m == RefreshRequest(c, token)
  }

  ghost predicate Unshared(s: System, c: nat, c': nat)
    requires c < |s.clients| && c' < |s.clients|
  {
    s.clients[c].refresh.Some? ==> s.clients[c].refresh != s.clients[c'].refresh
  }

  ghost predicate Inv(s: System) {
    && (forall m :: m in s.net ==> MessageOk(s, m))
    && (forall m, m' :: m in s.net && m' in s.net && m != m' ==> PairOk(m, m'))
    && (forall c: nat :: c < |s.clients| ==> StoreOk(s, c))
    && (forall c: nat, c': nat :: c < |s.clients| && c' < |s.clients| && c != c' ==> Unshared(s, c, c'))
  }

  // A step of one client that touches neither the network nor the service.
  lemma QuietKeepsInv(s: System, c: nat, client: Client)
    requires Inv(s) && c < |s.clients| && client.inFlight == s.clients[c].inFlight
    requires client.refresh == s.clients[c].refresh || client.refresh == None
    ensures Inv(SetClient(s, c, client))
  {
    var s' := SetClient(s, c, client);
    forall m | m in s'.net ensures MessageOk(s', m) { assert MessageOk(s, m); }
    forall d: nat | d < |s'.clients| ensures StoreOk(s', d) { assert StoreOk(s, d); }
    forall d: nat, e: nat | d < |s'.clients| && e < |s'.clients| && d != e ensures Unshared(s', d, e) {
      assert Unshared(s, d, e);
    }
  }

  lemma PresentKeepsInv(s: System, c: nat, call: nat)
    requires Inv(s) && c < |s.clients| && Presented(s.clients[c]).Some?
    ensures Inv(SetClient(s, c, OnUnauthorized(s.clients[c], call))
                .(net := Send(s.net, RefreshRequest(c, Presented(s.clients[c]).value))))
  {
    var token := s.clients[c].refresh.value;
    var req := RefreshRequest(c, token);
    var s' := SetClient(s, c, OnUnauthorized(s.clients[c], call)).(net := Send(s.net, req));
    assert StoreOk(s, c);
    forall m | m in s.net ensures !IsRefreshOf(m, c) && !Carries(m, token) { assert MessageOk(s, m); }
    forall m | m in s'.net ensures MessageOk(s', m) {
      if m != req { assert MessageOk(s, m); }
    }
    forall m, m' | m in s'.net && m' in s'.net && m != m' ensures PairOk(m, m') {
      if m != req && m' != req { assert PairOk(m, m'); }
    }
    forall d: nat | d < |s'.clients| ensures StoreOk(s', d) {
      assert StoreOk(s, d);
      assert d != c ==> Unshared(s, d, c);
      assert Rotating(s, d) ==> Rotating(s', d);
    }
    forall d: nat, e: nat | d < |s'.clients| && e < |s'.clients| && d != e ensures Unshared(s', d, e) {
      assert Unshared(s, d, e);
    }
  }

  // The service appends an un-revoked row and sends its token in message m.
  lemma LoginKeepsInv(s: System, c: nat, row: Row)
    requires Inv(s) && c < |s.clients| && row.Live()
    ensures Inv(s.(server := s.server + [row], net := Send(s.net, LoginResponse(c, |s.server|))))
  {
    var m0 := LoginResponse(c, |s.server|);
    var s' := s.(server := s.server + [row], net := Send(s.net, m0));
    assert Carries(m0, |s.server|);
    forall m | m in s.net ensures m != m0 && MessageOk(s', m) && PairOk(m, m0) && PairOk(m0, m) {
      assert MessageOk(s, m);
      assert !Carries(m, |s.server|);
    }
    forall m, m' | m in s'.net && m' in s'.net && m != m' ensures PairOk(m, m') {
      if m != m0 && m' != m0 { assert PairOk(m, m'); }
    }
    forall d: nat | d < |s'.clients| ensures StoreOk(s', d) {
      assert StoreOk(s, d);
      assert Rotating(s, d) ==> Rotating(s', d);
    }
    forall d: nat, e: nat | d < |s'.clients| && e < |s'.clients| && d != e ensures Unshared(s', d, e) {
      assert Unshared(s, d, e);
    }
  }

  // A message leaves the network and the token it may carry enters the store of its client.
  lemma DeliveryKeepsInv(s: System, m0: Message, client: Client)
    requires Inv(s) && m0 in s.net && m0.client < |s.clients|
    requires client.inFlight == (s.clients[m0.client].inFlight && m0.LoginResponse?)
    requires if m0.RefreshRequest? || m0 == RefreshResponse(m0.client, None)
             then client.refresh == s.clients[m0.client].refresh
             else client.refresh.Some? && Carries(m0, client.refresh.value)
    ensures Inv(SetClient(s, m0.client, client).(net := Receive(s.net, m0)))
  {
    var c := m0.client;
    var s' := SetClient(s, c, client).(net := Receive(s.net, m0));
    assert MessageOk(s, m0) && StoreOk(s, c);
    forall m | m in s'.net ensures MessageOk(s', m) && m != m0 { assert MessageOk(s, m) && PairOk(m, m0); }
    forall m, m' | m in s'.net && m' in s'.net && m != m' ensures PairOk(m, m') { assert PairOk(m, m'); }
    forall d: nat | d < |s'.clients| ensures StoreOk(s', d) {
      assert StoreOk(s, d);
      if Rotating(s, d) && !Rotating(s', d) { RotatingAfter(s, m0, d); }
      forall m | m in s'.net ensures PairOk(m, m0) {}
    }
    forall d: nat, e: nat | d < |s'.clients| && e < |s'.clients| && d != e ensures Unshared(s', d, e) {
      assert Unshared(s, d, e) && StoreOk(s, d) && StoreOk(s, e);
    }
  }

  // Only delivery of the response that announces a rotation ends it.
  lemma RotatingAfter(s: System, m0: Message, d: nat)
    requires Inv(s) && m0 in s.net && Rotating(s, d)
    requires !Rotating(s.(net := Receive(s.net, m0)), d)
    ensures m0.client == d && m0.RefreshResponse? && m0.result.Some?
  {
    var token :| RefreshResponse(d, Some(token)) in s.net;
    assert m0 == RefreshResponse(d, Some(token)) || RefreshResponse(d, Some(token)) in Receive(s.net, m0);
  }

  // The service answers a refresh request without touching the table.
  lemma RefusalKeepsInv(s: System, c: nat, token: nat)
    requires Inv(s) && RefreshRequest(c, token) in s.net
    ensures Inv(s.(net := Send(Receive(s.net, RefreshRequest(c, token)), RefreshResponse(c, None))))
  {
    var req, resp := RefreshRequest(c, token), RefreshResponse(c, None);
    var s' := s.(net := Send(Receive(s.net, req), resp));
    AnswerPairs(s, req, resp);
    forall d: nat | d < |s'.clients| ensures StoreOk(s', d) {
      assert StoreOk(s, d);
      if Rotating(s, d) {
        var t :| RefreshResponse(d, Some(t)) in s.net;
        assert RefreshResponse(d, Some(t)) in s'.net;
      }
    }
    forall d: nat, e: nat | d < |s'.clients| && e < |s'.clients| && d != e ensures Unshared(s', d, e) {
      assert Unshared(s, d, e);
    }
  }

  // The service rotates a token: its row is closed, a new row appended and announced.
  lemma RotationKeepsInv(s: System, c: nat, token: nat, server: Table)
    requires Inv(s) && RefreshRequest(c, token) in s.net
    requires |server| == |s.server| + 1 && LiveToken(server, |s.server|)
    requires forall t: nat :: t < |s.server| && t != token ==> server[t] == s.server[t]
    ensures Inv(s.(server := server,
                   net := Send(Receive(s.net, RefreshRequest(c, token)), RefreshResponse(c, Some(|s.server|)))))
  {
    var req, resp := RefreshRequest(c, token), RefreshResponse(c, Some(|s.server|));
    var s' := s.(server := server, net := Send(Receive(s.net, req), resp));
    AnswerPairs(s, req, resp);
    forall d: nat | d < |s'.clients| ensures StoreOk(s', d) { RotationKeepsStore(s, c, token, server, d); }
    forall d: nat, e: nat | d < |s'.clients| && e < |s'.clients| && d != e ensures Unshared(s', d, e) {
      assert Unshared(s, d, e);
    }
  }

  lemma RotationKeepsStore(s: System, c: nat, token: nat, server: Table, d: nat)
    requires Inv(s) && RefreshRequest(c, token) in s.net && d < |s.clients|
    requires |server| == |s.server| + 1 && forall t: nat :: t < |s.server| && t != token ==> server[t] == s.server[t]
    ensures StoreOk(s.(server := server,
                       net := Send(Receive(s.net, RefreshRequest(c, token)), RefreshResponse(c, Some(|s.server|)))), d)
  {
    var req, resp := RefreshRequest(c, token), RefreshResponse(c, Some(|s.server|));
    var net := Send(Receive(s.net, req), resp);
    assert StoreOk(s, d);
    if d == c {
      assert resp in net;
    } else if Rotating(s, d) {
      var t :| RefreshResponse(d, Some(t)) in s.net;
      assert RefreshResponse(d, Some(t)) in net;
    }
  }

  // Replacing a request by its answer leaves all messages unique and pairwise distinct.
  lemma AnswerPairs(s: System, req: Message, resp: Message)
    requires Inv(s) && req in s.net && req.RefreshRequest? && resp.RefreshResponse? && resp.client == req.client
    requires resp.result.Some? ==> resp.result.value >= |s.server|
    ensures var net := Send(Receive(s.net, req), resp);
            && (forall m :: m in net ==> net[m] == 1 && m != req && (m == resp || (m in s.net && PairOk(m, req))))
            && (forall m, m' :: m in net && m' in net && m != m' ==> PairOk(m, m'))
  {
    var net := Send(Receive(s.net, req), resp);
    assert MessageOk(s, req) && IsRefreshOf(req, req.client);
    forall m | m in s.net && m != req ensures PairOk(m, req) && PairOk(m, resp) && PairOk(resp, m) && m != resp {
      assert MessageOk(s, m) && PairOk(m, req);
    }
    forall m | m in net ensures net[m] == 1 && m != req && (m == resp || m in s.net) {
      if m != resp { assert MessageOk(s, m); }
    }
    forall m, m' | m in net && m' in net && m != m' ensures PairOk(m, m') {
      if m != resp && m' != resp { assert m in s.net && m' in s.net; }
    }
  }

  lemma ServerRefreshKeepsInv(s: System, c: nat, token: nat, now: int, ttl: int, server: Table, out: Outcome)
    requires Inv(s) && RefreshRequest(c, token) in s.net && RefreshStep(s.server, token, now, ttl, server, out)
    ensures Inv(s.(server := server, net := Send(Receive(s.net, RefreshRequest(c, token)), Answer(c, out))))
  {
    PresentedIsLive(s, c, token);
    if out.Rotated? {
      RotationKeepsInv(s, c, token, server);
    } else {
      RefusalKeepsInv(s, c, token);
    }
  }

  predicate IsClientStep(a: Action) {
    a.Start? || a.Unauthorized? || a.Resumed? || a.Finished? || a.LoggedOut?
  }

  lemma ClientStepKeepsInv(s: System, a: Action, now: int, ttl: int, s': System)
    requires Inv(s) && Next(s, a, now, ttl, s') && IsClientStep(a)
    ensures Inv(s')
  {
    var c := s.clients[a.client];
    match a
    case Start(_, call) => QuietKeepsInv(s, a.client, StartCall(c, call));
    case Unauthorized(_, call) =>
      if Presented(c).Some? {
        PresentKeepsInv(s, a.client, call);
      } else {
        QuietKeepsInv(s, a.client, OnUnauthorized(c, call));
      }
    case Resumed(_, call) => QuietKeepsInv(s, a.client, OnResume(c, call));
    case Finished(_, call) => QuietKeepsInv(s, a.client, OnFinalResponse(c, call));
    case LoggedOut(_) => QuietKeepsInv(s, a.client, LocalLogout(c));
  }

  // The refresh of a client ends: with the answer, or without one when the request was lost.
  lemma RefreshEndKeepsInv(s: System, m: Message, result: Option<nat>)
    requires Inv(s) && m in s.net && m.client < |s.clients|
    requires m == RefreshResponse(m.client, result) || (m.RefreshRequest? && result == None)
    ensures Inv(SetClient(s, m.client, OnRefreshResponse(s.clients[m.client], result)).(net := Receive(s.net, m)))
  {
    DeliveryKeepsInv(s, m, OnRefreshResponse(s.clients[m.client], result));
  }

  lemma NextKeepsInv(s: System, a: Action, now: int, ttl: int, s': System)
    requires Inv(s) && Next(s, a, now, ttl, s')
    ensures Inv(s')
  {
    if IsClientStep(a) {
      ClientStepKeepsInv(s, a, now, ttl, s');
    } else {
      match a
      case ServerLogin(_, user) => LoginKeepsInv(s, a.client, Row(user, now, now + ttl, None, None));
      case LoginDelivered(_, token) =>
        DeliveryKeepsInv(s, LoginResponse(a.client, token), StoreTokens(s.clients[a.client], token));
      case ServerRefresh(_, token, out) => ServerRefreshKeepsInv(s, a.client, token, now, ttl, s'.server, out);
      case RequestLost(_, token) => RefreshEndKeepsInv(s, RefreshRequest(a.client, token), None);
      case ResponseDelivered(_, result) => RefreshEndKeepsInv(s, RefreshResponse(a.client, result), result);
    }
  }

  lemma PresentedIsLive(s: System, c: nat, token: nat)
    requires Inv(s) && RefreshRequest(c, token) in s.net
    ensures LiveToken(s.server, token)
  {
    assert MessageOk(s, RefreshRequest(c, token));
    assert Carries(RefreshRequest(c, token), token);
  }

  lemma {:induction false} RunKeepsInv(run: seq<System>, actions: seq<Action>, times: seq<int>, ttl: int, k: nat)
    requires IsRun(run, actions, times, ttl) && k < |run|
    ensures Inv(run[k])
  {
    if k > 0 {
      RunKeepsInv(run, actions, times, ttl, k - 1);
      NextKeepsInv(run[k - 1], actions[k - 1], times[k - 1], ttl, run[k]);
    }
  }

  // ---------------------------------------------------------------- safety over all interleavings

  // In every state of every run a client has at most one refresh under way, and the token it
  // presents is un-revoked.
  lemma SingleFlight(run: seq<System>, actions: seq<Action>, times: seq<int>, ttl: int, k: nat)
    requires IsRun(run, actions, times, ttl) && k < |run|
    ensures forall m, m' :: m in run[k].net && m' in run[k].net && m.client == m'.client
                            && IsRefreshOf(m, m.client) && IsRefreshOf(m', m.client)
              ==> m == m' && run[k].net[m] == 1
    ensures forall c, token :: RefreshRequest(c, token) in run[k].net ==> LiveToken(run[k].server, token)
  {
    RunKeepsInv(run, actions, times, ttl, k);
    var s := run[k];
    forall m, m' | m in s.net && m' in s.net && m.client == m'.client
                   && IsRefreshOf(m, m.client) && IsRefreshOf(m', m.client)
      ensures m == m' && s.net[m] == 1
    {
      assert MessageOk(s, m);
      assert m != m' ==> PairOk(m, m');
    }
    forall c, token | RefreshRequest(c, token) in s.net ensures LiveToken(s.server, token) {
      PresentedIsLive(s, c, token);
    }
  }

  // The service never takes the re-use branch, so no session is ever revoked by a refresh.
  lemma NeverReuse(run: seq<System>, actions: seq<Action>, times: seq<int>, ttl: int, k: nat)
    requires IsRun(run, actions, times, ttl) && k < |actions|
    ensures actions[k].ServerRefresh? ==> !actions[k].out.ReuseDetected? && !actions[k].out.NotFound?
    ensures forall t: nat :: LiveToken(run[k].server, t) && !LiveToken(run[k + 1].server, t)
              ==> actions[k].ServerRefresh? && actions[k].token == t && actions[k].out.Rotated?
  {
    SingleFlight(run, actions, times, ttl, k);
    assert Next(run[k], actions[k], times[k], ttl, run[k + 1]);
  }
  // ---------------------------------------------------------------- the life of a call

  predicate SignedOut(c: Client) { c.access == c.refresh == None && c.principal == None }

  // The one step that may follow, phase by phase: what happens to a call and what causes it.
  ghost predicate Moves(before: Client, after: Client, call: nat, a: Action)
    requires call in before.calls && call in after.calls
  {
    match before.calls[call]
    case Sent =>
      || (after.calls[call] == Over && a == Finished(a.client, call))
      || (a == Unauthorized(a.client, call)
          && if before.inFlight || before.refresh.Some? then after.calls[call] == Waiting && after.inFlight
             else after.calls[call] == Over && SignedOut(after))
    case Waiting =>
      && after.calls[call].Settled? && !after.inFlight
      && (match after.calls[call].result
          case Some(t) => a == ResponseDelivered(a.client, Some(t)) && after.access == after.refresh == Some(t)
          case None => a == ResponseDelivered(a.client, None) || a.RequestLost?)
    case Settled(result) =>
      && a == Resumed(a.client, call)
      && (match result
          case Some(t) => after == before.(calls := before.calls[call := Retrying(t)])
          case None => after.calls[call] == Over && SignedOut(after))
    case Retrying(_) => after.calls[call] == Over && a == Finished(a.client, call)
    case Over => false
  }

  // A call stays where it is or makes the move its phase allows.
  ghost predicate StaysOrMoves(before: Client, after: Client, call: nat, a: Action) {
    && call in before.calls && call in after.calls
    && (after.calls[call] == before.calls[call] || Moves(before, after, call, a))
  }

  lemma RefreshEndMoves(before: Client, result: Option<nat>, call: nat, a: Action)
    requires call in before.calls
    requires a == ResponseDelivered(a.client, result) || (a.RequestLost? && result == None)
    ensures var after := OnRefreshResponse(before, result);
            StaysOrMoves(before, after, call, a) && after.calls[call] != Waiting
  {
  }

  lemma UnauthorizedMoves(before: Client, call: nat, d: nat, a: Action)
    requires call in before.calls && before.calls[call] == Sent && d in before.calls
    requires a == Unauthorized(a.client, call)
    ensures var after := OnUnauthorized(before, call);
            StaysOrMoves(before, after, d, a) && after.calls[call] != Sent
  {
  }

  lemma ResumeMoves(before: Client, call: nat, d: nat, a: Action)
    requires call in before.calls && before.calls[call].Settled? && d in before.calls && a == Resumed(a.client, call)
    ensures var after := OnResume(before, call);
            StaysOrMoves(before, after, d, a) && after.calls[call] != before.calls[call]
  {
  }

  lemma StartMoves(before: Client, call: nat, d: nat, a: Action)
    requires call !in before.calls && d in before.calls
    ensures StaysOrMoves(before, StartCall(before, call), d, a)
  {
  }

  lemma FinishMoves(before: Client, call: nat, d: nat, a: Action)
    requires call in before.calls && (before.calls[call].Sent? || before.calls[call].Retrying?) && d in before.calls
    requires a == Finished(a.client, call)
    ensures StaysOrMoves(before, OnFinalResponse(before, call), d, a)
  {
  }

  // In every step every call stays or moves; one that is answered or resumes, or waits when the refresh ends,
  // does move; a new call starts with its first request.
  lemma CallsMove(s: System, a: Action, now: int, ttl: int, s': System, c: nat, call: nat)
    requires Next(s, a, now, ttl, s') && c < |s.clients| && call in s.clients[c].calls
    ensures |s'.clients| == |s.clients| && StaysOrMoves(s.clients[c], s'.clients[c], call, a)
    ensures s'.clients[c].calls[call] == s.clients[c].calls[call] || a.client == c
    ensures a in {Unauthorized(c, call), Resumed(c, call), Finished(c, call)} ==>
              s'.clients[c].calls[call] != s.clients[c].calls[call]
    ensures a.Start? && a.client == c ==> s'.clients[c].calls == s.clients[c].calls[a.call := Sent]
    ensures a.client == c && (a.ResponseDelivered? || a.RequestLost?) ==> s'.clients[c].calls[call] != Waiting
  {
    var before := s.clients[a.client];
    if a.client == c {
      match a
      case ResponseDelivered(_, result) => RefreshEndMoves(before, result, call, a);
      case RequestLost(_, _) => RefreshEndMoves(before, None, call, a);
      case Unauthorized(_, d) => UnauthorizedMoves(before, d, call, a);
      case Resumed(_, d) => ResumeMoves(before, d, call, a);
      case Start(_, d) => StartMoves(before, d, call, a);
      case Finished(_, d) => FinishMoves(before, d, call, a);
      case LoggedOut(_) => assert s'.clients[c].calls == before.calls;
      case LoginDelivered(_, _) => assert s'.clients[c].calls == before.calls;
      case ServerLogin(_, _) => assert s'.clients[c] == before;
      case ServerRefresh(_, _, _) => assert s'.clients[c] == before;
    } else {
      assert s'.clients[c] == s.clients[c];
    }
  }

  // Between two steps of a run some action of the client took place.
  ghost predicate Happened(actions: seq<Action>, k: nat, l: nat, a: Action) {
    exists i :: k <= i < l <= |actions| && actions[i] == a
  }

  // What may have become of a call whose refresh delivered token t.
  ghost predicate Retried(actions: seq<Action>, k: nat, l: nat, c: nat, call: nat, t: nat, phase: Call) {
    || phase == Settled(Some(t))
    || (phase == Retrying(t) && Happened(actions, k, l, Resumed(c, call)))
    || (phase == Over && exists m :: k <= m <= l && Happened(actions, k, m, Resumed(c, call))
                                     && Happened(actions, m, l, Finished(c, call)))
  }

  lemma HappenedGrows(actions: seq<Action>, k: nat, l: nat, a: Action)
    requires Happened(actions, k, l, a) && l < |actions|
    ensures Happened(actions, k, l + 1, a)
  {
    var i :| k <= i < l && actions[i] == a;
    assert k <= i < l + 1;
  }

  // In every run a call whose refresh delivered token t is next retried with t, by its own resumption, and
  // is over only when that retry has been answered.
  lemma {:induction false} SettledCallIsRetried(run: seq<System>, actions: seq<Action>, times: seq<int>, ttl: int,
                                                k: nat, l: nat, c: nat, call: nat, t: nat)
    requires IsRun(run, actions, times, ttl) && k <= l < |run| && c < |run[k].clients|
    requires call in run[k].clients[c].calls && run[k].clients[c].calls[call] == Settled(Some(t))
    ensures c < |run[l].clients| && call in run[l].clients[c].calls
    ensures Retried(actions, k, l, c, call, t, run[l].clients[c].calls[call])
    decreases l - k
  {
    if k < l {
      var n := l - 1;
      SettledCallIsRetried(run, actions, times, ttl, k, n, c, call, t);
      assert Next(run[n], actions[n], times[n], ttl, run[l]);
      CallsMove(run[n], actions[n], times[n], ttl, run[l], c, call);
      var before, after := run[n].clients[c].calls[call], run[l].clients[c].calls[call];
      if after != before {
        if before == Settled(Some(t)) {
          assert actions[n] == Resumed(c, call);
        } else {
          assert actions[n] == Finished(c, call) && Happened(actions, n, l, Finished(c, call));
        }
      } else if before == Retrying(t) {
        HappenedGrows(actions, k, n, Resumed(c, call));
      } else if before == Over {
        var m :| k <= m <= n && Happened(actions, k, m, Resumed(c, call)) && Happened(actions, m, n, Finished(c, call));
        HappenedGrows(actions, m, n, Finished(c, call));
      }
    }
  }

  // In every run a call whose refresh failed, once it resumes, is over and leaves its client signed out.
  lemma FailedCallSignsOut(run: seq<System>, actions: seq<Action>, times: seq<int>, ttl: int, k: nat, c: nat,
                           call: nat)
    requires IsRun(run, actions, times, ttl) && k < |actions| && actions[k] == Resumed(c, call)
    ensures c < |run[k].clients| && call in run[k].clients[c].calls && run[k].clients[c].calls[call].Settled?
    ensures run[k].clients[c].calls[call] == Settled(None) ==>
              run[k + 1].clients[c].calls[call] == Over && SignedOut(run[k + 1].clients[c])
  {
    assert Next(run[k], actions[k], times[k], ttl, run[k + 1]);
  }
}
