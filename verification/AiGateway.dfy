/**
 * Rate and token caps of the AI gateway. A call checks the caps against the log, is stamped, runs at
 * the provider, and is logged only afterwards; so admission reads a log that lags behind the calls
 * in flight. One non-decreasing clock in milliseconds serves the application and the database.
 */
module AiGateway {
  import opened Wrappers

  datatype LogRow = LogRow(tenant: nat, occurredAt: int, tokens: nat)

  // Caps of 0 mean unlimited.
  datatype Config = Config(dailyTokenCap: nat, perMinuteCap: nat)

  const MINUTE := 60000
  const DAY := 86400000

  // Start of the UTC day of a non-negative instant.
  function DayStart(now: nat): nat { now - now % DAY }

  function CountSince(log: seq<LogRow>, tenant: nat, since: int): nat {
    if log == [] then 0 else
      var last := log[|log| - 1];
      CountSince(log[..|log| - 1], tenant, since) + (if last.tenant == tenant && last.occurredAt >= since then 1 else 0)
  }

  function TokensSince(log: seq<LogRow>, tenant: nat, since: int): nat {
    if log == [] then 0 else
      var last := log[|log| - 1];
      TokensSince(log[..|log| - 1], tenant, since)
      + (if last.tenant == tenant && last.occurredAt >= since then last.tokens else 0)
  }

  predicate PassesMinuteCap(cfg: Config, log: seq<LogRow>, tenant: nat, now: nat) {
    cfg.perMinuteCap == 0 || CountSince(log, tenant, now - MINUTE) < cfg.perMinuteCap
  }

  predicate PassesDailyCap(cfg: Config, log: seq<LogRow>, tenant: nat, now: nat) {
    cfg.dailyTokenCap == 0 || TokensSince(log, tenant, DayStart(now)) < cfg.dailyTokenCap
  }

  datatype Result = RateLimited | DailyCapReached | ProviderFailed | Completed(tokens: nat)

  /** The gateway with the call log it writes and reads. */
  class AiGateway {
    var log: seq<LogRow>
    const cfg: Config

    constructor (cfg: Config)
      ensures log == [] && this.cfg == cfg
    {
      this.cfg, log := cfg, [];
    }

    method EnforceCaps(tenant: nat, minuteCheck: nat, dayCheck: nat) returns (refusal: Option<Result>)
      ensures refusal == if !PassesMinuteCap(cfg, log, tenant, minuteCheck) then Some(RateLimited)
                         else if !PassesDailyCap(cfg, log, tenant, dayCheck) then Some(DailyCapReached)
                         else None
    {
      if cfg.dailyTokenCap == 0 && cfg.perMinuteCap == 0 { return None; }
      if cfg.perMinuteCap > 0 {
        var minuteCount := CountSince(log, tenant, minuteCheck - MINUTE);
        if minuteCount >= cfg.perMinuteCap { return Some(RateLimited); }
      }
      if cfg.dailyTokenCap > 0 {
        var tokens := TokensSince(log, tenant, DayStart(dayCheck));
        if tokens >= cfg.dailyTokenCap { return Some(DailyCapReached); }
      }
      return None;
    }

    // `provider` is what the provider answers; a failed call is logged with zero tokens. An insert
    // that fails is swallowed.
    method Invoke(tenant: nat, minuteCheck: nat, dayCheck: nat, requestedAt: nat, provider: Option<nat>, logFails: bool)
      returns (result: Result)
      modifies this
      ensures result.RateLimited? <==> !PassesMinuteCap(cfg, old(log), tenant, minuteCheck)
      ensures result.DailyCapReached? <==>
                PassesMinuteCap(cfg, old(log), tenant, minuteCheck) && !PassesDailyCap(cfg, old(log), tenant, dayCheck)
      ensures result.Completed? ==> provider == Some(result.tokens)
      ensures result.ProviderFailed? ==> provider == None
      ensures log == if result.RateLimited? || result.DailyCapReached? || logFails then old(log)
                     else old(log) + [LogRow(tenant, requestedAt, if provider.Some? then provider.value else 0)]
    {
      var refusal := EnforceCaps(tenant, minuteCheck, dayCheck);
      if refusal.Some? { return refusal.value; }
      var tokens := 0;
      if provider.Some? {
        tokens := provider.value;
        result := Completed(tokens);
      } else {
        result := ProviderFailed;
      }
      if !logFails {
        log := log + [LogRow(tenant, requestedAt, tokens)];
      }
    }
  }

  // ---------------------------------------------------------------- concurrent calls

  // A call that passed its minute check is checking the daily cap, then refused or admitted, then
  // stamped, then logged, or lost if the insert fails. Calls are numbered in the order of their
  // minute checks.
  datatype Phase =
    | Checking
    | Refused
    | Admitted
    | Stamped(at: nat)
    | Logged(at: nat, tokens: nat)
    | Lost(at: nat, tokens: nat)

  datatype Call = Call(tenant: nat, phase: Phase) {
    predicate InFlight() { phase.Checking? || phase.Admitted? || phase.Stamped? }
    predicate HasStamp() { phase.Stamped? || phase.Logged? || phase.Lost? }
    predicate PassedDayCheck() { phase.Admitted? || HasStamp() }
  }

  datatype Gateway = Gateway(calls: seq<Call>, log: seq<LogRow>)

  datatype Event =
    | MinuteCheck(tenant: nat)
    | DayCheck(call: nat)
    | Refuse(call: nat)
    | Stamp(call: nat)
    | Log(call: nat, tokens: nat)
    | LogFails(call: nat, tokens: nat)

  predicate At(g: Gateway, call: nat, phase: Phase) {
    call < |g.calls| && g.calls[call].phase == phase
  }

  function SetPhase(g: Gateway, call: nat, phase: Phase): Gateway
    requires call < |g.calls|
  {
    g.(calls := g.calls[call := g.calls[call].(phase := phase)])
  }

  // A call refused by its minute check leaves no trace.
  ghost predicate Next(cfg: Config, g: Gateway, e: Event, now: nat, g': Gateway) {
    match e
    case MinuteCheck(tenant) =>
      PassesMinuteCap(cfg, g.log, tenant, now) && g' == g.(calls := g.calls + [Call(tenant, Checking)])
    case DayCheck(call) =>
      && At(g, call, Checking) && PassesDailyCap(cfg, g.log, g.calls[call].tenant, now)
      && g' == SetPhase(g, call, Admitted)
    case Refuse(call) =>
      && At(g, call, Checking) && !PassesDailyCap(cfg, g.log, g.calls[call].tenant, now)
      && g' == SetPhase(g, call, Refused)
    case Stamp(call) =>
      At(g, call, Admitted) && g' == SetPhase(g, call, Stamped(now))
    case Log(call, tokens) =>
      && call < |g.calls| && g.calls[call].phase.Stamped?
      && g' == SetPhase(g, call, Logged(g.calls[call].phase.at, tokens)).(
                 log := g.log + [LogRow(g.calls[call].tenant, g.calls[call].phase.at, tokens)])
    case LogFails(call, tokens) =>
      && call < |g.calls| && g.calls[call].phase.Stamped?
      && g' == SetPhase(g, call, Lost(g.calls[call].phase.at, tokens))
  }

  ghost predicate IsRun(cfg: Config, run: seq<Gateway>, events: seq<Event>, times: seq<nat>) {
    && |run| == |events| + 1 && |times| == |events| && run[0] == Gateway([], [])
    && (forall i, j :: 0 <= i < j < |times| ==> times[i] <= times[j])
    && forall i :: 0 <= i < |events| ==> Next(cfg, run[i], events[i], times[i], run[i + 1])
  }

  // ---------------------------------------------------------------- sums over calls

  ghost function Sum(calls: seq<Call>, f: Call -> nat): nat {
    if calls == [] then 0 else Sum(calls[..|calls| - 1], f) + f(calls[|calls| - 1])
  }

  lemma {:induction false} SumUpdate(calls: seq<Call>, i: nat, c: Call, f: Call -> nat)
    requires i < |calls|
    ensures Sum(calls[i := c], f) + f(calls[i]) == Sum(calls, f) + f(c)
  {
    var n := |calls| - 1;
    if i == n {
      assert calls[i := c][..n] == calls[..n];
    } else {
      assert calls[i := c][..n] == calls[..n][i := c];
      SumUpdate(calls[..n], i, c, f);
    }
  }

  lemma {:induction false} SumAdds(calls: seq<Call>, f: Call -> nat, g: Call -> nat, h: Call -> nat)
    requires forall i :: 0 <= i < |calls| ==> f(calls[i]) == g(calls[i]) + h(calls[i])
    ensures Sum(calls, f) == Sum(calls, g) + Sum(calls, h)
  {
    if calls != [] { SumAdds(calls[..|calls| - 1], f, g, h); }
  }

  // What a sum over later calls owes to earlier ones, call by call.
  lemma {:induction false} SumBound(later: seq<Call>, earlier: seq<Call>, f: Call -> nat, g: Call -> nat,
                                    h: Call -> nat, m: nat)
    requires |later| == |earlier|
    requires forall i :: 0 <= i < |later| ==> f(later[i]) <= g(earlier[i]) + m * h(earlier[i])
    ensures Sum(later, f) <= Sum(earlier, g) + m * Sum(earlier, h)
  {
    if later != [] {
      var n := |later| - 1;
      SumBound(later[..n], earlier[..n], f, g, h, m);
      assert m * (Sum(earlier[..n], h) + h(earlier[n])) == m * Sum(earlier[..n], h) + m * h(earlier[n]);
    }
  }

  lemma {:induction false} SumSplit(calls: seq<Call>, n: nat, f: Call -> nat)
    requires n <= |calls| && forall i :: n <= i < |calls| ==> f(calls[i]) == 0
    ensures Sum(calls, f) == Sum(calls[..n], f)
  {
    if n == |calls| {
      assert calls[..n] == calls;
    } else {
      SumSplit(calls[..|calls| - 1], n, f);
      assert calls[..|calls| - 1][..n] == calls[..n];
    }
  }

  ghost function StampedIn(tenant: nat, lo: int, hi: int): Call -> nat {
    (c: Call) => if c.tenant == tenant && c.HasStamp() && lo <= c.phase.at <= hi then 1 else 0
  }

  // Stamped in the window, and missing from the log for good.
  ghost function LostIn(tenant: nat, lo: int, hi: int): Call -> nat {
    (c: Call) => if c.tenant == tenant && c.phase.Lost? && lo <= c.phase.at <= hi then 1 else 0
  }

  ghost function KeptIn(tenant: nat, lo: int, hi: int): Call -> nat {
    (c: Call) => if c.tenant == tenant && c.HasStamp() && !c.phase.Lost? && lo <= c.phase.at <= hi then 1 else 0
  }

  ghost function LoggedSince(tenant: nat, since: int): Call -> nat {
    (c: Call) => if c.tenant == tenant && c.phase.Logged? && c.phase.at >= since then 1 else 0
  }

  ghost function TokensOfLogged(tenant: nat, since: int): Call -> nat {
    (c: Call) => if c.tenant == tenant && c.phase.Logged? && c.phase.at >= since then c.phase.tokens else 0
  }

  ghost function LoggedOn(tenant: nat, day: int): Call -> nat {
    (c: Call) => if c.tenant == tenant && c.phase.Logged? && DayStart(c.phase.at) == day then c.phase.tokens else 0
  }

  ghost function LostOn(tenant: nat, day: int): Call -> nat {
    (c: Call) => if c.tenant == tenant && c.phase.Lost? && DayStart(c.phase.at) == day then c.phase.tokens else 0
  }

  // The tokens a call used, whether or not the log knows of them.
  ghost function UsedOn(tenant: nat, day: int): Call -> nat {
    (c: Call) =>
      if c.tenant == tenant && (c.phase.Logged? || c.phase.Lost?) && DayStart(c.phase.at) == day
      then c.phase.tokens else 0
  }

  ghost function InFlightOf(tenant: nat): Call -> nat {
    (c: Call) => if c.tenant == tenant && c.InFlight() then 1 else 0
  }

  // ---------------------------------------------------------------- what every event keeps

  // The log holds exactly the logged calls, as far as any check can tell.
  ghost predicate LogAgrees(g: Gateway) {
    forall tenant, since ::
      && CountSince(g.log, tenant, since) == Sum(g.calls, LoggedSince(tenant, since))
      && TokensSince(g.log, tenant, since) == Sum(g.calls, TokensOfLogged(tenant, since))
  }

  lemma NextKeepsLog(cfg: Config, g: Gateway, e: Event, now: nat, g': Gateway)
    requires LogAgrees(g) && Next(cfg, g, e, now, g')
    ensures LogAgrees(g')
  {
    forall tenant, since
      ensures CountSince(g'.log, tenant, since) == Sum(g'.calls, LoggedSince(tenant, since))
      ensures TokensSince(g'.log, tenant, since) == Sum(g'.calls, TokensOfLogged(tenant, since))
    {
      if e.MinuteCheck? {
        assert g'.calls[..|g.calls|] == g.calls;
      } else {
        SumUpdate(g.calls, e.call, g'.calls[e.call], LoggedSince(tenant, since));
        SumUpdate(g.calls, e.call, g'.calls[e.call], TokensOfLogged(tenant, since));
        if e.Log? { assert g'.log[..|g.log|] == g.log; }
      }
    }
  }

  lemma {:induction false} RunKeepsLog(cfg: Config, run: seq<Gateway>, events: seq<Event>, times: seq<nat>, n: nat)
    requires IsRun(cfg, run, events, times) && n < |run|
    ensures LogAgrees(run[n])
  {
    if n > 0 {
      RunKeepsLog(cfg, run, events, times, n - 1);
      NextKeepsLog(cfg, run[n - 1], events[n - 1], times[n - 1], run[n]);
    }
  }

  // Calls keep their tenant, stamps never change, refused, logged and lost calls never change.
  ghost predicate Evolves(earlier: Call, later: Call) {
    && later.tenant == earlier.tenant
    && (earlier.phase.Refused? || earlier.phase.Logged? || earlier.phase.Lost? ==> later == earlier)
    && (earlier.phase.Stamped? ==> later.HasStamp() && later.phase.at == earlier.phase.at)
  }

  lemma {:induction false} CallsEvolve(cfg: Config, run: seq<Gateway>, events: seq<Event>, times: seq<nat>, i: nat,
                                       n: nat)
    requires IsRun(cfg, run, events, times) && i <= n < |run|
    ensures |run[i].calls| <= |run[n].calls|
    ensures forall c :: 0 <= c < |run[i].calls| ==> Evolves(run[i].calls[c], run[n].calls[c])
    decreases n - i
  {
    if i < n {
      CallsEvolve(cfg, run, events, times, i, n - 1);
      assert Next(cfg, run[n - 1], events[n - 1], times[n - 1], run[n]);
    }
  }

  lemma StampStep(cfg: Config, g: Gateway, e: Event, now: nat, g': Gateway, c: nat)
    requires Next(cfg, g, e, now, g') && c < |g'.calls| && g'.calls[c].HasStamp()
    ensures g'.calls[c].phase.at
            == if c < |g.calls| && g.calls[c].HasStamp() then g.calls[c].phase.at else now
  {
  }

  // A call that had no stamp at step i can only have been stamped later.
  lemma {:induction false} StampedAfter(cfg: Config, run: seq<Gateway>, events: seq<Event>, times: seq<nat>, i: nat,
                                        n: nat, c: nat)
    requires IsRun(cfg, run, events, times) && i <= n < |run| && i < |times|
    requires c < |run[n].calls| && run[n].calls[c].HasStamp()
    requires c < |run[i].calls| ==> !run[i].calls[c].HasStamp()
    ensures times[i] <= run[n].calls[c].phase.at
    decreases n - i
  {
    if i < n {
      StampStep(cfg, run[n - 1], events[n - 1], times[n - 1], run[n], c);
      if c < |run[n - 1].calls| && run[n - 1].calls[c].HasStamp() {
        StampedAfter(cfg, run, events, times, i, n - 1, c);
      }
    }
  }

  // The step at which call c passed its minute check.
  lemma {:induction false} MinuteCheckOf(cfg: Config, run: seq<Gateway>, events: seq<Event>, times: seq<nat>, n: nat,
                                         c: nat)
    returns (i: nat)
    requires IsRun(cfg, run, events, times) && n < |run| && c < |run[n].calls|
    ensures i < n && |run[i].calls| == c && events[i].MinuteCheck? && run[i + 1].calls[c].tenant == events[i].tenant
    ensures run[n].calls[c].tenant == events[i].tenant
  {
    assert n > 0;
    assert Next(cfg, run[n - 1], events[n - 1], times[n - 1], run[n]);
    if c < |run[n - 1].calls| {
      i := MinuteCheckOf(cfg, run, events, times, n - 1, c);
    } else {
      i := n - 1;
    }
  }

  // ---------------------------------------------------------------- the per-minute bound

  ghost predicate AtMostInFlight(run: seq<Gateway>, tenant: nat, k: nat) {
    forall i :: 0 <= i < |run| ==> Sum(run[i].calls, InFlightOf(tenant)) <= k
  }

  // The last call stamped in a window, if any.
  lemma {:induction false} LastIn(calls: seq<Call>, f: Call -> nat) returns (last: Option<nat>)
    ensures last.Some? ==> last.value < |calls| && f(calls[last.value]) > 0
    ensures forall i :: 0 <= i < |calls| && (last.Some? ==> i > last.value) ==> f(calls[i]) == 0
  {
    if calls == [] {
      last := None;
    } else if f(calls[|calls| - 1]) > 0 {
      last := Some(|calls| - 1);
    } else {
      last := LastIn(calls[..|calls| - 1], f);
      forall i | 0 <= i < |calls| && (last.Some? ==> i > last.value) ensures f(calls[i]) == 0 {
        if i < |calls| - 1 { assert calls[..|calls| - 1][i] == calls[i]; }
      }
    }
  }

  // Of the calls that are not lost, no window of 60 seconds holds more than cap + k - 1.
  lemma KeptBound(cfg: Config, run: seq<Gateway>, events: seq<Event>, times: seq<nat>, tenant: nat, k: nat, n: nat,
                  w: int)
    requires IsRun(cfg, run, events, times) && n < |run|
    requires cfg.perMinuteCap > 0 && k > 0 && AtMostInFlight(run, tenant, k)
    ensures Sum(run[n].calls, KeptIn(tenant, w, w + MINUTE)) <= cfg.perMinuteCap + k - 1
  {
    var inWindow := KeptIn(tenant, w, w + MINUTE);
    var calls := run[n].calls;
    var last := LastIn(calls, inWindow);
    if last.None? {
      SumSplit(calls, 0, inWindow);
    } else {
      var c := last.value;
      var i := MinuteCheckOf(cfg, run, events, times, n, c);
      assert Next(cfg, run[i], events[i], times[i], run[i + 1]);
      StampedAfter(cfg, run, events, times, i, n, c);
      CallsEvolve(cfg, run, events, times, i, n);
      var recent, busy := LoggedSince(tenant, times[i] - MINUTE), InFlightOf(tenant);
      SumSplit(calls, c + 1, inWindow);
      assert calls[..c + 1][..c] == calls[..c];
      forall j | 0 <= j < c ensures inWindow(calls[..c][j]) <= recent(run[i].calls[j]) + 1 * busy(run[i].calls[j]) {
        assert Evolves(run[i].calls[j], calls[j]);
      }
      SumBound(calls[..c], run[i].calls, inWindow, recent, busy, 1);
      RunKeepsLog(cfg, run, events, times, i);
      assert Sum(run[i].calls, recent) == CountSince(run[i].log, tenant, times[i] - MINUTE);
      assert run[i + 1].calls[..c] == run[i].calls;
      assert Sum(run[i + 1].calls, busy) == Sum(run[i].calls, busy) + 1;
    }
  }

  // With at most k calls of a tenant between check and log at any time, a window of 60 seconds holds at
  // most cap + k - 1 of its calls and those whose log row was lost; when every call is logged and k = 1
  // the cap is exact.
  lemma MinuteBound(cfg: Config, run: seq<Gateway>, events: seq<Event>, times: seq<nat>, tenant: nat, k: nat, n: nat,
                    w: int)
    requires IsRun(cfg, run, events, times) && n < |run|
    requires cfg.perMinuteCap > 0 && k > 0 && AtMostInFlight(run, tenant, k)
    ensures Sum(run[n].calls, StampedIn(tenant, w, w + MINUTE))
            <= cfg.perMinuteCap + k - 1 + Sum(run[n].calls, LostIn(tenant, w, w + MINUTE))
  {
    KeptBound(cfg, run, events, times, tenant, k, n, w);
    SumAdds(run[n].calls, StampedIn(tenant, w, w + MINUTE), KeptIn(tenant, w, w + MINUTE),
            LostIn(tenant, w, w + MINUTE));
  }

  // When no row ever reaches the log, neither cap refuses anybody.
  lemma {:induction false} NothingLoggedNothingRefused(cfg: Config, run: seq<Gateway>, events: seq<Event>,
                                                       times: seq<nat>, n: nat)
    requires IsRun(cfg, run, events, times) && n < |run| && forall i :: 0 <= i < |events| ==> !events[i].Log?
    ensures run[n].log == []
    ensures forall tenant, now ::
              PassesMinuteCap(cfg, run[n].log, tenant, now) && PassesDailyCap(cfg, run[n].log, tenant, now)
    ensures n < |events| ==> !events[n].Refuse?
  {
    if n > 0 {
      NothingLoggedNothingRefused(cfg, run, events, times, n - 1);
      assert Next(cfg, run[n - 1], events[n - 1], times[n - 1], run[n]);
    }
    if n < |events| { assert Next(cfg, run[n], events[n], times[n], run[n + 1]); }
  }

  // ---------------------------------------------------------------- the daily bound

  lemma {:induction false} DayCheckedBetween(cfg: Config, run: seq<Gateway>, events: seq<Event>, times: seq<nat>,
                                             i: nat, n: nat, c: nat)
    returns (j: nat)
    requires IsRun(cfg, run, events, times) && i <= n < |run|
    requires c < |run[n].calls| && run[n].calls[c].PassedDayCheck()
    requires c < |run[i].calls| ==> !run[i].calls[c].PassedDayCheck()
    ensures i <= j < n && events[j] == DayCheck(c)
    decreases n - i
  {
    assert i < n;
    assert Next(cfg, run[n - 1], events[n - 1], times[n - 1], run[n]);
    if c < |run[n - 1].calls| && run[n - 1].calls[c].PassedDayCheck() {
      j := DayCheckedBetween(cfg, run, events, times, i, n - 1, c);
    } else {
      j := n - 1;
    }
  }

  // The last step, before n, that checked a call which used tokens on the day.
  lemma {:induction false} LastDayCheck(run: seq<Gateway>, events: seq<Event>, f: Call -> nat, n: nat, upTo: nat)
    returns (last: Option<nat>)
    requires n < |run| && upTo <= |events|
    ensures last.Some? ==> last.value < upTo && Checks(run[n], events[last.value], f)
    ensures forall j :: 0 <= j < upTo && (last.Some? ==> j > last.value) ==> !Checks(run[n], events[j], f)
  {
    if upTo == 0 {
      last := None;
    } else if Checks(run[n], events[upTo - 1], f) {
      last := Some(upTo - 1);
    } else {
      last := LastDayCheck(run, events, f, n, upTo - 1);
    }
  }

  ghost predicate Checks(g: Gateway, e: Event, f: Call -> nat) {
    e.DayCheck? && e.call < |g.calls| && f(g.calls[e.call]) > 0
  }

  lemma SumIsZero(calls: seq<Call>, f: Call -> nat)
    requires forall i :: 0 <= i < |calls| ==> f(calls[i]) == 0
    ensures Sum(calls, f) == 0
  {
    SumSplit(calls, 0, f);
  }

  // The logged calls of a day use at most dailyCap - 1 + k * m tokens.
  lemma LoggedBound(cfg: Config, run: seq<Gateway>, events: seq<Event>, times: seq<nat>, tenant: nat, k: nat, m: nat,
                    n: nat, day: int)
    requires IsRun(cfg, run, events, times) && n < |run|
    requires cfg.dailyTokenCap > 0 && AtMostInFlight(run, tenant, k)
    requires forall c :: 0 <= c < |run[n].calls| && run[n].calls[c].tenant == tenant && run[n].calls[c].phase.Logged?
                         ==> run[n].calls[c].phase.tokens <= m
    ensures Sum(run[n].calls, LoggedOn(tenant, day)) <= cfg.dailyTokenCap - 1 + k * m
  {
    var used := LoggedOn(tenant, day);
    var calls := run[n].calls;
    var last := LastDayCheck(run, events, used, n, n);
    forall c | 0 <= c < |calls| && used(calls[c]) > 0
      ensures last.Some? && c < |run[last.value].calls|
      ensures run[last.value].calls[c].PassedDayCheck() || events[last.value] == DayCheck(c)
    {
      var j := DayCheckedBetween(cfg, run, events, times, 0, n, c);
      assert Checks(run[n], events[j], used);
      DayCheckBeforeLast(cfg, run, events, times, n, last.value, c, used);
    }
    if last.None? {
      SumIsZero(calls, used);
    } else {
      var i := last.value;
      DailyBoundAt(cfg, run, events, times, tenant, k, m, n, day, i);
    }
  }

  lemma DayCheckBeforeLast(cfg: Config, run: seq<Gateway>, events: seq<Event>, times: seq<nat>, n: nat, i: nat,
                           c: nat, f: Call -> nat)
    requires IsRun(cfg, run, events, times) && i < n < |run|
    requires c < |run[n].calls| && run[n].calls[c].HasStamp() && f(run[n].calls[c]) > 0
    requires Checks(run[n], events[i], f)
    requires forall j :: i < j < n ==> !Checks(run[n], events[j], f)
    ensures c < |run[i].calls| && (run[i].calls[c].PassedDayCheck() || events[i] == DayCheck(c))
  {
    if c >= |run[i].calls| || !run[i].calls[c].PassedDayCheck() {
      var j := DayCheckedBetween(cfg, run, events, times, i, n, c);
      assert Checks(run[n], events[j], f);
      assert j == i;
      assert Next(cfg, run[i], events[i], times[i], run[i + 1]);
    }
  }

  lemma {:induction false} StampsAreOld(cfg: Config, run: seq<Gateway>, events: seq<Event>, times: seq<nat>, n: nat)
    requires IsRun(cfg, run, events, times) && n < |times|
    ensures forall c :: 0 <= c < |run[n].calls| && run[n].calls[c].HasStamp() ==> run[n].calls[c].phase.at <= times[n]
  {
    if n > 0 {
      StampsAreOld(cfg, run, events, times, n - 1);
      forall c | 0 <= c < |run[n].calls| && run[n].calls[c].HasStamp() ensures run[n].calls[c].phase.at <= times[n] {
        StampStep(cfg, run[n - 1], events[n - 1], times[n - 1], run[n], c);
      }
    }
  }

  lemma SameDay(t: nat, at: nat)
    requires DayStart(at) <= t <= at
    ensures DayStart(t) == DayStart(at)
  {
  }

  // When a call that is stamped on the day passes its daily check, the log holds less than the cap of
  // that day: the check says so, or it is made before midnight and nothing of the day is logged yet.
  lemma LoggedAtCheck(cfg: Config, run: seq<Gateway>, events: seq<Event>, times: seq<nat>, tenant: nat, n: nat,
                      day: int, i: nat)
    requires IsRun(cfg, run, events, times) && i < n < |run| && cfg.dailyTokenCap > 0
    requires Checks(run[n], events[i], LoggedOn(tenant, day))
    ensures Sum(run[i].calls, TokensOfLogged(tenant, day)) < cfg.dailyTokenCap
  {
    var d := events[i].call;
    assert Next(cfg, run[i], events[i], times[i], run[i + 1]);
    if times[i] >= day {
      CallsEvolve(cfg, run, events, times, i, n);
      StampedAfter(cfg, run, events, times, i, n, d);
      SameDay(times[i], run[n].calls[d].phase.at);
      RunKeepsLog(cfg, run, events, times, i);
      assert Sum(run[i].calls, TokensOfLogged(tenant, day)) == TokensSince(run[i].log, tenant, day);
    } else {
      StampsAreOld(cfg, run, events, times, i);
      SumIsZero(run[i].calls, TokensOfLogged(tenant, day));
    }
  }

  lemma DailyBoundAt(cfg: Config, run: seq<Gateway>, events: seq<Event>, times: seq<nat>, tenant: nat, k: nat, m: nat,
                     n: nat, day: int, i: nat)
    requires IsRun(cfg, run, events, times) && i < n < |run|
    requires cfg.dailyTokenCap > 0 && AtMostInFlight(run, tenant, k)
    requires forall c :: 0 <= c < |run[n].calls| && run[n].calls[c].tenant == tenant && run[n].calls[c].phase.Logged?
                         ==> run[n].calls[c].phase.tokens <= m
    requires Checks(run[n], events[i], LoggedOn(tenant, day))
    requires forall c :: 0 <= c < |run[n].calls| && LoggedOn(tenant, day)(run[n].calls[c]) > 0
               ==> c < |run[i].calls| && (run[i].calls[c].PassedDayCheck() || events[i] == DayCheck(c))
    ensures Sum(run[n].calls, LoggedOn(tenant, day)) <= cfg.dailyTokenCap - 1 + k * m
  {
    var used, calls, before := LoggedOn(tenant, day), run[n].calls, run[i].calls;
    var logged, busy := TokensOfLogged(tenant, day), InFlightOf(tenant);
    assert Next(cfg, run[i], events[i], times[i], run[i + 1]);
    CallsEvolve(cfg, run, events, times, i, n);
    SumSplit(calls, |before|, used);
    forall j | 0 <= j < |before| ensures used(calls[..|before|][j]) <= logged(before[j]) + m * busy(before[j]) {
      assert Evolves(before[j], calls[j]);
      UsedIsLoggedOrBusy(before[j], calls[j], tenant, day, m);
    }
    SumBound(calls[..|before|], before, used, logged, busy, m);
    LoggedAtCheck(cfg, run, events, times, tenant, n, day, i);
    Scale(m, Sum(before, busy), k);
  }

  lemma Scale(m: nat, a: nat, b: nat)
    requires a <= b
    ensures m * a <= b * m
  {
  }

  lemma UsedIsLoggedOrBusy(before: Call, after: Call, tenant: nat, day: int, m: nat)
    requires Evolves(before, after)
    requires after.tenant == tenant && after.phase.Logged? ==> after.phase.tokens <= m
    requires LoggedOn(tenant, day)(after) > 0 ==> before.PassedDayCheck() || before.phase.Checking?
    ensures LoggedOn(tenant, day)(after) <= TokensOfLogged(tenant, day)(before) + m * InFlightOf(tenant)(before)
  {
  }

  // Under the same bound on concurrency, with m the largest logged call of the tenant, a UTC day uses at
  // most dailyCap - 1 + k * m tokens and those of the calls whose log row was lost, also when calls are
  // checked before midnight and stamped after it.
  lemma DailyBound(cfg: Config, run: seq<Gateway>, events: seq<Event>, times: seq<nat>, tenant: nat, k: nat, m: nat,
                   n: nat, day: int)
    requires IsRun(cfg, run, events, times) && n < |run|
    requires cfg.dailyTokenCap > 0 && AtMostInFlight(run, tenant, k)
    requires forall c :: 0 <= c < |run[n].calls| && run[n].calls[c].tenant == tenant && run[n].calls[c].phase.Logged?
                         ==> run[n].calls[c].phase.tokens <= m
    ensures Sum(run[n].calls, UsedOn(tenant, day))
            <= cfg.dailyTokenCap - 1 + k * m + Sum(run[n].calls, LostOn(tenant, day))
  {
    LoggedBound(cfg, run, events, times, tenant, k, m, n, day);
    SumAdds(run[n].calls, UsedOn(tenant, day), LoggedOn(tenant, day), LostOn(tenant, day));
  }

  // ---------------------------------------------------------------- both bounds are reached

  function Total(ts: seq<nat>): nat { if ts == [] then 0 else Total(ts[..|ts| - 1]) + ts[|ts| - 1] }

  // Everything at instant 0: calls of the given tokens logged, b more stamped.
  ghost function Crowded(ts: seq<nat>, b: nat): Gateway {
    Gateway(seq(|ts| + b, i requires 0 <= i < |ts| + b =>
              if i < |ts| then Call(0, Logged(0, ts[i])) else Call(0, Stamped(0))),
            seq(|ts|, i requires 0 <= i < |ts| => LogRow(0, 0, ts[i])))
  }

  lemma SumPush(calls: seq<Call>, c: Call, f: Call -> nat)
    ensures Sum(calls + [c], f) == Sum(calls, f) + f(c)
  {
    assert (calls + [c])[..|calls|] == calls;
  }

  lemma StampedWeighs(ts: seq<nat>, b: nat, f: Call -> nat)
    ensures Sum(Crowded(ts, b + 1).calls, f) == Sum(Crowded(ts, b).calls, f) + f(Call(0, Stamped(0)))
  {
    assert Crowded(ts, b + 1).calls == Crowded(ts, b).calls + [Call(0, Stamped(0))];
    SumPush(Crowded(ts, b).calls, Call(0, Stamped(0)), f);
  }

  lemma LoggedWeighs(ts: seq<nat>, t: nat, f: Call -> nat)
    ensures Sum(Crowded(ts + [t], 0).calls, f) == Sum(Crowded(ts, 0).calls, f) + f(Call(0, Logged(0, t)))
  {
    assert Crowded(ts + [t], 0).calls == Crowded(ts, 0).calls + [Call(0, Logged(0, t))];
    SumPush(Crowded(ts, 0).calls, Call(0, Logged(0, t)), f);
  }

  lemma {:induction false} CrowdedStamps(ts: seq<nat>, b: nat)
    ensures Sum(Crowded(ts, b).calls, StampedIn(0, 0, MINUTE)) == |ts| + b
    decreases |ts| + b
  {
    if b > 0 {
      CrowdedStamps(ts, b - 1);
      StampedWeighs(ts, b - 1, StampedIn(0, 0, MINUTE));
    } else if ts != [] {
      var init, t := ts[..|ts| - 1], ts[|ts| - 1];
      CrowdedStamps(init, 0);
      assert init + [t] == ts;
      LoggedWeighs(init, t, StampedIn(0, 0, MINUTE));
    }
  }

  lemma {:induction false} CrowdedBusy(ts: seq<nat>, b: nat)
    ensures Sum(Crowded(ts, b).calls, InFlightOf(0)) == b
    decreases |ts| + b
  {
    if b > 0 {
      CrowdedBusy(ts, b - 1);
      StampedWeighs(ts, b - 1, InFlightOf(0));
    } else if ts != [] {
      var init, t := ts[..|ts| - 1], ts[|ts| - 1];
      CrowdedBusy(init, 0);
      assert init + [t] == ts;
      LoggedWeighs(init, t, InFlightOf(0));
    }
  }

  lemma {:induction false} CrowdedTokens(ts: seq<nat>, b: nat)
    ensures Sum(Crowded(ts, b).calls, UsedOn(0, 0)) == Total(ts)
    decreases |ts| + b
  {
    if b > 0 {
      CrowdedTokens(ts, b - 1);
      StampedWeighs(ts, b - 1, UsedOn(0, 0));
    } else if ts != [] {
      var init, t := ts[..|ts| - 1], ts[|ts| - 1];
      CrowdedTokens(init, 0);
      assert init + [t] == ts;
      LoggedWeighs(init, t, UsedOn(0, 0));
    }
  }

  lemma {:induction false} CrowdedLog(ts: seq<nat>, b: nat)
    ensures CountSince(Crowded(ts, b).log, 0, -MINUTE) == |ts|
    ensures TokensSince(Crowded(ts, b).log, 0, 0) == Total(ts)
    decreases |ts|
  {
    if ts != [] {
      var n := |ts| - 1;
      CrowdedLog(ts[..n], b);
      assert Crowded(ts, b).log[..n] == Crowded(ts[..n], b).log;
    }
  }

  // One more call passes both checks.
  predicate Open(cfg: Config, ts: seq<nat>) {
    (cfg.perMinuteCap == 0 || |ts| < cfg.perMinuteCap) && (cfg.dailyTokenCap == 0 || Total(ts) < cfg.dailyTokenCap)
  }

  function With(g: Gateway, phase: Phase): Gateway { g.(calls := g.calls + [Call(0, phase)]) }

  lemma WithOneMore(g: Gateway, phase: Phase)
    requires Call(0, phase).InFlight()
    ensures Sum(With(g, phase).calls, InFlightOf(0)) == Sum(g.calls, InFlightOf(0)) + 1
  {
    assert With(g, phase).calls[..|g.calls|] == g.calls;
  }

  lemma SetLast(g: Gateway, before: Phase, after: Phase)
    ensures SetPhase(With(g, before), |g.calls|, after) == With(g, after)
  {
    assert SetPhase(With(g, before), |g.calls|, after).calls == With(g, after).calls;
  }

  lemma NextChecks(cfg: Config, ts: seq<nat>, b: nat)
    requires Open(cfg, ts)
    ensures Next(cfg, Crowded(ts, b), MinuteCheck(0), 0, With(Crowded(ts, b), Checking))
    ensures Sum(With(Crowded(ts, b), Checking).calls, InFlightOf(0)) == b + 1
  {
    CrowdedLog(ts, b);
    CrowdedBusy(ts, b);
    WithOneMore(Crowded(ts, b), Checking);
  }

  lemma NextIsAdmitted(cfg: Config, ts: seq<nat>, b: nat)
    requires Open(cfg, ts)
    ensures Next(cfg, With(Crowded(ts, b), Checking), DayCheck(|ts| + b), 0, With(Crowded(ts, b), Admitted))
    ensures Sum(With(Crowded(ts, b), Admitted).calls, InFlightOf(0)) == b + 1
  {
    CrowdedLog(ts, b);
    CrowdedBusy(ts, b);
    WithOneMore(Crowded(ts, b), Admitted);
    SetLast(Crowded(ts, b), Checking, Admitted);
  }

  lemma NextIsStamped(cfg: Config, ts: seq<nat>, b: nat)
    ensures Next(cfg, With(Crowded(ts, b), Admitted), Stamp(|ts| + b), 0, Crowded(ts, b + 1))
    ensures Sum(Crowded(ts, b + 1).calls, InFlightOf(0)) == b + 1
  {
    CrowdedBusy(ts, b + 1);
    SetLast(Crowded(ts, b), Admitted, Stamped(0));
    assert With(Crowded(ts, b), Stamped(0)).calls == Crowded(ts, b + 1).calls;
  }

  lemma NextIsLogged(cfg: Config, ts: seq<nat>, b: nat, tokens: nat)
    ensures Next(cfg, Crowded(ts, b + 1), Log(|ts|, tokens), 0, Crowded(ts + [tokens], b))
    ensures Sum(Crowded(ts + [tokens], b).calls, InFlightOf(0)) == b
  {
    CrowdedBusy(ts + [tokens], b);
    var g := Crowded(ts, b + 1);
    assert SetPhase(g, |ts|, Logged(0, tokens)).calls == Crowded(ts + [tokens], b).calls;
    assert g.log + [LogRow(0, 0, tokens)] == Crowded(ts + [tokens], b).log;
  }

  // A run all of whose steps are taken at instant 0.
  ghost predicate IsInstantRun(cfg: Config, run: seq<Gateway>, events: seq<Event>, k: nat) {
    IsRun(cfg, run, events, seq(|events|, i => 0)) && AtMostInFlight(run, 0, k)
  }

  lemma OneStep(cfg: Config, run: seq<Gateway>, events: seq<Event>, k: nat, e: Event, g: Gateway)
    requires IsInstantRun(cfg, run, events, k)
    requires Next(cfg, run[|run| - 1], e, 0, g) && Sum(g.calls, InFlightOf(0)) <= k
    ensures IsInstantRun(cfg, run + [g], events + [e], k)
  {
    var all, steps := run + [g], events + [e];
    forall i | 0 <= i < |steps| ensures Next(cfg, all[i], steps[i], 0, all[i + 1]) {
      if i < |events| { assert Next(cfg, run[i], events[i], seq(|events|, i => 0)[i], run[i + 1]); }
    }
    forall i | 0 <= i < |all| ensures Sum(all[i].calls, InFlightOf(0)) <= k {
      if i < |run| { assert all[i] == run[i]; }
    }
  }

  // The next call passes its checks at instant 0 and is stamped.
  lemma OneMoreCall(cfg: Config, run: seq<Gateway>, events: seq<Event>, k: nat, ts: seq<nat>, b: nat)
    returns (run': seq<Gateway>, events': seq<Event>)
    requires Open(cfg, ts) && b < k
    requires IsInstantRun(cfg, run, events, k) && run[|run| - 1] == Crowded(ts, b)
    ensures IsInstantRun(cfg, run', events', k) && run'[|run'| - 1] == Crowded(ts, b + 1)
  {
    var g1, g2, g3 := With(Crowded(ts, b), Checking), With(Crowded(ts, b), Admitted), Crowded(ts, b + 1);
    var c := |ts| + b;
    NextChecks(cfg, ts, b);
    OneStep(cfg, run, events, k, MinuteCheck(0), g1);
    NextIsAdmitted(cfg, ts, b);
    OneStep(cfg, run + [g1], events + [MinuteCheck(0)], k, DayCheck(c), g2);
    NextIsStamped(cfg, ts, b);
    OneStep(cfg, run + [g1] + [g2], events + [MinuteCheck(0)] + [DayCheck(c)], k, Stamp(c), g3);
    run' := run + [g1] + [g2] + [g3];
    events' := events + [MinuteCheck(0)] + [DayCheck(c)] + [Stamp(c)];
  }

  // The first stamped call is logged.
  lemma LogOne(cfg: Config, run: seq<Gateway>, events: seq<Event>, k: nat, ts: seq<nat>, b: nat, tokens: nat)
    requires IsInstantRun(cfg, run, events, k) && run[|run| - 1] == Crowded(ts, b + 1) && b <= k
    ensures IsInstantRun(cfg, run + [Crowded(ts + [tokens], b)], events + [Log(|ts|, tokens)], k)
  {
    NextIsLogged(cfg, ts, b, tokens);
    OneStep(cfg, run, events, k, Log(|ts|, tokens), Crowded(ts + [tokens], b));
  }

  lemma {:induction false} CrowdedIsReached(cfg: Config, ts: seq<nat>, b: nat, k: nat)
    returns (run: seq<Gateway>, events: seq<Event>)
    requires Open(cfg, ts) && b <= k && k > 0
    ensures IsInstantRun(cfg, run, events, k) && run[|run| - 1] == Crowded(ts, b)
    decreases 2 * |ts| + b
  {
    if b > 0 {
      run, events := CrowdedIsReached(cfg, ts, b - 1, k);
      run, events := OneMoreCall(cfg, run, events, k, ts, b - 1);
    } else if ts == [] {
      run, events := [Gateway([], [])], [];
      assert Crowded([], 0) == Gateway([], []);
    } else {
      var n := |ts| - 1;
      run, events := CrowdedIsReached(cfg, ts[..n], 1, k);
      LogOne(cfg, run, events, k, ts[..n], 0, ts[n]);
      assert ts[..n] + [ts[n]] == ts;
      run, events := run + [Crowded(ts, 0)], events + [Log(n, ts[n])];
    }
  }

  lemma OneLess(ts: seq<nat>, b: nat, m: nat)
    requires b > 0
    ensures Total(ts + [m]) + (b - 1) * m == Total(ts) + b * m
  {
    assert (ts + [m])[..|ts|] == ts;
  }

  // All stamped calls are logged, with m tokens each.
  lemma {:induction false} AllAreLogged(cfg: Config, run: seq<Gateway>, events: seq<Event>, k: nat, ts: seq<nat>,
                                        b: nat, m: nat)
    returns (run': seq<Gateway>, events': seq<Event>, ts': seq<nat>)
    requires IsInstantRun(cfg, run, events, k) && run[|run| - 1] == Crowded(ts, b) && b <= k
    requires forall t :: t in ts ==> t <= m
    ensures IsInstantRun(cfg, run', events', k) && run'[|run'| - 1] == Crowded(ts', 0)
    ensures Total(ts') == Total(ts) + b * m && forall t :: t in ts' ==> t <= m
    decreases b
  {
    if b == 0 {
      run', events', ts' := run, events, ts;
    } else {
      LogOne(cfg, run, events, k, ts, b - 1, m);
      var g := Crowded(ts + [m], b - 1);
      OneLess(ts, b, m);
      assert forall t :: t in ts + [m] ==> t <= m;
      run', events', ts' := AllAreLogged(cfg, run + [g], events + [Log(|ts|, m)], k, ts + [m], b - 1, m);
    }
  }

  function Ones(n: nat): seq<nat> { seq(n, i => 1) }

  lemma {:induction false} TotalOfOnes(n: nat)
    ensures Total(Ones(n)) == n
  {
    if n > 0 {
      TotalOfOnes(n - 1);
      assert Ones(n)[..n - 1] == Ones(n - 1);
    }
  }

  // The per-minute bound is sharp: for every cap and every k some run fills a window with
  // cap + k - 1 calls.
  lemma MinuteBoundIsReached(cap: nat, k: nat)
    requires cap > 0 && k > 0
    ensures exists run: seq<Gateway>, events: seq<Event>, times: seq<nat> ::
              && IsRun(Config(0, cap), run, events, times) && AtMostInFlight(run, 0, k)
              && Sum(run[|run| - 1].calls, StampedIn(0, 0, MINUTE)) == cap + k - 1
  {
    var run, events := CrowdedIsReached(Config(0, cap), Ones(cap - 1), k, k);
    CrowdedStamps(Ones(cap - 1), k);
  }

  // So is the daily one: for every cap, every k and every size m of the largest call some run, none of
  // whose calls is lost, uses cap - 1 + k * m tokens on one day.
  lemma DailyBoundIsReached(cap: nat, k: nat, m: nat)
    requires cap > 0 && k > 0 && m > 0
    ensures exists run: seq<Gateway>, events: seq<Event>, times: seq<nat> ::
              && IsRun(Config(cap, 0), run, events, times) && AtMostInFlight(run, 0, k)
              && (forall c :: c in run[|run| - 1].calls ==> c.phase.Logged? && c.phase.tokens <= m)
              && Sum(run[|run| - 1].calls, UsedOn(0, 0)) == cap - 1 + k * m
  {
    var cfg, ones := Config(cap, 0), Ones(cap - 1);
    TotalOfOnes(cap - 1);
    var run, events := CrowdedIsReached(cfg, ones, k, k);
    var run', events', ts := AllAreLogged(cfg, run, events, k, ones, k, m);
    CrowdedTokens(ts, 0);
    forall c | c in run'[|run'| - 1].calls ensures c.phase.Logged? && c.phase.tokens <= m {
      var i :| 0 <= i < |ts| && Crowded(ts, 0).calls[i] == c;
      assert ts[i] in ts;
    }
  }
}
