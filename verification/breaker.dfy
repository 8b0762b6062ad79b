/** The gateway's circuit breaker, and its behaviour as a function of the calls it has seen. */
module Breaker {
  import opened Options

  datatype Mode = Closed | Open | HalfOpen

  datatype Config = Config(threshold: int, recoveryMs: nat)

  /** The fields of the breaker. */
  datatype Cell = Cell(
    mode: Mode,
    failures: nat,
    lastFailureAt: Option<int>,
    nextProbeAt: Option<int>,
    probeInFlight: bool,
    totalRequests: int,
    totalFailures: nat,
    totalRejected: nat)

  /** A call on the breaker; `IsOpen` and `Failure` read the clock. */
  datatype Call = IsOpen(at: int) | Success | Failure(at: int) | Reset

  const FRESH := Cell(Closed, 0, None, None, false, 0, 0, 0)

  predicate Admits(c: Cell, at: int) {
    || c.mode == Closed
    || (c.mode == Open && c.nextProbeAt.Some? && at >= c.nextProbeAt.value && !c.probeInFlight)
    || (c.mode == HalfOpen && !c.probeInFlight)
  }

  predicate IsProbe(c: Cell, call: Call) {
    call.IsOpen? && c.mode == Open && Admits(c, call.at)
  }

  function Next(cfg: Config, c: Cell, call: Call): Cell {
    match call
    case IsOpen(at) =>
      if IsProbe(c, call) then c.(mode := HalfOpen, probeInFlight := true, totalRequests := c.totalRequests + 1)
      else if Admits(c, at) then c.(totalRequests := c.totalRequests + 1)
      else c.(totalRejected := c.totalRejected + 1)
    case Success => if c.mode == Closed then c else c.(mode := Closed, failures := 0, probeInFlight := false)
    case Failure(at) =>
      var d := c.(totalFailures := c.totalFailures + 1, failures := c.failures + 1, lastFailureAt := Some(at), probeInFlight := false);
      if c.mode == HalfOpen || d.failures >= cfg.threshold then d.(mode := Open, nextProbeAt := Some(at + cfg.recoveryMs)) else d
    case Reset => c.(mode := Closed, failures := 0, probeInFlight := false, nextProbeAt := None)
  }

  function After(cfg: Config, trace: seq<Call>): Cell {
    if trace == [] then FRESH else Next(cfg, After(cfg, trace[..|trace| - 1]), trace[|trace| - 1])
  }

  class CircuitBreaker {
    const threshold: int
    const recoveryMs: nat
    var state: Mode
    var failures: nat
    var lastFailureAt: Option<int>
    var nextProbeAt: Option<int>
    var probeInFlight: bool
    var totalRequests: int
    var totalFailures: nat
    var totalRejected: nat

    ghost function Cfg(): Config { Config(threshold, recoveryMs) }

    ghost function View(): Cell
      reads this
    {
      Cell(state, failures, lastFailureAt, nextProbeAt, probeInFlight, totalRequests, totalFailures, totalRejected)
    }

    constructor (threshold: int, recoveryMs: nat)
      ensures View() == FRESH && Cfg() == Config(threshold, recoveryMs)
    {
      this.threshold, this.recoveryMs := threshold, recoveryMs;
      state, failures, lastFailureAt, nextProbeAt, probeInFlight := Closed, 0, None, None, false;
      totalRequests, totalFailures, totalRejected := 0, 0, 0;
    }

    /** True when the request is to be rejected. */
    method IsOpen(now: int) returns (reject: bool)
      modifies this
      ensures View() == Next(Cfg(), old(View()), Call.IsOpen(now))
      ensures reject == !Admits(old(View()), now)
    {
      totalRequests := totalRequests + 1;
      if state == Closed { return false; }
      if state == Open {
        if nextProbeAt.Some? && now >= nextProbeAt.value && !probeInFlight {
          state, probeInFlight := HalfOpen, true;
          return false;
        }
        totalRejected, totalRequests := totalRejected + 1, totalRequests - 1;
        return true;
      }
      if probeInFlight {
        totalRejected, totalRequests := totalRejected + 1, totalRequests - 1;
        return true;
      }
      return false;
    }

    method RecordSuccess()
      modifies this
      ensures View() == Next(Cfg(), old(View()), Success)
    {
      if state != Closed {
        state, failures, probeInFlight := Closed, 0, false;
      }
    }

    method RecordFailure(now: int)
      modifies this
      ensures View() == Next(Cfg(), old(View()), Failure(now))
    {
      totalFailures, failures, lastFailureAt, probeInFlight := totalFailures + 1, failures + 1, Some(now), false;
      if state == HalfOpen || failures >= threshold {
        state, nextProbeAt := Open, Some(now + recoveryMs);
      }
    }

    method Reset()
      modifies this
      ensures View() == Next(Cfg(), old(View()), Call.Reset)
      ensures state == Closed && failures == 0 && !probeInFlight && nextProbeAt == None
    {
      state, failures, probeInFlight, nextProbeAt := Closed, 0, false, None;
    }
  }

  /** The module's map of breakers, one per downstream service, filled on first use. */
  class Registry {
    const threshold: int
    const recoveryMs: nat
    var breakers: map<string, CircuitBreaker>

    ghost predicate Valid()
      reads this, breakers.Values
    {
      && (forall s <- breakers :: breakers[s].Cfg() == Config(threshold, recoveryMs))
      && (forall s <- breakers, t <- breakers :: s != t ==> breakers[s] != breakers[t])
    }

    constructor (threshold: int, recoveryMs: nat)
      ensures Valid() && breakers == map[]
      ensures this.threshold == threshold && this.recoveryMs == recoveryMs
    {
      this.threshold, this.recoveryMs, breakers := threshold, recoveryMs, map[];
    }

    /** The same service always gets the same breaker, and two services never share one. */
    method GetBreaker(service: string) returns (b: CircuitBreaker)
      requires Valid()
      modifies this
      ensures Valid() && service in breakers && b == breakers[service]
      ensures old(service in breakers) ==> breakers == old(breakers)
      ensures old(service !in breakers) ==> fresh(b) && b.View() == FRESH && breakers == old(breakers)[service := b]
    {
      if service !in breakers {
        var created := new CircuitBreaker(threshold, recoveryMs);
        breakers := breakers[service := created];
      }
      b := breakers[service];
    }

    /** Resets the one breaker named, if it exists, and no other. */
    method ResetBreaker(service: string) returns (found: bool)
      requires Valid()
      modifies breakers.Values
      ensures Valid() && found == (service in breakers)
      ensures found ==> breakers[service].View() == Next(breakers[service].Cfg(), old(breakers[service].View()), Call.Reset)
      ensures forall s <- breakers :: s != service ==> breakers[s].View() == old(breakers[s].View())
    {
      found := service in breakers;
      if found { breakers[service].Reset(); }
    }
  }

  // ---------------------------------------------------------------- the state as a function of the trace

  /** Failures since the breaker last closed, was reset, or began. */
  function FailuresSince(cfg: Config, trace: seq<Call>): nat {
    if trace == [] then 0
    else
      var past := trace[..|trace| - 1];
      match trace[|trace| - 1]
      case IsOpen(_) => FailuresSince(cfg, past)
      case Success => if FailuresSince(cfg, past) >= cfg.threshold then 0 else FailuresSince(cfg, past)
      case Failure(_) => FailuresSince(cfg, past) + 1
      case Reset => 0
  }

  function IsOpenCalls(trace: seq<Call>): nat {
    if trace == [] then 0 else IsOpenCalls(trace[..|trace| - 1]) + if trace[|trace| - 1].IsOpen? then 1 else 0
  }

  /** What every trace establishes when the threshold is positive. */
  ghost predicate TraceLaw(cfg: Config, trace: seq<Call>) {
    var c := After(cfg, trace);
    && c.failures == FailuresSince(cfg, trace)
    && (c.mode == Closed <==> c.failures < cfg.threshold)
    && (c.mode == HalfOpen <==> c.probeInFlight)
    && (c.mode == Open ==> c.nextProbeAt.Some?)
  }

  lemma {:induction false} TraceLawHolds(cfg: Config, trace: seq<Call>)
    requires cfg.threshold >= 1
    ensures TraceLaw(cfg, trace)
  {
    if trace != [] { TraceLawHolds(cfg, trace[..|trace| - 1]); }
  }

  /** A positive threshold is exactly what it takes: with any other the fresh breaker is closed
      although its zero failures already reach the threshold. */
  lemma ModeFromTrace(cfg: Config)
    ensures cfg.threshold >= 1 <==> forall trace :: TraceLaw(cfg, trace)
  {
    if cfg.threshold >= 1 {
      forall trace ensures TraceLaw(cfg, trace) { TraceLawHolds(cfg, trace); }
    } else {
      assert !TraceLaw(cfg, []);
    }
  }

  /** Whatever the threshold: an open breaker has a probe time, a half-open one its probe out. */
  lemma {:induction false} FlagsHold(cfg: Config, trace: seq<Call>)
    ensures var c := After(cfg, trace); (c.mode == Open ==> c.nextProbeAt.Some?) && (c.mode == HalfOpen ==> c.probeInFlight)
  {
    if trace != [] { FlagsHold(cfg, trace[..|trace| - 1]); }
  }

  /** When the last failure was reported. */
  function LastFailure(trace: seq<Call>): Option<int> {
    if trace == [] then None
    else if trace[|trace| - 1].Failure? then Some(trace[|trace| - 1].at)
    else LastFailure(trace[..|trace| - 1])
  }

  /** The recovery time since the last failure is over. */
  predicate Recovered(cfg: Config, trace: seq<Call>, at: int) {
    LastFailure(trace).Some? && at >= LastFailure(trace).value + cfg.recoveryMs
  }

  /** Enough failures, and since then a request after the recovery time that nothing has answered. */
  ghost predicate ProbeOut(cfg: Config, trace: seq<Call>) {
    FailuresSince(cfg, trace) >= cfg.threshold &&
    exists k :: 0 <= k < |trace| && trace[k].IsOpen? && Recovered(cfg, trace, trace[k].at)
                && forall j :: k < j < |trace| ==> trace[j].IsOpen?
  }

  lemma ProbeOutGrows(cfg: Config, trace: seq<Call>)
    requires trace != []
    ensures var past, call := trace[..|trace| - 1], trace[|trace| - 1];
            ProbeOut(cfg, trace) <==>
              call.IsOpen? && FailuresSince(cfg, past) >= cfg.threshold && (ProbeOut(cfg, past) || Recovered(cfg, past, call.at))
  {
    var past, call := trace[..|trace| - 1], trace[|trace| - 1];
    if call.IsOpen? && ProbeOut(cfg, past) {
      var k :| 0 <= k < |past| && past[k].IsOpen? && Recovered(cfg, past, past[k].at) && forall j :: k < j < |past| ==> past[j].IsOpen?;
      assert trace[k] == past[k] && Recovered(cfg, trace, trace[k].at);
      assert forall j :: k < j < |past| ==> trace[j] == past[j];
    }
    if call.IsOpen? && FailuresSince(cfg, past) >= cfg.threshold && Recovered(cfg, past, call.at) {
      assert trace[|past|] == call && Recovered(cfg, trace, trace[|past|].at);
    }
    if ProbeOut(cfg, trace) {
      var k :| 0 <= k < |trace| && trace[k].IsOpen? && Recovered(cfg, trace, trace[k].at) && forall j :: k < j < |trace| ==> trace[j].IsOpen?;
      assert call.IsOpen?;
      if k < |past| {
        assert past[k] == trace[k];
        assert forall j :: k < j < |past| ==> past[j] == trace[j];
      }
    }
  }

  /** The probe is out, and the next one due, as the calls alone say. */
  ghost predicate ProbeLaw(cfg: Config, trace: seq<Call>) {
    var c := After(cfg, trace);
    && c.lastFailureAt == LastFailure(trace)
    && (c.probeInFlight <==> ProbeOut(cfg, trace))
    && (FailuresSince(cfg, trace) >= cfg.threshold ==>
          LastFailure(trace).Some? && c.nextProbeAt == Some(LastFailure(trace).value + cfg.recoveryMs))
  }

  lemma {:induction false} ProbeLawHolds(cfg: Config, trace: seq<Call>)
    requires cfg.threshold >= 1
    ensures ProbeLaw(cfg, trace)
  {
    if trace != [] {
      ProbeLawHolds(cfg, trace[..|trace| - 1]);
      TraceLawHolds(cfg, trace[..|trace| - 1]);
      ProbeOutGrows(cfg, trace);
    }
  }

  /** Who is let through, as a function of the calls: every request while the failures are below the
      threshold, and after that the first request once the recovery time since the last failure is
      over, and then none until that probe is answered. */
  lemma AdmissionFromTrace(cfg: Config, trace: seq<Call>, at: int)
    requires cfg.threshold >= 1
    ensures Admits(After(cfg, trace), at) <==>
              FailuresSince(cfg, trace) < cfg.threshold || (!ProbeOut(cfg, trace) && Recovered(cfg, trace, at))
    ensures IsProbe(After(cfg, trace), IsOpen(at)) <==>
              FailuresSince(cfg, trace) >= cfg.threshold && !ProbeOut(cfg, trace) && Recovered(cfg, trace, at)
  {
    TraceLawHolds(cfg, trace);
    ProbeLawHolds(cfg, trace);
  }

  /** The last branch of `isOpen` is dead: while its probe is out the breaker lets nobody through. */
  lemma HalfOpenRejects(cfg: Config, trace: seq<Call>, at: int)
    requires cfg.threshold >= 1
    ensures ProbeOut(cfg, trace) ==> !Admits(After(cfg, trace), at)
    ensures After(cfg, trace).mode == HalfOpen <==> ProbeOut(cfg, trace)
  {
    TraceLawHolds(cfg, trace);
    ProbeLawHolds(cfg, trace);
  }

  /** The requests of a trace that are turned away. */
  ghost function Rejections(cfg: Config, trace: seq<Call>): nat {
    if trace == [] then 0
    else
      var past, call := trace[..|trace| - 1], trace[|trace| - 1];
      Rejections(cfg, past) +
        if call.IsOpen? && FailuresSince(cfg, past) >= cfg.threshold && (ProbeOut(cfg, past) || !Recovered(cfg, past, call.at))
        then 1 else 0
  }

  function FailureCalls(trace: seq<Call>): nat {
    if trace == [] then 0 else FailureCalls(trace[..|trace| - 1]) + if trace[|trace| - 1].Failure? then 1 else 0
  }

  /** The counters count what they say: requests let through, requests turned away, failures. */
  lemma {:induction false} CountersFromTrace(cfg: Config, trace: seq<Call>)
    requires cfg.threshold >= 1
    ensures var c := After(cfg, trace);
            && c.totalRejected == Rejections(cfg, trace)
            && c.totalRequests == IsOpenCalls(trace) - Rejections(cfg, trace)
            && c.totalFailures == FailureCalls(trace)
  {
    if trace != [] {
      CountersFromTrace(cfg, trace[..|trace| - 1]);
      if trace[|trace| - 1].IsOpen? { AdmissionFromTrace(cfg, trace[..|trace| - 1], trace[|trace| - 1].at); }
    }
  }

  /** Every `isOpen` call is counted once, as a request or as a rejection. */
  lemma {:induction false} CallsAccounted(cfg: Config, trace: seq<Call>)
    ensures var c := After(cfg, trace);
            c.totalRequests >= 0 && c.totalRequests + c.totalRejected == IsOpenCalls(trace)
  {
    if trace != [] { CallsAccounted(cfg, trace[..|trace| - 1]); }
  }

  // ---------------------------------------------------------------- probe spacing

  /** The times at which probes are admitted when `calls` follow state `c`. */
  function Probes(cfg: Config, c: Cell, calls: seq<Call>): seq<int>
    decreases calls
  {
    if calls == [] then []
    else
      var rest := Probes(cfg, Next(cfg, c, calls[0]), calls[1..]);
      if IsProbe(c, calls[0]) then [calls[0].at] + rest else rest
  }

  /** No success or reset, and a clock that never runs back from `from`. */
  ghost predicate Failing(calls: seq<Call>, from: int) {
    calls == [] ||
    ((calls[0].IsOpen? || calls[0].Failure?) && from <= calls[0].at && Failing(calls[1..], calls[0].at))
  }

  /** The earliest time of the next probe, for a clock at `from`. */
  function Earliest(cfg: Config, c: Cell, from: int): int {
    var later := from + cfg.recoveryMs;
    if c.mode == Open && c.nextProbeAt.Some? && c.nextProbeAt.value < later then c.nextProbeAt.value else later
  }

  lemma {:induction false} ProbesApart(cfg: Config, c: Cell, calls: seq<Call>, from: int)
    requires Failing(calls, from)
    requires c.mode == Open ==> c.nextProbeAt.Some?
    requires c.mode == HalfOpen ==> c.probeInFlight
    ensures var ps := Probes(cfg, c, calls);
            && (ps != [] ==> ps[0] >= Earliest(cfg, c, from))
            && forall i :: 0 < i < |ps| ==> ps[i] - ps[i - 1] >= cfg.recoveryMs
    decreases calls
  {
    if calls != [] {
      var next := Next(cfg, c, calls[0]);
      ProbesApart(cfg, next, calls[1..], calls[0].at);
    }
  }

  lemma {:induction false} SpreadOut(ps: seq<int>, gap: nat, i: nat)
    requires i < |ps| && forall j :: 0 < j < |ps| ==> ps[j] - ps[j - 1] >= gap
    ensures ps[i] - ps[0] >= i * gap
  {
    if i > 0 {
      SpreadOut(ps, gap, i - 1);
      assert i * gap == (i - 1) * gap + gap;
    }
  }

  /** Without a success or reset, `k` probes span at least `(k - 1) * recoveryMs`, however many
      failures and rejected requests come between them. */
  lemma ProbeSpacing(cfg: Config, trace: seq<Call>, calls: seq<Call>, from: int)
    requires Failing(calls, from)
    ensures var ps := Probes(cfg, After(cfg, trace), calls);
            ps != [] ==> ps[|ps| - 1] - ps[0] >= (|ps| - 1) * cfg.recoveryMs
  {
    var c := After(cfg, trace);
    var ps := Probes(cfg, c, calls);
    FlagsHold(cfg, trace);
    ProbesApart(cfg, c, calls, from);
    if ps != [] { SpreadOut(ps, cfg.recoveryMs, |ps| - 1); }
  }
}
