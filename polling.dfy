/** PollingService: a fixed-interval fetch loop with start, stop and restart. Time is an abstract
    millisecond clock that only `AdvanceTime` moves; the API's answers are a function from the
    number of the fetch to its outcome; emitted events, alerts and cleared timers go to a log. */
module Polling {
  import opened Wrappers
  import opened Constants
  import opened Catalog
  import opened Events

  /** How `apiService.getAllMediaItems()` settles: resolved with items, or rejected. */
  datatype FetchOutcome = Success(items: seq<Media>) | Failure

  /** What the service does that the outside world can see. */
  datatype Output =
    | Emitted(event: Event)
    | Alerted
    | IntervalCleared(intervalId: nat)

  /** The delay an interval timer actually waits: the clock's resolution is one millisecond,
      so a delay below 1 waits 1. */
  function TimerPeriod(ms: int): (p: nat)
    ensures p >= 1
    ensures ms >= 1 ==> p == ms
  {
    if ms < 1 then 1 else ms
  }

  /** How often a timer first due at `due` and repeating every `period` fires up to and
      including time `until`. */
  function Firings(due: nat, period: nat, until: nat): nat
    requires period >= 1
    decreases if due <= until then until - due + 1 else 0
  {
    if due > until then 0 else 1 + Firings(due + period, period, until)
  }

  /** A timer fires once within one period of its due time, and not before it is due. */
  lemma FiringsWithinOnePeriod(due: nat, period: nat, until: nat)
    requires period >= 1
    ensures until < due ==> Firings(due, period, until) == 0
    ensures due <= until < due + period ==> Firings(due, period, until) == 1
  {
  }

  /** When a timer first due at `due` with that period is due next once the clock reads `until`:
      as it was if it has not fired yet, otherwise after `until` but within one period of it. */
  function NextDue(due: nat, period: nat, until: nat): (r: nat)
    requires period >= 1
    decreases if due <= until then until - due + 1 else 0
    ensures due > until ==> r == due
    ensures due <= until ==> until < r <= until + period
  {
    if due > until then due else NextDue(due + period, period, until)
  }

  /** `stop`: clears the interval if there is one. */
  function StopOutputs(intervalId: Option<nat>): seq<Output> {
    if intervalId.Some? then [IntervalCleared(intervalId.value)] else []
  }

  /** One poll: a success emits EVENT_POLLING_RESULT with the items; a failure stops the
      timer and raises an alert. */
  function PollOutputs(outcome: FetchOutcome, intervalId: Option<nat>): seq<Output> {
    match outcome
    case Success(items) => [Emitted(Event(EventPollingResult, PollingResult(items)))]
    case Failure => StopOutputs(intervalId) + [Alerted]
  }

  /** How many of `scheduled` timer-driven polls run, the first with fetch number `from`:
      all of them, unless one fails, which is then the last. */
  function TimedPolls(api: nat -> FetchOutcome, from: nat, scheduled: nat): (n: nat)
    decreases scheduled
    ensures n <= scheduled
  {
    if scheduled == 0 then 0
    else if api(from).Failure? then 1
    else 1 + TimedPolls(api, from + 1, scheduled - 1)
  }

  /** The timer-driven polls that run are all successful but the last, and fewer than
      scheduled run only because the last of them failed. */
  lemma {:induction false} TimedPollsStopAtFailure(api: nat -> FetchOutcome, from: nat, scheduled: nat)
    ensures var n := TimedPolls(api, from, scheduled);
      && (forall k :: from <= k && k + 1 < from + n ==> api(k).Success?)
      && (n < scheduled ==> 0 < n && api(from + n - 1).Failure?)
    decreases scheduled
  {
    if scheduled > 0 && api(from).Success? {
      TimedPollsStopAtFailure(api, from + 1, scheduled - 1);
    }
  }

  /** What those polls log. */
  function TimedLog(api: nat -> FetchOutcome, from: nat, scheduled: nat, intervalId: Option<nat>): seq<Output>
    decreases scheduled
  {
    if scheduled == 0 then []
    else if api(from).Failure? then PollOutputs(api(from), intervalId)
    else PollOutputs(api(from), intervalId) + TimedLog(api, from + 1, scheduled - 1, intervalId)
  }

  /** The part of the service the interval timer changes. */
  datatype TimerState = TimerState(fetchCount: nat, intervalId: Option<nat>, nextDue: nat, log: seq<Output>)

  /** The timer fires once: the callback polls with the next fetch, and the timer is next due
      a period later. */
  function Fire(api: nat -> FetchOutcome, s: TimerState, period: nat): TimerState {
    var outcome := api(s.fetchCount);
    TimerState(s.fetchCount + 1, if outcome.Success? then s.intervalId else None,
               s.nextDue + period, s.log + PollOutputs(outcome, s.intervalId))
  }

  /** The timer fires at every due time up to `until`, as long as it has not been cleared. */
  function RunTimers(api: nat -> FetchOutcome, s: TimerState, period: nat, until: nat): TimerState
    requires period >= 1
    decreases if s.nextDue <= until then until - s.nextDue + 1 else 0
  {
    if s.intervalId.None? || until < s.nextDue then s
    else RunTimers(api, Fire(api, s, period), period, until)
  }

  /** Running the timer up to `until` performs the scheduled polls until one fails, and logs
      what those polls do. */
  lemma {:induction false} RunTimersPolls(api: nat -> FetchOutcome, s: TimerState, period: nat, until: nat)
    requires period >= 1
    ensures var r := RunTimers(api, s, period, until);
      var scheduled := if s.intervalId.Some? then Firings(s.nextDue, period, until) else 0;
      && r.fetchCount == s.fetchCount + TimedPolls(api, s.fetchCount, scheduled)
      && r.log == s.log + TimedLog(api, s.fetchCount, scheduled, s.intervalId)
    decreases if s.nextDue <= until then until - s.nextDue + 1 else 0
  {
    if s.intervalId.Some? && s.nextDue <= until {
      var next := Fire(api, s, period);
      RunTimersPolls(api, next, period, until);
      var outcome := api(s.fetchCount);
      if outcome.Success? {
        var rest := TimedLog(api, next.fetchCount, Firings(next.nextDue, period, until), s.intervalId);
        assert RunTimers(api, s, period, until).log == s.log + PollOutputs(outcome, s.intervalId) + rest;
        assert s.log + (PollOutputs(outcome, s.intervalId) + rest) == s.log + PollOutputs(outcome, s.intervalId) + rest;
      }
    }
  }

  /** The timer is still running after `until` exactly when none of the polls it made failed,
      and then it is next due within a period of `until`. */
  lemma {:induction false} RunTimersStops(api: nat -> FetchOutcome, s: TimerState, period: nat, until: nat)
    requires period >= 1
    ensures var r := RunTimers(api, s, period, until);
      && s.fetchCount <= r.fetchCount
      && r.intervalId == (if forall k :: s.fetchCount <= k < r.fetchCount ==> api(k).Success? then s.intervalId else None)
      && (r.intervalId.Some? ==> r.nextDue == NextDue(s.nextDue, period, until))
    decreases if s.nextDue <= until then until - s.nextDue + 1 else 0
  {
    if s.intervalId.Some? && s.nextDue <= until {
      var next := Fire(api, s, period);
      RunTimersStops(api, next, period, until);
      if api(s.fetchCount).Failure? {
        assert RunTimers(api, s, period, until) == next;
        assert !api(s.fetchCount).Success?;
      }
    }
  }

  /** The handler id of the callback `(seconds) => this.restartWithNewIntervalSeconds(seconds)`
      that `init` subscribes. */
  const IntervalChangedHandler: HandlerId := 0

  class PollingService {
    /** `apiService.getAllMediaItems()`: the outcome of fetch number n, counting from 0. */
    const api: nat -> FetchOutcome
    /** The running interval timer's id, `None` for `null`. */
    var pollingIntervalId: Option<nat>
    var pollingIntervalMilliseconds: int
    /** The clock, in milliseconds. */
    var now: nat
    /** When the interval timer fires next, and the period it was started with. */
    var nextDue: nat
    var period: nat
    /** How many fetches were issued. */
    var fetchCount: nat
    /** The id the next `setInterval` returns. */
    var nextIntervalId: nat
    var log: seq<Output>

    ghost predicate Valid()
      reads this
    {
      period >= 1 && (pollingIntervalId.Some? ==> now < nextDue <= now + period)
    }

    /** The fields the interval timer changes. */
    function State(): TimerState
      reads this
    {
      TimerState(fetchCount, pollingIntervalId, nextDue, log)
    }

    /** A new service: no interval, the default cadence POLLING_INTERVAL_MS. */
    constructor (api: nat -> FetchOutcome)
      ensures Valid()
      ensures this.api == api && pollingIntervalId == None
      ensures pollingIntervalMilliseconds == PollingIntervalMs
      ensures now == 0 && fetchCount == 0 && nextIntervalId == 1 && log == []
    {
      this.api := api;
      pollingIntervalId := None;
      pollingIntervalMilliseconds := PollingIntervalMs;
      now := 0;
      nextDue := 0;
      period := TimerPeriod(PollingIntervalMs);
      fetchCount := 0;
      nextIntervalId := 1;
      log := [];
    }

    /** `setPollingIntervalMilliseconds(ms)`: only the cadence for the next start changes. */
    method SetPollingIntervalMilliseconds(ms: int)
      requires Valid()
      modifies this
      ensures Valid()
      ensures pollingIntervalMilliseconds == ms
      ensures pollingIntervalId == old(pollingIntervalId) && now == old(now) && nextDue == old(nextDue)
      ensures period == old(period) && fetchCount == old(fetchCount)
      ensures nextIntervalId == old(nextIntervalId) && log == old(log)
    {
      pollingIntervalMilliseconds := ms;
    }

    /** `stop`: clears the interval when there is one, and forgets its id. */
    method Stop()
      requires Valid()
      modifies this
      ensures Valid()
      ensures pollingIntervalId == None
      ensures log == old(log) + StopOutputs(old(pollingIntervalId))
      ensures pollingIntervalMilliseconds == old(pollingIntervalMilliseconds) && now == old(now)
      ensures nextDue == old(nextDue) && period == old(period)
      ensures fetchCount == old(fetchCount) && nextIntervalId == old(nextIntervalId)
    {
      if pollingIntervalId.Some? {
        log := log + [IntervalCleared(pollingIntervalId.value)];
        pollingIntervalId := None;
      }
    }

    /** `poll`: issues the next fetch and handles its outcome. */
    method Poll()
      requires Valid()
      modifies this
      ensures Valid()
      ensures fetchCount == old(fetchCount) + 1
      ensures log == old(log) + PollOutputs(api(old(fetchCount)), old(pollingIntervalId))
      ensures pollingIntervalId == if api(old(fetchCount)).Success? then old(pollingIntervalId) else None
      ensures pollingIntervalMilliseconds == old(pollingIntervalMilliseconds) && now == old(now)
      ensures nextDue == old(nextDue) && period == old(period) && nextIntervalId == old(nextIntervalId)
    {
      var outcome := api(fetchCount);
      fetchCount := fetchCount + 1;
      match outcome {
        case Success(items) =>
          log := log + [Emitted(Event(EventPollingResult, PollingResult(items)))];
        case Failure =>
          Stop();
          log := log + [Alerted];
      }
    }

    /** `start`: sets up an interval timer with the current cadence and polls once at once.
        A failed first fetch stops that timer again. */
    method Start()
      requires Valid()
      modifies this
      ensures Valid()
      ensures period == TimerPeriod(pollingIntervalMilliseconds) && nextDue == now + period
      ensures nextIntervalId == old(nextIntervalId) + 1
      ensures fetchCount == old(fetchCount) + 1
      ensures pollingIntervalId ==
        if api(old(fetchCount)).Success? then Some(old(nextIntervalId)) else None
      ensures log == old(log) + PollOutputs(api(old(fetchCount)), Some(old(nextIntervalId)))
      ensures pollingIntervalMilliseconds == old(pollingIntervalMilliseconds) && now == old(now)
    {
      pollingIntervalId := Some(nextIntervalId);
      nextIntervalId := nextIntervalId + 1;
      period := TimerPeriod(pollingIntervalMilliseconds);
      nextDue := now + period;
      Poll();
    }

    /** `restart`: `stop`, then `start`. */
    method Restart()
      requires Valid()
      modifies this
      ensures Valid()
      ensures period == TimerPeriod(pollingIntervalMilliseconds) && nextDue == now + period
      ensures nextIntervalId == old(nextIntervalId) + 1
      ensures fetchCount == old(fetchCount) + 1
      ensures pollingIntervalId ==
        if api(old(fetchCount)).Success? then Some(old(nextIntervalId)) else None
      ensures log == old(log) + StopOutputs(old(pollingIntervalId))
        + PollOutputs(api(old(fetchCount)), Some(old(nextIntervalId)))
      ensures pollingIntervalMilliseconds == old(pollingIntervalMilliseconds) && now == old(now)
    {
      Stop();
      Start();
    }

    /** `restartWithNewIntervalSeconds(s)`: the cadence becomes `s * 1000` ms, then restarts. */
    method RestartWithNewIntervalSeconds(seconds: int)
      requires Valid()
      modifies this
      ensures Valid()
      ensures pollingIntervalMilliseconds == seconds * 1000
      ensures period == TimerPeriod(seconds * 1000) && nextDue == now + period
      ensures nextIntervalId == old(nextIntervalId) + 1
      ensures fetchCount == old(fetchCount) + 1
      ensures pollingIntervalId ==
        if api(old(fetchCount)).Success? then Some(old(nextIntervalId)) else None
      ensures log == old(log) + StopOutputs(old(pollingIntervalId))
        + PollOutputs(api(old(fetchCount)), Some(old(nextIntervalId)))
      ensures now == old(now)
    {
      SetPollingIntervalMilliseconds(seconds * 1000);
      Restart();
    }

    /** `init`: subscribes the service's callback, `IntervalChangedHandler`, to
        EVENT_POLLING_INTERVAL_CHANGED. */
    method Init(eventEmitter: EventEmitter<Payload>)
      modifies eventEmitter
      ensures eventEmitter.onSubscribers.Keys == old(eventEmitter.onSubscribers.Keys) + {EventPollingIntervalChanged}
      ensures eventEmitter.SubscribersOf(EventPollingIntervalChanged) ==
        old(eventEmitter.SubscribersOf(EventPollingIntervalChanged)) + [IntervalChangedHandler]
      ensures forall k :: k in old(eventEmitter.onSubscribers) && k != EventPollingIntervalChanged ==>
        eventEmitter.onSubscribers[k] == old(eventEmitter.onSubscribers[k])
    {
      eventEmitter.On(EventPollingIntervalChanged, IntervalChangedHandler);
    }

    /** The callback `init` subscribes, run for one delivery: an interval in seconds delivered to
        it is passed to `restartWithNewIntervalSeconds`; a delivery to another handler is not
        this service's business and changes nothing. */
    method HandleDelivery(delivery: Delivery<Payload>)
      requires Valid()
      modifies this
      ensures Valid()
      ensures delivery.handler == IntervalChangedHandler && delivery.payload.IntervalSeconds? ==>
        var seconds := delivery.payload.seconds;
        && pollingIntervalMilliseconds == seconds * 1000
        && period == TimerPeriod(seconds * 1000) && nextDue == now + period
        && nextIntervalId == old(nextIntervalId) + 1
        && fetchCount == old(fetchCount) + 1
        && pollingIntervalId == (if api(old(fetchCount)).Success? then Some(old(nextIntervalId)) else None)
        && log == old(log) + StopOutputs(old(pollingIntervalId))
           + PollOutputs(api(old(fetchCount)), Some(old(nextIntervalId)))
      ensures !(delivery.handler == IntervalChangedHandler && delivery.payload.IntervalSeconds?) ==>
        unchanged(this)
      ensures now == old(now)
    {
      if delivery.handler == IntervalChangedHandler && delivery.payload.IntervalSeconds? {
        RestartWithNewIntervalSeconds(delivery.payload.seconds);
      }
    }

    /** The interval timer fires: the clock reads its due time and the callback polls. */
    method FireTimer()
      requires Valid() && pollingIntervalId.Some?
      modifies this
      ensures Valid()
      ensures State() == Fire(api, old(State()), period) && now == old(nextDue)
      ensures period == old(period) && nextIntervalId == old(nextIntervalId)
      ensures pollingIntervalMilliseconds == old(pollingIntervalMilliseconds)
    {
      now := nextDue;
      nextDue := nextDue + period;
      Poll();
    }

    /** The clock moves `elapsed` ms on. The interval timer, if any, fires at each due time on
        the way and polls; a failed poll stops it, and then nothing fires any more. */
    method AdvanceTime(elapsed: nat)
      requires Valid()
      modifies this
      ensures Valid()
      ensures now == old(now) + elapsed
      ensures State() == RunTimers(api, old(State()), period, now)
      ensures var scheduled := if old(pollingIntervalId).Some? then Firings(old(nextDue), period, now) else 0;
        && fetchCount == old(fetchCount) + TimedPolls(api, old(fetchCount), scheduled)
        && log == old(log) + TimedLog(api, old(fetchCount), scheduled, old(pollingIntervalId))
      ensures pollingIntervalId ==
        if forall k :: old(fetchCount) <= k < fetchCount ==> api(k).Success? then old(pollingIntervalId) else None
      ensures pollingIntervalId.Some? ==> nextDue == NextDue(old(nextDue), period, now)
      ensures period == old(period) && nextIntervalId == old(nextIntervalId)
      ensures pollingIntervalMilliseconds == old(pollingIntervalMilliseconds)
    {
      var until := now + elapsed;
      ghost var start := State();
      while pollingIntervalId.Some? && nextDue <= until
        invariant Valid() && old(now) <= now <= until
        invariant RunTimers(api, State(), period, until) == RunTimers(api, start, period, until)
        invariant period == old(period) && nextIntervalId == old(nextIntervalId)
        invariant pollingIntervalMilliseconds == old(pollingIntervalMilliseconds)
        decreases until - nextDue
      {
        FireTimer();
      }
      now := until;
      RunTimersPolls(api, start, period, until);
      RunTimersStops(api, start, period, until);
    }
  }

  /** `start` polls once at once; the timer polls again after one interval and not before. */
  method StartThenIntervalScenario(api: nat -> FetchOutcome)
    returns (afterStart: nat, beforeInterval: nat, afterInterval: nat, running: bool)
    requires api(0).Success? && api(1).Success?
    ensures afterStart == 1 && beforeInterval == 1 && afterInterval == 2 && running
  {
    var service := new PollingService(api);
    service.Start();
    afterStart := service.fetchCount;
    service.AdvanceTime(PollingIntervalMs - 1);
    beforeInterval := service.fetchCount;
    FiringsWithinOnePeriod(PollingIntervalMs, PollingIntervalMs, PollingIntervalMs - 1);
    assert service.nextDue == PollingIntervalMs;
    service.AdvanceTime(1);
    FiringsWithinOnePeriod(PollingIntervalMs, PollingIntervalMs, PollingIntervalMs);
    afterInterval := service.fetchCount;
    running := service.pollingIntervalId.Some?;
  }

  /** A failed fetch stops the timer and alerts; however long one waits, no poll follows. */
  method FailedFetchStopsScenario(api: nat -> FetchOutcome, elapsed: nat)
    returns (outputs: seq<Output>, polls: nat, running: bool)
    requires api(0).Failure?
    ensures outputs == [IntervalCleared(1), Alerted] && polls == 1 && !running
  {
    var service := new PollingService(api);
    service.Start();
    service.AdvanceTime(elapsed);
    outputs := service.log;
    polls := service.fetchCount;
    running := service.pollingIntervalId.Some?;
  }

  /** `stop` with no interval clears nothing; after `start` it clears exactly that interval
      and the id is `null` again. */
  method StopScenario(api: nat -> FetchOutcome)
    returns (idAtFirst: Option<nat>, clearedByFirstStop: seq<Output>, idWhileRunning: Option<nat>,
             clearedBySecondStop: seq<Output>, idAfterStop: Option<nat>)
    requires api(0).Success?
    ensures idAtFirst == None && clearedByFirstStop == []
    ensures idWhileRunning.Some? && clearedBySecondStop == [IntervalCleared(idWhileRunning.value)]
    ensures idAfterStop == None
  {
    var service := new PollingService(api);
    idAtFirst := service.pollingIntervalId;
    service.Stop();
    clearedByFirstStop := service.log;
    service.Start();
    idWhileRunning := service.pollingIntervalId;
    var logBefore := service.log;
    service.Stop();
    clearedBySecondStop := service.log[|logBefore|..];
    idAfterStop := service.pollingIntervalId;
  }

  /** Scenario: after `init`, emitting EVENT_POLLING_INTERVAL_CHANGED with 40 seconds reaches the
      service's callback once, which restarts polling every 40000 ms with one immediate poll. */
  method IntervalChangedScenario(api: nat -> FetchOutcome, seconds: int)
    returns (deliveries: seq<Delivery<Payload>>, cadence: int, polls: nat)
    ensures deliveries == [Delivery(IntervalChangedHandler, IntervalSeconds(seconds))]
    ensures cadence == seconds * 1000 && polls == 1
  {
    var service := new PollingService(api);
    var eventEmitter := new EventEmitter<Payload>();
    service.Init(eventEmitter);
    deliveries := eventEmitter.Emit(EventPollingIntervalChanged, IntervalSeconds(seconds));
    service.HandleDelivery(deliveries[0]);
    cadence := service.pollingIntervalMilliseconds;
    polls := service.fetchCount;
  }
}
