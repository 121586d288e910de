/**
  The behaviour of one `Countdown` (Countdown.swift) as pure transitions on
  an abstract state.  Time is a whole number of seconds since the Unix epoch:
  the source truncates every timestamp with `Int(...)` before it subtracts.
  The shared disk cache is a map from identifiers to stored start times, and
  the values handed to the owner's callback are collected in `delivered`.
 */
module CountdownSpec {
  import opened Wrappers

  /** The two values fixed when the countdown is created. */
  datatype Config = Config(identifier: string, startValue: int)

  /**
    A repeating one-second timer.  `id` tells apart the timers one countdown
    creates over its life; `suspended` is true once its fire date has been
    pushed to the distant future.
   */
  datatype Timer = Timer(id: nat, suspended: bool)

  /**
    startTime, currentTime and timer are the fields of the Swift class;
    live is the set of timers still scheduled on the run loop (created and
    not yet invalidated), created the number of timers created so far;
    cache is the disk cache, delivered the callback's arguments in order.
   */
  datatype State = State(
    startTime: int,
    currentTime: int,
    timer: Option<Timer>,
    live: set<nat>,
    created: nat,
    cache: map<string, int>,
    delivered: seq<int>)

  /** Seconds left: the start value minus the whole seconds elapsed. */
  function Interval(startValue: int, startTime: int, now: int): int
  {
    startValue - (now - startTime)
  }

  /** The validity window (0, startValue] the source checks the interval against. */
  predicate InWindow(interval: int, startValue: int)
  {
    0 < interval <= startValue
  }

  /**
    The one-timer invariant: the run loop holds exactly the countdown's own
    timer (or nothing when there is none), and that timer is the last one made.
   */
  predicate Valid(s: State)
  {
    match s.timer
    case None => s.live == {}
    case Some(t) => s.live == {t.id} && t.id < s.created
  }

  /** A timer exists and its fire date is not the distant future. */
  predicate Running(s: State)
  {
    s.timer.Some? && !s.timer.value.suspended
  }

  /** The state of a freshly allocated object, before the cache is consulted. */
  function Fresh(cache: map<string, int>): State
  {
    State(0, 0, None, {}, 0, cache, [])
  }

  /** `timer?.invalidate(); timer = nil`. */
  function Invalidate(s: State): (r: State)
    requires Valid(s)
    ensures Valid(r) && r.timer.None? && r.live == {}
    ensures r == s.(timer := None, live := {})
  {
    match s.timer
    case None => s
    case Some(t) => s.(timer := None, live := s.live - {t.id})
  }

  /**
    `timeUpdate(timer:)`: compute the interval at `now`, hand it to the
    callback whatever its value, and invalidate the timer when the interval
    has left the window.
   */
  function TimeUpdate(cfg: Config, s: State, now: int): (r: State)
    requires Valid(s)
    ensures Valid(r)
    ensures r.delivered == s.delivered + [Interval(cfg.startValue, s.startTime, now)]
    ensures r.currentTime == now
    ensures r.timer == if InWindow(Interval(cfg.startValue, s.startTime, now), cfg.startValue) then s.timer else None
    ensures r.startTime == s.startTime && r.cache == s.cache && r.created == s.created
  {
    var interval := Interval(cfg.startValue, s.startTime, now);
    var s1 := s.(currentTime := now, delivered := s.delivered + [interval]);
    if InWindow(interval, cfg.startValue) then s1 else Invalidate(s1)
  }

  /**
    `startCountdown()`: invalidate any existing timer, schedule a new one and
    fire it at once.
   */
  function StartCountdown(cfg: Config, s: State, now: int): (r: State)
    requires Valid(s)
    ensures Valid(r)
    ensures r.created == s.created + 1
    ensures s.timer.Some? ==> s.timer.value.id !in r.live
    ensures r.live <= {s.created}
    ensures r.delivered == s.delivered + [Interval(cfg.startValue, s.startTime, now)]
    ensures r.timer.Some? <==> InWindow(Interval(cfg.startValue, s.startTime, now), cfg.startValue)
    ensures r.timer.Some? ==> Running(r)
    ensures r.startTime == s.startTime && r.cache == s.cache
  {
    var s1 := Invalidate(s);
    var t := Timer(s1.created, false);
    var s2 := s1.(timer := Some(t), live := s1.live + {t.id}, created := s1.created + 1);
    TimeUpdate(cfg, s2, now)
  }

  /**
    `init`: with an entry under the identifier, take it as the start time and
    resume when the interval is in the window, or remove the stale entry.
   */
  function Init(cfg: Config, cache: map<string, int>, now: int): (r: State)
    ensures Valid(r)
    ensures cfg.identifier !in cache ==> r == Fresh(cache)
    ensures cfg.identifier in cache ==> r.startTime == cache[cfg.identifier] && r.currentTime == now
    ensures cfg.identifier in cache && InWindow(Interval(cfg.startValue, cache[cfg.identifier], now), cfg.startValue) ==>
      Running(r) && r.cache == cache && r.delivered == [Interval(cfg.startValue, cache[cfg.identifier], now)]
    ensures cfg.identifier in cache && !InWindow(Interval(cfg.startValue, cache[cfg.identifier], now), cfg.startValue) ==>
      r.timer.None? && r.cache == cache - {cfg.identifier} && r.delivered == []
  {
    var s := Fresh(cache);
    if cfg.identifier in cache then
      var s1 := s.(startTime := cache[cfg.identifier], currentTime := now);
      if InWindow(Interval(cfg.startValue, s1.startTime, now), cfg.startValue) then
        StartCountdown(cfg, s1, now)
      else
        s1.(cache := cache - {cfg.identifier})
    else
      s
  }

  /** `start()`: record `now` as the start time and start the countdown. */
  function Start(cfg: Config, s: State, now: int): (r: State)
    requires Valid(s)
    ensures Valid(r)
    ensures r.startTime == now && r.cache == s.cache
    ensures r.delivered == s.delivered + [cfg.startValue]
    ensures Running(r) <==> cfg.startValue > 0
    ensures r.timer.Some? <==> cfg.startValue > 0
    ensures s.timer.Some? ==> s.timer.value.id !in r.live
  {
    StartCountdown(cfg, s.(startTime := now), now)
  }

  /**
    `stop()`: with a timer, invalidate it and store the start time under the
    identifier; with none, do nothing.
   */
  function Stop(cfg: Config, s: State): (r: State)
    requires Valid(s)
    ensures Valid(r) && r.timer.None? && r.live == {}
    ensures s.timer.Some? ==> r.cache == s.cache[cfg.identifier := s.startTime]
    ensures s.timer.None? ==> r == s
    ensures r.startTime == s.startTime && r.delivered == s.delivered
  {
    if s.timer.Some? then
      Invalidate(s).(cache := s.cache[cfg.identifier := s.startTime])
    else
      s
  }

  /** The run loop fires the timer: only a live timer whose fire date has come. */
  function Fire(cfg: Config, s: State, now: int): (r: State)
    requires Valid(s)
    ensures Valid(r)
    ensures !Running(s) ==> r == s
    ensures Running(s) ==> r.delivered == s.delivered + [Interval(cfg.startValue, s.startTime, now)]
    ensures Running(s) ==> (Running(r) <==> InWindow(Interval(cfg.startValue, s.startTime, now), cfg.startValue))
    ensures r.startTime == s.startTime && r.cache == s.cache
  {
    if Running(s) then TimeUpdate(cfg, s, now) else s
  }

  /** `UIApplicationWillTerminate`: store the start time when a timer exists. */
  function WillTerminate(cfg: Config, s: State): (r: State)
    requires Valid(s)
    ensures Valid(r)
    ensures s.timer.Some? ==> r == s.(cache := s.cache[cfg.identifier := s.startTime])
    ensures s.timer.None? ==> r == s
  {
    if s.timer.Some? then s.(cache := s.cache[cfg.identifier := s.startTime]) else s
  }

  /**
    `UIApplicationDidEnterBackground`: when a timer exists, store the start
    time and push the timer's fire date to the distant future.
   */
  function DidEnterBackground(cfg: Config, s: State): (r: State)
    requires Valid(s)
    ensures Valid(r) && !Running(r)
    ensures s.timer.Some? ==> r.cache == s.cache[cfg.identifier := s.startTime]
    ensures s.timer.Some? ==> r.timer == Some(s.timer.value.(suspended := true)) && r.live == s.live
    ensures s.timer.None? ==> r == s
    ensures r.startTime == s.startTime && r.delivered == s.delivered
  {
    match s.timer
    case None => s
    case Some(t) =>
      s.(cache := s.cache[cfg.identifier := s.startTime], timer := Some(t.(suspended := true)))
  }

  /**
    `UIApplicationWillEnterForeground`: when a timer exists, set its fire date
    to now, which resumes a suspended timer; nothing is written.
   */
  function WillEnterForeground(s: State): (r: State)
    requires Valid(s)
    ensures Valid(r)
    ensures s.timer.Some? ==> Running(r) && r == s.(timer := Some(s.timer.value.(suspended := false)))
    ensures s.timer.None? ==> r == s
  {
    match s.timer
    case None => s
    case Some(t) => s.(timer := Some(t.(suspended := false)))
  }
}
