/**
  Properties of the countdown that relate several transitions: a full run
  from `start()` to the end, what a stopped or backgrounded countdown does
  when the run loop or the application keeps sending events, and how a
  stored start time resumes in a later process.
 */
module CountdownProperties {
  import opened Wrappers
  import opened CountdownSpec

  /** The whole seconds from, from + 1, ..., from + count - 1. */
  function Seconds(from: int, count: nat): (r: seq<int>)
    ensures |r| == count
    ensures forall k :: 0 <= k < count ==> r[k] == from + k
  {
    if count == 0 then [] else Seconds(from, count - 1) + [from + count - 1]
  }

  /** The values hi, hi - 1, ..., hi - count + 1. */
  function Descending(hi: int, count: nat): (r: seq<int>)
    ensures |r| == count
    ensures forall k :: 0 <= k < count ==> r[k] == hi - k
  {
    if count == 0 then [] else Descending(hi, count - 1) + [hi - count + 1]
  }

  /** The run loop fires the timer at each of `times`, in order. */
  function FireAll(cfg: Config, s: State, times: seq<int>): (r: State)
    requires Valid(s)
    decreases |times|
    ensures Valid(r)
    ensures r.startTime == s.startTime && r.cache == s.cache
    ensures s.delivered <= r.delivered && |r.delivered| <= |s.delivered| + |times|
  {
    if times == [] then s
    else Fire(cfg, FireAll(cfg, s, times[..|times| - 1]), times[|times| - 1])
  }

  lemma {:induction false} FireAllAppend(cfg: Config, s: State, a: seq<int>, b: seq<int>)
    requires Valid(s)
    ensures FireAll(cfg, s, a + b) == FireAll(cfg, FireAll(cfg, s, a), b)
    decreases |b|
  {
    if b == [] {
      assert a + b == a;
    } else {
      assert (a + b)[..|a + b| - 1] == a + b[..|b| - 1];
      FireAllAppend(cfg, s, a, b[..|b| - 1]);
    }
  }

  /** A countdown without a running timer ignores every firing. */
  lemma {:induction false} NotRunningIgnoresFires(cfg: Config, s: State, times: seq<int>)
    requires Valid(s) && !Running(s)
    ensures FireAll(cfg, s, times) == s
    decreases |times|
  {
    if times != [] {
      NotRunningIgnoresFires(cfg, s, times[..|times| - 1]);
    }
  }

  /**
    While fewer than startValue seconds have passed, each firing one second
    apart delivers one less than the last, and the timer keeps running.
   */
  lemma {:induction false} CountsDown(cfg: Config, s: State, j: nat)
    requires Valid(s) && Running(s) && j < cfg.startValue
    ensures Running(FireAll(cfg, s, Seconds(s.startTime + 1, j)))
    ensures FireAll(cfg, s, Seconds(s.startTime + 1, j)).delivered == s.delivered + Descending(cfg.startValue - 1, j)
  {
    if j > 0 {
      var from := s.startTime + 1;
      CountsDown(cfg, s, j - 1);
      var prev := FireAll(cfg, s, Seconds(from, j - 1));
      assert FireAll(cfg, s, Seconds(from, j)) == Fire(cfg, prev, from + j - 1) by {
        assert Seconds(from, j)[..j - 1] == Seconds(from, j - 1);
      }
      assert Interval(cfg.startValue, prev.startTime, from + j - 1) == cfg.startValue - j;
      assert Descending(cfg.startValue - 1, j) == Descending(cfg.startValue - 1, j - 1) + [cfg.startValue - j];
    }
  }

  /**
    The firing startValue seconds after the start delivers 0 and clears the
    timer; later firings deliver nothing.
   */
  lemma CountdownEnds(cfg: Config, s: State, extra: nat)
    requires Valid(s) && Running(s) && cfg.startValue > 0
    ensures FireAll(cfg, s, Seconds(s.startTime + 1, cfg.startValue + extra)).timer.None?
    ensures FireAll(cfg, s, Seconds(s.startTime + 1, cfg.startValue + extra)).delivered
         == s.delivered + Descending(cfg.startValue - 1, cfg.startValue)
  {
    var sv := cfg.startValue;
    var from := s.startTime + 1;
    var ended := LastFiring(cfg, s);
    var rest := Seconds(from + sv, extra);
    calc {
      FireAll(cfg, s, Seconds(from, sv + extra));
      { SecondsAppend(from, sv, extra); }
      FireAll(cfg, s, Seconds(from, sv) + rest);
      { FireAllAppend(cfg, s, Seconds(from, sv), rest); }
      FireAll(cfg, ended, rest);
      { NotRunningIgnoresFires(cfg, ended, rest); }
      ended;
    }
  }

  /** The firing at startValue seconds, which delivers 0 and clears the timer. */
  lemma LastFiring(cfg: Config, s: State) returns (ended: State)
    requires Valid(s) && Running(s) && cfg.startValue > 0
    ensures ended == FireAll(cfg, s, Seconds(s.startTime + 1, cfg.startValue))
    ensures Valid(ended) && ended.timer.None?
    ensures ended.delivered == s.delivered + Descending(cfg.startValue - 1, cfg.startValue)
  {
    var sv := cfg.startValue;
    var from := s.startTime + 1;
    CountsDown(cfg, s, sv - 1);
    var before := FireAll(cfg, s, Seconds(from, sv - 1));
    ended := Fire(cfg, before, s.startTime + sv);
    assert ended == FireAll(cfg, s, Seconds(from, sv)) by {
      assert Seconds(from, sv)[..sv - 1] == Seconds(from, sv - 1);
    }
    assert Interval(sv, s.startTime, s.startTime + sv) == 0;
    assert Descending(sv - 1, sv) == Descending(sv - 1, sv - 1) + [0];
  }

  lemma SecondsAppend(from: int, m: nat, n: nat)
    ensures Seconds(from, m + n) == Seconds(from, m) + Seconds(from + m, n)
  {
  }

  /**
    `start()` at t0 followed by a firing every second: the callback receives
    startValue, startValue - 1, ..., 0, and then the countdown is over.
   */
  lemma StartRunsToZero(cfg: Config, s: State, t0: int, extra: nat)
    requires Valid(s) && cfg.startValue > 0
    ensures var r := FireAll(cfg, Start(cfg, s, t0), Seconds(t0 + 1, cfg.startValue + extra));
            r.timer.None? && r.cache == s.cache &&
            |r.delivered| == |s.delivered| + cfg.startValue + 1 && r.delivered[..|s.delivered|] == s.delivered &&
            forall k :: |s.delivered| <= k < |r.delivered| ==> r.delivered[k] == cfg.startValue - (k - |s.delivered|)
  {
    var r := Start(cfg, s, t0);
    CountdownEnds(cfg, r, extra);
    var d := Descending(cfg.startValue - 1, cfg.startValue);
    var final := FireAll(cfg, r, Seconds(t0 + 1, cfg.startValue + extra));
    assert final.delivered == s.delivered + [cfg.startValue] + d;
    forall k | |s.delivered| <= k < |final.delivered|
      ensures final.delivered[k] == cfg.startValue - (k - |s.delivered|)
    {
      if k > |s.delivered| {
        assert final.delivered[k] == d[k - |s.delivered| - 1];
      }
    }
  }

  /**
    The session "promo1" of 60 seconds, created with no stored entry and
    started at t = 0: the callback receives 60 at once and 59, ..., 0 at
    t = 1, ..., 60, then nothing more.
   */
  lemma Promo1(cache: map<string, int>, extra: nat)
    requires "promo1" !in cache
    ensures var cfg := Config("promo1", 60);
            var r := FireAll(cfg, Start(cfg, Init(cfg, cache, 0), 0), Seconds(1, 60 + extra));
            r.timer.None? && r.cache == cache &&
            |r.delivered| == 61 && forall k :: 0 <= k <= 60 ==> r.delivered[k] == 60 - k
  {
    var cfg := Config("promo1", 60);
    var s0 := Init(cfg, cache, 0);
    assert s0 == Fresh(cache);
    StartRunsToZero(cfg, s0, 0, extra);
  }

  /**
    Going to the background and straight back changes nothing but the
    stored entry: the next firing delivers the value it would have anyway.
   */
  lemma BackgroundForeground(cfg: Config, s: State, now: int)
    requires Valid(s) && Running(s)
    ensures WillEnterForeground(DidEnterBackground(cfg, s)) == s.(cache := s.cache[cfg.identifier := s.startTime])
    ensures Fire(cfg, WillEnterForeground(DidEnterBackground(cfg, s)), now).delivered == Fire(cfg, s, now).delivered
  {
  }

  /** In the background no firing delivers anything. */
  lemma BackgroundSilences(cfg: Config, s: State, times: seq<int>)
    requires Valid(s)
    ensures FireAll(cfg, DidEnterBackground(cfg, s), times) == DidEnterBackground(cfg, s)
  {
    NotRunningIgnoresFires(cfg, DidEnterBackground(cfg, s), times);
  }

  /**
    What a later process finds: after stop, terminate or background with a
    timer, constructing the countdown again starts from the same start time,
    and resumes exactly when the interval at that moment is in the window.
   */
  lemma StoredSessionResumes(cfg: Config, s: State, now: int)
    requires Valid(s) && s.timer.Some?
    ensures var stored := [Stop(cfg, s).cache, WillTerminate(cfg, s).cache, DidEnterBackground(cfg, s).cache];
            forall i :: 0 <= i < 3 ==>
              var q := Init(cfg, stored[i], now);
              q.startTime == s.startTime &&
              (Running(q) <==> InWindow(Interval(cfg.startValue, s.startTime, now), cfg.startValue)) &&
              (Running(q) ==> q.delivered == [Interval(cfg.startValue, s.startTime, now)] && q.cache == stored[i]) &&
              (!Running(q) ==> q.delivered == [] && q.cache == stored[i] - {cfg.identifier})
  {
  }

  /**
    The window (0, startValue] of the interval holds exactly while the time
    elapsed since the start is at least 0 and less than startValue; a clock
    set back before the start time therefore also ends the countdown.
   */
  lemma InWindowIff(startValue: int, startTime: int, now: int)
    ensures InWindow(Interval(startValue, startTime, now), startValue) <==> startTime <= now < startTime + startValue
  {
  }

  /** The events the countdown reacts to after construction. */
  datatype Event =
    | StartAt(now: int)
    | StopNow
    | FireAt(now: int)
    | Terminate
    | Background
    | Foreground

  function Step(cfg: Config, s: State, e: Event): (r: State)
    requires Valid(s)
    ensures Valid(r)
  {
    match e
    case StartAt(now) => Start(cfg, s, now)
    case StopNow => Stop(cfg, s)
    case FireAt(now) => Fire(cfg, s, now)
    case Terminate => WillTerminate(cfg, s)
    case Background => DidEnterBackground(cfg, s)
    case Foreground => WillEnterForeground(s)
  }

  /** The state after the events `es`, in order. */
  function Run(cfg: Config, s: State, es: seq<Event>): (r: State)
    requires Valid(s)
    decreases |es|
    ensures Valid(r)
    ensures |r.live| <= 1
  {
    if es == [] then s else Run(cfg, Step(cfg, s, es[0]), es[1..])
  }

  predicate NoStart(es: seq<Event>)
  {
    forall i :: 0 <= i < |es| ==> !es[i].StartAt?
  }

  /**
    Without a timer and without a `start()`, no event changes anything: no
    callback, no cache write, no timer.
   */
  lemma {:induction false} IdleStaysIdle(cfg: Config, s: State, es: seq<Event>)
    requires Valid(s) && s.timer.None? && NoStart(es)
    ensures Run(cfg, s, es) == s
    decreases |es|
  {
    if es != [] {
      assert Step(cfg, s, es[0]) == s;
      assert NoStart(es[1..]) by {
        forall i | 0 <= i < |es| - 1 ensures !es[1..][i].StartAt? {
          assert es[1..][i] == es[i + 1];
        }
      }
      IdleStaysIdle(cfg, s, es[1..]);
    }
  }

  /** After `stop()` no callback fires until the countdown is started again. */
  lemma StopSilences(cfg: Config, s: State, es: seq<Event>)
    requires Valid(s) && NoStart(es)
    ensures Run(cfg, Stop(cfg, s), es) == Stop(cfg, s)
    ensures Run(cfg, Stop(cfg, s), es).delivered == s.delivered
  {
    IdleStaysIdle(cfg, Stop(cfg, s), es);
  }

  /**
    Until the next `start()`, the start time stays what it is, the callback
    list only grows, and the identifier's cache entry is either the one held
    before or that start time.
   */
  lemma {:induction false} StartTimeFixedUntilRestart(cfg: Config, s: State, t0: int, es: seq<Event>)
    requires Valid(s) && NoStart(es)
    requires s.startTime == t0
    ensures Run(cfg, s, es).startTime == t0
    ensures var r := Run(cfg, s, es);
            cfg.identifier in r.cache ==> r.cache[cfg.identifier] == t0 || (cfg.identifier in s.cache && r.cache[cfg.identifier] == s.cache[cfg.identifier])
    ensures s.delivered <= Run(cfg, s, es).delivered
    decreases |es|
  {
    if es != [] {
      assert NoStart(es[1..]) by {
        forall i | 0 <= i < |es| - 1 ensures !es[1..][i].StartAt? {
          assert es[1..][i] == es[i + 1];
        }
      }
      StartTimeFixedUntilRestart(cfg, Step(cfg, s, es[0]), t0, es[1..]);
    }
  }
}
