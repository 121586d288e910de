/**
  The `Countdown` class of Countdown.swift.  Each method changes the fields
  in place as the Swift method does, and its contract ties the new abstract
  state to the matching transition of `CountdownSpec`.  The wall clock is the
  parameter `now`; the owner's callback is the growing sequence `delivered`;
  each lifecycle notification and each firing of the timer by the run loop is
  a method of its own.
 */
module Countdowns {
  import opened Wrappers
  import opened DiskStore
  import Spec = CountdownSpec

  class Countdown {
    const identifier: string
    const startValue: int
    /** The shared disk cache (`PINCache.shared.diskCache`). */
    const diskCache: DiskCache

    var startTime: int
    var currentTime: int
    var timer: Option<Spec.Timer>
    /** Timers of this countdown still scheduled on the run loop. */
    var live: set<nat>
    /** Number of timers this countdown has created. */
    var created: nat
    /** The arguments passed to the owner's callback, in order. */
    var delivered: seq<int>

    function Config(): Spec.Config
      reads this
    {
      Spec.Config(identifier, startValue)
    }

    function Abstract(): Spec.State
      reads this, diskCache
    {
      Spec.State(startTime, currentTime, timer, live, created, diskCache.entries, delivered)
    }

    predicate Valid()
      reads this, diskCache
    {
      Spec.Valid(Abstract())
    }

    /** `init(identifier:startValue:timeUpdate:)`, at wall-clock time `now`. */
    constructor (identifier: string, startValue: int, diskCache: DiskCache, now: int)
      modifies diskCache
      ensures this.diskCache == diskCache && Config() == Spec.Config(identifier, startValue)
      ensures Valid()
      ensures Abstract() == Spec.Init(Config(), old(diskCache.entries), now)
    {
      this.identifier := identifier;
      this.startValue := startValue;
      this.diskCache := diskCache;
      startTime, currentTime := 0, 0;
      timer, live, created := None, {}, 0;
      delivered := [];
      new;
      if diskCache.ContainsObject(identifier) {
        startTime := diskCache.Object(identifier);
        currentTime := now;
        var interval := Spec.Interval(startValue, startTime, currentTime);
        if 0 < interval && interval <= startValue {
          StartCountdown(now);
        } else {
          diskCache.RemoveObject(identifier);
        }
      }
    }

    /** `start()`. */
    method Start(now: int)
      requires Valid()
      modifies this
      ensures Valid()
      ensures Abstract() == Spec.Start(Config(), old(Abstract()), now)
    {
      startTime := now;
      StartCountdown(now);
    }

    /** `stop()`. */
    method Stop()
      requires Valid()
      modifies this, diskCache
      ensures Valid()
      ensures Abstract() == Spec.Stop(Config(), old(Abstract()))
    {
      if timer != None {
        InvalidateTimer();
        diskCache.SetObject(startTime, identifier);
      }
    }

    /** `deinit`, which stops the countdown. */
    method Deinit()
      requires Valid()
      modifies this, diskCache
      ensures Valid()
      ensures Abstract() == Spec.Stop(Config(), old(Abstract()))
    {
      Stop();
    }

    /** `timer?.invalidate(); timer = nil`. */
    method InvalidateTimer()
      requires Valid()
      modifies this
      ensures Valid()
      ensures Abstract() == Spec.Invalidate(old(Abstract()))
    {
      if timer.Some? {
        live := live - {timer.value.id};
        timer := None;
      }
    }

    /** `startCountdown()`. */
    method StartCountdown(now: int)
      requires Valid()
      modifies this
      ensures Valid()
      ensures Abstract() == Spec.StartCountdown(Config(), old(Abstract()), now)
    {
      if timer != None {
        InvalidateTimer();
      }
      var t := Spec.Timer(created, false);
      timer := Some(t);
      live := live + {t.id};
      created := created + 1;
      TimeUpdate(now);
    }

    /** `timeUpdate(timer:)`. */
    method TimeUpdate(now: int)
      requires Valid()
      modifies this
      ensures Valid()
      ensures Abstract() == Spec.TimeUpdate(Config(), old(Abstract()), now)
    {
      currentTime := now;
      var interval := Spec.Interval(startValue, startTime, currentTime);
      delivered := delivered + [interval];
      if !(0 < interval && interval <= startValue) {
        InvalidateTimer();
      }
    }

    /** The run loop fires the timer at `now` when its fire date has come. */
    method Fire(now: int)
      requires Valid()
      modifies this
      ensures Valid()
      ensures Abstract() == Spec.Fire(Config(), old(Abstract()), now)
    {
      if timer.Some? && !timer.value.suspended {
        TimeUpdate(now);
      }
    }

    /** The `UIApplicationWillTerminate` subscription. */
    method WillTerminate()
      requires Valid()
      modifies diskCache
      ensures Valid()
      ensures Abstract() == Spec.WillTerminate(Config(), old(Abstract()))
    {
      if timer != None {
        diskCache.SetObject(startTime, identifier);
      }
    }

    /** The `UIApplicationDidEnterBackground` subscription. */
    method DidEnterBackground()
      requires Valid()
      modifies this, diskCache
      ensures Valid()
      ensures Abstract() == Spec.DidEnterBackground(Config(), old(Abstract()))
    {
      if timer != None {
        diskCache.SetObject(startTime, identifier);
        timer := Some(timer.value.(suspended := true));
      }
    }

    /** The `UIApplicationWillEnterForeground` subscription. */
    method WillEnterForeground()
      requires Valid()
      modifies this
      ensures Valid()
      ensures Abstract() == Spec.WillEnterForeground(old(Abstract()))
    {
      if timer != None {
        timer := Some(timer.value.(suspended := false));
      }
    }
  }

  /**
    A client: a 60-second countdown with nothing stored is started at t = 0,
    goes to the background after one tick, comes back at t = 3 and is stopped.
   */
  method BackgroundScenario()
  {
    var cache := new DiskCache(map[]);
    var c := new Countdown("promo1", 60, cache, 0);
    assert c.timer.None? && c.delivered == [];
    c.Start(0);
    c.Fire(1);
    assert c.delivered == [60, 59];
    c.DidEnterBackground();
    assert cache.entries == map["promo1" := 0];
    c.Fire(2);
    assert c.delivered == [60, 59];
    c.WillEnterForeground();
    c.Fire(3);
    assert c.delivered == [60, 59, 57];
    c.Stop();
    c.Fire(4);
    assert c.delivered == [60, 59, 57] && c.timer.None? && cache.entries == map["promo1" := 0];
  }
}
