/** The per-device duty-cycle worker of outlets/loopedOutletControllerMultiProc.py
    (`run` with its inner `run_loop`) and the fan-out in `main` that starts one
    worker per device uuid.

    A worker may run forever, so its model takes a `fuel` bound: the number of
    `run_loop` calls it may make.  A worker that still wants to go on when the
    fuel is spent reports Running; the trace it returns is then a prefix of the
    endless run. */
module OutletWorker {
  import opened Effects

  /** The loop bound after line 65: an int, or float('Infinity'). */
  datatype Limit = Finite(n: int) | Infinity

  /** Lines 63-65: an iteration count of 0 means "forever". */
  function EffectiveLimit(iterations: int): (l: Limit)
    ensures l == Infinity <==> iterations == 0
    ensures l.Finite? ==> l.n == iterations
  {
    if iterations == 0 then Infinity else Finite(iterations)
  }

  /** Python's `count < iterations`; every int is below infinity. */
  predicate Below(count: int, l: Limit)
  {
    match l
    case Finite(n) => count < n
    case Infinity => true
  }

  /** Python's `iterations == True`: True compares equal to 1 only. */
  predicate IsTrue(l: Limit) { l == Finite(1) }

  /** Python's truth value of `iterations`. */
  predicate Truthy(l: Limit) { l != Finite(0) }

  datatype DutyArgs = DutyArgs(iterations: int, runTime: int, sleepTime: int)

  /** Lines 51-62: on, hold for runTime, off, then the sleepTime pause unless
      this was the final iteration. */
  function RunLoop(dev: nat, args: DutyArgs, loopCount: int, l: Limit): (r: seq<Event>)
    ensures |r| == (if Below(loopCount, l) then 4 else 3)
    ensures r[..3] == [TurnOn(dev), Sleep(args.runTime), TurnOff(dev)]
    ensures Below(loopCount, l) ==> r[3] == Sleep(args.sleepTime)
  {
    [TurnOn(dev), Sleep(args.runTime), TurnOff(dev)] + (if Below(loopCount, l) then [Sleep(args.sleepTime)] else [])
  }

  /** A run_loop call that is not the final one. */
  function FullCycle(dev: nat, args: DutyArgs): seq<Event>
  {
    [TurnOn(dev), Sleep(args.runTime), TurnOff(dev), Sleep(args.sleepTime)]
  }

  /** Lines 97-99: the run_loop calls for loop_count = 1..k. */
  function Counted(dev: nat, args: DutyArgs, l: Limit, k: nat): seq<Event>
  {
    if k == 0 then [] else Counted(dev, args, l, k - 1) + RunLoop(dev, args, k, l)
  }

  /** How many run_loop calls lines 97-99 make with this much fuel. */
  function Calls(l: Limit, fuel: nat): (c: nat)
    ensures c <= fuel
    ensures c == fuel || (l.Finite? && c == l.n)
  {
    if l.Finite? && 0 <= l.n < fuel then l.n else fuel
  }

  /** The events of one device, how much fuel is left, and whether the device
      loop ended. */
  datatype Progress = Progress(events: seq<Event>, left: nat, done: bool)

  /** Lines 88-99 for one device. */
  function DeviceRun(dev: nat, args: DutyArgs, l: Limit, fuel: nat): Progress
  {
    if IsTrue(l) then Progress([Update(dev)] + Repeat(RunLoop(dev, args, 0, l), fuel), 0, !Truthy(l))
    else if Below(0, l) then
      var c := Calls(l, fuel);
      Progress([Update(dev)] + Counted(dev, args, l, c), fuel - c, !Below(c, l))
    else Progress([Update(dev)], fuel, true)
  }

  /** Devices 0..n-1 one after another; a device that never finishes keeps
      the ones after it from starting. */
  function Devices(args: DutyArgs, l: Limit, fuel: nat, n: nat): Progress
  {
    if n == 0 then Progress([], fuel, true)
    else
      var prev := Devices(args, l, fuel, n - 1);
      if !prev.done then prev
      else
        var r := DeviceRun(n - 1, args, l, prev.left);
        Progress(prev.events + r.events, r.left, r.done)
  }

  datatype WorkerError = MissingDeviceUuid | DeviceNotFound

  datatype Outcome = Finished | Running | Failed(error: WorkerError)

  /** The whole worker (lines 63-99), with `found` devices returned by find_devices. */
  function Expected(uuid: Option<string>, args: DutyArgs, found: nat, fuel: nat): (Outcome, seq<Event>)
  {
    if uuid.None? then (Failed(MissingDeviceUuid), [])
    else if found == 0 then (Failed(DeviceNotFound), [Login, Discover(uuid.value)])
    else
      var r := Devices(args, EffectiveLimit(args.iterations), fuel, found);
      (if r.done then Finished else Running, [Login, Discover(uuid.value)] + r.events)
  }

  // ---------------------------------------------------------------------------
  // The script

  /** Lines 93-95: `while iterations`, with loop_count left at 0. */
  method SpinLoop(dev: nat, args: DutyArgs, l: Limit, fuel: nat) returns (events: seq<Event>, left: nat)
    requires IsTrue(l)
    ensures events == Repeat(RunLoop(dev, args, 0, l), fuel)
    ensures left == 0
  {
    var loopCount := 0;
    events, left := [], fuel;
    while Truthy(l) && left > 0
      invariant left <= fuel
      invariant events == Repeat(RunLoop(dev, args, loopCount, l), fuel - left)
      decreases left
    {
      events := events + RunLoop(dev, args, loopCount, l);
      left := left - 1;
    }
  }

  /** Lines 96-99: `while loop_count < iterations`, loop_count counting up from 1. */
  method CountLoop(dev: nat, args: DutyArgs, l: Limit, fuel: nat)
    returns (events: seq<Event>, left: nat, loopCount: int)
    requires Below(0, l)
    ensures loopCount == Calls(l, fuel)
    ensures events == Counted(dev, args, l, Calls(l, fuel))
    ensures left == fuel - Calls(l, fuel)
  {
    loopCount := 0;
    events, left := [], fuel;
    while Below(loopCount, l) && left > 0
      invariant 0 <= loopCount && left == fuel - loopCount
      invariant l.Finite? ==> loopCount <= l.n
      invariant events == Counted(dev, args, l, loopCount)
      decreases left
    {
      loopCount := loopCount + 1;
      events := events + RunLoop(dev, args, loopCount, l);
      left := left - 1;
    }
  }

  /** Lines 88-99 for one device. */
  method Device(dev: nat, args: DutyArgs, l: Limit, fuel: nat) returns (events: seq<Event>, left: nat, done: bool)
    ensures Progress(events, left, done) == DeviceRun(dev, args, l, fuel)
  {
    events := [Update(dev)];
    var loopCount := 0;
    if IsTrue(l) {
      var spun;
      spun, left := SpinLoop(dev, args, l, fuel);
      events := events + spun;
      done := !Truthy(l);
    } else if Below(loopCount, l) {
      var counted;
      counted, left, loopCount := CountLoop(dev, args, l, fuel);
      events := events + counted;
      done := !Below(loopCount, l);
    } else {
      left, done := fuel, true;
    }
  }

  /** Lines 63-99.  `found` is the number of devices find_devices returns. */
  method Run(uuid: Option<string>, args: DutyArgs, found: nat, fuel: nat) returns (outcome: Outcome, trace: seq<Event>)
    ensures (outcome, trace) == Expected(uuid, args, found, fuel)
  {
    var iterations := Finite(args.iterations);
    if iterations == Finite(0) {
      iterations := Infinity;
    }
    assert iterations == EffectiveLimit(args.iterations);
    if uuid.None? {
      return Failed(MissingDeviceUuid), [];
    }
    trace := [Login, Discover(uuid.value)];
    if found == 0 {
      // devs[0] raises
      return Failed(DeviceNotFound), trace;
    }
    var events, done := RunDevices(args, iterations, found, fuel);
    trace := trace + events;
    outcome := if done then Finished else Running;
  }

  /** The loop over the devices found: each runs on the fuel the previous ones left,
      and the first one still running when the fuel is gone stops the worker. */
  method RunDevices(args: DutyArgs, l: Limit, found: nat, fuel: nat) returns (events: seq<Event>, done: bool)
    ensures events == Devices(args, l, fuel, found).events
    ensures done == Devices(args, l, fuel, found).done
  {
    events, done := [], true;
    var left := fuel;
    var d := 0;
    while d < found
      invariant d <= found
      invariant Devices(args, l, fuel, d) == Progress(events, left, true)
    {
      var more;
      more, left, done := Device(d, args, l, left);
      events := events + more;
      if !done {
        DevicesHalted(args, l, fuel, d + 1, found);
        return;
      }
      d := d + 1;
    }
  }

  /** Once a device has not finished, nothing after it changes the progress. */
  lemma {:induction false} DevicesHalted(args: DutyArgs, l: Limit, fuel: nat, n: nat, m: nat)
    requires n <= m
    requires !Devices(args, l, fuel, n).done
    ensures Devices(args, l, fuel, m) == Devices(args, l, fuel, n)
  {
    if m > n {
      DevicesHalted(args, l, fuel, n, m - 1);
    }
  }

  // ---------------------------------------------------------------------------
  // Properties

  lemma RunLoopCommands(dev: nat, args: DutyArgs, loopCount: int, l: Limit)
    ensures Switches(RunLoop(dev, args, loopCount, l)) == [TurnOn(dev), TurnOff(dev)]
    ensures Sleeps(RunLoop(dev, args, loopCount, l))
         == if Below(loopCount, l) then [Sleep(args.runTime), Sleep(args.sleepTime)] else [Sleep(args.runTime)]
  {
    var pause := if Below(loopCount, l) then Some(args.sleepTime) else None;
    assert RunLoop(dev, args, loopCount, l) == OnOff(dev, args.runTime, pause);
    OnOffCommands(dev, args.runTime, pause);
  }

  /** The counted loop gives one on/off pair per call, strictly alternating. */
  lemma {:induction false} CountedSwitches(dev: nat, args: DutyArgs, l: Limit, k: nat)
    ensures Switches(Counted(dev, args, l, k)) == Pairs(dev, k)
  {
    if k > 0 {
      CountedSwitches(dev, args, l, k - 1);
      RunLoopCommands(dev, args, k, l);
      FilterConcat(Counted(dev, args, l, k - 1), RunLoop(dev, args, k, l), IsSwitch);
    }
  }

  /** Before the final call every call sleeps twice; the final one once. */
  lemma {:induction false} CountedSleeps(dev: nat, args: DutyArgs, n: int, k: nat)
    requires k <= n
    ensures |Sleeps(Counted(dev, args, Finite(n), k))| == if k == n && k > 0 then 2 * k - 1 else 2 * k
  {
    if k > 0 {
      var prev, last := Counted(dev, args, Finite(n), k - 1), RunLoop(dev, args, k, Finite(n));
      assert |Sleeps(prev)| == 2 * (k - 1) by {
        CountedSleeps(dev, args, n, k - 1);
      }
      assert |Sleeps(last)| == if k == n then 1 else 2 by {
        RunLoopCommands(dev, args, k, Finite(n));
      }
      FilterConcat(prev, last, IsSleep);
    }
  }

  /** With no final iteration every call is a full cycle. */
  lemma {:induction false} CountedForever(dev: nat, args: DutyArgs, k: nat)
    ensures Counted(dev, args, Infinity, k) == Repeat(FullCycle(dev, args), k)
  {
    if k > 0 {
      CountedForever(dev, args, k - 1);
    }
  }

  lemma {:induction false} FullCycleSwitches(dev: nat, args: DutyArgs, k: nat)
    ensures Switches(Repeat(FullCycle(dev, args), k)) == Pairs(dev, k)
  {
    if k > 0 {
      FullCycleSwitches(dev, args, k - 1);
      RunLoopCommands(dev, args, 0, Infinity);
      assert RunLoop(dev, args, 0, Infinity) == FullCycle(dev, args);
      FilterConcat(Repeat(FullCycle(dev, args), k - 1), FullCycle(dev, args), IsSwitch);
    }
  }

  /** Missing uuid and missing device both fail before any device command,
      and each failure happens exactly in its own case. */
  lemma FailuresAreQuiet(uuid: Option<string>, args: DutyArgs, found: nat, fuel: nat)
    ensures Expected(uuid, args, found, fuel).0 == Failed(MissingDeviceUuid) <==> uuid.None?
    ensures Expected(uuid, args, found, fuel).0 == Failed(DeviceNotFound) <==> uuid.Some? && found == 0
    ensures uuid.None? ==> Expected(uuid, args, found, fuel).1 == []
    ensures uuid.Some? && found == 0 ==> Expected(uuid, args, found, fuel).1 == [Login, Discover(uuid.value)]
    ensures Expected(uuid, args, found, fuel).0.Failed? ==>
              Switches(Expected(uuid, args, found, fuel).1) == [] && Count(Expected(uuid, args, found, fuel).1, Update(0)) == 0
    ensures Expected(uuid, args, found, fuel).0.Failed? ==>
              forall e :: e in Expected(uuid, args, found, fuel).1 ==> !e.Update? && !IsSwitch(e) && !e.Sleep?
  {
    if uuid.Some? && found == 0 {
      FilterPair(Login, Discover(uuid.value), IsSwitch);
      CountPair(Login, Discover(uuid.value), Update(0));
    } else if uuid.Some? {
      assert Devices(args, EffectiveLimit(args.iterations), fuel, found).events != [] by {
        DevicesStart(args, EffectiveLimit(args.iterations), fuel, found);
      }
    }
  }

  /** The first device always starts with its Update. */
  lemma {:induction false} DevicesStart(args: DutyArgs, l: Limit, fuel: nat, n: nat)
    requires n > 0
    ensures |Devices(args, l, fuel, n).events| > 0 && Devices(args, l, fuel, n).events[0] == Update(0)
  {
    if n > 1 {
      DevicesStart(args, l, fuel, n - 1);
    }
  }

  /** The first device runs on all the fuel there is. */
  lemma FirstDevice(args: DutyArgs, l: Limit, fuel: nat)
    ensures Devices(args, l, fuel, 1) == DeviceRun(0, args, l, fuel)
  {
    assert [] + DeviceRun(0, args, l, fuel).events == DeviceRun(0, args, l, fuel).events;
  }

  /** A count of at least 2 with enough fuel: the device runs exactly that many loops and is done. */
  lemma CountedDevice(dev: nat, args: DutyArgs, n: int, fuel: nat)
    requires 2 <= n <= fuel
    ensures DeviceRun(dev, args, Finite(n), fuel) == Progress([Update(dev)] + Counted(dev, args, Finite(n), n), fuel - n, true)
  {
    assert Calls(Finite(n), fuel) == n;
  }

  /** No count: the device loops for as long as there is fuel. */
  lemma EndlessDevice(dev: nat, args: DutyArgs, fuel: nat)
    ensures DeviceRun(dev, args, Infinity, fuel) == Progress([Update(dev)] + Counted(dev, args, Infinity, fuel), 0, false)
  {
  }

  /** The worker's trace is the login and discovery followed by the devices' events. */
  lemma PreludeJoin(u: string, rest: seq<Event>)
    ensures [Login, Discover(u)] + ([Update(0)] + rest) == [Login, Discover(u), Update(0)] + rest
  {
  }

  /** Login, discovery and the first update issue no command and no sleep, so
      whatever follows them has the run's commands and sleeps. */
  lemma PreludeQuiet(u: string, body: seq<Event>)
    ensures Switches([Login, Discover(u), Update(0)] + body) == Switches(body)
    ensures Sleeps([Login, Discover(u), Update(0)] + body) == Sleeps(body)
  {
    var pre := [Login, Discover(u), Update(0)];
    assert Switches(pre) == [] && Sleeps(pre) == [] by {
      assert pre == [Login, Discover(u)] + [Update(0)];
      FilterConcat([Login, Discover(u)], [Update(0)], IsSwitch);
      FilterConcat([Login, Discover(u)], [Update(0)], IsSleep);
      FilterPair(Login, Discover(u), IsSwitch);
      FilterPair(Login, Discover(u), IsSleep);
      FilterSingle(Update(0), IsSwitch);
      FilterSingle(Update(0), IsSleep);
    }
    FilterConcat(pre, body, IsSwitch);
    FilterConcat(pre, body, IsSleep);
  }

  /** A full counted run of n >= 1 calls: n alternating pairs, 2n - 1 sleeps,
      and the final off last. */
  lemma CountedRun(dev: nat, args: DutyArgs, n: int)
    requires n >= 1
    ensures Switches(Counted(dev, args, Finite(n), n)) == Pairs(dev, n)
    ensures |Sleeps(Counted(dev, args, Finite(n), n))| == 2 * n - 1
    ensures Counted(dev, args, Finite(n), n)[|Counted(dev, args, Finite(n), n)| - 1] == TurnOff(dev)
  {
    CountedSwitches(dev, args, Finite(n), n);
    CountedSleeps(dev, args, n, n);
    assert Counted(dev, args, Finite(n), n) == Counted(dev, args, Finite(n), n - 1) + RunLoop(dev, args, n, Finite(n));
  }

  /** A finite count of at least 2 on the one device found: the worker
      finishes after exactly `iterations` alternating on/off pairs and 2 *
      iterations - 1 sleeps, and its last event is the final off. */
  lemma BoundedRun(u: string, args: DutyArgs, fuel: nat)
    requires args.iterations >= 2 && fuel >= args.iterations
    ensures Expected(Some(u), args, 1, fuel).0 == Finished
    ensures Switches(Expected(Some(u), args, 1, fuel).1) == Pairs(0, args.iterations)
    ensures |Sleeps(Expected(Some(u), args, 1, fuel).1)| == 2 * args.iterations - 1
    ensures Expected(Some(u), args, 1, fuel).1[|Expected(Some(u), args, 1, fuel).1| - 1] == TurnOff(0)
  {
    var n := args.iterations;
    var body := Counted(0, args, Finite(n), n);
    var pre := [Login, Discover(u), Update(0)];
    assert Expected(Some(u), args, 1, fuel) == (Finished, pre + body) by {
      assert EffectiveLimit(n) == Finite(n);
      FirstDevice(args, Finite(n), fuel);
      CountedDevice(0, args, n, fuel);
      PreludeJoin(u, body);
    }
    PreludeQuiet(u, body);
    CountedRun(0, args, n);
    assert (pre + body)[|pre + body| - 1] == body[|body| - 1];
  }

  /** The prefix of an endless run on the first device: Login, Discover,
      Update, then full cycles only. */
  ghost predicate EndlessRun(u: string, args: DutyArgs, fuel: nat, r: (Outcome, seq<Event>))
  {
    r.0 == Running
    && r.1 == [Login, Discover(u), Update(0)] + Repeat(FullCycle(0, args), fuel)
    && Switches(r.1) == Pairs(0, fuel)
  }

  lemma EndlessSwitches(u: string, args: DutyArgs, fuel: nat)
    ensures Switches([Login, Discover(u), Update(0)] + Repeat(FullCycle(0, args), fuel)) == Pairs(0, fuel)
  {
    PreludeQuiet(u, Repeat(FullCycle(0, args), fuel));
    FullCycleSwitches(0, args, fuel);
  }

  /** iterations == 1 takes the `== True` branch: loop_count stays 0, so
      every call sleeps afterwards and the worker never finishes. */
  lemma OnceMeansForever(u: string, args: DutyArgs, found: nat, fuel: nat)
    requires args.iterations == 1 && found >= 1
    ensures EndlessRun(u, args, fuel, Expected(Some(u), args, found, fuel))
  {
    var l := Finite(1);
    assert RunLoop(0, args, 0, l) == FullCycle(0, args);
    assert !Devices(args, l, fuel, 1).done;
    DevicesHalted(args, l, fuel, 1, found);
    EndlessSwitches(u, args, fuel);
  }

  /** iterations == 0 becomes infinity: loop_count grows without end and the
      final branch of run_loop is never reached. */
  lemma ZeroMeansForever(u: string, args: DutyArgs, found: nat, fuel: nat)
    requires args.iterations == 0 && found >= 1
    ensures EndlessRun(u, args, fuel, Expected(Some(u), args, found, fuel))
  {
    FirstDevice(args, Infinity, fuel);
    EndlessDevice(0, args, fuel);
    CountedForever(0, args, fuel);
    PreludeJoin(u, Repeat(FullCycle(0, args), fuel));
    DevicesHalted(args, Infinity, fuel, 1, found);
    EndlessSwitches(u, args, fuel);
  }

  /** For the endless counts, one more unit of fuel appends exactly one full
      cycle. */
  lemma MoreFuelExtends(u: string, args: DutyArgs, found: nat, fuel: nat)
    requires 0 <= args.iterations <= 1 && found >= 1
    ensures Expected(Some(u), args, found, fuel + 1).1 == Expected(Some(u), args, found, fuel).1 + FullCycle(0, args)
  {
    if args.iterations == 0 {
      ZeroMeansForever(u, args, found, fuel);
      ZeroMeansForever(u, args, found, fuel + 1);
    } else {
      OnceMeansForever(u, args, found, fuel);
      OnceMeansForever(u, args, found, fuel + 1);
    }
    var pre, cycles := [Login, Discover(u), Update(0)], Repeat(FullCycle(0, args), fuel);
    assert pre + cycles + FullCycle(0, args) == pre + (cycles + FullCycle(0, args));
  }

  /** For the endless counts a run with less fuel is a prefix of a run with more. */
  lemma {:induction false} MoreFuelPrefix(u: string, args: DutyArgs, found: nat, f1: nat, f2: nat)
    requires 0 <= args.iterations <= 1 && found >= 1 && f1 <= f2
    ensures Expected(Some(u), args, found, f1).1 <= Expected(Some(u), args, found, f2).1
    decreases f2 - f1
  {
    if f1 < f2 {
      MoreFuelPrefix(u, args, found, f1, f2 - 1);
      MoreFuelExtends(u, args, found, f2 - 1);
    }
  }

  /** A negative count updates every device once, in order, and issues no
      command or sleep. */
  lemma NegativeMeansIdle(u: string, args: DutyArgs, found: nat, fuel: nat)
    requires args.iterations < 0
    ensures Expected(Some(u), args, found, fuel).0 == (if found == 0 then Failed(DeviceNotFound) else Finished)
    ensures |Expected(Some(u), args, found, fuel).1| == 2 + found
    ensures forall d :: 0 <= d < found ==> Expected(Some(u), args, found, fuel).1[2 + d] == Update(d)
    ensures Switches(Expected(Some(u), args, found, fuel).1) == []
    ensures Sleeps(Expected(Some(u), args, found, fuel).1) == []
  {
    var l := Finite(args.iterations);
    var pre, events := [Login, Discover(u)], Devices(args, l, fuel, found).events;
    assert Expected(Some(u), args, found, fuel).1 == pre + events by {
      assert EffectiveLimit(args.iterations) == l;
      if found == 0 {
        assert pre + events == pre;
      }
    }
    IdleDevices(args, l, fuel, found);
    IdleUpdates(args, l, fuel, found);
    forall d | 0 <= d < found
      ensures (pre + events)[2 + d] == Update(d)
    {
      assert (pre + events)[2 + d] == events[d];
    }
    assert Switches(pre) == [] && Sleeps(pre) == [] by {
      FilterPair(Login, Discover(u), IsSwitch);
      FilterPair(Login, Discover(u), IsSleep);
    }
    FilterConcat(pre, events, IsSwitch);
    FilterConcat(pre, events, IsSleep);
  }

  /** With a negative count a device is updated and left alone. */
  lemma IdleDevice(dev: nat, args: DutyArgs, l: Limit, fuel: nat)
    requires l.Finite? && l.n < 0
    ensures DeviceRun(dev, args, l, fuel) == Progress([Update(dev)], fuel, true)
  {
  }

  /** With a negative count each device adds just its update. */
  lemma IdleStep(args: DutyArgs, l: Limit, fuel: nat, n: nat)
    requires l.Finite? && l.n < 0 && n > 0
    ensures Devices(args, l, fuel, n).events == Devices(args, l, fuel, n - 1).events + [Update(n - 1)]
  {
    IdleDevices(args, l, fuel, n - 1);
    IdleDevice(n - 1, args, l, Devices(args, l, fuel, n - 1).left);
  }

  /** With a negative count the devices' events are their updates, in order. */
  lemma {:induction false} IdleUpdates(args: DutyArgs, l: Limit, fuel: nat, n: nat)
    requires l.Finite? && l.n < 0
    ensures |Devices(args, l, fuel, n).events| == n
    ensures forall d :: 0 <= d < n ==> Devices(args, l, fuel, n).events[d] == Update(d)
  {
    if n > 0 {
      var prev := Devices(args, l, fuel, n - 1).events;
      IdleUpdates(args, l, fuel, n - 1);
      IdleStep(args, l, fuel, n);
      var events := prev + [Update(n - 1)];
      forall d | 0 <= d < n
        ensures events[d] == Update(d)
      {
        if d < n - 1 {
          assert events[d] == prev[d];
        }
      }
    }
  }

  lemma {:induction false} IdleDevices(args: DutyArgs, l: Limit, fuel: nat, n: nat)
    requires l.Finite? && l.n < 0
    ensures Devices(args, l, fuel, n).done
    ensures Switches(Devices(args, l, fuel, n).events) == []
    ensures Sleeps(Devices(args, l, fuel, n).events) == []
  {
    if n > 0 {
      var prev := Devices(args, l, fuel, n - 1);
      IdleDevices(args, l, fuel, n - 1);
      IdleDevice(n - 1, args, l, prev.left);
      assert Devices(args, l, fuel, n) == Progress(prev.events + [Update(n - 1)], prev.left, true);
      assert Switches(prev.events + [Update(n - 1)]) == [] by {
        FilterConcat(prev.events, [Update(n - 1)], IsSwitch);
        FilterSingle(Update(n - 1), IsSwitch);
      }
      assert Sleeps(prev.events + [Update(n - 1)]) == [] by {
        FilterConcat(prev.events, [Update(n - 1)], IsSleep);
        FilterSingle(Update(n - 1), IsSleep);
      }
    }
  }

  // ---------------------------------------------------------------------------
  // Fan-out (main, lines 107-123)

  /** One worker process as `main` configures it; a JSON null uuid is None. */
  datatype Worker = Worker(name: string, uuid: Option<string>, args: DutyArgs)

  /** 'outletController-' + str(uuid). */
  function WorkerName(uuid: Option<string>): (name: string)
    ensures |name| >= 17 && name[..17] == "outletController-"
    ensures uuid.Some? ==> name[17..] == uuid.value
    ensures uuid.None? ==> name[17..] == "None"
  {
    "outletController-" + match uuid
                          case Some(s) => s
                          case None => "None"
  }

  /** Lines 108-123: one worker per uuid, in list order. */
  method StartWorkers(uuids: seq<Option<string>>, args: DutyArgs) returns (started: seq<Worker>)
    ensures |started| == |uuids|
    ensures forall i :: 0 <= i < |uuids| ==> started[i] == Worker(WorkerName(uuids[i]), uuids[i], args)
  {
    started := [];
    var count := |uuids|;
    for i := 0 to count
      invariant |started| == i
      invariant forall j :: 0 <= j < i ==> started[j] == Worker(WorkerName(uuids[j]), uuids[j], args)
    {
      started := started + [Worker(WorkerName(uuids[i]), uuids[i], args)];
    }
  }
}
