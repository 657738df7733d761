/** The sequential duty cycle of powerControl/microgreens.py (`main`): after
    login and one discovery per uuid, every device found is updated, cycled
    `iterations + 1` times, and followed by a close and logout of the session. */
module Microgreens {
  import opened Effects

  datatype CycleArgs = CycleArgs(iterations: int, runTime: int, sleepTime: int)

  /** Lines 73-87 for one value of loop_count (already incremented): on, the
      hold (which sleeps sleepTime), off, then the pause only while
      loop_count < iterations. */
  function Cycle(dev: nat, args: CycleArgs, loopCount: int): (r: seq<Event>)
    ensures |r| == (if loopCount < args.iterations then 4 else 3)
    ensures r[..3] == [TurnOn(dev), Sleep(args.sleepTime), TurnOff(dev)]
    ensures loopCount < args.iterations ==> r[3] == Sleep(args.sleepTime)
  {
    [TurnOn(dev), Sleep(args.sleepTime), TurnOff(dev)]
    + (if loopCount < args.iterations then [Sleep(args.sleepTime)] else [])
  }

  /** The cycles for loop_count = 1..k. */
  function Cycles(dev: nat, args: CycleArgs, k: nat): seq<Event>
  {
    if k == 0 then [] else Cycles(dev, args, k - 1) + Cycle(dev, args, k)
  }

  /** How many times `while loop_count <= iterations` runs from 0. */
  function CycleCount(iterations: int): nat
  {
    if iterations < 0 then 0 else iterations + 1
  }

  /** Lines 66-89 for one device. */
  function DeviceBlock(dev: nat, args: CycleArgs): seq<Event>
  {
    [Update(dev)] + Cycles(dev, args, CycleCount(args.iterations)) + [Close, Logout]
  }

  /** Devices 0..n-1, one block after another. */
  function Blocks(args: CycleArgs, n: nat): seq<Event>
  {
    if n == 0 then [] else Blocks(args, n - 1) + DeviceBlock(n - 1, args)
  }

  /** Lines 57-58: one discovery per uuid, in list order. */
  function Discoveries(uuids: seq<string>): (r: seq<Event>)
    ensures |r| == |uuids|
    ensures forall i :: 0 <= i < |uuids| ==> r[i] == Discover(uuids[i])
  {
    if uuids == [] then [] else Discoveries(uuids[..|uuids| - 1]) + [Discover(uuids[|uuids| - 1])]
  }

  /** Lines 44-89, with `found` devices returned by find_devices. */
  function Expected(uuids: seq<string>, args: CycleArgs, found: nat): seq<Event>
  {
    [Login] + Discoveries(uuids) + Blocks(args, found)
  }

  // ---------------------------------------------------------------------------
  // The script

  /** Lines 71-87: the counter loop of one device. */
  method CycleLoop(dev: nat, args: CycleArgs) returns (events: seq<Event>)
    ensures events == Cycles(dev, args, CycleCount(args.iterations))
  {
    var iterations := args.iterations;
    events := [];
    var loopCount := 0;
    while loopCount <= iterations
      invariant 0 <= loopCount <= CycleCount(iterations)
      invariant events == Cycles(dev, args, loopCount)
      decreases CycleCount(iterations) - loopCount
    {
      loopCount := loopCount + 1;
      events := events + [TurnOn(dev), Sleep(args.sleepTime), TurnOff(dev)];
      if loopCount < iterations {
        events := events + [Sleep(args.sleepTime)];
      }
    }
  }

  /** Lines 44-89. */
  method Run(uuids: seq<string>, args: CycleArgs, found: nat) returns (trace: seq<Event>)
    ensures trace == Expected(uuids, args, found)
  {
    var discovered := [];
    for i := 0 to |uuids|
      invariant discovered == Discoveries(uuids[..i])
    {
      assert uuids[..i + 1][..i] == uuids[..i];
      discovered := discovered + [Discover(uuids[i])];
    }
    assert uuids[..|uuids|] == uuids;
    var blocks := [];
    for dev := 0 to found
      invariant blocks == Blocks(args, dev)
    {
      var cycles := CycleLoop(dev, args);
      blocks := blocks + ([Update(dev)] + cycles + [Close, Logout]);
    }
    trace := [Login] + discovered + blocks;
  }

  // ---------------------------------------------------------------------------
  // Properties

  lemma CycleCommands(dev: nat, args: CycleArgs, loopCount: int)
    ensures Switches(Cycle(dev, args, loopCount)) == [TurnOn(dev), TurnOff(dev)]
    ensures Sleeps(Cycle(dev, args, loopCount))
         == if loopCount < args.iterations then [Sleep(args.sleepTime), Sleep(args.sleepTime)] else [Sleep(args.sleepTime)]
  {
    var pause := if loopCount < args.iterations then Some(args.sleepTime) else None;
    assert Cycle(dev, args, loopCount) == OnOff(dev, args.sleepTime, pause);
    OnOffCommands(dev, args.sleepTime, pause);
  }

  lemma {:induction false} CyclesSwitches(dev: nat, args: CycleArgs, k: nat)
    ensures Switches(Cycles(dev, args, k)) == Pairs(dev, k)
  {
    if k > 0 {
      CyclesSwitches(dev, args, k - 1);
      CycleCommands(dev, args, k);
      FilterConcat(Cycles(dev, args, k - 1), Cycle(dev, args, k), IsSwitch);
    }
  }

  /** The number of pauses taken by the cycles 1..k: one per loop_count below
      iterations. */
  function Pauses(iterations: int, k: nat): nat
  {
    if k == 0 then 0 else Pauses(iterations, k - 1) + (if k < iterations then 1 else 0)
  }

  /** Pauses(iterations, iterations + 1) is max(iterations - 1, 0). */
  lemma {:induction false} PausesValue(iterations: int, k: nat)
    requires k <= iterations + 1
    ensures Pauses(iterations, k) == if k < iterations then k else if iterations > 0 then iterations - 1 else 0
  {
    if k > 0 {
      PausesValue(iterations, k - 1);
    }
  }

  /** Every sleep of a device's cycles lasts sleepTime: one hold per cycle plus
      one pause per cycle before the last two. */
  lemma {:induction false} CyclesSleeps(dev: nat, args: CycleArgs, k: nat)
    ensures forall i :: 0 <= i < |Sleeps(Cycles(dev, args, k))| ==> Sleeps(Cycles(dev, args, k))[i] == Sleep(args.sleepTime)
    ensures |Sleeps(Cycles(dev, args, k))| == k + Pauses(args.iterations, k)
  {
    if k > 0 {
      var prev, last := Cycles(dev, args, k - 1), Cycle(dev, args, k);
      CyclesSleeps(dev, args, k - 1);
      CycleCommands(dev, args, k);
      FilterConcat(prev, last, IsSleep);
    }
  }

  /** The update before a device's cycles and the close and logout after them
      issue no command and no sleep. */
  lemma FramedQuiet(dev: nat, body: seq<Event>)
    ensures Switches([Update(dev)] + body + [Close, Logout]) == Switches(body)
    ensures Sleeps([Update(dev)] + body + [Close, Logout]) == Sleeps(body)
  {
    FilterConcat([Update(dev)], body, IsSwitch);
    FilterConcat([Update(dev)], body, IsSleep);
    FilterConcat([Update(dev)] + body, [Close, Logout], IsSwitch);
    FilterConcat([Update(dev)] + body, [Close, Logout], IsSleep);
    FilterSingle(Update(dev), IsSwitch);
    FilterSingle(Update(dev), IsSleep);
    FilterPair(Close, Logout, IsSwitch);
    FilterPair(Close, Logout, IsSleep);
  }

  /** For iterations >= 0 a device gets iterations + 1 on/off pairs, all its
      sleeps last sleepTime, and there are iterations + 1 holds plus
      max(iterations - 1, 0) pauses; a negative count gives no cycle at all. */
  lemma DeviceCommands(dev: nat, args: CycleArgs)
    ensures Switches(DeviceBlock(dev, args)) == Pairs(dev, CycleCount(args.iterations))
    ensures forall i :: 0 <= i < |Sleeps(DeviceBlock(dev, args))| ==> Sleeps(DeviceBlock(dev, args))[i] == Sleep(args.sleepTime)
    ensures |Sleeps(DeviceBlock(dev, args))|
         == if args.iterations < 0 then 0 else args.iterations + 1 + (if args.iterations > 0 then args.iterations - 1 else 0)
  {
    var k := CycleCount(args.iterations);
    FramedQuiet(dev, Cycles(dev, args, k));
    CyclesSwitches(dev, args, k);
    CyclesSleeps(dev, args, k);
    assert Pauses(args.iterations, k) == if args.iterations > 0 then args.iterations - 1 else 0 by {
      if args.iterations >= 0 {
        PausesValue(args.iterations, k);
      }
    }
  }

  lemma BlockParts(dev: nat, args: CycleArgs)
    ensures DeviceBlock(dev, args) == ([Update(dev)] + Cycles(dev, args, CycleCount(args.iterations))) + [Close, Logout]
  {
  }

  /** Events that belong to device dev: they name dev, or they are sleeps,
      closes or logouts. */
  predicate OwnEvent(e: Event, dev: nat)
  {
    match e
    case Update(d) => d == dev
    case TurnOn(d) => d == dev
    case TurnOff(d) => d == dev
    case Sleep(_) => true
    case Close => true
    case Logout => true
    case _ => false
  }

  lemma {:induction false} CyclesOwn(dev: nat, args: CycleArgs, k: nat)
    ensures forall i :: 0 <= i < |Cycles(dev, args, k)| ==> OwnEvent(Cycles(dev, args, k)[i], dev)
  {
    if k > 0 {
      CyclesOwn(dev, args, k - 1);
      var prev, last := Cycles(dev, args, k - 1), Cycle(dev, args, k);
      assert forall i :: 0 <= i < |last| ==> OwnEvent(last[i], dev);
      assert forall i :: |prev| <= i < |prev + last| ==> (prev + last)[i] == last[i - |prev|];
    }
  }

  /** A device's block starts with its Update, ends with Close then Logout,
      and holds no event of any other device. */
  lemma BlockIsolated(dev: nat, args: CycleArgs)
    ensures DeviceBlock(dev, args)[0] == Update(dev)
    ensures DeviceBlock(dev, args)[|DeviceBlock(dev, args)| - 2..] == [Close, Logout]
    ensures forall i :: 0 <= i < |DeviceBlock(dev, args)| ==> OwnEvent(DeviceBlock(dev, args)[i], dev)
  {
    var body := Cycles(dev, args, CycleCount(args.iterations));
    CyclesOwn(dev, args, CycleCount(args.iterations));
    BlockParts(dev, args);
    var b := DeviceBlock(dev, args);
    assert forall i :: 1 <= i < 1 + |body| ==> b[i] == body[i - 1];
  }

  /** Close and Logout happen exactly once per device found, so never when no
      device was found. */
  lemma {:induction false} LogoutPerDevice(uuids: seq<string>, args: CycleArgs, found: nat)
    ensures Count(Expected(uuids, args, found), Logout) == found
    ensures Count(Expected(uuids, args, found), Close) == found
  {
    DiscoveriesQuiet(uuids);
    BlocksLogouts(args, found);
    CountConcat([Login], Discoveries(uuids), Logout);
    CountConcat([Login], Discoveries(uuids), Close);
    CountConcat([Login] + Discoveries(uuids), Blocks(args, found), Logout);
    CountConcat([Login] + Discoveries(uuids), Blocks(args, found), Close);
    assert [Login][..0] == [];
  }

  lemma {:induction false} DiscoveriesQuiet(uuids: seq<string>)
    ensures Count(Discoveries(uuids), Logout) == 0 && Count(Discoveries(uuids), Close) == 0
  {
    if uuids != [] {
      DiscoveriesQuiet(uuids[..|uuids| - 1]);
      assert Discoveries(uuids)[..|Discoveries(uuids)| - 1] == Discoveries(uuids[..|uuids| - 1]);
    }
  }

  lemma CycleQuiet(dev: nat, args: CycleArgs, k: nat)
    ensures Count(Cycle(dev, args, k), Logout) == 0 && Count(Cycle(dev, args, k), Close) == 0
  {
    var head := [TurnOn(dev), Sleep(args.sleepTime)];
    var tail := [TurnOff(dev)] + (if k < args.iterations then [Sleep(args.sleepTime)] else []);
    assert Cycle(dev, args, k) == head + tail;
    CountConcat(head, tail, Logout);
    CountConcat(head, tail, Close);
    CountPair(TurnOn(dev), Sleep(args.sleepTime), Logout);
    CountPair(TurnOn(dev), Sleep(args.sleepTime), Close);
    if k < args.iterations {
      CountPair(TurnOff(dev), Sleep(args.sleepTime), Logout);
      CountPair(TurnOff(dev), Sleep(args.sleepTime), Close);
    } else {
      assert [TurnOff(dev)][..0] == [];
    }
  }

  lemma {:induction false} CyclesQuiet(dev: nat, args: CycleArgs, k: nat)
    ensures Count(Cycles(dev, args, k), Logout) == 0 && Count(Cycles(dev, args, k), Close) == 0
  {
    if k > 0 {
      CyclesQuiet(dev, args, k - 1);
      CycleQuiet(dev, args, k);
      CountConcat(Cycles(dev, args, k - 1), Cycle(dev, args, k), Logout);
      CountConcat(Cycles(dev, args, k - 1), Cycle(dev, args, k), Close);
    }
  }

  lemma {:induction false} BlocksLogouts(args: CycleArgs, n: nat)
    ensures Count(Blocks(args, n), Logout) == n && Count(Blocks(args, n), Close) == n
  {
    if n > 0 {
      BlocksLogouts(args, n - 1);
      var dev := n - 1;
      var body := Cycles(dev, args, CycleCount(args.iterations));
      CyclesQuiet(dev, args, CycleCount(args.iterations));
      BlockParts(dev, args);
      assert [Update(dev)][..0] == [];
      CountConcat(Blocks(args, n - 1), DeviceBlock(dev, args), Logout);
      CountConcat(Blocks(args, n - 1), DeviceBlock(dev, args), Close);
      CountConcat([Update(dev)], body, Logout);
      CountConcat([Update(dev)], body, Close);
      CountConcat([Update(dev)] + body, [Close, Logout], Logout);
      CountConcat([Update(dev)] + body, [Close, Logout], Close);
      CountPair(Close, Logout, Logout);
      CountPair(Close, Logout, Close);
    }
  }

  /** Every discovery precedes every device command. */
  lemma DiscoveryFirst(uuids: seq<string>, args: CycleArgs, found: nat)
    ensures Expected(uuids, args, found)[1..1 + |uuids|] == Discoveries(uuids)
    ensures forall i :: 1 + |uuids| <= i < |Expected(uuids, args, found)| ==> !Expected(uuids, args, found)[i].Discover?
  {
    var t := Expected(uuids, args, found);
    BlocksNoDiscover(args, found);
    assert forall i :: 1 + |uuids| <= i < |t| ==> t[i] == Blocks(args, found)[i - 1 - |uuids|];
  }

  lemma {:induction false} BlocksNoDiscover(args: CycleArgs, n: nat)
    ensures forall i :: 0 <= i < |Blocks(args, n)| ==> !Blocks(args, n)[i].Discover?
  {
    if n > 0 {
      BlocksNoDiscover(args, n - 1);
      BlockIsolated(n - 1, args);
      var prev, block := Blocks(args, n - 1), DeviceBlock(n - 1, args);
      assert forall i :: |prev| <= i < |prev + block| ==> (prev + block)[i] == block[i - |prev|];
    }
  }
}
