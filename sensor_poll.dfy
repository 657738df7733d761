/** The drift-aware sensor poll loop of environmentSensors/environmentSensorData.py
    (`main`): after discovery it builds one output list per sensor, runs the
    tick loop, and prints the collected readings once before closing the session.

    As written, the outer `for sensor in sensors` repeats the whole tick loop
    once per sensor ("round" p below), and every reading taken during round p,
    whichever device it came from, goes into the list of the round's sensor. */
module SensorPoll {
  import opened Effects

  /** A sensor as find_devices returns it. */
  datatype Sensor = Sensor(name: string, uuid: string)

  /** What a sensor's cached fields hold after async_update. */
  datatype Sample = Sample(temperature: Option<int>, humidity: Option<int>, time: int)

  /** The two arguments the loops use. */
  datatype PollArgs = PollArgs(iterations: int, interval: int)

  /** Oracle for what the script observes: `startClock(p, c)` and `endClock(p, c)`
      are datetime.now() at the start and at the end of tick c of round p, and
      `sample(p, c, d)` is what device d reports during that tick. */
  datatype Env = Env(
    startClock: (nat, nat) -> int,
    endClock: (nat, nat) -> int,
    sample: (nat, nat, nat) -> Sample)

  datatype PollError = NoOnlineSensors

  /** str(name).replace(' ', '_') */
  function Key(name: string): (k: string)
    ensures |k| == |name|
    ensures forall i :: 0 <= i < |name| ==> k[i] == (if name[i] == ' ' then '_' else name[i])
    ensures ' ' !in k
  {
    if name == [] then [] else [if name[0] == ' ' then '_' else name[0]] + Key(name[1..])
  }

  /** The keys of the output map. */
  function KeyNames(sensors: seq<Sensor>): set<string>
  {
    set i | 0 <= i < |sensors| :: Key(sensors[i].name)
  }

  /** The record built at line 103 from one sample: a missing temperature is
      recorded as 0, everything else is kept as sampled. */
  function ReadingOf(s: Sample, uuid: string): (r: Reading)
    ensures s.temperature.None? ==> r.tempC == 0
    ensures s.temperature.Some? ==> r.tempC == s.temperature.value
    ensures r.humidity == s.humidity && r.sampleTime == s.time && r.uuid == uuid
  {
    Reading(s.temperature.GetOr(0), s.humidity, s.time, uuid)
  }

  /** The readings appended under key k, in trace order. */
  function ReadingsFor(t: seq<Event>, k: string): seq<Reading>
  {
    if t == [] then []
    else ReadingsFor(t[..|t| - 1], k)
         + (if t[|t| - 1].Append? && t[|t| - 1].key == k then [t[|t| - 1].reading] else [])
  }

  /** The output map once the events of t have been performed on the initial map. */
  function Collected(sensors: seq<Sensor>, t: seq<Event>): map<string, seq<Reading>>
  {
    map k | k in KeyNames(sensors) :: ReadingsFor(t, k)
  }

  /** The events of the device loop (lines 88-107) for the first n devices of
      tick `count` of round p. */
  function Reads(sensors: seq<Sensor>, env: Env, p: nat, count: nat, n: nat): seq<Event>
    requires p < |sensors| && n <= |sensors|
  {
    if n == 0 then []
    else Reads(sensors, env, p, count, n - 1)
         + [Update(n - 1),
            Append(Key(sensors[p].name), ReadingOf(env.sample(p, count, n - 1), sensors[n - 1].uuid))]
  }

  /** The sleep after tick `count`, with the tick's target start + interval and
      the clock reading now (lines 109-117). */
  function SleepAfter(count: int, iterations: int, start: int, interval: int, now: int): (r: Option<int>)
    ensures count == iterations ==> r == None
    ensures now > start + interval ==> r == None
    ensures count != iterations && now <= start + interval ==> r.Some?
    ensures r.Some? ==> r.value >= 0 && now + r.value == start + interval
    ensures r.Some? && now >= start ==> r.value <= interval
  {
    if count == iterations then None
    else if start + interval >= now then Some(start + interval - now)
    else None
  }

  function SleepEvent(s: Option<int>): seq<Event>
  {
    match s
    case Some(secs) => [Sleep(secs)]
    case None => []
  }

  /** One tick: every device read in list order, then the sleep if any. */
  function Tick(sensors: seq<Sensor>, args: PollArgs, env: Env, p: nat, count: nat): seq<Event>
    requires p < |sensors|
  {
    Reads(sensors, env, p, count, |sensors|)
    + SleepEvent(SleepAfter(count, args.iterations, env.startClock(p, count), args.interval, env.endClock(p, count)))
  }

  /** Ticks 1..n of round p. */
  function Ticks(sensors: seq<Sensor>, args: PollArgs, env: Env, p: nat, n: nat): seq<Event>
    requires p < |sensors|
  {
    if n == 0 then [] else Ticks(sensors, args, env, p, n - 1) + Tick(sensors, args, env, p, n)
  }

  /** How many ticks `while count < iterations` runs. */
  function TickCount(iterations: int): nat
  {
    if iterations < 0 then 0 else iterations
  }

  /** Rounds 0..n-1 of the outer sensor loop. */
  function Rounds(sensors: seq<Sensor>, args: PollArgs, env: Env, n: nat): seq<Event>
    requires n <= |sensors|
  {
    if n == 0 then []
    else Rounds(sensors, args, env, n - 1) + Ticks(sensors, args, env, n - 1, TickCount(args.iterations))
  }

  function PollTrace(sensors: seq<Sensor>, args: PollArgs, env: Env): seq<Event>
  {
    Rounds(sensors, args, env, |sensors|)
  }

  /** The whole run from the emptiness check on. */
  function RunTrace(sensors: seq<Sensor>, args: PollArgs, env: Env): seq<Event>
  {
    if |sensors| == 0 then []
    else PollTrace(sensors, args, env) + [Emit(Collected(sensors, PollTrace(sensors, args, env))), Close, Logout]
  }

  // ---------------------------------------------------------------------------
  // The script

  /** Lines 71-73: one empty list per sensor key. */
  method InitOutput(sensors: seq<Sensor>) returns (output: map<string, seq<Reading>>)
    ensures output.Keys == KeyNames(sensors)
    ensures forall k :: k in output ==> output[k] == []
  {
    output := map[];
    for i := 0 to |sensors|
      invariant output.Keys == KeyNames(sensors[..i])
      invariant forall k :: k in output ==> output[k] == []
    {
      assert KeyNames(sensors[..i + 1]) == KeyNames(sensors[..i]) + {Key(sensors[i].name)} by {
        assert forall j :: 0 <= j < i ==> sensors[..i + 1][j] == sensors[..i][j];
      }
      output := output[Key(sensors[i].name) := []];
    }
    assert sensors[..|sensors|] == sensors;
  }

  /** Lines 88-107: read every device in list order and append each reading
      under the key of round p's sensor.  `t` is the trace so far, of which
      `output` is the collected map. */
  method ReadDevices(sensors: seq<Sensor>, env: Env, p: nat, count: nat,
                     output: map<string, seq<Reading>>, ghost t: seq<Event>)
    returns (output': map<string, seq<Reading>>, events: seq<Event>)
    requires p < |sensors|
    requires output == Collected(sensors, t)
    ensures events == Reads(sensors, env, p, count, |sensors|)
    ensures output' == Collected(sensors, t + events)
  {
    output', events := output, [];
    assert t + events == t;
    var key := Key(sensors[p].name);
    assert key in KeyNames(sensors);
    for d := 0 to |sensors|
      invariant events == Reads(sensors, env, p, count, d)
      invariant output' == Collected(sensors, t + events)
    {
      var data := ReadingOf(env.sample(p, count, d), sensors[d].uuid);
      ReadStep(sensors, env, p, count, d, output', t, events);
      events := events + [Update(d), Append(key, data)];
      output' := output'[key := output'[key] + [data]];
    }
  }

  /** Lines 80-117: one tick of round p, the device loop and the sleep. */
  method RunTick(sensors: seq<Sensor>, args: PollArgs, env: Env, p: nat, count: nat,
                 output: map<string, seq<Reading>>, ghost t: seq<Event>)
    returns (output': map<string, seq<Reading>>, events: seq<Event>)
    requires p < |sensors|
    requires output == Collected(sensors, t)
    ensures events == Tick(sensors, args, env, p, count)
    ensures output' == Collected(sensors, t + events)
  {
    var start := env.startClock(p, count);
    var theFuture := start + args.interval;
    output', events := ReadDevices(sensors, env, p, count, output, t);
    var now := env.endClock(p, count);
    if count == args.iterations {
      // final tick: no sleep
    } else if theFuture >= now {
      CollectedOther(sensors, t + events, Sleep(theFuture - now));
      assert t + events + [Sleep(theFuture - now)] == t + (events + [Sleep(theFuture - now)]);
      events := events + [Sleep(theFuture - now)];
    }
  }

  /** Lines 77-117: the tick loop of round p, `count` running through 1..iterations. */
  method RunRound(sensors: seq<Sensor>, args: PollArgs, env: Env, p: nat,
                  output: map<string, seq<Reading>>, ghost t: seq<Event>)
    returns (output': map<string, seq<Reading>>, events: seq<Event>)
    requires p < |sensors|
    requires output == Collected(sensors, t)
    ensures events == Ticks(sensors, args, env, p, TickCount(args.iterations))
    ensures output' == Collected(sensors, t + events)
  {
    output', events := output, [];
    assert t + events == t;
    var count: nat := 0;
    while count < args.iterations
      invariant count <= TickCount(args.iterations)
      invariant events == Ticks(sensors, args, env, p, count)
      invariant output' == Collected(sensors, t + events)
    {
      count := count + 1;
      var tick;
      output', tick := RunTick(sensors, args, env, p, count, output', t + events);
      TickJoin(sensors, args, env, p, count, t, events, tick);
      events := events + tick;
    }
  }

  /** Lines 75-117: the outer loop, one round per sensor. */
  method RunRounds(sensors: seq<Sensor>, args: PollArgs, env: Env, output: map<string, seq<Reading>>)
    returns (output': map<string, seq<Reading>>, trace: seq<Event>)
    requires output == Collected(sensors, [])
    ensures trace == PollTrace(sensors, args, env)
    ensures output' == Collected(sensors, trace)
  {
    output', trace := output, [];
    for p := 0 to |sensors|
      invariant trace == Rounds(sensors, args, env, p)
      invariant output' == Collected(sensors, trace)
    {
      var round;
      output', round := RunRound(sensors, args, env, p, output', trace);
      trace := trace + round;
    }
  }

  /** Lines 68-121, from the emptiness check on. */
  method Poll(sensors: seq<Sensor>, args: PollArgs, env: Env)
    returns (result: Result<map<string, seq<Reading>>, PollError>, trace: seq<Event>)
    ensures |sensors| == 0 ==> result == Failure(NoOnlineSensors) && trace == []
    ensures |sensors| > 0 ==> result == Success(Collected(sensors, PollTrace(sensors, args, env)))
    ensures trace == RunTrace(sensors, args, env)
  {
    if |sensors| < 1 {
      return Failure(NoOnlineSensors), [];
    }
    var output := InitOutput(sensors);
    assert output == Collected(sensors, []);
    output, trace := RunRounds(sensors, args, env, output);
    trace := trace + [Emit(output), Close, Logout];
    result := Success(output);
  }

  // ---------------------------------------------------------------------------
  // Helper lemmas on the output map

  lemma ReadingsForSnoc(t: seq<Event>, e: Event, k: string)
    ensures ReadingsFor(t + [e], k) == ReadingsFor(t, k) + (if e.Append? && e.key == k then [e.reading] else [])
  {
    assert (t + [e])[..|t|] == t;
  }

  lemma TickJoin(sensors: seq<Sensor>, args: PollArgs, env: Env, p: nat, count: nat,
                 t: seq<Event>, events: seq<Event>, tick: seq<Event>)
    requires p < |sensors| && count >= 1
    requires events == Ticks(sensors, args, env, p, count - 1) && tick == Tick(sensors, args, env, p, count)
    ensures events + tick == Ticks(sensors, args, env, p, count)
    ensures t + events + tick == t + (events + tick)
  {
  }

  lemma AppendTwo(t: seq<Event>, events: seq<Event>, a: Event, b: Event)
    ensures t + (events + [a, b]) == t + events + [a] + [b]
  {
  }

  /** One pass of the device loop: update device d, then append its reading
      under round p's key. */
  lemma ReadStep(sensors: seq<Sensor>, env: Env, p: nat, count: nat, d: nat,
                 output: map<string, seq<Reading>>, t: seq<Event>, events: seq<Event>)
    requires p < |sensors| && d < |sensors|
    requires events == Reads(sensors, env, p, count, d)
    requires output == Collected(sensors, t + events)
    ensures var key, data := Key(sensors[p].name), ReadingOf(env.sample(p, count, d), sensors[d].uuid);
      && events + [Update(d), Append(key, data)] == Reads(sensors, env, p, count, d + 1)
      && key in output
      && output[key := output[key] + [data]] == Collected(sensors, t + (events + [Update(d), Append(key, data)]))
  {
    var key, data := Key(sensors[p].name), ReadingOf(env.sample(p, count, d), sensors[d].uuid);
    assert key in KeyNames(sensors);
    CollectedOther(sensors, t + events, Update(d));
    CollectedAppend(sensors, t + events + [Update(d)], key, data);
    AppendTwo(t, events, Update(d), Append(key, data));
  }

  lemma CollectedAppend(sensors: seq<Sensor>, t: seq<Event>, k: string, r: Reading)
    requires k in KeyNames(sensors)
    ensures Collected(sensors, t + [Append(k, r)]) == Collected(sensors, t)[k := Collected(sensors, t)[k] + [r]]
  {
    var before, after := Collected(sensors, t), Collected(sensors, t + [Append(k, r)]);
    var expected := before[k := before[k] + [r]];
    assert after.Keys == expected.Keys;
    forall k' | k' in after
      ensures after[k'] == expected[k']
    {
      ReadingsForSnoc(t, Append(k, r), k');
    }
  }

  lemma CollectedOther(sensors: seq<Sensor>, t: seq<Event>, e: Event)
    requires !e.Append?
    ensures Collected(sensors, t + [e]) == Collected(sensors, t)
  {
    var before, after := Collected(sensors, t), Collected(sensors, t + [e]);
    forall k' | k' in after
      ensures after[k'] == before[k']
    {
      ReadingsForSnoc(t, e, k');
    }
  }

  // ---------------------------------------------------------------------------
  // Properties of the poll loop

  /** Within a tick the devices are read in list order, one Update and one
      Append each, and every reading goes under round p's key. */
  lemma {:induction false} ReadsShape(sensors: seq<Sensor>, env: Env, p: nat, count: nat, n: nat)
    requires p < |sensors| && n <= |sensors|
    ensures var r := Reads(sensors, env, p, count, n);
      && |r| == 2 * n
      && forall i :: 0 <= i < |r| ==>
           r[i] == if i % 2 == 0 then Update(i / 2)
                   else Append(Key(sensors[p].name), ReadingOf(env.sample(p, count, i / 2), sensors[i / 2].uuid))
  {
    if n > 0 {
      ReadsShape(sensors, env, p, count, n - 1);
      var r := Reads(sensors, env, p, count, n);
      forall i | 2 * (n - 1) <= i < 2 * n
        ensures r[i] == if i % 2 == 0 then Update(i / 2)
                        else Append(Key(sensors[p].name), ReadingOf(env.sample(p, count, i / 2), sensors[i / 2].uuid))
      {
        assert i / 2 == n - 1;
      }
    }
  }

  /** A device that reports no temperature still gets its reading appended,
      with tempC recorded as 0 (lines 98 and 103). */
  lemma MissingTemperatureIsZero(sensors: seq<Sensor>, args: PollArgs, env: Env, p: nat, count: nat, d: nat)
    requires p < |sensors| && d < |sensors|
    requires env.sample(p, count, d).temperature == None
    ensures |Tick(sensors, args, env, p, count)| > 2 * d + 1
    ensures Tick(sensors, args, env, p, count)[2 * d + 1]
         == Append(Key(sensors[p].name),
                   Reading(0, env.sample(p, count, d).humidity, env.sample(p, count, d).time, sensors[d].uuid))
  {
    ReadsShape(sensors, env, p, count, |sensors|);
    assert (2 * d + 1) / 2 == d;
  }

  /** How many times device d is updated in t: Count(t, Update(d)), counted by
      constructor and field so that proofs about it need no datatype equality. */
  function Updates(t: seq<Event>, d: nat): nat
  {
    if t == [] then 0 else Updates(t[..|t| - 1], d) + (if t[|t| - 1].Update? && t[|t| - 1].dev == d then 1 else 0)
  }

  lemma {:induction false} UpdatesAreCount(t: seq<Event>, d: nat)
    ensures Updates(t, d) == Count(t, Update(d))
  {
    if t != [] {
      UpdatesAreCount(t[..|t| - 1], d);
    }
  }

  lemma {:induction false} UpdatesConcat(a: seq<Event>, b: seq<Event>, d: nat)
    ensures Updates(a + b, d) == Updates(a, d) + Updates(b, d)
  {
    if b == [] {
      assert a + b == a;
    } else {
      assert (a + b)[..|a + b| - 1] == a + b[..|b| - 1];
      UpdatesConcat(a, b[..|b| - 1], d);
    }
  }

  lemma {:induction false} ReadsUpdateCount(sensors: seq<Sensor>, env: Env, p: nat, count: nat, n: nat, d: nat)
    requires p < |sensors| && n <= |sensors|
    ensures Updates(Reads(sensors, env, p, count, n), d) == if d < n then 1 else 0
  {
    if n > 0 {
      var step := [Update(n - 1),
                   Append(Key(sensors[p].name), ReadingOf(env.sample(p, count, n - 1), sensors[n - 1].uuid))];
      ReadsUpdateCount(sensors, env, p, count, n - 1, d);
      assert Updates(step, d) == if d == n - 1 then 1 else 0 by {
        assert step[..1] == [Update(n - 1)] && [Update(n - 1)][..0] == [];
        assert Updates([Update(n - 1)], d) == if d == n - 1 then 1 else 0;
      }
      UpdatesConcat(Reads(sensors, env, p, count, n - 1), step, d);
    }
  }

  lemma SleepEventCount(o: Option<int>, d: nat)
    ensures Updates(SleepEvent(o), d) == 0
  {
    if o.Some? {
      assert SleepEvent(o)[..0] == [];
    }
  }

  /** Every tick of a round updates each device exactly once. */
  lemma TicksUpdateCount(sensors: seq<Sensor>, args: PollArgs, env: Env, p: nat, n: nat, d: nat)
    requires p < |sensors| && d < |sensors|
    ensures Count(Ticks(sensors, args, env, p, n), Update(d)) == n
  {
    var list := TickList(sensors, args, env, p, n);
    forall i | 0 <= i < n
      ensures Updates(list[i], d) == 1
    {
      TickListUpdates(sensors, args, env, p, n, i, d);
    }
    TicksFlatten(sensors, args, env, p, n);
    FlattenUpdates(list, d, 1);
    UpdatesAreCount(Ticks(sensors, args, env, p, n), d);
  }

  lemma TickListUpdates(sensors: seq<Sensor>, args: PollArgs, env: Env, p: nat, n: nat, i: nat, d: nat)
    requires p < |sensors| && d < |sensors| && i < n
    ensures Updates(TickList(sensors, args, env, p, n)[i], d) == 1
  {
    TickUpdateCount(sensors, args, env, p, i + 1, d);
  }

  lemma {:induction false} FlattenUpdates(blocks: seq<seq<Event>>, d: nat, c: nat)
    requires forall i :: 0 <= i < |blocks| ==> Updates(blocks[i], d) == c
    ensures Updates(Flatten(blocks), d) == |blocks| * c
  {
    if blocks != [] {
      var n := |blocks|;
      FlattenUpdates(blocks[..n - 1], d, c);
      UpdatesConcat(Flatten(blocks[..n - 1]), blocks[n - 1], d);
      MulStep(n, c);
    }
  }

  lemma TickUpdateCount(sensors: seq<Sensor>, args: PollArgs, env: Env, p: nat, count: nat, d: nat)
    requires p < |sensors| && d < |sensors|
    ensures Updates(Tick(sensors, args, env, p, count), d) == 1
  {
    var o := SleepAfter(count, args.iterations, env.startClock(p, count), args.interval, env.endClock(p, count));
    ReadsUpdateCount(sensors, env, p, count, |sensors|, d);
    SleepEventCount(o, d);
    UpdatesConcat(Reads(sensors, env, p, count, |sensors|), SleepEvent(o), d);
  }

  lemma {:induction false} ReadingsForConcat(a: seq<Event>, b: seq<Event>, k: string)
    ensures ReadingsFor(a + b, k) == ReadingsFor(a, k) + ReadingsFor(b, k)
  {
    if b == [] {
      assert a + b == a;
    } else {
      assert (a + b)[..|a + b| - 1] == a + b[..|b| - 1];
      ReadingsForConcat(a, b[..|b| - 1], k);
    }
  }

  /** The number of appends in t, whatever their key. */
  function Appends(t: seq<Event>): nat
  {
    if t == [] then 0 else Appends(t[..|t| - 1]) + (if t[|t| - 1].Append? then 1 else 0)
  }

  /** The number of appends in t under a key other than key. */
  function Stray(t: seq<Event>, key: string): nat
  {
    if t == [] then 0 else Stray(t[..|t| - 1], key) + (if t[|t| - 1].Append? && t[|t| - 1].key != key then 1 else 0)
  }

  lemma {:induction false} AppendsConcat(a: seq<Event>, b: seq<Event>, key: string)
    requires Stray(a, key) == 0 && Stray(b, key) == 0
    ensures Appends(a + b) == Appends(a) + Appends(b)
    ensures Stray(a + b, key) == 0
  {
    if b == [] {
      assert a + b == a;
    } else {
      assert (a + b)[..|a + b| - 1] == a + b[..|b| - 1];
      AppendsConcat(a, b[..|b| - 1], key);
    }
  }

  /** When all appends of t go under one key, that key gets all of them and
      every other key none. */
  lemma {:induction false} KeyedReadings(t: seq<Event>, key: string, k: string)
    requires Stray(t, key) == 0
    ensures |ReadingsFor(t, k)| == if k == key then Appends(t) else 0
  {
    if t != [] {
      KeyedReadings(t[..|t| - 1], key, k);
    }
  }

  lemma {:induction false} ReadsAppends(sensors: seq<Sensor>, env: Env, p: nat, count: nat, n: nat)
    requires p < |sensors| && n <= |sensors|
    ensures Appends(Reads(sensors, env, p, count, n)) == n
    ensures Stray(Reads(sensors, env, p, count, n), Key(sensors[p].name)) == 0
  {
    if n > 0 {
      var key := Key(sensors[p].name);
      var step := [Update(n - 1), Append(key, ReadingOf(env.sample(p, count, n - 1), sensors[n - 1].uuid))];
      ReadsAppends(sensors, env, p, count, n - 1);
      assert Appends(step) == 1 && Stray(step, key) == 0 by {
        assert step[..1] == [Update(n - 1)] && [Update(n - 1)][..0] == [];
        assert Appends([Update(n - 1)]) == 0 && Stray([Update(n - 1)], key) == 0;
      }
      AppendsConcat(Reads(sensors, env, p, count, n - 1), step, key);
    }
  }

  lemma TickAppends(sensors: seq<Sensor>, args: PollArgs, env: Env, p: nat, count: nat)
    requires p < |sensors|
    ensures Appends(Tick(sensors, args, env, p, count)) == |sensors|
    ensures Stray(Tick(sensors, args, env, p, count), Key(sensors[p].name)) == 0
  {
    var o := SleepAfter(count, args.iterations, env.startClock(p, count), args.interval, env.endClock(p, count));
    var key := Key(sensors[p].name);
    ReadsAppends(sensors, env, p, count, |sensors|);
    assert Appends(SleepEvent(o)) == 0 && Stray(SleepEvent(o), key) == 0 by {
      if o.Some? {
        assert [Sleep(o.value)][..0] == [];
      }
    }
    AppendsConcat(Reads(sensors, env, p, count, |sensors|), SleepEvent(o), key);
  }

  /** The ticks 1..n of round p as a list of blocks. */
  function TickList(sensors: seq<Sensor>, args: PollArgs, env: Env, p: nat, n: nat): (r: seq<seq<Event>>)
    requires p < |sensors|
    ensures |r| == n
    ensures forall i :: 0 <= i < n ==> r[i] == Tick(sensors, args, env, p, i + 1)
  {
    if n == 0 then [] else TickList(sensors, args, env, p, n - 1) + [Tick(sensors, args, env, p, n)]
  }

  lemma {:induction false} TicksFlatten(sensors: seq<Sensor>, args: PollArgs, env: Env, p: nat, n: nat)
    requires p < |sensors|
    ensures Ticks(sensors, args, env, p, n) == Flatten(TickList(sensors, args, env, p, n))
  {
    if n > 0 {
      TicksFlatten(sensors, args, env, p, n - 1);
      var list := TickList(sensors, args, env, p, n);
      assert list[..n - 1] == TickList(sensors, args, env, p, n - 1);
      assert Flatten(list) == Flatten(list[..n - 1]) + list[n - 1];
    }
  }

  /** Blocks of c appends each, all under key. */
  lemma {:induction false} FlattenAppends(blocks: seq<seq<Event>>, key: string, c: nat)
    requires forall i :: 0 <= i < |blocks| ==> Stray(blocks[i], key) == 0 && Appends(blocks[i]) == c
    ensures Appends(Flatten(blocks)) == |blocks| * c
    ensures Stray(Flatten(blocks), key) == 0
  {
    if blocks != [] {
      var n := |blocks|;
      FlattenAppends(blocks[..n - 1], key, c);
      assert Flatten(blocks) == Flatten(blocks[..n - 1]) + blocks[n - 1];
      AppendsConcat(Flatten(blocks[..n - 1]), blocks[n - 1], key);
      MulStep(n, c);
    }
  }

  lemma TicksAppends(sensors: seq<Sensor>, args: PollArgs, env: Env, p: nat, n: nat)
    requires p < |sensors|
    ensures Appends(Ticks(sensors, args, env, p, n)) == n * |sensors|
    ensures Stray(Ticks(sensors, args, env, p, n), Key(sensors[p].name)) == 0
  {
    var list := TickList(sensors, args, env, p, n);
    forall i | 0 <= i < n
      ensures Stray(list[i], Key(sensors[p].name)) == 0 && Appends(list[i]) == |sensors|
    {
      TickListAppends(sensors, args, env, p, n, i);
    }
    TicksFlatten(sensors, args, env, p, n);
    FlattenAppends(list, Key(sensors[p].name), |sensors|);
  }

  lemma TickListAppends(sensors: seq<Sensor>, args: PollArgs, env: Env, p: nat, n: nat, i: nat)
    requires p < |sensors| && i < n
    ensures Stray(TickList(sensors, args, env, p, n)[i], Key(sensors[p].name)) == 0
    ensures Appends(TickList(sensors, args, env, p, n)[i]) == |sensors|
  {
    TickAppends(sensors, args, env, p, i + 1);
  }

  /** Each tick of round p appends |sensors| readings under round p's key and
      nothing under any other key. */
  lemma TicksReadings(sensors: seq<Sensor>, args: PollArgs, env: Env, p: nat, n: nat, k: string)
    requires p < |sensors|
    ensures |ReadingsFor(Ticks(sensors, args, env, p, n), k)| == if k == Key(sensors[p].name) then n * |sensors| else 0
  {
    TicksAppends(sensors, args, env, p, n);
    KeyedReadings(Ticks(sensors, args, env, p, n), Key(sensors[p].name), k);
  }

  lemma MulStep(n: nat, m: nat)
    requires n > 0
    ensures (n - 1) * m + m == n * m
  {
  }

  /** No two sensors share a key. */
  predicate DistinctKeys(sensors: seq<Sensor>)
  {
    forall i, j :: 0 <= i < |sensors| && 0 <= j < |sensors| && i != j ==> Key(sensors[i].name) != Key(sensors[j].name)
  }

  /** The rounds 0..n-1 as a list of blocks. */
  function RoundList(sensors: seq<Sensor>, args: PollArgs, env: Env, n: nat): (r: seq<seq<Event>>)
    requires n <= |sensors|
    ensures |r| == n
    ensures forall q :: 0 <= q < n ==> r[q] == Ticks(sensors, args, env, q, TickCount(args.iterations))
  {
    if n == 0 then [] else RoundList(sensors, args, env, n - 1) + [Ticks(sensors, args, env, n - 1, TickCount(args.iterations))]
  }

  function Flatten(blocks: seq<seq<Event>>): seq<Event>
  {
    if blocks == [] then [] else Flatten(blocks[..|blocks| - 1]) + blocks[|blocks| - 1]
  }

  lemma {:induction false} RoundsFlatten(sensors: seq<Sensor>, args: PollArgs, env: Env, n: nat)
    requires n <= |sensors|
    ensures Rounds(sensors, args, env, n) == Flatten(RoundList(sensors, args, env, n))
  {
    if n > 0 {
      RoundsFlatten(sensors, args, env, n - 1);
      var list := RoundList(sensors, args, env, n);
      assert list[..n - 1] == RoundList(sensors, args, env, n - 1);
      assert Flatten(list) == Flatten(list[..n - 1]) + list[n - 1];
    }
  }

  /** Blocks whose appends all go under their own sensor's key, c per block:
      with distinct keys, sensor p's key receives exactly block p's appends. */
  lemma {:induction false} BlocksReadings(sensors: seq<Sensor>, blocks: seq<seq<Event>>, p: nat, c: nat)
    requires |blocks| <= |sensors| && p < |sensors|
    requires DistinctKeys(sensors)
    requires forall q :: 0 <= q < |blocks| ==> Stray(blocks[q], Key(sensors[q].name)) == 0 && Appends(blocks[q]) == c
    ensures |ReadingsFor(Flatten(blocks), Key(sensors[p].name))| == if p < |blocks| then c else 0
  {
    if blocks != [] {
      var n := |blocks|;
      var k := Key(sensors[p].name);
      var prev, last := blocks[..n - 1], blocks[n - 1];
      BlocksReadings(sensors, prev, p, c);
      BlockReadings(sensors, last, n - 1, p, c);
      ReadingsLengthConcat(Flatten(prev), last, k);
    }
  }

  /** A block keyed to round q holds c readings for round q's key and none for
      any other round's. */
  lemma BlockReadings(sensors: seq<Sensor>, block: seq<Event>, q: nat, p: nat, c: nat)
    requires q < |sensors| && p < |sensors|
    requires DistinctKeys(sensors)
    requires Stray(block, Key(sensors[q].name)) == 0 && Appends(block) == c
    ensures |ReadingsFor(block, Key(sensors[p].name))| == if p == q then c else 0
  {
    KeyedReadings(block, Key(sensors[q].name), Key(sensors[p].name));
  }

  lemma RoundsReadings(sensors: seq<Sensor>, args: PollArgs, env: Env, n: nat, p: nat)
    requires n <= |sensors| && p < |sensors|
    requires DistinctKeys(sensors)
    ensures |ReadingsFor(Rounds(sensors, args, env, n), Key(sensors[p].name))|
         == if p < n then TickCount(args.iterations) * |sensors| else 0
  {
    var list := RoundList(sensors, args, env, n);
    forall q | 0 <= q < n
      ensures Stray(list[q], Key(sensors[q].name)) == 0 && Appends(list[q]) == TickCount(args.iterations) * |sensors|
    {
      RoundListAppends(sensors, args, env, n, q);
    }
    RoundsFlatten(sensors, args, env, n);
    BlocksReadings(sensors, list, p, TickCount(args.iterations) * |sensors|);
  }

  lemma RoundListAppends(sensors: seq<Sensor>, args: PollArgs, env: Env, n: nat, q: nat)
    requires n <= |sensors| && q < n
    ensures Stray(RoundList(sensors, args, env, n)[q], Key(sensors[q].name)) == 0
    ensures Appends(RoundList(sensors, args, env, n)[q]) == TickCount(args.iterations) * |sensors|
  {
    TicksAppends(sensors, args, env, q, TickCount(args.iterations));
  }

  lemma ReadingsLengthConcat(a: seq<Event>, b: seq<Event>, k: string)
    ensures |ReadingsFor(a + b, k)| == |ReadingsFor(a, k)| + |ReadingsFor(b, k)|
  {
    ReadingsForConcat(a, b, k);
  }

  /** With distinct keys, every key ends with iterations * |sensors| readings:
      all the readings of its own round. */
  lemma ReadingsPerKey(sensors: seq<Sensor>, args: PollArgs, env: Env, p: nat)
    requires p < |sensors|
    requires DistinctKeys(sensors)
    ensures Key(sensors[p].name) in Collected(sensors, PollTrace(sensors, args, env))
    ensures |Collected(sensors, PollTrace(sensors, args, env))[Key(sensors[p].name)]|
         == TickCount(args.iterations) * |sensors|
  {
    assert Key(sensors[p].name) in KeyNames(sensors);
    RoundsReadings(sensors, args, env, |sensors|, p);
  }

  // Sleeps

  lemma {:induction false} ReadsNoSleep(sensors: seq<Sensor>, env: Env, p: nat, count: nat, n: nat)
    requires p < |sensors| && n <= |sensors|
    ensures Sleeps(Reads(sensors, env, p, count, n)) == []
  {
    if n > 0 {
      var step := [Update(n - 1),
                   Append(Key(sensors[p].name), ReadingOf(env.sample(p, count, n - 1), sensors[n - 1].uuid))];
      ReadsNoSleep(sensors, env, p, count, n - 1);
      FilterConcat(Reads(sensors, env, p, count, n - 1), step, IsSleep);
      FilterPair(step[0], step[1], IsSleep);
    }
  }

  lemma TickSleepsOf(sensors: seq<Sensor>, args: PollArgs, env: Env, p: nat, count: nat)
    requires p < |sensors|
    ensures Sleeps(Tick(sensors, args, env, p, count))
         == SleepEvent(SleepAfter(count, args.iterations, env.startClock(p, count), args.interval, env.endClock(p, count)))
  {
    var o := SleepAfter(count, args.iterations, env.startClock(p, count), args.interval, env.endClock(p, count));
    ReadsNoSleep(sensors, env, p, count, |sensors|);
    FilterConcat(Reads(sensors, env, p, count, |sensors|), SleepEvent(o), IsSleep);
    if o.Some? {
      FilterSingle(Sleep(o.value), IsSleep);
    }
  }

  /** No sleep follows the final tick, which ends with the last device's reading. */
  lemma FinalTickNoSleep(sensors: seq<Sensor>, args: PollArgs, env: Env, p: nat)
    requires p < |sensors| && args.iterations >= 1
    ensures Sleeps(Tick(sensors, args, env, p, args.iterations)) == []
    ensures Tick(sensors, args, env, p, args.iterations)[|Tick(sensors, args, env, p, args.iterations)| - 1]
         == Append(Key(sensors[p].name), ReadingOf(env.sample(p, args.iterations, |sensors| - 1), sensors[|sensors| - 1].uuid))
  {
    TickSleepsOf(sensors, args, env, p, args.iterations);
    ReadsShape(sensors, env, p, args.iterations, |sensors|);
    assert (2 * |sensors| - 1) / 2 == |sensors| - 1;
  }

  /** After a non-final tick that finished within its interval, the script sleeps
      exactly until start + interval; after one that overran it does not sleep. */
  lemma SleepLandsOnTarget(sensors: seq<Sensor>, args: PollArgs, env: Env, p: nat, count: nat)
    requires p < |sensors| && count != args.iterations
    ensures env.endClock(p, count) <= env.startClock(p, count) + args.interval ==>
      Sleeps(Tick(sensors, args, env, p, count))
      == [Sleep(env.startClock(p, count) + args.interval - env.endClock(p, count))]
    ensures env.endClock(p, count) > env.startClock(p, count) + args.interval ==>
      Sleeps(Tick(sensors, args, env, p, count)) == []
  {
    TickSleepsOf(sensors, args, env, p, count);
  }

  /** The sleeps of ticks 1..n of round p, one per tick at most. */
  function TickSleeps(sensors: seq<Sensor>, args: PollArgs, env: Env, p: nat, n: nat): seq<Event>
  {
    if n == 0 then []
    else TickSleeps(sensors, args, env, p, n - 1)
         + SleepEvent(SleepAfter(n, args.iterations, env.startClock(p, n), args.interval, env.endClock(p, n)))
  }

  /** The sleep each tick 1..n of round p ends with, one block per tick. */
  function SleepList(args: PollArgs, env: Env, p: nat, n: nat): (r: seq<seq<Event>>)
    ensures |r| == n
    ensures forall i :: 0 <= i < n ==>
      r[i] == SleepEvent(SleepAfter(i + 1, args.iterations, env.startClock(p, i + 1), args.interval, env.endClock(p, i + 1)))
  {
    if n == 0 then []
    else SleepList(args, env, p, n - 1)
         + [SleepEvent(SleepAfter(n, args.iterations, env.startClock(p, n), args.interval, env.endClock(p, n)))]
  }

  lemma {:induction false} SleepsFlatten(sensors: seq<Sensor>, args: PollArgs, env: Env, p: nat, n: nat)
    ensures TickSleeps(sensors, args, env, p, n) == Flatten(SleepList(args, env, p, n))
  {
    if n > 0 {
      SleepsFlatten(sensors, args, env, p, n - 1);
      var list := SleepList(args, env, p, n);
      assert list[..n - 1] == SleepList(args, env, p, n - 1);
      assert Flatten(list) == Flatten(list[..n - 1]) + list[n - 1];
    }
  }

  /** Filtering a concatenation of blocks filters each block. */
  lemma {:induction false} FlattenFilter(blocks: seq<seq<Event>>, outs: seq<seq<Event>>, keep: Event -> bool)
    requires |outs| == |blocks|
    requires forall i :: 0 <= i < |blocks| ==> Filter(blocks[i], keep) == outs[i]
    ensures Filter(Flatten(blocks), keep) == Flatten(outs)
  {
    if blocks != [] {
      var n := |blocks|;
      FlattenFilter(blocks[..n - 1], outs[..n - 1], keep);
      FilterConcat(Flatten(blocks[..n - 1]), blocks[n - 1], keep);
    }
  }

  lemma RoundSleepsAre(sensors: seq<Sensor>, args: PollArgs, env: Env, p: nat, n: nat)
    requires p < |sensors|
    ensures Sleeps(Ticks(sensors, args, env, p, n)) == TickSleeps(sensors, args, env, p, n)
  {
    var list, outs := TickList(sensors, args, env, p, n), SleepList(args, env, p, n);
    forall i | 0 <= i < n
      ensures Filter(list[i], IsSleep) == outs[i]
    {
      TickListSleeps(sensors, args, env, p, n, i);
    }
    TicksFlatten(sensors, args, env, p, n);
    SleepsFlatten(sensors, args, env, p, n);
    FlattenFilter(list, outs, IsSleep);
  }

  lemma TickListSleeps(sensors: seq<Sensor>, args: PollArgs, env: Env, p: nat, n: nat, i: nat)
    requires p < |sensors| && i < n
    ensures Filter(TickList(sensors, args, env, p, n)[i], IsSleep) == SleepList(args, env, p, n)[i]
  {
    TickSleepsOf(sensors, args, env, p, i + 1);
  }

  /** The clock does not run backwards within ticks 1..n of round p. */
  ghost predicate Monotone(env: Env, p: nat, n: nat)
  {
    forall c :: 1 <= c <= n ==> env.startClock(p, c) <= env.endClock(p, c)
  }

  /** Ticks 1..n of round p all finished within their interval. */
  ghost predicate OnTime(env: Env, args: PollArgs, p: nat, n: nat)
  {
    forall c :: 1 <= c <= n ==> env.endClock(p, c) <= env.startClock(p, c) + args.interval
  }

  lemma {:induction false} TickSleepsBounds(sensors: seq<Sensor>, args: PollArgs, env: Env, p: nat, n: nat)
    requires n <= TickCount(args.iterations)
    ensures var s := TickSleeps(sensors, args, env, p, n);
      && |s| <= n - (if n == args.iterations && n > 0 then 1 else 0)
      && (forall e :: e in s ==> e.Sleep? && e.secs >= 0)
      && (Monotone(env, p, n) ==> forall e :: e in s ==> e.Sleep? && e.secs <= args.interval)
      && (OnTime(env, args, p, n) ==> |s| == n - (if n == args.iterations && n > 0 then 1 else 0))
  {
    if n > 0 {
      TickSleepsBounds(sensors, args, env, p, n - 1);
      assert Monotone(env, p, n) ==> Monotone(env, p, n - 1);
      assert OnTime(env, args, p, n) ==> OnTime(env, args, p, n - 1);
    }
  }

  /** The sleeps of a round: never negative, at most one per non-final tick,
      exactly one per non-final tick when no tick overran, and never longer than
      the interval while the clock runs forward. */
  lemma RoundSleeps(sensors: seq<Sensor>, args: PollArgs, env: Env, p: nat, n: nat)
    requires p < |sensors| && n <= TickCount(args.iterations)
    ensures var s := Sleeps(Ticks(sensors, args, env, p, n));
      && |s| <= n - (if n == args.iterations && n > 0 then 1 else 0)
      && (forall e :: e in s ==> e.Sleep? && e.secs >= 0)
      && (Monotone(env, p, n) ==> forall e :: e in s ==> e.Sleep? && e.secs <= args.interval)
      && (OnTime(env, args, p, n) ==> |s| == n - (if n == args.iterations && n > 0 then 1 else 0))
  {
    RoundSleepsAre(sensors, args, env, p, n);
    TickSleepsBounds(sensors, args, env, p, n);
  }

  // Emission

  /** Every event of the loops is a refresh, an append or a sleep. */
  ghost predicate LoopEvents(t: seq<Event>)
  {
    forall i :: 0 <= i < |t| ==> t[i].Update? || t[i].Append? || t[i].Sleep?
  }

  lemma {:induction false} RoundsAreLoopEvents(sensors: seq<Sensor>, args: PollArgs, env: Env, n: nat)
    requires n <= |sensors|
    ensures LoopEvents(Rounds(sensors, args, env, n))
  {
    if n > 0 {
      RoundsAreLoopEvents(sensors, args, env, n - 1);
      TicksAreLoopEvents(sensors, args, env, n - 1, TickCount(args.iterations));
    }
  }

  lemma {:induction false} TicksAreLoopEvents(sensors: seq<Sensor>, args: PollArgs, env: Env, p: nat, n: nat)
    requires p < |sensors|
    ensures LoopEvents(Ticks(sensors, args, env, p, n))
  {
    if n > 0 {
      TicksAreLoopEvents(sensors, args, env, p, n - 1);
      ReadsShape(sensors, env, p, n, |sensors|);
    }
  }

  /** The output is emitted exactly once, after all loops, and is followed by
      exactly one close and one logout (lines 119-121). */
  lemma EmitOnce(sensors: seq<Sensor>, args: PollArgs, env: Env)
    requires |sensors| > 0
    ensures var t := RunTrace(sensors, args, env);
      && |t| >= 3
      && t[|t| - 3] == Emit(Collected(sensors, PollTrace(sensors, args, env)))
      && t[|t| - 2] == Close && t[|t| - 1] == Logout
      && forall i :: 0 <= i < |t| - 3 ==> !t[i].Emit? && !t[i].Close? && !t[i].Logout?
  {
    RoundsAreLoopEvents(sensors, args, env, |sensors|);
  }
}
