/** The observable effects of the three control scripts.  Login, discovery,
    device updates, power commands, sleeps, appends to the output map, the
    printed output, the manager close and the logout are each recorded as one
    Event, in the order the script makes them; a run is the sequence of its
    events (its trace).  Clock readings, find_devices and the sampled sensor
    values are inputs, not events. */
module Effects {

  datatype Option<T> = None | Some(value: T) {
    /** Python's `x or default` for a value that is either a number or None. */
    function GetOr(default: T): T {
      match this
      case Some(v) => v
      case None => default
    }
  }

  datatype Result<T, E> = Success(value: T) | Failure(error: E)

  /** One sensor reading as the poll script stores it (its tempF field,
      a floating-point conversion of tempC, is not modelled). */
  datatype Reading = Reading(tempC: int, humidity: Option<int>, sampleTime: int, uuid: string)

  /** Devices are named by their position in the list the SDK returned. */
  datatype Event =
    | Login                                   // session opened and manager started
    | Discover(uuid: string)                  // async_device_discovery for one uuid
    | Update(dev: nat)                        // async_update of a device
    | TurnOn(dev: nat)                        // async_turn_on(channel=0)
    | TurnOff(dev: nat)                       // async_turn_off(channel=0)
    | Sleep(secs: int)                        // time.sleep / asyncio.sleep
    | Append(key: string, reading: Reading)   // output[key].append(reading)
    | Emit(output: map<string, seq<Reading>>) // the one JSON document on stdout
    | Close                                   // manager.close()
    | Logout                                  // http client async_logout()

  predicate IsSwitch(e: Event) { e.TurnOn? || e.TurnOff? }

  predicate IsSleep(e: Event) { e.Sleep? }

  /** Number of occurrences of e in t. */
  function Count(t: seq<Event>, e: Event): nat
  {
    if t == [] then 0 else Count(t[..|t| - 1], e) + (if t[|t| - 1] == e then 1 else 0)
  }

  lemma {:induction false} CountConcat(a: seq<Event>, b: seq<Event>, e: Event)
    ensures Count(a + b, e) == Count(a, e) + Count(b, e)
  {
    if b == [] {
      assert a + b == a;
    } else {
      assert (a + b)[..|a + b| - 1] == a + b[..|b| - 1];
      CountConcat(a, b[..|b| - 1], e);
    }
  }

  lemma CountPair(a: Event, b: Event, e: Event)
    ensures Count([a, b], e) == (if a == e then 1 else 0) + (if b == e then 1 else 0)
  {
    assert [a, b][..|[a, b]| - 1] == [a];
    assert [a][..|[a]| - 1] == [];
    assert Count([a], e) == Count([], e) + (if a == e then 1 else 0);
  }

  /** The events of t that satisfy keep, in their order in t. */
  function Filter(t: seq<Event>, keep: Event -> bool): seq<Event>
  {
    if t == [] then []
    else Filter(t[..|t| - 1], keep) + (if keep(t[|t| - 1]) then [t[|t| - 1]] else [])
  }

  lemma {:induction false} FilterConcat(a: seq<Event>, b: seq<Event>, keep: Event -> bool)
    ensures Filter(a + b, keep) == Filter(a, keep) + Filter(b, keep)
  {
    if b == [] {
      assert a + b == a;
    } else {
      assert (a + b)[..|a + b| - 1] == a + b[..|b| - 1];
      FilterConcat(a, b[..|b| - 1], keep);
    }
  }

  lemma FilterPair(a: Event, b: Event, keep: Event -> bool)
    ensures Filter([a, b], keep) == (if keep(a) then [a] else []) + (if keep(b) then [b] else [])
  {
    assert [a, b][..|[a, b]| - 1] == [a];
    assert [a][..|[a]| - 1] == [];
    assert Filter([a], keep) == Filter([], keep) + (if keep(a) then [a] else []);
  }

  lemma FilterSingle(a: Event, keep: Event -> bool)
    ensures Filter([a], keep) == if keep(a) then [a] else []
  {
    assert [a][..|[a]| - 1] == [];
  }

  /** One duty cycle of a plug: on, a hold, off, then a pause if there is one.
      Both duty-cycle scripts issue exactly this shape. */
  function OnOff(dev: nat, hold: int, pause: Option<int>): seq<Event>
  {
    [TurnOn(dev), Sleep(hold), TurnOff(dev)] + (if pause.Some? then [Sleep(pause.value)] else [])
  }

  /** A duty cycle switches on and then off, and sleeps for the hold and then
      for the pause, if any. */
  lemma OnOffCommands(dev: nat, hold: int, pause: Option<int>)
    ensures Filter(OnOff(dev, hold, pause), IsSwitch) == [TurnOn(dev), TurnOff(dev)]
    ensures Filter(OnOff(dev, hold, pause), IsSleep) == [Sleep(hold)] + (if pause.Some? then [Sleep(pause.value)] else [])
  {
    var head := [TurnOn(dev), Sleep(hold)];
    var tail := [TurnOff(dev)] + (if pause.Some? then [Sleep(pause.value)] else []);
    assert OnOff(dev, hold, pause) == head + tail;
    FilterConcat(head, tail, IsSwitch);
    FilterConcat(head, tail, IsSleep);
    FilterPair(TurnOn(dev), Sleep(hold), IsSwitch);
    FilterPair(TurnOn(dev), Sleep(hold), IsSleep);
    if pause.Some? {
      FilterPair(TurnOff(dev), Sleep(pause.value), IsSwitch);
      FilterPair(TurnOff(dev), Sleep(pause.value), IsSleep);
    } else {
      FilterSingle(TurnOff(dev), IsSwitch);
      FilterSingle(TurnOff(dev), IsSleep);
    }
  }

  /** The power commands of a trace. */
  function Switches(t: seq<Event>): seq<Event> { Filter(t, IsSwitch) }

  /** The sleeps of a trace. */
  function Sleeps(t: seq<Event>): seq<Event> { Filter(t, IsSleep) }

  /** n on/off pairs of one device: on, off, on, off, ..., strictly alternating. */
  function Pairs(dev: nat, n: nat): (s: seq<Event>)
    ensures |s| == 2 * n
    ensures forall i :: 0 <= i < |s| ==> s[i] == if i % 2 == 0 then TurnOn(dev) else TurnOff(dev)
  {
    if n == 0 then [] else Pairs(dev, n - 1) + [TurnOn(dev), TurnOff(dev)]
  }

  /** k back-to-back copies of one cycle. */
  function Repeat(cycle: seq<Event>, k: nat): (s: seq<Event>)
    ensures |s| == k * |cycle|
  {
    if k == 0 then [] else Repeat(cycle, k - 1) + cycle
  }
}
