# Gardomation control loops in Dafny

This project models the three control scripts of the gardomation repository
that decide which smart-plug and sensor commands happen, in what order and how
many times:

- the drift-aware sensor poll of `environmentSensors/environmentSensorData.py`
  (`main`), which reads every online sensor once per tick, collects the
  readings in an output map keyed by sensor name, sleeps until the tick's
  target time and finally prints the map;
- the per-device duty-cycle worker of `outlets/loopedOutletControllerMultiProc.py`
  (`run` with its inner `run_loop`), and its `main`, which starts one worker
  process per device uuid;
- the sequential duty cycle of `powerControl/microgreens.py` (`main`), which
  cycles every device found in turn and logs out after each one.

Every session login, discovery, device update, power command, sleep, append
to the output map, printed output, manager close and logout of the modelled
lines is an `Event` (`effects.dfy`), and a run is the sequence of its events.
Clock readings, `find_devices` and sampled values are oracle inputs, not
events. The poll's trace starts at the emptiness check on line 68 of
environmentSensorData.py; its login and discovery (lines 49-65) are not part
of it. The oracle inputs are the devices found (a count, or the sensor list for the poll),
each sensor's sampled temperature, humidity and time (`SensorPoll.Env.sample`),
and the clock read at the start and the end of each tick (`Env.startClock` and
`Env.endClock`, integer seconds). Each script is an imperative method that
builds its trace step by step in loops with invariants. Each method is proved
equal to a recursive specification function (`PollTrace`/`RunTrace`,
`OutletWorker.Expected`, `Microgreens.Expected`). The properties the scripts
promise are lemmas about those functions.

The scripts are modelled as written, quirks included:

- The poll's outer `for sensor in sensors` repeats the whole tick loop once
  per sensor. Every reading of that round, from every device, goes under the
  outer sensor's key.
- In the worker, `iterations == True` holds for `iterations == 1`. That branch
  loops forever with `loop_count` stuck at 0.
- In the worker, an iteration count of 0 becomes infinity.
- The microgreens loop `while loop_count <= iterations` runs `iterations + 1`
  cycles.
- The microgreens on-phase hold sleeps `sleepTime`, not `runTime`.
- The microgreens logout sits inside the per-device loop.

A worker may run forever, so `OutletWorker.Run` takes a `fuel` bound: the
number of `run_loop` calls it may make. It reports `Running` when the fuel
runs out first. The trace is then the prefix of the endless run made with
that fuel.

## Model

| member | source | states |
|---|---|---|
| SensorPoll.Poll | environmentSensors/environmentSensorData.py:68-121 | With no sensors the run fails with NoOnlineSensors and has an empty trace: no map is built, no reading is taken, nothing is emitted. Otherwise it returns the map the loops' appends produce from the initial map, and its trace is the full specified run. |
| SensorPoll.InitOutput | environmentSensors/environmentSensorData.py:71-73 | The output map's keys are exactly the keys of the sensors' names, and every key starts with an empty list. |
| SensorPoll.Key | environmentSensors/environmentSensorData.py:73 | The key has the name's length, every space of the name becomes `_`, every other character is kept, and the key contains no space. |
| SensorPoll.RunRounds | environmentSensors/environmentSensorData.py:75-117 | The outer loop over the sensors produces exactly the rounds 0..n-1, and the map holds every append of those rounds. |
| SensorPoll.RunRound | environmentSensors/environmentSensorData.py:77-117 | The tick loop of one round runs ticks 1..max(iterations, 0) in order, and the map reflects every append made. |
| SensorPoll.RunTick | environmentSensors/environmentSensorData.py:80-117 | One tick reads every device and then emits the tick's sleep, if any. The map is updated by exactly the tick's appends. |
| SensorPoll.ReadDevices | environmentSensors/environmentSensorData.py:88-106 | The device loop yields one Update and one Append per device, in list order, and the map reflects each append. |
| SensorPoll.ReadsShape | environmentSensors/environmentSensorData.py:89-106 | Within a tick, event 2i is the update of device i and event 2i+1 appends device i's reading under the round's sensor key, for every device in list order. |
| SensorPoll.ReadingOf | environmentSensors/environmentSensorData.py:98-103 | A reading records tempC 0 when the sample has no temperature and the sampled temperature otherwise. It keeps the humidity, sample time and uuid as sampled. |
| SensorPoll.MissingTemperatureIsZero | environmentSensors/environmentSensorData.py:98-103 | A device that reports no temperature still gets its reading appended, with tempC 0 and its humidity, sample time and uuid kept. |
| SensorPoll.TickUpdateCount | environmentSensors/environmentSensorData.py:88-95 | Each tick updates each device exactly once. |
| SensorPoll.TicksUpdateCount | environmentSensors/environmentSensorData.py:77-95 | n ticks of a round update each device exactly n times, so the tick loop body runs once per value of count. |
| SensorPoll.TicksReadings | environmentSensors/environmentSensorData.py:77-106 | n ticks of round p append n times the number of sensors readings under round p's key and none under any other key. |
| SensorPoll.RoundsReadings | environmentSensors/environmentSensorData.py:75-106 | With distinct keys, the first n rounds give sensor p's key max(iterations, 0) × \|sensors\| readings if p < n, and none otherwise. |
| SensorPoll.ReadingsPerKey | environmentSensors/environmentSensorData.py:71-106 | With distinct keys, every sensor's key is in the final map and holds exactly max(iterations, 0) × \|sensors\| readings. |
| SensorPoll.SleepAfter | environmentSensors/environmentSensorData.py:81-117 | No sleep after the final tick or after a tick that overran its target. Otherwise there is a sleep: never negative, it ends exactly at start + interval, and it is at most interval when the clock did not run backwards. |
| SensorPoll.FinalTickNoSleep | environmentSensors/environmentSensorData.py:110-111 | The tick with count == iterations has no sleep. Its last event is the append of the last device's reading under the round's key. |
| SensorPoll.SleepLandsOnTarget | environmentSensors/environmentSensorData.py:109-117 | A non-final tick that finished in time sleeps exactly target − now. A tick that overran does not sleep. |
| SensorPoll.RoundSleeps | environmentSensors/environmentSensorData.py:77-117 | A round's sleeps: at most one per non-final tick, exactly one per non-final tick when no tick overran, none negative, and none longer than interval while the clock runs forward. |
| SensorPoll.RoundSleepsAre | environmentSensors/environmentSensorData.py:109-117 | The sleeps of a round are exactly the per-tick sleeps, in tick order. |
| SensorPoll.EmitOnce | environmentSensors/environmentSensorData.py:119-121 | The final map is emitted exactly once, after every loop event, followed by exactly one close and then one logout, with no earlier emit, close or logout. |
| OutletWorker.EffectiveLimit | outlets/loopedOutletControllerMultiProc.py:63-65 | The limit is infinity exactly when the count is 0, and is the count itself otherwise. |
| OutletWorker.RunLoop | outlets/loopedOutletControllerMultiProc.py:51-62 | A run_loop call is on, Sleep(runTime), off, and then Sleep(sleepTime) exactly when loop_count is below the limit. It has 4 events with the pause and 3 without. |
| Effects.OnOffCommands | outlets/loopedOutletControllerMultiProc.py:53-62 | A duty cycle switches on and then off, and sleeps for the hold and then for the pause, if there is one. Both duty-cycle scripts share this shape. |
| OutletWorker.RunLoopCommands | outlets/loopedOutletControllerMultiProc.py:51-62 | One run_loop call issues exactly one on and then one off. It sleeps twice (runTime, then sleepTime) when loop_count < iterations, and once otherwise. |
| OutletWorker.SpinLoop | outlets/loopedOutletControllerMultiProc.py:93-95 | The `== True` branch makes one run_loop call with loop_count 0 per unit of fuel, and uses up all of it. |
| OutletWorker.CountLoop | outlets/loopedOutletControllerMultiProc.py:96-99 | The counted loop makes the run_loop calls for loop_count = 1..c, where c is the limit or the fuel, whichever is smaller, and spends c fuel. |
| OutletWorker.Device | outlets/loopedOutletControllerMultiProc.py:88-99 | One device: an update, then the spin loop, the counted loop or nothing, as the limit selects. |
| OutletWorker.RunDevices | outlets/loopedOutletControllerMultiProc.py:88-99 | The devices run one after another on the fuel the earlier ones left, and the first device still running stops the worker. |
| OutletWorker.Run | outlets/loopedOutletControllerMultiProc.py:63-99 | The worker's outcome and trace are the specified ones for every uuid, device count and fuel. |
| OutletWorker.FailuresAreQuiet | outlets/loopedOutletControllerMultiProc.py:67-86 | A missing uuid fails exactly when the uuid is null, and then before any session is opened. An absent device fails exactly when none is found. A missing device's trace is exactly the login and the one discovery. Neither failure has an update, a power command or a sleep anywhere in its trace. |
| OutletWorker.BoundedRun | outlets/loopedOutletControllerMultiProc.py:58-99 | A finite count of at least 2, with enough fuel, finishes with exactly `iterations` strictly alternating on/off pairs and 2 × iterations − 1 sleeps. The last event is the final off, so no sleep follows it. |
| OutletWorker.OnceMeansForever | outlets/loopedOutletControllerMultiProc.py:93-95 | With iterations == 1 the worker never finishes. Whatever the fuel, its trace is a full on, runTime, off, sleepTime cycle per call, with loop_count stuck at 0. |
| OutletWorker.ZeroMeansForever | outlets/loopedOutletControllerMultiProc.py:63-99 | With iterations == 0 the limit is infinity, the final branch is never reached and every call is a full cycle. |
| OutletWorker.MoreFuelExtends | outlets/loopedOutletControllerMultiProc.py:93-99 | For the endless counts, one more unit of fuel extends the trace by exactly one full cycle. |
| OutletWorker.MoreFuelPrefix | outlets/loopedOutletControllerMultiProc.py:93-99 | For the endless counts, the trace of a run with less fuel is a prefix of the trace of every run with more fuel. |
| OutletWorker.NegativeMeansIdle | outlets/loopedOutletControllerMultiProc.py:88-99 | A negative count finishes whenever a device is found. After the login and discovery the trace is exactly one update per device found, in order, with no power command and no sleep. |
| OutletWorker.WorkerName | outlets/loopedOutletControllerMultiProc.py:119 | The name is `outletController-` followed by the uuid string, or by `None` for a null uuid. |
| OutletWorker.StartWorkers | outlets/loopedOutletControllerMultiProc.py:107-123 | Exactly one worker per uuid, in list order, named `outletController-<uuid>`; an empty list starts none. |
| Microgreens.Run | powerControl/microgreens.py:44-89 | The trace is a login, one discovery per uuid in list order, then one block per device found. |
| Microgreens.Discoveries | powerControl/microgreens.py:57-58 | There is one discovery per uuid, and the i-th discovery is the i-th uuid's. |
| Microgreens.DiscoveryFirst | powerControl/microgreens.py:57-69 | All discoveries come right after the login, in list order, and no discovery follows them. |
| Microgreens.CycleLoop | powerControl/microgreens.py:71-87 | The counter loop runs the cycles for loop_count = 1..iterations+1 when iterations >= 0, and none otherwise. |
| Microgreens.Cycle | powerControl/microgreens.py:73-87 | A cycle is on, Sleep(sleepTime), off, and then Sleep(sleepTime) exactly when loop_count < iterations. The hold sleeps sleepTime, not runTime. It has 4 events with the pause and 3 without. |
| Microgreens.CycleCommands | powerControl/microgreens.py:76-87 | One cycle issues one on and then one off. Its sleeps are two sleepTime sleeps when loop_count < iterations, and one otherwise. |
| Microgreens.DeviceCommands | powerControl/microgreens.py:71-87 | A device gets iterations + 1 strictly alternating on/off pairs (none for a negative count). Every sleep lasts sleepTime, and there are iterations + 1 holds plus max(iterations − 1, 0) pauses. |
| Microgreens.CyclesSleeps | powerControl/microgreens.py:76-87 | The sleeps of cycles 1..k are all sleepTime: one hold per cycle plus one pause per loop_count below iterations. |
| Microgreens.PausesValue | powerControl/microgreens.py:83-85 | Cycles 1..iterations+1 take max(iterations − 1, 0) pauses, so none follows the last two cycles. |
| Microgreens.BlockIsolated | powerControl/microgreens.py:66-89 | A device's block starts with its update, ends with close and logout, and holds no event of any other device. |
| Microgreens.LogoutPerDevice | powerControl/microgreens.py:66-89 | Close and logout happen exactly once per device found, so never when none is found. |

## Left out

- The Meross SDK (authentication, discovery, `find_devices` filtering, `async_update`, turning plugs on and off, sensor reads, `manager.close` and logout) is not modelled. Login, discovery, `async_update`, the power commands, `manager.close` and logout are events. `find_devices` and the cached `last_sampled_*` fields are oracle inputs: the worker and microgreens scripts take the number of devices found, and the poll takes the sensor list. The poll's own login and discovery (environmentSensorData.py:49-65) come before its trace.
- SDK calls that fail or raise are not modelled.
- asyncio is sequential here: each `await` is one step.
- The `multiprocessing.Process` isolation in the fan-out is concurrency. The model records only the configuration of each worker it starts.
- Real sleeping and `datetime.now()` are not modelled. The start and end clock of each tick are oracle readings in whole seconds. The sleep is `(start + interval) − now` in integers, where the source uses fractional seconds.
- The `tempF` conversion (environmentSensorData.py:99) is floating point and is left out of the reading.
- The SDK's sampled temperature and humidity are whole numbers (`Option<int>`) in the model. The SDK may report fractional values. The sample time, a datetime in the SDK (`last_sampled_time`), is an integer timestamp.
- The `atexit` teardown registration (loopedOutletControllerMultiProc.py:80) is left out. It registers a coroutine that is never awaited, so no cleanup is promised.
- argparse, defaults from environment variables, `json.loads` of the uuid list and `json.dumps` of the output are left out. The printed JSON is the `Emit` event carrying the map. That map is an unordered Dafny map, while `json.dumps(output, sort_keys=False)` (environmentSensorData.py:119) prints the keys in the order lines 71-73 inserted them, which is the sensor-list order.
- Logging is left out.
- In the worker fan-out a JSON uuid list element is a string or null (`Option<string>`). Microgreens.Run takes the uuids as strings, so a null element, which microgreens.py would pass to `async_device_discovery` (lines 57-58), is not modelled. Other JSON values are not modelled.
- Sensor names are strings in the model, so `str(sensor.name)` (environmentSensorData.py:73) is the name itself. A sensor whose name is None, which makes the log line at environmentSensorData.py:91 raise a TypeError partway through a tick, is not modelled.
- environmentSensors/powerConsumption.py is not part of this model. It performs one discovery, one metrics read and a logout, with no logic of its own.
- OutletWorker.Run: an endless worker is modelled only up to `fuel` run_loop calls. The unbounded run is the limit of these prefixes, as stated by OutletWorker.MoreFuelExtends and OutletWorker.MoreFuelPrefix, and is not an object of the model.
- OutletWorker.BoundedRun: stated for one device found. `find_devices(device_uuids=[device_uuid])` returns at most that one device. With more devices, the later ones run on what fuel is left (OutletWorker.Devices).
- A null uuid raises a TypeError at line 70 (`Exception.mro(None)`) rather than the Exception it seems meant to. Both end the worker before a session is opened, so the model has one error, MissingDeviceUuid, for both.
- In microgreens.py the session is logged out after the first device (line 89), yet the script goes on to cycle the next device in the same session. The model keeps those later devices' events as the script issues them and does not model what the logged-out SDK would do with them.
- SensorPoll.ReadingsPerKey: stated only for sensors with distinct keys. Two sensors with the same key share one list, which then receives the readings of both rounds.
