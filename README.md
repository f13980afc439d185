# powa — a verified model of the power-monitoring daemon's core

powa is a small asyncio daemon. It samples an INA260 power monitor for each
power domain (`VBAT`, `USB`) and serves the readings over HTTP at
`GET /{domain}/electrical`. A lock file at `/var/run/powa_daemon.lock`
keeps it to one instance per host. This project models in Dafny the
sequential logic inside that daemon:

- **INA260 register decoding** (`ina260.dfy`): the register map, the 2-byte
  big-endian word, the current register's sign fix, the die-ID split, and
  voltage, power and manufacturer ID. Quantities are integer sensor counts
  (1.25 mV, 1.25 mA, 10 mW).
- **The shared record and enumeration** (`types.dfy`): `electrical_data` as
  the `Reading` datatype, and `PowerDomain`.
- **The HTTP exporter** (`data_exporter.dfy`): a class holding the map from
  domain value to a FIFO queue of readings. A request answers 404 for an
  unknown domain, 204 for an empty queue, and otherwise 200 with the head
  reading, which it removes. Lemmas over the specification function `Serve`
  prove drain (not peek) semantics, FIFO order, and that other queues are
  untouched.
- **The power-domain controller, both drafts** (`pd_control.dfy`,
  `legacy_pd_control.dfy`): the default config, the constructor's argument
  binding and fallbacks, the sensor-configuration step that always raises, and
  the whole task body: the polling loop over the sensor's replies, behind that
  configuration step.
- **The daemon, both drafts** (`daemon.dfy`, `legacy_daemon.dfy`, over the
  shared specification in `lifecycle.dfy`): construction-time wiring, the lock
  file on an abstract filesystem (`host.dfy`), the SIGTERM handler's cancel
  loop, `start`, the context-manager exit, `start_daemon` and `stop_daemon`.
- Support modules: `python.dfy` (exceptions, YAML values, `dict.get`,
  truthiness, `str`/`int`/`strip`), `async_task.dfy` (the task base class's
  constructor binding) and `wrappers.dfy` (Option/Result/Outcome).

Four behaviours of the code that the model keeps as they are:
- Each domain's readings go into an unbounded FIFO queue. A request drains
  the head; nothing overwrites a single latest value.
- A domain's controller receives the whole configuration document, not the
  domain's own section of it.
- `stop_daemon` only reads the pid from the lock file; it sends no signal.
- The current draft's exit removes the lock file even when `start` failed
  because another instance holds it.

## Model

| member | source | states |
|---|---|---|
| `Types.DomainsEnumerated` | powa/types.py:8-11 | `PowerDomain` has exactly two members, iterated in declaration order, and their values tell them apart |
| `Ina260.ReadRequest` | powa/ina260.py:21-28 | a register read asks the device for exactly 2 bytes from the named register's address; an unknown name is a KeyError |
| `Ina260.RegisterMapShape` | powa/ina260.py:5-11 | the map names five registers, at five distinct one-byte addresses |
| `Ina260.UnpackWord` | powa/ina260.py:33 | `struct.unpack('>H')` succeeds exactly on 2 bytes and yields a word in [0, 65535]; other lengths raise struct.error |
| `Ina260.UnpackPack` | powa/ina260.py:41 | decoding inverts the device's big-endian encoding of every 16-bit word |
| `Ina260.PackUnpack` | powa/ina260.py:58 | every 2-byte reply is the encoding of the word it decodes to, so decoding is one-to-one |
| `Ina260.Voltage` | powa/ina260.py:30-36 | the voltage count is the unsigned word, non-negative and below 65536 |
| `Ina260.Power` | powa/ina260.py:51-61 | the power count is the unsigned word, non-negative and below 65536 |
| `Ina260.SignFixAsWritten` | powa/ina260.py:43-45 | as written: a word with bit 15 clear is unchanged; one with bit 15 set lands in [-32767, 0] |
| `Ina260.CurrentAsWritten` | powa/ina260.py:38-49 | the `current` property as written decodes to [-32767, 32767]: the two's-complement value, plus one when the high byte has bit 7 set |
| `Ina260.SignFixAsWrittenOffByOne` | powa/ina260.py:44-45 | as written, each negative word decodes one count above its two's-complement value, and 0xFFFF decodes to 0 like 0x0000 |
| `Ina260.SignFix` | powa/ina260.py:43-45 | two's-complement decoding lands in [-32768, 32767] and is congruent to the word modulo 65536 |
| `Ina260.SignFixRoundTrip` | powa/ina260.py:43-45 | two's-complement decoding and the device's encoding are inverse bijections |
| `Ina260.Current` | powa/ina260.py:38-49 | the corrected current count is in [-32768, 32767], and encoding it gives back the reply bytes |
| `Ina260.ManufacturerId` | powa/ina260.py:63-69 | the manufacturer ID is the raw decoded word |
| `Ina260.DieId` | powa/ina260.py:72-77 | the die ID splits the word into an id in [0, 4095] and a revision in [0, 15] with `id*16 + revision == word` |
| `AsyncTask.BindConfig` | src/powa/async_task.py:10-15 | the base constructor binds only when `config` arrives exactly once, with no stray keyword; otherwise TypeError |
| `DataExporter.BindInit` | src/powa/data_exporter.py:14-25 | the exporter binds only with `queues` given by keyword, and the base binding must succeed; it then holds exactly those queues |
| `DataExporter.TakeHead` | src/powa/data_exporter.py:37-44 | `get_nowait` with QueueEmpty caught: nothing from an empty queue, otherwise the head and exactly the rest |
| `DataExporter.Serve` | src/powa/data_exporter.py:46-77 | a request never adds or removes a domain key |
| `DataExporter.Exporter.ReadData` | src/powa/data_exporter.py:31-44 | an unknown domain raises KeyError; an empty queue gives None and no change; otherwise the head is returned and removed |
| `DataExporter.Exporter.ElectricalHandler` | src/powa/data_exporter.py:46-77 | the handler's response and new queues are those of `Serve`; the status is one of 200, 204, 404 |
| `DataExporter.ServeAnswers` | src/powa/data_exporter.py:57-77 | 404 exactly for an unknown domain, 204 exactly for an empty known queue, 200 exactly otherwise, and a 200 carries the head's time, current, voltage and power |
| `DataExporter.ServeWithoutDataChangesNothing` | src/powa/data_exporter.py:61-66 | a 404 or a 204 leaves every queue unchanged |
| `DataExporter.ServeRemovesOnlyTheHead` | src/powa/data_exporter.py:37-44 | a 200 removes exactly the head of the requested queue; every other domain's queue is unchanged |
| `DataExporter.ServeWithoutParameter` | src/powa/data_exporter.py:59-62 | a route without `power_domain` is served as domain "?", so it answers 404 unless "?" is a key |
| `DataExporter.ServeRepeatedly` | src/powa/data_exporter.py:46-77 | k successive requests give k responses and keep the domain keys |
| `DataExporter.ServeInFifoOrder` | src/powa/data_exporter.py:40 | with k readings queued, k successive requests answer 200 with them oldest first and leave the rest of the queue |
| `DataExporter.DrainThenNoContent` | src/powa/data_exporter.py:64-66 | once every queued reading has been served, the next request answers 204: drain, not peek |
| `DataExporter.Enqueue` | src/powa/daemon.py:38 | the producer's put on the unbounded queue appends at the tail and touches no other queue |
| `DataExporter.Exporter.Put` | src/powa/pd_control.py:51-54 | a working put appends the reading to its domain's queue |
| `DataExporter.EnqueueAllAppends` | src/powa/daemon.py:38 | successive puts append in order to one queue and leave the others unchanged |
| `DataExporter.PutThenServe` | src/powa/data_exporter.py:40 | readings put on an empty queue are each served exactly once, in the order they were put |
| `PdControl.DefaultConfigDict` | src/powa/pd_control.py:11-18 | `DefaultConfig.to_dict()` has exactly one entry, `POLLING_INTERVAL` → 30.0 |
| `PdControl.NewController` | src/powa/pd_control.py:22-35 | `name` and `queue` are required keywords, stored unchanged; the config is the `config` keyword when given, else the default (reachable only with `config` positional) |
| `PdControl.ConfigureSensor` | src/powa/pd_control.py:37-39 | sensor configuration always raises NotImplementedError |
| `PdControl.Sample` | src/powa/pd_control.py:47-54 | a pass reads current, then voltage, then power, stopping at the first read that raises; on success it builds one reading from the as-written current, the voltage, the power and one timestamp |
| `PdControl.UnawaitedPut` | src/powa/pd_control.py:51-54 | the put without `await` keeps the queue's length and never adds the record |
| `PdControl.UnawaitedPutLosesRecord` | src/powa/pd_control.py:51-54 | the queue after the unawaited put differs from the queue with the record appended |
| `PdControl.PollIteration` | src/powa/pd_control.py:46-56 | the pass makes the reads `Sample` makes and builds its reading; the queue is unchanged; the pass ends in AttributeError on the never-assigned interval, or StructError on a failed read |
| `PdControl.PollsStopAfterFirstPass` | src/powa/pd_control.py:46-56 | of the loop specification `PdControl.Polls`: every pass of this loop raises, so the task ends within its first pass, builds at most that pass's record, and never asks for later replies |
| `PdControl.PollLoop` | src/powa/pd_control.py:46-56 | the `while True` loop over the sensor's replies builds the records `Polls` lists, ends as `Polls` says, and leaves the queue unchanged |
| `PdControl.RunTask` | src/powa/pd_control.py:41-56 | configuring the sensor raises NotImplementedError first, so whatever the sensor would answer, the loop never runs, no record is built and the queue is unchanged |
| `LegacyPdControl.NewController` | powa/pd_control.py:11-21 | the queue is the `queue` keyword or None; the interval is `config["polling_interval"]` when present, else 1.0 |
| `LegacyPdControl.ConfigureSensor` | powa/pd_control.py:23-25 | sensor configuration always raises NotImplementedError |
| `LegacyPdControl.PollIteration` | powa/pd_control.py:32-42 | the pass reads current, voltage, power in order; a failed read raises StructError; with no queue, `None.put` raises AttributeError before any record is built; otherwise it builds one reading, leaves the queue unchanged, and sleeps for the interval, or raises TypeError when the interval is not a number |
| `LegacyPdControl.PollsShape` | powa/pd_control.py:32-42 | of the loop specification `LegacyPdControl.Polls`: the loop's records are the readings of the first passes, in order; with a queue and a numeric interval it keeps polling exactly while every read succeeds and stops with StructError at the first failed read; with a non-numeric interval it stops after one pass; with no queue it builds nothing and stops in the first pass with StructError or AttributeError |
| `LegacyPdControl.PollLoop` | powa/pd_control.py:32-42 | the `while True` loop over the sensor's replies builds the records `Polls` lists, ends as `Polls` says (including AttributeError for a controller without a queue), and leaves the queue unchanged |
| `LegacyPdControl.RunTask` | powa/pd_control.py:27-42 | configuring the sensor raises NotImplementedError first, so whatever the sensor would answer, the loop never runs, no record is built and the queue is unchanged |
| `Lifecycle.CancelAll` | src/powa/daemon.py:81-84 | the cancel loop keeps the task tuple's length |
| `Lifecycle.CancelAllAt` | src/powa/daemon.py:81-84 | each slot after the loop is that slot's task cancelled when present and not done, otherwise unchanged |
| `Lifecycle.CancelAllExactlyLive` | powa/daemon.py:89-92 | exactly the present, not-done tasks are cancelled; absent and finished ones are untouched; none is left running |
| `Lifecycle.CancelAllIdempotent` | src/powa/daemon.py:63-86 | handling SIGTERM a second time changes no task |
| `Lifecycle.CreateLock` | src/powa/daemon.py:50-59 | an existing lock is FileExistsError with no change; otherwise the lock is added holding the decimal pid and no other file changes |
| `Lifecycle.RemoveIfPresent` | src/powa/daemon.py:74-78 | afterwards the lock path is absent and no other file changed |
| `Lifecycle.StopDaemon` | src/powa/daemon.py:125-134 | a missing lock is RuntimeError; a lock whose stripped content is the decimal of n gives n; any other failure is ValueError |
| `Lifecycle.StartFailsOnExistingLock` | src/powa/daemon.py:88-95 | lock creation comes first: an existing lock fails `start` before any gather and leaves the files unchanged |
| `Lifecycle.StartNeverGathers` | src/powa/daemon.py:88-95 | as written (`Lifecycle.Start`), `start` never runs the tasks: a tuple with an absent task makes `gather` raise TypeError after the lock is created |
| `Lifecycle.StartSkipsCompleteTasks` | src/powa/daemon.py:94-95 | as written, with no absent task, `start` creates the lock and returns without gathering |
| `Lifecycle.StartIntendedGathers` | powa/daemon.py:100-103 | with the gate corrected, `start` gathers exactly when the lock was free and every task is present |
| `Lifecycle.CreateThenStop` | src/powa/daemon.py:131-132 | `stop_daemon` reads back exactly the pid that lock creation wrote |
| `Lifecycle.StartDaemonRemovesForeignLock` | src/powa/daemon.py:111-113 | as written (`Lifecycle.StartDaemonWithExit`), a start refused on an existing lock still deletes that lock on exit |
| `Lifecycle.StartDaemonIntendedKeepsForeignLock` | src/powa/daemon.py:102-113 | with the exit corrected, a refused start leaves the files unchanged, and a successful one leaves no lock behind |
| `Python.ParseDecimal` | src/powa/daemon.py:59 | `int(str(pid))` is the pid |
| `Daemon.SelectConfig` | src/powa/daemon.py:40 | a controller gets the whole config when `config["power_domain"][domain]` is present and truthy, else `DefaultConfig.to_dict()`; a non-mapping `power_domain` raises AttributeError |
| `Daemon.NewQueues` | src/powa/daemon.py:38 | one empty queue per `PowerDomain` value |
| `Daemon.NewControllersShape` | src/powa/daemon.py:39-44 | one controller per domain, in order, named for its domain, bound to that domain's queue, with the selected config |
| `Daemon.ConstructAlwaysRaises` | src/powa/daemon.py:46 | as written (`Daemon.Construct`), construction always raises: TypeError from the exporter call, or AttributeError earlier from config selection |
| `Daemon.ConstructFixedWiring` | src/powa/daemon.py:36-46 | with `queues` passed by keyword: one empty queue per domain, one controller per domain on its own queue, and \|PowerDomain\| + 1 = 3 tasks |
| `Daemon.PowaDaemon.constructor` | src/powa/daemon.py:21-48 | the daemon holds the corrected wiring, the lock path and the pid; every task slot holds a task that has not yet run |
| `Daemon.PowaDaemon.CreateLockFile` | src/powa/daemon.py:50-61 | FileExistsError and no change when the lock exists; otherwise the lock is written with the decimal pid |
| `Daemon.PowaDaemon.HandleSigterm` | src/powa/daemon.py:63-86 | afterwards the lock is absent, no other file changed, and exactly the live tasks were cancelled |
| `Daemon.PowaDaemon.Start` | src/powa/daemon.py:88-95 | `start` is lock creation followed by the as-written gather decision, in which a None task makes `gather` raise |
| `Daemon.PowaDaemon.Exit` | src/powa/daemon.py:102-113 | `__exit__` leaves the lock path absent |
| `Daemon.StartDaemon` | src/powa/daemon.py:116-122 | with the exporter call corrected: a `power_domain` that is not a mapping makes construction raise AttributeError before the `with`, leaving the files untouched; otherwise, once `start_daemon` returns or raises, the lock is absent, a refused start reports FileExistsError, and a free lock leads to a return without gathering |
| `Daemon.StartDaemonAsWrittenRaises` | src/powa/daemon.py:116-122 | as written (`Daemon.StartDaemonAsWritten`), `start_daemon` always raises from the constructor, TypeError or AttributeError, before the `with`, so every file, an existing lock included, is left as it was |
| `Daemon.StopDaemon` | src/powa/daemon.py:125-134 | RuntimeError without a lock; otherwise `int(content.strip())`, and no signal is sent |
| `LegacyDaemon.NewControllersShape` | powa/daemon.py:47-52 | every controller gets the same whole config and its own domain's queue |
| `LegacyDaemon.ConstructWiring` | powa/daemon.py:46-54 | one empty queue per domain, each controller with the whole config, and \|PowerDomain\| + 1 = 3 tasks |
| `LegacyDaemon.PowaDaemon.constructor` | powa/daemon.py:31-56 | the daemon holds that wiring, the lock path and the pid; every task slot holds a task that has not yet run |
| `LegacyDaemon.PowaDaemon.CreateLockFile` | powa/daemon.py:58-69 | FileExistsError and no change when the lock exists; otherwise the lock is written with the decimal pid |
| `LegacyDaemon.PowaDaemon.HandleSigterm` | powa/daemon.py:71-94 | afterwards the lock is absent, no other file changed, and exactly the live tasks were cancelled |
| `LegacyDaemon.PowaDaemon.Start` | powa/daemon.py:96-103 | `start` is lock creation followed by the as-written gather decision |
| `LegacyDaemon.StartDaemon` | powa/daemon.py:106-112 | no cleanup: after a normal return the lock is still present with the pid; a refused start changes nothing |
| `LegacyDaemon.StopDaemon` | powa/daemon.py:115-124 | RuntimeError without a lock; otherwise `int(content.strip())`, and no signal is sent |

## Findings

| source | as written | input that shows it | evidently intended | confidence | as-written member | corrected member |
|---|---|---|---|---|---|---|
| powa/ina260.py:44-45 | `current -= 65535` for a word with bit 15 set | word 0xFFFF (-1 in two's complement) decodes to 0; every negative word is one count high | subtract 65536 (two's complement, as the comment says) | high; not executed | `Ina260.SignFixAsWrittenOffByOne` | `Ina260.SignFixRoundTrip` |
| src/powa/daemon.py:46 | `DataExporter(self._config, self._queues)` passes `queues` positionally, but the exporter takes it keyword-only | any configuration: construction raises TypeError | `DataExporter(self._config, queues=self._queues)` | high; not executed | `Daemon.ConstructAlwaysRaises` | `Daemon.ConstructFixedWiring` |
| src/powa/daemon.py:94-95 | `gather` is called only if some task is None, and then raises TypeError on that None | the task tuple as constructed holds no None, so `start` creates the lock and returns without running any task | gather when every task is present | medium; not executed | `Lifecycle.StartNeverGathers` | `Lifecycle.StartIntendedGathers` |
| src/powa/daemon.py:111-113 | `__exit__` removes the lock file whenever it exists | `start_daemon` while another instance holds the lock: FileExistsError, then that instance's lock is deleted | remove only a lock this instance created | medium; not executed | `Lifecycle.StartDaemonRemovesForeignLock` | `Lifecycle.StartDaemonIntendedKeepsForeignLock` |
| src/powa/pd_control.py:51 | `self._queue.put(...)` without `await` only creates a coroutine | any completed loop pass: the record never reaches the queue | an awaited `put` (or `put_nowait`) that appends | high; not executed | `PdControl.UnawaitedPutLosesRecord` | `DataExporter.PutThenServe` |

The same gate as in the third row is at powa/daemon.py:102-103, and the same unawaited put at powa/pd_control.py:37.
The polling passes decode current as written (`Ina260.CurrentAsWritten`). The corrected `Ina260.Current` is stated beside it, and `Ina260.CurrentAsWritten` is tied to it.
The daemon classes are built with the corrected exporter call, because the constructor as written never returns.

## Left out

- The aiohttp application, route registration, TCP site, sleep-forever loop and runner cleanup (src/powa/data_exporter.py:79-97): network I/O in a library outside this model.
- asyncio scheduling, `gather`, cooperative cancellation and `AsyncTask._safe_async_task` (src/powa/async_task.py:17-41): each task is an abstract status (absent, pending, done, cancelled), and a cancel request counts as completed at once.
- The task tuple actually holds the coroutine objects returned by `.task`, which have no `done()` or `cancel()`. The handler's loop is modelled as if they were asyncio tasks.
- Signal registration, `os.getpid()` and real file operations: the pid is a parameter, and the filesystem is a map from path to text on which writes always succeed.
- YAML loading (src/powa/utils.py, powa/daemon.py:20-27): the configuration is a given mapping with string keys. A document that is not a mapping is not modelled.
- SMBus access, the sensor constructor and bus close (powa/ina260.py:16-19, 79-80): each property receives the bytes the block read returned.
- Float scaling (`* 0.00125`, `* 0.01`) and `time.monotonic()`: readings carry integer sensor counts and an opaque timestamp.
- The unbounded `while True` polling loop runs over a finite sequence of sensor replies, one per pass; `Pass` as its outcome means it is still polling when the replies run out.
- The length of a sleep and the clock are not modelled: each pass's timestamp comes with its replies.
- When `gather` receives a None after other tasks, the tasks it has already wrapped may start before the TypeError. The model reports only the TypeError.
- CLI parsing (powa/cli.py) and all logging.
- powa/async_task.py and powa/data_exporter.py are not part of this model. The older draft's controller is taken to keep its `config` keyword, and its exporter to construct successfully.
- Sending SIGTERM to the recorded pid, a shutdown grace period and bind-failure handling: the source does none of these.
- Daemon.StartDaemon: runs the daemon with the exporter call corrected, because as written the constructor raises TypeError on every configuration (src/powa/daemon.py:46). It does not promise the as-written behaviour; `Daemon.StartDaemonAsWrittenRaises` states that instead: the constructor raises before the `with`, and an existing lock stays.
- Daemon.PowaDaemon.constructor: holds the corrected wiring (`Daemon.ConstructFixed`); the constructor as written never returns.
- Python.ParseInt: accepts an optional sign and ASCII digits only; Python's `int` also accepts underscores between digits and non-ASCII digits.
- Python.IsSpace: covers the ASCII and Latin-1 whitespace that `str.strip()` removes, not the rest of Unicode.
