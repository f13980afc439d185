/**
 * The power-domain controller (current draft): its default configuration,
 * the constructor's argument binding and config fallback, the sensor
 * configuration step, and the task body: the polling loop over the sensor's
 * replies, behind the configuration step.
 */
module PdControl {
  import opened Wrappers
  import opened Python
  import opened Types
  import Ina260
  import AsyncTask

  /** The members of the `DefaultConfig` enumeration. */
  datatype DefaultConfigMember = PollingInterval

  const DefaultConfigMembers: seq<DefaultConfigMember> := [PollingInterval]

  function MemberName(m: DefaultConfigMember): string {
    match m
    case PollingInterval => "POLLING_INTERVAL"
  }

  function MemberValue(m: DefaultConfigMember): Value {
    match m
    case PollingInterval => Float(30.0)
  }

  /** `DefaultConfig.to_dict()`: each member's name mapped to its value. */
  function DefaultConfigDict(): (m: Config)
    ensures m.Keys == {"POLLING_INTERVAL"} && m["POLLING_INTERVAL"] == Float(30.0)
  {
    map member | member in DefaultConfigMembers :: MemberName(member) := MemberValue(member)
  }

  /** The state a controller keeps: its domain name, its queue (named by the queue map's key) and its config. */
  datatype Controller = Controller(name: string, queue: string, config: Config)

  /**
   * `PDController(*args, name=..., queue=..., **kwargs)`. `name` and `queue` are
   * keyword-only and required; the rest is bound by the base class, which takes
   * exactly one `config`. The controller's config is the `config` keyword when
   * given, otherwise the default, which happens when `config` came positionally.
   */
  function NewController(positional: nat, name: Option<string>, queue: Option<string>, config: Option<Config>): (r: Result<Controller, PyError>)
    ensures r.Success? <==> name.Some? && queue.Some? && positional + (if config.Some? then 1 else 0) == 1
    ensures r.Failure? ==> r.error == TypeError
    ensures r.Success? ==> r.value.name == name.value && r.value.queue == queue.value
    ensures r.Success? && config.Some? ==> r.value.config == config.value
    ensures r.Success? && config.None? ==> positional == 1 && r.value.config == DefaultConfigDict()
  {
    if name.None? || queue.None? then Failure(TypeError)
    else match AsyncTask.BindConfig(positional, config.Some?, false)
      case Fail(e) => Failure(e)
      case Pass => Success(Controller(name.value, queue.value, config.GetOr(DefaultConfigDict())))
  }

  /** `_configure_sensor()`: not implemented. */
  function ConfigureSensor(): (o: Outcome<PyError>)
    ensures o.Fail? && o.error == NotImplementedError
  {
    Fail(NotImplementedError)
  }

  /** What the sensor answers during one pass: the three register replies, and the clock reading for the record. */
  datatype Replies = Replies(current: seq<Ina260.byte>, voltage: seq<Ina260.byte>, power: seq<Ina260.byte>, now: Timestamp)

  /** The registers one loop pass reads, in order. */
  const SampleOrder: seq<string> := ["CURRENT", "VOLTAGE", "POWER"]

  /**
   * The reads of one loop pass: current, then voltage, then power, stopping at
   * the first read that raises; on success one reading stamped `now`. The
   * current is the `current` property as written.
   */
  function Sample(p: Replies): (r: (seq<string>, Result<Reading, PyError>))
    ensures r.0 <= SampleOrder && |r.0| > 0
    ensures r.1.Success? <==> |p.current| == 2 && |p.voltage| == 2 && |p.power| == 2
    ensures r.1.Success? ==>
      && r.0 == SampleOrder
      && r.1.value == Reading(p.now, Ina260.Voltage(p.voltage).value, Ina260.CurrentAsWritten(p.current).value,
                              Ina260.Power(p.power).value)
    ensures r.1.Failure? ==> r.1.error == StructError
    ensures |p.current| != 2 ==> r.0 == ["CURRENT"]
    ensures |p.current| == 2 && |p.voltage| != 2 ==> r.0 == ["CURRENT", "VOLTAGE"]
    ensures |p.current| == 2 && |p.voltage| == 2 ==> r.0 == SampleOrder
  {
    match Ina260.CurrentAsWritten(p.current)
    case Failure(e) => (SampleOrder[..1], Failure(e))
    case Success(current) =>
      match Ina260.Voltage(p.voltage)
      case Failure(e) => (SampleOrder[..2], Failure(e))
      case Success(voltage) =>
        match Ina260.Power(p.power)
        case Failure(e) => (SampleOrder, Failure(e))
        case Success(power) => (SampleOrder, Success(Reading(p.now, voltage, current, power)))
  }

  /**
   * `queue.put(record)` without `await`: the call only creates a coroutine,
   * which is never run, so the queue does not change.
   */
  function UnawaitedPut(queue: seq<Reading>, record: Reading): (q: seq<Reading>)
    ensures record !in queue ==> record !in q
    ensures |q| == |queue|
  {
    queue
  }

  /**
   * One pass of the polling loop body: three sensor reads, one record, the
   * put, then the sleep on `_polling_interval_s`, an attribute this class
   * never assigns.
   */
  method PollIteration(c: Controller, p: Replies, queue: seq<Reading>)
    returns (requested: seq<string>, record: Option<Reading>, queueAfter: seq<Reading>, o: Outcome<PyError>)
    ensures var (order, sampled) := Sample(p);
      requested == order && (sampled.Success? <==> record.Some?) && (record.Some? ==> record.value == sampled.value)
    ensures queueAfter == queue
    ensures o.Fail? && (record.Some? ==> o.error == AttributeError) && (record.None? ==> o.error == StructError)
  {
    queueAfter := queue;
    record := None;
    requested := [SampleOrder[0]];
    var current := Ina260.CurrentAsWritten(p.current);
    if current.Failure? {
      o := Fail(current.error);
      return;
    }
    requested := requested + [SampleOrder[1]];
    var voltage := Ina260.Voltage(p.voltage);
    if voltage.Failure? {
      o := Fail(voltage.error);
      return;
    }
    requested := requested + [SampleOrder[2]];
    var power := Ina260.Power(p.power);
    if power.Failure? {
      o := Fail(power.error);
      return;
    }
    var r := Reading(p.now, voltage.value, current.value, power.value);
    record := Some(r);
    queueAfter := UnawaitedPut(queue, r);
    o := Fail(AttributeError);
  }

  /**
   * The `while True` loop over a finite run of passes: the records it builds,
   * and the error that ends the task (`Pass` while it is still polling).
   * Every pass of this draft ends the task, at a failed read or at the sleep.
   */
  function Polls(passes: seq<Replies>): (r: (seq<Reading>, Outcome<PyError>))
  {
    if passes == [] then ([], Pass)
    else
      var sampled := Sample(passes[0]).1;
      if sampled.Failure? then ([], Fail(sampled.error)) else ([sampled.value], Fail(AttributeError))
  }

  /** The task stops within its first pass: later replies are never asked for, and at most one record is built. */
  lemma PollsStopAfterFirstPass(passes: seq<Replies>)
    ensures Polls(passes) == Polls(passes[..if passes == [] then 0 else 1])
    ensures Polls(passes).1.Pass? <==> passes == []
    ensures |Polls(passes).0| <= 1
    ensures passes != [] ==>
      (Polls(passes).0 == [] <==> Sample(passes[0]).1.Failure?)
      && (Polls(passes).0 != [] ==> Polls(passes).0[0] == Sample(passes[0]).1.value && Polls(passes).1 == Fail(AttributeError))
  {
  }

  /** The loop of `_async_task`, were it reached. */
  method PollLoop(c: Controller, passes: seq<Replies>, queue: seq<Reading>)
    returns (built: seq<Reading>, queueAfter: seq<Reading>, o: Outcome<PyError>)
    ensures (built, o) == Polls(passes)
    ensures queueAfter == queue
  {
    built := [];
    queueAfter := queue;
    o := Pass;
    var i := 0;
    while i < |passes| && o.Pass?
      invariant 0 <= i <= |passes|
      invariant queueAfter == queue
      invariant o.Pass? ==> i == 0 && built == []
      invariant o.Fail? ==> built == Polls(passes).0 && o == Polls(passes).1
      decreases |passes| - i
    {
      var requested, record, after, failure := PollIteration(c, passes[i], queueAfter);
      assert passes[i] == passes[0];
      queueAfter := after;
      if record.Some? {
        built := built + [record.value];
      }
      o := failure;
      i := i + 1;
    }
  }

  /**
   * `_async_task()`: the sensor is configured before the loop, and configuring
   * always raises, so the loop never starts over whatever the sensor would answer.
   */
  method RunTask(c: Controller, passes: seq<Replies>, queue: seq<Reading>)
    returns (o: Outcome<PyError>, built: seq<Reading>, queueAfter: seq<Reading>)
    ensures o == Fail(NotImplementedError) && built == [] && queueAfter == queue
  {
    o := ConfigureSensor();
    built := [];
    queueAfter := queue;
    if o.Pass? {
      built, queueAfter, o := PollLoop(c, passes, queue);
    }
  }

  /** Even if a pass ran to the end, the record it built is lost. */
  lemma UnawaitedPutLosesRecord(queue: seq<Reading>, record: Reading)
    ensures UnawaitedPut(queue, record) != queue + [record]
  {
    assert |UnawaitedPut(queue, record)| != |queue + [record]|;
  }
}
