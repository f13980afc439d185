/**
 * The power-domain controller (older draft): the queue and polling-interval
 * fallbacks, the sensor configuration step, and the task body: the polling
 * loop over the sensor's replies, behind the configuration step.
 * The base class of this draft is not part of this model; its constructor is
 * taken to store the `config` keyword as the controller's config.
 */
module LegacyPdControl {
  import opened Wrappers
  import opened Python
  import opened Types
  import Ina260
  import PdControl

  datatype Controller = Controller(queue: Option<string>, pollingInterval: Value, config: Config)

  const DefaultPollingInterval := Float(1.0)

  /** `PDController(**kwargs)`: `queue` is `kwargs.get('queue')`; the interval is `config.get('polling_interval', 1.0)`. */
  function NewController(config: Config, queue: Option<string>): (c: Controller)
    ensures c.queue == queue && c.config == config
    ensures "polling_interval" in config ==> c.pollingInterval == config["polling_interval"]
    ensures "polling_interval" !in config ==> c.pollingInterval == Float(1.0)
  {
    Controller(queue, Get(config, "polling_interval", DefaultPollingInterval), config)
  }

  /** `_configure_sensor()`: not implemented. */
  function ConfigureSensor(): (o: Outcome<PyError>)
    ensures o.Fail? && o.error == NotImplementedError
  {
    Fail(NotImplementedError)
  }

  /**
   * Whether `asyncio.sleep` accepts the interval: a number (a bool is one in
   * Python); anything else fails its `delay <= 0` comparison with TypeError.
   */
  predicate SleepAccepts(interval: Value) {
    interval.Bool? || interval.Int? || interval.Float?
  }

  /**
   * One pass of the loop body: reads in the order current, voltage, power;
   * the unawaited put; then a sleep of the polling interval, returned as
   * `sleptFor` when the sleep happens. A failed read raises out of the pass,
   * and so does a missing queue: `None.put` is looked up before the record's
   * arguments are evaluated, so no record is built.
   */
  method PollIteration(c: Controller, p: PdControl.Replies, queue: seq<Reading>)
    returns (requested: seq<string>, record: Option<Reading>, queueAfter: seq<Reading>, sleptFor: Option<Value>, o: Outcome<PyError>)
    ensures var (order, sampled) := PdControl.Sample(p);
      && requested == order
      && (sampled.Success? && c.queue.Some? <==> record.Some?)
      && (record.Some? ==> record.value == sampled.value)
      && (sampled.Failure? ==> o == Fail(StructError) && sleptFor == None)
      && (sampled.Success? && c.queue.None? ==> o == Fail(AttributeError) && sleptFor == None)
    ensures queueAfter == queue
    ensures record.Some? && SleepAccepts(c.pollingInterval) ==> o == Pass && sleptFor == Some(c.pollingInterval)
    ensures record.Some? && !SleepAccepts(c.pollingInterval) ==> o == Fail(TypeError) && sleptFor == None
  {
    queueAfter := queue;
    record := None;
    sleptFor := None;
    requested := [PdControl.SampleOrder[0]];
    var current := Ina260.CurrentAsWritten(p.current);
    if current.Failure? {
      return requested, record, queueAfter, sleptFor, Fail(current.error);
    }
    requested := requested + [PdControl.SampleOrder[1]];
    var voltage := Ina260.Voltage(p.voltage);
    if voltage.Failure? {
      return requested, record, queueAfter, sleptFor, Fail(voltage.error);
    }
    requested := requested + [PdControl.SampleOrder[2]];
    var power := Ina260.Power(p.power);
    if power.Failure? {
      return requested, record, queueAfter, sleptFor, Fail(power.error);
    }
    if c.queue.None? {
      return requested, record, queueAfter, sleptFor, Fail(AttributeError);
    }
    var r := Reading(p.now, voltage.value, current.value, power.value);
    record := Some(r);
    queueAfter := PdControl.UnawaitedPut(queue, r);
    if !SleepAccepts(c.pollingInterval) {
      return requested, record, queueAfter, sleptFor, Fail(TypeError);
    }
    sleptFor := Some(c.pollingInterval);
    o := Pass;
  }

  /**
   * The `while True` loop over a finite run of passes: the records it builds
   * (each lost by the unawaited put), and the error that ends the task
   * (`Pass` while it is still polling). Polling continues only past a
   * complete pass with a queue and a number to sleep for.
   */
  function Polls(c: Controller, passes: seq<PdControl.Replies>): (seq<Reading>, Outcome<PyError>)
    decreases |passes|
  {
    if passes == [] then ([], Pass)
    else match PdControl.Sample(passes[0]).1
      case Failure(e) => ([], Fail(e))
      case Success(record) =>
        if c.queue.None? then ([], Fail(AttributeError))
        else if !SleepAccepts(c.pollingInterval) then ([record], Fail(TypeError))
        else
          var (rest, o) := Polls(c, passes[1..]);
          ([record] + rest, o)
  }

  /**
   * The loop's records are the readings of its first passes, in order. With a
   * queue and a number to sleep for it polls on exactly while every read
   * succeeds; otherwise it stops within the first pass.
   */
  lemma {:induction false} PollsShape(c: Controller, passes: seq<PdControl.Replies>)
    ensures var (built, o) := Polls(c, passes);
      && |built| <= |passes|
      && (forall k :: 0 <= k < |built| ==> PdControl.Sample(passes[k]).1 == Success(built[k]))
      && (o.Pass? ==> |built| == |passes|)
      && (o.Fail? ==> o.error in {StructError, TypeError, AttributeError})
      && (o == Fail(StructError) ==> |built| < |passes| && PdControl.Sample(passes[|built|]).1.Failure?)
      && (SleepAccepts(c.pollingInterval) && c.queue.Some? ==>
            (o.Pass? <==> forall k :: 0 <= k < |passes| ==> PdControl.Sample(passes[k]).1.Success?))
      && (!SleepAccepts(c.pollingInterval) ==> |built| <= 1 && (passes != [] ==> o.Fail?))
      && (c.queue.None? ==> built == [] && (passes != [] ==> o.Fail? && o.error in {StructError, AttributeError}))
    decreases |passes|
  {
    if passes != [] && PdControl.Sample(passes[0]).1.Success? && c.queue.Some? && SleepAccepts(c.pollingInterval) {
      PollsShape(c, passes[1..]);
      assert forall k :: 1 <= k < |passes| ==> passes[1..][k - 1] == passes[k];
    }
  }

  /** The run from pass `i` on, unfolded by one pass. */
  lemma PollsFrom(c: Controller, passes: seq<PdControl.Replies>, i: nat)
    requires i < |passes|
    ensures var sampled := PdControl.Sample(passes[i]).1;
      var (rest, o) := Polls(c, passes[i + 1..]);
      Polls(c, passes[i..])
        == if sampled.Failure? then ([], Fail(sampled.error))
           else if c.queue.None? then ([], Fail(AttributeError))
           else if !SleepAccepts(c.pollingInterval) then ([sampled.value], Fail(TypeError))
           else ([sampled.value] + rest, o)
  {
    assert passes[i..][0] == passes[i] && passes[i..][1..] == passes[i + 1..];
  }

  /** The loop of `_async_task`, were it reached. */
  method PollLoop(c: Controller, passes: seq<PdControl.Replies>, queue: seq<Reading>)
    returns (built: seq<Reading>, queueAfter: seq<Reading>, o: Outcome<PyError>)
    ensures (built, o) == Polls(c, passes)
    ensures queueAfter == queue
  {
    built := [];
    queueAfter := queue;
    o := Pass;
    var i := 0;
    assert passes[i..] == passes;
    while i < |passes| && o.Pass?
      invariant 0 <= i <= |passes|
      invariant queueAfter == queue
      invariant o.Pass? ==> Polls(c, passes).0 == built + Polls(c, passes[i..]).0
      invariant o.Pass? ==> Polls(c, passes).1 == Polls(c, passes[i..]).1
      invariant o.Fail? ==> built == Polls(c, passes).0 && o == Polls(c, passes).1
      decreases |passes| - i
    {
      PollsFrom(c, passes, i);
      var requested, record, after, slept, failure := PollIteration(c, passes[i], queueAfter);
      queueAfter := after;
      if record.Some? {
        built := built + [record.value];
      }
      o := failure;
      i := i + 1;
    }
    if o.Pass? {
      assert passes[i..] == [] && built + [] == built;
    }
    assert Polls(c, passes) == (Polls(c, passes).0, Polls(c, passes).1);
  }

  /** `_async_task()`: configuring raises before the loop, so nothing is sampled whatever the sensor would answer. */
  method RunTask(c: Controller, passes: seq<PdControl.Replies>, queue: seq<Reading>)
    returns (o: Outcome<PyError>, built: seq<Reading>, queueAfter: seq<Reading>)
    ensures o == Fail(NotImplementedError) && built == [] && queueAfter == queue
  {
    o := ConfigureSensor();
    built := [];
    queueAfter := queue;
    if o.Pass? {
      built, queueAfter, o := PollLoop(c, passes, queue);
    }
  }
}
