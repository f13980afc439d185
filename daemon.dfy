/**
 * The daemon of the current draft: construction-time wiring, the lock file,
 * the SIGTERM handler, `start`, the context-manager exit, `start_daemon` and
 * `stop_daemon`. Signal registration, the pid source and the event loop are
 * left to the caller: the pid is a parameter and the handler a method.
 */
module Daemon {
  import opened Wrappers
  import opened Python
  import opened Types
  import opened Lifecycle
  import Host
  import DataExporter
  import PdControl

  /**
   * The config a domain's controller gets: the whole document when
   * `config["power_domain"][domain]` is present and truthy, otherwise the
   * default. A `power_domain` entry that is not a mapping has no `.get`.
   */
  function SelectConfig(config: Config, d: PowerDomain): (r: Result<Config, PyError>)
    ensures r.Failure? <==> "power_domain" in config && !config["power_domain"].Dict?
    ensures r.Failure? ==> r.error == AttributeError
    ensures r.Success? ==>
      (r.value == config <== "power_domain" in config && DomainValue(d) in config["power_domain"].entries
                              && Truthy(config["power_domain"].entries[DomainValue(d)]))
    ensures r.Success? && r.value != config ==> r.value == PdControl.DefaultConfigDict()
    ensures r.Success? && !("power_domain" in config && DomainValue(d) in config["power_domain"].entries
                             && Truthy(config["power_domain"].entries[DomainValue(d)]))
      ==> r.value == PdControl.DefaultConfigDict()
  {
    var section := Get(config, "power_domain", Dict(map[]));
    if !section.Dict? then Failure(AttributeError)
    else if Truthy(Get(section.entries, DomainValue(d), Null)) then Success(config)
    else Success(PdControl.DefaultConfigDict())
  }

  /** `{domain.value: asyncio.Queue() for domain in PowerDomain}` */
  function NewQueues(ds: seq<PowerDomain>): (q: DataExporter.Queues)
    ensures q.Keys == set d | d in ds :: DomainValue(d)
    ensures forall k :: k in q ==> q[k] == []
  {
    map d | d in ds :: DomainValue(d) := []
  }

  /** The controllers built by the generator over `ds`, stopping at the first that raises. */
  function NewControllers(config: Config, ds: seq<PowerDomain>): (r: Result<seq<PdControl.Controller>, PyError>)
    decreases |ds|
  {
    if ds == [] then Success([])
    else match SelectConfig(config, ds[0])
      case Failure(e) => Failure(e)
      case Success(selected) =>
        match PdControl.NewController(0, Some(DomainValue(ds[0])), Some(DomainValue(ds[0])), Some(selected))
        case Failure(e) => Failure(e)
        case Success(c) =>
          match NewControllers(config, ds[1..])
          case Failure(e) => Failure(e)
          case Success(cs) => Success([c] + cs)
  }

  /** What a constructed daemon holds: its queues, its controllers, and how many tasks it tracks. */
  datatype Wiring = Wiring(queues: DataExporter.Queues, controllers: seq<PdControl.Controller>, taskCount: nat)

  /** `PowaDaemon.__init__` as written: the exporter is given `queues` positionally. */
  function Construct(config: Config): Result<Wiring, PyError>
  {
    var queues := NewQueues(Domains);
    match NewControllers(config, Domains)
    case Failure(e) => Failure(e)
    case Success(cs) =>
      match DataExporter.BindInit(2, None, false)
      case Failure(e) => Failure(e)
      case Success(q) => Success(Wiring(q, cs, |cs| + 1))
  }

  /** `PowaDaemon.__init__` with the exporter built as `DataExporter(config, queues=queues)`. */
  function ConstructFixed(config: Config): Result<Wiring, PyError>
  {
    var queues := NewQueues(Domains);
    match NewControllers(config, Domains)
    case Failure(e) => Failure(e)
    case Success(cs) =>
      match DataExporter.BindInit(1, Some(queues), false)
      case Failure(e) => Failure(e)
      case Success(q) => Success(Wiring(q, cs, |cs| + 1))
  }

  /** True when every domain's controller can be built: the `power_domain` entry, if any, is a mapping. */
  predicate SectionIsMapping(config: Config) {
    "power_domain" !in config || config["power_domain"].Dict?
  }

  lemma {:induction false} NewControllersShape(config: Config, ds: seq<PowerDomain>)
    ensures SectionIsMapping(config) ==> NewControllers(config, ds).Success?
    ensures ds != [] && !SectionIsMapping(config) ==> NewControllers(config, ds).Failure?
    ensures NewControllers(config, ds).Failure? ==> NewControllers(config, ds).error == AttributeError
    ensures NewControllers(config, ds).Success? ==>
      var cs := NewControllers(config, ds).value;
      && |cs| == |ds|
      && forall i :: 0 <= i < |ds| ==>
           cs[i].name == DomainValue(ds[i]) && cs[i].queue == DomainValue(ds[i])
           && SelectConfig(config, ds[i]) == Success(cs[i].config)
    decreases |ds|
  {
    if ds != [] {
      NewControllersShape(config, ds[1..]);
      if SectionIsMapping(config) {
        var cs := NewControllers(config, ds).value;
        var rest := NewControllers(config, ds[1..]).value;
        assert cs == [cs[0]] + rest;
        forall i | 1 <= i < |ds|
          ensures cs[i].name == DomainValue(ds[i]) && cs[i].queue == DomainValue(ds[i])
          ensures SelectConfig(config, ds[i]) == Success(cs[i].config)
        {
          assert cs[i] == rest[i - 1] && ds[i] == ds[1..][i - 1];
        }
      }
    }
  }

  /** As written, constructing the daemon always raises: the exporter's `queues` argument is keyword-only. */
  lemma ConstructAlwaysRaises(config: Config)
    ensures Construct(config).Failure?
    ensures SectionIsMapping(config) ==> Construct(config).error == TypeError
    ensures !SectionIsMapping(config) ==> Construct(config).error == AttributeError
  {
    NewControllersShape(config, Domains);
  }

  /**
   * With `queues` passed by keyword the daemon holds one empty queue per
   * domain, one controller per domain bound to that domain's queue and given
   * the config `SelectConfig` chooses, and one task per controller plus the
   * exporter's.
   */
  lemma ConstructFixedWiring(config: Config)
    ensures ConstructFixed(config).Success? <==> SectionIsMapping(config)
    ensures ConstructFixed(config).Success? ==>
      var w := ConstructFixed(config).value;
      && w.queues.Keys == {DomainValue(VBAT), DomainValue(USB)}
      && (forall k :: k in w.queues ==> w.queues[k] == [])
      && |w.controllers| == |Domains|
      && (forall i :: 0 <= i < |Domains| ==>
            w.controllers[i].name == DomainValue(Domains[i]) && w.controllers[i].queue == DomainValue(Domains[i])
            && w.controllers[i].queue in w.queues
            && SelectConfig(config, Domains[i]) == Success(w.controllers[i].config))
      && w.taskCount == |Domains| + 1 == 3
  {
    NewControllersShape(config, Domains);
    DomainsEnumerated();
    assert (set d | d in Domains :: DomainValue(d)) == {DomainValue(VBAT), DomainValue(USB)} by {
      assert Domains[0] == VBAT && Domains[1] == USB;
    }
  }

  class PowaDaemon {
    const pid: nat
    const lockFile: string
    const config: Config
    const exporter: DataExporter.Exporter
    const controllers: seq<PdControl.Controller>
    var tasks: seq<TaskStatus>

    /** Construction with the corrected exporter call; every task slot holds a not-yet-run task. */
    constructor (config: Config, pid: nat)
      requires SectionIsMapping(config)
      ensures this.pid == pid && this.config == config && lockFile == DaemonLockFile
      ensures ConstructFixed(config).Success?
      ensures exporter.queues == ConstructFixed(config).value.queues
      ensures controllers == ConstructFixed(config).value.controllers
      ensures |tasks| == ConstructFixed(config).value.taskCount && forall i :: 0 <= i < |tasks| ==> tasks[i] == Pending
      ensures fresh(exporter)
    {
      ConstructFixedWiring(config);
      var w := ConstructFixed(config).value;
      this.pid := pid;
      this.config := config;
      lockFile := DaemonLockFile;
      exporter := new DataExporter.Exporter(w.queues);
      controllers := w.controllers;
      tasks := seq(w.taskCount, _ => Pending);
    }

    method CreateLockFile(fs: Host.FileSystem) returns (o: Outcome<PyError>)
      modifies fs
      ensures lockFile in old(fs.files) ==> o == Fail(FileExistsError) && fs.files == old(fs.files)
      ensures lockFile !in old(fs.files) ==> o == Pass && fs.files == old(fs.files)[lockFile := Decimal(pid)]
      ensures CreateLock(old(fs.files), lockFile, pid) == if o.Pass? then Success(fs.files) else Failure(o.error)
    {
      if fs.Exists(lockFile) {
        return Fail(FileExistsError);
      }
      fs.WriteText(lockFile, Decimal(pid));
      o := Pass;
    }

    method HandleSigterm(fs: Host.FileSystem)
      modifies this, fs
      ensures fs.files == RemoveIfPresent(old(fs.files), lockFile)
      ensures tasks == CancelAll(old(tasks))
      ensures Pending !in tasks
    {
      if fs.Exists(lockFile) {
        var _ := fs.Remove(lockFile);
      }
      var i := 0;
      while i < |tasks|
        invariant 0 <= i <= |tasks| == |old(tasks)|
        invariant forall j :: 0 <= j < i ==> tasks[j] == CancelIfLive(old(tasks)[j])
        invariant forall j :: i <= j < |tasks| ==> tasks[j] == old(tasks)[j]
        invariant fs.files == RemoveIfPresent(old(fs.files), lockFile)
      {
        if tasks[i] != NoTask && !IsDone(tasks[i]) {
          tasks := tasks[i := Cancelled];
        }
        i := i + 1;
      }
      forall j | 0 <= j < |tasks| ensures tasks[j] == CancelAll(old(tasks))[j] {
        CancelAllAt(old(tasks), j);
      }
      CancelAllExactlyLive(old(tasks));
    }

    method Start(fs: Host.FileSystem) returns (outcome: StartOutcome)
      modifies fs
      ensures (outcome, fs.files) == Lifecycle.Start(old(fs.files), lockFile, pid, tasks)
    {
      var created := CreateLockFile(fs);
      if created.Fail? {
        return LockFailed(created.error);
      }
      if NoTask in tasks {
        outcome := GatherFailed(TypeError);
      } else {
        outcome := ReturnedWithoutGather;
      }
    }

    /** `__exit__`: removes the lock file if it exists. */
    method Exit(fs: Host.FileSystem)
      modifies fs
      ensures fs.files == RemoveIfPresent(old(fs.files), DaemonLockFile)
    {
      if fs.Exists(DaemonLockFile) {
        var _ := fs.Remove(DaemonLockFile);
      }
    }
  }

  /**
   * `start_daemon(config)`: construct, run `start` inside the context manager,
   * exit. A construction that raises does so before the `with` is entered, so
   * no exit runs and the files are untouched.
   */
  method StartDaemon(config: Config, pid: nat, fs: Host.FileSystem) returns (outcome: StartOutcome)
    modifies fs
    ensures ConstructFixed(config).Failure? ==>
      outcome == ConstructFailed(AttributeError) && fs.files == old(fs.files)
    ensures ConstructFixed(config).Failure? <==> !SectionIsMapping(config)
    ensures ConstructFixed(config).Success? ==>
      && DaemonLockFile !in fs.files
      && (outcome, fs.files) == StartDaemonWithExit(old(fs.files), DaemonLockFile, pid, seq(3, _ => Pending))
      && (DaemonLockFile in old(fs.files) ==> outcome == LockFailed(FileExistsError))
      && (DaemonLockFile !in old(fs.files) ==> outcome == ReturnedWithoutGather)
  {
    ConstructFixedWiring(config);
    if ConstructFixed(config).Failure? {
      return ConstructFailed(ConstructFixed(config).error);
    }
    var daemon := new PowaDaemon(config, pid);
    assert daemon.tasks == seq(3, _ => Pending);
    outcome := daemon.Start(fs);
    daemon.Exit(fs);
  }

  /**
   * `start_daemon(config)` as written: the constructor is called before the
   * `with` is entered, so when it raises no lock is created and no exit runs.
   */
  function StartDaemonAsWritten(config: Config, pid: nat, files: Files): (StartOutcome, Files)
  {
    match Construct(config)
    case Failure(e) => (ConstructFailed(e), files)
    case Success(_) => StartDaemonWithExit(files, DaemonLockFile, pid, seq(3, _ => Pending))
  }

  /** As written, `start_daemon` always raises from the constructor and leaves every file, an existing lock included, as it was. */
  lemma StartDaemonAsWrittenRaises(config: Config, pid: nat, files: Files)
    ensures StartDaemonAsWritten(config, pid, files).1 == files
    ensures StartDaemonAsWritten(config, pid, files).0
            == ConstructFailed(if SectionIsMapping(config) then TypeError else AttributeError)
  {
    ConstructAlwaysRaises(config);
  }

  /** `stop_daemon()`: reads the pid from the lock file; sends nothing. */
  method StopDaemon(fs: Host.FileSystem) returns (r: Result<int, PyError>)
    ensures DaemonLockFile !in fs.files ==> r == Failure(RuntimeError)
    ensures DaemonLockFile in fs.files ==> r == ParseInt(Strip(fs.files[DaemonLockFile]))
    ensures r == Lifecycle.StopDaemon(fs.files, DaemonLockFile)
  {
    if !fs.Exists(DaemonLockFile) {
      return Failure(RuntimeError);
    }
    var content := fs.ReadText(DaemonLockFile);
    r := ParseInt(Strip(content.value));
  }
}
