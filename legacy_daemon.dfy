/**
 * The daemon of the older draft: every controller gets the whole config, and
 * `start_daemon` has no context manager, so only the SIGTERM handler ever
 * removes the lock file. This draft's exporter module is not part of this
 * model; its construction is taken to succeed.
 */
module LegacyDaemon {
  import opened Wrappers
  import opened Python
  import opened Types
  import opened Lifecycle
  import Host
  import DataExporter
  import LegacyPdControl

  datatype Wiring = Wiring(queues: DataExporter.Queues, controllers: seq<LegacyPdControl.Controller>, taskCount: nat)

  /** The controllers built by the generator over `ds`, each with the whole config and its domain's queue. */
  function NewControllers(config: Config, ds: seq<PowerDomain>): (cs: seq<LegacyPdControl.Controller>)
    decreases |ds|
  {
    if ds == [] then [] else [LegacyPdControl.NewController(config, Some(DomainValue(ds[0])))] + NewControllers(config, ds[1..])
  }

  /** `PowaDaemon.__init__` of this draft. */
  function Construct(config: Config): Wiring {
    var queues := map d | d in Domains :: DomainValue(d) := [];
    var cs := NewControllers(config, Domains);
    Wiring(queues, cs, |cs| + 1)
  }

  lemma {:induction false} NewControllersShape(config: Config, ds: seq<PowerDomain>)
    ensures |NewControllers(config, ds)| == |ds|
    ensures forall i :: 0 <= i < |ds| ==>
      NewControllers(config, ds)[i] == LegacyPdControl.NewController(config, Some(DomainValue(ds[i])))
    decreases |ds|
  {
    if ds != [] {
      NewControllersShape(config, ds[1..]);
      var cs := NewControllers(config, ds);
      forall i | 1 <= i < |ds|
        ensures cs[i] == LegacyPdControl.NewController(config, Some(DomainValue(ds[i])))
      {
        assert cs[i] == NewControllers(config, ds[1..])[i - 1] && ds[i] == ds[1..][i - 1];
      }
    }
  }

  /**
   * One empty queue per domain; every controller receives the same whole
   * config whatever its domain, and the queue of its own domain; one task per
   * controller plus the exporter's.
   */
  lemma ConstructWiring(config: Config)
    ensures var w := Construct(config);
      && w.queues.Keys == {DomainValue(VBAT), DomainValue(USB)}
      && (forall k :: k in w.queues ==> w.queues[k] == [])
      && |w.controllers| == |Domains|
      && (forall i :: 0 <= i < |Domains| ==>
            w.controllers[i].config == config && w.controllers[i].queue == Some(DomainValue(Domains[i])))
      && w.taskCount == |Domains| + 1 == 3
  {
    NewControllersShape(config, Domains);
    assert Domains[0] == VBAT && Domains[1] == USB;
  }

  class PowaDaemon {
    const pid: nat
    const lockFile: string
    const config: Config
    const exporter: DataExporter.Exporter
    const controllers: seq<LegacyPdControl.Controller>
    var tasks: seq<TaskStatus>

    constructor (config: Config, pid: nat)
      ensures this.pid == pid && this.config == config && lockFile == DaemonLockFile
      ensures exporter.queues == Construct(config).queues && controllers == Construct(config).controllers
      ensures |tasks| == Construct(config).taskCount && forall i :: 0 <= i < |tasks| ==> tasks[i] == Pending
      ensures fresh(exporter)
    {
      var w := Construct(config);
      this.pid := pid;
      this.config := config;
      lockFile := DaemonLockFile;
      exporter := new DataExporter.Exporter(w.queues);
      controllers := w.controllers;
      tasks := seq(w.taskCount, _ => Pending);
    }

    method CreateLockFile(fs: Host.FileSystem) returns (o: Outcome<PyError>)
      modifies fs
      ensures lockFile in old(fs.files) ==> o == Fail(FileExistsError) && fs.files == old(fs.files)
      ensures lockFile !in old(fs.files) ==> o == Pass && fs.files == old(fs.files)[lockFile := Decimal(pid)]
      ensures CreateLock(old(fs.files), lockFile, pid) == if o.Pass? then Success(fs.files) else Failure(o.error)
    {
      if fs.Exists(lockFile) {
        return Fail(FileExistsError);
      }
      fs.WriteText(lockFile, Decimal(pid));
      o := Pass;
    }

    method HandleSigterm(fs: Host.FileSystem)
      modifies this, fs
      ensures fs.files == RemoveIfPresent(old(fs.files), lockFile)
      ensures tasks == CancelAll(old(tasks))
      ensures Pending !in tasks
    {
      if fs.Exists(lockFile) {
        var _ := fs.Remove(lockFile);
      }
      var i := 0;
      while i < |tasks|
        invariant 0 <= i <= |tasks| == |old(tasks)|
        invariant forall j :: 0 <= j < i ==> tasks[j] == CancelIfLive(old(tasks)[j])
        invariant forall j :: i <= j < |tasks| ==> tasks[j] == old(tasks)[j]
        invariant fs.files == RemoveIfPresent(old(fs.files), lockFile)
      {
        if tasks[i] != NoTask && !IsDone(tasks[i]) {
          tasks := tasks[i := Cancelled];
        }
        i := i + 1;
      }
      forall j | 0 <= j < |tasks| ensures tasks[j] == CancelAll(old(tasks))[j] {
        CancelAllAt(old(tasks), j);
      }
      CancelAllExactlyLive(old(tasks));
    }

    method Start(fs: Host.FileSystem) returns (outcome: StartOutcome)
      modifies fs
      ensures (outcome, fs.files) == Lifecycle.Start(old(fs.files), lockFile, pid, tasks)
    {
      var created := CreateLockFile(fs);
      if created.Fail? {
        return LockFailed(created.error);
      }
      if NoTask in tasks {
        outcome := GatherFailed(TypeError);
      } else {
        outcome := ReturnedWithoutGather;
      }
    }
  }

  /** `start_daemon(config)`: construct and run `start`; nothing removes the lock afterwards. */
  method StartDaemon(config: Config, pid: nat, fs: Host.FileSystem) returns (outcome: StartOutcome)
    modifies fs
    ensures (outcome, fs.files) == Lifecycle.Start(old(fs.files), DaemonLockFile, pid, seq(3, _ => Pending))
    ensures DaemonLockFile in old(fs.files) ==> outcome == LockFailed(FileExistsError) && fs.files == old(fs.files)
    ensures DaemonLockFile !in old(fs.files) ==>
      outcome == ReturnedWithoutGather && DaemonLockFile in fs.files && fs.files[DaemonLockFile] == Decimal(pid)
  {
    var daemon := new PowaDaemon(config, pid);
    ConstructWiring(config);
    assert daemon.tasks == seq(3, _ => Pending);
    outcome := daemon.Start(fs);
  }

  /** `stop_daemon()`: reads the pid from the lock file; sends nothing. */
  method StopDaemon(fs: Host.FileSystem) returns (r: Result<int, PyError>)
    ensures DaemonLockFile !in fs.files ==> r == Failure(RuntimeError)
    ensures DaemonLockFile in fs.files ==> r == ParseInt(Strip(fs.files[DaemonLockFile]))
    ensures r == Lifecycle.StopDaemon(fs.files, DaemonLockFile)
  {
    if !fs.Exists(DaemonLockFile) {
      return Failure(RuntimeError);
    }
    var content := fs.ReadText(DaemonLockFile);
    r := ParseInt(Strip(content.value));
  }
}
