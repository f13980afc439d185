/**
 * The daemon lifecycle both drafts share, stated on values: the lock file
 * on the abstract filesystem (a map from path to content), the status of
 * each task, and what `start`, the SIGTERM handler and `stop_daemon` do
 * to them.
 */
module Lifecycle {
  import opened Wrappers
  import opened Python

  const DaemonLockFile := "/var/run/powa_daemon.lock"

  type Files = map<string, string>

  /** A slot of the task tuple: absent, running, finished, or finished by cancellation. */
  datatype TaskStatus = NoTask | Pending | Done | Cancelled

  /** `task.done()`: a cancelled task is done as well. */
  predicate IsDone(t: TaskStatus) {
    t == Done || t == Cancelled
  }

  /** One turn of the handler's loop: `if task is not None and not task.done(): task.cancel()`. */
  function CancelIfLive(t: TaskStatus): TaskStatus {
    if t != NoTask && !IsDone(t) then Cancelled else t
  }

  /** The handler's loop over the whole task tuple. */
  function CancelAll(ts: seq<TaskStatus>): (r: seq<TaskStatus>)
    ensures |r| == |ts|
  {
    if ts == [] then [] else [CancelIfLive(ts[0])] + CancelAll(ts[1..])
  }

  lemma {:induction false} CancelAllAt(ts: seq<TaskStatus>, i: nat)
    requires i < |ts|
    ensures CancelAll(ts)[i] == CancelIfLive(ts[i])
  {
    if i > 0 {
      CancelAllAt(ts[1..], i - 1);
    }
  }

  /**
   * The handler cancels exactly the tasks that are present and not done;
   * absent and finished ones keep their status, and none is left running.
   */
  lemma CancelAllExactlyLive(ts: seq<TaskStatus>)
    ensures forall i :: 0 <= i < |ts| && ts[i] == Pending ==> CancelAll(ts)[i] == Cancelled
    ensures forall i :: 0 <= i < |ts| && ts[i] != Pending ==> CancelAll(ts)[i] == ts[i]
    ensures Pending !in CancelAll(ts)
  {
    forall i | 0 <= i < |ts| ensures CancelAll(ts)[i] == CancelIfLive(ts[i]) {
      CancelAllAt(ts, i);
    }
  }

  /** A second SIGTERM changes no task. */
  lemma CancelAllIdempotent(ts: seq<TaskStatus>)
    ensures CancelAll(CancelAll(ts)) == CancelAll(ts)
  {
    var once := CancelAll(ts);
    CancelAllExactlyLive(ts);
    CancelAllExactlyLive(once);
  }

  /** `_create_lock_file()`: refuses an existing lock, otherwise writes the pid in decimal. */
  function CreateLock(files: Files, path: string, pid: nat): (r: Result<Files, PyError>)
    ensures r.Failure? <==> path in files
    ensures r.Failure? ==> r.error == FileExistsError
    ensures r.Success? ==> r.value.Keys == files.Keys + {path} && r.value[path] == Decimal(pid)
    ensures r.Success? ==> forall p :: p in files ==> r.value[p] == files[p]
  {
    if path in files then Failure(FileExistsError) else Success(files[path := Decimal(pid)])
  }

  /** `if os.path.exists(path): os.remove(path)` */
  function RemoveIfPresent(files: Files, path: string): (r: Files)
    ensures path !in r && r.Keys == files.Keys - {path}
    ensures forall p :: p in r ==> r[p] == files[p]
  {
    files - {path}
  }

  /** `stop_daemon()`: the pid recorded in the lock file; no signal is sent. */
  function StopDaemon(files: Files, path: string): (r: Result<int, PyError>)
    ensures path !in files ==> r == Failure(RuntimeError)
    ensures r.Failure? ==> r.error in {RuntimeError, ValueError}
    ensures forall n: nat :: path in files && Strip(files[path]) == Decimal(n) ==> r == Success(n)
  {
    if path !in files then Failure(RuntimeError)
    else
      assert forall n: nat :: Strip(files[path]) == Decimal(n) ==> ParseInt(Strip(files[path])) == Success(n) by {
        forall n: nat | Strip(files[path]) == Decimal(n) ensures ParseInt(Strip(files[path])) == Success(n) {
          ParseDecimal(n);
        }
      }
      ParseInt(Strip(files[path]))
  }

  /**
   * How `start_daemon` ended: the daemon could not be constructed, `start`
   * could not create the lock, `gather` raised, `gather` ran the tasks, or
   * `start` returned without gathering.
   */
  datatype StartOutcome =
    | ConstructFailed(error: PyError)
    | LockFailed(error: PyError)
    | GatherFailed(error: PyError)
    | Gathered
    | ReturnedWithoutGather

  /**
   * `start()` as written: create the lock, then call `gather` only if some
   * task is None; `gather` wraps each argument as a future, which raises
   * TypeError for None.
   */
  function Start(files: Files, path: string, pid: nat, tasks: seq<TaskStatus>): (StartOutcome, Files)
  {
    match CreateLock(files, path, pid)
    case Failure(e) => (LockFailed(e), files)
    case Success(created) => (if NoTask in tasks then GatherFailed(TypeError) else ReturnedWithoutGather, created)
  }

  /** `start()` as evidently intended: create the lock, then gather when every task is present. */
  function StartIntended(files: Files, path: string, pid: nat, tasks: seq<TaskStatus>): (StartOutcome, Files)
  {
    match CreateLock(files, path, pid)
    case Failure(e) => (LockFailed(e), files)
    case Success(created) => (if NoTask !in tasks then Gathered else ReturnedWithoutGather, created)
  }

  /** The lock comes first: an existing lock fails `start` before any gather, leaving the files alone. */
  lemma StartFailsOnExistingLock(files: Files, path: string, pid: nat, tasks: seq<TaskStatus>)
    requires path in files
    ensures Start(files, path, pid, tasks) == (LockFailed(FileExistsError), files)
    ensures StartIntended(files, path, pid, tasks) == (LockFailed(FileExistsError), files)
  {
  }

  /**
   * As written, `start` never runs the tasks: a complete task tuple is not
   * gathered, and a tuple with an absent task makes `gather` raise.
   */
  lemma StartNeverGathers(files: Files, path: string, pid: nat, tasks: seq<TaskStatus>)
    ensures Start(files, path, pid, tasks).0 != Gathered
    ensures path !in files && NoTask in tasks ==> Start(files, path, pid, tasks).0 == GatherFailed(TypeError)
    ensures path !in files ==> Start(files, path, pid, tasks).1 == CreateLock(files, path, pid).value
  {
  }

  /** As written, `start` never gathers a complete task tuple: it creates the lock and returns. */
  lemma StartSkipsCompleteTasks(files: Files, path: string, pid: nat, tasks: seq<TaskStatus>)
    requires path !in files && NoTask !in tasks
    ensures Start(files, path, pid, tasks).0 == ReturnedWithoutGather
    ensures StartIntended(files, path, pid, tasks).0 == Gathered
  {
  }

  /** As intended, `start` gathers exactly when the lock was free and every task is present. */
  lemma StartIntendedGathers(files: Files, path: string, pid: nat, tasks: seq<TaskStatus>)
    ensures StartIntended(files, path, pid, tasks).0 == Gathered <==> path !in files && NoTask !in tasks
    ensures StartIntended(files, path, pid, tasks).0 != Gathered ==> NoTask in tasks || path in files
  {
  }

  /** The lock-file round trip: `stop_daemon` reads back the pid `start` wrote. */
  lemma CreateThenStop(files: Files, path: string, pid: nat)
    requires path !in files
    ensures StopDaemon(CreateLock(files, path, pid).value, path) == Success(pid)
  {
    DigitsHaveNoSpace(Decimal(pid));
    ParseDecimal(pid);
  }

  /** `start_daemon` of the current draft: `start` inside a context whose exit removes the lock. */
  function StartDaemonWithExit(files: Files, path: string, pid: nat, tasks: seq<TaskStatus>): (StartOutcome, Files)
  {
    var (outcome, after) := Start(files, path, pid, tasks);
    (outcome, RemoveIfPresent(after, path))
  }

  /** The exit removes the lock even when `start` failed on another instance's lock file. */
  lemma StartDaemonRemovesForeignLock(files: Files, path: string, pid: nat, tasks: seq<TaskStatus>)
    requires path in files
    ensures StartDaemonWithExit(files, path, pid, tasks).0 == LockFailed(FileExistsError)
    ensures path !in StartDaemonWithExit(files, path, pid, tasks).1
  {
  }

  /** `start_daemon` as evidently intended: the exit removes only a lock this start created. */
  function StartDaemonIntended(files: Files, path: string, pid: nat, tasks: seq<TaskStatus>): (StartOutcome, Files)
  {
    var (outcome, after) := StartIntended(files, path, pid, tasks);
    (outcome, if outcome.LockFailed? then after else RemoveIfPresent(after, path))
  }

  /** As intended, a refused start leaves the running instance's lock in place; a start of its own leaves no lock behind. */
  lemma StartDaemonIntendedKeepsForeignLock(files: Files, path: string, pid: nat, tasks: seq<TaskStatus>)
    ensures path in files ==> StartDaemonIntended(files, path, pid, tasks) == (LockFailed(FileExistsError), files)
    ensures path !in files ==> StartDaemonIntended(files, path, pid, tasks).1 == files
  {
    if path !in files {
      assert files[path := Decimal(pid)] - {path} == files;
    }
  }
}
