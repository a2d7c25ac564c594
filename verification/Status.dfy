/**
The status of one container (pkg/store/container/status.go) and the status
transactions that the handlers run on it.  A transaction is the closure given
to `Update`: a pure function from the stored status to a new one or an error.
*/
module ContainerStatus {
  import opened Wrappers

  datatype RunState = CREATED | RUNNING | EXITED | UNKNOWN

  datatype Status = Status(
    pid: nat,
    createdAt: int,
    startedAt: int,
    finishedAt: int,
    exitCode: int,
    reason: string,
    message: string,
    removing: bool)
  {
    function State(): RunState {
      if finishedAt != 0 then EXITED
      else if startedAt != 0 then RUNNING
      else if createdAt != 0 then CREATED
      else UNKNOWN
    }
  }

  /** The zero value of the Go struct. */
  const ZERO_STATUS := Status(0, 0, 0, 0, 0, "", "", false)

  const ERROR_START_EXIT_CODE := 128
  const ERROR_START_REASON := "StartError"
  const OOM_EXIT_REASON := "OOMKilled"

  /** Go's conversion of a `uint32` exit status to the `int32` exit code. */
  function ToInt32(u: nat): (r: int)
    requires u < 0x1_0000_0000
    ensures -0x8000_0000 <= r < 0x8000_0000
    ensures (r - u) % 0x1_0000_0000 == 0
  {
    if u < 0x8000_0000 then u else u - 0x1_0000_0000
  }

  /** setContainerRemoving: refused on a running container and on one already being removed. */
  function SetRemoving(st: Status): Result<Status> {
    if st.State() == RUNNING then Err("container is still running")
    else if st.removing then Err("container is already in removing state")
    else Ok(st.(removing := true))
  }

  function ResetRemoving(st: Status): Status {
    st.(removing := false)
  }

  /** May startContainer go past its two guards? */
  predicate MayStart(st: Status) {
    st.State() == CREATED && !st.removing
  }

  /** What startContainer leaves in the status when it succeeds. */
  function CommitStart(st: Status, pid: nat, now: int): Status {
    st.(pid := pid, startedAt := now)
  }

  /** What the deferred function of startContainer leaves in the status when it fails. */
  function FailStart(st: Status, now: int, msg: string): Status {
    st.(pid := 0, finishedAt := now, exitCode := ERROR_START_EXIT_CODE,
        reason := ERROR_START_REASON, message := msg)
  }

  /** The TaskExit transaction: a status that has finished is kept as it is. */
  function RecordExit(st: Status, code: nat, at: int): Status
    requires code < 0x1_0000_0000
  {
    if st.finishedAt != 0 then st
    else st.(pid := 0, finishedAt := at, exitCode := ToInt32(code))
  }

  /** The TaskOOM transaction. */
  function RecordOom(st: Status): Status {
    st.(reason := OOM_EXIT_REASON)
  }

  /**
  The order in which a status may evolve over a whole run: the state moves
  only forward, the creation time never changes, a start time is written once,
  and everything but `reason` and `removing` is frozen by the exit.
  */
  predicate Forward(a: Status, b: Status) {
    && (a.createdAt != 0 ==> b.createdAt == a.createdAt)
    && (a.startedAt != 0 ==> b.startedAt == a.startedAt)
    && (a.State() == RUNNING ==> b.State() == RUNNING || b.State() == EXITED)
    && (a.State() == RUNNING && b.State() == RUNNING ==> b.pid == a.pid)
    && (a.State() == EXITED ==>
          && b.finishedAt == a.finishedAt && b.startedAt == a.startedAt && b.pid == a.pid
          && b.exitCode == a.exitCode && b.message == a.message)
  }

  /**
  `statusStorage`: the one mutable cell behind every copy of a container.
  `Update` is all or nothing: on an error of the closure nothing is written.
  */
  class StatusStorage {
    var status: Status

    constructor (st: Status)
      ensures status == st
    {
      status := st;
    }

    method Get() returns (st: Status)
      ensures st == status
    {
      st := status;
    }

    method Update(u: Status -> Result<Status>) returns (r: Result<()>)
      modifies this
      ensures r.Ok? <==> u(old(status)).Ok?
      ensures r.Ok? ==> status == u(old(status)).value
      ensures r.Err? ==> status == old(status) && r.error == u(old(status)).error
    {
      var newStatus := u(status);
      if newStatus.Err? {
        return Err(newStatus.error);
      }
      status := newStatus.value;
      return Ok(());
    }
  }
}
