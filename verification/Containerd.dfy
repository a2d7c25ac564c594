/** containerd and the file system, as far as the handlers call them. */
module ContainerdApi {
  import opened Wrappers
  import opened ContainerStatus
  import opened Service
  import opened HandlerSteps

  /** How a removal goes; one that fails may have taken effect all the same. */
  datatype Deletion = Works | Fails(effect: bool)
  {
    /** Is the thing still there after the call, if it was there before? */
    predicate Keeps() {
      Fails? && !effect
    }
  }

  /** Which of the calls of a start work, and the pid that a new task gets. */
  datatype StartFate = StartFate(
    getTask: bool,
    pipes: bool,
    stdoutLogger: bool,
    stderrLogger: bool,
    mounts: bool,
    create: bool,
    pid: nat,
    start: bool,
    delete: Deletion)

  /** Given the guards and a running sandbox, the start succeeds. */
  predicate Starts(f: StartFate, logging: bool, tty: bool, res: Resources) {
    f.getTask && StreamsOpen(f, logging, tty) && TaskLaunches(f, res)
  }

  predicate StreamsOpen(f: StartFate, logging: bool, tty: bool) {
    f.pipes && (logging ==> f.stdoutLogger && (tty || f.stderrLogger))
  }

  predicate TaskLaunches(f: StartFate, res: Resources) {
    f.mounts && res.snapshot && f.create && res.task == NoTask && f.pid != 0 && f.start
  }

  /** Does the start come as far as creating a task? */
  predicate TaskIsCreated(f: StartFate, res: Resources) {
    f.mounts && res.snapshot && f.create && res.task == NoTask && f.pid != 0
  }

  /** What is there after the calls on the task: a task that was created runs, or is deleted again. */
  function AfterLaunch(f: StartFate, res: Resources): Resources {
    if !TaskIsCreated(f, res) then res
    else if f.start then res.(task := Running, initPid := f.pid)
    else if f.delete == Fails(false) then res.(task := Created, initPid := f.pid)
    else res.(task := NoTask, initPid := f.pid)
  }

  datatype RemoveFate = RemoveFate(snapshot: Deletion, rootDir: Deletion, ctr: Deletion)

  predicate AllWork(f: RemoveFate) {
    f.snapshot.Works? && f.rootDir.Works? && f.ctr.Works?
  }

  /** What is left after the deletions, which stop at the first that fails. */
  function AfterRemoval(f: RemoveFate, res: Resources): Resources {
    var first := res.(snapshot := res.snapshot && f.snapshot == Fails(false));
    if f.snapshot.Fails? then first
    else
      var second := first.(rootDir := res.rootDir && f.rootDir == Fails(false));
      if f.rootDir.Fails? then second else second.(ctr := res.ctr && f.ctr == Fails(false))
  }

  /** The same for a removal that may be refused by the status. */
  function AfterTry(st: Status, f: RemoveFate, res: Resources): Resources {
    if st.State() != RUNNING && !st.removing then AfterRemoval(f, res) else res
  }

  /** May a container in this status be removed, and do the deletions work? */
  predicate Removable(st: Status, f: RemoveFate) {
    st.State() != RUNNING && !st.removing && AllWork(f)
  }

  /** The replies to the calls of RemovePodSandbox on the sandbox itself, and the fate of each container's removal. */
  datatype SandboxFate = SandboxFate(
    getTask: bool,
    snapshot: Reply,
    rootDir: bool,
    ctr: Reply,
    containers: Id -> RemoveFate)

  predicate CallsWork(f: SandboxFate) {
    f.getTask && f.snapshot != Error && f.rootDir && f.ctr != Error
  }

  /** What the service calls.  Every call takes as a parameter whether it works: any may fail at any time. */
  class Containerd {
    var resources: map<Id, Resources>
    var sandboxTasks: map<Id, Task>
    var streaming: set<Id>      // containers whose pipes are open

    constructor ()
      ensures resources == map[] && sandboxTasks == map[] && streaming == {}
    {
      resources, sandboxTasks, streaming := map[], map[], {};
    }

    /** prepareStreamingPipes: all of them are opened, or none. */
    method OpenPipes(id: Id, works: bool) returns (ok: bool)
      modifies this`streaming
      ensures ok == works && streaming == if ok then old(streaming) + {id} else old(streaming)
    {
      ok := works;
      if ok {
        streaming := streaming + {id};
      }
    }

    method ClosePipes(id: Id)
      modifies this`streaming
      ensures streaming == old(streaming) - {id}
    {
      streaming := streaming - {id};
    }

    method GetSandboxTask(sid: Id, works: bool) returns (reply: Reply, task: Task)
      requires sid in sandboxTasks
      ensures reply == if !works then Error else if sandboxTasks[sid] == NoTask then NotFound else Success
      ensures works ==> task == sandboxTasks[sid]
    {
      if !works {
        return Error, NoTask;
      }
      task := sandboxTasks[sid];
      reply := if task == NoTask then NotFound else Success;
    }

    method Mounts(id: Id, works: bool) returns (reply: Reply)
      requires id in resources
      ensures reply == if !works then Error else if resources[id].snapshot then Success else NotFound
    {
      reply := if !works then Error else if resources[id].snapshot then Success else NotFound;
    }

    /** A container has one task at most. */
    method CreateTask(id: Id, works: bool, pid: nat) returns (reply: Reply)
      requires id in resources
      modifies this`resources
      ensures reply == if works && old(resources)[id].task == NoTask && pid != 0 then Success else Error
      ensures resources == if reply == Success
        then old(resources)[id := old(resources)[id].(task := Created, initPid := pid)] else old(resources)
    {
      if !works || resources[id].task != NoTask || pid == 0 {
        return Error;
      }
      resources := resources[id := resources[id].(task := Created, initPid := pid)];
      reply := Success;
    }

    method StartTask(id: Id, works: bool) returns (reply: Reply)
      requires id in resources
      modifies this`resources
      ensures reply == if works && old(resources)[id].task != NoTask then Success else Error
      ensures resources == if reply == Success && old(resources)[id].task == Created
        then old(resources)[id := old(resources)[id].(task := Running)] else old(resources)
    {
      if !works || resources[id].task == NoTask {
        return Error;
      }
      if resources[id].task == Created {
        resources := resources[id := resources[id].(task := Running)];
      }
      reply := Success;
    }

    method DeleteTask(id: Id, out: Deletion) returns (reply: Reply)
      requires id in resources
      modifies this`resources
      ensures reply == if out.Fails? then Error else if old(resources)[id].task == NoTask then NotFound else Success
      ensures resources ==
        if out.Keeps() then old(resources) else old(resources)[id := old(resources)[id].(task := NoTask)]
    {
      reply := if out.Fails? then Error else if resources[id].task == NoTask then NotFound else Success;
      if !out.Keeps() {
        resources := resources[id := resources[id].(task := NoTask)];
      }
    }

    method RemoveSnapshot(id: Id, out: Deletion) returns (reply: Reply)
      requires id in resources
      modifies this`resources
      ensures reply == if out.Fails? then Error else if old(resources)[id].snapshot then Success else NotFound
      ensures resources == old(resources)[id := old(resources)[id].(
        snapshot := old(resources)[id].snapshot && out.Keeps())]
    {
      reply := if out.Fails? then Error else if resources[id].snapshot then Success else NotFound;
      resources := resources[id := resources[id].(snapshot := resources[id].snapshot && out.Keeps())];
    }

    method RemoveRootDir(id: Id, out: Deletion) returns (ok: bool)
      requires id in resources
      modifies this`resources
      ensures ok <==> out.Works?
      ensures resources == old(resources)[id := old(resources)[id].(
        rootDir := old(resources)[id].rootDir && out.Keeps())]
    {
      ok := out.Works?;
      resources := resources[id := resources[id].(rootDir := resources[id].rootDir && out.Keeps())];
    }

    method DeleteContainer(id: Id, out: Deletion) returns (reply: Reply)
      requires id in resources
      modifies this`resources
      ensures reply == if out.Fails? then Error else if old(resources)[id].ctr then Success else NotFound
      ensures resources == old(resources)[id := old(resources)[id].(
        ctr := old(resources)[id].ctr && out.Keeps())]
    {
      reply := if out.Fails? then Error else if resources[id].ctr then Success else NotFound;
      resources := resources[id := resources[id].(ctr := resources[id].ctr && out.Keeps())];
    }
  }
}
