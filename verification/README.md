# cri-containerd: a verified model of its state

cri-containerd keeps its own picture of pods, containers and images and has to
keep it in step with containerd while API calls and an event monitor run at the
same time. This project models that protocol in Dafny and proves what it keeps.

## How the model is built

- **The service as a step system** (`Service.dfy`). Every store operation, status
  transaction and containerd call of CreateContainer, StartContainer,
  StopContainer, RemoveContainer, RunPodSandbox, StopPodSandbox,
  RemovePodSandbox and of the event monitor is one step; `Next` is the step
  relation and a schedule may interleave the steps of any number of calls in any
  order. A container id stands for one status cell for ever, so a call that looked a
  container up keeps a usable reference after the container has left the store. The long start
  transaction holds a lock that other transactions on the cell wait for.
  `ServiceInv.dfy` states the invariant; `ServiceProof.dfy`, `ServiceEvents.dfy` and
  `ServiceNames.dfy` prove that every step keeps it; `ServiceSafety.dfy`, `ExitSafety.dfy` and
  `SandboxSafety.dfy` draw the results; `CallHistory.dfy` follows a call from the step in
  which it reads the store or a status to its return; `CallGates.dfy` leads from where a call
  stands back to the foreign calls it must have made; `CallFailures.dfy` says exactly when a call
  fails; `AbortSafety.dfy` says what a failed creation leaves; `ServiceWitness.dfy` has concrete runs
  that show that the results speak about something and that the three
  misbehaviours below do occur.
- **The handlers as imperative code** (`Handlers.dfy`, `HandlerSteps.dfy`, `RemovalLoop.dfy`, `Containerd.dfy`,
  `Stores.dfy`, `Status.dfy`, `Registrar.dfy`). StartContainer, RemoveContainer,
  RemovePodSandbox and handleEvent are methods over mutable stores, the two-map name indexes
  and shared status cells; whether each containerd call works is a parameter, and every
  contract says exactly when the call succeeds. Each is proved to take,
  uninterrupted, exactly the steps of the step system (`AloneIsRun`, `MonitorAloneIsRun`,
  and for RemovePodSandbox every set of worlds that its steps do not leave, `LeadsIsClosed`).
- **Acquire and roll back** (`Rollback.dfy`): one induction over chains of steps
  with deferred releases, and CreateContainer and RunPodSandbox as two chains.
- **Subscribe before act** (`Waits.dfy`): any number of stopSandboxContainer
  and execInContainer calls against any number of processes.
- **The CRI log writer** (`Logger.dfy`), **the image index and its references**
  (`ImageStore.dfy`, `ImageRefs.dfy`), and the codecs: **registry credentials**
  (`Auth.dfy`), **resolv.conf** (`Resolv.dfy`), **names** (`Names.dfy`, `Strings.dfy`).

## What the code does not keep

Four things that one might expect do not hold of the code. Each is kept as it
is and characterised exactly.

- An exit is lost by a step exactly when the step is the deletion of its task and fails with an
  error other than "not found" (`LostExactlyByFailedDelete`); the container is then RUNNING
  for ever and can never be removed (`GivenUpIsStuck`, `ExitCanBeGivenUp`). Without such a step
  no exit is ever lost (`NoLostExit`).
- An OOM event of a container that is not in the store, such as a sandbox, is a
  nil dereference in the monitor (`PanicsExactlyOnUnknownOom`, `MonitorCanPanic`).
- After RemovePodSandbox, the name of a listed container is still reserved exactly
  while another RemoveContainer stands between deleting the store entry and
  releasing the name (`CallHistory.SandboxRemovalCovers`, `NameCanLinger`).
- Two different pods or containers can have the same name exactly if a text
  field contains an underscore (`SandboxNameUniqueIff`, `ContainerNameUniqueIff`). The comments at
  pkg/server/helpers.go:110-111 and 121-123 promise uniqueness without that condition.

## Assumptions

- Generated ids are fresh, across containers and sandboxes. Clock readings and the
  `ExitedAt` of an event are nonzero, and so are pids.
- There is one unbroken event stream: the monitor does not list again after a
  reconnect. The exit of an init process is published once. An exec process has
  another pid than the init process of its container.
- A foreign call may fail at any time. A failed acquisition leaves nothing behind; a
  failed removal may or may not have removed the thing. `Rollback.dfy` is about the most that
  can be left behind, so a release that fails leaves the thing there.
- A sandbox has no task again once it was deleted. In `Waits.dfy`, processes of one container
  have different pids and different exec ids.
- A timestamp in the log has at most 35 bytes and no space or newline; one write is one append.
- The content behind a descriptor never changes, so neither does its config digest.

## Model

| member | source | states |
|---|---|---|
| ContainerStatus.ToInt32 | pkg/server/events.go:123-123 | the uint32 exit status wraps to int32: in range and congruent modulo 2^32 |
| ContainerStatus.StatusStorage.Update | pkg/store/container/status.go:125-137 | all or nothing: an error of the closure leaves the status as it was |
| Stores.Store.Add | pkg/store/container/container.go:74-84 | refused exactly on a known id; nothing is ever overwritten |
| Stores.Store.Get | pkg/store/container/container.go:86-95 | the entry, or nothing exactly if the id is unknown |
| Stores.Store.List | pkg/store/sandbox/sandbox.go:72-81 | every entry exactly once, in no particular order |
| Stores.Store.Delete | pkg/store/sandbox/sandbox.go:83-88 | exactly this entry is gone |
| Registrar.ReserveKeepsInverse | pkg/registrar/registrar.go:47-72 | the maps stay inverse; refused exactly on a blank or on a conflict with another pair; other pairs untouched |
| Registrar.ReleaseKeepsInverse | pkg/registrar/registrar.go:74-101 | either release removes exactly one pair, and releasing by name is releasing by the key of that name |
| Registrar.ReleaseUndoesReserve | pkg/registrar/registrar.go:47-101 | either release gives back the index before the reservation |
| Registrar.Registrar.Reserve | pkg/registrar/registrar.go:47-72 | the two maps updated in place follow the specification, with both duplicate checks |
| Registrar.Registrar.ReleaseByName | pkg/registrar/registrar.go:74-87 | both maps lose the pair |
| Registrar.Registrar.ReleaseByKey | pkg/registrar/registrar.go:89-101 | both maps lose the pair |
| ServiceProof.CoreKept | pkg/server/container_start.go:69-198 | every step of every call, of the monitor and of the processes keeps each container's lifecycle facts, the owners of lock, creation and removal, and what each call in flight relies on |
| ServiceEvents.EventsKept | pkg/server/events.go:84-147 | every step keeps the event facts: the exit that matters is queued or being handled, once |
| ServiceNames.NamesKept | pkg/server/container_create.go:60-70 | every step keeps both name indexes inverse and each reserved id held by a stored entry or by the call that will add or release it |
| ServiceSafety.ReachableOk | pkg/server/container_start.go:52-65 | the invariant holds in every reachable state of every interleaving |
| ExitSafety.NoLostExit | pkg/server/events.go:95-130 | after any run, RUNNING means in the store with the init pid; no exit yet means the task runs; after the exit its event is queued or being handled if and only if no step of the run was a failed Delete of its task |
| ExitSafety.DrainedMeansTrue | pkg/server/events.go:73-81 | with the queue drained and no failed Delete in the run, what the store calls running does run |
| ExitSafety.HandledExitIsRecorded | pkg/server/events.go:115-125 | once the task is deleted or not found, the next step makes the container EXITED with the code and time of its init process, and is always enabled |
| ExitSafety.LostExactlyByFailedDelete | pkg/server/events.go:108-114 | over every step of every call, of the monitor and of the processes: an exit becomes lost (RUNNING, ended, neither queued nor being handled) if and only if the step is its Delete failing otherwise than by not found |
| ExitSafety.RunLoses | pkg/server/events.go:95-130 | along every run an exit is lost if and only if it was lost before or some step is such a failed Delete |
| ExitSafety.GivenUpIsStuck | pkg/server/events.go:110-114 | a container whose exit is lost stays so, RUNNING and stored, in every later state |
| ServiceSafety.PanicsExactlyOnUnknownOom | pkg/server/events.go:131-141 | the monitor panics if and only if it handles an OOM event of a container that is not stored |
| ServiceSafety.PanicIsAbout | pkg/server/events.go:134-138 | what it panics on is a sandbox, or a container not yet or no longer in the store |
| ServiceSafety.RecordedExitIsTrue | pkg/server/events.go:115-125 | the recorded code and time of an exited container are those of its init process, or it never started and has code 128 |
| ServiceSafety.RemovalExclusion | pkg/server/container_remove.go:51-128 | at most one RemoveContainer is past the removing mark, none while the container runs or is being started, and a running container has snapshot, root directory and containerd container |
| ServiceSafety.ForwardOnly | pkg/store/container/status.go:63-74 | over every run the state moves only forward and the exit freezes it; pid is nonzero exactly when RUNNING; one start past the guards and one task at most |
| CallHistory.StopMeansStopped | pkg/server/container_stop.go:67-168 | if stopContainer reads the status RUNNING and later returns nil, the container is EXITED then and in every later state, under any interleaving |
| CallHistory.SandboxStopMeansStopped | pkg/server/sandbox_stop.go:55-65 | if StopPodSandbox returns nil, every container of the sandbox in the store at the List step was inspected, at a step that is given, and if it was RUNNING there it is EXITED at the return and in every later state |
| CallGates.ForcedStopKills | pkg/server/container_stop.go:116-135 | a stop without a grace period that has read RUNNING fails, still stands before the kill, or has killed the container at a step that is given, with a reply other than an error; so in every wait and at every nil return, called by the API or by StopPodSandbox |
| CallGates.GracefulStopSignals | pkg/server/container_stop.go:79-107 | the same with a grace period: the image was found and the stop signal was sent |
| CallGates.KillOnlyAfterTimeout | pkg/server/container_stop.go:109-135 | a graceful stop comes to the kill only after a first wait that timed out, and to the second wait only after the kill |
| CallGates.IdleIsLeftAlone | pkg/server/container_stop.go:70-77 | a container that is not RUNNING when it is read gets no signal and no wait |
| CallGates.SandboxStopKills | pkg/server/sandbox_stop.go:55-65 | if StopPodSandbox returns nil, each container of the sandbox in the store at the List step that was RUNNING when inspected was killed after that, at a step that is given |
| CallGates.SandboxStopTearsDown | pkg/server/sandbox_stop.go:67-98 | before a nil return the call tore the network down, unmounted and subscribed, each without an error |
| CallGates.SandboxTaskIsKilled | pkg/server/sandbox_stop.go:101-128 | a sandbox task found running was killed, waited for and deleted before a nil return |
| CallGates.StoppedTaskIsDeleted | pkg/server/sandbox_stop.go:108-128 | one found stopped is deleted without a kill or a wait |
| CallGates.CreateAcquires | pkg/server/container_create.go:104-158 | a creation that returns without an error acquired each of snapshot, root directory and containerd container |
| CallGates.RunMakesTask | pkg/server/sandbox_run.go:183-238 | the same for the sandbox task and what follows it |
| CallFailures.DoomedExactly | pkg/server/container_start.go:69-198 | along every run a call is bound to fail if and only if it was before or some step of it meets one of the listed causes; a first wait that times out is none |
| CallFailures.FailsExactly | pkg/server/container_stop.go:44-135 | from its arrival to its return, under any interleaving, each of the seven calls returns an error if and only if its first lookup fails or some step of it meets a cause |
| AbortSafety.AbortedLeavesNothing | pkg/server/container_create.go:113-158 | over every run, a resource of a container whose creation failed is left only if its own cleanup failed, at a step that is given |
| AbortSafety.AbortedLeavesNoTask | pkg/server/sandbox_run.go:198-205 | the same for the task of a sandbox whose creation failed |
| CallHistory.SandboxRemovalCovers | pkg/server/sandbox_remove.go:53-116 | if RemovePodSandbox returns nil, then at the return and in every later state the sandbox, its name and every container of it in the store at the List step are gone; such a container's name lingers exactly in the window of another removal |
| CallHistory.RunCarries | pkg/server/sandbox_remove.go:78-87 | along every run a call keeps the list it walks and the containers it has read as RUNNING until it returns or fails |
| SandboxSafety.StopIsFinalForStarts | pkg/server/sandbox_stop.go:86-128 | after a successful StopPodSandbox a container of it whose start had not begun never gets a task, never runs, and ends EXITED with 128 if a start gets past its guards |
| SandboxSafety.ListsWholeStore | pkg/server/sandbox_remove.go:78-79 | the list a sandbox call walks is the whole container store at that step |
| SandboxSafety.RemovesOnlyItsOwn | pkg/server/sandbox_remove.go:79-87 | no step of RemovePodSandbox takes a container of another sandbox out of the store |
| SandboxSafety.LingersExactlyInWindow | pkg/server/container_remove.go:98-100 | the name of a removed container is reserved if and only if a removal stands before its release |
| SandboxSafety.NamesAgree | pkg/registrar/registrar.go:27-45 | in every reachable state both maps are inverse, every stored entry holds its (name, id), and no two stored entries share a name |
| SandboxSafety.NoLeakedNames | pkg/server/container_create.go:65-70 | with no call in flight the reserved ids are exactly the stored ids, for containers and for sandboxes |
| ServiceWitness.ContainerRunsAndExits | pkg/server/container_start.go:190-197 | a reachable state has a container that was created, started and exited with its recorded code |
| ServiceWitness.ExitCanBeGivenUp | pkg/server/events.go:110-114 | a reachable state has a container whose exit is lost |
| ServiceWitness.MonitorCanPanic | pkg/server/events.go:134-138 | a reachable state has the monitor panicked |
| ServiceWitness.NameCanLinger | pkg/server/container_remove.go:98-100 | a reachable state has the sandbox removed, its listed container gone and that container's name still reserved |
| HandlerSteps.AloneIsRun | pkg/server/container_start.go:38-65 | the steps of an uninterrupted call are a run of the whole service from any world that has the call and the container so, and stay reachable |
| HandlerSteps.MonitorAloneIsRun | pkg/server/events.go:73-81 | the same for the event handler |
| HandlerSteps.LeadsIsClosed | pkg/server/sandbox_remove.go:33-117 | what the steps of a call alone lead to is a set of worlds that its steps do not leave, so a call that stays in every such set takes only its own steps |
| HandlerSteps.ReachableIsClosed | pkg/server/sandbox_remove.go:33-117 | the reachable worlds are such a set |
| HandlerSteps.RemovalIsRun | pkg/server/sandbox_remove.go:41-53 | what the steps of the call lead to after its first lookup is a run that begins with the arrival of the call |
| Handlers.Daemon.CheckSandbox | pkg/server/container_start.go:92-108 | no error if and only if the lookup works, the sandbox is stored and its task runs, along the steps that find it so |
| Handlers.Daemon.PrepareStreams | pkg/server/container_start.go:110-149 | pipes and loggers, or an error with no pipe left open |
| Handlers.Daemon.LaunchTask | pkg/server/container_start.go:151-192 | a running task with its pid and a snapshot, or an error; the task afterwards is fixed by which calls work: a created task whose start fails is gone unless the deletion fails without effect |
| Handlers.Daemon.StartOrDelete | pkg/server/container_start.go:180-192 | the task runs if the start works; otherwise it is deleted, and still there exactly if that fails without effect |
| Handlers.Daemon.StartInTransaction | pkg/server/container_start.go:69-198 | on a copy of the status: guards, then a commit of pid and start time or the failure fields, along the start steps |
| Handlers.Daemon.StartContainer | pkg/server/container_start.go:38-198 | refines the start steps; succeeds if and only if the guards hold, the sandbox runs and every call works; success commits pid and start time, a failure past the guards writes pid 0, the end time, code 128, reason StartError and its message, a refusal writes nothing; the resources afterwards, the task among them, are given exactly for every way of failing; other containers untouched |
| Handlers.Daemon.DeleteResources | pkg/server/container_remove.go:66-96 | snapshot, root directory and containerd container go in this order up to the first failure, all if and only if none fails |
| Handlers.Daemon.RemoveContainer | pkg/server/container_remove.go:32-128 | refines the removal steps; a known container is removed if and only if it may be marked and no deletion fails; success removes entry, name and all resources and keeps the mark, a failure leaves status, store and index as they were and exactly the resources that the failing call and those after it did not delete, an unknown id is no error; whether called by the API or by the loop of a sandbox removal |
| Handlers.Daemon.HandleEvent | pkg/server/events.go:84-147 | refines the monitor steps; which events change the status and each field they write, reason OOMKilled among them; the task afterwards; an exit is given up if and only if it is the init process's and the Delete fails; a panic exactly on an OOM event of an unknown container |
| Handlers.Daemon.RemoveContainersOf | pkg/server/sandbox_remove.go:78-87 | refines the loop steps; exactly containers of this sandbox are gone, with their names, all of them if and only if each can be removed; what is left has the status it had, and the others, their resources and all other names are as they were |
| Handlers.Daemon.RemovePodSandbox | pkg/server/sandbox_remove.go:33-117 | refines the removal steps; succeeds if and only if the sandbox is unknown, or has no task, every container of it can be removed and no call on it fails; success removes every container of the sandbox, its entry and its name, a failure keeps the sandbox and its name, and what is left of each container is given by the one whose removal failed; an unknown id is no error; other containers and their names are untouched |
| Handlers.Daemon.ServeRemovePodSandbox | pkg/server/sandbox_remove.go:33-117 | from the arrival of the call: the heap afterwards shows the world that the run of Begin and the call's own steps leads to |
| Rollback.StuckMeaning | pkg/server/container_create.go:113-158 | what is left of a failed chain is exactly what some step holds whose own release failed |
| Rollback.TakenMeaning | pkg/server/sandbox_run.go:59-238 | what a chain has acquired is exactly what some step before holds |
| Rollback.Host.AcquireAll | pkg/server/container_create.go:62-177 | acquires in order up to the first failing step |
| Rollback.Host.RunDefers | pkg/server/container_create.go:113-158 | the deferred releases run last in first out and leave exactly the resources whose release failed |
| Rollback.Host.RunChain | pkg/server/container_create.go:62-179 | all or nothing for any chain of distinct resources, with the log of acquisitions and releases |
| Rollback.CreateContainer | pkg/server/container_create.go:60-180 | success if and only if all nine steps succeed; then all five resources are there, acquired in the order name, snapshot, root directory, containerd container, store entry; otherwise only resources whose own cleanup failed, never the name or the store entry |
| Rollback.RunPodSandbox | pkg/server/sandbox_run.go:44-239 | the same for the sandbox chain, with and without host network and host IPC, in either order of the pipes; deferred calls run last in first out |
| Rollback.SandboxOrderIs | pkg/server/sandbox_run.go:59-238 | a sandbox is put together in the listed order, the network after the task in whose namespace it is |
| Rollback.PipesCloseInOrder | pkg/server/sandbox_run.go:157-162 | once both pipes are open, a failure closes stdout and then stderr, whichever was opened first, and then what was acquired before them |
| Waits.NoMissedWakeup | pkg/server/sandbox_stop.go:93-128 | in every interleaving a call in its wait loop waits for a live process or has its exit event in its stream |
| Waits.ReturnsOwnExitCode | pkg/server/container_execsync.go:134-180 | the code a wait returns is that of the process it waited for |
| Waits.EventStream.WaitFor | pkg/server/container_execsync.go:160-180 | returns at the first matching event, consumes exactly up to it, and fails only if the stream ends without one |
| Logger.CutStrips | pkg/server/agents/logger.go:96-103 | reading a line loses nothing but its terminator, also when a full buffer ends in a carriage return |
| Logger.RecordFitsPipe | pkg/server/agents/logger.go:31-43 | every record, newline included, has at most 4096 bytes |
| Logger.ParseEncoded | pkg/server/agents/logger.go:108-111 | splitting a file of records into lines and fields gives the records back |
| Logger.LogRoundTrip | pkg/server/agents/logger.go:91-116 | every record is recovered and the payloads together are the input without exactly its line terminators |
| Logger.LineIsOneRecord | pkg/server/agents/logger.go:96-111 | a line of fewer than 4052 bytes and its newline become one record, without a carriage return before the newline, followed by the records of what comes after |
| Logger.EndIsOneRecord | pkg/server/agents/logger.go:96-103 | so does a last line without a newline, which keeps its carriage return |
| Logger.LongLineIsCut | pkg/server/agents/logger.go:42-42 | a longer line gives a record of its first 4052 bytes, or 4051 if the last of these is a carriage return, and goes on right behind them |
| Logger.RecordBytes | pkg/server/agents/logger.go:108-111 | a record is timestamp, stream and line, separated by spaces and ended by a newline |
| Logger.LogInterleaving | pkg/server/agents/logger.go:81-116 | for every interleaving of the appends of two loggers, selecting a stream gives exactly that logger's records in order |
| Logger.LineReader.ReadLine | pkg/server/agents/logger.go:96-103 | the buffered reader cuts as specified |
| Logger.RedirectLogs | pkg/server/agents/logger.go:91-116 | the loop ends and appends exactly the records of its input whose write succeeds |
| ImageStore.MergeStringSlices | pkg/store/image/image.go:106-120 | the union, without duplicates |
| ImageStore.ReplayIsHistory | pkg/store/image/image.go:62-104 | an image is known exactly if added since its last deletion; tags and digests are the unions, the rest comes from the first addition |
| ImageStore.Store.AddImage | pkg/store/image/image.go:62-75 | merges lists, keeps the rest, keeps duplicate-freeness |
| ImageStore.Store.DeleteImage | pkg/store/image/image.go:99-104 | exactly this image is gone |
| ImageStore.RunHistory | pkg/store/image/image.go:57-104 | any sequence of additions and deletions leaves what replaying it specifies |
| ImageRefs.Normalize | pkg/server/helpers.go:249-270 | same repository; a digest is kept and drops the tag, a tag without a digest is kept, a bare name gets the tag latest |
| ImageRefs.GuardNeverFires | pkg/server/image_pull.go:275-278 | a normalized reference is its own repo tag or repo digest, so the consistency check never fails |
| ImageRefs.NormalizeIdempotent | pkg/server/helpers.go:249-270 | normalizing again changes nothing |
| ImageRefs.NormalizedText | pkg/server/helpers.go:249-270 | the text of a normalized reference: name@digest, name:tag or name:latest |
| ImageRefs.PullNamesAre | pkg/server/helpers.go:314-327 | by tag, a pull names the tag, the digest unless the image is of schema 1, and the id; by digest, that and the id |
| ImageRefs.PulledImageIs | pkg/server/image_pull.go:106-119 | the tags, digests and id of a pulled image are the names of the pull; chain id, size and config are those of the image |
| ImageRefs.PullCovers | pkg/server/image_pull.go:106-119 | repointing tag, digest and id and adding the image keeps every reference recorded under the image it resolves to, and makes its own references loose no more |
| ImageRefs.RemoveCovers | pkg/server/image_remove.go:50-62 | with its recorded references gone, no surviving reference resolves to the image unless it is loose |
| ImageRefs.LooseMeaning | pkg/server/image_pull.go:279-287 | a reference is loose if and only if some pull of it failed and no later pull of it succeeded |
| ImageRefs.ImageService.PullImage | pkg/server/image_pull.go:83-127 | success points all its references, by tag the text name:tag, to what was pulled and records the image; no other reference changes; a failure keeps the index and can only leave loose the references being created |
| ImageRefs.ImageService.LocalResolve | pkg/server/helpers.go:331-362 | the id behind a request, by id or by the text of the reference in what containerd has, exactly if it resolves and is known; an error exactly on a malformed reference or a failed lookup |
| ImageRefs.ImageService.RemoveImage | pkg/server/image_remove.go:34-64 | the answer is the image behind the request in the state before; success removes that image and exactly its recorded references, and every other image keeps its entry; coverage is kept even on failure, and no reference but a loose one is left that resolves to the image |
| ImageRefs.ImageService.PerformAll | pkg/server/image_pull.go:94-119 | through any sequence of pulls and removals, failed ones included, each does what it promises from the state the one before left, and every reference is recorded under the image it resolves to unless it is loose; a call of which no foreign call fails succeeds, and if all are such, every reference is recorded |
| Auth.Base64RoundTrip | pkg/server/image_pull.go:169-175 | decoding undoes encoding (section 4 of RFC 4648) on all byte strings |
| Auth.Alphabet | pkg/server/image_pull.go:169-175 | the symbols are those of section 4 of RFC 4648 |
| Auth.DecodesExactly | pkg/server/image_pull.go:171-174 | text is accepted if and only if it is whole groups of symbols with at most two padding signs, at the end |
| Auth.PaddingIsHarmless | pkg/server/image_pull.go:169-180 | the NUL bytes behind the decoded text change neither the fields nor the error |
| Auth.ParsesWhatWasEncoded | pkg/server/image_pull.go:168-181 | encoded text, broken into lines at will, is split as the bytes it encodes |
| Auth.AuthRoundTrip | pkg/server/image_pull.go:158-184 | user and password come back if and only if the user has no colon and the password neither starts nor ends with NUL |
| Auth.AuthInLines | pkg/server/image_pull.go:168-181 | the same when the encoded text is broken into lines |
| Auth.RefusedExactly | pkg/server/image_pull.go:158-184 | an error if and only if a configuration is given without user name and identity token and its text is empty, malformed or without a colon; a user name, else an identity token, is taken as it is; without a configuration the pull is anonymous |
| Resolv.ResolvRoundTrip | pkg/server/sandbox_run.go:381-401 | an error if and only if there are more than six searches; otherwise reading back gives the same lists in order if and only if every entry is one word |
| Resolv.HostFileExactlyWithoutOptions | pkg/server/sandbox_run.go:337-358 | the printed text is empty exactly if all lists are, and exactly then the host file is used |
| Strings.SplitJoin | pkg/server/helpers.go:110-132 | splitting undoes joining of parts free of the separator |
| Strings.DecimalRoundTrip | pkg/server/helpers.go:110-132 | the printed attempt number is read back |
| Names.NamesAre | pkg/server/helpers.go:110-132 | the fields joined by underscores, the attempt last |
| Names.SandboxNameRoundTrip | pkg/server/helpers.go:110-120 | the metadata is read back from a name of underscore-free fields |
| Names.ContainerNameRoundTrip | pkg/server/helpers.go:122-132 | the same for containers, but for the sandbox attempt, which the name does not hold |
| Names.SandboxNameUniqueIff | pkg/server/helpers.go:110-120 | no other metadata has the same name if and only if no text field has an underscore |
| Names.ContainerNameUniqueIff | pkg/server/helpers.go:122-132 | the same for containers |

## Left out

- StopContainer and StopPodSandbox as imperative code: they do nothing but read, kill and wait for the event monitor, so they are modelled as steps on values only.
- RunPodSandbox in the step system is reduced to name, sandbox task and store entry, which is all that other calls can see of it; its whole chain of resources is in `Rollback.dfy`.
- Rollback.CreateContainer: the checkpoint deletion deferred after the container object is built is not a resource, because deleting a checkpoint does nothing in this version.
- Rollback.RunPodSandbox: images pulled for the sandbox are not resources, because the code never gives them back.
- Handlers.Daemon.StartContainer: opening the pipes is one call that succeeds or leaves nothing, because the pipe-by-pipe rollback is part of `Rollback.dfy`.
- Handlers.Daemon.HandleEvent: other kinds of events and events that cannot be decoded are not modelled, because the handler does nothing on them.
- Logger.RedirectLogs: a write either appends its whole record or nothing, because a short write is not retried by the code and depends on the file system; a read error is the end of the input.
- ImageRefs.ImageService.PullImage: starts after resolving and fetching, which are calls into containerd; parsing the reference text is the distribution library's and is a parameter.
- Conversions of containers, sandboxes and images to the API's types, and the list filters: they copy fields and select by equality, and keep no state.
- Waits.NoMissedWakeup: says nothing about how long a wait takes, because the code sets no bound.
- Go data races inside a transaction: the mutexes are taken to work, so that a transaction is one step.
- gRPC and streaming servers, version and status calls, and the stubs that are not implemented.
- OCI spec generation: mostly calls into the runtime-tools generator, which is not part of this model.
- Image download, unpacking and schema 1 conversion: foreign calls.
- JSON encoding of metadata: it is the library's, around one version check.
- Wall-clock bounds, tickers and the reconnect backoff: not decided by this code.
