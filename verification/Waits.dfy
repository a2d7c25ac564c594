/**
Waiting for a process to exit (pkg/server/sandbox_stop.go and
pkg/server/container_execsync.go): subscribe to the event stream first, then
look at the process or start it, then receive until its exit event arrives.
Any number of waiters run against any number of processes.
*/
module Waits {
  import opened Wrappers

  type Tid = nat

  /** The key of a process: its container, its exec id ("" for the init process) and its pid. */
  datatype Proc = Proc(container: string, execId: string, pid: nat)

  datatype Life = NotStarted | Alive | Gone(code: nat)

  datatype Event = TaskExit(p: Proc, code: nat) | Other(topic: string)

  /** stopSandboxContainer waits for a (container, pid); execInContainer for a (container, exec id). */
  datatype Kind = StopSandbox | ExecSync

  datatype Pc = Subscribe | Look | Kill | Wait | Returned(code: Option<nat>)

  /** A waiter and what has been published to its stream but not yet received. */
  datatype Waiter = Waiter(kind: Kind, target: Proc, pc: Pc, stream: seq<Event>)

  datatype State = State(procs: map<Proc, Life>, waiters: map<Tid, Waiter>)

  /** The test in the receive loop. */
  predicate Matches(kind: Kind, target: Proc, ev: Event) {
    && ev.TaskExit? && ev.p.container == target.container
    && (if kind == StopSandbox then ev.p.pid == target.pid else ev.p.execId == target.execId)
  }

  // ---------------------------------------------------------------- steps

  datatype Action =
    | Begin(t: Tid, kind: Kind, target: Proc)
    | Step(t: Tid, ok: bool)
    | Exits(p: Proc, code: nat)
    | Publish(topic: string)

  /** An event goes to every stream that is subscribed. */
  function Deliver(waiters: map<Tid, Waiter>, ev: Event): map<Tid, Waiter> {
    map t | t in waiters ::
      if waiters[t].pc == Subscribe || waiters[t].pc.Returned? then waiters[t]
      else waiters[t].(stream := waiters[t].stream + [ev])
  }

  /** No two processes of one container share a pid or an exec id. */
  predicate Unambiguous(procs: map<Proc, Life>, p: Proc) {
    forall q :: q in procs && q.container == p.container && q != p ==> q.pid != p.pid && q.execId != p.execId
  }

  function WaiterStep(s: State, w: Waiter, ok: bool): Option<(Waiter, Life)>
    requires w.target in s.procs
  {
    var life := s.procs[w.target];
    match w.pc
    case Subscribe => Some((w.(pc := if ok then Look else Returned(None)), life))
    case Look =>
      if !ok then Some((w.(pc := Returned(None)), life))
      else if w.kind == StopSandbox then
        Some((w.(pc := if life.Gone? then Returned(None) else Kill), life))
      else if life == NotStarted then Some((w.(pc := Wait), Alive))
      else None
    case Kill => Some((w.(pc := if ok then Wait else Returned(None)), life))
    case Wait =>
      if !ok then Some((w.(pc := Returned(None)), life))
      else if w.stream == [] then None
      else if Matches(w.kind, w.target, w.stream[0]) then
        Some((w.(pc := Returned(Some(w.stream[0].code)), stream := w.stream[1..]), life))
      else Some((w.(stream := w.stream[1..]), life))
    case Returned(_) => None
  }

  function Next(s: State, a: Action): Option<State> {
    match a
    case Begin(t, kind, p) =>
      if t in s.waiters || !Unambiguous(s.procs, p) || (kind == ExecSync) != (p.execId != "") then None
      // An exec process is created by the call itself; a sandbox process is there already.
      else if kind == ExecSync && p in s.procs then None
      else Some(s.(waiters := s.waiters[t := Waiter(kind, p, Subscribe, [])],
                   procs := if p in s.procs then s.procs
                            else s.procs[p := if kind == ExecSync then NotStarted else Alive]))
    case Step(t, ok) =>
      if t !in s.waiters || s.waiters[t].target !in s.procs then None
      else (match WaiterStep(s, s.waiters[t], ok)
            case None => None
            case Some((w, life)) =>
              Some(State(s.procs[w.target := life], s.waiters[t := w])))
    case Exits(p, code) =>
      if p !in s.procs || s.procs[p] != Alive then None
      else Some(State(s.procs[p := Gone(code)], Deliver(s.waiters, TaskExit(p, code))))
    case Publish(topic) => Some(s.(waiters := Deliver(s.waiters, Other(topic))))
  }

  const INIT := State(map[], map[])

  function Run(s: State, schedule: seq<Action>): Option<State>
    decreases |schedule|
  {
    if schedule == [] then Some(s)
    else match Next(s, schedule[0])
      case None => None
      case Some(s') => Run(s', schedule[1..])
  }

  // ------------------------------------------------------------ invariant

  /** The exit of the target is still to be received. */
  ghost predicate InStream(w: Waiter, code: nat) {
    exists i :: 0 <= i < |w.stream| && w.stream[i] == TaskExit(w.target, code)
  }

  /** Before it waits, a stop has seen the process alive after subscribing; an exec starts it after subscribing. */
  ghost predicate WaiterOk(s: State, w: Waiter) {
    && w.target in s.procs
    && (w.pc == Kill || w.pc == Wait ==>
          s.procs[w.target] == Alive || (s.procs[w.target].Gone? && InStream(w, s.procs[w.target].code)))
    && (w.pc.Returned? && w.pc.code.Some? ==> s.procs[w.target] == Gone(w.pc.code.value))
    && (w.kind == ExecSync && (w.pc == Subscribe || w.pc == Look) ==> s.procs[w.target] == NotStarted)
    && (forall i :: 0 <= i < |w.stream| && w.stream[i].TaskExit? ==>
          w.stream[i].p in s.procs && s.procs[w.stream[i].p] == Gone(w.stream[i].code))
  }

  ghost predicate ProcsOk(procs: map<Proc, Life>) {
    && (forall p :: p in procs ==> Unambiguous(procs, p))
    && (forall p :: p in procs && procs[p] == NotStarted ==> p.execId != "")
  }

  /** Execs wait for exec processes, each for its own. */
  ghost predicate TargetsOk(waiters: map<Tid, Waiter>) {
    && (forall t :: t in waiters ==> (waiters[t].kind == ExecSync) == (waiters[t].target.execId != ""))
    && (forall t, u :: t in waiters && u in waiters && t != u && waiters[t].kind == ExecSync ==>
          waiters[t].target != waiters[u].target)
  }

  ghost predicate Inv(s: State) {
    && ProcsOk(s.procs) && TargetsOk(s.waiters)
    && (forall t :: t in s.waiters ==> WaiterOk(s, s.waiters[t]))
  }

  /** In a container, a matching event can only be about the target. */
  lemma MatchIsTarget(s: State, w: Waiter, ev: Event)
    requires w.target in s.procs && Unambiguous(s.procs, w.target)
    requires Matches(w.kind, w.target, ev) && ev.p in s.procs
    ensures ev.p == w.target
  {
  }

  lemma ReceiveKeeps(s: State, w: Waiter, ok: bool)
    requires WaiterOk(s, w) && Unambiguous(s.procs, w.target) && w.pc == Wait && WaiterStep(s, w, ok).Some?
    ensures var (w2, life) := WaiterStep(s, w, ok).value; life == s.procs[w.target] && WaiterOk(s, w2)
  {
    var (w2, life) := WaiterStep(s, w, ok).value;
    if ok {
      if Matches(w.kind, w.target, w.stream[0]) {
        MatchIsTarget(s, w, w.stream[0]);
      } else if s.procs[w.target].Gone? {
        var i :| 0 <= i < |w.stream| && w.stream[i] == TaskExit(w.target, s.procs[w.target].code);
        assert i > 0;
        assert w2.stream[i - 1] == w.stream[i];
      }
    }
  }

  lemma ProcsKeep(procs: map<Proc, Life>, procs2: map<Proc, Life>)
    requires ProcsOk(procs) && procs2.Keys == procs.Keys
    requires forall p :: p in procs2 && procs2[p] == NotStarted ==> procs[p] == NotStarted
    ensures ProcsOk(procs2)
  {
    forall p | p in procs2
      ensures Unambiguous(procs2, p)
    {
      assert Unambiguous(procs, p);
    }
  }

  lemma TargetsKeep(waiters: map<Tid, Waiter>, waiters2: map<Tid, Waiter>)
    requires TargetsOk(waiters) && waiters2.Keys == waiters.Keys
    requires forall t :: t in waiters ==> waiters2[t].kind == waiters[t].kind && waiters2[t].target == waiters[t].target
    ensures TargetsOk(waiters2)
  {
  }

  /** A waiter does not notice that some other process has been started. */
  lemma OthersKeep(s: State, s2: State, p: Proc, w: Waiter)
    requires WaiterOk(s, w) && p in s.procs
    requires s2.procs == s.procs || (s.procs[p] == NotStarted && w.target != p && s2.procs == s.procs[p := Alive])
    ensures WaiterOk(s2, w)
  {
  }

  lemma WaiterKeeps(s: State, w: Waiter, ok: bool)
    requires WaiterOk(s, w) && Unambiguous(s.procs, w.target) && WaiterStep(s, w, ok).Some?
    requires w.kind == StopSandbox ==> s.procs[w.target] != NotStarted
    ensures var (w2, life) := WaiterStep(s, w, ok).value;
      && w2.kind == w.kind && w2.target == w.target
      && (life == s.procs[w.target] || (w.kind == ExecSync && s.procs[w.target] == NotStarted && life == Alive))
      && WaiterOk(State(s.procs[w.target := life], map[]), w2)
  {
    var (w2, life) := WaiterStep(s, w, ok).value;
    if w.pc == Wait {
      ReceiveKeeps(s, w, ok);
      assert s.procs[w.target := life] == s.procs;
    }
  }

  lemma StepKeeps(s: State, t: Tid, ok: bool)
    requires Inv(s) && Next(s, Step(t, ok)).Some?
    ensures Inv(Next(s, Step(t, ok)).value)
  {
    var w := s.waiters[t];
    var (w2, life) := WaiterStep(s, w, ok).value;
    var s2 := Next(s, Step(t, ok)).value;
    WaiterKeeps(s, w, ok);
    assert s2 == State(s.procs[w.target := life], s.waiters[t := w2]);
    StepsKeep(s, t, w2, life);
  }

  lemma StepsKeep(s: State, t: Tid, w2: Waiter, life: Life)
    requires Inv(s) && t in s.waiters && s.waiters[t].target in s.procs
    requires var w := s.waiters[t];
      && w2.kind == w.kind && w2.target == w.target
      && (life == s.procs[w.target] || (w.kind == ExecSync && s.procs[w.target] == NotStarted && life == Alive))
      && WaiterOk(State(s.procs[w.target := life], map[]), w2)
    ensures Inv(State(s.procs[s.waiters[t].target := life], s.waiters[t := w2]))
  {
    hide Unambiguous, WaiterOk;
    var w := s.waiters[t];
    var s2 := State(s.procs[w.target := life], s.waiters[t := w2]);
    ProcsKeep(s.procs, s2.procs);
    TargetsKeep(s.waiters, s2.waiters);
    assert life == s.procs[w.target] ==> s2.procs == s.procs;
    hide ProcsOk;
    forall u | u in s2.waiters
      ensures WaiterOk(s2, s2.waiters[u])
    {
      if u != t {
        OthersKeep(s, s2, w.target, s.waiters[u]);
      } else {
        OthersKeep(State(s2.procs, map[]), s2, w.target, w2);
      }
    }
  }

  lemma {:induction false} DeliverKeeps(s: State, procs: map<Proc, Life>, ev: Event, w: Waiter)
    requires WaiterOk(s, w) && s.procs.Keys <= procs.Keys
    requires ev.TaskExit? ==> ev.p in s.procs && s.procs[ev.p] == Alive && procs == s.procs[ev.p := Gone(ev.code)]
    requires ev.Other? ==> procs == s.procs
    ensures var live := w.pc != Subscribe && !w.pc.Returned?;
            WaiterOk(State(procs, map[]), if live then w.(stream := w.stream + [ev]) else w)
  {
    var live := w.pc != Subscribe && !w.pc.Returned?;
    if live {
      var w2 := w.(stream := w.stream + [ev]);
      assert w2.stream[|w.stream|] == ev;
      if s.procs[w.target].Gone? && (w.pc == Kill || w.pc == Wait) {
        var i :| 0 <= i < |w.stream| && w.stream[i] == TaskExit(w.target, s.procs[w.target].code);
        assert w2.stream[i] == w.stream[i];
      }
    }
  }

  lemma PublishKeeps(s: State, procs: map<Proc, Life>, ev: Event)
    requires Inv(s) && procs.Keys == s.procs.Keys
    requires ev.TaskExit? ==> ev.p in s.procs && s.procs[ev.p] == Alive && procs == s.procs[ev.p := Gone(ev.code)]
    requires ev.Other? ==> procs == s.procs
    ensures Inv(State(procs, Deliver(s.waiters, ev)))
  {
    var s2 := State(procs, Deliver(s.waiters, ev));
    hide Unambiguous;
    ProcsKeep(s.procs, procs);
    TargetsKeep(s.waiters, s2.waiters);
    hide ProcsOk, TargetsOk;
    forall t | t in s2.waiters
      ensures WaiterOk(s2, s2.waiters[t])
    {
      assert s.waiters[t].target in s.procs;
      hide WaiterOk;
      DeliverKeeps(s, procs, ev, s.waiters[t]);
      OthersKeep(State(procs, map[]), s2, s.waiters[t].target, s2.waiters[t]);
    }
  }

  lemma BeginKeeps(s: State, a: Action)
    requires Inv(s) && Next(s, a).Some? && a.Begin?
    ensures Inv(Next(s, a).value)
  {
    BeginProcs(s, a);
    BeginTargets(s, a);
    BeginWaiters(s, a);
    hide ProcsOk, TargetsOk, WaiterOk, Next;
  }

  lemma BeginProcs(s: State, a: Action)
    requires ProcsOk(s.procs) && Next(s, a).Some? && a.Begin?
    ensures ProcsOk(Next(s, a).value.procs)
  {
  }

  lemma BeginTargets(s: State, a: Action)
    requires Inv(s) && Next(s, a).Some? && a.Begin?
    ensures TargetsOk(Next(s, a).value.waiters)
  {
    var w := Waiter(a.kind, a.target, Subscribe, []);
    assert forall t :: t in s.waiters ==> WaiterOk(s, s.waiters[t]) && s.waiters[t].target in s.procs;
    assert Next(s, a).value.waiters == s.waiters[a.t := w];
    hide ProcsOk, WaiterOk, Unambiguous, Next;
    TargetsGrow(s.waiters, a.t, w);
  }

  lemma TargetsGrow(waiters: map<Tid, Waiter>, t: Tid, w: Waiter)
    requires TargetsOk(waiters) && t !in waiters && (w.kind == ExecSync) == (w.target.execId != "")
    requires w.kind == ExecSync ==> forall u :: u in waiters ==> waiters[u].target != w.target
    ensures TargetsOk(waiters[t := w])
  {
  }

  lemma BeginWaiters(s: State, a: Action)
    requires Inv(s) && Next(s, a).Some? && a.Begin?
    ensures var s2 := Next(s, a).value; forall t :: t in s2.waiters ==> WaiterOk(s2, s2.waiters[t])
  {
    var s2 := Next(s, a).value;
    hide ProcsOk, TargetsOk, Unambiguous;
    assert WaiterOk(s2, s2.waiters[a.t]);
    hide WaiterOk;
    forall t | t in s2.waiters && t != a.t
      ensures WaiterOk(s2, s2.waiters[t])
    {
      MoreProcs(s, s2, s.waiters[t]);
    }
  }

  lemma MoreProcs(s: State, s2: State, w: Waiter)
    requires WaiterOk(s, w) && forall p :: p in s.procs ==> p in s2.procs && s2.procs[p] == s.procs[p]
    ensures WaiterOk(s2, w)
  {
  }

  lemma {:induction false} RunKeeps(s: State, schedule: seq<Action>)
    requires Inv(s) && Run(s, schedule).Some?
    ensures Inv(Run(s, schedule).value)
    decreases |schedule|
  {
    if schedule != [] {
      var a := schedule[0];
      hide Inv;
      match a {
        case Begin(_, _, _) => BeginKeeps(s, a);
        case Step(t, ok) => StepKeeps(s, t, ok);
        case Exits(p, code) => PublishKeeps(s, s.procs[p := Gone(code)], TaskExit(p, code));
        case Publish(topic) => PublishKeeps(s, s.procs, Other(topic));
      }
      hide Next;
      RunKeeps(Next(s, a).value, schedule[1..]);
    }
  }

  // -------------------------------------------------------------- results

  /**
  No missed wake-up.  In every interleaving, a call that has reached its wait
  loop waits for a process that is alive, or finds its exit event in its stream.
  */
  lemma NoMissedWakeup(schedule: seq<Action>, t: Tid)
    requires Run(INIT, schedule).Some?
    requires var s := Run(INIT, schedule).value; t in s.waiters && s.waiters[t].pc == Wait
    ensures var s := Run(INIT, schedule).value;
            var w := s.waiters[t];
            w.target in s.procs
            && (s.procs[w.target] == Alive || (s.procs[w.target].Gone? && InStream(w, s.procs[w.target].code)))
  {
    RunKeeps(INIT, schedule);
  }

  /** What a wait returns is the exit status of the process it waited for. */
  lemma ReturnsOwnExitCode(schedule: seq<Action>, t: Tid, code: nat)
    requires Run(INIT, schedule).Some?
    requires var s := Run(INIT, schedule).value; t in s.waiters && s.waiters[t].pc == Returned(Some(code))
    ensures var s := Run(INIT, schedule).value;
            var w := s.waiters[t]; w.target in s.procs && s.procs[w.target] == Gone(code)
  {
    RunKeeps(INIT, schedule);
  }

  // ------------------------------------------------------------- the loop

  /** A subscription: the events not yet received; it is closed when they run out. */
  class EventStream {
    var events: seq<Event>

    constructor (evs: seq<Event>)
      ensures events == evs
    {
      events := evs;
    }

    method Recv() returns (r: Option<Event>)
      modifies this
      ensures r == if old(events) == [] then None else Some(old(events)[0])
      ensures events == if old(events) == [] then [] else old(events)[1..]
    {
      if events == [] {
        return None;
      }
      r := Some(events[0]);
      events := events[1..];
    }

    /**
    waitSandboxContainer and waitContainerExec: receive until the exit of the
    target.  The first matching event ends the wait, all before it are
    skipped, and the wait fails only if the stream ends without one.
    */
    method WaitFor(kind: Kind, target: Proc) returns (r: Option<nat>)
      modifies this
      ensures r.None? <==> forall i :: 0 <= i < |old(events)| ==> !Matches(kind, target, old(events)[i])
      ensures r.Some? ==> |events| < |old(events)|
      ensures r.Some? ==>
        var i := |old(events)| - |events| - 1;
        && Matches(kind, target, old(events)[i]) && r.value == old(events)[i].code
        && (forall j :: 0 <= j < i ==> !Matches(kind, target, old(events)[j]))
        && events == old(events)[i + 1..]
    {
      ghost var n := 0;
      while true
        invariant 0 <= n <= |old(events)| && events == old(events)[n..]
        invariant forall j :: 0 <= j < n ==> !Matches(kind, target, old(events)[j])
        decreases |events|
      {
        var ev := Recv();
        if ev.None? {
          return None;
        }
        if Matches(kind, target, ev.value) {
          return Some(ev.value.code);
        }
        n := n + 1;
      }
    }
  }
}
