/**
Acquire and roll back: CreateContainer and RunPodSandbox take resources one
after the other, each with a deferred release that runs, last in first out,
when the function returns an error.
*/
module Rollback {

  /** What the two functions acquire. */
  datatype Resource =
    | Name | Snapshot | CtrdContainer | RootDir | Pipe(stream: string) | ShmMount | Task | Network | StoreEntry

  /** One step: it may fail; if it succeeds it may leave a resource behind, with its deferred release. */
  datatype Step = Check(what: string) | Hold(r: Resource)

  /** Which steps succeed, and which releases do, by position in the chain. */
  datatype Fate = Fate(acquires: nat -> bool, releases: nat -> bool)

  datatype Op = Acquired(r: Resource) | Released(r: Resource) | ReleaseFailed(r: Resource)

  // -------------------------------------------------------- specification

  function Own(s: Step): set<Resource> {
    if s.Hold? then {s.r} else {}
  }

  /** The resources of the first `k` steps. */
  function Taken(steps: seq<Step>, k: nat): set<Resource>
    requires k <= |steps|
  {
    if k == 0 then {} else Taken(steps, k - 1) + Own(steps[k - 1])
  }

  /** Of the steps from `n` to `k`, the resources whose own release fails. */
  function Stuck(steps: seq<Step>, f: Fate, n: nat, k: nat): set<Resource>
    requires n <= k <= |steps|
    decreases k - n
  {
    if n == k then {}
    else (if f.releases(n) then {} else Own(steps[n])) + Stuck(steps, f, n + 1, k)
  }

  /** The first step that fails, or the length of the chain. */
  function FailPoint(steps: seq<Step>, f: Fate, from: nat): (k: nat)
    requires from <= |steps|
    ensures from <= k <= |steps|
    ensures forall i :: from <= i < k ==> f.acquires(i)
    ensures k < |steps| ==> !f.acquires(k)
    decreases |steps| - from
  {
    if from == |steps| || !f.acquires(from) then from else FailPoint(steps, f, from + 1)
  }

  function AcquireLog(steps: seq<Step>, k: nat): seq<Op>
    requires k <= |steps|
  {
    if k == 0 then []
    else AcquireLog(steps, k - 1) + (if steps[k - 1].Hold? then [Acquired(steps[k - 1].r)] else [])
  }

  /** The deferred call of one step. */
  function Deferred(s: Step, ok: bool): seq<Op> {
    if s.Check? then [] else [if ok then Released(s.r) else ReleaseFailed(s.r)]
  }

  /** The deferred releases of the first `k` steps, last in first out. */
  function ReleaseLog(steps: seq<Step>, f: Fate, k: nat): seq<Op>
    requires k <= |steps|
  {
    if k == 0 then [] else Deferred(steps[k - 1], f.releases(k - 1)) + ReleaseLog(steps, f, k - 1)
  }

  predicate Distinct(steps: seq<Step>) {
    forall i, j :: 0 <= i < j < |steps| && steps[i].Hold? && steps[j].Hold? ==> steps[i].r != steps[j].r
  }

  /** Every stuck resource is held by some step whose own release failed. */
  lemma {:induction false} StuckMeaning(steps: seq<Step>, f: Fate, n: nat, k: nat, r: Resource)
    requires n <= k <= |steps|
    ensures r in Stuck(steps, f, n, k) <==> exists i :: n <= i < k && steps[i] == Hold(r) && !f.releases(i)
    decreases k - n
  {
    if n < k {
      StuckMeaning(steps, f, n + 1, k, r);
    }
  }

  lemma {:induction false} TakenMeaning(steps: seq<Step>, k: nat, r: Resource)
    requires k <= |steps|
    ensures r in Taken(steps, k) <==> exists i :: 0 <= i < k && steps[i] == Hold(r)
    decreases k
  {
    if k > 0 {
      TakenMeaning(steps, k - 1, r);
    }
  }

  // ------------------------------------------------------- implementation

  /** `done` is what the deferred calls of the steps from `n` to `k` log. */
  predicate AlreadyRun(done: seq<Op>, steps: seq<Step>, f: Fate, n: nat, k: nat)
    requires n <= k <= |steps|
  {
    done + ReleaseLog(steps, f, n) == ReleaseLog(steps, f, k)
  }

  lemma AlreadyRunStep(done: seq<Op>, steps: seq<Step>, f: Fate, n: nat, k: nat)
    requires n < k <= |steps| && AlreadyRun(done, steps, f, n + 1, k)
    ensures AlreadyRun(done + Deferred(steps[n], f.releases(n)), steps, f, n, k)
  {
    ConcatAssociates(done, Deferred(steps[n], f.releases(n)), ReleaseLog(steps, f, n));
  }

  lemma ConcatAssociates(a: seq<Op>, b: seq<Op>, c: seq<Op>)
    ensures a + b + c == a + (b + c)
  {
  }

  /** What exists outside: in containerd, on disk and in the stores. */
  class Host {
    var held: set<Resource>
    var log: seq<Op>

    constructor ()
      ensures held == {} && log == []
    {
      held, log := {}, [];
    }

    method Acquire(r: Resource)
      modifies this
      ensures held == old(held) + {r} && log == old(log) + [Acquired(r)]
    {
      held := held + {r};
      log := log + [Acquired(r)];
    }

    method Release(r: Resource, ok: bool)
      modifies this
      ensures held == (if ok then old(held) - {r} else old(held))
      ensures log == old(log) + [if ok then Released(r) else ReleaseFailed(r)]
    {
      if ok {
        held := held - {r};
        log := log + [Released(r)];
      } else {
        log := log + [ReleaseFailed(r)];
      }
    }

    /** Acquire in order up to the first failure. */
    method AcquireAll(steps: seq<Step>, f: Fate) returns (k: nat)
      modifies this
      ensures k == FailPoint(steps, f, 0)
      ensures held == old(held) + Taken(steps, k) && log == old(log) + AcquireLog(steps, k)
    {
      k := 0;
      while k < |steps| && f.acquires(k)
        invariant 0 <= k <= |steps| && FailPoint(steps, f, 0) == FailPoint(steps, f, k)
        invariant held == old(held) + Taken(steps, k) && log == old(log) + AcquireLog(steps, k)
      {
        if steps[k].Hold? {
          Acquire(steps[k].r);
        }
        k := k + 1;
      }
    }

    /** Run the deferred releases of the first `k` steps, last in first out. */
    method RunDefers(steps: seq<Step>, f: Fate, k: nat, ghost before: set<Resource>)
      requires k <= |steps| && Distinct(steps) && Taken(steps, k) !! before
      requires held == before + Taken(steps, k)
      modifies this
      ensures held == before + Stuck(steps, f, 0, k) && log == old(log) + ReleaseLog(steps, f, k)
    {
      var n := k;
      ghost var done: seq<Op> := [];
      while n > 0
        invariant 0 <= n <= k
        invariant held == before + Taken(steps, n) + Stuck(steps, f, n, k)
        invariant log == old(log) + done && AlreadyRun(done, steps, f, n, k)
      {
        hide *;
        n := n - 1;
        AlreadyRunStep(done, steps, f, n, k);
        RunDefer(steps, f, n, k, before);
        ghost var call := Deferred(steps[n], f.releases(n));
        ConcatAssociates(old(log), done, call);
        done := done + call;
      }
      assert done + [] == done;
    }

    /** One deferred call: that of step `n`. */
    method RunDefer(steps: seq<Step>, f: Fate, n: nat, k: nat, ghost before: set<Resource>)
      requires n < k <= |steps| && Distinct(steps) && Taken(steps, k) !! before
      requires held == before + Taken(steps, n + 1) + Stuck(steps, f, n + 1, k)
      modifies this
      ensures held == before + Taken(steps, n) + Stuck(steps, f, n, k)
      ensures log == old(log) + Deferred(steps[n], f.releases(n))
    {
      ReleaseMoves(steps, f, n + 1, k, before);
      hide Taken, Stuck, Distinct;
      if steps[n].Hold? {
        Release(steps[n].r, f.releases(n));
      }
    }

    /**
    A function body made of `steps`.  On success everything is there; on
    failure exactly the resources whose own release failed are left, and the
    releases ran in the reverse order of the acquisitions.
    */
    method RunChain(steps: seq<Step>, f: Fate) returns (ok: bool)
      requires Distinct(steps) && Taken(steps, |steps|) !! held
      modifies this
      ensures ok <==> FailPoint(steps, f, 0) == |steps|
      ensures ok ==> held == old(held) + Taken(steps, |steps|) && log == old(log) + AcquireLog(steps, |steps|)
      ensures !ok ==> var k := FailPoint(steps, f, 0);
        held == old(held) + Stuck(steps, f, 0, k) && log == old(log) + AcquireLog(steps, k) + ReleaseLog(steps, f, k)
    {
      var k := AcquireAll(steps, f);
      ok := k == |steps|;
      if !ok {
        TakenGrows(steps, k, |steps|);
        RunDefers(steps, f, k, old(held));
      }
    }
  }

  lemma {:induction false} TakenGrows(steps: seq<Step>, j: nat, k: nat)
    requires j <= k <= |steps|
    ensures Taken(steps, j) <= Taken(steps, k)
    decreases k - j
  {
    if j < k {
      TakenGrows(steps, j, k - 1);
    }
  }

  /** Releasing the last of `n` steps moves its resource to the stuck ones, or away. */
  lemma ReleaseMoves(steps: seq<Step>, f: Fate, n: nat, k: nat, before: set<Resource>)
    requires 0 < n <= k <= |steps| && Distinct(steps) && Taken(steps, k) !! before
    ensures var now := before + Taken(steps, n) + Stuck(steps, f, n, k);
            before + Taken(steps, n - 1) + Stuck(steps, f, n - 1, k)
            == if f.releases(n - 1) then now - Own(steps[n - 1]) else now
  {
    if steps[n - 1].Hold? {
      var r := steps[n - 1].r;
      TakenMeaning(steps, n - 1, r);
      StuckMeaning(steps, f, n, k, r);
      TakenMeaning(steps, k, r);
      assert steps[n - 1] == Hold(r);
    }
  }

  /** What is left of a failed chain shrinks with the failures: a release that cannot fail leaves nothing. */
  lemma NotStuck(steps: seq<Step>, f: Fate, k: nat, n: nat)
    requires k <= |steps| && n < |steps| && steps[n].Hold? && Distinct(steps)
    requires f.releases(n) || k <= n
    ensures steps[n].r !in Stuck(steps, f, 0, k)
  {
    StuckMeaning(steps, f, 0, k, steps[n].r);
  }

  lemma {:induction false} NothingStuck(steps: seq<Step>, f: Fate, n: nat, k: nat)
    requires n <= k <= |steps| && forall i :: n <= i < k ==> f.releases(i)
    ensures Stuck(steps, f, n, k) == {}
    decreases k - n
  {
    if n < k {
      NothingStuck(steps, f, n + 1, k);
    }
  }

  // ----------------------------------------------------- CreateContainer

  const CREATE_CHAIN: seq<Step> := [
    Hold(Name), Check("resolve image"), Check("generate spec"), Check("marshal spec"),
    Hold(Snapshot), Hold(RootDir), Hold(CtrdContainer), Check("build container object"), Hold(StoreEntry)]

  lemma CreateTakes()
    ensures Distinct(CREATE_CHAIN)
    ensures Taken(CREATE_CHAIN, 9) == {Name, Snapshot, RootDir, CtrdContainer, StoreEntry}
  {
    var c := CREATE_CHAIN;
    assert Taken(c, 4) == {Name} by {
      assert Taken(c, 2) == {Name};
    }
    assert Taken(c, 6) == {Name, Snapshot, RootDir};
    assert Taken(c, 8) == {Name, Snapshot, RootDir, CtrdContainer};
  }

  /** The order in which a container is put together. */
  lemma CreateOrder()
    ensures AcquireLog(CREATE_CHAIN, 9) ==
      [Acquired(Name), Acquired(Snapshot), Acquired(RootDir), Acquired(CtrdContainer), Acquired(StoreEntry)]
  {
    var c := CREATE_CHAIN;
    assert AcquireLog(c, 4) == [Acquired(Name)] by {
      assert AcquireLog(c, 1) == [Acquired(Name)];
      assert AcquireLog(c, 2) == [Acquired(Name)];
      assert AcquireLog(c, 3) == [Acquired(Name)];
    }
    assert AcquireLog(c, 5) == [Acquired(Name), Acquired(Snapshot)];
    assert AcquireLog(c, 6) == [Acquired(Name), Acquired(Snapshot), Acquired(RootDir)];
    assert AcquireLog(c, 7) == [Acquired(Name), Acquired(Snapshot), Acquired(RootDir), Acquired(CtrdContainer)];
    assert AcquireLog(c, 8) == AcquireLog(c, 7);
  }

  /** What a creation that fails at step `k` can leave. */
  lemma CreateLeaves(f: Fate, k: nat)
    requires k < 9 && f.releases(0)
    ensures var left := Stuck(CREATE_CHAIN, f, 0, k);
      && Name !in left && StoreEntry !in left
      && (forall r :: r in left ==> exists i :: 0 <= i < 9 && CREATE_CHAIN[i] == Hold(r) && !f.releases(i))
      && ((forall i :: 0 <= i < 9 ==> f.releases(i)) ==> left == {})
  {
    hide Stuck;
    CreateTakes();
    NotStuck(CREATE_CHAIN, f, k, 0);
    NotStuck(CREATE_CHAIN, f, k, 8);
    forall r
      ensures r in Stuck(CREATE_CHAIN, f, 0, k) ==>
        exists i :: 0 <= i < 9 && CREATE_CHAIN[i] == Hold(r) && !f.releases(i)
    {
      StuckMeaning(CREATE_CHAIN, f, 0, k, r);
    }
    if forall i :: 0 <= i < 9 ==> f.releases(i) {
      NothingStuck(CREATE_CHAIN, f, 0, k);
    }
  }

  /**
  CreateContainer is all or nothing: on success the name, the snapshot, the
  root directory, the containerd container and the store entry are there; on
  failure the only new things left are resources whose own cleanup call failed.
  Releasing a name cannot fail, and the store entry comes last, so neither is ever left.
  */
  method CreateContainer(h: Host, f: Fate) returns (ok: bool)
    requires {Name, Snapshot, RootDir, CtrdContainer, StoreEntry} !! h.held && f.releases(0)
    modifies h
    ensures ok <==> forall i :: 0 <= i < 9 ==> f.acquires(i)
    ensures ok ==> h.held == old(h.held) + {Name, Snapshot, RootDir, CtrdContainer, StoreEntry}
    ensures ok ==>
      h.log == old(h.log) +
      [Acquired(Name), Acquired(Snapshot), Acquired(RootDir), Acquired(CtrdContainer), Acquired(StoreEntry)]
    ensures !ok ==> var k := FailPoint(CREATE_CHAIN, f, 0);
      h.log == old(h.log) + AcquireLog(CREATE_CHAIN, k) + ReleaseLog(CREATE_CHAIN, f, k)
    ensures !ok ==> old(h.held) <= h.held && Name !in h.held && StoreEntry !in h.held
    ensures !ok ==> forall r :: r in h.held - old(h.held) ==>
      exists i :: 0 <= i < 9 && CREATE_CHAIN[i] == Hold(r) && !f.releases(i)
    ensures !ok && (forall i :: 0 <= i < 9 ==> f.releases(i)) ==> h.held == old(h.held)
  {
    hide Stuck, Taken, AcquireLog, ReleaseLog;
    CreateTakes();
    CreateOrder();
    ok := h.RunChain(CREATE_CHAIN, f);
    if !ok {
      CreateLeaves(f, FailPoint(CREATE_CHAIN, f, 0));
    }
  }

  // ------------------------------------------------------- RunPodSandbox

  /** The options that change the chain, and the order in which the two pipes happen to be opened. */
  datatype Options = Options(hostNetwork: bool, hostIpc: bool, stderrFirst: bool)

  function All(steps: seq<Step>): set<Resource> {
    Taken(steps, |steps|)
  }

  function PrepareSteps(): seq<Step> {
    [Hold(Name), Check("ensure image"), Hold(Snapshot), Check("generate spec"), Check("marshal spec"),
     Hold(CtrdContainer), Hold(RootDir)]
  }

  /** prepareStreamingPipes walks a Go map, so either pipe may come first. */
  function PipeSteps(o: Options): seq<Step> {
    if o.stderrFirst then [Hold(Pipe("stderr")), Hold(Pipe("stdout"))]
    else [Hold(Pipe("stdout")), Hold(Pipe("stderr"))]
  }

  /** The two loggers, then setupSandboxFiles, which mounts last. */
  function FileSteps(o: Options): seq<Step> {
    [Check("stdout logger"), Check("stderr logger"), Check("copy hosts"), Check("DNS options"), Check("resolv.conf")]
    + if o.hostIpc then [Check("stat /dev/shm")] else [Check("create shm"), Hold(ShmMount)]
  }

  function TaskSteps(o: Options): seq<Step> {
    [Hold(Task)] + (if o.hostNetwork then [] else [Hold(Network)]) + [Check("start task"), Hold(StoreEntry)]
  }

  function SandboxChain(o: Options): seq<Step> {
    PrepareSteps() + (PipeSteps(o) + (FileSteps(o) + TaskSteps(o)))
  }

  function SandboxResources(o: Options): set<Resource> {
    {Name, Snapshot, CtrdContainer, RootDir, Pipe("stdout"), Pipe("stderr"), Task, StoreEntry}
    + (if o.hostIpc then {} else {ShmMount}) + (if o.hostNetwork then {} else {Network})
  }

  lemma {:induction false} TakenConcat(a: seq<Step>, b: seq<Step>, k: nat)
    requires k <= |b|
    ensures Taken(a + b, |a| + k) == All(a) + Taken(b, k)
    decreases k
  {
    if k == 0 {
      TakenPrefix(a, b, |a|);
    } else {
      TakenConcat(a, b, k - 1);
    }
  }

  lemma {:induction false} TakenPrefix(a: seq<Step>, b: seq<Step>, k: nat)
    requires k <= |a|
    ensures Taken(a + b, k) == Taken(a, k)
    decreases k
  {
    if k > 0 {
      TakenPrefix(a, b, k - 1);
    }
  }

  lemma DistinctConcat(a: seq<Step>, b: seq<Step>)
    requires Distinct(a) && Distinct(b) && All(a) !! All(b)
    ensures Distinct(a + b) && All(a + b) == All(a) + All(b)
  {
    TakenConcat(a, b, |b|);
    forall i, j | 0 <= i < j < |a + b| && (a + b)[i].Hold? && (a + b)[j].Hold?
      ensures (a + b)[i].r != (a + b)[j].r
    {
      if i < |a| <= j {
        TakenMeaning(a, |a|, a[i].r);
        TakenMeaning(b, |b|, b[j - |a|].r);
        assert a[i] == Hold(a[i].r) && b[j - |a|] == Hold(b[j - |a|].r);
      }
    }
  }

  lemma SandboxTakes(o: Options)
    ensures Distinct(SandboxChain(o)) && All(SandboxChain(o)) == SandboxResources(o)
  {
    var a, b, c, d := PrepareSteps(), PipeSteps(o), FileSteps(o), TaskSteps(o);
    PrepareTakes();
    PipeTakes(o);
    FileTakes(o);
    TaskTakes(o);
    DistinctConcat(c, d);
    DistinctConcat(b, c + d);
    DistinctConcat(a, b + (c + d));
  }

  lemma PipeTakes(o: Options)
    ensures Distinct(PipeSteps(o)) && All(PipeSteps(o)) == {Pipe("stdout"), Pipe("stderr")}
  {
    var b := PipeSteps(o);
    assert Taken(b, 1) == Own(b[0]);
    assert Taken(b, 2) == Own(b[0]) + Own(b[1]);
  }

  lemma TaskTakes(o: Options)
    ensures Distinct(TaskSteps(o))
    ensures All(TaskSteps(o)) == {Task, StoreEntry} + if o.hostNetwork then {} else {Network}
  {
    var d := TaskSteps(o);
    assert Taken(d, 1) == Own(d[0]);
    assert Taken(d, 2) == Own(d[0]) + Own(d[1]);
    assert Taken(d, 3) == Own(d[0]) + Own(d[1]) + Own(d[2]);
    if !o.hostNetwork {
      assert Taken(d, 4) == Own(d[0]) + Own(d[1]) + Own(d[2]) + Own(d[3]);
    }
  }

  lemma PrepareTakes()
    ensures Distinct(PrepareSteps()) && All(PrepareSteps()) == {Name, Snapshot, CtrdContainer, RootDir}
  {
    var a := PrepareSteps();
    assert Taken(a, 2) == {Name};
    assert Taken(a, 4) == {Name, Snapshot};
    assert Taken(a, 6) == {Name, Snapshot, CtrdContainer};
  }

  lemma FileTakes(o: Options)
    ensures Distinct(FileSteps(o)) && All(FileSteps(o)) == if o.hostIpc then {} else {ShmMount}
  {
    var c := FileSteps(o);
    assert Own(c[0]) == Own(c[1]) == Own(c[2]) == Own(c[3]) == Own(c[4]) == Own(c[5]) == {};
    assert Taken(c, 1) == {};
    assert Taken(c, 2) == {};
    assert Taken(c, 3) == {};
    assert Taken(c, 4) == {};
    assert Taken(c, 5) == {};
    assert Taken(c, 6) == {};
    if !o.hostIpc {
      assert c[6] == Hold(ShmMount);
    }
  }

  /** The order in which a sandbox is put together: the network comes after the task in whose namespace it is. */
  function SandboxOrder(o: Options): seq<Op> {
    var pipes := if o.stderrFirst then [Acquired(Pipe("stderr")), Acquired(Pipe("stdout"))]
                 else [Acquired(Pipe("stdout")), Acquired(Pipe("stderr"))];
    var mount := if o.hostIpc then [] else [Acquired(ShmMount)];
    var network := if o.hostNetwork then [] else [Acquired(Network)];
    [Acquired(Name), Acquired(Snapshot), Acquired(CtrdContainer), Acquired(RootDir)]
    + (pipes + (mount + ([Acquired(Task)] + network + [Acquired(StoreEntry)])))
  }

  function Holds(steps: seq<Step>): seq<Op> {
    if steps == [] then []
    else (if steps[0].Hold? then [Acquired(steps[0].r)] else []) + Holds(steps[1..])
  }

  lemma {:induction false} HoldsConcat(a: seq<Step>, b: seq<Step>)
    ensures Holds(a + b) == Holds(a) + Holds(b)
    decreases |a|
  {
    if a == [] {
      assert a + b == b;
    } else {
      var first := if a[0].Hold? then [Acquired(a[0].r)] else [];
      assert (a + b)[1..] == a[1..] + b;
      assert Holds(a + b) == first + Holds(a[1..] + b) && Holds(a) == first + Holds(a[1..]);
      hide Holds;
      HoldsConcat(a[1..], b);
      Regrouped(first, Holds(a[1..]), Holds(b));
    }
  }

  lemma Regrouped(p: seq<Op>, q: seq<Op>, r: seq<Op>)
    ensures p + (q + r) == p + q + r
  {
  }

  lemma {:induction false} LogIsHolds(steps: seq<Step>, k: nat)
    requires k <= |steps|
    ensures AcquireLog(steps, k) == Holds(steps[..k])
    decreases k
  {
    if k > 0 {
      LogIsHolds(steps, k - 1);
      assert steps[..k] == steps[..k - 1] + [steps[k - 1]];
      HoldsConcat(steps[..k - 1], [steps[k - 1]]);
      assert [steps[k - 1]][1..] == [];
      assert Holds([steps[k - 1]]) == if steps[k - 1].Hold? then [Acquired(steps[k - 1].r)] else [];
    }
  }

  /** A sandbox whose chain succeeds was put together in this order. */
  lemma SandboxOrderIs(o: Options)
    ensures AcquireLog(SandboxChain(o), |SandboxChain(o)|) == SandboxOrder(o)
  {
    hide AcquireLog, Holds, PrepareSteps, PipeSteps, FileSteps, TaskSteps;
    var a, b, c, d := PrepareSteps(), PipeSteps(o), FileSteps(o), TaskSteps(o);
    LogIsHolds(SandboxChain(o), |SandboxChain(o)|);
    assert SandboxChain(o)[..|SandboxChain(o)|] == SandboxChain(o);
    HoldsConcat(c, d);
    HoldsConcat(b, c + d);
    HoldsConcat(a, b + (c + d));
    PrepareHolds();
    PipesHold(o);
    FilesHold(o);
    TaskHolds(o);
  }

  lemma {:induction false} HoldsFirst(s: Step, rest: seq<Step>)
    ensures Holds([s] + rest) == (if s.Hold? then [Acquired(s.r)] else []) + Holds(rest)
  {
    assert ([s] + rest)[1..] == rest;
  }

  lemma PrepareHolds()
    ensures Holds(PrepareSteps()) == [Acquired(Name), Acquired(Snapshot), Acquired(CtrdContainer), Acquired(RootDir)]
  {
    var a := PrepareSteps();
    assert a[7..] == [] && Holds([]) == [];
    assert Holds(a[6..]) == [Acquired(RootDir)] by { assert a[6..][1..] == a[7..]; }
    assert Holds(a[5..]) == [Acquired(CtrdContainer), Acquired(RootDir)] by { assert a[5..][1..] == a[6..]; }
    assert Holds(a[4..]) == Holds(a[5..]) by { assert a[4..][1..] == a[5..]; }
    assert Holds(a[3..]) == Holds(a[5..]) by { assert a[3..][1..] == a[4..]; }
    assert Holds(a[2..]) == [Acquired(Snapshot)] + Holds(a[5..]) by { assert a[2..][1..] == a[3..]; }
    assert Holds(a[1..]) == Holds(a[2..]) by { assert a[1..][1..] == a[2..]; }
  }

  lemma PipesHold(o: Options)
    ensures Holds(PipeSteps(o)) ==
      if o.stderrFirst then [Acquired(Pipe("stderr")), Acquired(Pipe("stdout"))]
      else [Acquired(Pipe("stdout")), Acquired(Pipe("stderr"))]
  {
    var b := PipeSteps(o);
    assert b[1..][1..] == [] && Holds([]) == [];
  }

  lemma FilesHold(o: Options)
    ensures Holds(FileSteps(o)) == if o.hostIpc then [] else [Acquired(ShmMount)]
  {
    var c := FileSteps(o);
    assert forall i :: 0 <= i < 6 ==> c[i].Check?;
    ChecksHoldNothing(c, 6);
    if o.hostIpc {
      assert c[6..] == [];
    } else {
      assert c[6..] == [Hold(ShmMount)] && c[6..][1..] == [];
    }
  }

  lemma {:induction false} ChecksHoldNothing(steps: seq<Step>, n: nat)
    requires n <= |steps| && forall i :: 0 <= i < n ==> steps[i].Check?
    ensures Holds(steps) == Holds(steps[n..])
    decreases n
  {
    if n > 0 {
      ChecksHoldNothing(steps, n - 1);
      assert steps[n - 1..][1..] == steps[n..];
    }
  }

  lemma TaskHolds(o: Options)
    ensures Holds(TaskSteps(o)) ==
      [Acquired(Task)] + (if o.hostNetwork then [] else [Acquired(Network)]) + [Acquired(StoreEntry)]
  {
    var net := if o.hostNetwork then [] else [Hold(Network)];
    var end := [Check("start task"), Hold(StoreEntry)];
    assert TaskSteps(o) == [Hold(Task)] + (net + end);
    HoldsFirst(Hold(Task), net + end);
    HoldsConcat(net, end);
    assert Holds(net) == if o.hostNetwork then [] else [Acquired(Network)] by {
      assert !o.hostNetwork ==> net[1..] == [];
    }
    assert Holds(end) == [Acquired(StoreEntry)] by {
      assert end[1..] == [Hold(StoreEntry)] && end[1..][1..] == [];
    }
  }

  /** Once prepareStreamingPipes has returned, both pipes are open. */
  const PIPES_OPEN := 9

  /**
  The deferred calls, first to last.  A pipe that is open when the other one
  fails is closed by prepareStreamingPipes itself; once both are open, one deferred
  call closes stdout and then stderr, whichever was opened first.
  */
  function DeferChain(o: Options, k: nat): seq<Step> {
    if k < PIPES_OPEN then SandboxChain(o) else SandboxChain(o.(stderrFirst := true))
  }

  lemma DeferTakes(o: Options, k: nat)
    requires k <= |SandboxChain(o)|
    ensures |DeferChain(o, k)| == |SandboxChain(o)| && Taken(DeferChain(o, k), k) == Taken(SandboxChain(o), k)
  {
    if k >= PIPES_OPEN {
      PipesFirst(o, k);
      PipesFirst(o.(stderrFirst := true), k);
    }
  }

  lemma PipesFirst(o: Options, k: nat)
    requires PIPES_OPEN <= k <= |SandboxChain(o)|
    ensures Taken(SandboxChain(o), k) ==
      All(PrepareSteps()) + ({Pipe("stdout"), Pipe("stderr")} + Taken(FileSteps(o) + TaskSteps(o), k - PIPES_OPEN))
  {
    hide Taken;
    var rest := FileSteps(o) + TaskSteps(o);
    TakenConcat(PrepareSteps(), PipeSteps(o) + rest, k - 7);
    TakenConcat(PipeSteps(o), rest, k - PIPES_OPEN);
    PipeTakes(o);
  }

  lemma {:induction false} ReleasesBefore(steps: seq<Step>, f: Fate, n: nat, k: nat) returns (more: seq<Op>)
    requires n <= k <= |steps|
    ensures ReleaseLog(steps, f, k) == more + ReleaseLog(steps, f, n)
    decreases k - n
  {
    if n == k {
      more := [];
    } else {
      var call := Deferred(steps[k - 1], f.releases(k - 1));
      more := ReleasesBefore(steps, f, n, k - 1);
      assert call + (more + ReleaseLog(steps, f, n)) == call + more + ReleaseLog(steps, f, n);
      more := call + more;
    }
  }

  /** On a failure with both pipes open, stdout is closed first, then stderr, then what was acquired before them. */
  lemma PipesCloseInOrder(o: Options, f: Fate, k: nat) returns (more: seq<Op>)
    requires PIPES_OPEN <= k <= |SandboxChain(o)|
    ensures ReleaseLog(DeferChain(o, k), f, k) ==
      more + Deferred(Hold(Pipe("stdout")), f.releases(8)) + Deferred(Hold(Pipe("stderr")), f.releases(7))
      + ReleaseLog(DeferChain(o, k), f, 7)
  {
    var chain := DeferChain(o, k);
    DeferTakes(o, k);
    assert chain[7] == Hold(Pipe("stderr")) && chain[8] == Hold(Pipe("stdout"));
    hide SandboxChain, Taken, Deferred;
    more := ReleasesBefore(chain, f, PIPES_OPEN, k);
    var out, err := Deferred(chain[8], f.releases(8)), Deferred(chain[7], f.releases(7));
    var before := ReleaseLog(chain, f, 7);
    assert ReleaseLog(chain, f, 9) == out + (err + before);
    assert more + (out + (err + before)) == more + out + err + before;
  }

  /** What a sandbox creation that fails at step `k` can leave. */
  lemma SandboxLeaves(o: Options, f: Fate, k: nat)
    requires k < |SandboxChain(o)| && f.releases(0)
    ensures var chain := DeferChain(o, k); var left := Stuck(chain, f, 0, k);
      && Name !in left && StoreEntry !in left
      && (forall r :: r in left ==> exists i :: 0 <= i < |chain| && chain[i] == Hold(r) && !f.releases(i))
      && ((forall i :: 0 <= i < |chain| ==> f.releases(i)) ==> left == {})
  {
    hide Stuck;
    var chain := DeferChain(o, k);
    DeferTakes(o, k);
    var p := if k < PIPES_OPEN then o else o.(stderrFirst := true);
    SandboxTakes(p);
    ChainEnds(p);
    hide SandboxChain;
    NotStuck(chain, f, k, 0);
    NotStuck(chain, f, k, |chain| - 1);
    forall r
      ensures r in Stuck(chain, f, 0, k) ==> exists i :: 0 <= i < |chain| && chain[i] == Hold(r) && !f.releases(i)
    {
      StuckMeaning(chain, f, 0, k, r);
    }
    if forall i :: 0 <= i < |chain| ==> f.releases(i) {
      NothingStuck(chain, f, 0, k);
    }
  }

  /**
  RunPodSandbox is all or nothing in the same way, with and without the host's
  network and IPC namespaces and whichever pipe is opened first; its deferred
  calls run last in first out.
  */
  method RunPodSandbox(h: Host, o: Options, f: Fate) returns (ok: bool)
    requires SandboxResources(o) !! h.held && f.releases(0)
    modifies h
    ensures ok <==> forall i :: 0 <= i < |SandboxChain(o)| ==> f.acquires(i)
    ensures ok ==> h.held == old(h.held) + SandboxResources(o) && h.log == old(h.log) + SandboxOrder(o)
    ensures !ok ==> old(h.held) <= h.held && Name !in h.held && StoreEntry !in h.held
    ensures !ok ==> var chain := DeferChain(o, FailPoint(SandboxChain(o), f, 0));
      forall r :: r in h.held - old(h.held) ==> exists i :: 0 <= i < |chain| && chain[i] == Hold(r) && !f.releases(i)
    ensures !ok && (forall i :: 0 <= i < |SandboxChain(o)| ==> f.releases(i)) ==> h.held == old(h.held)
    ensures !ok ==> var k := FailPoint(SandboxChain(o), f, 0);
      h.log == old(h.log) + AcquireLog(SandboxChain(o), k) + ReleaseLog(DeferChain(o, k), f, k)
  {
    var chain := SandboxChain(o);
    SandboxTakes(o);
    var k := h.AcquireAll(chain, f);
    ok := k == |chain|;
    if ok {
      SandboxOrderIs(o);
    } else {
      var defers := DeferChain(o, k);
      DeferTakes(o, k);
      SandboxTakes(o.(stderrFirst := true));
      TakenGrows(chain, k, |chain|);
      hide SandboxChain, Taken, Stuck, Distinct, AcquireLog, ReleaseLog, SandboxResources;
      h.RunDefers(defers, f, k, old(h.held));
      SandboxLeaves(o, f, k);
    }
  }

  lemma ChainEnds(o: Options)
    ensures var chain := SandboxChain(o); chain[0] == Hold(Name) && chain[|chain| - 1] == Hold(StoreEntry)
  {
    var a, b := PrepareSteps(), PipeSteps(o) + (FileSteps(o) + TaskSteps(o));
    var d := TaskSteps(o);
    assert d[|d| - 1] == Hold(StoreEntry);
    assert (FileSteps(o) + d)[|FileSteps(o) + d| - 1] == d[|d| - 1];
    assert b[|b| - 1] == (FileSteps(o) + d)[|FileSteps(o) + d| - 1];
  }
}
