/** Several call bridges on one runtime (rust/src/task.rs, `TaskSpawner`
    and `TaskCaller::from_other`).

    Every binding object has its own `TaskCaller` whose worker loop was
    spawned on the shared runtime, and `spawn_blocking` runs one-off
    computations there too. All of them take their eventfds from the same
    kernel, so a step of one bridge can touch the descriptors of another;
    the invariant here says that with shared ownership it never does. */
module Runtime {
  import opened Outcomes
  import opened EventFds
  import opened Bridge

  /** `TaskSpawner`: a handle on the runtime and the host notifier. */
  datatype Spawner = Spawner(notifier: nat)

  /** The bridges on the runtime and the kernel they share. */
  datatype Runtime<C, R> = Runtime(channels: seq<Channel<C, R>>, kernel: Kernel)

  /** The runtime before any binding object exists. */
  function Started<C, R>(k: Kernel): Runtime<C, R> {
    Runtime([], k)
  }

  /** `TaskSpawner::make_clone`: another handle on the same runtime, with
      the same notifier. */
  function MakeClone(sp: Spawner): Spawner {
    Spawner(sp.notifier)
  }

  /** A bridge with a fresh queue, served by a loop the spawner starts
      (`TaskCaller::new` with the spawner's notifier, then `spawn` of
      `run_task_loop!`). */
  function Connect<C, R>(rt: Runtime<C, R>, sp: Spawner): (r: Runtime<C, R>)
    ensures |r.channels| == |rt.channels| + 1 && r.channels[..|rt.channels|] == rt.channels
    ensures r.kernel == rt.kernel
  {
    rt.(channels := rt.channels + [NewChannel(sp.notifier)])
  }

  /** `TaskCaller::from_other`: a new bridge with its own queue that calls
      the notifier of bridge `parent`; its loop is spawned like any other. */
  function FromOther<C, R>(rt: Runtime<C, R>, parent: nat): (r: Runtime<C, R>)
    requires parent < |rt.channels|
    ensures |r.channels| == |rt.channels| + 1 && r.channels[..|rt.channels|] == rt.channels
    ensures r.kernel == rt.kernel
    ensures var ch := r.channels[|rt.channels|];
            && ch.notifier == rt.channels[parent].notifier
            && ch.callerAlive && ch.calls == [] && ch.queue == [] && ch.worker.Idle?
  {
    rt.(channels := rt.channels + [NewChannel(rt.channels[parent].notifier)])
  }

  /** `TaskSpawner::spawn_blocking` up to the notifier call: make an eventfd
      and its sender, and spawn the computation. It is a bridge with a single
      task that is already running and that nobody can add to; the caller
      then waits on that task as on any other (`Notify(0)` or
      `NotifierFails(0)` on the new bridge). */
  function SpawnBlocking<C, R>(rt: Runtime<C, R>, sp: Spawner, command: C, rv: int): (r: Result<Runtime<C, R>>)
    requires rv >= 0 ==> rv !in rt.kernel
    ensures r.Err? <==> rv < 0
    ensures r.Err? ==> r.error == OsError
    ensures r.Ok? ==> |r.value.channels| == |rt.channels| + 1 && r.value.channels[..|rt.channels|] == rt.channels
    ensures r.Ok? ==> var ch := r.value.channels[|rt.channels|];
                      && ch.notifier == sp.notifier && !ch.callerAlive
                      && ch.calls == [Call(command, rv, Empty, false, Waiting)]
                      && ch.worker == Holding(0)
    ensures r.Ok? ==> rv !in rt.kernel && r.value.kernel == rt.kernel[rv := 0]
  {
    var (efd, sender, k1) :- MakePair(rt.kernel, rv);
    var task := Call(command, sender.fd, Empty, false, Waiting);
    Ok(Runtime(rt.channels + [Channel(sp.notifier, false, [task], [], [0], Holding(0), [], [])], k1))
  }

  /** One step of bridge `i` against the shared kernel. */
  function Step<C, R>(mode: Ownership, rt: Runtime<C, R>, i: nat, a: Action<C, R>): (r: Option<Runtime<C, R>>)
    requires i < |rt.channels|
    ensures r.Some? <==> Next(mode, System(rt.channels[i], rt.kernel), a).Some?
    ensures r.Some? ==> |r.value.channels| == |rt.channels|
    ensures r.Some? ==> forall j :: 0 <= j < |rt.channels| && j != i ==> r.value.channels[j] == rt.channels[j]
  {
    match Next(mode, System(rt.channels[i], rt.kernel), a)
    case None => None
    case Some(s) => Some(Runtime(rt.channels[i := s.ch], s.kernel))
  }

  /** What the host and the runtime can do. */
  datatype Op<C, R> =
    | Open(sp: Spawner)                          // a binding object with its own bridge
    | Derive(parent: nat)                        // a sub-resource made with `from_other`
    | OneOff(sp: Spawner, command: C, rv: int)   // `spawn_blocking`; `rv` is what `eventfd` returned
    | On(index: nat, action: Action<C, R>)       // a step of one bridge

  /** `None` when the operation is not possible in `rt`. A `spawn_blocking`
      whose eventfd cannot be made returns the error and changes nothing. */
  function RtNext<C, R>(mode: Ownership, rt: Runtime<C, R>, op: Op<C, R>): Option<Runtime<C, R>> {
    match op
    case Open(sp) => Some(Connect(rt, sp))
    case Derive(p) => if p < |rt.channels| then Some(FromOther(rt, p)) else None
    case OneOff(sp, command, rv) =>
      if rv >= 0 ==> rv !in rt.kernel then
        match SpawnBlocking(rt, sp, command, rv)
        case Ok(rt') => Some(rt')
        case Err(_) => Some(rt)
      else None
    case On(i, a) => if i < |rt.channels| then Step(mode, rt, i, a) else None
  }

  function RtRun<C, R>(mode: Ownership, rt: Runtime<C, R>, ops: seq<Op<C, R>>): Option<Runtime<C, R>>
    decreases |ops|
  {
    if ops == [] then Some(rt)
    else
      match RtNext(mode, rt, ops[0])
      case None => None
      case Some(rt1) => RtRun(mode, rt1, ops[1..])
  }

  // ---------------------------------------------------------------------
  // The invariant of the whole runtime

  /** Every bridge keeps its own invariant against the shared kernel, and no
      two bridges own the same descriptor. */
  predicate RtInv<C, R>(rt: Runtime<C, R>) {
    && (forall i :: 0 <= i < |rt.channels| ==> Inv(System(rt.channels[i], rt.kernel)))
    && (forall i, j :: 0 <= i < |rt.channels| && 0 <= j < |rt.channels| && i != j ==>
          HeldFds(rt.channels[i]) !! HeldFds(rt.channels[j]))
  }

  lemma EmptyRuntimeInv<C, R>(k: Kernel)
    ensures RtInv(Started<C, R>(k))
  {
  }

  /** A bridge added without new descriptors owns nothing and leaves the
      others as they were. */
  lemma AddEmptyKeepsInv<C, R>(rt: Runtime<C, R>, ch: Channel<C, R>)
    requires RtInv(rt) && Inv(System(ch, rt.kernel)) && HeldFds(ch) == {}
    ensures RtInv(rt.(channels := rt.channels + [ch]))
  {
    var rt' := rt.(channels := rt.channels + [ch]);
    forall i | 0 <= i < |rt'.channels|
      ensures Inv(System(rt'.channels[i], rt'.kernel))
    {
      if i < |rt.channels| {
        assert rt'.channels[i] == rt.channels[i];
      }
    }
  }

  lemma ConnectKeepsInv<C, R>(rt: Runtime<C, R>, sp: Spawner)
    requires RtInv(rt)
    ensures RtInv(Connect(rt, sp))
  {
    NewChannelInv<C, R>(sp.notifier, rt.kernel);
    AddEmptyKeepsInv(rt, NewChannel(sp.notifier));
  }

  lemma FromOtherKeepsInv<C, R>(rt: Runtime<C, R>, parent: nat)
    requires RtInv(rt) && parent < |rt.channels|
    ensures RtInv(FromOther(rt, parent))
  {
    NewChannelInv<C, R>(rt.channels[parent].notifier, rt.kernel);
    AddEmptyKeepsInv(rt, NewChannel(rt.channels[parent].notifier));
  }

  /** The one-off bridge owns exactly the new descriptor, which no other
      bridge can own because it was not open before. */
  lemma SpawnBlockingKeepsInv<C, R>(rt: Runtime<C, R>, sp: Spawner, command: C, rv: int)
    requires RtInv(rt) && (rv >= 0 ==> rv !in rt.kernel)
    ensures SpawnBlocking(rt, sp, command, rv).Ok? ==> RtInv(SpawnBlocking(rt, sp, command, rv).value)
  {
    if rv >= 0 {
      var rt' := SpawnBlocking(rt, sp, command, rv).value;
      var n := |rt.channels|;
      var ch := rt'.channels[n];
      assert HeldFds(ch) == {rv} by {
        assert Holds(ch.calls[0]);
      }
      forall i | 0 <= i < |rt'.channels|
        ensures Inv(System(rt'.channels[i], rt'.kernel)) && (i < n ==> rv !in HeldFds(rt'.channels[i]))
      {
        if i < n {
          assert rt'.channels[i] == rt.channels[i];
          HeldFdsOpen(System(rt.channels[i], rt.kernel));
          TracksOnlyHeld(rt.channels[i], rt.kernel, rt'.kernel);
        }
      }
      forall i, j | 0 <= i < |rt'.channels| && 0 <= j < |rt'.channels| && i != j
        ensures HeldFds(rt'.channels[i]) !! HeldFds(rt'.channels[j])
      {
        if i < n && j < n {
          assert rt'.channels[i] == rt.channels[i] && rt'.channels[j] == rt.channels[j];
        }
      }
    }
  }

  /** A step of one bridge leaves what every other bridge owns untouched. */
  lemma StepKeepsOthers<C, R>(rt: Runtime<C, R>, i: nat, a: Action<C, R>, j: nat)
    requires RtInv(rt) && i < |rt.channels| && Step(SharedFd, rt, i, a).Some?
    requires j < |rt.channels| && j != i
    ensures var rt' := Step(SharedFd, rt, i, a).value;
            && Inv(System(rt'.channels[j], rt'.kernel))
            && (forall f :: f in HeldFds(rt.channels[j]) ==> f in rt'.kernel && rt'.kernel[f] == rt.kernel[f])
            && HeldFds(rt'.channels[i]) !! HeldFds(rt'.channels[j])
  {
    var rt' := Step(SharedFd, rt, i, a).value;
    var s := System(rt.channels[i], rt.kernel);
    StepStaysInOwnFds(s, a);
    HeldFdsOpen(System(rt.channels[j], rt.kernel));
    assert HeldFds(rt.channels[i]) !! HeldFds(rt.channels[j]);
    TracksOnlyHeld(rt.channels[j], rt.kernel, rt'.kernel);
  }

  /** With shared ownership every step of every bridge keeps the invariant
      of the whole runtime. */
  lemma StepKeepsInv<C, R>(rt: Runtime<C, R>, i: nat, a: Action<C, R>)
    requires RtInv(rt) && i < |rt.channels| && Step(SharedFd, rt, i, a).Some?
    ensures RtInv(Step(SharedFd, rt, i, a).value)
  {
    var rt' := Step(SharedFd, rt, i, a).value;
    assert Inv(System(rt'.channels[i], rt'.kernel)) by {
      InvPreserved(System(rt.channels[i], rt.kernel), a);
    }
    forall j | 0 <= j < |rt'.channels| && j != i
      ensures Inv(System(rt'.channels[j], rt'.kernel)) && HeldFds(rt'.channels[i]) !! HeldFds(rt'.channels[j])
    {
      StepKeepsOthers(rt, i, a, j);
    }
    forall j, l | 0 <= j < |rt'.channels| && 0 <= l < |rt'.channels| && j != l
      ensures HeldFds(rt'.channels[j]) !! HeldFds(rt'.channels[l])
    {
      if j != i && l != i {
        assert rt'.channels[j] == rt.channels[j] && rt'.channels[l] == rt.channels[l];
      }
    }
  }

  lemma RtNextKeepsInv<C, R>(rt: Runtime<C, R>, op: Op<C, R>)
    requires RtInv(rt) && RtNext(SharedFd, rt, op).Some?
    ensures RtInv(RtNext(SharedFd, rt, op).value)
  {
    match op
    case Open(sp) => ConnectKeepsInv(rt, sp);
    case Derive(p) => FromOtherKeepsInv(rt, p);
    case OneOff(sp, command, rv) => SpawnBlockingKeepsInv(rt, sp, command, rv);
    case On(i, a) => StepKeepsInv(rt, i, a);
  }

  lemma {:induction false} RtRunKeepsInv<C, R>(rt: Runtime<C, R>, ops: seq<Op<C, R>>)
    requires RtInv(rt) && RtRun(SharedFd, rt, ops).Some?
    ensures RtInv(RtRun(SharedFd, rt, ops).value)
    decreases |ops|
  {
    if ops != [] {
      RtNextKeepsInv(rt, ops[0]);
      RtRunKeepsInv(RtNext(SharedFd, rt, ops[0]).value, ops[1..]);
    }
  }

  /** Whatever the host and the runtime do, starting from no bridges, every
      notifier that wakes a waiting caller of a healthy bridge finds that
      task's result, and no step of one bridge signals another's eventfd. */
  lemma ReachableWakesSeeResults<C, R>(k: Kernel, ops: seq<Op<C, R>>, i: nat, id: nat)
    requires RtRun(SharedFd, Started<C, R>(k), ops).Some?
    requires var rt := RtRun(SharedFd, Started<C, R>(k), ops).value;
             && i < |rt.channels| && !Panicked(rt.channels[i].worker)
             && Step(SharedFd, rt, i, Notify(id)).Some?
    ensures var rt := RtRun(SharedFd, Started<C, R>(k), ops).value;
            && rt.channels[i].calls[id].slot.Written?
            && Step(SharedFd, rt, i, Notify(id)).value.channels[i].calls[id].host
               == Returned(Ok(rt.channels[i].calls[id].slot.result))
  {
    var rt := RtRun(SharedFd, Started<C, R>(k), ops).value;
    EmptyRuntimeInv<C, R>(k);
    RtRunKeepsInv(Started<C, R>(k), ops);
    NotifySeesResult(System(rt.channels[i], rt.kernel), id);
  }

  // ---------------------------------------------------------------------
  // spawn_blocking

  /** The same actions, all on bridge `n`. */
  function OnEach<C, R>(n: nat, actions: seq<Action<C, R>>): (ops: seq<Op<C, R>>)
    ensures |ops| == |actions|
  {
    if actions == [] then [] else [On(n, actions[0])] + OnEach(n, actions[1..])
  }

  /** Running actions on the newest bridge of a runtime is running them on
      that bridge alone. */
  lemma {:induction false} RunOnLast<C, R>(mode: Ownership, pre: seq<Channel<C, R>>, s: System<C, R>, actions: seq<Action<C, R>>)
    ensures RtRun(mode, Runtime(pre + [s.ch], s.kernel), OnEach(|pre|, actions))
            == match Run(mode, s, actions)
               case None => None
               case Some(s') => Some(Runtime(pre + [s'.ch], s'.kernel))
    decreases |actions|
  {
    if actions != [] {
      var rt := Runtime(pre + [s.ch], s.kernel);
      var ops := OnEach(|pre|, actions);
      assert ops[0] == On(|pre|, actions[0]) && ops[1..] == OnEach(|pre|, actions[1..]);
      match Next(mode, s, actions[0])
      case None =>
      case Some(s1) =>
        assert (pre + [s.ch])[|pre| := s1.ch] == pre + [s1.ch];
        RunOnLast(mode, pre, s1, actions[1..]);
    }
  }

  /** The actions of a one-off computation that runs normally. */
  function OneOffRun<C, R>(r: R): seq<Action<C, R>> {
    [Complete(r), Signal, Notify(0), Terminate]
  }

  /** The one-off bridge alone: result sent, sender dropped, the caller
      reads the result, the spawned future ends, the descriptor is closed. */
  lemma OneOffDelivers<C, R>(mode: Ownership, k: Kernel, notifier: nat, command: C, rv: nat, r: R)
    requires rv !in k
    ensures var ch0 := Channel(notifier, false, [Call(command, rv, Empty, false, Waiting)], [], [0], Holding(0), [], []);
            var done := Run(mode, System(ch0, k[rv := 0]), OneOffRun<C, R>(r));
            && done.Some? && |done.value.ch.calls| == 1
            && done.value.ch.calls[0].host == Returned(Ok(r))
            && done.value.ch.worker.Stopped?
            && done.value.kernel == k
  {
    var t := OneOffRun<C, R>(r);
    var task := Call(command, rv, Empty, false, Waiting);
    var ch0 := Channel(notifier, false, [task], [], [0], Holding(0), [], []);
    var s0 := System(ch0, k[rv := 0]);
    var s1 := Next(mode, s0, t[0]).value;
    assert s1.ch.calls == [task.(slot := Written(r))] && s1.ch.worker == Sent(0) && s1.kernel == s0.kernel;
    var s2 := Next(mode, s1, t[1]).value;
    assert s2.ch.calls == [task.(slot := Written(r), signalled := true)] && s2.ch.worker == Idle;
    assert s2.kernel == k[rv := 1];
    var s3 := Next(mode, s2, t[2]).value;
    assert s3.ch.calls[0].host == Returned(Ok(r));
    assert s3.kernel == k;
    var s4 := Next(mode, s3, t[3]).value;
    assert Run(mode, s3, t[3..]) == Some(s4);
    assert Run(mode, s2, t[2..]) == Run(mode, s3, t[3..]);
    assert Run(mode, s1, t[1..]) == Run(mode, s2, t[2..]);
    assert Run(mode, s0, t) == Run(mode, s1, t[1..]);
  }

  /** `spawn_blocking` as it normally runs, on a runtime with other bridges:
      the caller reads the computed result, the spawned future ends, and
      the kernel is left as it was before the call. */
  lemma SpawnBlockingDelivers<C, R>(mode: Ownership, rt: Runtime<C, R>, sp: Spawner, command: C, rv: nat, r: R)
    requires rv !in rt.kernel
    ensures var n := |rt.channels|;
            var done := RtRun(mode, SpawnBlocking(rt, sp, command, rv).value, OnEach(n, OneOffRun<C, R>(r)));
            && done.Some? && n < |done.value.channels| && |done.value.channels[n].calls| == 1
            && done.value.channels[n].calls[0].host == Returned(Ok(r))
            && done.value.channels[n].worker.Stopped?
            && done.value.channels[..n] == rt.channels
            && done.value.kernel == rt.kernel
  {
    var ch0 := Channel(sp.notifier, false, [Call(command, rv, Empty, false, Waiting)], [], [0], Holding(0), [], []);
    var s0 := System(ch0, rt.kernel[rv := 0]);
    assert SpawnBlocking(rt, sp, command, rv).value == Runtime(rt.channels + [s0.ch], s0.kernel);
    OneOffDelivers(mode, rt.kernel, sp.notifier, command, rv, r);
    RunOnLast(mode, rt.channels, s0, OneOffRun<C, R>(r));
    var s4 := Run(mode, s0, OneOffRun<C, R>(r)).value;
    assert (rt.channels + [s4.ch])[..|rt.channels|] == rt.channels;
  }
}
