/** The call bridge between the host thread and the worker loop of one
    `TaskCaller` (rust/src/task.rs), as a state machine.

    The host side runs `req_response`: it opens an eventfd, enqueues a task
    holding the command, a one-shot result slot and an eventfd `Sender`, calls
    the host notifier with the descriptor and, when the notifier returns,
    reads the slot without blocking. The worker side runs `run_task_loop!`:
    it dequeues one task at a time, computes and sends its result, and only
    then drops the task's `Sender`, which signals the eventfd.

    Every task ever enqueued is kept in `calls`, indexed by its position in
    enqueue order, so that properties can speak of a task after it has left
    the queue. Each step of either side is one `Action`; `Next` is enabled
    for an action exactly when its guard holds, and the host and the worker
    interleave in any order. */
module Bridge {
  import opened Outcomes
  import opened EventFds

  /** Who keeps a task's eventfd open. */
  datatype Ownership =
    | RawFd    // the task's `Sender` holds only the number; the caller's `EventFd` closes it when `req_response` returns
    | SharedFd // the descriptor stays open until both the caller's `EventFd` and the task's `Sender` are gone

  /** The one-shot result channel, as its receiver would find it. */
  datatype Slot<R> =
    | Empty              // the sender is alive and has sent nothing
    | Written(result: R) // the worker sent the result
    | Undelivered(result: R) // the worker sent the result after the receiver was gone
    | Dropped            // the sender was dropped without sending

  /** Where the caller of one `req_response` stands. */
  datatype Host<R> = Waiting | Returned(outcome: Result<R>)

  /** One task: its command, its eventfd number, its result slot, whether its
      eventfd `Sender` has been dropped, and its caller. */
  datatype Call<C, R> = Call(command: C, fd: Fd, slot: Slot<R>, signalled: bool, host: Host<R>)

  /** Where the worker loop stands. */
  datatype Worker =
    | Idle                      // waiting in `recv`
    | Holding(id: nat)          // computing the result of task `id`
    | Sent(id: nat)             // result sent, `Sender` of task `id` not yet dropped
    | Stopped                   // `recv` returned `None` and the loop ended
    | Unwinding(pending: seq<nat>) // a command panicked; these tasks are still being dropped
    | Unwound                   // the loop is gone and every task it held has been dropped

  /** One `TaskCaller` and the worker loop that serves its queue. */
  datatype Channel<C, R> = Channel(
    notifier: nat,          // which host notifier the caller calls
    callerAlive: bool,      // the `TaskCaller`, the queue's only sender, still exists
    calls: seq<Call<C, R>>, // every task ever enqueued, in enqueue order
    queue: seq<nat>,        // the tasks not yet dequeued, front first
    log: seq<nat>,          // the tasks the worker dequeued, in order
    worker: Worker,
    lost: seq<nat>,         // tasks whose result found the caller gone (the loop logs these)
    early: seq<Error>)      // errors `req_response` returned before calling the notifier

  /** A channel together with the kernel's eventfds. */
  datatype System<C, R> = System(ch: Channel<C, R>, kernel: Kernel)

  datatype Action<C, R> =
    | Submit(command: C, rv: int) // `req_response` up to the notifier call; `rv` is what `eventfd` returned
    | Notify(id: nat)             // the notifier returns for task `id`, and the caller reads the slot
    | NotifierFails(id: nat)      // the notifier raises for task `id`
    | Dequeue                     // `recv` yields the front task
    | Complete(result: R)         // the current command's result is computed and sent
    | Signal                      // the current task's `Sender` is dropped
    | Terminate                   // `recv` yields `None`
    | Panic                       // the current command panics
    | Unwind                      // the unwinding loop drops one more piece of an abandoned task
    | DropCaller                  // the host drops the `TaskCaller`

  /** `TaskCaller::new`: a fresh, empty queue whose worker waits in `recv`. */
  function NewChannel<C, R>(notifier: nat): Channel<C, R> {
    Channel(notifier, true, [], [], [], Idle, [], [])
  }

  /** The worker loop has unwound and dropped its queue receiver. */
  predicate Panicked(w: Worker) {
    w.Unwinding? || w.Unwound?
  }

  /** The queue receiver is gone, so a send fails. */
  predicate ReceiverGone(w: Worker) {
    Panicked(w) || w.Stopped?
  }

  /** `try_recv` on the result slot. */
  function TryRecv<R>(slot: Slot<R>): (r: Result<R>)
    ensures r.Ok? <==> slot.Written?
    ensures slot.Written? ==> r == Ok(slot.result)
    ensures slot.Empty? ==> r == Err(NoResultYet)
  {
    match slot
    case Written(x) => Ok(x)
    case Empty => Err(NoResultYet)
    case _ => Err(ResultDropped)
  }

  /** What the caller's `EventFd` going out of scope does to the kernel. */
  function CallerReturns<C, R>(mode: Ownership, k: Kernel, c: Call<C, R>): Kernel {
    match mode
    case RawFd => Close(k, c.fd)
    case SharedFd => if c.signalled then Close(k, c.fd) else k
  }

  /** What dropping a task's eventfd `Sender` does to the kernel. */
  function ReleaseSender<C, R>(mode: Ownership, k: Kernel, c: Call<C, R>): Kernel {
    match mode
    case RawFd => DropSender(k, Sender(c.fd))
    case SharedFd => if c.host.Waiting? then DropSender(k, Sender(c.fd)) else Close(k, c.fd)
  }

  /** `req_response` up to the notifier call (task.rs lines 61-64): open an
      eventfd, build the task around a sender for it and enqueue it. A send
      to a queue whose receiver is gone hands the task back inside the
      returned error: the caller's `EventFd` closes the descriptor when
      `req_response` returns, and the task's `Sender` writes to that number
      only afterwards, when the caller drops the error. */
  function Submitted<C, R>(s: System<C, R>, command: C, rv: int): System<C, R>
    requires rv >= 0 ==> rv !in s.kernel
  {
    match NewEventFd(s.kernel, rv)
    case Err(e) => s.(ch := s.ch.(early := s.ch.early + [e]))
    case Ok((efd, k1)) =>
      var sender := MakeSender(efd);
      if ReceiverGone(s.ch.worker) then
        System(s.ch.(early := s.ch.early + [ChannelClosed]), DropSender(Close(k1, AsRawFd(efd)), sender))
      else
        var id := |s.ch.calls|;
        System(s.ch.(calls := s.ch.calls + [Call(command, sender.fd, Empty, false, Waiting)],
                     queue := s.ch.queue + [id]),
               k1)
  }

  /** One step of the host or of the worker; `None` when the action's guard
      does not hold. */
  function Next<C, R>(mode: Ownership, s: System<C, R>, a: Action<C, R>): Option<System<C, R>> {
    var ch := s.ch;
    var k := s.kernel;
    match a
    case Submit(command, rv) =>
      if ch.callerAlive && (rv >= 0 ==> rv !in k) then Some(Submitted(s, command, rv)) else None
    case Notify(id) =>
      if id < |ch.calls| && ch.calls[id].host.Waiting? && ch.calls[id].fd in k && k[ch.calls[id].fd] > 0 then
        var c := ch.calls[id];
        var k1 := Read(k, c.fd).1;
        Some(System(ch.(calls := ch.calls[id := c.(host := Returned(TryRecv(c.slot)))]), CallerReturns(mode, k1, c)))
      else None
    case NotifierFails(id) =>
      if id < |ch.calls| && ch.calls[id].host.Waiting? then
        var c := ch.calls[id];
        Some(System(ch.(calls := ch.calls[id := c.(host := Returned(Err(NotifierFailed)))]), CallerReturns(mode, k, c)))
      else None
    case Dequeue =>
      if ch.worker.Idle? && ch.queue != [] then
        Some(s.(ch := ch.(queue := ch.queue[1..], log := ch.log + [ch.queue[0]], worker := Holding(ch.queue[0]))))
      else None
    case Complete(r) =>
      if ch.worker.Holding? && ch.worker.id < |ch.calls| then
        var id := ch.worker.id;
        var c := ch.calls[id];
        if c.host.Waiting? then
          Some(s.(ch := ch.(calls := ch.calls[id := c.(slot := Written(r))], worker := Sent(id))))
        else
          Some(s.(ch := ch.(calls := ch.calls[id := c.(slot := Undelivered(r))], worker := Sent(id), lost := ch.lost + [id])))
      else None
    case Signal =>
      if ch.worker.Sent? && ch.worker.id < |ch.calls| then
        var id := ch.worker.id;
        var c := ch.calls[id];
        Some(System(ch.(calls := ch.calls[id := c.(signalled := true)], worker := Idle), ReleaseSender(mode, k, c)))
      else None
    case Terminate =>
      if ch.worker.Idle? && ch.queue == [] && !ch.callerAlive then Some(s.(ch := ch.(worker := Stopped))) else None
    case Panic =>
      if ch.worker.Holding? then
        Some(s.(ch := ch.(worker := Unwinding([ch.worker.id] + ch.queue), queue := [])))
      else None
    case Unwind =>
      if ch.worker.Unwinding? then
        var p := ch.worker.pending;
        if p == [] then Some(s.(ch := ch.(worker := Unwound)))
        else if p[0] < |ch.calls| then
          var c := ch.calls[p[0]];
          if !c.signalled then
            Some(System(ch.(calls := ch.calls[p[0] := c.(signalled := true)]), ReleaseSender(mode, k, c)))
          else
            Some(s.(ch := ch.(calls := ch.calls[p[0] := c.(slot := if c.slot.Empty? then Dropped else c.slot)],
                               worker := Unwinding(p[1..]))))
        else None
      else None
    case DropCaller =>
      if ch.callerAlive && forall i | 0 <= i < |ch.calls| :: !ch.calls[i].host.Waiting? then
        Some(s.(ch := ch.(callerAlive := false)))
      else None
  }

  /** The actions taken one after the other; `None` if one of them is not enabled. */
  function Run<C, R>(mode: Ownership, s: System<C, R>, actions: seq<Action<C, R>>): Option<System<C, R>>
    decreases |actions|
  {
    if actions == [] then Some(s)
    else
      match Next(mode, s, actions[0])
      case None => None
      case Some(s1) => Run(mode, s1, actions[1..])
  }

  // ---------------------------------------------------------------------
  // The invariant

  /** The task's result slot is settled and its `Sender` dropped. */
  predicate Done<C, R>(c: Call<C, R>) {
    c.signalled && !c.slot.Empty?
  }

  /** The task has not been touched by the worker. */
  predicate Fresh<C, R>(c: Call<C, R>) {
    !c.signalled && c.slot.Empty?
  }

  predicate DoneBelow<C, R>(calls: seq<Call<C, R>>, n: nat) {
    forall i :: 0 <= i < n && i < |calls| ==> Done(calls[i])
  }

  predicate FreshFrom<C, R>(calls: seq<Call<C, R>>, n: nat) {
    forall i :: n <= i < |calls| ==> Fresh(calls[i])
  }

  /** FIFO: the worker has dequeued tasks 0, 1, 2, ... in that order, and the
      queue holds the next ones in order. */
  predicate Fifo<C, R>(ch: Channel<C, R>) {
    && |ch.log| <= |ch.calls|
    && (forall j :: 0 <= j < |ch.log| ==> ch.log[j] == j)
    && (forall j :: 0 <= j < |ch.queue| ==> ch.queue[j] == |ch.log| + j)
  }

  /** What each task looks like, given where the worker stands: everything
      before the worker's position is done, everything after it untouched. */
  predicate Shaped<C, R>(ch: Channel<C, R>) {
    match ch.worker
    case Idle =>
      |ch.log| + |ch.queue| == |ch.calls| && DoneBelow(ch.calls, |ch.log|) && FreshFrom(ch.calls, |ch.log|)
    case Stopped =>
      ch.queue == [] && !ch.callerAlive && |ch.log| == |ch.calls| && DoneBelow(ch.calls, |ch.calls|)
    case Holding(id) =>
      |ch.log| + |ch.queue| == |ch.calls| && id + 1 == |ch.log| && DoneBelow(ch.calls, id) && FreshFrom(ch.calls, id)
    case Sent(id) =>
      && |ch.log| + |ch.queue| == |ch.calls| && id + 1 == |ch.log| && DoneBelow(ch.calls, id) && FreshFrom(ch.calls, id + 1)
      && !ch.calls[id].signalled && !ch.calls[id].slot.Empty?
    case Unwinding(p) =>
      && ch.queue == [] && |p| <= |ch.calls|
      && (forall j :: 0 <= j < |p| ==> p[j] == |ch.calls| - |p| + j)
      && DoneBelow(ch.calls, |ch.calls| - |p|)
      && (p != [] ==> ch.calls[p[0]].slot.Empty? && FreshFrom(ch.calls, p[0] + 1))
    case Unwound =>
      ch.queue == [] && DoneBelow(ch.calls, |ch.calls|)
  }

  /** A slot is dropped only by unwinding, and a result goes undelivered only
      to a caller that has returned. */
  predicate SlotsHonest<C, R>(ch: Channel<C, R>) {
    forall i :: 0 <= i < |ch.calls| ==>
      && (ch.calls[i].slot.Dropped? ==> Panicked(ch.worker))
      && (ch.calls[i].host.Waiting? ==> !ch.calls[i].slot.Undelivered?)
  }

  /** The invariant on the channel alone; it holds whoever owns the eventfds. */
  predicate Core<C, R>(ch: Channel<C, R>) {
    Fifo(ch) && Shaped(ch) && SlotsHonest(ch)
  }

  /** Someone still owns the task's eventfd: its caller waits, or its
      `Sender` has not been dropped. */
  predicate Holds<C, R>(c: Call<C, R>) {
    c.host.Waiting? || !c.signalled
  }

  /** Every owned eventfd is open, private to its task, and its counter is 1
      exactly when the task's `Sender` has signalled. */
  predicate KernelTracks<C, R>(ch: Channel<C, R>, k: Kernel) {
    && (forall i :: 0 <= i < |ch.calls| && Holds(ch.calls[i]) ==>
          ch.calls[i].fd in k && k[ch.calls[i].fd] == (if ch.calls[i].signalled then 1 else 0))
    && (forall i, j :: 0 <= i < |ch.calls| && 0 <= j < |ch.calls| && i != j && Holds(ch.calls[i]) && Holds(ch.calls[j]) ==>
          ch.calls[i].fd != ch.calls[j].fd)
  }

  predicate Inv<C, R>(s: System<C, R>) {
    Core(s.ch) && KernelTracks(s.ch, s.kernel)
  }

  // ---------------------------------------------------------------------
  // The invariant holds initially and is kept by every step

  lemma NewChannelInv<C, R>(notifier: nat, k: Kernel)
    ensures Inv(System(NewChannel<C, R>(notifier), k))
  {
  }

  /** The channel part of the invariant is kept whoever owns the eventfds. */
  lemma CorePreserved<C, R>(mode: Ownership, s: System<C, R>, a: Action<C, R>)
    requires Core(s.ch) && Next(mode, s, a).Some?
    ensures Core(Next(mode, s, a).value.ch)
  {
    match a
    case Submit(command, rv) => SubmitKeepsCore(mode, s, command, rv);
    case Notify(id) => NotifyKeepsCore(mode, s, id);
    case NotifierFails(id) => NotifierFailsKeepsCore(mode, s, id);
    case Dequeue => DequeueKeepsCore(mode, s);
    case Complete(r) => CompleteKeepsCore(mode, s, r);
    case Signal => SignalKeepsCore(mode, s);
    case Terminate => TerminateKeepsCore(mode, s);
    case Panic => PanicKeepsCore(mode, s);
    case Unwind => UnwindKeepsCore(mode, s);
    case DropCaller => DropCallerKeepsCore(mode, s);
  }

  lemma SubmitKeepsCore<C, R>(mode: Ownership, s: System<C, R>, command: C, rv: int)
    requires Core(s.ch) && Next(mode, s, Submit(command, rv)).Some?
    ensures Core(Next(mode, s, Submit(command, rv)).value.ch)
  {
  }

  lemma NotifyKeepsCore<C, R>(mode: Ownership, s: System<C, R>, id: nat)
    requires Core(s.ch) && Next(mode, s, Notify(id)).Some?
    ensures Core(Next(mode, s, Notify(id)).value.ch)
  {
  }

  lemma NotifierFailsKeepsCore<C, R>(mode: Ownership, s: System<C, R>, id: nat)
    requires Core(s.ch) && Next(mode, s, NotifierFails(id)).Some?
    ensures Core(Next(mode, s, NotifierFails(id)).value.ch)
  {
  }

  lemma DequeueKeepsCore<C, R>(mode: Ownership, s: System<C, R>)
    requires Core(s.ch) && Next(mode, s, Dequeue).Some?
    ensures Core(Next(mode, s, Dequeue).value.ch)
  {
  }

  lemma CompleteKeepsCore<C, R>(mode: Ownership, s: System<C, R>, r: R)
    requires Core(s.ch) && Next(mode, s, Complete(r)).Some?
    ensures Core(Next(mode, s, Complete(r)).value.ch)
  {
  }

  lemma SignalKeepsCore<C, R>(mode: Ownership, s: System<C, R>)
    requires Core(s.ch) && Next(mode, s, Signal).Some?
    ensures Core(Next(mode, s, Signal).value.ch)
  {
  }

  lemma TerminateKeepsCore<C, R>(mode: Ownership, s: System<C, R>)
    requires Core(s.ch) && Next(mode, s, Terminate).Some?
    ensures Core(Next(mode, s, Terminate).value.ch)
  {
  }

  lemma PanicKeepsCore<C, R>(mode: Ownership, s: System<C, R>)
    requires Core(s.ch) && Next(mode, s, Panic).Some?
    ensures Core(Next(mode, s, Panic).value.ch)
  {
  }

  lemma UnwindKeepsCore<C, R>(mode: Ownership, s: System<C, R>)
    requires Core(s.ch) && Next(mode, s, Unwind).Some?
    ensures Core(Next(mode, s, Unwind).value.ch)
  {
  }

  lemma DropCallerKeepsCore<C, R>(mode: Ownership, s: System<C, R>)
    requires Core(s.ch) && Next(mode, s, DropCaller).Some?
    ensures Core(Next(mode, s, DropCaller).value.ch)
  {
  }

  /** With shared ownership the whole invariant is kept: no step lets an
      eventfd that a task still owns be closed, reused or signalled twice. */
  lemma InvPreserved<C, R>(s: System<C, R>, a: Action<C, R>)
    requires Inv(s) && Next(SharedFd, s, a).Some?
    ensures Inv(Next(SharedFd, s, a).value)
  {
    CorePreserved(SharedFd, s, a);
    match a
    case Submit(command, rv) => SubmitKeepsKernel(s, command, rv);
    case Notify(id) => NotifyKeepsKernel(s, id);
    case NotifierFails(id) => NotifierFailsKeepsKernel(s, id);
    case Dequeue => DequeueKeepsKernel(s);
    case Complete(r) => CompleteKeepsKernel(s, r);
    case Signal => SignalKeepsKernel(s);
    case Terminate => TerminateKeepsKernel(s);
    case Panic => PanicKeepsKernel(s);
    case Unwind => UnwindKeepsKernel(s);
    case DropCaller => DropCallerKeepsKernel(s);
  }

  lemma SubmitKeepsKernel<C, R>(s: System<C, R>, command: C, rv: int)
    requires Inv(s) && Next(SharedFd, s, Submit(command, rv)).Some?
    ensures KernelTracks(Next(SharedFd, s, Submit(command, rv)).value.ch, Next(SharedFd, s, Submit(command, rv)).value.kernel)
  {
  }

  lemma NotifyKeepsKernel<C, R>(s: System<C, R>, id: nat)
    requires Inv(s) && Next(SharedFd, s, Notify(id)).Some?
    ensures KernelTracks(Next(SharedFd, s, Notify(id)).value.ch, Next(SharedFd, s, Notify(id)).value.kernel)
  {
  }

  lemma NotifierFailsKeepsKernel<C, R>(s: System<C, R>, id: nat)
    requires Inv(s) && Next(SharedFd, s, NotifierFails(id)).Some?
    ensures KernelTracks(Next(SharedFd, s, NotifierFails(id)).value.ch, Next(SharedFd, s, NotifierFails(id)).value.kernel)
  {
  }

  lemma DequeueKeepsKernel<C, R>(s: System<C, R>)
    requires Inv(s) && Next(SharedFd, s, Dequeue).Some?
    ensures KernelTracks(Next(SharedFd, s, Dequeue).value.ch, Next(SharedFd, s, Dequeue).value.kernel)
  {
  }

  lemma CompleteKeepsKernel<C, R>(s: System<C, R>, r: R)
    requires Inv(s) && Next(SharedFd, s, Complete(r)).Some?
    ensures KernelTracks(Next(SharedFd, s, Complete(r)).value.ch, Next(SharedFd, s, Complete(r)).value.kernel)
  {
  }

  lemma SignalKeepsKernel<C, R>(s: System<C, R>)
    requires Inv(s) && Next(SharedFd, s, Signal).Some?
    ensures KernelTracks(Next(SharedFd, s, Signal).value.ch, Next(SharedFd, s, Signal).value.kernel)
  {
  }

  lemma TerminateKeepsKernel<C, R>(s: System<C, R>)
    requires Inv(s) && Next(SharedFd, s, Terminate).Some?
    ensures KernelTracks(Next(SharedFd, s, Terminate).value.ch, Next(SharedFd, s, Terminate).value.kernel)
  {
  }

  lemma PanicKeepsKernel<C, R>(s: System<C, R>)
    requires Inv(s) && Next(SharedFd, s, Panic).Some?
    ensures KernelTracks(Next(SharedFd, s, Panic).value.ch, Next(SharedFd, s, Panic).value.kernel)
  {
  }

  lemma UnwindKeepsKernel<C, R>(s: System<C, R>)
    requires Inv(s) && Next(SharedFd, s, Unwind).Some?
    ensures KernelTracks(Next(SharedFd, s, Unwind).value.ch, Next(SharedFd, s, Unwind).value.kernel)
  {
  }

  lemma DropCallerKeepsKernel<C, R>(s: System<C, R>)
    requires Inv(s) && Next(SharedFd, s, DropCaller).Some?
    ensures KernelTracks(Next(SharedFd, s, DropCaller).value.ch, Next(SharedFd, s, DropCaller).value.kernel)
  {
  }

  /** Every state a channel reaches from `TaskCaller::new` satisfies the
      invariant when descriptors are shared. */
  lemma {:induction false} RunPreservesInv<C, R>(s: System<C, R>, actions: seq<Action<C, R>>)
    requires Inv(s)
    ensures Run(SharedFd, s, actions).Some? ==> Inv(Run(SharedFd, s, actions).value)
    decreases |actions|
  {
    if actions != [] && Next(SharedFd, s, actions[0]).Some? {
      InvPreserved(s, actions[0]);
      RunPreservesInv(Next(SharedFd, s, actions[0]).value, actions[1..]);
    }
  }

  lemma ReachableInv<C, R>(notifier: nat, k: Kernel, actions: seq<Action<C, R>>)
    ensures Run(SharedFd, System(NewChannel(notifier), k), actions).Some? ==>
              Inv(Run(SharedFd, System(NewChannel(notifier), k), actions).value)
  {
    NewChannelInv<C, R>(notifier, k);
    RunPreservesInv(System(NewChannel(notifier), k), actions);
  }

  // ---------------------------------------------------------------------
  // What a channel owns in a kernel it shares with other channels

  /** The eventfds the channel's tasks own. */
  function HeldFds<C, R>(ch: Channel<C, R>): set<Fd> {
    set i | 0 <= i < |ch.calls| && Holds(ch.calls[i]) :: ch.calls[i].fd
  }

  lemma HeldFdsOpen<C, R>(s: System<C, R>)
    requires KernelTracks(s.ch, s.kernel)
    ensures HeldFds(s.ch) <= s.kernel.Keys
  {
  }

  /** Whether the kernel part of the invariant holds depends only on the
      channel's own eventfds. */
  lemma TracksOnlyHeld<C, R>(ch: Channel<C, R>, k: Kernel, k': Kernel)
    requires KernelTracks(ch, k)
    requires forall f :: f in HeldFds(ch) ==> f in k' && k'[f] == k[f]
    ensures KernelTracks(ch, k')
  {
    forall i | 0 <= i < |ch.calls| && Holds(ch.calls[i])
      ensures ch.calls[i].fd in k' && k'[ch.calls[i].fd] == (if ch.calls[i].signalled then 1 else 0)
    {
      assert ch.calls[i].fd in HeldFds(ch);
    }
  }

  /** A channel whose tasks own no more than before, apart from new tasks
      whose descriptors are among `extra`. */
  lemma HeldFdsWithin<C, R>(ch: Channel<C, R>, ch': Channel<C, R>, extra: set<Fd>)
    requires |ch.calls| <= |ch'.calls|
    requires forall i :: 0 <= i < |ch.calls| && Holds(ch'.calls[i]) ==>
               Holds(ch.calls[i]) && ch'.calls[i].fd == ch.calls[i].fd
    requires forall i :: |ch.calls| <= i < |ch'.calls| ==> ch'.calls[i].fd in extra
    ensures HeldFds(ch') <= HeldFds(ch) + extra
  {
    forall f | f in HeldFds(ch')
      ensures f in HeldFds(ch) + extra
    {
      var i :| 0 <= i < |ch'.calls| && Holds(ch'.calls[i]) && ch'.calls[i].fd == f;
      if i < |ch.calls| {
        assert f in HeldFds(ch);
      }
    }
  }

  /** With shared ownership a step touches only eventfds the channel owns,
      and the only descriptor it can newly own is one the kernel just opened. */
  lemma StepStaysInOwnFds<C, R>(s: System<C, R>, a: Action<C, R>)
    requires Inv(s) && Next(SharedFd, s, a).Some?
    ensures var s' := Next(SharedFd, s, a).value;
            && (forall f :: f in s.kernel && f !in HeldFds(s.ch) ==> f in s'.kernel && s'.kernel[f] == s.kernel[f])
            && HeldFds(s'.ch) <= HeldFds(s.ch) + (s'.kernel.Keys - s.kernel.Keys)
  {
    var s' := Next(SharedFd, s, a).value;
    var newFds := s'.kernel.Keys - s.kernel.Keys;
    match a
    case Submit(command, rv) =>
      if rv >= 0 && !ReceiverGone(s.ch.worker) {
        assert rv in newFds;
      }
      HeldFdsWithin(s.ch, s'.ch, newFds);
    case Notify(id) =>
      assert s.ch.calls[id].fd in HeldFds(s.ch);
      HeldFdsWithin(s.ch, s'.ch, {});
    case NotifierFails(id) =>
      assert s.ch.calls[id].fd in HeldFds(s.ch);
      HeldFdsWithin(s.ch, s'.ch, {});
    case Signal =>
      assert s.ch.calls[s.ch.worker.id].fd in HeldFds(s.ch);
      HeldFdsWithin(s.ch, s'.ch, {});
    case Unwind =>
      var p := s.ch.worker.pending;
      if p != [] && p[0] < |s.ch.calls| && !s.ch.calls[p[0]].signalled {
        assert s.ch.calls[p[0]].fd in HeldFds(s.ch);
      }
      HeldFdsWithin(s.ch, s'.ch, {});
    case _ =>
      HeldFdsWithin(s.ch, s'.ch, {});
  }

  // ---------------------------------------------------------------------
  // Properties of the protocol

  /** Signal after write: when the notifier wakes a waiting caller, the
      worker has already sent that task's result, so `try_recv` returns it.
      Only an unwinding worker can wake a caller without a result. */
  lemma NotifySeesResult<C, R>(s: System<C, R>, id: nat)
    requires Inv(s) && !Panicked(s.ch.worker)
    requires Next(SharedFd, s, Notify(id)).Some?
    ensures s.ch.calls[id].slot.Written?
    ensures Next(SharedFd, s, Notify(id)).value.ch.calls[id].host == Returned(Ok(s.ch.calls[id].slot.result))
  {
    var c := s.ch.calls[id];
    assert c.signalled;
    assert Done(c) by {
      DoneWhenSignalled(s.ch, id);
    }
  }

  /** Outside unwinding, a task whose `Sender` has signalled is done. */
  lemma DoneWhenSignalled<C, R>(ch: Channel<C, R>, id: nat)
    requires Core(ch) && !Panicked(ch.worker) && id < |ch.calls| && ch.calls[id].signalled
    ensures Done(ch.calls[id])
  {
    match ch.worker
    case Idle =>
      assert id < |ch.log|;
    case Stopped =>
    case Holding(cur) =>
      assert id < cur;
    case Sent(cur) =>
      assert id < cur;
  }

  /** While the loop unwinds, signal after write does not hold: dropping an
      unsent task drops its `Sender` first, because `Task` declares
      `event_fd_sender` before `result_channel` (task.rs lines 13-17), so the
      notifier can wake the caller while the slot is still empty and neither
      written nor dropped. Task 0 gets eventfd 3, the worker takes it and the
      command panics; the first unwinding step signals 3, and the caller's
      `try_recv` finds nothing yet. */
  function UnwindTrace(): seq<Action<string, string>> {
    [Submit("A", 3), Dequeue, Panic, Unwind, Notify(0)]
  }

  lemma WakeBeforeDropWhileUnwinding()
    ensures var r := Run(SharedFd, System(NewChannel<string, string>(0), map[]), UnwindTrace());
            && r.Some?
            && Panicked(r.value.ch.worker)
            && |r.value.ch.calls| == 1
            && r.value.ch.calls[0].signalled
            && r.value.ch.calls[0].slot == Empty
            && r.value.ch.calls[0].host == Returned(Err(NoResultYet))
  {
    var t := UnwindTrace();
    var s0 := System(NewChannel<string, string>(0), map[]);
    var s1 := Next(SharedFd, s0, t[0]).value;
    assert s1.kernel == map[3 := 0];
    var s2 := Next(SharedFd, s1, t[1]).value;
    var s3 := Next(SharedFd, s2, t[2]).value;
    assert s3.ch.worker == Unwinding([0]);
    var s4 := Next(SharedFd, s3, t[3]).value;
    assert s4.kernel == map[3 := 1];
    var s5 := Next(SharedFd, s4, t[4]).value;
    assert Run(SharedFd, s4, t[4..]) == Some(s5);
    assert Run(SharedFd, s3, t[3..]) == Run(SharedFd, s4, t[4..]);
    assert Run(SharedFd, s2, t[2..]) == Run(SharedFd, s3, t[3..]);
    assert Run(SharedFd, s1, t[1..]) == Run(SharedFd, s2, t[2..]);
    assert Run(SharedFd, s0, t) == Run(SharedFd, s1, t[1..]);
  }

  /** FIFO, one at a time: the worker dequeues the oldest task it has not
      run yet, and only once every earlier task is done. */
  lemma DequeueIsFifo<C, R>(mode: Ownership, s: System<C, R>)
    requires Core(s.ch) && Next(mode, s, Dequeue).Some?
    ensures var s' := Next(mode, s, Dequeue).value;
            && s'.ch.log == s.ch.log + [|s.ch.log|]
            && s'.ch.worker == Holding(|s.ch.log|)
            && s'.ch.calls == s.ch.calls
            && forall i :: 0 <= i < |s.ch.log| ==> Done(s.ch.calls[i])
  {
  }

  /** Each `Sender` is dropped at most once, and dropping it is exactly the
      eventfd write: a step turns at most one task's flag on, never off, and
      the kernel change of that step is the sender's release. */
  lemma SenderReleasedOnce<C, R>(mode: Ownership, s: System<C, R>, a: Action<C, R>, i: nat)
    requires Core(s.ch) && Next(mode, s, a).Some? && i < |s.ch.calls|
    ensures var s' := Next(mode, s, a).value;
            && |s.ch.calls| <= |s'.ch.calls|
            && (s.ch.calls[i].signalled ==> s'.ch.calls[i].signalled)
            && (!s.ch.calls[i].signalled && s'.ch.calls[i].signalled ==>
                  && s'.kernel == ReleaseSender(mode, s.kernel, s.ch.calls[i])
                  && forall j :: 0 <= j < |s.ch.calls| && j != i ==> s'.ch.calls[j].signalled == s.ch.calls[j].signalled)
  {
  }

  /** ... and at least once: when the loop has ended, normally or by
      unwinding, every task's `Sender` has signalled and its slot is settled. */
  lemma EverySenderReleasedAtEnd<C, R>(ch: Channel<C, R>, i: nat)
    requires Core(ch) && (ch.worker.Stopped? || ch.worker.Unwound?) && i < |ch.calls|
    ensures ch.calls[i].signalled && !ch.calls[i].slot.Empty?
  {
  }

  /** The loop ends exactly when `recv` yields `None`: the worker is idle,
      the queue is empty and the caller, the queue's only sender, is gone.
      While tasks are queued the worker can always take the next one. The
      first two clauses restate the guards of `Terminate` and `Dequeue`; the
      third is what the invariant adds: a stopped loop has run every task. */
  lemma TerminateOnlyWhenDrained<C, R>(mode: Ownership, s: System<C, R>)
    requires Core(s.ch)
    ensures Next(mode, s, Terminate).Some? <==> s.ch.worker.Idle? && s.ch.queue == [] && !s.ch.callerAlive
    ensures s.ch.worker.Idle? && s.ch.queue != [] ==> Next(mode, s, Dequeue).Some?
    ensures s.ch.worker.Stopped? ==> s.ch.queue == [] && !s.ch.callerAlive && |s.ch.log| == |s.ch.calls|
  {
  }

  /** No caller waits forever: while a caller waits, either its notifier can
      return or the worker can make a step towards signalling it, also while
      the worker unwinds after a panic. */
  lemma NoHang<C, R>(s: System<C, R>, id: nat)
    requires Inv(s) && id < |s.ch.calls| && s.ch.calls[id].host.Waiting?
    ensures || Next(SharedFd, s, Notify(id)).Some?
            || s.ch.worker.Holding?
            || Next(SharedFd, s, Dequeue).Some?
            || Next(SharedFd, s, Signal).Some?
            || Next(SharedFd, s, Unwind).Some?
  {
    var c := s.ch.calls[id];
    if !c.signalled && s.ch.worker.Idle? {
      assert !Done(c);
      assert id >= |s.ch.log|;
    }
  }

  /** `req_response` errors before the notifier: if the eventfd cannot be
      created, or the worker's receiver is gone, the caller gets the error
      at once, no task is added and the kernel is as before. */
  lemma SubmitFailsCleanly<C, R>(mode: Ownership, s: System<C, R>, command: C, rv: int)
    requires Next(mode, s, Submit(command, rv)).Some?
    requires rv < 0 || ReceiverGone(s.ch.worker)
    ensures var s' := Next(mode, s, Submit(command, rv)).value;
            && s'.ch.calls == s.ch.calls && s'.ch.queue == s.ch.queue && s'.kernel == s.kernel
            && s'.ch.early == s.ch.early + [if rv < 0 then OsError else ChannelClosed]
  {
    if rv >= 0 {
      var s' := Next(mode, s, Submit(command, rv)).value;
      assert s'.kernel.Keys == s.kernel.Keys;
    }
  }

  /** A successful submit appends one waiting task with a fresh eventfd at
      zero to the back of the queue. */
  lemma SubmitEnqueues<C, R>(mode: Ownership, s: System<C, R>, command: C, rv: int)
    requires Next(mode, s, Submit(command, rv)).Some?
    requires rv >= 0 && !ReceiverGone(s.ch.worker)
    ensures var s' := Next(mode, s, Submit(command, rv)).value;
            && s'.ch.calls == s.ch.calls + [Call(command, rv, Empty, false, Waiting)]
            && s'.ch.queue == s.ch.queue + [|s.ch.calls|]
            && rv !in s.kernel && s'.kernel == s.kernel[rv := 0]
  {
  }

  /** A result whose caller is gone is logged, and the loop goes on: the
      sender is still dropped and the worker returns to `recv`. */
  lemma LostResultLogged<C, R>(mode: Ownership, s: System<C, R>, r: R)
    requires Core(s.ch) && s.ch.worker.Holding? && s.ch.calls[s.ch.worker.id].host.Returned?
    ensures Next(mode, s, Complete(r)).Some?
    ensures var s' := Next(mode, s, Complete(r)).value;
            && s'.ch.lost == s.ch.lost + [s.ch.worker.id]
            && Next(mode, s', Signal).Some? && Next(mode, s', Signal).value.ch.worker.Idle?
  {
  }

  // ---------------------------------------------------------------------
  // Descriptor reuse with raw senders

  /** A caller whose notifier raises, then a second call on the same channel:
      task 0 gets eventfd 3, its notifier raises and `req_response` returns,
      closing 3 while task 0 is still queued; task 1 is then given the lowest
      free number, 3 again; the worker finishes task 0 and its sender writes
      to 3, which now belongs to task 1; task 1's notifier wakes. */
  function FdReuseTrace(): seq<Action<string, string>> {
    [Submit("A", 3), NotifierFails(0), Submit("B", 3), Dequeue, Complete("result of A"), Signal, Notify(1)]
  }

  /** As written, the trace runs without any panic and the second caller reads
      an empty slot: `try_recv` fails although its task is still queued and
      the worker is healthy. */
  lemma EarlyWakeAsWritten()
    ensures var r := Run(RawFd, System(NewChannel<string, string>(0), map[]), FdReuseTrace());
            && r.Some?
            && !Panicked(r.value.ch.worker)
            && |r.value.ch.calls| == 2
            && r.value.ch.calls[1].slot == Empty
            && r.value.ch.calls[1].host == Returned(Err(NoResultYet))
  {
    var t := FdReuseTrace();
    var s0 := System(NewChannel<string, string>(0), map[]);
    var s1 := Next(RawFd, s0, t[0]).value;
    assert s1.kernel == map[3 := 0];
    var s2 := Next(RawFd, s1, t[1]).value;
    assert s2.kernel == map[];
    var s3 := Next(RawFd, s2, t[2]).value;
    assert s3.kernel == map[3 := 0] && s3.ch.queue == [0, 1];
    var s4 := Next(RawFd, s3, t[3]).value;
    var s5 := Next(RawFd, s4, t[4]).value;
    var s6 := Next(RawFd, s5, t[5]).value;
    assert s6.kernel == map[3 := 1];
    var s7 := Next(RawFd, s6, t[6]).value;
    assert Run(RawFd, s6, t[6..]) == Some(s7);
    assert Run(RawFd, s5, t[5..]) == Run(RawFd, s6, t[6..]);
    assert Run(RawFd, s4, t[4..]) == Run(RawFd, s5, t[5..]);
    assert Run(RawFd, s3, t[3..]) == Run(RawFd, s4, t[4..]);
    assert Run(RawFd, s2, t[2..]) == Run(RawFd, s3, t[3..]);
    assert Run(RawFd, s1, t[1..]) == Run(RawFd, s2, t[2..]);
    assert Run(RawFd, s0, t) == Run(RawFd, s1, t[1..]);
  }

  /** With shared ownership the same trace cannot happen: eventfd 3 stays open
      while task 0's sender exists, so the kernel never hands 3 out again. */
  lemma SharedFdPreventsReuse()
    ensures Run(SharedFd, System(NewChannel<string, string>(0), map[]), FdReuseTrace()) == None
  {
    var t := FdReuseTrace();
    var s0 := System(NewChannel<string, string>(0), map[]);
    var s1 := Next(SharedFd, s0, t[0]).value;
    var s2 := Next(SharedFd, s1, t[1]).value;
    assert 3 in s2.kernel;
    assert Next(SharedFd, s2, t[2]) == None;
    assert Run(SharedFd, s1, t[1..]) == Run(SharedFd, s2, t[2..]);
    assert Run(SharedFd, s0, t) == Run(SharedFd, s1, t[1..]);
  }
}
