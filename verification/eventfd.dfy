/** Linux eventfd descriptors as the bridge uses them (rust/src/eventfd.rs).

    The kernel is a map from the numbers of the open eventfds to their
    counters. An `EventFd` owns its descriptor; a `Sender` holds only the
    descriptor's number and writes 1 to it when it is dropped. */
module EventFds {
  import opened Outcomes

  /** A descriptor number. */
  type Fd = nat

  /** The open eventfds and their 64-bit counters. */
  type Kernel = map<Fd, nat>

  datatype EventFd = EventFd(fd: Fd)
  datatype Sender = Sender(fd: Fd)

  /** `make_eventfd`: `rv` is what `eventfd(0, EFD_CLOEXEC)` returned. A
      negative value is the OS error; otherwise `rv` is a number the kernel
      did not have open, and the new eventfd starts at 0. */
  function MakeEventfd(k: Kernel, rv: int): (r: Result<(Fd, Kernel)>)
    requires rv >= 0 ==> rv !in k
    ensures r.Err? <==> rv < 0
    ensures r.Err? ==> r.error == OsError
    ensures r.Ok? ==> r.value.0 == rv && r.value.0 !in k
    ensures r.Ok? ==> r.value.1.Keys == k.Keys + {r.value.0} && r.value.1[r.value.0] == 0
    ensures r.Ok? ==> forall f :: f in k ==> r.value.1[f] == k[f]
  {
    if rv < 0 then Err(OsError) else Ok((rv, k[rv := 0]))
  }

  /** `EventFd::new`. */
  function NewEventFd(k: Kernel, rv: int): (r: Result<(EventFd, Kernel)>)
    requires rv >= 0 ==> rv !in k
    ensures r.Ok? <==> MakeEventfd(k, rv).Ok?
    ensures r.Ok? ==> r.value.0.fd == MakeEventfd(k, rv).value.0 && r.value.1 == MakeEventfd(k, rv).value.1
  {
    var (fd, k') :- MakeEventfd(k, rv);
    Ok((EventFd(fd), k'))
  }

  /** `EventFd::make_sender`: a sender for the same descriptor. */
  function MakeSender(e: EventFd): (s: Sender)
    ensures s.fd == AsRawFd(e)
  {
    Sender(e.fd)
  }

  /** `EventFd::as_raw_fd`: the number handed to the host notifier. */
  function AsRawFd(e: EventFd): Fd {
    e.fd
  }

  /** `make_pair`: a new eventfd and a sender bound to it. */
  function MakePair(k: Kernel, rv: int): (r: Result<(EventFd, Sender, Kernel)>)
    requires rv >= 0 ==> rv !in k
    ensures r.Ok? <==> rv >= 0
    ensures r.Ok? ==> r.value.1.fd == AsRawFd(r.value.0) && r.value.0.fd !in k
    ensures r.Ok? ==> r.value.2 == NewEventFd(k, rv).value.1
  {
    var (e, k') :- NewEventFd(k, rv);
    Ok((e, Sender(e.fd), k'))
  }

  /** `Drop for Sender`: `eventfd_write(fd, 1)`, an 8-byte `write`. A write
      to a closed number fails, and the failure is ignored. The kernel here
      holds only eventfds, so a number the process has reopened as a socket,
      pipe or file counts as closed: the 8 bytes such a write would put into
      that descriptor are not represented. */
  function DropSender(k: Kernel, s: Sender): (k': Kernel)
    ensures k'.Keys == k.Keys
    ensures forall f :: f in k && f != s.fd ==> k'[f] == k[f]
    ensures s.fd in k ==> k'[s.fd] == k[s.fd] + 1
  {
    if s.fd in k then k[s.fd := k[s.fd] + 1] else k
  }

  /** A blocking `eventfd_read` as the default notifier does it: it returns
      once the counter is positive, yields the counter and resets it. */
  function Read(k: Kernel, fd: Fd): (r: (nat, Kernel))
    requires fd in k && k[fd] > 0
    ensures r.0 == k[fd] && r.1.Keys == k.Keys && r.1[fd] == 0
    ensures forall f :: f in k && f != fd ==> r.1[f] == k[f]
  {
    (k[fd], k[fd := 0])
  }

  /** Dropping the `EventFd` (its `OwnedFd`) closes the descriptor. */
  function Close(k: Kernel, fd: Fd): (k': Kernel)
    ensures k'.Keys == k.Keys - {fd}
    ensures forall f :: f in k' ==> k'[f] == k[f]
  {
    k - {fd}
  }

  /** The protocol on one descriptor: a new eventfd, its sender dropped once,
      and the notifier's read sees exactly that one signal. */
  lemma OneSignalOneRead(k: Kernel, rv: int)
    requires rv >= 0 && rv !in k
    ensures var (e, s, k1) := MakePair(k, rv).value;
            var k2 := DropSender(k1, s);
            AsRawFd(e) in k2 && k2[AsRawFd(e)] == 1 && Read(k2, AsRawFd(e)).0 == 1
  {
  }

  /** Signals on one descriptor add up: `n` dropped senders leave the counter
      `n` higher, and other descriptors untouched. */
  lemma {:induction false} SignalsAccumulate(k: Kernel, fd: Fd, n: nat)
    requires fd in k
    ensures var k' := DropMany(k, fd, n);
            k'.Keys == k.Keys && k'[fd] == k[fd] + n
            && forall f :: f in k && f != fd ==> k'[f] == k[f]
  {
    if n > 0 {
      SignalsAccumulate(k, fd, n - 1);
    }
  }

  /** `n` senders for `fd`, dropped one after the other. */
  function DropMany(k: Kernel, fd: Fd, n: nat): Kernel {
    if n == 0 then k else DropSender(DropMany(k, fd, n - 1), Sender(fd))
  }
}
