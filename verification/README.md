# no-asyncio-nats: the call bridge and the value converters, in Dafny

no-asyncio-nats exposes a NATS client, written in Rust on tokio, to Python
hosts that do not use asyncio. This project models two parts of its core.

- **The call bridge** (`rust/src/task.rs`, `rust/src/eventfd.rs`).
  - A `TaskCaller` puts a task on an unbounded queue. The task holds a
    command, a one-shot result slot and an eventfd `Sender`.
  - The caller then calls the host notifier with the eventfd and reads the
    slot without blocking.
  - A worker loop (`run_task_loop!`) takes tasks one at a time. For each
    task it sends the result and only then drops the `Sender`, which writes
    1 to the eventfd.
  - `TaskSpawner::spawn_blocking` uses the same protocol for a single
    one-off computation.
  - Module `Bridge` models one queue and its worker as a guarded state
    machine. `Next` is one host or worker step; `Run` is a sequence of steps.
  - Module `Runtime` models several bridges that share one kernel:
    `TaskCaller::new` with a spawned loop, `from_other` and `spawn_blocking`.
  - Module `EventFds` models the kernel's eventfd counters, keyed by
    descriptor number.
- **The converters** (`rust/src/bindings/converters/`).
  - Python values (`PyValues.Value`) become JetStream stream and consumer
    configs (`StreamConfigs`, `ConsumerConfigs`).
  - Python values and NATS header maps convert in both directions
    (`Headers`).
  - A received message becomes a dict (`Messages`).
  - Both config converters follow one pattern: start from the default
    config, then, key by key in a fixed order, parse each key present and
    overwrite the one field it owns. The first failure aborts the whole
    conversion. `Overrides.Apply` is that fold. Its lemmas give each
    converter three properties: all or nothing, the first error wins, and
    absent keys keep their defaults.

Eventfd ownership is modelled both ways, through `Bridge.Ownership`:

- `RawFd`: the code as written. The `Sender` holds only the descriptor
  number. The caller's `EventFd` closes the descriptor when `req_response`
  returns.
- `SharedFd`: the descriptor stays open until both the caller's `EventFd`
  and the task's `Sender` are gone.

The protocol properties are proved for `SharedFd`. `RawFd` breaks them; see
"## Findings".

Signal after write is meant to guarantee that once the notifier returns,
`try_recv` finds the result. The code breaks that promise in one case: a
command panics and the loop unwinds, dropping every task it still holds
unsent. The caller then gets one of two errors:

- `Err(NoResultYet)`. `Task` declares `event_fd_sender` before
  `result_channel` (rust/src/task.rs:13-17). So dropping an unsent task
  signals the eventfd before the one-shot sender is dropped. A caller woken
  in between finds the slot still empty.
  `Bridge.WakeBeforeDropWhileUnwinding` proves a trace of this.
- `Err(ResultDropped)`, when the caller reads after the slot is dropped.

So while the loop unwinds, the invariant "a positive counter means the slot
is written or dropped" does not hold. The model follows the code. This is
why `Bridge.NotifySeesResult` and `Bridge.DoneWhenSignalled` exclude a
panicked worker.

## Model

| member | source | states |
|---|---|---|
| EventFds.MakeEventfd | rust/src/eventfd.rs:41-48 | a negative `eventfd` return is `OsError` and opens nothing; otherwise the new descriptor was not open before, starts at counter 0, and no other counter changes |
| EventFds.NewEventFd | rust/src/eventfd.rs:9-11 | `EventFd::new` succeeds exactly when `make_eventfd` does and owns the descriptor it opened |
| EventFds.MakeSender | rust/src/eventfd.rs:13-15 | the sender is bound to the descriptor `as_raw_fd` hands to the notifier |
| EventFds.MakePair | rust/src/eventfd.rs:34-38 | `make_pair` fails exactly when the eventfd cannot be made; otherwise the sender signals the pair's own descriptor, which was not open before |
| EventFds.DropSender | rust/src/eventfd.rs:26-32 | dropping a sender adds exactly 1 to its descriptor's counter and touches no other descriptor; a write to a closed number changes nothing |
| EventFds.Read | src/no_asyncio_nats/__init__.py:7 | the notifier's read returns only on a positive counter, yields it and resets it to 0, leaving the other descriptors alone |
| EventFds.Close | rust/src/eventfd.rs:4-6 | dropping the owning `EventFd` removes exactly that descriptor |
| EventFds.OneSignalOneRead | rust/src/eventfd.rs:34-38 | on a new pair, one sender drop makes the notifier's read return exactly 1 |
| EventFds.SignalsAccumulate | rust/src/eventfd.rs:26-32 | `n` sender drops on one descriptor raise its counter by exactly `n` and leave the others alone |
| Bridge.TryRecv | rust/src/task.rs:67 | `try_recv` succeeds exactly on a written slot and returns its result; an empty slot is `NoResultYet` |
| Bridge.NewChannelInv | rust/src/task.rs:46-54 | a new caller with an idle loop and an empty queue satisfies the bridge invariant |
| Bridge.CorePreserved | rust/src/task.rs:60-92 | every host or worker step keeps the queue invariant, whoever owns the eventfds: FIFO log, done-before/untouched-after shape, honest slots |
| Bridge.InvPreserved | rust/src/task.rs:60-92 | with shared ownership every step also keeps each owned eventfd open, private to its task, at counter 1 exactly when its sender has signalled |
| Bridge.RunPreservesInv | rust/src/task.rs:71-92 | any sequence of steps keeps the invariant |
| Bridge.ReachableInv | rust/src/task.rs:46-92 | every state reachable from a new caller satisfies the invariant |
| Bridge.HeldFdsOpen | rust/src/eventfd.rs:22-24 | the descriptors a bridge's tasks own are open in the kernel |
| Bridge.TracksOnlyHeld | rust/src/eventfd.rs:22-32 | the kernel part of the invariant depends only on the counters of the bridge's own descriptors |
| Bridge.HeldFdsWithin | rust/src/task.rs:60-68 | a step that only retires tasks, or adds tasks with given descriptors, owns no other descriptor |
| Bridge.StepStaysInOwnFds | rust/src/eventfd.rs:22-32 | with shared ownership a step writes, reads or closes only descriptors its bridge owns, and newly owns only a descriptor the kernel just opened |
| Bridge.NotifySeesResult | rust/src/task.rs:78-89 | signal after write: when the notifier wakes a waiting caller of a healthy loop, the slot holds the sent result and the caller gets `Ok` of it |
| Bridge.DoneWhenSignalled | rust/src/task.rs:78-89 | outside unwinding, a task whose sender has signalled has a settled result slot |
| Bridge.WakeBeforeDropWhileUnwinding | rust/src/task.rs:13-17 | while the loop unwinds, a dropped task signals its eventfd before its slot closes, so a woken caller can read an empty slot and get `NoResultYet` |
| Bridge.DequeueIsFifo | rust/src/task.rs:73-80 | the worker next takes the task whose number is the length of its log, so tasks run as 0, 1, 2, … in enqueue order, and every earlier task is done |
| Bridge.SenderReleasedOnce | rust/src/eventfd.rs:26-32 | a sender's signalled flag is never reset, and a step that sets it changes the kernel by exactly that sender's release and sets no other flag |
| Bridge.EverySenderReleasedAtEnd | rust/src/task.rs:71-92 | after the loop ends, normally or by unwinding, every task's sender has signalled and its slot is settled |
| Bridge.TerminateOnlyWhenDrained | rust/src/task.rs:73-76 | `recv` yields `None` exactly when the worker is idle, the queue is empty and the caller is gone; while tasks wait the worker can always take one |
| Bridge.NoHang | rust/src/task.rs:66 | a waiting caller can be woken, or the worker can step towards signalling it, also while unwinding |
| Bridge.SubmitFailsCleanly | rust/src/task.rs:61-64 | if the eventfd cannot be made, or the receiver is gone, the caller gets `OsError` or `ChannelClosed`; nothing is enqueued; the kernel is unchanged |
| Bridge.SubmitEnqueues | rust/src/task.rs:61-64 | a successful submit appends one waiting task with a new descriptor at counter 0 to the back of the queue |
| Bridge.LostResultLogged | rust/src/task.rs:82-89 | a result whose caller is gone is recorded as lost, the sender is still dropped, and the loop returns to `recv` |
| Bridge.EarlyWakeAsWritten | rust/src/task.rs:60-68 | as written, a trace with no panic wakes the second caller early, and it reads an empty slot |
| Bridge.SharedFdPreventsReuse | rust/src/eventfd.rs:22-32 | with shared ownership the same trace cannot happen: the descriptor is not handed out again |
| Runtime.Connect | rust/src/task.rs:46-54 | a new bridge is added and every existing bridge and the kernel stay as they were |
| Runtime.FromOther | rust/src/task.rs:56-58 | `from_other` adds a fresh, empty, independent queue that calls the parent's notifier |
| Runtime.SpawnBlocking | rust/src/task.rs:120-132 | a failed `make_pair` is `OsError` and spawns nothing; otherwise a one-task bridge runs the computation with a new descriptor at 0 under the spawner's notifier |
| Runtime.Step | rust/src/task.rs:107-113 | a step of one spawned loop or its caller is enabled exactly when it is for that bridge alone, and leaves every other bridge unchanged |
| Runtime.ConnectKeepsInv | rust/src/task.rs:46-54 | adding a bridge keeps the runtime invariant |
| Runtime.FromOtherKeepsInv | rust/src/task.rs:56-58 | `from_other` keeps the runtime invariant |
| Runtime.SpawnBlockingKeepsInv | rust/src/task.rs:120-132 | `spawn_blocking` keeps the runtime invariant: its descriptor belongs to no other bridge |
| Runtime.StepKeepsOthers | rust/src/eventfd.rs:22-32 | with shared ownership a step of one bridge leaves the counters of every other bridge's descriptors alone, and the bridges stay disjoint |
| Runtime.StepKeepsInv | rust/src/task.rs:60-92 | every bridge step keeps the invariant of the whole runtime |
| Runtime.RtNextKeepsInv | rust/src/task.rs:107-136 | every runtime operation keeps the runtime invariant |
| Runtime.RtRunKeepsInv | rust/src/task.rs:107-136 | any sequence of runtime operations keeps the runtime invariant |
| Runtime.ReachableWakesSeeResults | rust/src/task.rs:66-67 | in every reachable runtime, a notifier that wakes a caller of a healthy bridge finds that task's result |
| Runtime.RunOnLast | rust/src/task.rs:123-132 | steps of the newest bridge in the runtime behave as steps of that bridge alone |
| Runtime.OneOffDelivers | rust/src/task.rs:123-135 | a one-off computation sends its result, then signals; the caller reads `Ok` of the result; the future ends; the descriptor is closed |
| Runtime.SpawnBlockingDelivers | rust/src/task.rs:115-136 | `spawn_blocking` returns the computed result, leaves the other bridges alone and leaves the kernel as before the call |
| Overrides.ApplyOutcome | rust/src/bindings/converters/jetstream/consumer.rs:12-132 | the key-by-key override succeeds exactly when every present key parses, and otherwise fails with the first failing key's error |
| Overrides.ApplyKeepsAbsent | rust/src/bindings/converters/jetstream/consumer.rs:12-132 | a key absent from the dict leaves its field as in the base config |
| Overrides.ApplySetsPresent | rust/src/bindings/converters/jetstream/consumer.rs:12-132 | a present key's field ends up holding exactly what its step parsed, whatever the other keys |
| Overrides.ApplyKeeps | rust/src/bindings/converters/jetstream/stream.rs:18-203 | a part of the config that no step writes is the same after the whole override |
| ConsumerConfigs.ParseDeliverPolicy | rust/src/bindings/converters/jetstream/consumer.rs:135-145 | accepts exactly "all", "last", "new", "last_per_subject"; any other string fails with "Invalid deliver policy: " and the string |
| ConsumerConfigs.DeliverPolicyName | rust/src/bindings/converters/jetstream/consumer.rs:135-145 | every deliver policy has a name that parses back to it |
| ConsumerConfigs.ParseAckPolicy | rust/src/bindings/converters/jetstream/consumer.rs:147-156 | accepts exactly "explicit", "none", "all"; other strings fail with "Invalid ack policy: " and the string |
| ConsumerConfigs.AckPolicyName | rust/src/bindings/converters/jetstream/consumer.rs:147-156 | every ack policy has a name that parses back to it |
| ConsumerConfigs.ParseReplayPolicy | rust/src/bindings/converters/jetstream/consumer.rs:158-166 | accepts exactly "instant", "original"; other strings fail with "Invalid replay policy: " and the string |
| ConsumerConfigs.ReplayPolicyName | rust/src/bindings/converters/jetstream/consumer.rs:158-166 | every replay policy has a name that parses back to it |
| ConsumerConfigs.ParsePriorityPolicy | rust/src/bindings/converters/jetstream/consumer.rs:168-178 | accepts exactly "overflow", "pinned_client", "prioritized", "none"; other strings fail with "Invalid priority policy: " and the string |
| ConsumerConfigs.PriorityPolicyName | rust/src/bindings/converters/jetstream/consumer.rs:168-178 | every priority policy has a name that parses back to it |
| ConsumerConfigs.StepsFramed | rust/src/bindings/converters/jetstream/consumer.rs:12-130 | each key's block writes only the field that key owns |
| ConsumerConfigs.StepFramed | rust/src/bindings/converters/jetstream/consumer.rs:12-130 | one key's block leaves every other key's field as it was |
| ConsumerConfigs.StepsIndependent | rust/src/bindings/converters/jetstream/consumer.rs:12-130 | whether a key's block fails, its error and the value it stores do not depend on the config it updates |
| ConsumerConfigs.FieldsCoverConfig | rust/src/bindings/converters/jetstream/consumer.rs:9-132 | the keys own every field of the config: two configs that agree on every key's field are equal |
| ConsumerConfigs.ConvertOkIff | rust/src/bindings/converters/jetstream/consumer.rs:12-132 | `py_to_consumer_config` succeeds exactly when every present key parses |
| ConsumerConfigs.ConvertFirstError | rust/src/bindings/converters/jetstream/consumer.rs:12-132 | a failing conversion reports the first present key, in reading order, that fails to parse |
| ConsumerConfigs.ConvertFields | rust/src/bindings/converters/jetstream/consumer.rs:12-132 | each field holds its key's parsed value when present and the default otherwise |
| ConsumerConfigs.EmptyDictGivesDefault | rust/src/bindings/converters/jetstream/consumer.rs:9-132 | an empty dict gives exactly the default pull-consumer config |
| ConsumerConfigs.SampleFrequencyIsU8 | rust/src/bindings/converters/jetstream/consumer.rs:79-81 | `sample_frequency` outside 0..255 fails the conversion; an accepted one is stored unchanged |
| ConsumerConfigs.AckWaitIsDuration | rust/src/bindings/converters/jetstream/consumer.rs:58-59 | `ack_wait` must be a non-negative `timedelta`; a negative one fails the conversion, and an accepted one is stored unchanged |
| ConsumerConfigs.DeliverPolicyFromString | rust/src/bindings/converters/jetstream/consumer.rs:34-37 | a present `deliver_policy` must name a policy, and the config then holds that policy |
| StreamConfigs.ParseRetention | rust/src/bindings/converters/jetstream/stream.rs:30-38 | accepts exactly "limits", "interest", "workqueue"; other strings fail with "Invalid retention policy: " and the string |
| StreamConfigs.RetentionName | rust/src/bindings/converters/jetstream/stream.rs:30-38 | every retention policy has a name that parses back to it |
| StreamConfigs.ParseStorage | rust/src/bindings/converters/jetstream/stream.rs:40-47 | accepts exactly "file", "memory"; other strings fail with "Invalid storage type: " and the string |
| StreamConfigs.StorageName | rust/src/bindings/converters/jetstream/stream.rs:40-47 | every storage type has a name that parses back to it |
| StreamConfigs.ParseDiscard | rust/src/bindings/converters/jetstream/stream.rs:49-56 | accepts exactly "new", "old"; other strings fail with "Invalid discard policy: " and the string |
| StreamConfigs.DiscardName | rust/src/bindings/converters/jetstream/stream.rs:49-56 | every discard policy has a name that parses back to it |
| StreamConfigs.ParseCompression | rust/src/bindings/converters/jetstream/stream.rs:62-69 | "none" gives no compression and "s2" gives S2; other strings fail with "Invalid compression policy " (no colon) and the string |
| StreamConfigs.CompressionName | rust/src/bindings/converters/jetstream/stream.rs:62-69 | every compression setting has a name that parses back to it |
| StreamConfigs.ParsePersistenceMode | rust/src/bindings/converters/jetstream/stream.rs:329-337 | accepts exactly "default", "async"; other strings fail with "Invalid persistence mode: " and the string |
| StreamConfigs.PersistenceModeName | rust/src/bindings/converters/jetstream/stream.rs:329-337 | every persistence mode has a name that parses back to it |
| StreamConfigs.PySubjectTransform | rust/src/bindings/converters/jetstream/stream.rs:209-219 | succeeds exactly on a mapping with string `source` and `destination`, and holds those two strings |
| StreamConfigs.PyExternal | rust/src/bindings/converters/jetstream/stream.rs:279-289 | needs a string `api_prefix` and a present `delivery_prefix` that is a string or `None`; stores the `api_prefix` string, and the `delivery_prefix` string or `None` |
| StreamConfigs.PyConsumerLimits | rust/src/bindings/converters/jetstream/stream.rs:291-301 | needs a timedelta `inactive_threshold` and an `i64` `max_ack_pending` |
| StreamConfigs.PyRepublish | rust/src/bindings/converters/jetstream/stream.rs:303-315 | needs string `source` and `destination` and a present `headers_only`, read by truthiness |
| StreamConfigs.PyPlacement | rust/src/bindings/converters/jetstream/stream.rs:317-327 | needs a present `cluster` (string or `None`) and a list of strings `tags`; stores the `cluster` string or `None`, and the tags in order |
| StreamConfigs.OptionalEntry | rust/src/bindings/converters/jetstream/stream.rs:233-256 | an absent optional key of a source is `None`; a present one must convert |
| StreamConfigs.PySource | rust/src/bindings/converters/jetstream/stream.rs:221-277 | succeeds exactly on a dict with a string `name` whose present optional keys all convert (a missing name fails with "JetStream Source must have a name"); stores the name and each optional field as converted, `None` when absent; absent `subject_transforms` give an empty list |
| StreamConfigs.BadStartSequenceFailsSource | rust/src/bindings/converters/jetstream/stream.rs:233-236 | a named source whose `start_sequence` is -1 fails with the `u64` range error |
| StreamConfigs.PySources | rust/src/bindings/converters/jetstream/stream.rs:165-172 | `sources` converts all or nothing: every element must be a valid source, and the list keeps their order |
| StreamConfigs.TransformRoundTrip | rust/src/bindings/converters/jetstream/stream.rs:209-219 | the dict a host writes for a subject transform converts back to it |
| StreamConfigs.ExternalRoundTrip | rust/src/bindings/converters/jetstream/stream.rs:279-289 | the dict for an external converts back to it |
| StreamConfigs.LimitsRoundTrip | rust/src/bindings/converters/jetstream/stream.rs:291-301 | the dict for consumer limits whose `max_ack_pending` fits an `i64` converts back to them |
| StreamConfigs.RepublishRoundTrip | rust/src/bindings/converters/jetstream/stream.rs:303-315 | the dict for a republish converts back to it |
| StreamConfigs.PlacementRoundTrip | rust/src/bindings/converters/jetstream/stream.rs:317-327 | the dict for a placement converts back to it |
| StreamConfigs.SourceRoundTrip | rust/src/bindings/converters/jetstream/stream.rs:221-277 | the dict for a source whose start sequence fits a `u64` converts back to it |
| StreamConfigs.SourceDictEntries | rust/src/bindings/converters/jetstream/stream.rs:233-266 | the source dict holds `name` and `subject_transforms`, and holds each optional key exactly when the source has that field |
| StreamConfigs.ReadSourceDict | rust/src/bindings/converters/jetstream/stream.rs:221-277 | a dict whose entries read back as a source's fields converts to that source |
| StreamConfigs.StepsFramed | rust/src/bindings/converters/jetstream/stream.rs:18-203 | each key's block writes only the field that key owns |
| StreamConfigs.StepFramed | rust/src/bindings/converters/jetstream/stream.rs:18-203 | one key's block leaves every other key's field as it was |
| StreamConfigs.StepsIndependent | rust/src/bindings/converters/jetstream/stream.rs:18-203 | whether a key's block fails, its error and the value it stores do not depend on the config it updates |
| StreamConfigs.StepsKeepName | rust/src/bindings/converters/jetstream/stream.rs:18-203 | no optional key's block touches the stream name |
| StreamConfigs.StepKeepsName | rust/src/bindings/converters/jetstream/stream.rs:18-203 | one key's block leaves the stream name as it was |
| StreamConfigs.ConvertOkIff | rust/src/bindings/converters/jetstream/stream.rs:12-205 | `py_to_stream_config` succeeds exactly when `name` is a string and every present optional key parses |
| StreamConfigs.StepOkAnyBase | rust/src/bindings/converters/jetstream/stream.rs:18-203 | a key's block fails, and stores, the same way whatever config it updates |
| StreamConfigs.ConvertFirstError | rust/src/bindings/converters/jetstream/stream.rs:12-205 | the error is the missing name, then the unreadable name, then the first failing optional key in reading order |
| StreamConfigs.ConvertName | rust/src/bindings/converters/jetstream/stream.rs:12-16 | a converted config carries the dict's `name` |
| StreamConfigs.ApplyFields | rust/src/bindings/converters/jetstream/stream.rs:18-203 | after the name is read, each field holds its key's parsed value when present and its base value otherwise |
| StreamConfigs.ConvertFields | rust/src/bindings/converters/jetstream/stream.rs:10-203 | each field holds its key's parsed value when present and the default otherwise |
| StreamConfigs.BaseFields | rust/src/bindings/converters/jetstream/stream.rs:10-16 | reading the name changes no field that an optional key owns |
| StreamConfigs.ConvertKey | rust/src/bindings/converters/jetstream/stream.rs:18-203 | a successful conversion parsed every present key |
| StreamConfigs.KeyNameIsNotName | rust/src/bindings/converters/jetstream/stream.rs:12-16 | `name` is read on its own and is not one of the optional keys |
| StreamConfigs.NameOnlyGivesDefault | rust/src/bindings/converters/jetstream/stream.rs:10-16 | a dict holding only a name gives the default config with that name |
| StreamConfigs.SourcesAllOrNothing | rust/src/bindings/converters/jetstream/stream.rs:165-172 | one bad `sources` entry fails the whole config; on success the config holds every source in order |
| StreamConfigs.StepSources | rust/src/bindings/converters/jetstream/stream.rs:165-172 | the `sources` block succeeds exactly when the list converts, and stores it |
| StreamConfigs.CompressionFromString | rust/src/bindings/converters/jetstream/stream.rs:62-69 | a present `compression` string must be "none" or "s2", and the config holds what it names |
| StreamConfigs.StepCompression | rust/src/bindings/converters/jetstream/stream.rs:62-69 | the `compression` block succeeds exactly when the string parses, and stores the parsed setting |
| StreamConfigs.MirrorNeedsName | rust/src/bindings/converters/jetstream/stream.rs:160-162 | a `mirror` without a name fails the whole config |
| StreamConfigs.FieldsCoverConfig | rust/src/bindings/converters/jetstream/stream.rs:10-205 | the name and the keys own every field: two configs that agree on them are equal |
| Headers.Append | rust/src/bindings/converters/headermap.rs:49 | appending adds one value at the end of the name's list and changes no other name |
| Headers.ToDict | rust/src/bindings/converters/headermap.rs:30-38 | a name becomes a dict key exactly when it has a value, and the key holds its last value |
| Headers.ToPyValue | rust/src/bindings/converters/headermap.rs:21-39 | the host gets a dict of `str` values with exactly those keys and values |
| Headers.FromDict | rust/src/bindings/converters/headermap.rs:46-50 | the header map for a string dict has the dict's names, each with the one value the dict gives it |
| Headers.Extract | rust/src/bindings/converters/headermap.rs:45-53 | a non-dict is refused; a dict of strings gives one value per item under the item's name, in whatever order the items come; a non-string value fails |
| Headers.AppendLastWins | rust/src/bindings/converters/headermap.rs:31-35 | after an append, the dict view shows the appended value under that name and nothing else changes |
| Headers.DictRoundTrip | rust/src/bindings/converters/headermap.rs:31-35 | dict to header map to dict gives the original dict back |
| Headers.HeaderMapRoundTrip | rust/src/bindings/converters/headermap.rs:31-35 | header map to dict to header map keeps each name's last value and drops empty names; single-valued maps come back unchanged |
| Messages.ToPyDict | rust/src/bindings/converters/message.rs:20-47 | `subject` and `payload` are always present; `reply`, `headers`, `status` (as its `u16`) and `description` are present exactly when the message has them; there are no other keys |
| Messages.HostView | rust/src/bindings/converters/message.rs:34-36 | the host sees every field unchanged except headers, which keep their last value per name |
| Messages.RoundTrip | rust/src/bindings/converters/message.rs:24-46 | reading a message's dict back recovers the message as the host sees it |
| Messages.RoundTripExact | rust/src/bindings/converters/message.rs:24-46 | with single-valued headers the round trip recovers the message exactly |
| PyValues.ExtractDuration | rust/src/bindings/converters/jetstream/consumer.rs:58-59 | `extract::<Duration>()` accepts exactly a non-negative `timedelta` and keeps its value; a negative one fails with PyO3's ValueError message |
| PyValues.ExtractDatetime | rust/src/bindings/converters/offset_datetime.rs:7-10 | anything that is not a `datetime` fails with "Expected datetime" |

## Left out

- Threads, the tokio runtime and the eventfd system calls. Host and worker steps interleave freely in `Bridge.Next`. An eventfd is a counter in a map. Descriptor numbers come in as a parameter (`rv`), so the kernel's lowest-free-number rule is not modelled.
- Command execution and results: the worker's result is a parameter of `Complete`, so any result is possible. The `rust/src/cmds/` dispatch and the async_nats calls behind it are not part of this model.
- The host notifier is an action, not code. `Notify` is enabled only on a positive counter, the default blocking `os.eventfd_read`. `NotifierFails` can happen at any time. The gevent notifier's non-blocking loop is not modelled.
- Bridge.Submitted: once the loop is unwinding, a send fails at once. In the code, tasks sent between the panic and the receiver's drop are dropped with the receiver. The model merges the two moments.
- Runtime.SpawnBlocking: a panic inside the one-off future unwinds like a worker loop. The order in which the future's captured values are dropped is not modelled beyond "the sender is dropped".
- Runtime: every bridge in one runtime has the same command and result types. `from_other` can change them; this model does not.
- Runtime.MakeClone: `make_clone` only copies the handle and the notifier. It has no contract of its own.
- EventFds: the kernel holds only eventfds. A stale raw-fd write that lands on a number reused by a socket, pipe or file writes 8 bytes into it; this model treats such a number as closed and does not represent that write.
- Eventfd counter overflow (a 64-bit counter at its maximum) is not modelled. With shared ownership each descriptor is signalled at most once, so its counter never exceeds 1.
- PyValues: a Python dict is a `map<string, Value>`. Dicts with non-string keys, subclasses, and non-list sequences (tuples) are left out.
- PyValues: `Duration` and datetime values are opaque. A timedelta is a signed count of microseconds, and `ExtractDuration` refuses a negative one with the ValueError message PyO3 raises; a datetime is an instant. Calendar validation belongs to the `time` crate and is not modelled. Neither is the conversion's loss of sub-second precision and time zone (it keeps the wall-clock fields and assumes UTC).
- PyValues: truthiness is modelled only for the built-in value kinds above; a `__bool__` that raises is not modelled.
- Headers.Extract: a non-string dict key makes the code fail. Keys in this model are always strings, so that error case cannot arise.
- Headers: header names are modelled as exact strings; any normalisation the async_nats `HeaderMap` type applies to names is not part of this model.
- Messages.ToPyDict: `set_item` cannot fail in this model; a Python error while building the dict is not modelled.
- StreamConfigs.PySource: the error for a value that is not a dict is `TypeMismatch("PyDict")`. The code formats PyO3's cast error message instead.
- `connect_options.rs`, `lib.rs`, the `bindings/` glue and `samples/` are not part of this model: option forwarding, process start-up and object construction.

## Findings

| source | as written | input that shows it | evidently intended | confidence | as-written member | corrected member |
|---|---|---|---|---|---|---|
| rust/src/task.rs:60-68 | the task's `Sender` keeps only the raw descriptor number (rust/src/eventfd.rs:13-15); the caller's `EventFd` closes the descriptor when `req_response` returns, also when the notifier raised and the task is still queued, so the stale `Sender` later writes 8 bytes to whatever descriptor then holds that number: another call's eventfd (the early wake shown here), or a socket, pipe or file the process opened meanwhile, which it corrupts | task A gets eventfd 3; A's notifier raises and `req_response` returns, closing 3; task B's `eventfd` returns 3 again; the worker finishes A and A's sender writes to 3; B's notifier wakes and `try_recv` finds B's slot empty | a descriptor stays open while a sender for it exists, so a stale sender never signals another call's descriptor | medium, not executed | Bridge.EarlyWakeAsWritten | Bridge.NotifySeesResult |

The same number reuse can also cross bridges, because every bridge takes
descriptors from one kernel. `Runtime.StepKeepsOthers` proves that this
cannot happen with shared ownership. `Bridge.SharedFdPreventsReuse` proves
that the trace above is impossible with shared ownership.

The path is likely under gevent. The gevent notifier in
`src/no_asyncio_nats/__init__.py` (lines 12-27) tests `errno.EAGAIN`, but
the module never imports `errno`. So when the descriptor is not ready yet,
the notifier raises `NameError` instead of waiting. That is exactly the
`NotifierFails` step of the trace.

A second path writes to a closed number as written. When the queue's
receiver is gone, `send` (rust/src/task.rs:64) hands the task back inside
the returned error. The caller's `EventFd` closes the descriptor when
`req_response` returns. The task's `Sender` writes to that number only
later, when the caller drops the error, for example at the `?` in
rust/src/bindings/client.rs:112. `Bridge.Submitted` closes first and then
drops the sender, within one step. The gap between the two, in which
another thread could reuse the number, is not modelled.

The worst outcome of both paths lies outside the model, whose kernel holds
only eventfds. If the number is reused by another kind of descriptor, such
as a reconnecting NATS socket, a pipe or a file the host opened, the stale
`Sender`'s `eventfd_write` succeeds. It writes the 8-byte value 1 into that
descriptor's stream. The model treats such a number as closed, so the write
disappears; `Bridge.EarlyWakeAsWritten` shows only the eventfd case.
