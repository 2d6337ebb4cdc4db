/** `py_to_consumer_config`: a host dict to a JetStream pull-consumer config
    (rust/src/bindings/converters/jetstream/consumer.rs). Every key is
    optional; each present key overrides one field of the default config. */
module ConsumerConfigs {
  import opened Outcomes
  import opened PyValues
  import Overrides

  datatype DeliverPolicy = DeliverAll | DeliverLast | DeliverNew | DeliverLastPerSubject
  datatype AckPolicy = AckExplicit | AckNone | AckAll
  datatype ReplayPolicy = ReplayInstant | ReplayOriginal
  datatype PriorityPolicy = PriorityOverflow | PriorityPinnedClient | PriorityPrioritized | PriorityNone

  /** `str_to_deliver_policy`. */
  function ParseDeliverPolicy(s: string): (r: Result<DeliverPolicy>)
    ensures r.Ok? <==> s in {"all", "last", "new", "last_per_subject"}
    ensures r.Err? ==> r.error == Invalid("Invalid deliver policy: " + s)
  {
    match s
    case "all" => Ok(DeliverAll)
    case "last" => Ok(DeliverLast)
    case "new" => Ok(DeliverNew)
    case "last_per_subject" => Ok(DeliverLastPerSubject)
    case _ => Err(Invalid("Invalid deliver policy: " + s))
  }

  /** The string the host writes for a deliver policy. */
  function DeliverPolicyName(p: DeliverPolicy): (s: string)
    ensures ParseDeliverPolicy(s) == Ok(p)
  {
    match p
    case DeliverAll => "all"
    case DeliverLast => "last"
    case DeliverNew => "new"
    case DeliverLastPerSubject => "last_per_subject"
  }

  /** `str_to_ack_policy`. */
  function ParseAckPolicy(s: string): (r: Result<AckPolicy>)
    ensures r.Ok? <==> s in {"explicit", "none", "all"}
    ensures r.Err? ==> r.error == Invalid("Invalid ack policy: " + s)
  {
    match s
    case "explicit" => Ok(AckExplicit)
    case "none" => Ok(AckNone)
    case "all" => Ok(AckAll)
    case _ => Err(Invalid("Invalid ack policy: " + s))
  }

  /** The string the host writes for an ack policy. */
  function AckPolicyName(p: AckPolicy): (s: string)
    ensures ParseAckPolicy(s) == Ok(p)
  {
    match p
    case AckExplicit => "explicit"
    case AckNone => "none"
    case AckAll => "all"
  }

  /** `str_to_replay_policy`. */
  function ParseReplayPolicy(s: string): (r: Result<ReplayPolicy>)
    ensures r.Ok? <==> s in {"instant", "original"}
    ensures r.Err? ==> r.error == Invalid("Invalid replay policy: " + s)
  {
    match s
    case "instant" => Ok(ReplayInstant)
    case "original" => Ok(ReplayOriginal)
    case _ => Err(Invalid("Invalid replay policy: " + s))
  }

  /** The string the host writes for a replay policy. */
  function ReplayPolicyName(p: ReplayPolicy): (s: string)
    ensures ParseReplayPolicy(s) == Ok(p)
  {
    match p
    case ReplayInstant => "instant"
    case ReplayOriginal => "original"
  }

  /** `str_to_priority_policy`. */
  function ParsePriorityPolicy(s: string): (r: Result<PriorityPolicy>)
    ensures r.Ok? <==> s in {"overflow", "pinned_client", "prioritized", "none"}
    ensures r.Err? ==> r.error == Invalid("Invalid priority policy: " + s)
  {
    match s
    case "overflow" => Ok(PriorityOverflow)
    case "pinned_client" => Ok(PriorityPinnedClient)
    case "prioritized" => Ok(PriorityPrioritized)
    case "none" => Ok(PriorityNone)
    case _ => Err(Invalid("Invalid priority policy: " + s))
  }

  /** The string the host writes for a priority policy. */
  function PriorityPolicyName(p: PriorityPolicy): (s: string)
    ensures ParsePriorityPolicy(s) == Ok(p)
  {
    match p
    case PriorityOverflow => "overflow"
    case PriorityPinnedClient => "pinned_client"
    case PriorityPrioritized => "prioritized"
    case PriorityNone => "none"
  }

  /** The fields of `async_nats::jetstream::consumer::pull::Config` the
      converter can set. Durations are whole microseconds; `pauseUntil` is an
      opaque instant. */
  datatype ConsumerConfig = ConsumerConfig(
    durableName: Option<string>,
    name: Option<string>,
    description: Option<string>,
    filterSubject: string,
    filterSubjects: seq<string>,
    deliverPolicy: DeliverPolicy,
    ackPolicy: AckPolicy,
    replayPolicy: ReplayPolicy,
    priorityPolicy: PriorityPolicy,
    ackWait: Duration,
    maxExpires: Duration,
    inactiveThreshold: Duration,
    maxDeliver: int,
    rateLimit: int,
    sampleFrequency: int,
    maxWaiting: int,
    maxAckPending: int,
    maxBatch: int,
    maxBytes: int,
    numReplicas: int,
    headersOnly: bool,
    memoryStorage: bool,
    metadata: map<string, string>,
    backoff: seq<Duration>,
    priorityGroups: seq<string>,
    pauseUntil: Option<int>)

  /** `pull::Config::default()`: empty, zero or absent everywhere, and
      async_nats's default variant of each policy. */
  const Default := ConsumerConfig(
    None, None, None, "", [],
    DeliverAll, AckExplicit, ReplayInstant, PriorityNone,
    0, 0, 0,
    0, 0, 0, 0, 0, 0, 0, 0,
    false, false,
    map[], [], [],
    None)

  /** The dict keys the converter reads, one constructor per key. */
  datatype Key =
    | DurableName | Name | Description | FilterSubject | FilterSubjects
    | DeliverPolicy | AckPolicy | ReplayPolicy | PriorityPolicy
    | AckWait | MaxExpires | InactiveThreshold
    | MaxDeliver | RateLimit | SampleFrequency | MaxWaiting | MaxAckPending | MaxBatch | MaxBytes | NumReplicas
    | HeadersOnly | MemoryStorage
    | Metadata | Backoff | PriorityGroups
    | PauseUntil

  /** The keys in the order the converter reads them. */
  const Keys: seq<Key> := [
    DurableName, Name, Description, FilterSubject, FilterSubjects,
    DeliverPolicy, AckPolicy, ReplayPolicy, PriorityPolicy,
    AckWait, MaxExpires, InactiveThreshold,
    MaxDeliver, RateLimit, SampleFrequency, MaxWaiting, MaxAckPending, MaxBatch, MaxBytes, NumReplicas,
    HeadersOnly, MemoryStorage,
    Metadata, Backoff, PriorityGroups,
    PauseUntil]

  function KeyName(k: Key): string {
    match k
    case DurableName => "durable_name"
    case Name => "name"
    case Description => "description"
    case FilterSubject => "filter_subject"
    case FilterSubjects => "filter_subjects"
    case DeliverPolicy => "deliver_policy"
    case AckPolicy => "ack_policy"
    case ReplayPolicy => "replay_policy"
    case PriorityPolicy => "priority_policy"
    case AckWait => "ack_wait"
    case MaxExpires => "max_expires"
    case InactiveThreshold => "inactive_threshold"
    case MaxDeliver => "max_deliver"
    case RateLimit => "rate_limit"
    case SampleFrequency => "sample_frequency"
    case MaxWaiting => "max_waiting"
    case MaxAckPending => "max_ack_pending"
    case MaxBatch => "max_batch"
    case MaxBytes => "max_bytes"
    case NumReplicas => "num_replicas"
    case HeadersOnly => "headers_only"
    case MemoryStorage => "memory_storage"
    case Metadata => "metadata"
    case Backoff => "backoff"
    case PriorityGroups => "priority_groups"
    case PauseUntil => "pause_until"
  }

  /** The value of one config field, whatever its type. */
  datatype FieldValue =
    | OptText(o: Option<string>)
    | Text(s: string)
    | Texts(ss: seq<string>)
    | Deliver(dp: DeliverPolicy)
    | Ack(ap: AckPolicy)
    | Replay(rp: ReplayPolicy)
    | Priority(pp: PriorityPolicy)
    | Span(d: Duration)
    | Spans(ds: seq<Duration>)
    | Number(n: int)
    | Flag(b: bool)
    | Labels(m: map<string, string>)
    | Moment(t: Option<int>)

  /** The field key `k` owns. */
  function Field(c: ConsumerConfig, k: Key): FieldValue {
    match k
    case DurableName => OptText(c.durableName)
    case Name => OptText(c.name)
    case Description => OptText(c.description)
    case FilterSubject => Text(c.filterSubject)
    case FilterSubjects => Texts(c.filterSubjects)
    case DeliverPolicy => Deliver(c.deliverPolicy)
    case AckPolicy => Ack(c.ackPolicy)
    case ReplayPolicy => Replay(c.replayPolicy)
    case PriorityPolicy => Priority(c.priorityPolicy)
    case AckWait => Span(c.ackWait)
    case MaxExpires => Span(c.maxExpires)
    case InactiveThreshold => Span(c.inactiveThreshold)
    case MaxDeliver => Number(c.maxDeliver)
    case RateLimit => Number(c.rateLimit)
    case SampleFrequency => Number(c.sampleFrequency)
    case MaxWaiting => Number(c.maxWaiting)
    case MaxAckPending => Number(c.maxAckPending)
    case MaxBatch => Number(c.maxBatch)
    case MaxBytes => Number(c.maxBytes)
    case NumReplicas => Number(c.numReplicas)
    case HeadersOnly => Flag(c.headersOnly)
    case MemoryStorage => Flag(c.memoryStorage)
    case Metadata => Labels(c.metadata)
    case Backoff => Spans(c.backoff)
    case PriorityGroups => Texts(c.priorityGroups)
    case PauseUntil => Moment(c.pauseUntil)
  }

  /** One `if let Some(value) = py_config_dict.get_item(key)?` block: parse
      `v` as key `k` demands and store it in the field `k` owns. */
  function Step(c: ConsumerConfig, k: Key, v: Value): Result<ConsumerConfig> {
    match k
    case DurableName => var x :- ExtractOptStr(v); Ok(c.(durableName := x))
    case Name => var x :- ExtractOptStr(v); Ok(c.(name := x))
    case Description => var x :- ExtractOptStr(v); Ok(c.(description := x))
    case FilterSubject => var x :- ExtractStr(v); Ok(c.(filterSubject := x))
    case FilterSubjects => var x :- ExtractStrings(v); Ok(c.(filterSubjects := x))
    case DeliverPolicy =>
      var s :- ExtractStr(v); var p :- ParseDeliverPolicy(s); Ok(c.(deliverPolicy := p))
    case AckPolicy =>
      var s :- ExtractStr(v); var p :- ParseAckPolicy(s); Ok(c.(ackPolicy := p))
    case ReplayPolicy =>
      var s :- ExtractStr(v); var p :- ParseReplayPolicy(s); Ok(c.(replayPolicy := p))
    case PriorityPolicy =>
      var s :- ExtractStr(v); var p :- ParsePriorityPolicy(s); Ok(c.(priorityPolicy := p))
    case AckWait => var x :- ExtractDuration(v); Ok(c.(ackWait := x))
    case MaxExpires => var x :- ExtractDuration(v); Ok(c.(maxExpires := x))
    case InactiveThreshold => var x :- ExtractDuration(v); Ok(c.(inactiveThreshold := x))
    case MaxDeliver => var x :- ExtractInt(v, I64); Ok(c.(maxDeliver := x))
    case RateLimit => var x :- ExtractInt(v, U64); Ok(c.(rateLimit := x))
    case SampleFrequency => var x :- ExtractInt(v, U8); Ok(c.(sampleFrequency := x))
    case MaxWaiting => var x :- ExtractInt(v, I64); Ok(c.(maxWaiting := x))
    case MaxAckPending => var x :- ExtractInt(v, I64); Ok(c.(maxAckPending := x))
    case MaxBatch => var x :- ExtractInt(v, I64); Ok(c.(maxBatch := x))
    case MaxBytes => var x :- ExtractInt(v, I64); Ok(c.(maxBytes := x))
    case NumReplicas => var x :- ExtractInt(v, Usize); Ok(c.(numReplicas := x))
    case HeadersOnly => Ok(c.(headersOnly := IsTruthy(v)))
    case MemoryStorage => Ok(c.(memoryStorage := IsTruthy(v)))
    case Metadata => var x :- ExtractStrMap(v); Ok(c.(metadata := x))
    case Backoff => var x :- ExtractDurations(v); Ok(c.(backoff := x))
    case PriorityGroups => var x :- ExtractStrings(v); Ok(c.(priorityGroups := x))
    case PauseUntil => var x :- ExtractDatetime(v); Ok(c.(pauseUntil := Some(x)))
  }

  /** `py_to_consumer_config`. */
  function Convert(d: map<string, Value>): Result<ConsumerConfig> {
    Overrides.Apply(Default, d, Keys, KeyName, Step)
  }

  /** Each step writes only the field its key owns. */
  lemma StepsFramed()
    ensures Overrides.Framed(Step, Field)
  {
    forall c, k, v, k' | Step(c, k, v).Ok? && k' != k
      ensures Field(Step(c, k, v).value, k') == Field(c, k')
    {
      StepFramed(c, k, v, k');
    }
  }

  lemma StepFramed(c: ConsumerConfig, k: Key, v: Value, k': Key)
    requires Step(c, k, v).Ok? && k' != k
    ensures Field(Step(c, k, v).value, k') == Field(c, k')
  {
  }

  /** A step's outcome does not depend on the config it updates. */
  lemma StepsIndependent()
    ensures Overrides.Independent(Step, Field)
  {
  }

  /** The keys own every field: two configs differ exactly when they differ
      on some key's field. */
  lemma FieldsCoverConfig(a: ConsumerConfig, b: ConsumerConfig)
    ensures a != b ==> exists k :: Field(a, k) != Field(b, k)
  {
    FieldsCoverGroup1(a, b);
    FieldsCoverGroup2(a, b);
    FieldsCoverGroup3(a, b);
    FieldsCoverGroup4(a, b);
  }

  lemma FieldsCoverGroup1(a: ConsumerConfig, b: ConsumerConfig)
    ensures a.durableName != b.durableName || a.name != b.name || a.description != b.description || a.filterSubject != b.filterSubject || a.filterSubjects != b.filterSubjects || a.deliverPolicy != b.deliverPolicy || a.ackPolicy != b.ackPolicy ==> exists k :: Field(a, k) != Field(b, k)
  {
    if a.durableName != b.durableName {
      assert Field(a, DurableName) != Field(b, DurableName);
    } else if a.name != b.name {
      assert Field(a, Name) != Field(b, Name);
    } else if a.description != b.description {
      assert Field(a, Description) != Field(b, Description);
    } else if a.filterSubject != b.filterSubject {
      assert Field(a, FilterSubject) != Field(b, FilterSubject);
    } else if a.filterSubjects != b.filterSubjects {
      assert Field(a, FilterSubjects) != Field(b, FilterSubjects);
    } else if a.deliverPolicy != b.deliverPolicy {
      assert Field(a, DeliverPolicy) != Field(b, DeliverPolicy);
    } else if a.ackPolicy != b.ackPolicy {
      assert Field(a, AckPolicy) != Field(b, AckPolicy);
    }
  }

  lemma FieldsCoverGroup2(a: ConsumerConfig, b: ConsumerConfig)
    ensures a.replayPolicy != b.replayPolicy || a.priorityPolicy != b.priorityPolicy || a.ackWait != b.ackWait || a.maxExpires != b.maxExpires || a.inactiveThreshold != b.inactiveThreshold || a.maxDeliver != b.maxDeliver || a.rateLimit != b.rateLimit ==> exists k :: Field(a, k) != Field(b, k)
  {
    if a.replayPolicy != b.replayPolicy {
      assert Field(a, ReplayPolicy) != Field(b, ReplayPolicy);
    } else if a.priorityPolicy != b.priorityPolicy {
      assert Field(a, PriorityPolicy) != Field(b, PriorityPolicy);
    } else if a.ackWait != b.ackWait {
      assert Field(a, AckWait) != Field(b, AckWait);
    } else if a.maxExpires != b.maxExpires {
      assert Field(a, MaxExpires) != Field(b, MaxExpires);
    } else if a.inactiveThreshold != b.inactiveThreshold {
      assert Field(a, InactiveThreshold) != Field(b, InactiveThreshold);
    } else if a.maxDeliver != b.maxDeliver {
      assert Field(a, MaxDeliver) != Field(b, MaxDeliver);
    } else if a.rateLimit != b.rateLimit {
      assert Field(a, RateLimit) != Field(b, RateLimit);
    }
  }

  lemma FieldsCoverGroup3(a: ConsumerConfig, b: ConsumerConfig)
    ensures a.sampleFrequency != b.sampleFrequency || a.maxWaiting != b.maxWaiting || a.maxAckPending != b.maxAckPending || a.maxBatch != b.maxBatch || a.maxBytes != b.maxBytes || a.numReplicas != b.numReplicas || a.headersOnly != b.headersOnly ==> exists k :: Field(a, k) != Field(b, k)
  {
    if a.sampleFrequency != b.sampleFrequency {
      assert Field(a, SampleFrequency) != Field(b, SampleFrequency);
    } else if a.maxWaiting != b.maxWaiting {
      assert Field(a, MaxWaiting) != Field(b, MaxWaiting);
    } else if a.maxAckPending != b.maxAckPending {
      assert Field(a, MaxAckPending) != Field(b, MaxAckPending);
    } else if a.maxBatch != b.maxBatch {
      assert Field(a, MaxBatch) != Field(b, MaxBatch);
    } else if a.maxBytes != b.maxBytes {
      assert Field(a, MaxBytes) != Field(b, MaxBytes);
    } else if a.numReplicas != b.numReplicas {
      assert Field(a, NumReplicas) != Field(b, NumReplicas);
    } else if a.headersOnly != b.headersOnly {
      assert Field(a, HeadersOnly) != Field(b, HeadersOnly);
    }
  }

  lemma FieldsCoverGroup4(a: ConsumerConfig, b: ConsumerConfig)
    ensures a.memoryStorage != b.memoryStorage || a.metadata != b.metadata || a.backoff != b.backoff || a.priorityGroups != b.priorityGroups || a.pauseUntil != b.pauseUntil ==> exists k :: Field(a, k) != Field(b, k)
  {
    if a.memoryStorage != b.memoryStorage {
      assert Field(a, MemoryStorage) != Field(b, MemoryStorage);
    } else if a.metadata != b.metadata {
      assert Field(a, Metadata) != Field(b, Metadata);
    } else if a.backoff != b.backoff {
      assert Field(a, Backoff) != Field(b, Backoff);
    } else if a.priorityGroups != b.priorityGroups {
      assert Field(a, PriorityGroups) != Field(b, PriorityGroups);
    } else if a.pauseUntil != b.pauseUntil {
      assert Field(a, PauseUntil) != Field(b, PauseUntil);
    }
  }

  lemma EveryKeyListed(k: Key)
    ensures k in Keys
  {
  }

  /** Where key `k` sits in the reading order. */
  function IndexOf(k: Key): (i: nat)
    ensures i < |Keys| && Keys[i] == k
  {
    match k
    case DurableName => 0
    case Name => 1
    case Description => 2
    case FilterSubject => 3
    case FilterSubjects => 4
    case DeliverPolicy => 5
    case AckPolicy => 6
    case ReplayPolicy => 7
    case PriorityPolicy => 8
    case AckWait => 9
    case MaxExpires => 10
    case InactiveThreshold => 11
    case MaxDeliver => 12
    case RateLimit => 13
    case SampleFrequency => 14
    case MaxWaiting => 15
    case MaxAckPending => 16
    case MaxBatch => 17
    case MaxBytes => 18
    case NumReplicas => 19
    case HeadersOnly => 20
    case MemoryStorage => 21
    case Metadata => 22
    case Backoff => 23
    case PriorityGroups => 24
    case PauseUntil => 25
  }

  /** All or nothing: `py_to_consumer_config` succeeds exactly when every key
      present in the dict parses. */
  lemma ConvertOkIff(d: map<string, Value>)
    ensures Convert(d).Ok? <==> forall k :: KeyName(k) in d ==> Step(Default, k, d[KeyName(k)]).Ok?
  {
    assert Convert(d).Ok? <==>
           forall i :: 0 <= i < |Keys| && KeyName(Keys[i]) in d ==> Step(Default, Keys[i], d[KeyName(Keys[i])]).Ok? by {
      StepsIndependent();
      Overrides.ApplyOutcome(Default, d, Keys, KeyName, Step, Field);
    }
    if Convert(d).Ok? {
      forall k | KeyName(k) in d ensures Step(Default, k, d[KeyName(k)]).Ok? {
        var i := IndexOf(k);
      }
    }
  }

  /** On failure the error is that of the first present key, in reading
      order, that does not parse; no partial config is returned. */
  lemma ConvertFirstError(d: map<string, Value>)
    ensures Convert(d).Err? ==>
              exists i :: 0 <= i < |Keys| && KeyName(Keys[i]) in d
                          && Step(Default, Keys[i], d[KeyName(Keys[i])]) == Err(Convert(d).error)
                          && forall j :: 0 <= j < i && KeyName(Keys[j]) in d ==> Step(Default, Keys[j], d[KeyName(Keys[j])]).Ok?
  {
    StepsIndependent();
    Overrides.ApplyOutcome(Default, d, Keys, KeyName, Step, Field);
  }

  /** Only the keys present change fields: each field holds the value parsed
      from its key when the key is present, and its default otherwise. */
  lemma ConvertFields(d: map<string, Value>, k: Key)
    requires Convert(d).Ok?
    ensures KeyName(k) in d ==> Step(Default, k, d[KeyName(k)]).Ok?
                                && Field(Convert(d).value, k) == Field(Step(Default, k, d[KeyName(k)]).value, k)
    ensures KeyName(k) !in d ==> Field(Convert(d).value, k) == Field(Default, k)
  {
    StepsFramed();
    var i := IndexOf(k);
    if KeyName(k) in d {
      StepsIndependent();
      Overrides.ApplySetsPresent(Default, d, Keys, KeyName, Step, Field, k);
    } else {
      Overrides.ApplyKeepsAbsent(Default, d, Keys, KeyName, Step, Field, k);
    }
  }

  /** An empty dict yields exactly the default config: no key is required. */
  lemma EmptyDictGivesDefault()
    ensures Convert(map[]) == Ok(Default)
  {
    ConvertOkIff(map[]);
    forall k ensures Field(Convert(map[]).value, k) == Field(Default, k) {
      ConvertFields(map[], k);
    }
    FieldsCoverConfig(Convert(map[]).value, Default);
  }

  /** `sample_frequency` is a `u8`: an integer outside 0..255 fails the whole
      conversion, and an accepted one is stored unchanged. */
  lemma SampleFrequencyIsU8(d: map<string, Value>)
    requires "sample_frequency" in d && AsInteger(d["sample_frequency"]).Some?
    ensures Convert(d).Ok? ==> Convert(d).value.sampleFrequency == AsInteger(d["sample_frequency"]).value
    ensures !(0 <= AsInteger(d["sample_frequency"]).value <= 255) ==> Convert(d).Err?
  {
    var v := d["sample_frequency"];
    assert KeyName(SampleFrequency) == "sample_frequency";
    if Convert(d).Ok? {
      ConvertFields(d, SampleFrequency);
      assert Step(Default, SampleFrequency, v).Ok?;
    }
  }

  /** A present `deliver_policy` string is accepted only when it names a
      deliver policy, and the config then holds the policy it names. */
  lemma DeliverPolicyFromString(d: map<string, Value>, s: string)
    requires "deliver_policy" in d && d["deliver_policy"] == PyStr(s)
    ensures Convert(d).Ok? ==> s in {"all", "last", "new", "last_per_subject"}
                               && DeliverPolicyName(Convert(d).value.deliverPolicy) == s
    ensures s !in {"all", "last", "new", "last_per_subject"} ==> Convert(d).Err?
  {
    assert KeyName(DeliverPolicy) == "deliver_policy";
    ConvertOkIff(d);
    if Convert(d).Ok? {
      ConvertFields(d, DeliverPolicy);
    }
  }

  /** A present `ack_wait` is stored only when it is a non-negative
      `timedelta`; a negative one fails the whole conversion. */
  lemma AckWaitIsDuration(d: map<string, Value>)
    requires "ack_wait" in d
    ensures Convert(d).Ok? ==> IsDuration(d["ack_wait"]) && Convert(d).value.ackWait == d["ack_wait"].micros
    ensures !IsDuration(d["ack_wait"]) ==> Convert(d).Err?
  {
    var v := d["ack_wait"];
    assert KeyName(AckWait) == "ack_wait";
    if Convert(d).Ok? {
      ConvertFields(d, AckWait);
      assert Step(Default, AckWait, v).Ok?;
    }
  }
}
