/** `py_to_stream_config` and the nested converters it calls: a host dict to
    a JetStream stream config (rust/src/bindings/converters/jetstream/stream.rs).
    `name` is required; every other key is optional and overrides one field
    of the default config. */
module StreamConfigs {
  import opened Outcomes
  import opened PyValues
  import Overrides

  datatype RetentionPolicy = Limits | Interest | WorkQueue
  datatype StorageType = FileStorage | MemoryStorage
  datatype DiscardPolicy = DiscardOld | DiscardNew
  datatype Compression = S2
  datatype PersistenceMode = PersistDefault | PersistAsync

  /** The `retention` match of `py_to_stream_config`. */
  function ParseRetention(s: string): (r: Result<RetentionPolicy>)
    ensures r.Ok? <==> s in {"limits", "interest", "workqueue"}
    ensures r.Err? ==> r.error == Invalid("Invalid retention policy: " + s)
  {
    match s
    case "limits" => Ok(Limits)
    case "interest" => Ok(Interest)
    case "workqueue" => Ok(WorkQueue)
    case _ => Err(Invalid("Invalid retention policy: " + s))
  }

  function RetentionName(p: RetentionPolicy): (s: string)
    ensures ParseRetention(s) == Ok(p)
  {
    match p
    case Limits => "limits"
    case Interest => "interest"
    case WorkQueue => "workqueue"
  }

  /** The `storage` match of `py_to_stream_config`. */
  function ParseStorage(s: string): (r: Result<StorageType>)
    ensures r.Ok? <==> s in {"file", "memory"}
    ensures r.Err? ==> r.error == Invalid("Invalid storage type: " + s)
  {
    match s
    case "file" => Ok(FileStorage)
    case "memory" => Ok(MemoryStorage)
    case _ => Err(Invalid("Invalid storage type: " + s))
  }

  function StorageName(t: StorageType): (s: string)
    ensures ParseStorage(s) == Ok(t)
  {
    match t
    case FileStorage => "file"
    case MemoryStorage => "memory"
  }

  /** The `discard` match of `py_to_stream_config`. */
  function ParseDiscard(s: string): (r: Result<DiscardPolicy>)
    ensures r.Ok? <==> s in {"new", "old"}
    ensures r.Err? ==> r.error == Invalid("Invalid discard policy: " + s)
  {
    match s
    case "new" => Ok(DiscardNew)
    case "old" => Ok(DiscardOld)
    case _ => Err(Invalid("Invalid discard policy: " + s))
  }

  function DiscardName(p: DiscardPolicy): (s: string)
    ensures ParseDiscard(s) == Ok(p)
  {
    match p
    case DiscardNew => "new"
    case DiscardOld => "old"
  }

  /** The `compression` match of `py_to_stream_config`: "none" switches
      compression off. Its message, unlike the others, has no colon. */
  function ParseCompression(s: string): (r: Result<Option<Compression>>)
    ensures r.Ok? <==> s in {"none", "s2"}
    ensures r == Ok(None) <==> s == "none"
    ensures r == Ok(Some(S2)) <==> s == "s2"
    ensures r.Err? ==> r.error == Invalid("Invalid compression policy " + s)
  {
    match s
    case "none" => Ok(None)
    case "s2" => Ok(Some(S2))
    case _ => Err(Invalid("Invalid compression policy " + s))
  }

  function CompressionName(c: Option<Compression>): (s: string)
    ensures ParseCompression(s) == Ok(c)
  {
    match c
    case None => "none"
    case Some(S2) => "s2"
  }

  /** `str_to_persistence_mode`. */
  function ParsePersistenceMode(s: string): (r: Result<PersistenceMode>)
    ensures r.Ok? <==> s in {"default", "async"}
    ensures r.Err? ==> r.error == Invalid("Invalid persistence mode: " + s)
  {
    match s
    case "default" => Ok(PersistDefault)
    case "async" => Ok(PersistAsync)
    case _ => Err(Invalid("Invalid persistence mode: " + s))
  }

  function PersistenceModeName(m: PersistenceMode): (s: string)
    ensures ParsePersistenceMode(s) == Ok(m)
  {
    match m
    case PersistDefault => "default"
    case PersistAsync => "async"
  }

  datatype SubjectTransform = SubjectTransform(source: string, destination: string)
  datatype External = External(apiPrefix: string, deliveryPrefix: Option<string>)
  datatype ConsumerLimits = ConsumerLimits(inactiveThreshold: Duration, maxAckPending: int)
  datatype Republish = Republish(source: string, destination: string, headersOnly: bool)
  datatype Placement = Placement(cluster: Option<string>, tags: seq<string>)
  datatype Source = Source(
    name: string,
    startSequence: Option<int>,
    startTime: Option<int>,
    filterSubject: Option<string>,
    external: Option<External>,
    domain: Option<string>,
    subjectTransforms: seq<SubjectTransform>)

  /** `py_to_subject_transform`: `source` and `destination` are both required strings. */
  function PySubjectTransform(obj: Value): (r: Result<SubjectTransform>)
    ensures r.Ok? <==> obj.PyDict? && "source" in obj.entries && obj.entries["source"].PyStr?
                       && "destination" in obj.entries && obj.entries["destination"].PyStr?
    ensures r.Ok? ==> r.value == SubjectTransform(obj.entries["source"].s, obj.entries["destination"].s)
  {
    var source :- GetItem(obj, "source");
    var source :- ExtractStr(source);
    var destination :- GetItem(obj, "destination");
    var destination :- ExtractStr(destination);
    Ok(SubjectTransform(source, destination))
  }

  /** `py_to_external`: `delivery_prefix` must be present but may be `None`. */
  function PyExternal(obj: Value): (r: Result<External>)
    ensures r.Ok? <==> obj.PyDict? && "api_prefix" in obj.entries && obj.entries["api_prefix"].PyStr?
                       && "delivery_prefix" in obj.entries
                       && (obj.entries["delivery_prefix"].PyNone? || obj.entries["delivery_prefix"].PyStr?)
    ensures r.Ok? ==> r.value.apiPrefix == obj.entries["api_prefix"].s
                      && r.value.deliveryPrefix == ExtractOptStr(obj.entries["delivery_prefix"]).value
                      && (r.value.deliveryPrefix.Some? <==> obj.entries["delivery_prefix"].PyStr?)
  {
    var apiPrefix :- GetItem(obj, "api_prefix");
    var apiPrefix :- ExtractStr(apiPrefix);
    var deliveryPrefix :- GetItem(obj, "delivery_prefix");
    var deliveryPrefix :- ExtractOptStr(deliveryPrefix);
    Ok(External(apiPrefix, deliveryPrefix))
  }

  /** `py_to_consumer_limits`: both keys required. */
  function PyConsumerLimits(obj: Value): (r: Result<ConsumerLimits>)
    ensures r.Ok? <==> obj.PyDict? && "inactive_threshold" in obj.entries && IsDuration(obj.entries["inactive_threshold"])
                       && "max_ack_pending" in obj.entries && ExtractInt(obj.entries["max_ack_pending"], I64).Ok?
    ensures r.Ok? ==> r.value == ConsumerLimits(obj.entries["inactive_threshold"].micros,
                                                 ExtractInt(obj.entries["max_ack_pending"], I64).value)
  {
    var threshold :- GetItem(obj, "inactive_threshold");
    var threshold :- ExtractDuration(threshold);
    var maxAckPending :- GetItem(obj, "max_ack_pending");
    var maxAckPending :- ExtractInt(maxAckPending, I64);
    Ok(ConsumerLimits(threshold, maxAckPending))
  }

  /** `py_to_republish`: `headers_only` is required and read by truthiness. */
  function PyRepublish(obj: Value): (r: Result<Republish>)
    ensures r.Ok? <==> obj.PyDict? && "source" in obj.entries && obj.entries["source"].PyStr?
                       && "destination" in obj.entries && obj.entries["destination"].PyStr?
                       && "headers_only" in obj.entries
    ensures r.Ok? ==> r.value == Republish(obj.entries["source"].s, obj.entries["destination"].s,
                                           IsTruthy(obj.entries["headers_only"]))
  {
    var source :- GetItem(obj, "source");
    var source :- ExtractStr(source);
    var destination :- GetItem(obj, "destination");
    var destination :- ExtractStr(destination);
    var headersOnly :- GetItem(obj, "headers_only");
    Ok(Republish(source, destination, IsTruthy(headersOnly)))
  }

  /** `py_to_placement`: `cluster` must be present but may be `None`; `tags` is required. */
  function PyPlacement(obj: Value): (r: Result<Placement>)
    ensures r.Ok? <==> obj.PyDict? && "cluster" in obj.entries
                       && (obj.entries["cluster"].PyNone? || obj.entries["cluster"].PyStr?)
                       && "tags" in obj.entries && ExtractStrings(obj.entries["tags"]).Ok?
    ensures r.Ok? ==> r.value.cluster == ExtractOptStr(obj.entries["cluster"]).value
                      && (r.value.cluster.Some? <==> obj.entries["cluster"].PyStr?)
                      && r.value.tags == ExtractStrings(obj.entries["tags"]).value
  {
    var cluster :- GetItem(obj, "cluster");
    var cluster :- ExtractOptStr(cluster);
    var tags :- GetItem(obj, "tags");
    var tags :- ExtractStrings(tags);
    Ok(Placement(cluster, tags))
  }

  /** Reads an optional key of a source dict with `f`. */
  function OptionalEntry<T>(d: map<string, Value>, key: string, f: Value -> Result<T>): (r: Result<Option<T>>)
    ensures key !in d ==> r == Ok(None)
    ensures key in d ==> (r.Ok? <==> f(d[key]).Ok?) && (r.Ok? ==> r.value == Some(f(d[key]).value))
  {
    if key in d then var x :- f(d[key]); Ok(Some(x)) else Ok(None)
  }

  /** The error a source without `name` is rejected with. The stream config
      itself reuses the same message for its own missing `name`. */
  const NoNameError := Invalid("JetStream Source must have a name")

  /** Extraction into `u64`, as a source's `start_sequence` is read. */
  function ExtractU64(v: Value): Result<int> {
    ExtractInt(v, U64)
  }

  /** `py_to_source`: the value must be a dict with a string `name`; all other
      keys are optional, but each one present must convert, and a missing
      `subject_transforms` means none. */
  function PySource(obj: Value): (r: Result<Source>)
    ensures r.Ok? <==> && obj.PyDict? && "name" in obj.entries && obj.entries["name"].PyStr?
                       && OptionalEntry(obj.entries, "start_sequence", ExtractU64).Ok?
                       && OptionalEntry(obj.entries, "start_time", ExtractDatetime).Ok?
                       && OptionalEntry(obj.entries, "filter_subject", ExtractStr).Ok?
                       && OptionalEntry(obj.entries, "external", PyExternal).Ok?
                       && OptionalEntry(obj.entries, "domain", ExtractStr).Ok?
                       && ("subject_transforms" in obj.entries ==>
                             ExtractVec(obj.entries["subject_transforms"], PySubjectTransform).Ok?)
    ensures r.Ok? ==> r.value.name == obj.entries["name"].s
    ensures r.Ok? ==> && r.value.startSequence == OptionalEntry(obj.entries, "start_sequence", ExtractU64).value
                      && r.value.startTime == OptionalEntry(obj.entries, "start_time", ExtractDatetime).value
                      && r.value.filterSubject == OptionalEntry(obj.entries, "filter_subject", ExtractStr).value
                      && r.value.external == OptionalEntry(obj.entries, "external", PyExternal).value
                      && r.value.domain == OptionalEntry(obj.entries, "domain", ExtractStr).value
    ensures obj.PyDict? && "name" !in obj.entries ==> r == Err(NoNameError)
    ensures r.Ok? && "subject_transforms" !in obj.entries ==> r.value.subjectTransforms == []
    ensures r.Ok? && "subject_transforms" in obj.entries ==>
              ExtractVec(obj.entries["subject_transforms"], PySubjectTransform) == Ok(r.value.subjectTransforms)
  {
    if !obj.PyDict? then Err(TypeMismatch("PyDict"))
    else
      var d := obj.entries;
      var name :- if "name" in d then ExtractStr(d["name"]) else Err(NoNameError);
      var startSequence :- OptionalEntry(d, "start_sequence", ExtractU64);
      var startTime :- OptionalEntry(d, "start_time", ExtractDatetime);
      var filterSubject :- OptionalEntry(d, "filter_subject", ExtractStr);
      var external :- OptionalEntry(d, "external", PyExternal);
      var domain :- OptionalEntry(d, "domain", ExtractStr);
      var transforms :-
        if "subject_transforms" in d then ExtractVec(d["subject_transforms"], PySubjectTransform) else Ok([]);
      Ok(Source(name, startSequence, startTime, filterSubject, external, domain, transforms))
  }

  /** `sources`: first every element must be a dict (`Vec<Bound<PyDict>>`),
      then each converts with `py_to_source`; one bad entry fails them all. */
  function PySources(v: Value): (r: Result<seq<Source>>)
    ensures r.Ok? <==> v.PyList? && forall i :: 0 <= i < |v.items| ==> PySource(v.items[i]).Ok?
    ensures r.Ok? ==> |r.value| == |v.items| && forall i :: 0 <= i < |v.items| ==> r.value[i] == PySource(v.items[i]).value
  {
    var dicts :- ExtractVec(v, (x: Value) => if x.PyDict? then Ok(x) else Err(TypeMismatch("PyDict")));
    assert dicts == v.items;
    ExtractEach(dicts, PySource)
  }

  /** The dict a host writes for each nested setting; every nested
      converter reads its own dict back. */
  function TransformToPy(t: SubjectTransform): Value {
    PyDict(map["source" := PyStr(t.source), "destination" := PyStr(t.destination)])
  }

  function OptStrToPy(o: Option<string>): Value {
    match o
    case None => PyNone
    case Some(s) => PyStr(s)
  }

  function ExternalToPy(e: External): Value {
    PyDict(map["api_prefix" := PyStr(e.apiPrefix), "delivery_prefix" := OptStrToPy(e.deliveryPrefix)])
  }

  function LimitsToPy(l: ConsumerLimits): Value {
    PyDict(map["inactive_threshold" := PyTimedelta(l.inactiveThreshold), "max_ack_pending" := PyInt(l.maxAckPending)])
  }

  function RepublishToPy(r: Republish): Value {
    PyDict(map["source" := PyStr(r.source), "destination" := PyStr(r.destination), "headers_only" := PyBool(r.headersOnly)])
  }

  function PlacementToPy(p: Placement): Value {
    PyDict(map["cluster" := OptStrToPy(p.cluster), "tags" := PyList(seq(|p.tags|, i requires 0 <= i < |p.tags| => PyStr(p.tags[i])))])
  }

  /** Sets `key` only when the setting is present. */
  function PutOpt<T>(m: map<string, Value>, key: string, o: Option<T>, f: T -> Value): map<string, Value> {
    match o
    case None => m
    case Some(x) => m[key := f(x)]
  }

  function SourceToPy(s: Source): Value {
    var m0 := map["name" := PyStr(s.name),
                  "subject_transforms" := PyList(seq(|s.subjectTransforms|, i requires 0 <= i < |s.subjectTransforms| => TransformToPy(s.subjectTransforms[i])))];
    var m1 := PutOpt(m0, "start_sequence", s.startSequence, (n: int) => PyInt(n));
    var m2 := PutOpt(m1, "start_time", s.startTime, (t: int) => PyDatetime(t));
    var m3 := PutOpt(m2, "filter_subject", s.filterSubject, (f: string) => PyStr(f));
    var m4 := PutOpt(m3, "external", s.external, ExternalToPy);
    PyDict(PutOpt(m4, "domain", s.domain, (x: string) => PyStr(x)))
  }

  lemma TransformRoundTrip(t: SubjectTransform)
    ensures PySubjectTransform(TransformToPy(t)) == Ok(t)
  {
  }

  lemma ExternalRoundTrip(e: External)
    ensures PyExternal(ExternalToPy(e)) == Ok(e)
  {
  }

  /** Holds for the limits the server can carry: `max_ack_pending` is an `i64`. */
  lemma LimitsRoundTrip(l: ConsumerLimits)
    requires I64.Min() <= l.maxAckPending <= I64.Max()
    ensures PyConsumerLimits(LimitsToPy(l)) == Ok(l)
  {
  }

  lemma RepublishRoundTrip(r: Republish)
    ensures PyRepublish(RepublishToPy(r)) == Ok(r)
  {
  }

  lemma PlacementRoundTrip(p: Placement)
    ensures PyPlacement(PlacementToPy(p)) == Ok(p)
  {
    var tags := PlacementToPy(p).entries["tags"];
    assert ExtractStrings(tags).Ok?;
    assert ExtractStrings(tags).value == p.tags;
  }

  /** Holds for sources whose start sequence fits a `u64`. */
  lemma SourceRoundTrip(s: Source)
    requires s.startSequence.Some? ==> U64.Min() <= s.startSequence.value <= U64.Max()
    ensures PySource(SourceToPy(s)) == Ok(s)
  {
    var d := SourceToPy(s).entries;
    SourceDictEntries(s);
    var ts := d["subject_transforms"];
    forall i | 0 <= i < |ts.items| ensures PySubjectTransform(ts.items[i]) == Ok(s.subjectTransforms[i]) {
      TransformRoundTrip(s.subjectTransforms[i]);
    }
    var r := ExtractVec(ts, PySubjectTransform);
    assert r.Ok? && |r.value| == |s.subjectTransforms|;
    assert forall i :: 0 <= i < |r.value| ==> r.value[i] == s.subjectTransforms[i];
    assert r.value == s.subjectTransforms;
    if s.external.Some? {
      ExternalRoundTrip(s.external.value);
    }
    ReadSourceDict(d, s);
  }

  /** What `SourceToPy` puts under each key. */
  lemma SourceDictEntries(s: Source)
    ensures SourceToPy(s).PyDict?
    ensures var d := SourceToPy(s).entries;
            && "name" in d && d["name"] == PyStr(s.name)
            && "subject_transforms" in d && d["subject_transforms"].PyList?
            && |d["subject_transforms"].items| == |s.subjectTransforms|
            && (forall i :: 0 <= i < |s.subjectTransforms| ==> d["subject_transforms"].items[i] == TransformToPy(s.subjectTransforms[i]))
            && ("start_sequence" in d <==> s.startSequence.Some?)
            && (s.startSequence.Some? ==> d["start_sequence"] == PyInt(s.startSequence.value))
            && ("start_time" in d <==> s.startTime.Some?)
            && (s.startTime.Some? ==> d["start_time"] == PyDatetime(s.startTime.value))
            && ("filter_subject" in d <==> s.filterSubject.Some?)
            && (s.filterSubject.Some? ==> d["filter_subject"] == PyStr(s.filterSubject.value))
            && ("external" in d <==> s.external.Some?)
            && (s.external.Some? ==> d["external"] == ExternalToPy(s.external.value))
            && ("domain" in d <==> s.domain.Some?)
            && (s.domain.Some? ==> d["domain"] == PyStr(s.domain.value))
  {
  }

  /** `PySource` on a dict whose entries already read back as the fields of `s`. */
  lemma ReadSourceDict(d: map<string, Value>, s: Source)
    requires "name" in d && d["name"] == PyStr(s.name)
    requires "subject_transforms" in d && ExtractVec(d["subject_transforms"], PySubjectTransform) == Ok(s.subjectTransforms)
    requires ("start_sequence" in d <==> s.startSequence.Some?)
    requires s.startSequence.Some? ==> ExtractInt(d["start_sequence"], U64) == Ok(s.startSequence.value)
    requires ("start_time" in d <==> s.startTime.Some?)
    requires s.startTime.Some? ==> d["start_time"] == PyDatetime(s.startTime.value)
    requires ("filter_subject" in d <==> s.filterSubject.Some?)
    requires s.filterSubject.Some? ==> d["filter_subject"] == PyStr(s.filterSubject.value)
    requires ("external" in d <==> s.external.Some?)
    requires s.external.Some? ==> PyExternal(d["external"]) == Ok(s.external.value)
    requires ("domain" in d <==> s.domain.Some?)
    requires s.domain.Some? ==> d["domain"] == PyStr(s.domain.value)
    ensures PySource(PyDict(d)) == Ok(s)
  {
  }

  /** A named source with a present but unreadable optional key fails as a
      whole: a negative `start_sequence` does not fit a `u64`. */
  lemma BadStartSequenceFailsSource()
    ensures PySource(PyDict(map["name" := PyStr("a"), "start_sequence" := PyInt(-1)])) == Err(OutOfRange("u64"))
  {
  }

  /** The fields of `async_nats::jetstream::stream::Config` the converter
      can set. */
  datatype StreamConfig = StreamConfig(
    name: string,
    noAck: bool,
    allowDirect: bool,
    subjects: seq<string>,
    retention: RetentionPolicy,
    storage: StorageType,
    discard: DiscardPolicy,
    discardNewPerSubject: bool,
    compression: Option<Compression>,
    numReplicas: int,
    maxBytes: int,
    maxMessages: int,
    maxMessagesPerSubject: int,
    maxAge: Duration,
    maxMessageSize: int,
    maxConsumers: int,
    duplicateWindow: Duration,
    sealed: bool,
    mirrorDirect: bool,
    allowRollup: bool,
    denyDelete: bool,
    denyPurge: bool,
    allowMessageTtl: bool,
    allowAtomicPublish: bool,
    allowMessageSchedules: bool,
    allowMessageCounter: bool,
    description: Option<string>,
    templateOwner: string,
    firstSequence: Option<int>,
    metadata: map<string, string>,
    republish: Option<Republish>,
    mirror: Option<Source>,
    sources: Option<seq<Source>>,
    subjectTransform: Option<SubjectTransform>,
    consumerLimits: Option<ConsumerLimits>,
    placement: Option<Placement>,
    persistMode: Option<PersistenceMode>,
    pauseUntil: Option<int>,
    subjectDeleteMarkerTtl: Option<Duration>)

  /** `stream::Config::default()`: empty, zero, false or absent everywhere;
      limits retention, file storage, discard old. */
  const Default := StreamConfig(
    "", false, false, [], Limits, FileStorage, DiscardOld, false, None,
    0, 0, 0, 0, 0, 0, 0, 0,
    false, false, false, false, false, false, false, false, false,
    None, "", None, map[], None, None, None, None, None, None, None, None, None)

  /** The optional dict keys, one constructor per key. */
  datatype Key =
    | NoAck | AllowDirect | Subjects | Retention | Storage | Discard | DiscardNewPerSubject | Compress
    | NumReplicas | MaxBytes | MaxMessages | MaxMessagesPerSubject | MaxAge | MaxMessageSize | MaxConsumers
    | DuplicateWindow | Sealed | MirrorDirect | AllowRollup | DenyDelete | DenyPurge | AllowMessageTtl
    | AllowAtomicPublish | AllowMessageSchedules | AllowMessageCounter | Description | TemplateOwner
    | FirstSequence | Metadata | RepublishKey | Mirror | Sources | SubjectTransformKey | ConsumerLimitsKey
    | PlacementKey | PersistMode | PauseUntil | SubjectDeleteMarkerTtl

  /** The optional keys in the order the converter reads them. */
  const Keys: seq<Key> := [
    NoAck, AllowDirect, Subjects, Retention, Storage, Discard, DiscardNewPerSubject, Compress,
    NumReplicas, MaxBytes, MaxMessages, MaxMessagesPerSubject, MaxAge, MaxMessageSize, MaxConsumers,
    DuplicateWindow, Sealed, MirrorDirect, AllowRollup, DenyDelete, DenyPurge, AllowMessageTtl,
    AllowAtomicPublish, AllowMessageSchedules, AllowMessageCounter, Description, TemplateOwner,
    FirstSequence, Metadata, RepublishKey, Mirror, Sources, SubjectTransformKey, ConsumerLimitsKey,
    PlacementKey, PersistMode, PauseUntil, SubjectDeleteMarkerTtl]

  function KeyName(k: Key): string {
    match k
    case NoAck => "no_ack"
    case AllowDirect => "allow_direct"
    case Subjects => "subjects"
    case Retention => "retention"
    case Storage => "storage"
    case Discard => "discard"
    case DiscardNewPerSubject => "discard_new_per_subject"
    case Compress => "compression"
    case NumReplicas => "num_replicas"
    case MaxBytes => "max_bytes"
    case MaxMessages => "max_messages"
    case MaxMessagesPerSubject => "max_messages_per_subject"
    case MaxAge => "max_age"
    case MaxMessageSize => "max_message_size"
    case MaxConsumers => "max_consumers"
    case DuplicateWindow => "duplicate_window"
    case Sealed => "sealed"
    case MirrorDirect => "mirror_direct"
    case AllowRollup => "allow_rollup"
    case DenyDelete => "deny_delete"
    case DenyPurge => "deny_purge"
    case AllowMessageTtl => "allow_message_ttl"
    case AllowAtomicPublish => "allow_atomic_publish"
    case AllowMessageSchedules => "allow_message_schedules"
    case AllowMessageCounter => "allow_message_counter"
    case Description => "description"
    case TemplateOwner => "template_owner"
    case FirstSequence => "first_sequence"
    case Metadata => "metadata"
    case RepublishKey => "republish"
    case Mirror => "mirror"
    case Sources => "sources"
    case SubjectTransformKey => "subject_transform"
    case ConsumerLimitsKey => "consumer_limits"
    case PlacementKey => "placement"
    case PersistMode => "persist_mode"
    case PauseUntil => "pause_until"
    case SubjectDeleteMarkerTtl => "subject_delete_marker_ttl"
  }

  /** The value of one config field, whatever its type. */
  datatype FieldValue =
    | Flag(b: bool)
    | Text(s: string)
    | OptText(o: Option<string>)
    | Texts(ss: seq<string>)
    | Retain(rp: RetentionPolicy)
    | Store(st: StorageType)
    | Drop(dp: DiscardPolicy)
    | Compressed(c: Option<Compression>)
    | Number(n: int)
    | OptNumber(on: Option<int>)
    | Span(d: Duration)
    | OptSpan(od: Option<Duration>)
    | Labels(m: map<string, string>)
    | Republished(rep: Option<Republish>)
    | Mirrored(src: Option<Source>)
    | Sourced(srcs: Option<seq<Source>>)
    | Transformed(tr: Option<SubjectTransform>)
    | Limited(cl: Option<ConsumerLimits>)
    | Placed(pl: Option<Placement>)
    | Persisted(pm: Option<PersistenceMode>)

  /** The field key `k` owns. */
  function Field(c: StreamConfig, k: Key): FieldValue {
    match k
    case NoAck => Flag(c.noAck)
    case AllowDirect => Flag(c.allowDirect)
    case Subjects => Texts(c.subjects)
    case Retention => Retain(c.retention)
    case Storage => Store(c.storage)
    case Discard => Drop(c.discard)
    case DiscardNewPerSubject => Flag(c.discardNewPerSubject)
    case Compress => Compressed(c.compression)
    case NumReplicas => Number(c.numReplicas)
    case MaxBytes => Number(c.maxBytes)
    case MaxMessages => Number(c.maxMessages)
    case MaxMessagesPerSubject => Number(c.maxMessagesPerSubject)
    case MaxAge => Span(c.maxAge)
    case MaxMessageSize => Number(c.maxMessageSize)
    case MaxConsumers => Number(c.maxConsumers)
    case DuplicateWindow => Span(c.duplicateWindow)
    case Sealed => Flag(c.sealed)
    case MirrorDirect => Flag(c.mirrorDirect)
    case AllowRollup => Flag(c.allowRollup)
    case DenyDelete => Flag(c.denyDelete)
    case DenyPurge => Flag(c.denyPurge)
    case AllowMessageTtl => Flag(c.allowMessageTtl)
    case AllowAtomicPublish => Flag(c.allowAtomicPublish)
    case AllowMessageSchedules => Flag(c.allowMessageSchedules)
    case AllowMessageCounter => Flag(c.allowMessageCounter)
    case Description => OptText(c.description)
    case TemplateOwner => Text(c.templateOwner)
    case FirstSequence => OptNumber(c.firstSequence)
    case Metadata => Labels(c.metadata)
    case RepublishKey => Republished(c.republish)
    case Mirror => Mirrored(c.mirror)
    case Sources => Sourced(c.sources)
    case SubjectTransformKey => Transformed(c.subjectTransform)
    case ConsumerLimitsKey => Limited(c.consumerLimits)
    case PlacementKey => Placed(c.placement)
    case PersistMode => Persisted(c.persistMode)
    case PauseUntil => OptNumber(c.pauseUntil)
    case SubjectDeleteMarkerTtl => OptSpan(c.subjectDeleteMarkerTtl)
  }

  /** One `if let Some(value) = py_config_dict.get_item(key)?` block. */
  function Step(c: StreamConfig, k: Key, v: Value): Result<StreamConfig> {
    match k
    case NoAck => Ok(c.(noAck := IsTruthy(v)))
    case AllowDirect => Ok(c.(allowDirect := IsTruthy(v)))
    case Subjects => var x :- ExtractStrings(v); Ok(c.(subjects := x))
    case Retention => var s :- ExtractStr(v); var x :- ParseRetention(s); Ok(c.(retention := x))
    case Storage => var s :- ExtractStr(v); var x :- ParseStorage(s); Ok(c.(storage := x))
    case Discard => var s :- ExtractStr(v); var x :- ParseDiscard(s); Ok(c.(discard := x))
    case DiscardNewPerSubject => Ok(c.(discardNewPerSubject := IsTruthy(v)))
    case Compress => var s :- ExtractStr(v); var x :- ParseCompression(s); Ok(c.(compression := x))
    case NumReplicas => var x :- ExtractInt(v, Usize); Ok(c.(numReplicas := x))
    case MaxBytes => var x :- ExtractInt(v, I64); Ok(c.(maxBytes := x))
    case MaxMessages => var x :- ExtractInt(v, I64); Ok(c.(maxMessages := x))
    case MaxMessagesPerSubject => var x :- ExtractInt(v, I64); Ok(c.(maxMessagesPerSubject := x))
    case MaxAge => var x :- ExtractDuration(v); Ok(c.(maxAge := x))
    case MaxMessageSize => var x :- ExtractInt(v, I32); Ok(c.(maxMessageSize := x))
    case MaxConsumers => var x :- ExtractInt(v, I32); Ok(c.(maxConsumers := x))
    case DuplicateWindow => var x :- ExtractDuration(v); Ok(c.(duplicateWindow := x))
    case Sealed => Ok(c.(sealed := IsTruthy(v)))
    case MirrorDirect => Ok(c.(mirrorDirect := IsTruthy(v)))
    case AllowRollup => Ok(c.(allowRollup := IsTruthy(v)))
    case DenyDelete => Ok(c.(denyDelete := IsTruthy(v)))
    case DenyPurge => Ok(c.(denyPurge := IsTruthy(v)))
    case AllowMessageTtl => Ok(c.(allowMessageTtl := IsTruthy(v)))
    case AllowAtomicPublish => Ok(c.(allowAtomicPublish := IsTruthy(v)))
    case AllowMessageSchedules => Ok(c.(allowMessageSchedules := IsTruthy(v)))
    case AllowMessageCounter => Ok(c.(allowMessageCounter := IsTruthy(v)))
    case Description => var x :- ExtractStr(v); Ok(c.(description := Some(x)))
    case TemplateOwner => var x :- ExtractStr(v); Ok(c.(templateOwner := x))
    case FirstSequence => var x :- ExtractInt(v, U64); Ok(c.(firstSequence := Some(x)))
    case Metadata => var x :- ExtractStrMap(v); Ok(c.(metadata := x))
    case RepublishKey => var x :- PyRepublish(v); Ok(c.(republish := Some(x)))
    case Mirror => var x :- PySource(v); Ok(c.(mirror := Some(x)))
    case Sources => var x :- PySources(v); Ok(c.(sources := Some(x)))
    case SubjectTransformKey => var x :- PySubjectTransform(v); Ok(c.(subjectTransform := Some(x)))
    case ConsumerLimitsKey => var x :- PyConsumerLimits(v); Ok(c.(consumerLimits := Some(x)))
    case PlacementKey => var x :- PyPlacement(v); Ok(c.(placement := Some(x)))
    case PersistMode => var s :- ExtractStr(v); var x :- ParsePersistenceMode(s); Ok(c.(persistMode := Some(x)))
    case PauseUntil => var x :- ExtractDatetime(v); Ok(c.(pauseUntil := Some(x)))
    case SubjectDeleteMarkerTtl => var x :- ExtractDuration(v); Ok(c.(subjectDeleteMarkerTtl := Some(x)))
  }

  /** `py_to_stream_config`: the required `name` first, then the optional keys. */
  function Convert(d: map<string, Value>): Result<StreamConfig> {
    var name :- if "name" in d then ExtractStr(d["name"]) else Err(NoNameError);
    Overrides.Apply(Default.(name := name), d, Keys, KeyName, Step)
  }

  /** Each step writes only the field its key owns. */
  lemma StepsFramed()
    ensures Overrides.Framed(Step, Field)
  {
    forall c, k, v, k' | Step(c, k, v).Ok? && k' != k
      ensures Field(Step(c, k, v).value, k') == Field(c, k')
    {
      StepFramed(c, k, v, k');
    }
  }

  lemma StepFramed(c: StreamConfig, k: Key, v: Value, k': Key)
    requires Step(c, k, v).Ok? && k' != k
    ensures Field(Step(c, k, v).value, k') == Field(c, k')
  {
    if IndexOf(k) < 5 {
      StepFramedGroup1(c, k, v, k');
    } else if IndexOf(k) < 10 {
      StepFramedGroup2(c, k, v, k');
    } else if IndexOf(k) < 15 {
      StepFramedGroup3(c, k, v, k');
    } else if IndexOf(k) < 20 {
      StepFramedGroup4(c, k, v, k');
    } else if IndexOf(k) < 25 {
      StepFramedGroup5(c, k, v, k');
    } else if IndexOf(k) < 30 {
      StepFramedGroup6(c, k, v, k');
    } else if IndexOf(k) < 35 {
      StepFramedGroup7(c, k, v, k');
    } else {
      StepFramedGroup8(c, k, v, k');
    }
  }

  lemma StepFramedGroup1(c: StreamConfig, k: Key, v: Value, k': Key)
    requires Step(c, k, v).Ok? && k' != k && IndexOf(k) < 5
    ensures Field(Step(c, k, v).value, k') == Field(c, k')
  {
    if k == NoAck {
    } else if k == AllowDirect {
    } else if k == Subjects {
    } else if k == Retention {
    } else {
      assert k == Storage;
    }
  }

  lemma StepFramedGroup2(c: StreamConfig, k: Key, v: Value, k': Key)
    requires Step(c, k, v).Ok? && k' != k && 5 <= IndexOf(k) < 10
    ensures Field(Step(c, k, v).value, k') == Field(c, k')
  {
    if k == Discard {
    } else if k == DiscardNewPerSubject {
    } else if k == Compress {
    } else if k == NumReplicas {
    } else {
      assert k == MaxBytes;
    }
  }

  lemma StepFramedGroup3(c: StreamConfig, k: Key, v: Value, k': Key)
    requires Step(c, k, v).Ok? && k' != k && 10 <= IndexOf(k) < 15
    ensures Field(Step(c, k, v).value, k') == Field(c, k')
  {
    if k == MaxMessages {
    } else if k == MaxMessagesPerSubject {
    } else if k == MaxAge {
    } else if k == MaxMessageSize {
    } else {
      assert k == MaxConsumers;
    }
  }

  lemma StepFramedGroup4(c: StreamConfig, k: Key, v: Value, k': Key)
    requires Step(c, k, v).Ok? && k' != k && 15 <= IndexOf(k) < 20
    ensures Field(Step(c, k, v).value, k') == Field(c, k')
  {
    if k == DuplicateWindow {
    } else if k == Sealed {
    } else if k == MirrorDirect {
    } else if k == AllowRollup {
    } else {
      assert k == DenyDelete;
    }
  }

  lemma StepFramedGroup5(c: StreamConfig, k: Key, v: Value, k': Key)
    requires Step(c, k, v).Ok? && k' != k && 20 <= IndexOf(k) < 25
    ensures Field(Step(c, k, v).value, k') == Field(c, k')
  {
    if k == DenyPurge {
    } else if k == AllowMessageTtl {
    } else if k == AllowAtomicPublish {
    } else if k == AllowMessageSchedules {
    } else {
      assert k == AllowMessageCounter;
    }
  }

  lemma StepFramedGroup6(c: StreamConfig, k: Key, v: Value, k': Key)
    requires Step(c, k, v).Ok? && k' != k && 25 <= IndexOf(k) < 30
    ensures Field(Step(c, k, v).value, k') == Field(c, k')
  {
    if k == Description {
    } else if k == TemplateOwner {
    } else if k == FirstSequence {
    } else if k == Metadata {
    } else {
      assert k == RepublishKey;
    }
  }

  lemma StepFramedGroup7(c: StreamConfig, k: Key, v: Value, k': Key)
    requires Step(c, k, v).Ok? && k' != k && 30 <= IndexOf(k) < 35
    ensures Field(Step(c, k, v).value, k') == Field(c, k')
  {
    if k == Mirror {
    } else if k == Sources {
    } else if k == SubjectTransformKey {
    } else if k == ConsumerLimitsKey {
    } else {
      assert k == PlacementKey;
    }
  }

  lemma StepFramedGroup8(c: StreamConfig, k: Key, v: Value, k': Key)
    requires Step(c, k, v).Ok? && k' != k && 35 <= IndexOf(k)
    ensures Field(Step(c, k, v).value, k') == Field(c, k')
  {
    if k == PersistMode {
    } else if k == PauseUntil {
    } else {
      assert k == SubjectDeleteMarkerTtl;
    }
  }

  /** A step's outcome does not depend on the config it updates. */
  lemma StepsIndependent()
    ensures Overrides.Independent(Step, Field)
  {
  }

  /** No optional step touches the name. */
  lemma StepsKeepName()
    ensures Overrides.Keeps(Step, (c: StreamConfig) => c.name)
  {
    forall c, k, v | Step(c, k, v).Ok? ensures Step(c, k, v).value.name == c.name {
      StepKeepsName(c, k, v);
    }
  }

  lemma StepKeepsName(c: StreamConfig, k: Key, v: Value)
    requires Step(c, k, v).Ok?
    ensures Step(c, k, v).value.name == c.name
  {
    match k
    case NoAck =>
    case AllowDirect =>
    case Subjects =>
    case Retention =>
    case Storage =>
    case Discard =>
    case DiscardNewPerSubject =>
    case Compress =>
    case NumReplicas =>
    case MaxBytes =>
    case MaxMessages =>
    case MaxMessagesPerSubject =>
    case MaxAge =>
    case MaxMessageSize =>
    case MaxConsumers =>
    case DuplicateWindow =>
    case Sealed =>
    case MirrorDirect =>
    case AllowRollup =>
    case DenyDelete =>
    case DenyPurge =>
    case AllowMessageTtl =>
    case AllowAtomicPublish =>
    case AllowMessageSchedules =>
    case AllowMessageCounter =>
    case Description =>
    case TemplateOwner =>
    case FirstSequence =>
    case Metadata =>
    case RepublishKey =>
    case Mirror =>
    case Sources =>
    case SubjectTransformKey =>
    case ConsumerLimitsKey =>
    case PlacementKey =>
    case PersistMode =>
    case PauseUntil =>
    case SubjectDeleteMarkerTtl =>
  }


  /** The config the optional keys are applied to once `name` is read. */
  function Base(d: map<string, Value>): StreamConfig
    requires "name" in d && d["name"].PyStr?
  {
    Default.(name := d["name"].s)
  }

  /** All or nothing: the conversion succeeds exactly when `name` is a string
      and every optional key present parses. */
  lemma ConvertOkIff(d: map<string, Value>)
    ensures Convert(d).Ok? <==>
              "name" in d && d["name"].PyStr?
              && forall k :: KeyName(k) in d ==> Step(Default, k, d[KeyName(k)]).Ok?
  {
    if "name" in d && d["name"].PyStr? {
      var c := Base(d);
      assert Convert(d) == Overrides.Apply(c, d, Keys, KeyName, Step);
      assert Convert(d).Ok? <==>
             forall i :: 0 <= i < |Keys| && KeyName(Keys[i]) in d ==> Step(c, Keys[i], d[KeyName(Keys[i])]).Ok? by {
        StepsIndependent();
        Overrides.ApplyOutcome(c, d, Keys, KeyName, Step, Field);
      }
      if Convert(d).Ok? {
        forall k | KeyName(k) in d ensures Step(Default, k, d[KeyName(k)]).Ok? {
          var i := IndexOf(k);
          StepOkAnyBase(c, k, d[KeyName(k)]);
        }
      } else {
        var i :| 0 <= i < |Keys| && KeyName(Keys[i]) in d && !Step(c, Keys[i], d[KeyName(Keys[i])]).Ok?;
        StepOkAnyBase(c, Keys[i], d[KeyName(Keys[i])]);
      }
    }
  }

  /** Whether a step succeeds does not depend on the base config. */
  lemma StepOkAnyBase(c: StreamConfig, k: Key, v: Value)
    ensures Step(c, k, v).Ok? <==> Step(Default, k, v).Ok?
    ensures Step(c, k, v).Err? ==> Step(c, k, v) == Step(Default, k, v)
    ensures Step(c, k, v).Ok? ==> Field(Step(c, k, v).value, k) == Field(Step(Default, k, v).value, k)
  {
    StepsIndependent();
    assert Step(c, k, v).Ok? ==> Step(Default, k, v).Ok?;
    assert Step(Default, k, v).Ok? ==> Step(c, k, v).Ok?;
  }

  /** A failing conversion reports the missing name, the unreadable name, or
      the error of the first optional key, in reading order, that fails. */
  lemma ConvertFirstError(d: map<string, Value>)
    ensures "name" !in d ==> Convert(d) == Err(NoNameError)
    ensures "name" in d && !d["name"].PyStr? ==> Convert(d) == Err(ExtractStr(d["name"]).error)
    ensures "name" in d && d["name"].PyStr? && Convert(d).Err? ==>
              exists i :: 0 <= i < |Keys| && KeyName(Keys[i]) in d
                          && Step(Default, Keys[i], d[KeyName(Keys[i])]) == Err(Convert(d).error)
                          && forall j :: 0 <= j < i && KeyName(Keys[j]) in d ==> Step(Default, Keys[j], d[KeyName(Keys[j])]).Ok?
  {
    if "name" in d && d["name"].PyStr? && Convert(d).Err? {
      var c := Base(d);
      assert Convert(d) == Overrides.Apply(c, d, Keys, KeyName, Step);
      assert exists i :: 0 <= i < |Keys| && KeyName(Keys[i]) in d
                         && Step(c, Keys[i], d[KeyName(Keys[i])]) == Err(Convert(d).error)
                         && forall j :: 0 <= j < i && KeyName(Keys[j]) in d ==> Step(c, Keys[j], d[KeyName(Keys[j])]).Ok? by {
        StepsIndependent();
        Overrides.ApplyOutcome(c, d, Keys, KeyName, Step, Field);
      }
      var i :| 0 <= i < |Keys| && KeyName(Keys[i]) in d
               && Step(c, Keys[i], d[KeyName(Keys[i])]) == Err(Convert(d).error)
               && forall j :: 0 <= j < i && KeyName(Keys[j]) in d ==> Step(c, Keys[j], d[KeyName(Keys[j])]).Ok?;
      StepOkAnyBase(c, Keys[i], d[KeyName(Keys[i])]);
      forall j | 0 <= j < i && KeyName(Keys[j]) in d ensures Step(Default, Keys[j], d[KeyName(Keys[j])]).Ok? {
        StepOkAnyBase(c, Keys[j], d[KeyName(Keys[j])]);
      }
    }
  }

  /** A converted config carries the dict's `name`. */
  lemma ConvertName(d: map<string, Value>)
    ensures Convert(d).Ok? ==> "name" in d && d["name"] == PyStr(Convert(d).value.name)
  {
    if "name" in d && d["name"].PyStr? {
      StepsKeepName();
      Overrides.ApplyKeeps(Base(d), d, Keys, KeyName, Step, (c: StreamConfig) => c.name);
    }
  }

  /** The optional keys over the base config: `ConvertFields` before the
      step outcomes are moved to the default config. */
  lemma ApplyFields(d: map<string, Value>, k: Key)
    requires "name" in d && d["name"].PyStr?
    requires Overrides.Apply(Base(d), d, Keys, KeyName, Step).Ok?
    ensures KeyName(k) in d ==>
              Step(Base(d), k, d[KeyName(k)]).Ok?
              && Field(Overrides.Apply(Base(d), d, Keys, KeyName, Step).value, k) == Field(Step(Base(d), k, d[KeyName(k)]).value, k)
    ensures KeyName(k) !in d ==> Field(Overrides.Apply(Base(d), d, Keys, KeyName, Step).value, k) == Field(Base(d), k)
  {
    StepsFramed();
    var i := IndexOf(k);
    if KeyName(k) in d {
      StepsIndependent();
      Overrides.ApplySetsPresent(Base(d), d, Keys, KeyName, Step, Field, k);
    } else {
      Overrides.ApplyKeepsAbsent(Base(d), d, Keys, KeyName, Step, Field, k);
    }
  }

  /** Only the keys present change fields: each field holds the value parsed
      from its key when the key is present, and its default otherwise. */
  lemma ConvertFields(d: map<string, Value>, k: Key)
    requires Convert(d).Ok?
    ensures KeyName(k) in d ==> Step(Default, k, d[KeyName(k)]).Ok?
                                && Field(Convert(d).value, k) == Field(Step(Default, k, d[KeyName(k)]).value, k)
    ensures KeyName(k) !in d ==> Field(Convert(d).value, k) == Field(Default, k)
  {
    assert "name" in d && d["name"].PyStr?;
    assert Convert(d) == Overrides.Apply(Base(d), d, Keys, KeyName, Step);
    ApplyFields(d, k);
    if KeyName(k) in d {
      StepOkAnyBase(Base(d), k, d[KeyName(k)]);
    } else {
      BaseFields(d, k);
    }
  }

  /** The base config differs from the default only in its name. */
  lemma BaseFields(d: map<string, Value>, k: Key)
    requires "name" in d && d["name"].PyStr?
    ensures Field(Base(d), k) == Field(Default, k)
  {
  }

  /** What one present key contributes: its step must succeed for the
      conversion to succeed, and then its field holds the parsed value. */
  lemma ConvertKey(d: map<string, Value>, k: Key)
    requires KeyName(k) in d
    ensures Convert(d).Ok? ==> Step(Default, k, d[KeyName(k)]).Ok?
                               && Field(Convert(d).value, k) == Field(Step(Default, k, d[KeyName(k)]).value, k)
  {
    if Convert(d).Ok? {
      ConvertFields(d, k);
    }
  }

  /** `name` is read on its own, never as one of the optional keys. */
  lemma KeyNameIsNotName(k: Key)
    ensures KeyName(k) != "name"
  {
  }

  /** A dict holding only a name gives the default config with that name. */
  lemma NameOnlyGivesDefault(d: map<string, Value>, n: string)
    requires d.Keys == {"name"} && d["name"] == PyStr(n)
    ensures Convert(d) == Ok(Default.(name := n))
  {
    assert Convert(d).Ok? by {
      forall k ensures KeyName(k) !in d {
        KeyNameIsNotName(k);
      }
      ConvertOkIff(d);
    }
    var r := Convert(d).value;
    assert r.name == n by {
      ConvertName(d);
    }
    assert forall k :: Field(r, k) == Field(Base(d), k) by {
      forall k ensures Field(r, k) == Field(Base(d), k) {
        KeyNameIsNotName(k);
        ConvertFields(d, k);
        BaseFields(d, k);
      }
    }
    assert r == Base(d) by {
      FieldsCoverConfig(r, Base(d));
    }
  }

  /** One bad `sources` entry fails the whole conversion; when it succeeds,
      `sources` holds every entry converted, in order. */
  lemma SourcesAllOrNothing(d: map<string, Value>)
    requires "sources" in d
    ensures Convert(d).Ok? ==>
              && d["sources"].PyList?
              && Convert(d).value.sources.Some?
              && |Convert(d).value.sources.value| == |d["sources"].items|
              && forall i :: 0 <= i < |d["sources"].items| ==>
                   PySource(d["sources"].items[i]).Ok? && Convert(d).value.sources.value[i] == PySource(d["sources"].items[i]).value
    ensures d["sources"].PyList? && (exists i :: 0 <= i < |d["sources"].items| && PySource(d["sources"].items[i]).Err?) ==>
              Convert(d).Err?
  {
    var v := d["sources"];
    assert KeyName(Sources) == "sources";
    ConvertKey(d, Sources);
    StepSources(Default, v);
  }

  lemma StepSources(c: StreamConfig, v: Value)
    ensures Step(c, Sources, v).Ok? <==> PySources(v).Ok?
    ensures Step(c, Sources, v).Ok? ==> Field(Step(c, Sources, v).value, Sources) == Sourced(Some(PySources(v).value))
  {
  }

  /** The compression string maps to the stored setting, "none" to no
      compression, and anything else fails the conversion. */
  lemma CompressionFromString(d: map<string, Value>, s: string)
    requires "compression" in d && d["compression"] == PyStr(s)
    ensures Convert(d).Ok? ==> (s == "none" && Convert(d).value.compression == None)
                               || (s == "s2" && Convert(d).value.compression == Some(S2))
    ensures s !in {"none", "s2"} ==> Convert(d).Err?
  {
    assert KeyName(Compress) == "compression";
    ConvertKey(d, Compress);
    StepCompression(Default, s);
  }

  lemma StepCompression(c: StreamConfig, s: string)
    ensures Step(c, Compress, PyStr(s)).Ok? <==> ParseCompression(s).Ok?
    ensures Step(c, Compress, PyStr(s)).Ok? ==> Field(Step(c, Compress, PyStr(s)).value, Compress) == Compressed(ParseCompression(s).value)
  {
  }

  /** A mirror without a name is rejected along with the whole config. */
  lemma MirrorNeedsName(d: map<string, Value>)
    requires "mirror" in d && d["mirror"].PyDict? && "name" !in d["mirror"].entries
    ensures Convert(d).Err?
  {
    assert KeyName(Mirror) == "mirror";
    assert !Step(Default, Mirror, d["mirror"]).Ok?;
    ConvertKey(d, Mirror);
  }

  /** The name and the keys own every field: two configs differ exactly when
      they differ on the name or on some key's field. */
  lemma FieldsCoverConfig(a: StreamConfig, b: StreamConfig)
    ensures a != b ==> a.name != b.name || exists k :: Field(a, k) != Field(b, k)
  {
    FieldsCoverGroup1(a, b);
    FieldsCoverGroup2(a, b);
    FieldsCoverGroup3(a, b);
    FieldsCoverGroup4(a, b);
    FieldsCoverGroup5(a, b);
    FieldsCoverGroup6(a, b);
    FieldsCoverGroup7(a, b);
    FieldsCoverGroup8(a, b);
  }

  lemma FieldsCoverGroup1(a: StreamConfig, b: StreamConfig)
    ensures a.noAck != b.noAck || a.allowDirect != b.allowDirect || a.subjects != b.subjects || a.retention != b.retention || a.storage != b.storage ==> exists k :: Field(a, k) != Field(b, k)
  {
    if a.noAck != b.noAck {
      assert Field(a, NoAck) != Field(b, NoAck);
    } else if a.allowDirect != b.allowDirect {
      assert Field(a, AllowDirect) != Field(b, AllowDirect);
    } else if a.subjects != b.subjects {
      assert Field(a, Subjects) != Field(b, Subjects);
    } else if a.retention != b.retention {
      assert Field(a, Retention) != Field(b, Retention);
    } else if a.storage != b.storage {
      assert Field(a, Storage) != Field(b, Storage);
    }
  }

  lemma FieldsCoverGroup2(a: StreamConfig, b: StreamConfig)
    ensures a.discard != b.discard || a.discardNewPerSubject != b.discardNewPerSubject || a.compression != b.compression || a.numReplicas != b.numReplicas || a.maxBytes != b.maxBytes ==> exists k :: Field(a, k) != Field(b, k)
  {
    if a.discard != b.discard {
      assert Field(a, Discard) != Field(b, Discard);
    } else if a.discardNewPerSubject != b.discardNewPerSubject {
      assert Field(a, DiscardNewPerSubject) != Field(b, DiscardNewPerSubject);
    } else if a.compression != b.compression {
      assert Field(a, Compress) != Field(b, Compress);
    } else if a.numReplicas != b.numReplicas {
      assert Field(a, NumReplicas) != Field(b, NumReplicas);
    } else if a.maxBytes != b.maxBytes {
      assert Field(a, MaxBytes) != Field(b, MaxBytes);
    }
  }

  lemma FieldsCoverGroup3(a: StreamConfig, b: StreamConfig)
    ensures a.maxMessages != b.maxMessages || a.maxMessagesPerSubject != b.maxMessagesPerSubject || a.maxAge != b.maxAge || a.maxMessageSize != b.maxMessageSize || a.maxConsumers != b.maxConsumers ==> exists k :: Field(a, k) != Field(b, k)
  {
    if a.maxMessages != b.maxMessages {
      assert Field(a, MaxMessages) != Field(b, MaxMessages);
    } else if a.maxMessagesPerSubject != b.maxMessagesPerSubject {
      assert Field(a, MaxMessagesPerSubject) != Field(b, MaxMessagesPerSubject);
    } else if a.maxAge != b.maxAge {
      assert Field(a, MaxAge) != Field(b, MaxAge);
    } else if a.maxMessageSize != b.maxMessageSize {
      assert Field(a, MaxMessageSize) != Field(b, MaxMessageSize);
    } else if a.maxConsumers != b.maxConsumers {
      assert Field(a, MaxConsumers) != Field(b, MaxConsumers);
    }
  }

  lemma FieldsCoverGroup4(a: StreamConfig, b: StreamConfig)
    ensures a.duplicateWindow != b.duplicateWindow || a.sealed != b.sealed || a.mirrorDirect != b.mirrorDirect || a.allowRollup != b.allowRollup || a.denyDelete != b.denyDelete ==> exists k :: Field(a, k) != Field(b, k)
  {
    if a.duplicateWindow != b.duplicateWindow {
      assert Field(a, DuplicateWindow) != Field(b, DuplicateWindow);
    } else if a.sealed != b.sealed {
      assert Field(a, Sealed) != Field(b, Sealed);
    } else if a.mirrorDirect != b.mirrorDirect {
      assert Field(a, MirrorDirect) != Field(b, MirrorDirect);
    } else if a.allowRollup != b.allowRollup {
      assert Field(a, AllowRollup) != Field(b, AllowRollup);
    } else if a.denyDelete != b.denyDelete {
      assert Field(a, DenyDelete) != Field(b, DenyDelete);
    }
  }

  lemma FieldsCoverGroup5(a: StreamConfig, b: StreamConfig)
    ensures a.denyPurge != b.denyPurge || a.allowMessageTtl != b.allowMessageTtl || a.allowAtomicPublish != b.allowAtomicPublish || a.allowMessageSchedules != b.allowMessageSchedules || a.allowMessageCounter != b.allowMessageCounter ==> exists k :: Field(a, k) != Field(b, k)
  {
    if a.denyPurge != b.denyPurge {
      assert Field(a, DenyPurge) != Field(b, DenyPurge);
    } else if a.allowMessageTtl != b.allowMessageTtl {
      assert Field(a, AllowMessageTtl) != Field(b, AllowMessageTtl);
    } else if a.allowAtomicPublish != b.allowAtomicPublish {
      assert Field(a, AllowAtomicPublish) != Field(b, AllowAtomicPublish);
    } else if a.allowMessageSchedules != b.allowMessageSchedules {
      assert Field(a, AllowMessageSchedules) != Field(b, AllowMessageSchedules);
    } else if a.allowMessageCounter != b.allowMessageCounter {
      assert Field(a, AllowMessageCounter) != Field(b, AllowMessageCounter);
    }
  }

  lemma FieldsCoverGroup6(a: StreamConfig, b: StreamConfig)
    ensures a.description != b.description || a.templateOwner != b.templateOwner || a.firstSequence != b.firstSequence || a.metadata != b.metadata || a.republish != b.republish ==> exists k :: Field(a, k) != Field(b, k)
  {
    if a.description != b.description {
      assert Field(a, Description) != Field(b, Description);
    } else if a.templateOwner != b.templateOwner {
      assert Field(a, TemplateOwner) != Field(b, TemplateOwner);
    } else if a.firstSequence != b.firstSequence {
      assert Field(a, FirstSequence) != Field(b, FirstSequence);
    } else if a.metadata != b.metadata {
      assert Field(a, Metadata) != Field(b, Metadata);
    } else if a.republish != b.republish {
      assert Field(a, RepublishKey) != Field(b, RepublishKey);
    }
  }

  lemma FieldsCoverGroup7(a: StreamConfig, b: StreamConfig)
    ensures a.mirror != b.mirror || a.sources != b.sources || a.subjectTransform != b.subjectTransform || a.consumerLimits != b.consumerLimits || a.placement != b.placement ==> exists k :: Field(a, k) != Field(b, k)
  {
    if a.mirror != b.mirror {
      assert Field(a, Mirror) != Field(b, Mirror);
    } else if a.sources != b.sources {
      assert Field(a, Sources) != Field(b, Sources);
    } else if a.subjectTransform != b.subjectTransform {
      assert Field(a, SubjectTransformKey) != Field(b, SubjectTransformKey);
    } else if a.consumerLimits != b.consumerLimits {
      assert Field(a, ConsumerLimitsKey) != Field(b, ConsumerLimitsKey);
    } else if a.placement != b.placement {
      assert Field(a, PlacementKey) != Field(b, PlacementKey);
    }
  }

  lemma FieldsCoverGroup8(a: StreamConfig, b: StreamConfig)
    ensures a.persistMode != b.persistMode || a.pauseUntil != b.pauseUntil || a.subjectDeleteMarkerTtl != b.subjectDeleteMarkerTtl ==> exists k :: Field(a, k) != Field(b, k)
  {
    if a.persistMode != b.persistMode {
      assert Field(a, PersistMode) != Field(b, PersistMode);
    } else if a.pauseUntil != b.pauseUntil {
      assert Field(a, PauseUntil) != Field(b, PauseUntil);
    } else if a.subjectDeleteMarkerTtl != b.subjectDeleteMarkerTtl {
      assert Field(a, SubjectDeleteMarkerTtl) != Field(b, SubjectDeleteMarkerTtl);
    }
  }

  /** Where key `k` sits in the reading order. */
  function IndexOf(k: Key): (i: nat)
    ensures i < |Keys| && Keys[i] == k
  {
    match k
    case NoAck => 0
    case AllowDirect => 1
    case Subjects => 2
    case Retention => 3
    case Storage => 4
    case Discard => 5
    case DiscardNewPerSubject => 6
    case Compress => 7
    case NumReplicas => 8
    case MaxBytes => 9
    case MaxMessages => 10
    case MaxMessagesPerSubject => 11
    case MaxAge => 12
    case MaxMessageSize => 13
    case MaxConsumers => 14
    case DuplicateWindow => 15
    case Sealed => 16
    case MirrorDirect => 17
    case AllowRollup => 18
    case DenyDelete => 19
    case DenyPurge => 20
    case AllowMessageTtl => 21
    case AllowAtomicPublish => 22
    case AllowMessageSchedules => 23
    case AllowMessageCounter => 24
    case Description => 25
    case TemplateOwner => 26
    case FirstSequence => 27
    case Metadata => 28
    case RepublishKey => 29
    case Mirror => 30
    case Sources => 31
    case SubjectTransformKey => 32
    case ConsumerLimitsKey => 33
    case PlacementKey => 34
    case PersistMode => 35
    case PauseUntil => 36
    case SubjectDeleteMarkerTtl => 37
  }
}
