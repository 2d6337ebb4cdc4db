/** A received NATS message and the dict the bindings hand to the host for it
    (rust/src/bindings/converters/message.rs). */
module Messages {
  import opened Outcomes
  import opened PyValues
  import Headers

  /** A NATS status code, carried as its `u16` value. */
  type StatusCode = c: int | 0 <= c < 0x1_0000

  datatype Message = Message(
    subject: string,
    reply: Option<string>,
    payload: seq<Byte>,
    headers: Option<Headers.HeaderMap>,
    status: Option<StatusCode>,
    description: Option<string>)

  /** The only keys a message dict may carry. */
  const MessageKeys: set<string> := {"subject", "reply", "payload", "headers", "status", "description"}

  /** `Message::into_pyobject`: `subject` and `payload` always; `reply`,
      `headers`, `status` and `description` exactly when the message has them. */
  function ToPyDict(m: Message): (d: map<string, Value>)
    ensures d.Keys <= MessageKeys
    ensures "subject" in d && d["subject"] == PyStr(m.subject)
    ensures "payload" in d && d["payload"] == PyBytes(m.payload)
    ensures "reply" in d <==> m.reply.Some?
    ensures m.reply.Some? ==> d["reply"] == PyStr(m.reply.value)
    ensures "headers" in d <==> m.headers.Some?
    ensures m.headers.Some? ==> d["headers"] == Headers.ToPyValue(m.headers.value)
    ensures "status" in d <==> m.status.Some?
    ensures m.status.Some? ==> d["status"] == PyInt(m.status.value)
    ensures "description" in d <==> m.description.Some?
    ensures m.description.Some? ==> d["description"] == PyStr(m.description.value)
  {
    var d0 := map["subject" := PyStr(m.subject)];
    var d1 := if m.reply.Some? then d0["reply" := PyStr(m.reply.value)] else d0;
    var d2 := d1["payload" := PyBytes(m.payload)];
    var d3 := if m.headers.Some? then d2["headers" := Headers.ToPyValue(m.headers.value)] else d2;
    var d4 := if m.status.Some? then d3["status" := PyInt(m.status.value)] else d3;
    if m.description.Some? then d4["description" := PyStr(m.description.value)] else d4
  }

  /** Reads an optional `str` entry of a message dict. */
  function OptionalStr(d: map<string, Value>, key: string): (r: Result<Option<string>>)
    ensures key !in d ==> r == Ok(None)
    ensures key in d && d[key].PyStr? ==> r == Ok(Some(d[key].s))
  {
    if key !in d then Ok(None)
    else var s :- ExtractStr(d[key]); Ok(Some(s))
  }

  /** How a host reads a message dict back: the inverse of `ToPyDict` on
      messages whose headers hold one value per name. */
  function FromPyDict(d: map<string, Value>): (r: Result<Message>)
  {
    var subject :- GetItem(PyDict(d), "subject");
    var subject :- ExtractStr(subject);
    var payload :- GetItem(PyDict(d), "payload");
    var payload :- if payload.PyBytes? then Ok(payload.bytes) else Err(TypeMismatch("PyBytes"));
    var reply :- OptionalStr(d, "reply");
    var headers :-
      if "headers" !in d then Ok(None)
      else var h :- ExtractStrMap(d["headers"]); Ok(Some(Headers.FromDict(h)));
    var status :-
      if "status" !in d then Ok(None)
      else if d["status"].PyInt? && 0 <= d["status"].i < 0x1_0000 then Ok(Some(d["status"].i as StatusCode))
      else Err(TypeMismatch("u16"));
    var description :- OptionalStr(d, "description");
    Ok(Message(subject, reply, payload, headers, status, description))
  }

  /** The message a host sees: each header name keeps only its last value,
      and names without values disappear. */
  function HostView(m: Message): (v: Message)
    ensures v.subject == m.subject && v.reply == m.reply && v.payload == m.payload
    ensures v.status == m.status && v.description == m.description
    ensures v.headers.Some? <==> m.headers.Some?
    ensures m.headers.Some? ==> v.headers.value == Headers.FromDict(Headers.ToDict(m.headers.value))
  {
    match m.headers
    case None => m
    case Some(h) => m.(headers := Some(Headers.FromDict(Headers.ToDict(h))))
  }

  /** Reading back the dict of a message recovers the message as the host
      sees it; no field is lost or invented by `ToPyDict`. */
  lemma RoundTrip(m: Message)
    ensures FromPyDict(ToPyDict(m)) == Ok(HostView(m))
  {
    var d := ToPyDict(m);
    if m.headers.Some? {
      var hv := d["headers"];
      var strs := Headers.ToDict(m.headers.value);
      var r := ExtractStrMap(hv);
      assert r.Ok?;
      assert r.value.Keys == strs.Keys;
      assert forall n :: n in r.value ==> r.value[n] == strs[n];
      assert r.value == strs;
    }
  }

  /** With single-valued headers the round trip is exact. */
  lemma RoundTripExact(m: Message)
    requires m.headers.Some? ==> forall n :: n in m.headers.value ==> |m.headers.value[n]| == 1
    ensures FromPyDict(ToPyDict(m)) == Ok(m)
  {
    RoundTrip(m);
    if m.headers.Some? {
      Headers.HeaderMapRoundTrip(m.headers.value);
    }
  }
}
