/** The host (Python) values that cross the binding boundary, and the PyO3
    extractions the converters apply to them.

    A Python dict is a `map<string, Value>`: every dict the converters read is
    looked up by string key. Durations and datetimes are opaque tokens: their
    own validation belongs to the `time` crate and to PyO3, not to the bindings. */
module PyValues {
  import opened Outcomes

  type Byte = b: int | 0 <= b < 256

  /** A `std::time::Duration`, as a whole number of microseconds. */
  type Duration = nat

  datatype Value =
    | PyNone
    | PyBool(b: bool)
    | PyInt(i: int)
    | PyStr(s: string)
    | PyBytes(bytes: seq<Byte>)
    | PyList(items: seq<Value>)
    | PyDict(entries: map<string, Value>)
    | PyTimedelta(micros: int)   // a `datetime.timedelta`, which may be negative
    | PyDatetime(instant: int)

  /** `PyDict::get_item`: a missing key is not an error, only an absent value. */
  function DictGet(d: map<string, Value>, key: string): (r: Option<Value>)
    ensures r.Some? <==> key in d
    ensures r.Some? ==> r.value == d[key]
  {
    if key in d then Some(d[key]) else None
  }

  /** `PyAnyMethods::get_item`, i.e. `obj[key]`: a missing key raises KeyError
      and an object that is not a mapping cannot be subscripted by a string. */
  function GetItem(obj: Value, key: string): (r: Result<Value>)
    ensures r.Ok? <==> obj.PyDict? && key in obj.entries
    ensures r.Ok? ==> r.value == obj.entries[key]
    ensures obj.PyDict? && key !in obj.entries ==> r == Err(MissingKey(key))
  {
    match obj
    case PyDict(entries) =>
      if key in entries then Ok(entries[key]) else Err(MissingKey(key))
    case _ => Err(TypeMismatch("PyDict"))
  }

  /** Python truthiness (`PyAnyMethods::is_truthy`) of the built-in values above. */
  predicate IsTruthy(v: Value) {
    match v
    case PyNone => false
    case PyBool(b) => b
    case PyInt(i) => i != 0
    case PyStr(s) => s != ""
    case PyBytes(bs) => bs != []
    case PyList(items) => items != []
    case PyDict(entries) => entries != map[]
    case PyTimedelta(m) => m != 0
    case PyDatetime(_) => true
  }

  /** Extraction into `String` (or `&str`): only a Python `str` converts. */
  function ExtractStr(v: Value): (r: Result<string>)
    ensures r.Ok? <==> v.PyStr?
    ensures r.Ok? ==> r.value == v.s
  {
    if v.PyStr? then Ok(v.s) else Err(TypeMismatch("PyString"))
  }

  /** Extraction into `Option<String>`: `None` is `None`, a `str` is `Some`. */
  function ExtractOptStr(v: Value): (r: Result<Option<string>>)
    ensures r.Ok? <==> v.PyNone? || v.PyStr?
    ensures r == Ok(None) <==> v.PyNone?
    ensures v.PyStr? ==> r == Ok(Some(v.s))
  {
    match v
    case PyNone => Ok(None)
    case PyStr(s) => Ok(Some(s))
    case _ => Err(TypeMismatch("PyString"))
  }

  /** The Rust integer types the bindings extract into, as closed ranges. */
  datatype IntType = I32 | I64 | U8 | U64 | Usize {
    function Min(): int {
      match this
      case I32 => -0x8000_0000
      case I64 => -0x8000_0000_0000_0000
      case U8 => 0
      case U64 => 0
      case Usize => 0
    }
    function Max(): int {
      match this
      case I32 => 0x7fff_ffff
      case I64 => 0x7fff_ffff_ffff_ffff
      case U8 => 0xff
      case U64 => 0xffff_ffff_ffff_ffff
      case Usize => 0xffff_ffff_ffff_ffff   // a 64-bit target
    }
    function Name(): string {
      match this
      case I32 => "i32"
      case I64 => "i64"
      case U8 => "u8"
      case U64 => "u64"
      case Usize => "usize"
    }
  }

  /** The integer a Python value stands for: an `int`, or a `bool` (an `int` subclass). */
  function AsInteger(v: Value): (r: Option<int>)
    ensures r.Some? <==> v.PyInt? || v.PyBool?
  {
    match v
    case PyInt(i) => Some(i)
    case PyBool(b) => Some(if b then 1 else 0)
    case _ => None
  }

  /** Extraction into a Rust integer type: a non-integer is a type error, an
      integer outside the target's range raises OverflowError. */
  function ExtractInt(v: Value, t: IntType): (r: Result<int>)
    ensures r.Ok? <==> AsInteger(v).Some? && t.Min() <= AsInteger(v).value <= t.Max()
    ensures r.Ok? ==> r.value == AsInteger(v).value && t.Min() <= r.value <= t.Max()
    ensures AsInteger(v).Some? && !r.Ok? ==> r == Err(OutOfRange(t.Name()))
  {
    match AsInteger(v)
    case None => Err(TypeMismatch("PyInt"))
    case Some(i) => if t.Min() <= i <= t.Max() then Ok(i) else Err(OutOfRange(t.Name()))
  }

  /** The message PyO3 raises (as ValueError) for a negative `timedelta`. */
  const NegativeDuration := "It is not possible to convert a negative timedelta to a Rust Duration"

  /** A value that extracts into `std::time::Duration`. */
  predicate IsDuration(v: Value) {
    v.PyTimedelta? && v.micros >= 0
  }

  /** Extraction into `std::time::Duration`: only a `timedelta` converts,
      and a negative one raises ValueError, since a `Duration` is unsigned. */
  function ExtractDuration(v: Value): (r: Result<Duration>)
    ensures r.Ok? <==> IsDuration(v)
    ensures r.Ok? ==> r.value == v.micros
    ensures v.PyTimedelta? && v.micros < 0 ==> r == Err(Invalid(NegativeDuration))
  {
    if !v.PyTimedelta? then Err(TypeMismatch("PyDelta"))
    else if v.micros < 0 then Err(Invalid(NegativeDuration))
    else Ok(v.micros)
  }

  /** `py_to_offset_datetime` (rust/src/bindings/converters/offset_datetime.rs):
      anything that is not a `datetime` fails with "Expected datetime". */
  function ExtractDatetime(v: Value): (r: Result<int>)
    ensures r.Ok? <==> v.PyDatetime?
    ensures r.Ok? ==> r.value == v.instant
    ensures !v.PyDatetime? ==> r == Err(Invalid("Expected datetime"))
  {
    if v.PyDatetime? then Ok(v.instant) else Err(Invalid("Expected datetime"))
  }

  /** Converts every element with `f`, all or nothing: the first element that
      fails decides the error, as `collect::<Result<Vec<_>, _>>()` does. */
  function ExtractEach<T>(items: seq<Value>, f: Value -> Result<T>): (r: Result<seq<T>>)
    ensures r.Ok? <==> forall i :: 0 <= i < |items| ==> f(items[i]).Ok?
    ensures r.Ok? ==> |r.value| == |items| && forall i :: 0 <= i < |items| ==> r.value[i] == f(items[i]).value
    ensures r.Err? ==> exists i :: 0 <= i < |items| && f(items[i]) == Err(r.error)
                                   && forall j :: 0 <= j < i ==> f(items[j]).Ok?
  {
    if items == [] then Ok([])
    else
      var head :- f(items[0]);
      var tail :- ExtractEach(items[1..], f);
      assert forall i :: 1 <= i < |items| ==> items[i] == items[1..][i - 1];
      Ok([head] + tail)
  }

  /** Extraction into `Vec<T>`: a list converts element by element; a `str`
      (which PyO3 refuses to split) and every other value are type errors. */
  function ExtractVec<T>(v: Value, f: Value -> Result<T>): (r: Result<seq<T>>)
    ensures r.Ok? <==> v.PyList? && forall i :: 0 <= i < |v.items| ==> f(v.items[i]).Ok?
    ensures r.Ok? ==> |r.value| == |v.items| && forall i :: 0 <= i < |v.items| ==> r.value[i] == f(v.items[i]).value
  {
    if v.PyList? then ExtractEach(v.items, f) else Err(TypeMismatch("Sequence"))
  }

  /** Extraction into `Vec<String>`. */
  function ExtractStrings(v: Value): (r: Result<seq<string>>)
    ensures r.Ok? <==> v.PyList? && forall i :: 0 <= i < |v.items| ==> v.items[i].PyStr?
    ensures r.Ok? ==> |r.value| == |v.items| && forall i :: 0 <= i < |v.items| ==> r.value[i] == v.items[i].s
  {
    ExtractVec(v, ExtractStr)
  }

  /** Extraction into `Vec<Duration>`. */
  function ExtractDurations(v: Value): (r: Result<seq<Duration>>)
    ensures r.Ok? <==> v.PyList? && forall i :: 0 <= i < |v.items| ==> IsDuration(v.items[i])
    ensures r.Ok? ==> |r.value| == |v.items| && forall i :: 0 <= i < |v.items| ==> r.value[i] == v.items[i].micros
  {
    ExtractVec(v, ExtractDuration)
  }

  /** Extraction into `HashMap<String, String>`: a dict whose values are all strings. */
  function ExtractStrMap(v: Value): (r: Result<map<string, string>>)
    ensures r.Ok? <==> v.PyDict? && forall k :: k in v.entries ==> v.entries[k].PyStr?
    ensures r.Ok? ==> r.value.Keys == v.entries.Keys && forall k :: k in r.value ==> r.value[k] == v.entries[k].s
  {
    if !v.PyDict? then Err(TypeMismatch("PyDict"))
    else if exists k :: k in v.entries && !v.entries[k].PyStr? then Err(TypeMismatch("PyString"))
    else Ok(map k | k in v.entries :: v.entries[k].s)
  }
}
