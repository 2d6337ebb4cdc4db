/** The header multimap of a NATS message and its two conversions across
    the binding boundary (rust/src/bindings/converters/headermap.rs).

    A header map maps each header name to the sequence of values appended
    under it, oldest first. Names are compared as exact strings. */
module Headers {
  import opened Outcomes
  import opened PyValues

  type HeaderMap = map<string, seq<string>>

  /** The values recorded under `name`; none when the name is absent. */
  function ValuesOf(h: HeaderMap, name: string): seq<string> {
    if name in h then h[name] else []
  }

  /** `async_nats::HeaderMap::append`: adds one more value under `name`,
      keeping every value already there. */
  function Append(h: HeaderMap, name: string, value: string): (r: HeaderMap)
    ensures r.Keys == h.Keys + {name}
    ensures r[name] == ValuesOf(h, name) + [value]
    ensures forall n :: n in h && n != name ==> r[n] == h[n]
  {
    h[name := ValuesOf(h, name) + [value]]
  }

  /** `HeaderMap::into_pyobject`: each name that has at least one value
      becomes one dict key, bound to the LAST value appended under it. */
  function ToDict(h: HeaderMap): (d: map<string, string>)
    ensures forall n :: n in d <==> n in h && h[n] != []
    ensures forall n :: n in d ==> d[n] == h[n][|h[n]| - 1]
  {
    map n | n in h && h[n] != [] :: h[n][|h[n]| - 1]
  }

  /** The Python dict `into_pyobject` builds: string keys to `str` values. */
  function ToPyValue(h: HeaderMap): (v: Value)
    ensures v.PyDict? && v.entries.Keys == ToDict(h).Keys
    ensures forall n :: n in v.entries ==> v.entries[n] == PyStr(ToDict(h)[n])
  {
    var d := ToDict(h);
    PyDict(map n | n in d :: PyStr(d[n]))
  }

  /** The header map that holds exactly one value per dict entry: what
      appending every entry of a string dict to an empty map produces. */
  function FromDict(d: map<string, string>): (h: HeaderMap)
    ensures h.Keys == d.Keys
    ensures forall n :: n in h ==> h[n] == [d[n]]
  {
    map n | n in d :: [d[n]]
  }

  /** `HeaderMap::extract`: a non-dict is refused; otherwise each (name, value)
      item of the dict, visited in any order, is appended to an initially
      empty map, and a value that is not a `str` aborts the extraction. */
  method Extract(obj: Value) returns (r: Result<HeaderMap>)
    ensures r.Ok? <==> obj.PyDict? && forall n :: n in obj.entries ==> obj.entries[n].PyStr?
    ensures !obj.PyDict? ==> r == Err(TypeMismatch("PyDict"))
    ensures r.Ok? ==> r.value.Keys == obj.entries.Keys
    ensures r.Ok? ==> forall n :: n in r.value ==> r.value[n] == [obj.entries[n].s]
  {
    if !obj.PyDict? {
      return Err(TypeMismatch("PyDict"));
    }
    var acc: HeaderMap := map[];
    var todo := obj.entries.Keys;
    while todo != {}
      invariant todo <= obj.entries.Keys
      invariant acc.Keys == obj.entries.Keys - todo
      invariant forall n :: n in acc ==> obj.entries[n].PyStr? && acc[n] == [obj.entries[n].s]
      decreases todo
    {
      var name :| name in todo;
      var value := obj.entries[name];
      if !value.PyStr? {
        return Err(TypeMismatch("PyString"));
      }
      acc := Append(acc, name, value.s);
      todo := todo - {name};
    }
    return Ok(acc);
  }

  /** Last value wins: appending under a name changes the dict view at that
      name only, and the dict then shows the value just appended. */
  lemma AppendLastWins(h: HeaderMap, name: string, value: string)
    ensures ToDict(Append(h, name, value)) == ToDict(h)[name := value]
  {
    var lhs := ToDict(Append(h, name, value));
    var rhs := ToDict(h)[name := value];
    assert lhs.Keys == rhs.Keys;
    forall n | n in lhs ensures lhs[n] == rhs[n] {
    }
  }

  /** Round trip: dict -> header map -> dict gives the dict back, since
      extraction records exactly one value per name. */
  lemma DictRoundTrip(d: map<string, string>)
    ensures ToDict(FromDict(d)) == d
  {
  }

  /** The other direction keeps, for each name, only its last value and
      drops the names that have none. */
  lemma HeaderMapRoundTrip(h: HeaderMap)
    ensures FromDict(ToDict(h)).Keys == set n | n in h && h[n] != []
    ensures forall n :: n in FromDict(ToDict(h)) ==> FromDict(ToDict(h))[n] == [h[n][|h[n]| - 1]]
    ensures (forall n :: n in h ==> |h[n]| == 1) ==> FromDict(ToDict(h)) == h
  {
    if forall n :: n in h ==> |h[n]| == 1 {
      var g := FromDict(ToDict(h));
      assert g.Keys == h.Keys;
      forall n | n in h ensures g[n] == h[n] {
        assert h[n] == [h[n][0]];
      }
    }
  }
}
