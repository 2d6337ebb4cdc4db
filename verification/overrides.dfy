/** The pattern both JetStream config converters follow: start from a base
    config and, for each key of a fixed list in order, if the key is present
    in the dict, parse its value and overwrite the one field that key owns;
    the first value that fails to parse aborts the whole conversion.

    A converter is described by
    - `name(k)`, the dict key of config key `k`,
    - `step(c, k, v)`, which parses `v` for key `k` and stores it in `c`,
    - `field(c, k)`, the value of the field key `k` owns in `c`. */
module Overrides {
  import opened Outcomes
  import opened PyValues

  /** A step for key `k` writes only the field `k` owns. */
  ghost predicate Framed<C(!new), K(!new), F>(step: (C, K, Value) -> Result<C>, field: (C, K) -> F)
  {
    forall c, k, v, k' {:trigger field(step(c, k, v).value, k')} :: step(c, k, v).Ok? && k' != k ==> field(step(c, k, v).value, k') == field(c, k')
  }

  /** Whether a step fails, with which error, and the value it stores do not
      depend on the config it is applied to. */
  ghost predicate Independent<C(!new), K(!new), F>(step: (C, K, Value) -> Result<C>, field: (C, K) -> F)
  {
    && (forall c, c', k, v {:trigger step(c, k, v), step(c', k, v)} :: step(c, k, v).Err? ==> step(c', k, v).Err? && step(c', k, v).error == step(c, k, v).error)
    && (forall c, c', k, v {:trigger step(c, k, v), step(c', k, v)} :: step(c, k, v).Ok? ==> step(c', k, v).Ok? && field(step(c', k, v).value, k) == field(step(c, k, v).value, k))
  }

  /** Overrides `c` with every key of `ks` present in `d`, in the order of `ks`. */
  function Apply<C, K>(c: C, d: map<string, Value>, ks: seq<K>, name: K -> string, step: (C, K, Value) -> Result<C>): Result<C>
    decreases |ks|
  {
    if ks == [] then Ok(c)
    else
      var c' :- if name(ks[0]) in d then step(c, ks[0], d[name(ks[0])]) else Ok(c);
      Apply(c', d, ks[1..], name, step)
  }

  /** All or nothing: the conversion succeeds exactly when every present key
      parses, and otherwise fails with the error of the first present key,
      in list order, that does not. */
  lemma {:induction false} ApplyOutcome<C(!new), K(!new), F>(
    c: C, d: map<string, Value>, ks: seq<K>, name: K -> string, step: (C, K, Value) -> Result<C>, field: (C, K) -> F)
    requires Independent(step, field)
    ensures Apply(c, d, ks, name, step).Ok? <==>
              forall i :: 0 <= i < |ks| && name(ks[i]) in d ==> step(c, ks[i], d[name(ks[i])]).Ok?
    ensures Apply(c, d, ks, name, step).Err? ==>
              exists i :: 0 <= i < |ks| && name(ks[i]) in d
                          && step(c, ks[i], d[name(ks[i])]) == Err(Apply(c, d, ks, name, step).error)
                          && forall j :: 0 <= j < i && name(ks[j]) in d ==> step(c, ks[j], d[name(ks[j])]).Ok?
    decreases |ks|
  {
    if ks != [] {
      var k := ks[0];
      var first := if name(k) in d then step(c, k, d[name(k)]) else Ok(c);
      if first.Ok? {
        var c' := first.value;
        ApplyOutcome(c', d, ks[1..], name, step, field);
        assert forall i :: 1 <= i < |ks| ==> ks[i] == ks[1..][i - 1];
        if Apply(c, d, ks, name, step).Err? {
          var i' :| 0 <= i' < |ks[1..]| && name(ks[1..][i']) in d
                    && step(c', ks[1..][i'], d[name(ks[1..][i'])]) == Err(Apply(c, d, ks, name, step).error)
                    && forall j :: 0 <= j < i' && name(ks[1..][j]) in d ==> step(c', ks[1..][j], d[name(ks[1..][j])]).Ok?;
          var i := i' + 1;
          assert name(ks[i]) in d && step(c, ks[i], d[name(ks[i])]) == Err(Apply(c, d, ks, name, step).error);
          assert forall j :: 0 <= j < i && name(ks[j]) in d ==> step(c, ks[j], d[name(ks[j])]).Ok? by {
            forall j | 0 <= j < i && name(ks[j]) in d ensures step(c, ks[j], d[name(ks[j])]).Ok? {
              if j > 0 {
                assert ks[j] == ks[1..][j - 1];
                if step(c, ks[j], d[name(ks[j])]).Err? {
                  assert step(c', ks[j], d[name(ks[j])]).Err?;
                }
              }
            }
          }
        }
      } else {
        assert name(ks[0]) in d;
      }
    }
  }

  /** A key absent from the dict, or not in the list, leaves its field as in
      the base config. */
  lemma {:induction false} ApplyKeepsAbsent<C(!new), K(!new), F>(
    c: C, d: map<string, Value>, ks: seq<K>, name: K -> string, step: (C, K, Value) -> Result<C>, field: (C, K) -> F, k: K)
    requires Framed(step, field)
    requires k !in ks || name(k) !in d
    ensures Apply(c, d, ks, name, step).Ok? ==> field(Apply(c, d, ks, name, step).value, k) == field(c, k)
    decreases |ks|
  {
    if ks != [] && Apply(c, d, ks, name, step).Ok? {
      var first := if name(ks[0]) in d then step(c, ks[0], d[name(ks[0])]) else Ok(c);
      var c' := first.value;
      assert field(c', k) == field(c, k);
      assert k !in ks[1..] || name(k) !in d;
      ApplyKeepsAbsent(c', d, ks[1..], name, step, field, k);
    }
  }

  /** A key present in the dict (and in the list) ends up holding exactly the
      value its step parses, whatever the base config and the other keys. */
  lemma {:induction false} ApplySetsPresent<C(!new), K(!new), F>(
    c: C, d: map<string, Value>, ks: seq<K>, name: K -> string, step: (C, K, Value) -> Result<C>, field: (C, K) -> F, k: K)
    requires Framed(step, field) && Independent(step, field)
    requires k in ks && name(k) in d
    ensures Apply(c, d, ks, name, step).Ok? ==>
              step(c, k, d[name(k)]).Ok?
              && field(Apply(c, d, ks, name, step).value, k) == field(step(c, k, d[name(k)]).value, k)
    decreases |ks|
  {
    if Apply(c, d, ks, name, step).Ok? {
      var first := if name(ks[0]) in d then step(c, ks[0], d[name(ks[0])]) else Ok(c);
      var c' := first.value;
      var r := Apply(c, d, ks, name, step).value;
      if k in ks[1..] {
        ApplySetsPresent(c', d, ks[1..], name, step, field, k);
      } else {
        assert k == ks[0];
        ApplyKeepsAbsent(c', d, ks[1..], name, step, field, k);
      }
    }
  }

  /** Every step leaves the projection `g` of the config as it was. */
  ghost predicate Keeps<C(!new), K(!new), G>(step: (C, K, Value) -> Result<C>, g: C -> G)
  {
    forall c, k, v {:trigger step(c, k, v)} :: step(c, k, v).Ok? ==> g(step(c, k, v).value) == g(c)
  }

  /** What no step touches, the whole conversion does not touch either. */
  lemma {:induction false} ApplyKeeps<C(!new), K(!new), G>(
    c: C, d: map<string, Value>, ks: seq<K>, name: K -> string, step: (C, K, Value) -> Result<C>, g: C -> G)
    requires Keeps(step, g)
    ensures Apply(c, d, ks, name, step).Ok? ==> g(Apply(c, d, ks, name, step).value) == g(c)
    decreases |ks|
  {
    if ks != [] && Apply(c, d, ks, name, step).Ok? {
      var first := if name(ks[0]) in d then step(c, ks[0], d[name(ks[0])]) else Ok(c);
      ApplyKeeps(first.value, d, ks[1..], name, step, g);
    }
  }
}
