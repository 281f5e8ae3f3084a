/** Query parameters and result rows, and the normalisation the runner applies to
    parameters before binding them (`typeof p !== "undefined" ? p : null`). */
module Params {
  import opened Wrappers

  /** A JavaScript value as it may appear in a parameter list or a result column. */
  datatype Value =
    | Undefined
    | Null
    | Boolean(b: bool)
    | Number(n: int)
    | Text(s: string)
    | Bytes(data: seq<bv8>)

  /** One row as returned by `getAsObject`: column name to value. */
  type Row = map<string, Value>

  /** `undefined` becomes `null`; every other value is kept. */
  function NormaliseValue(v: Value): (r: Value)
    ensures r != Undefined
    ensures v != Undefined ==> r == v
  {
    if v.Undefined? then Null else v
  }

  /** The `parameters.map(...)` at the binding boundary. */
  function Normalise(ps: seq<Value>): (r: seq<Value>)
    ensures |r| == |ps|
    ensures forall i :: 0 <= i < |ps| ==> r[i] == NormaliseValue(ps[i])
    ensures Undefined !in r
  {
    if ps == [] then [] else [NormaliseValue(ps[0])] + Normalise(ps[1..])
  }

  /** The parameters as they stand after the mapping step: a `null` list stays `null`. */
  function NormaliseList(ps: Option<seq<Value>>): (r: Option<seq<Value>>)
    ensures r.None? <==> ps.None?
    ensures ps.Some? ==> r.value == Normalise(ps.value)
    ensures r.Some? ==> |r.value| == |ps.value| && Undefined !in r.value
  {
    match ps
    case None => None
    case Some(values) => Some(Normalise(values))
  }

  /** The mapping step leaves a parameter list as it is exactly when the list is
      `null` or holds no `undefined`; in particular it is a fixed point on its own
      output. */
  lemma NormaliseListFixedPoint(ps: Option<seq<Value>>)
    ensures NormaliseList(ps) == ps <==> (ps.None? || Undefined !in ps.value)
    ensures NormaliseList(NormaliseList(ps)) == NormaliseList(ps)
  {
    if ps.Some? && Undefined !in ps.value {
      NormaliseKeepsDefined(ps.value);
    }
    if ps.Some? {
      NormaliseKeepsDefined(Normalise(ps.value));
    }
  }

  /** Two values the binding boundary does not tell apart. */
  predicate SameWhenBound(a: Value, b: Value) {
    a == b || (a.Undefined? && b.Null?) || (a.Null? && b.Undefined?)
  }

  /** Normalising twice changes nothing. */
  lemma NormaliseIdempotent(ps: seq<Value>)
    ensures Normalise(Normalise(ps)) == Normalise(ps)
  {
  }

  /** Normalisation keeps every value that is not `undefined`, in place: a list
      without `undefined` is bound exactly as given. */
  lemma NormaliseKeepsDefined(ps: seq<Value>)
    requires Undefined !in ps
    ensures Normalise(ps) == ps
  {
  }

  /** Absent and null are not distinguished once bound: two lists that agree up
      to `undefined`/`null` normalise to the same list, and conversely. */
  lemma NormaliseMergesAbsentAndNull(ps: seq<Value>, qs: seq<Value>)
    requires |ps| == |qs|
    ensures Normalise(ps) == Normalise(qs) <==> forall i :: 0 <= i < |ps| ==> SameWhenBound(ps[i], qs[i])
  {
  }
}
