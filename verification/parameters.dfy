/** Template parameters: the dynamically typed value a parameter holds, the
    first-match lookup `find_parameter`, and the typed accessors layered on it. */
module Parameters {
  import opened Wrappers

  /** A parameter's value, a YAML node. The four scalar kinds are kept;
      null, a sequence or a mapping is one `NonScalar` value, whose contents
      no typed accessor reads. */
  datatype Value = Int(i: int) | Float(f: real) | Str(s: string) | Bool(b: bool) | NonScalar {

    /** YAML `as_i64`: an integer that fits in a signed 64-bit word. */
    function AsI64(): (r: Option<int>)
      ensures r.Some? <==> Int? && I64_MIN <= i <= I64_MAX
      ensures r.Some? ==> r.value == i
    {
      if Int? && I64_MIN <= i <= I64_MAX then Some(i) else None
    }

    /** YAML `as_f64`: every number, integer or float, reads as a float. */
    function AsF64(): (r: Option<real>)
      ensures r.Some? <==> Int? || Float?
      ensures Float? ==> r == Some(f)
      ensures Int? ==> r == Some(i as real)
    {
      match this
      case Int(n) => Some(n as real)
      case Float(x) => Some(x)
      case _ => None
    }

    /** YAML `as_str`: only a string node reads as a string. */
    function AsStr(): (r: Option<string>)
      ensures r.Some? <==> Str?
      ensures Str? ==> r == Some(s)
    {
      if Str? then Some(s) else None
    }

    /** YAML `as_bool`: only a boolean node reads as a boolean. */
    function AsBool(): (r: Option<bool>)
      ensures r.Some? <==> Bool?
      ensures Bool? ==> r == Some(b)
    {
      if Bool? then Some(b) else None
    }
  }

  datatype Parameter = Parameter(name: string, value: Value)

  /** What an accessor reports where the Rust code panics in `unwrap()`:
      the parameter exists but its value is not of the requested kind. */
  datatype Fault = TypeMismatch(name: string, found: Value)

  const I64_MIN: int := -0x8000_0000_0000_0000
  const I64_MAX: int := 0x7FFF_FFFF_FFFF_FFFF
  const I32_MIN: int := -0x8000_0000
  const I32_MAX: int := 0x7FFF_FFFF
  const TWO_TO_32: int := 0x1_0000_0000

  /** `k` is the position of the first parameter called `name`. */
  predicate FirstMatch(ps: seq<Parameter>, name: string, k: int) {
    && 0 <= k < |ps|
    && ps[k].name == name
    && forall j :: 0 <= j < k ==> ps[j].name != name
  }

  /** Linear search for the first parameter called `name`. */
  function FindIn(ps: seq<Parameter>, name: string): (r: Option<Value>)
    ensures r.None? <==> forall k :: 0 <= k < |ps| ==> ps[k].name != name
    ensures forall k :: FirstMatch(ps, name, k) ==> r == Some(ps[k].value)
  {
    if |ps| == 0 then None
    else if ps[0].name == name then Some(ps[0].value)
    else
      var r := FindIn(ps[1..], name);
      assert forall k :: FirstMatch(ps, name, k) ==> FirstMatch(ps[1..], name, k - 1);
      r
  }

  /** `find_parameter`: the value of the first parameter whose name equals
      `name` exactly, or `None` when there is no parameter list or no match. */
  function FindParameter(parameters: Option<seq<Parameter>>, name: string): (r: Option<Value>)
    ensures parameters.None? ==> r.None?
    ensures parameters.Some? ==>
      (r.None? <==> forall k :: 0 <= k < |parameters.value| ==> parameters.value[k].name != name)
    ensures parameters.Some? ==>
      forall k :: FirstMatch(parameters.value, name, k) ==> r == Some(parameters.value[k].value)
  {
    match parameters
    case None => None
    case Some(ps) => FindIn(ps, name)
  }

  /** Parameters listed after the first match never influence the lookup. */
  lemma {:induction false} FindIgnoresLaterEntries(ps: seq<Parameter>, rest: seq<Parameter>, name: string, k: int)
    requires 0 <= k < |ps| && ps[k].name == name
    ensures FindIn(ps + rest, name) == FindIn(ps, name)
  {
    if ps[0].name != name {
      assert (ps + rest)[1..] == ps[1..] + rest;
      FindIgnoresLaterEntries(ps[1..], rest, name, k - 1);
    }
  }

  /** With duplicate names, the earliest entry wins: an entry shadows every
      later entry of the same name, wherever it stands. */
  lemma FirstEntryWins(pre: seq<Parameter>, name: string, v: Value, post: seq<Parameter>)
    requires forall m :: 0 <= m < |pre| ==> pre[m].name != name
    ensures FindParameter(Some(pre + [Parameter(name, v)] + post), name) == Some(v)
  {
    assert FirstMatch(pre + [Parameter(name, v)] + post, name, |pre|);
  }

  /** Rust's `as i32` on a 64-bit integer: keep the low 32 bits, read as
      two's complement. */
  function WrapI32(i: int): (r: int)
    ensures I32_MIN <= r <= I32_MAX
    ensures (r - i) % TWO_TO_32 == 0
    ensures I32_MIN <= i <= I32_MAX ==> r == i
  {
    (i - I32_MIN) % TWO_TO_32 + I32_MIN
  }

  /** `find_parameter(..).map(|p| narrow(p).unwrap())`: absent stays absent,
      a value that does not narrow is a fault. */
  function Lookup<T>(parameters: Option<seq<Parameter>>, name: string, narrow: Value -> Option<T>): (r: Result<Option<T>, Fault>)
    ensures r == Success(None) <==> FindParameter(parameters, name).None?
    ensures r.Failure? <==>
      FindParameter(parameters, name).Some? && narrow(FindParameter(parameters, name).value).None?
    ensures r.Failure? ==> r.error == TypeMismatch(name, FindParameter(parameters, name).value)
    ensures r.Success? && r.value.Some? ==>
      FindParameter(parameters, name).Some? && narrow(FindParameter(parameters, name).value) == Some(r.value.value)
  {
    match FindParameter(parameters, name)
    case None => Success(None)
    case Some(v) =>
      match narrow(v)
      case None => Failure(TypeMismatch(name, v))
      case Some(x) => Success(Some(x))
  }

  /** `find_parameter_as_i32`: the first match read as a 64-bit integer and
      cast to 32 bits; any other kind of value, or an integer outside the
      64-bit range, is a fault. */
  function ParamAsI32(parameters: Option<seq<Parameter>>, name: string): (r: Result<Option<int>, Fault>)
    ensures r == Success(None) <==> FindParameter(parameters, name).None?
    ensures var found := FindParameter(parameters, name);
      r.Failure? <==> found.Some? && !(found.value.Int? && I64_MIN <= found.value.i <= I64_MAX)
    ensures r.Success? && r.value.Some? ==> I32_MIN <= r.value.value <= I32_MAX
    ensures var found := FindParameter(parameters, name);
      found.Some? && found.value.Int? && I64_MIN <= found.value.i <= I64_MAX ==>
        r == Success(Some(WrapI32(found.value.i)))
    ensures var found := FindParameter(parameters, name);
      found.Some? && found.value.Int? && I32_MIN <= found.value.i <= I32_MAX ==>
        r == Success(Some(found.value.i))
  {
    Lookup(parameters, name, (v: Value) => if v.AsI64().Some? then Some(WrapI32(v.AsI64().value)) else None)
  }

  /** `find_parameter_as_f32`: the first match read as a float; strings and
      booleans are a fault. */
  function ParamAsF32(parameters: Option<seq<Parameter>>, name: string): (r: Result<Option<real>, Fault>)
    ensures r == Success(None) <==> FindParameter(parameters, name).None?
    ensures var found := FindParameter(parameters, name);
      r.Failure? <==> found.Some? && !(found.value.Int? || found.value.Float?)
  {
    Lookup(parameters, name, (v: Value) => v.AsF64())
  }

  /** `find_parameter_as_str`: the first match must be a string. */
  function ParamAsStr(parameters: Option<seq<Parameter>>, name: string): (r: Result<Option<string>, Fault>)
    ensures r == Success(None) <==> FindParameter(parameters, name).None?
    ensures var found := FindParameter(parameters, name);
      r.Failure? <==> found.Some? && !found.value.Str?
    ensures forall s :: FindParameter(parameters, name) == Some(Str(s)) ==> r == Success(Some(s))
  {
    Lookup(parameters, name, (v: Value) => v.AsStr())
  }

  /** `find_parameter_as_bool`: the first match must be a boolean. */
  function ParamAsBool(parameters: Option<seq<Parameter>>, name: string): (r: Result<Option<bool>, Fault>)
    ensures r == Success(None) <==> FindParameter(parameters, name).None?
    ensures var found := FindParameter(parameters, name);
      r.Failure? <==> found.Some? && !found.value.Bool?
    ensures forall b :: FindParameter(parameters, name) == Some(Bool(b)) ==> r == Success(Some(b))
  {
    Lookup(parameters, name, (v: Value) => v.AsBool())
  }
}
