/** The slice of Python's data model that the two scripts rely on: the values a
    search response decodes to, their truthiness, the `or` operator, `dict.get`,
    and the two exceptions the scripts can raise on a malformed response. */
module PyValue {

  /** A value of a decoded JSON response, as Python holds it. */
  datatype Value =
    | None
    | Bool(b: bool)
    | Int(i: int)
    | Float(x: real)
    | Str(s: string)
    | List(items: seq<Value>)
    | Dict(entries: map<string, Value>)

  /** The exceptions the modelled code can raise. */
  datatype PyError =
    | AttributeError  // `.get` called on something that is not a dict
    | TypeError       // iterating something that is not iterable
    | ClientError     // the search client raised (network, authentication, ...)

  /** A computation that either returns or raises. */
  datatype Result<T> = Ok(value: T) | Raised(error: PyError)

  /** The search API, `GoogleSearch(params).get_dict()`: request parameters in,
      the decoded response dict out, or the exception the client raised. */
  type Search = map<string, Value> -> Result<map<string, Value>>

  /** Python truthiness: `None`, `False`, zero and empty containers are false;
      every other value is true. */
  predicate Truthy(v: Value)
    ensures v == None || v == Bool(false) || v == Int(0) || v == Float(0.0) ==> !Truthy(v)
    ensures v == Str("") || v == List([]) || v == Dict(map[]) ==> !Truthy(v)
    ensures v.Str? && v.s != "" ==> Truthy(v)
    ensures v.Dict? && v.entries != map[] ==> Truthy(v)
    ensures v.List? && v.items != [] ==> Truthy(v)
  {
    match v
    case None => false
    case Bool(b) => b
    case Int(i) => i != 0
    case Float(x) => x != 0.0
    case Str(s) => |s| > 0
    case List(items) => |items| > 0
    case Dict(entries) => |entries| > 0
  }

  /** `d.get(k)`: the value under `k`, or `None` when the key is missing. */
  function Get(d: map<string, Value>, k: string): (r: Value)
    ensures k !in d ==> r == None
    ensures k in d ==> r == d[k]
  {
    GetOr(d, k, None)
  }

  /** `d.get(k, default)`: `default` exactly when the key is missing. */
  function GetOr(d: map<string, Value>, k: string, default: Value): (r: Value)
    ensures k !in d ==> r == default
    ensures k in d ==> r == d[k]
  {
    if k in d then d[k] else default
  }

  /** `x0 or x1 or ... or xn`: the first truthy operand, or the last operand
      when none is truthy. The result is one of the operands, and it is truthy
      exactly when one of them is. */
  function Or(operands: seq<Value>): (r: Value)
    requires |operands| > 0
    ensures r in operands
    ensures Truthy(r) || r == operands[|operands| - 1]
    ensures Truthy(r) <==> exists i :: 0 <= i < |operands| && Truthy(operands[i])
  {
    if |operands| == 1 || Truthy(operands[0]) then operands[0]
    else Or(operands[1..])
  }

  /** The operand `Or` picks is operand `i` when every operand before it is
      falsy and `i` is truthy or the last one. */
  lemma {:induction false} OrPicks(operands: seq<Value>, i: nat)
    requires i < |operands|
    requires forall j :: 0 <= j < i ==> !Truthy(operands[j])
    requires Truthy(operands[i]) || i == |operands| - 1
    ensures Or(operands) == operands[i]
  {
    if i > 0 {
      assert !Truthy(operands[0]);
      var rest := operands[1..];
      assert forall j :: 0 <= j < i - 1 ==> rest[j] == operands[j + 1];
      OrPicks(rest, i - 1);
    }
  }

  /** The flat chain `x0 or ... or xn` agrees with the nested
      `(x0 or ... or xn-1) or xn`. */
  lemma {:induction false} OrAssociates(operands: seq<Value>)
    requires |operands| >= 2
    ensures Or(operands) == Or([Or(operands[..|operands| - 1]), operands[|operands| - 1]])
  {
    var n := |operands|;
    if n > 2 && !Truthy(operands[0]) {
      var rest := operands[1..];
      assert rest[..|rest| - 1] == operands[..n - 1][1..];
      OrAssociates(rest);
    }
  }
}
