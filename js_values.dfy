/**
 * The slice of JavaScript's value semantics that the order controller relies on:
 * truthiness, property reads on parsed JSON, `Number.isInteger`, and the `||`
 * operator used for field fallbacks.
 */
module JsValues {
  import opened Wrappers

  /** A JavaScript number: a finite value (both zeros are the same here), NaN or an infinity. */
  datatype JsNumber = Finite(val: real) | NaN | Infinity(negative: bool)

  /** A JavaScript value as it arrives from `express.json()` or from a database row. */
  datatype JsValue =
    | Undefined
    | Null
    | Bool(b: bool)
    | Num(n: JsNumber)
    | Str(s: string)
    | Arr(elems: seq<JsValue>)
    | Obj(fields: map<string, JsValue>)

  /** ECMAScript ToBoolean: undefined, null, false, 0, NaN and "" are falsy; objects and arrays are truthy. */
  predicate Truthy(v: JsValue) {
    match v
    case Undefined => false
    case Null => false
    case Bool(b) => b
    case Num(n) => !n.NaN? && n != Finite(0.0)
    case Str(s) => s != ""
    case Arr(_) => true
    case Obj(_) => true
  }

  /** `v === undefined || v === null`: the values whose property reads throw a TypeError. */
  predicate Nullish(v: JsValue) {
    v.Undefined? || v.Null?
  }

  /**
   * The property read `v.key` on a value that is not nullish: an own field of an object,
   * and `undefined` for every other value (arrays, strings and numbers carry none of the
   * property names the controller reads).
   */
  function Get(v: JsValue, key: string): JsValue
    requires !Nullish(v)
  {
    if v.Obj? && key in v.fields then v.fields[key] else Undefined
  }

  /** `Number.isInteger(v)`: a finite number with no fractional part. */
  predicate IsInteger(v: JsValue) {
    v.Num? && v.n.Finite? && v.n.val.Floor as real == v.n.val
  }

  /** `Number.isInteger(v) && v > 0`, the test applied to quantities and invoice numbers. */
  predicate IsPositiveInteger(v: JsValue) {
    IsInteger(v) && v.n.val > 0.0
  }

  /**
   * The index of the operand that `vs[0] || vs[1] || ... || vs[n-1]` evaluates to:
   * the first truthy operand, or the last operand when none is truthy.
   */
  function FirstTruthyIndex(vs: seq<JsValue>): (i: nat)
    requires |vs| > 0
    ensures i < |vs|
    ensures forall j :: 0 <= j < i ==> !Truthy(vs[j])
    ensures Truthy(vs[i]) || i == |vs| - 1
  {
    if |vs| == 1 || Truthy(vs[0]) then 0 else 1 + FirstTruthyIndex(vs[1..])
  }

  /** The value of the chain `vs[0] || vs[1] || ... || vs[n-1]`. */
  function OrChain(vs: seq<JsValue>): JsValue
    requires |vs| > 0
  {
    vs[FirstTruthyIndex(vs)]
  }

  /**
   * What a fallback chain promises: an earlier truthy operand always wins, and
   * a falsy operand is skipped in favour of the rest of the chain.
   */
  lemma {:induction false} OrChainPrecedence(vs: seq<JsValue>, k: nat)
    requires k < |vs|
    requires forall j :: 0 <= j < k ==> !Truthy(vs[j])
    ensures Truthy(vs[k]) ==> OrChain(vs) == vs[k]
    ensures !Truthy(vs[k]) && k < |vs| - 1 ==> OrChain(vs) == OrChain(vs[k + 1..])
  {
    if k > 0 {
      OrChainPrecedence(vs[1..], k - 1);
    }
  }

  /** A chain whose every operand is falsy yields its last operand, not `undefined`. */
  lemma AllFalsyChainYieldsLast(vs: seq<JsValue>)
    requires |vs| > 0
    requires forall j :: 0 <= j < |vs| ==> !Truthy(vs[j])
    ensures OrChain(vs) == vs[|vs| - 1]
  {
  }
}
