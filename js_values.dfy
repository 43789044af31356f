/**
 * The JavaScript values that reach the `||` defaulting chains of
 * dov-bear/src/javascript/main.js, and what `a || b || ...` evaluates to.
 */
module JsValues {
  import opened Wrappers

  /** `NaN` is what `parseInt` yields for input without leading digits. */
  datatype JsValue = Undefined | NaN | Num(n: int) | Str(s: string)

  /** ECMAScript ToBoolean on these values: undefined, NaN, 0 and "" are falsy. */
  predicate Truthy(v: JsValue)
    ensures Truthy(v) <==> v != Undefined && v != NaN && v != Num(0) && v != Str("")
  {
    match v
    case Undefined => false
    case NaN => false
    case Num(n) => n != 0
    case Str(s) => s != ""
  }

  /** The number `parseInt` produced, with `None` for NaN. */
  function Number(parsed: Option<int>): (r: JsValue)
    ensures r.Num? <==> parsed.Some?
    ensures r.Num? ==> r.n == parsed.value
    ensures Truthy(r) <==> parsed.Some? && parsed.value != 0
  {
    match parsed
    case None => NaN
    case Some(n) => Num(n)
  }

  /** Binary `a || b`: `a` when it is truthy, otherwise `b`. */
  function Or(a: JsValue, b: JsValue): (r: JsValue)
    ensures r == a || r == b
    ensures Truthy(a) ==> r == a
    ensures !Truthy(a) ==> r == b
    ensures Truthy(r) <==> Truthy(a) || Truthy(b)
  {
    if Truthy(a) then a else b
  }

  /** `vals[0] || vals[1] || ...`, grouped to the left as JavaScript parses it. */
  function OrChain(vals: seq<JsValue>): (r: JsValue)
    requires |vals| > 0
    ensures r in vals
  {
    if |vals| == 1 then vals[0] else Or(OrChain(vals[..|vals| - 1]), vals[|vals| - 1])
  }

  /** Reference reading of a chain: the first truthy operand, else the last operand. */
  function FirstTruthy(vals: seq<JsValue>): (r: JsValue)
    requires |vals| > 0
  {
    if |vals| == 1 || Truthy(vals[0]) then vals[0] else FirstTruthy(vals[1..])
  }

  /** Short-circuit evaluation of the left-grouped chain picks the first truthy operand. */
  lemma {:induction false} OrChainIsFirstTruthy(vals: seq<JsValue>)
    requires |vals| > 0
    ensures OrChain(vals) == FirstTruthy(vals)
  {
    if |vals| > 1 {
      var front, last := vals[..|vals| - 1], vals[|vals| - 1];
      assert OrChain(vals) == Or(OrChain(front), last);
      OrChainIsFirstTruthy(front);
      if Truthy(vals[0]) {
        assert FirstTruthy(front) == vals[0];
      } else if |front| == 1 {
        assert vals[1..] == [last];
      } else {
        var rest := vals[1..];
        assert front[1..] == rest[..|rest| - 1];
        assert FirstTruthy(front) == FirstTruthy(front[1..]);
        OrChainIsFirstTruthy(front[1..]);
        OrChainIsFirstTruthy(rest);
        assert OrChain(rest) == Or(OrChain(front[1..]), last);
      }
    }
  }

  /** The chain yields operand k when k is the first truthy operand. */
  lemma {:induction false} FirstTruthyWins(vals: seq<JsValue>, k: nat)
    requires k < |vals| && Truthy(vals[k])
    requires forall j :: 0 <= j < k ==> !Truthy(vals[j])
    ensures OrChain(vals) == vals[k]
  {
    OrChainIsFirstTruthy(vals);
    FirstTruthyAt(vals, k);
  }

  lemma {:induction false} FirstTruthyAt(vals: seq<JsValue>, k: nat)
    requires k < |vals| && Truthy(vals[k])
    requires forall j :: 0 <= j < k ==> !Truthy(vals[j])
    ensures FirstTruthy(vals) == vals[k]
  {
    if k > 0 {
      assert !Truthy(vals[0]);
      FirstTruthyAt(vals[1..], k - 1);
    }
  }

  /** With every operand falsy the chain yields its last operand. */
  lemma {:induction false} AllFalsyYieldsLast(vals: seq<JsValue>)
    requires |vals| > 0
    requires forall j :: 0 <= j < |vals| - 1 ==> !Truthy(vals[j])
    ensures OrChain(vals) == vals[|vals| - 1]
  {
    if |vals| > 1 {
      var front := vals[..|vals| - 1];
      if |front| > 1 {
        AllFalsyYieldsLast(front);
      }
      assert !Truthy(OrChain(front));
    }
  }
}
