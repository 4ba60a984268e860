/**
 * Values shared by the session store, the stream segmenter, the call-control
 * routes and the tool dispatcher: tool calls as the generation provider emits
 * them, their results, and the two JavaScript conversions the tools apply to
 * them (template interpolation and `Number`).
 */
module Conversation {
  import opened Optional
  import opened JsString

  /**
   * The arguments of a tool call, one field per parameter any tool declares;
   * a parameter the provider left out is None. The schema's NUMBER
   * parameters (`duration`, `totalPrice`) are taken as whole numbers.
   */
  datatype ToolArgs = ToolArgs(
    date: Option<string>,
    duration: Option<int>,
    yachtName: Option<string>,
    clientName: Option<string>,
    clientPhone: Option<string>,
    messageBody: Option<string>,
    startTime: Option<string>,
    locationLink: Option<string>,
    locationDesc: Option<string>,
    totalPrice: Option<int>,
    paymentLink: Option<string>,
    guideLink: Option<string>)

  /** A `functionCall` part emitted by the generation provider. */
  datatype FunctionCall = FunctionCall(name: string, args: ToolArgs)

  /** What a tool returns: a text for the model, or the operator-transfer signal `{transferToOperator: true}`. */
  datatype ToolResult = TextResult(text: string) | TransferToOperator

  /** A JavaScript number as the booking arithmetic sees it: an integer or NaN. */
  datatype JsNum = NaN | Num(n: int)

  /** `a + b` on numbers; NaN absorbs. */
  function Plus(a: JsNum, b: JsNum): (r: JsNum)
    ensures r.Num? <==> a.Num? && b.Num?
    ensures r.Num? ==> r.n == a.n + b.n
  {
    if a.Num? && b.Num? then Num(a.n + b.n) else NaN
  }

  /** `x.toString()`. */
  function JsNumToString(x: JsNum): string {
    match x
    case NaN => "NaN"
    case Num(n) => IntToString(n)
  }

  /**
   * `Number(s)` for the strings a clock time splits into: surrounding
   * whitespace is ignored, the empty string is 0, a run of decimal digits is
   * its value and anything else is NaN.
   */
  function ToNumber(s: string): (r: JsNum)
    ensures (forall i :: 0 <= i < |s| ==> IsDigit(s[i])) && s != [] ==> r == Num(DigitsValue(s))
  {
    var t := Trim(s);
    assert (forall i :: 0 <= i < |s| ==> IsDigit(s[i])) ==> t == s by {
      if forall i :: 0 <= i < |s| ==> IsDigit(s[i]) { DigitsTrim(s); }
    }
    if t == [] then Num(0)
    else if forall i :: 0 <= i < |t| ==> IsDigit(t[i]) then Num(DigitsValue(t))
    else NaN
  }

  /** `${n}` for a numeric argument that may be `undefined`. */
  function InterpNum(x: Option<int>): string {
    match x
    case Some(n) => IntToString(n)
    case None => "undefined"
  }
}
