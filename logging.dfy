/** The logging middleware that runs before the `/rpc` handlers
    (proxy-server.js:11-30). Its output goes to the console, but its template
    literals convert request values to strings, and that conversion throws a
    TypeError for a parsed object with its own `toString` key. Express then
    skips to its error handler instead of calling `next()`. */
module Logging {
  import opened Json
  import Classifier

  const BALANCE_METHOD: string := "eth_getBalance"

  /** `${v}` for a value JSON.parse produced: the result, or None when the
      conversion throws. An object with its own `toString` (never a
      function, since JSON has none) has no usable `toString` or `valueOf`,
      so it throws. Any other object gives "[object Object]". An array is
      joined with commas, with null elements empty. `num` stands for
      Number.prototype.toString, which is outside this model. */
  function ToJsString(v: Json, num: real -> string): Option<string>
    decreases v, 1
  {
    match v
    case JNull => Some("null")
    case JBool(b) => Some(if b then "true" else "false")
    case JNumber(n) => Some(num(n))
    case JString(s) => Some(s)
    case JArray(items) => JoinItems(items, num)
    case JObject(fields) => if "toString" in fields then None else Some("[object Object]")
  }

  /** `items.join(',')` as Array.prototype.toString does it: null
      elements become empty, and a throwing element makes the join throw. */
  function JoinItems(items: seq<Json>, num: real -> string): Option<string>
    decreases items, 0
  {
    if items == [] then Some("")
    else
      var init := JoinItems(items[..|items| - 1], num);
      var last := items[|items| - 1];
      var s := if last.JNull? then Some("") else ToJsString(last, num);
      if init.None? || s.None? then None
      else if |items| == 1 then s
      else Some(init.value + "," + s.value)
  }

  /** Which parsed values a template literal cannot convert: an object with
      its own `toString`, or an array holding such a value at any depth. */
  predicate ToStringThrows(v: Json)
    decreases v
  {
    match v
    case JObject(fields) => "toString" in fields
    case JArray(items) => exists i :: 0 <= i < |items| && ToStringThrows(items[i])
    case _ => false
  }

  /** Converting throws exactly on the values `ToStringThrows` names,
      whatever the number formatting. */
  lemma {:induction false} ToJsStringFailsIff(v: Json, num: real -> string)
    ensures ToJsString(v, num).None? <==> ToStringThrows(v)
    decreases v, 1
  {
    match v
    case JArray(items) => JoinItemsFailsIff(items, num);
    case _ =>
  }

  lemma {:induction false} JoinItemsFailsIff(items: seq<Json>, num: real -> string)
    ensures JoinItems(items, num).None? <==> exists i :: 0 <= i < |items| && ToStringThrows(items[i])
    decreases items, 0
  {
    if items != [] {
      var init, last := items[..|items| - 1], items[|items| - 1];
      JoinItemsFailsIff(init, num);
      ToJsStringFailsIff(last, num);
      if exists i :: 0 <= i < |items| && ToStringThrows(items[i]) {
        var i :| 0 <= i < |items| && ToStringThrows(items[i]);
        if i < |items| - 1 {
          assert init[i] == items[i];
        }
      }
      if exists i :: 0 <= i < |init| && ToStringThrows(init[i]) {
        var i :| 0 <= i < |init| && ToStringThrows(init[i]);
        assert items[i] == init[i];
      }
    }
  }

  /** `req.body.params?.[0]`: undefined (None) when `params` is missing,
      null, or has no element or property `0`. */
  function FirstParam(body: Json): Option<Json>
  {
    match Prop(body, "params")
    case None => None
    case Some(p) =>
      match p
      case JArray(items) => if items == [] then None else Some(items[0])
      case JObject(_) => Prop(p, "0")
      case JString(s) => if s == [] then None else Some(JString(s[..1]))
      case _ => None
  }

  /** `${x}` of a possibly undefined value throws: undefined converts to
      "undefined". */
  predicate Throws(x: Option<Json>)
  {
    x.Some? && ToStringThrows(x.value)
  }

  /** The logging middleware reaches `next()`: for a body with a truthy
      `method`, neither the method (line 16) nor, for `eth_getBalance` and
      `eth_getTransactionReceipt`, the first param (lines 20 and 26) is a
      value whose conversion throws. */
  predicate PassesLogging(body: Option<Json>)
  {
    body.Some? && Truthy(body.value)
    && Prop(body.value, "method").Some? && Truthy(Prop(body.value, "method").value) ==>
      var m := Prop(body.value, "method").value;
      && !ToStringThrows(m)
      && (m == JString(BALANCE_METHOD) || m == JString(Classifier.RECEIPT_METHOD) ==>
            !Throws(FirstParam(body.value)))
  }

  /** The middleware of proxy-server.js:11-30, statement by statement,
      reduced to its control flow: `callsNext` is false when a template
      literal throws. Line 23 passes the param to JSON.stringify, which
      cannot throw on a parsed value; the console lines themselves and the
      clock read of line 12 are not modelled. */
  method LogRequest(body: Option<Json>, num: real -> string) returns (callsNext: bool)
    ensures callsNext <==> PassesLogging(body)
  {
    if body.Some? && Truthy(body.value) {
      var rpcMethod := Prop(body.value, "method");
      if rpcMethod.Some? && Truthy(rpcMethod.value) {
        ToJsStringFailsIff(rpcMethod.value, num);
        if ToJsString(rpcMethod.value, num).None? {
          return false;
        }
        var first := FirstParam(body.value);
        if first.Some? {
          ToJsStringFailsIff(first.value, num);
        }
        if rpcMethod.value == JString(BALANCE_METHOD) {
          if first.Some? && ToJsString(first.value, num).None? {
            return false;
          }
        }
        if rpcMethod.value == JString(Classifier.RECEIPT_METHOD) {
          if first.Some? && ToJsString(first.value, num).None? {
            return false;
          }
        }
      }
    }
    callsNext := true;
  }

  /** A request that got past the logging middleware cannot throw in the
      later template literals that convert the same values: the receipt
      param at line 46 and the method at line 83. */
  lemma LaterLogsCannotThrow(body: Option<Json>, num: real -> string)
    requires PassesLogging(body)
    ensures Classifier.MethodIs(body, Classifier.RECEIPT_METHOD) && FirstParam(body.value).Some? ==>
              ToJsString(FirstParam(body.value).value, num).Some?
    ensures body.Some? && Truthy(body.value)
            && Prop(body.value, "method").Some? && Truthy(Prop(body.value, "method").value) ==>
              ToJsString(Prop(body.value, "method").value, num).Some?
  {
    if body.Some? && Truthy(body.value)
       && Prop(body.value, "method").Some? && Truthy(Prop(body.value, "method").value) {
      ToJsStringFailsIff(Prop(body.value, "method").value, num);
    }
    if Classifier.MethodIs(body, Classifier.RECEIPT_METHOD) && FirstParam(body.value).Some? {
      ToJsStringFailsIff(FirstParam(body.value).value, num);
    }
  }
}
