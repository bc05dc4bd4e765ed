/**
 * The Mongoose casts the Contact and Note schemas rely on, and the error a
 * failed cast or validator raises. Parsing a date string is the parameter
 * `parseDate`.
 */
module Schema {
  import opened Wrappers
  import opened Http
  import Rules

  /** The error `save()` or a validated update raises for a document whose
      fields do not cast or fail a validator. */
  function ValidationError(model: string): (e: Error)
    ensures e.statusCode.None? && Truthy(e.message)
  {
    Error(None, Some(model + " validation failed"))
  }

  /** Casting to `String`. */
  function CastString(v: Value): (r: Option<string>)
    ensures r.Some? <==> v.Str?
    ensures r.Some? ==> r.value == v.s
  {
    if v.Str? then Some(v.s) else None
  }

  /** The largest distance from the epoch, in milliseconds, a JavaScript
      `Date` can hold; `new Date(n)` beyond it is an Invalid Date. */
  const MaxTime: int := 8_640_000_000_000_000

  /** Casting to `Date`: a `Date` is kept, a number is milliseconds since
      the epoch and must lie within `MaxTime` of it, a non-empty string is
      parsed. `''` casts to `null` and so, like `null` and a boolean, gives
      no date. An array is turned into text the way `new Date` does, by
      joining its elements with commas, and that text is parsed. */
  function CastDate(v: Value, parseDate: string -> Option<Time>): (r: Option<Time>)
    ensures v.DateVal? ==> r == Some(v.t)
    ensures v.Num? ==> (r.Some? <==> -MaxTime <= v.n <= MaxTime)
    ensures v.Num? && r.Some? ==> r.value == v.n
    ensures v.Str? ==> r == (if v.s == "" then None else parseDate(v.s))
    ensures v.Arr? ==> r == (if Rules.Stringify(v) == "" then None else parseDate(Rules.Stringify(v)))
    ensures v.Bool? || v.Null? ==> r.None?
  {
    match v
    case DateVal(t) => Some(t)
    case Num(n) => if -MaxTime <= n <= MaxTime then Some(n) else None
    case Str(s) => if s == "" then None else parseDate(s)
    case Arr(items) =>
      var s := Rules.StringifyItems(items);
      if s == "" then None else parseDate(s)
    case _ => None
  }

  /** An array holding one string casts to the same date as that string:
      joining a single element gives the element's own text. */
  lemma OneStringArrayDate(s: string, parseDate: string -> Option<Time>)
    ensures CastDate(Arr([Str(s)]), parseDate) == CastDate(Str(s), parseDate)
  {
    assert Rules.StringifyItems([Str(s)]) == Rules.Stringify(Str(s)) == s;
  }

  /** Casting to `Boolean`: `true, 'true', 1, '1', 'yes'` give true and
      `false, 'false', 0, '0', 'no'` give false; anything else fails. */
  function CastBoolean(v: Value): (r: Option<bool>)
    ensures v.Bool? ==> r == Some(v.b)
    ensures r == Some(true) <==> v in {Bool(true), Str("true"), Num(1), Str("1"), Str("yes")}
    ensures r == Some(false) <==> v in {Bool(false), Str("false"), Num(0), Str("0"), Str("no")}
  {
    match v
    case Bool(b) => Some(b)
    case Num(n) => if n == 1 then Some(true) else if n == 0 then Some(false) else None
    case Str(s) =>
      if s == "true" || s == "1" || s == "yes" then Some(true)
      else if s == "false" || s == "0" || s == "no" then Some(false)
      else None
    case _ => None
  }

  /** A field given a value other than `null`; for the paths with a default,
      an unset field and a `null` both leave the default in place. */
  function Given(body: Body, path: string): (r: Option<Value>)
    ensures r.Some? <==> path in body && body[path] != Null
    ensures r.Some? ==> r.value == body[path]
  {
    if path in body && body[path] != Null then Some(body[path]) else None
  }

  /** A date path given a value: neither unset nor `null`, and not `''`,
      which the date cast turns into `null`. */
  function GivenDate(body: Body, path: string): (r: Option<Value>)
    ensures r.Some? <==> path in body && body[path] != Null && body[path] != Str("")
    ensures r.Some? ==> r.value == body[path]
  {
    if Given(body, path).Some? && body[path] != Str("") then Some(body[path]) else None
  }
}
