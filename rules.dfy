/**
 * The express-validator chains the routers declare (`param('id').isMongoId()`,
 * `body('email').optional().isEmail()`, ...) and the error list that
 * `validationResult(req)` collects from them.
 *
 * Every validator of a chain runs and each failure adds one error. A chain
 * marked `optional()` is skipped when its value is absent (`undefined`); an
 * explicit `null` is present. `isString` and `isArray` test the value itself;
 * the other validators are "standard" ones: they test the value's string
 * form, and when the value is an array they test each element instead, one
 * error per failing element. `isEmail`, `isISO8601` and `isMongoId` are
 * predicates on strings given as parameters.
 */
module Rules {
  import opened Wrappers
  import opened Http
  import opened ValidateRequest

  datatype Location = Params | BodyField

  function LocationName(l: Location): string
  {
    match l
    case Params => "params"
    case BodyField => "body"
  }

  datatype Validator =
    | IsString
    | NotEmpty
    | IsEmail
    | IsISO8601
    | IsArray
    | IsBoolean
    | IsIn(options: seq<string>)
    | IsMongoId

  /** `param(path)` / `body(path)`, optionally `.optional()`, then validators. */
  datatype Chain = Chain(location: Location, path: string, optional: bool, validators: seq<Validator>)

  datatype Oracles = Oracles(
    isEmail: string -> bool,
    isISO8601: string -> bool,
    isMongoId: string -> bool)

  /** What the chains look at: the route parameters and the parsed JSON body. */
  datatype Request = Request(params: map<string, string>, body: Body)

  const InvalidValue: string := "Invalid value"

  /** One entry of `errors.array()`: `{type: 'field', value, msg, path, location}`. */
  datatype FieldError = FieldError(value: Option<Value>, msg: string, path: string, location: Location)

  /** The value a chain selects, `None` standing for `undefined`. */
  function Select(c: Chain, req: Request): (v: Option<Value>)
    ensures c.location == Params ==> (v.Some? <==> c.path in req.params)
    ensures c.location == BodyField ==> (v.Some? <==> c.path in req.body)
    ensures v.Some? && c.location == Params ==> v.value == Str(req.params[c.path])
    ensures v.Some? && c.location == BodyField ==> v.value == req.body[c.path]
  {
    match c.location
    case Params => if c.path in req.params then Some(Str(req.params[c.path])) else None
    case BodyField => if c.path in req.body then Some(req.body[c.path]) else None
  }

  function DigitChar(d: nat): (c: char)
    requires d < 10
    ensures '0' <= c <= '9'
  {
    "0123456789"[d]
  }

  /** Decimal digits of a natural number, most significant first. */
  function Digits(n: nat): (s: string)
    ensures |s| >= 1
    ensures n >= 10 ==> |s| >= 2
    ensures '0' <= s[0] <= '9'
    decreases n
  {
    if n < 10 then [DigitChar(n)] else Digits(n / 10) + [DigitChar(n % 10)]
  }

  /** `String(n)` for an integer. */
  function NumberText(n: int): string
  {
    if n < 0 then "-" + Digits(-n) else Digits(n)
  }

  /** The string form a standard validator tests: `undefined` and `null` are
      empty, booleans and numbers are rendered as in JavaScript, an array is its
      elements' forms joined with commas. A parsed JSON body never holds a
      date; one is rendered as its time value. */
  function Stringify(v: Value): string
    decreases v
  {
    match v
    case Str(s) => s
    case Num(n) => NumberText(n)
    case Bool(b) => if b then "true" else "false"
    case DateVal(t) => NumberText(t)
    case Null => ""
    case Arr(items) => StringifyItems(items)
  }

  function StringifyItems(items: seq<Value>): string
    decreases items
  {
    if |items| == 0 then ""
    else if |items| == 1 then Stringify(items[0])
    else Stringify(items[0]) + "," + StringifyItems(items[1..])
  }

  function Render(v: Option<Value>): string
  {
    if v.Some? then Stringify(v.value) else ""
  }

  predicate Standard(val: Validator)
  {
    !val.IsString? && !val.IsArray?
  }

  /** The string test of a standard validator (validator.js semantics;
      `isBoolean` in its default, non-loose mode accepts exactly the four
      spellings below). */
  predicate Test(val: Validator, s: string, o: Oracles)
  {
    match val
    case NotEmpty => s != ""
    case IsEmail => o.isEmail(s)
    case IsISO8601 => o.isISO8601(s)
    case IsBoolean => s in ["true", "false", "1", "0"]
    case IsIn(options) => s in options
    case IsMongoId => o.isMongoId(s)
    case IsString => false
    case IsArray => false
  }

  /** Whether one validator accepts the selected value. */
  predicate Holds(val: Validator, v: Option<Value>, o: Oracles)
  {
    if val.IsString? then v.Some? && v.value.Str?
    else if val.IsArray? then v.Some? && v.value.Arr?
    else if v.Some? && v.value.Arr? then
      forall i :: 0 <= i < |v.value.items| ==> Test(val, Stringify(v.value.items[i]), o)
    else Test(val, Render(v), o)
  }

  /** One error per array element that fails a standard validator. */
  function ItemErrors(c: Chain, val: Validator, items: seq<Value>, o: Oracles): (r: seq<FieldError>)
    ensures r == [] <==> forall i :: 0 <= i < |items| ==> Test(val, Stringify(items[i]), o)
    ensures |r| <= |items|
    ensures forall k :: 0 <= k < |r| ==> r[k].path == c.path && r[k].location == c.location && r[k].msg == InvalidValue
    decreases items
  {
    if |items| == 0 then []
    else
      var rest := ItemErrors(c, val, items[1..], o);
      assert forall i :: 1 <= i < |items| ==> items[i] == items[1..][i - 1];
      if Test(val, Stringify(items[0]), o) then rest
      else [FieldError(Some(items[0]), InvalidValue, c.path, c.location)] + rest
  }

  /** The errors one validator adds. */
  function ValidatorErrors(c: Chain, val: Validator, v: Option<Value>, o: Oracles): (r: seq<FieldError>)
    ensures r == [] <==> Holds(val, v, o)
    ensures !(Standard(val) && v.Some? && v.value.Arr?) ==> |r| <= 1
    ensures forall k :: 0 <= k < |r| ==> r[k].path == c.path && r[k].location == c.location && r[k].msg == InvalidValue
  {
    if Standard(val) && v.Some? && v.value.Arr? then ItemErrors(c, val, v.value.items, o)
    else if Holds(val, v, o) then []
    else [FieldError(v, InvalidValue, c.path, c.location)]
  }

  function ValidatorsErrors(c: Chain, vals: seq<Validator>, v: Option<Value>, o: Oracles): (r: seq<FieldError>)
    ensures r == [] <==> forall i :: 0 <= i < |vals| ==> Holds(vals[i], v, o)
    ensures forall k :: 0 <= k < |r| ==> r[k].path == c.path && r[k].location == c.location
    decreases vals
  {
    if |vals| == 0 then []
    else
      var rest := ValidatorsErrors(c, vals[1..], v, o);
      assert forall i :: 1 <= i < |vals| ==> vals[i] == vals[1..][i - 1];
      ValidatorErrors(c, vals[0], v, o) + rest
  }

  /** A chain passes when it is skipped or all its validators hold. */
  predicate Passes(c: Chain, req: Request, o: Oracles)
  {
    (c.optional && Select(c, req).None?)
    || forall i :: 0 <= i < |c.validators| ==> Holds(c.validators[i], Select(c, req), o)
  }

  function ChainErrors(c: Chain, req: Request, o: Oracles): (r: seq<FieldError>)
    ensures r == [] <==> Passes(c, req, o)
    ensures forall k :: 0 <= k < |r| ==> r[k].path == c.path && r[k].location == c.location
  {
    var v := Select(c, req);
    if c.optional && v.None? then [] else ValidatorsErrors(c, c.validators, v, o)
  }

  /** `validationResult(req).array()`: the chains' errors in declaration order. */
  function Errors(chains: seq<Chain>, req: Request, o: Oracles): (r: seq<FieldError>)
    ensures r == [] <==> forall i :: 0 <= i < |chains| ==> Passes(chains[i], req, o)
    decreases chains
  {
    if |chains| == 0 then []
    else
      assert forall i :: 1 <= i < |chains| ==> chains[i] == chains[1..][i - 1];
      ChainErrors(chains[0], req, o) + Errors(chains[1..], req, o)
  }

  /** Every error names the field of one of the chains. */
  lemma {:induction false} ErrorsNameChains(chains: seq<Chain>, req: Request, o: Oracles)
    ensures forall k :: 0 <= k < |Errors(chains, req, o)| ==>
      exists i :: 0 <= i < |chains| && Errors(chains, req, o)[k].path == chains[i].path
                                    && Errors(chains, req, o)[k].location == chains[i].location
    decreases chains
  {
    if |chains| == 0 {
      assert Errors(chains, req, o) == [];
    } else {
      var first: seq<FieldError> := ChainErrors(chains[0], req, o);
      var rest: seq<FieldError> := Errors(chains[1..], req, o);
      var all: seq<FieldError> := first + rest;
      assert all == Errors(chains, req, o);
      ErrorsNameChains(chains[1..], req, o);
      forall k | 0 <= k < |Errors(chains, req, o)|
        ensures exists i :: 0 <= i < |chains| && Errors(chains, req, o)[k].path == chains[i].path
                                              && Errors(chains, req, o)[k].location == chains[i].location
      {
        if k < |first| {
          assert all[k] == first[k];
          assert all[k].path == chains[0].path && all[k].location == chains[0].location;
        } else {
          assert all[k] == rest[k - |first|];
          var i :| 0 <= i < |chains[1..]| && rest[k - |first|].path == chains[1..][i].path
                   && rest[k - |first|].location == chains[1..][i].location;
          assert chains[1..][i] == chains[i + 1];
          assert all[k].path == chains[i + 1].path && all[k].location == chains[i + 1].location;
        }
      }
    }
  }

  /** The chains followed by the `validate` middleware: either `next()` or a
      400 answer carrying the whole error list. */
  function Admission(chains: seq<Chain>, req: Request, o: Oracles): (r: Outcome<InvalidBody<FieldError>>)
    ensures r.Next? <==> forall i :: 0 <= i < |chains| ==> Passes(chains[i], req, o)
    ensures r.Respond? ==> r.status == 400 && !r.body.success && r.body.errors == Errors(chains, req, o)
    ensures !r.NextError?
  {
    Gate(Errors(chains, req, o))
  }

  /** A chain with a single validator passes when skipped or when that
      validator holds. */
  lemma SingleValidator(c: Chain, req: Request, o: Oracles)
    requires |c.validators| == 1
    ensures Passes(c, req, o) <==>
      (c.optional && Select(c, req).None?) || Holds(c.validators[0], Select(c, req), o)
  {
  }

  /** The error list depends only on the values the chains select: fields no
      chain names are never looked at. */
  lemma {:induction false} SameSelections(chains: seq<Chain>, req: Request, req': Request, o: Oracles)
    requires forall i :: 0 <= i < |chains| ==> Select(chains[i], req) == Select(chains[i], req')
    ensures Errors(chains, req, o) == Errors(chains, req', o)
    decreases chains
  {
    if |chains| > 0 {
      assert Select(chains[0], req) == Select(chains[0], req');
      assert forall i :: 0 <= i < |chains| - 1 ==> chains[1..][i] == chains[i + 1];
      SameSelections(chains[1..], req, req', o);
    }
  }

  /** Declaring two lists of chains one after the other: all pass exactly
      when each list passes. */
  lemma AllPassAppend(a: seq<Chain>, b: seq<Chain>, req: Request, o: Oracles)
    ensures (forall i :: 0 <= i < |a + b| ==> Passes((a + b)[i], req, o)) <==>
      (forall i :: 0 <= i < |a| ==> Passes(a[i], req, o)) && (forall i :: 0 <= i < |b| ==> Passes(b[i], req, o))
  {
    if forall i :: 0 <= i < |a + b| ==> Passes((a + b)[i], req, o) {
      forall i | 0 <= i < |a| ensures Passes(a[i], req, o) {
        assert (a + b)[i] == a[i];
      }
      forall i | 0 <= i < |b| ensures Passes(b[i], req, o) {
        assert (a + b)[|a| + i] == b[i];
      }
    }
    if (forall i :: 0 <= i < |a| ==> Passes(a[i], req, o)) && (forall i :: 0 <= i < |b| ==> Passes(b[i], req, o)) {
      forall i | 0 <= i < |a + b| ensures Passes((a + b)[i], req, o) {
        if i >= |a| {
          assert (a + b)[i] == b[i - |a|];
        }
      }
    }
  }

  /** The string predicates reject the empty string, as validator.js's do;
      a missing value is tested as `""`. */
  predicate RejectsEmpty(o: Oracles)
  {
    !o.isEmail("") && !o.isISO8601("") && !o.isMongoId("")
  }

  /** A body field under one validator: tested when present, otherwise
      skipped if optional and tested as `undefined` if not. */
  lemma BodyCheck(path: string, val: Validator, optional: bool, req: Request, o: Oracles)
    ensures Passes(Chain(BodyField, path, optional, [val]), req, o) <==>
      if path in req.body then Holds(val, Some(req.body[path]), o) else optional || Holds(val, None, o)
  {
    SingleValidator(Chain(BodyField, path, optional, [val]), req, o);
  }

  /** A route parameter checked by `isMongoId` passes exactly when the
      predicate accepts it. */
  lemma MongoIdParam(path: string, id: string, body: Body, o: Oracles)
    ensures Passes(Chain(Params, path, false, [IsMongoId]), Request(map[path := id], body), o)
      <==> o.isMongoId(id)
  {
    var c := Chain(Params, path, false, [IsMongoId]);
    var req := Request(map[path := id], body);
    SingleValidator(c, req, o);
    assert Select(c, req) == Some(Str(id));
  }

  /** An integer renders as `"0"` or `"1"` exactly when it is 0 or 1. */
  lemma NumberBoolean(n: int)
    ensures NumberText(n) in ["0", "1"] <==> n == 0 || n == 1
  {
    if n < 0 {
      assert NumberText(n)[0] == '-';
    } else if n >= 10 {
      assert |Digits(n)| >= 2;
    } else {
      assert Digits(n) == [DigitChar(n)];
      assert DigitChar(n) == "0123456789"[n];
    }
  }

  /** Non-loose `isBoolean` on a scalar: booleans, the numbers 0 and 1, and the
      strings "true", "false", "1", "0"; `null` fails. Arrays (tested
      element by element) and dates (absent from parsed JSON) are excluded. */
  lemma BooleanAccepts(v: Value, o: Oracles)
    requires !v.Arr? && !v.DateVal?
    ensures Holds(IsBoolean, Some(v), o) <==>
      v.Bool? || v in [Num(0), Num(1)] || (v.Str? && v.s in ["true", "false", "1", "0"])
  {
    if v.Num? {
      NumberBoolean(v.n);
      var t := NumberText(v.n);
      assert t[0] == '-' || '0' <= t[0] <= '9';
      assert t != "true" && t != "false";
    }
  }

  /** A standard validator lets an empty array through: it has no element to fail. */
  lemma EmptyArrayPasses(val: Validator, o: Oracles)
    requires Standard(val)
    ensures Holds(val, Some(Arr([])), o)
  {
  }

  /** `isString().notEmpty()` is exactly "a non-empty string". */
  lemma NonEmptyString(v: Option<Value>, o: Oracles)
    ensures (forall i :: 0 <= i < 2 ==> Holds([IsString, NotEmpty][i], v, o)) <==>
      v.Some? && v.value.Str? && v.value.s != ""
  {
    if v.Some? && v.value.Str? && v.value.s != "" {
      assert Holds([IsString, NotEmpty][0], v, o);
      assert Holds([IsString, NotEmpty][1], v, o);
    }
    if forall i :: 0 <= i < 2 ==> Holds([IsString, NotEmpty][i], v, o) {
      assert Holds([IsString, NotEmpty][0], v, o);
      assert Holds([IsString, NotEmpty][1], v, o);
    }
  }

  /** A missing required string fails both `isString` and `notEmpty`. */
  lemma MissingStringTwoErrors(path: string, req: Request, o: Oracles)
    requires path !in req.body
    ensures Errors([Chain(BodyField, path, false, [IsString, NotEmpty])], req, o) ==
      [FieldError(None, InvalidValue, path, BodyField), FieldError(None, InvalidValue, path, BodyField)]
  {
    var c := Chain(BodyField, path, false, [IsString, NotEmpty]);
    assert [c][1..] == [];
    assert c.validators[1..] == [NotEmpty];
    assert c.validators[1..][1..] == [];
  }

  /** A body field holding a non-empty string. */
  predicate NonEmptyStr(body: Body, path: string)
  {
    path in body && body[path].Str? && body[path].s != ""
  }

  /** `body(path).isString().notEmpty()` passes exactly on a non-empty string. */
  lemma RequiredStringRule(path: string, req: Request, o: Oracles)
    ensures Passes(Chain(BodyField, path, false, [IsString, NotEmpty]), req, o) <==> NonEmptyStr(req.body, path)
  {
    NonEmptyString(Select(Chain(BodyField, path, false, [IsString, NotEmpty]), req), o);
  }
}
