/**
 * The bearer-token middleware (middleware/verifyToken.js). The header is
 * split on single spaces exactly as JavaScript's `split(' ')` does, and the
 * scheme must be the exact word `Bearer`; `jwt.verify` with the process
 * secret is the parameter `verify`, which yields the decoded claims or
 * nothing when it throws.
 */
module VerifyToken {
  import opened Wrappers
  import opened Http
  import opened Text

  /** The two spellings under which the header is looked up:
      `req.headers['authorization']` and `req.headers['Authorization']`. */
  datatype Headers = Headers(lower: Option<string>, upper: Option<string>)

  /** The four ways the middleware can decide. */
  datatype Verdict<+C> = NoToken | Malformed | Invalid | Accepted(claims: C)

  /** What the middleware does: answer 401 with `{message}`, or set
      `req.user` and call `next()`. */
  datatype GateResult<+C> = Reject(status: int, message: string) | Proceed(user: C)

  const Scheme: string := "Bearer"

  /** `req.headers['authorization'] || req.headers['Authorization']`. */
  function AuthHeader(h: Headers): (a: Option<string>)
    ensures Truthy(h.lower) ==> a == h.lower
    ensures !Truthy(h.lower) ==> a == h.upper
  {
    if Truthy(h.lower) then h.lower else h.upper
  }

  /** The middleware's chain of early returns. */
  function Classify<C>(h: Headers, verify: string -> Option<C>): Verdict<C>
  {
    var auth := AuthHeader(h);
    if !Truthy(auth) then NoToken
    else
      var parts := Split(auth.value, ' ');
      if |parts| != 2 || parts[0] != Scheme then Malformed
      else
        match verify(parts[1])
        case None => Invalid
        case Some(claims) => Accepted(claims)
  }

  /** The response side of each verdict. */
  function Middleware<C>(h: Headers, verify: string -> Option<C>): (r: GateResult<C>)
    ensures r.Reject? ==> r.status == 401
    ensures r.Proceed? <==> Classify(h, verify).Accepted?
    ensures r.Proceed? ==> r.user == Classify(h, verify).claims
    ensures Classify(h, verify).NoToken? ==> r == Reject(401, "No token provided")
    ensures Classify(h, verify).Malformed? ==> r == Reject(401, "Malformed token")
    ensures Classify(h, verify).Invalid? ==> r == Reject(401, "Invalid token")
  {
    match Classify(h, verify)
    case NoToken => Reject(401, "No token provided")
    case Malformed => Reject(401, "Malformed token")
    case Invalid => Reject(401, "Invalid token")
    case Accepted(claims) => Proceed(claims)
  }

  /** The header shape the split test admits: `Bearer`, one space, and a
      token (possibly empty) with no further space. */
  predicate BearerForm(s: string)
  {
    |s| >= 7 && s[..7] == Scheme + " " && ' ' !in s[7..]
  }

  /** Splitting on `' '` gives exactly `["Bearer", t]` precisely for the
      strings `"Bearer " + t` with no space in `t`. */
  lemma {:induction false} SplitShape(s: string)
    ensures (|Split(s, ' ')| == 2 && Split(s, ' ')[0] == Scheme) <==> BearerForm(s)
    ensures BearerForm(s) ==> Split(s, ' ') == [Scheme, s[7..]]
  {
    var parts := Split(s, ' ');
    if |parts| == 2 && parts[0] == Scheme {
      JoinSplit(s, ' ');
      assert s == Scheme + " " + parts[1];
      assert s[7..] == parts[1];
    }
    if BearerForm(s) {
      var t := s[7..];
      assert s == Join([Scheme, t], ' ');
      SplitJoin([Scheme, t], ' ');
    }
  }

  /** A missing or empty header (under both spellings) and nothing else is
      answered with "No token provided"; verification is not reached. */
  lemma NoTokenExactly<C>(h: Headers, verify: string -> Option<C>)
    ensures Classify(h, verify).NoToken? <==> !Truthy(h.lower) && !Truthy(h.upper)
  {
  }

  /** A present header is malformed exactly when it is not `Bearer <token>`
      with a single space and a space-free token. */
  lemma MalformedExactly<C>(h: Headers, verify: string -> Option<C>)
    requires Truthy(AuthHeader(h))
    ensures Classify(h, verify).Malformed? <==> !BearerForm(AuthHeader(h).value)
  {
    SplitShape(AuthHeader(h).value);
  }

  /** For a well-formed header the token handed to `verify` is exactly the
      text after `Bearer `, and the verdict is verify's answer. */
  lemma VerifiesSecondPart<C>(h: Headers, verify: string -> Option<C>)
    requires Truthy(AuthHeader(h)) && BearerForm(AuthHeader(h).value)
    ensures var t := AuthHeader(h).value[7..];
      Classify(h, verify) == (if verify(t).Some? then Accepted(verify(t).value) else Invalid)
  {
    SplitShape(AuthHeader(h).value);
  }

  /** The middleware lets a request through exactly when the header is
      `Bearer <token>` and `verify` accepts that token; `req.user` is then
      the decoded claims. */
  lemma ProceedsExactly<C>(h: Headers, verify: string -> Option<C>)
    ensures Middleware(h, verify).Proceed? <==>
      Truthy(AuthHeader(h)) && BearerForm(AuthHeader(h).value) && verify(AuthHeader(h).value[7..]).Some?
    ensures Middleware(h, verify).Proceed? ==>
      Middleware(h, verify).user == verify(AuthHeader(h).value[7..]).value
  {
    if Truthy(AuthHeader(h)) {
      SplitShape(AuthHeader(h).value);
    }
  }

  /** The scheme test is exact and case-sensitive: `bearer x` and
      `Token abc` are malformed. */
  lemma SchemeIsExact<C>(verify: string -> Option<C>)
    ensures Classify(Headers(Some("bearer x"), None), verify) == Malformed
    ensures Classify(Headers(Some("Token abc"), None), verify) == Malformed
  {
    assert "bearer x"[..7][0] != (Scheme + " ")[0];
    MalformedExactly(Headers(Some("bearer x"), None), verify);
    assert "Token abc"[..7][0] != (Scheme + " ")[0];
    MalformedExactly(Headers(Some("Token abc"), None), verify);
  }

  /** A scheme without its token, a doubled space and a third part are all
      malformed. */
  lemma PartCountIsExact<C>(verify: string -> Option<C>)
    ensures Classify(Headers(Some("Bearer"), None), verify) == Malformed
    ensures Classify(Headers(Some("Bearer  x"), None), verify) == Malformed
    ensures Classify(Headers(Some("Bearer a b"), None), verify) == Malformed
  {
    MalformedExactly(Headers(Some("Bearer"), None), verify);
    MalformedExactly(Headers(Some("Bearer  x"), None), verify);
    assert "Bearer  x"[7..][0] == ' ';
    MalformedExactly(Headers(Some("Bearer a b"), None), verify);
    assert "Bearer a b"[7..][1] == ' ';
  }

  /** `"Bearer "` passes the shape test and the empty token is verified. */
  lemma EmptyTokenIsVerified<C>(verify: string -> Option<C>)
    ensures Classify(Headers(Some("Bearer "), None), verify) ==
      (if verify("").Some? then Accepted(verify("").value) else Invalid)
  {
    VerifiesSecondPart(Headers(Some("Bearer "), None), verify);
  }

  /** The lower-case spelling wins when it is non-empty; an empty lower-case
      header falls back to the capitalised one. */
  lemma HeaderFallback<C>(verify: string -> Option<C>, a: string)
    ensures Classify(Headers(Some(""), Some(a)), verify) == Classify(Headers(Some(a), None), verify)
    ensures Classify(Headers(None, Some(a)), verify) == Classify(Headers(Some(a), None), verify)
  {
  }
}
