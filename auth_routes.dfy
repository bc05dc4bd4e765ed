/**
 * The handlers of routes/auth.js. `jwt.sign` with the process secret is the
 * parameter `sign`, which receives the payload and the `expiresIn` option
 * and gives the token or the error it throws (an unset secret, say);
 * `process.env.NODE_ENV` and `process.env.RENDER_URL` are the record `Env`.
 */
module AuthRoutes {
  import opened Wrappers
  import opened Http
  import opened Store
  import opened UserModel
  import opened Passport

  /** The claims put into the token: `{id, email, role}`. */
  datatype TokenPayload = TokenPayload(id: Id, email: string, role: string)

  /** The environment variables the callback reads; either may be unset. */
  datatype Env = Env(nodeEnv: Option<string>, renderUrl: Option<string>)

  /** What a handler sends. */
  datatype Reply =
    | Redirect(location: string)                                 // res.redirect(url): 302
    | Text(status: int, text: string)                            // res.status(s).send(text)
    | MessageJson(message: string)                               // res.json({message}): 200
    | LoginJson(message: string, token: Option<string>)          // res.json({message, token}): 200

  const ExpiresIn: string := "12h"
  const LocalBase: string := "http://localhost:8080"
  const SuccessPath: string := "/auth/success?token="

  /** `{id: user._id, email: user.email, role: user.role}`. */
  function Payload(u: Stored<User>): (p: TokenPayload)
    ensures p.id == u.id && p.email == u.doc.email && p.role == u.doc.role
  {
    TokenPayload(u.id, u.doc.email, u.doc.role)
  }

  /** `NODE_ENV === 'production' ? RENDER_URL : 'http://localhost:8080'`; an
      unset `RENDER_URL` is rendered by the template literal as "undefined". */
  function RedirectBase(env: Env): (b: string)
    ensures env.nodeEnv != Some("production") ==> b == LocalBase
    ensures env.nodeEnv == Some("production") && env.renderUrl.Some? ==> b == env.renderUrl.value
    ensures env.nodeEnv == Some("production") && env.renderUrl.None? ==> b == "undefined"
  {
    if env.nodeEnv == Some("production") then
      (if env.renderUrl.Some? then env.renderUrl.value else "undefined")
    else LocalBase
  }

  /** `${redirectBase}/auth/success?token=${token}`, the token not encoded. */
  function SuccessUrl(base: string, token: string): string
  {
    base + SuccessPath + token
  }

  /** The token carried by a success URL built on `base`. */
  function TokenInUrl(url: string, base: string): (t: Option<string>)
    ensures t.Some? ==> url == SuccessUrl(base, t.value)
  {
    var prefix := base + SuccessPath;
    if |prefix| <= |url| && url[..|prefix|] == prefix then Some(url[|prefix|..]) else None
  }

  /** The success URL keeps the token intact: it can be read back. */
  lemma {:induction false} SuccessUrlRoundTrip(base: string, token: string)
    ensures TokenInUrl(SuccessUrl(base, token), base) == Some(token)
  {
    var prefix := base + SuccessPath;
    var url := SuccessUrl(base, token);
    assert url == prefix + token;
    assert url[..|prefix|] == prefix;
    assert url[|prefix|..] == token;
  }

  /** Distinct tokens give distinct redirect targets. */
  lemma SuccessUrlInjective(base: string, t1: string, t2: string)
    requires SuccessUrl(base, t1) == SuccessUrl(base, t2)
    ensures t1 == t2
  {
    SuccessUrlRoundTrip(base, t1);
    SuccessUrlRoundTrip(base, t2);
  }

  /** The `/google/callback` handler once passport has set `req.user`: a
      redirect carrying the signed token, or, when `jwt.sign` throws, that
      error, which Express hands to `next(err)`. */
  function Callback(user: Stored<User>, env: Env, sign: (TokenPayload, string) -> Result<string, Error>): (r: Result<Reply, Error>)
    ensures r.Err? <==> sign(Payload(user), ExpiresIn).Err?
    ensures r.Err? ==> r.error == sign(Payload(user), ExpiresIn).error
    ensures r.Ok? ==> r.value.Redirect?
    ensures r.Ok? ==> TokenInUrl(r.value.location, RedirectBase(env)) == Some(sign(Payload(user), ExpiresIn).value)
  {
    match sign(Payload(user), ExpiresIn)
    case Err(e) => Err(e)
    case Ok(token) =>
      SuccessUrlRoundTrip(RedirectBase(env), token);
      Ok(Redirect(SuccessUrl(RedirectBase(env), token)))
  }

  /** `/fail`: 401 with a plain-text body. */
  function Fail(): (r: Reply)
    ensures r == Text(401, "Authentication Failed")
  {
    Text(401, "Authentication Failed")
  }

  /** `/logout`: `req.logout?.()` is called only when present and does not
      change the answer. */
  function Logout(): (r: Reply)
    ensures r == MessageJson("Logged out")
  {
    MessageJson("Logged out")
  }

  /** `/success`: echoes `req.query.token` unchanged (omitted when absent). */
  function Success(queryToken: Option<string>): (r: Reply)
    ensures r.LoginJson? && r.message == "Login successful" && r.token == queryToken
  {
    LoginJson("Login successful", queryToken)
  }

  /** `/me`: a fixed hint; it does not read the token. */
  function Me(): (r: Reply)
    ensures r == MessageJson("Use /protected with Authorization Bearer token")
  {
    MessageJson("Use /protected with Authorization Bearer token")
  }

  /** Following the callback's redirect to `/success` shows the token that was
      signed for the user's id, email and role with a 12-hour expiry. */
  lemma CallbackThenSuccess(user: Stored<User>, env: Env, sign: (TokenPayload, string) -> Result<string, Error>)
    ensures Callback(user, env, sign).Ok? ==>
      Success(TokenInUrl(Callback(user, env, sign).value.location, RedirectBase(env))) ==
      LoginJson("Login successful", Some(sign(TokenPayload(user.id, user.doc.email, user.doc.role), "12h").value))
  {
  }

  /** A repeated Google login signs a payload for the same subject: the same
      user id, email and role as the first login produced. */
  lemma ReloginSameSubject(users: seq<Stored<User>>, p: Profile, id1: Id, t1: Time, id2: Id, t2: Time)
    requires ValidUsers(users)
    requires Resolve(users, p, id1, t1).1.user.Some?
    ensures var (after, d1) := Resolve(users, p, id1, t1);
      var d2 := Resolve(after, p, id2, t2).1;
      d2.user.Some? && Payload(d2.user.value) == Payload(d1.user.value)
  {
    ResolveIdempotent(users, p, id1, t1, id2, t2);
  }

  /** On a first login the token's subject is the newly created user, with
      the profile's email (or '') and the role "user". */
  lemma FirstLoginPayload(users: seq<Stored<User>>, p: Profile, newId: Id, now: Time)
    requires ValidUsers(users)
    requires forall k :: 0 <= k < |users| ==> !Matches(users[k], Provider, p.id)
    requires !HasId(users, newId)
    ensures var d := Resolve(users, p, newId, now).1;
      d.user.Some? && Payload(d.user.value) == TokenPayload(newId, PrimaryEmail(p), "user")
  {
    ResolveCreates(users, p, newId, now);
  }
}
