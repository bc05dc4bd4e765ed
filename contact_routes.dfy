/**
 * The Contact router (routes/contacts.js): each endpoint's validation chains,
 * the `validate` middleware, then the controller handler.
 */
module ContactRoutes {
  import opened Wrappers
  import opened Http
  import opened Text
  import opened Rules
  import opened ValidateRequest
  import opened Store
  import opened Crud
  import opened ContactModel
  import opened ContactsController
  import ErrorHandler

  /** `GET /`, `GET /:id`, `POST /`, `PUT /:id`, `DELETE /:id`. */
  datatype Endpoint = List | Read(id: Id) | Add | Change(id: Id) | Drop(id: Id)

  const IdRule: Chain := Chain(Params, "id", false, [IsMongoId])

  const PostRules: seq<Chain> := [
    Chain(BodyField, "firstName", false, [IsString, NotEmpty]),
    Chain(BodyField, "lastName", false, [IsString, NotEmpty]),
    Chain(BodyField, "email", false, [IsEmail]),
    Chain(BodyField, "favoriteColor", false, [IsString, NotEmpty]),
    Chain(BodyField, "birthday", false, [IsISO8601])
  ]

  const PutRules: seq<Chain> := [
    IdRule,
    Chain(BodyField, "email", true, [IsEmail]),
    Chain(BodyField, "birthday", true, [IsISO8601])
  ]

  function RulesFor(e: Endpoint): seq<Chain>
  {
    match e
    case List => []
    case Read(_) => [IdRule]
    case Add => PostRules
    case Change(_) => PutRules
    case Drop(_) => [IdRule]
  }

  /** The route parameters Express extracts from the matched path. */
  function ParamsOf(e: Endpoint): map<string, string>
  {
    match e
    case Read(id) => map["id" := id]
    case Change(id) => map["id" := id]
    case Drop(id) => map["id" := id]
    case _ => map[]
  }

  function RequestOf(e: Endpoint, body: Body): Request
  {
    Request(ParamsOf(e), body)
  }

  /** What the router answers: the validator's 400, or the handler's outcome. */
  datatype Response = Rejected(status: int, invalid: InvalidBody<FieldError>) | Handled(out: Outcome<Reply<Contact>>)

  /** What the handler wired to `e` does to the collection `before`: its
      outcome `out` and the collection `after` it. */
  predicate Handles(e: Endpoint, before: seq<Stored<Contact>>, after: seq<Stored<Contact>>,
                    out: Outcome<Reply<Contact>>, body: Body, newId: Id, now: Time,
                    parseDate: string -> Option<Time>, fault: Option<Error>)
  {
    match e
    case List =>
      && after == before
      && out == (if fault.Some? then NextError(fault.value) else Respond(200, Listing(|before|, before)))
    case Read(id) =>
      && after == before
      && out == (if fault.Some? then NextError(fault.value)
                 else if HasId(before, id) then Respond(200, Found(FindById(before, id).value))
                 else Respond(404, NotFound(NotFoundMessage)))
    case Add =>
      var c := NewContact(body, now, parseDate);
      if c.Ok? && fault.None? && !HasId(before, newId) then
        out == Respond(201, Created(newId, Stored(newId, c.value))) && after == before + [Stored(newId, c.value)]
      else
        && after == before
        && out == NextError(if c.Err? then c.error else if fault.Some? then fault.value else DuplicateKey)
    case Change(id) =>
      var p := ContactUpdate(Stamp(body, now), parseDate);
      if p.Ok? && fault.None? && HasId(before, id) then
        var doc := ApplyPatch(FindById(before, id).value.doc, p.value, now);
        out == Respond(200, Found(Stored(id, doc))) && after == ReplaceById(before, id, doc)
      else
        && after == before
        && out == (if p.Err? then NextError(p.error) else if fault.Some? then NextError(fault.value)
                   else Respond(404, NotFound(NotFoundMessage)))
    case Drop(id) =>
      if fault.None? && HasId(before, id) then
        out == Respond(200, Deleted("Deleted")) && after == RemoveById(before, id)
      else
        && after == before
        && out == (if fault.Some? then NextError(fault.value) else Respond(404, NotFound(NotFoundMessage)))
  }

  /** A request through the router: the validation chains, then the handler.
      The store, clock, id source and string predicates are parameters as
      for the handlers. */
  method Serve(store: Contacts, e: Endpoint, body: Body, o: Oracles, newId: Id, now: Time,
               parseDate: string -> Option<Time>, fault: Option<Error>)
    returns (r: Response)
    requires store.Valid()
    modifies store
    ensures store.Valid()
    ensures r.Rejected? <==> Admission(RulesFor(e), RequestOf(e, body), o).Respond?
    ensures r.Rejected? ==>
      r.status == 400 && r.invalid == InvalidBody(false, Errors(RulesFor(e), RequestOf(e, body), o))
    ensures r.Rejected? ==> store.contacts == old(store.contacts)
    ensures r.Handled? ==> Handles(e, old(store.contacts), store.contacts, r.out, body, newId, now, parseDate, fault)
  {
    var gate := Admission(RulesFor(e), RequestOf(e, body), o);
    if gate.Respond? {
      return Rejected(gate.status, gate.body);
    }
    var out := Dispatch(store, e, body, newId, now, parseDate, fault);
    return Handled(out);
  }

  /** The handler each endpoint is wired to. */
  method Dispatch(store: Contacts, e: Endpoint, body: Body, newId: Id, now: Time,
                  parseDate: string -> Option<Time>, fault: Option<Error>)
    returns (out: Outcome<Reply<Contact>>)
    requires store.Valid()
    modifies store
    ensures store.Valid()
    ensures Handles(e, old(store.contacts), store.contacts, out, body, newId, now, parseDate, fault)
  {
    match e {
      case List => out := store.GetAll(fault);
      case Read(id) => out := store.GetOne(id, fault);
      case Add => out := store.Create(body, newId, now, parseDate, fault);
      case Change(id) => out := store.Update(id, body, now, parseDate, fault);
      case Drop(id) => out := store.Remove(id, fault);
    }
  }

  /** `GET /` has no rules. */
  lemma ListIsNeverRejected(body: Body, o: Oracles)
    ensures Admission(RulesFor(List), RequestOf(List, body), o).Next?
  {
  }

  /** `GET /:id` and `DELETE /:id` check the id alone, whatever the body. */
  lemma IdRoutesCheckOnlyId(id: Id, body: Body, o: Oracles)
    ensures Admission(RulesFor(Read(id)), RequestOf(Read(id), body), o).Next? <==> o.isMongoId(id)
    ensures Admission(RulesFor(Drop(id)), RequestOf(Drop(id), body), o).Next? <==> o.isMongoId(id)
  {
    assert RulesFor(Read(id)) == [IdRule] && RulesFor(Drop(id)) == [IdRule];
    assert RequestOf(Read(id), body) == Request(map["id" := id], body) == RequestOf(Drop(id), body);
    MongoIdParam("id", id, body, o);
  }

  /** `POST /` admits exactly the bodies with non-empty string names and
      colour, an e-mail and an ISO 8601 birthday. */
  lemma PostAdmits(body: Body, o: Oracles)
    requires RejectsEmpty(o)
    ensures Admission(PostRules, RequestOf(Add, body), o).Next? <==>
      && NonEmptyStr(body, "firstName") && NonEmptyStr(body, "lastName")
      && "email" in body && Holds(IsEmail, Some(body["email"]), o)
      && NonEmptyStr(body, "favoriteColor")
      && "birthday" in body && Holds(IsISO8601, Some(body["birthday"]), o)
  {
    var req := RequestOf(Add, body);
    assert req.body == body;
    assert (forall i :: 0 <= i < |PostRules| ==> Passes(PostRules[i], req, o)) <==>
      Passes(PostRules[0], req, o) && Passes(PostRules[1], req, o) && Passes(PostRules[2], req, o)
      && Passes(PostRules[3], req, o) && Passes(PostRules[4], req, o);
    RequiredStringRule("firstName", req, o);
    RequiredStringRule("lastName", req, o);
    RequiredStringRule("favoriteColor", req, o);
    BodyCheck("email", IsEmail, false, req, o);
    BodyCheck("birthday", IsISO8601, false, req, o);
    assert Passes(PostRules[2], req, o) <==> "email" in body && Holds(IsEmail, Some(body["email"]), o);
    assert Passes(PostRules[4], req, o) <==> "birthday" in body && Holds(IsISO8601, Some(body["birthday"]), o);
  }

  /** `PUT /:id` checks the id and, when present, the e-mail and birthday;
      names and colour pass unchecked. */
  lemma PutAdmits(id: Id, body: Body, o: Oracles)
    ensures Admission(PutRules, RequestOf(Change(id), body), o).Next? <==>
      && o.isMongoId(id)
      && ("email" in body ==> Holds(IsEmail, Some(body["email"]), o))
      && ("birthday" in body ==> Holds(IsISO8601, Some(body["birthday"]), o))
  {
    var req := RequestOf(Change(id), body);
    assert req == Request(map["id" := id], body);
    assert (forall i :: 0 <= i < |PutRules| ==> Passes(PutRules[i], req, o)) <==>
      Passes(PutRules[0], req, o) && Passes(PutRules[1], req, o) && Passes(PutRules[2], req, o);
    MongoIdParam("id", id, body, o);
    BodyCheck("email", IsEmail, true, req, o);
    BodyCheck("birthday", IsISO8601, true, req, o);
  }

  /** A non-empty string of white space only passes `isString().notEmpty()`,
      but the schema trims it to nothing and rejects it. */
  lemma BlankNameGap(s: string, o: Oracles)
    requires s != "" && forall i :: 0 <= i < |s| ==> IsWhiteSpace(s[i])
    ensures Holds(IsString, Some(Str(s)), o) && Holds(NotEmpty, Some(Str(s)), o)
    ensures RequiredText(Str(s), false).None?
  {
  }

  /** So a `POST /` whose first name is blank is admitted by the router and
      then fails in the schema, which the error handler answers with a 500
      rather than the validator's 400. */
  lemma BlankNameAnswers500(body: Body, now: Time, parseDate: string -> Option<Time>, o: Oracles)
    requires "firstName" in body && body["firstName"].Str? && body["firstName"].s != ""
    requires forall i :: 0 <= i < |body["firstName"].s| ==> IsWhiteSpace(body["firstName"].s[i])
    ensures Passes(PostRules[0], RequestOf(Add, body), o)
    ensures NewContact(body, now, parseDate).Err?
    ensures ErrorHandler.Handle(NewContact(body, now, parseDate).error, false)
         == Respond(500, ErrorHandler.ErrorBody(false, Model + " validation failed"))
  {
    NonEmptyString(Select(PostRules[0], RequestOf(Add, body)), o);
    BlankNameGap(body["firstName"].s, o);
  }
}
