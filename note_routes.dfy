/**
 * The Note router (routes/notes.js): each endpoint's validation chains, the
 * `validate` middleware, then the controller handler.
 */
module NoteRoutes {
  import opened Wrappers
  import opened Http
  import opened Rules
  import opened ValidateRequest
  import opened Store
  import opened Crud
  import opened NoteModel
  import opened NotesController
  import Schema
  import ErrorHandler

  /** `GET /`, `GET /:id`, `POST /`, `PUT /:id`, `DELETE /:id`. */
  datatype Endpoint = List | Read(id: Id) | Add | Change(id: Id) | Drop(id: Id)

  const PriorityOptions: seq<string> := ["low", "medium", "high"]

  const IdRule: Chain := Chain(Params, "id", false, [IsMongoId])

  /** The chains of `POST /`: three required strings, then four optional fields. */
  const RequiredRules: seq<Chain> := [
    Chain(BodyField, "title", false, [IsString, NotEmpty]),
    Chain(BodyField, "content", false, [IsString, NotEmpty]),
    Chain(BodyField, "author", false, [IsString, NotEmpty])
  ]

  const OptionalRules: seq<Chain> := [
    Chain(BodyField, "tags", true, [IsArray]),
    Chain(BodyField, "isImportant", true, [IsBoolean]),
    Chain(BodyField, "dueDate", true, [IsISO8601]),
    Chain(BodyField, "priority", true, [IsIn(PriorityOptions)])
  ]

  const PostRules: seq<Chain> := RequiredRules + OptionalRules

  const PutRules: seq<Chain> := [
    IdRule,
    Chain(BodyField, "dueDate", true, [IsISO8601]),
    Chain(BodyField, "priority", true, [IsIn(PriorityOptions)])
  ]

  function RulesFor(e: Endpoint): seq<Chain>
  {
    match e
    case List => []
    case Read(_) => [IdRule]
    case Add => PostRules
    case Change(_) => PutRules
    case Drop(_) => [IdRule]
  }

  /** The route parameters Express extracts from the matched path. */
  function ParamsOf(e: Endpoint): map<string, string>
  {
    match e
    case Read(id) => map["id" := id]
    case Change(id) => map["id" := id]
    case Drop(id) => map["id" := id]
    case _ => map[]
  }

  function RequestOf(e: Endpoint, body: Body): Request
  {
    Request(ParamsOf(e), body)
  }

  /** What the router answers: the validator's 400, or the handler's outcome. */
  datatype Response = Rejected(status: int, invalid: InvalidBody<FieldError>) | Handled(out: Outcome<Reply<Note>>)

  /** What the handler wired to `e` does to the collection `before`: its
      outcome `out` and the collection `after` it. */
  predicate Handles(e: Endpoint, before: seq<Stored<Note>>, after: seq<Stored<Note>>,
                    out: Outcome<Reply<Note>>, body: Body, newId: Id, now: Time,
                    parseDate: string -> Option<Time>, fault: Option<Error>)
  {
    match e
    case List =>
      && after == before
      && out == (if fault.Some? then NextError(fault.value) else Respond(200, Listing(|before|, before)))
    case Read(id) =>
      && after == before
      && out == (if fault.Some? then NextError(fault.value)
                 else if HasId(before, id) then Respond(200, Found(FindById(before, id).value))
                 else Respond(404, NotFound(NotFoundMessage)))
    case Add =>
      var n := NewNote(body, now, parseDate);
      if n.Ok? && fault.None? && !HasId(before, newId) then
        out == Respond(201, Created(newId, Stored(newId, n.value))) && after == before + [Stored(newId, n.value)]
      else
        && after == before
        && out == NextError(if n.Err? then n.error else if fault.Some? then fault.value else DuplicateKey)
    case Change(id) =>
      var p := NoteUpdate(Stamp(body, now), parseDate);
      if p.Ok? && fault.None? && HasId(before, id) then
        var doc := ApplyPatch(FindById(before, id).value.doc, p.value);
        out == Respond(200, Found(Stored(id, doc))) && after == ReplaceById(before, id, doc)
      else
        && after == before
        && out == (if p.Err? then NextError(p.error) else if fault.Some? then NextError(fault.value)
                   else Respond(404, NotFound(NotFoundMessage)))
    case Drop(id) =>
      if fault.None? && HasId(before, id) then
        out == Respond(200, Deleted("Deleted")) && after == RemoveById(before, id)
      else
        && after == before
        && out == (if fault.Some? then NextError(fault.value) else Respond(404, NotFound(NotFoundMessage)))
  }

  /** A request through the router: the validation chains, then the handler.
      The store, clock, id source and string predicates are parameters as
      for the handlers. */
  method Serve(store: Notes, e: Endpoint, body: Body, o: Oracles, newId: Id, now: Time,
               parseDate: string -> Option<Time>, fault: Option<Error>)
    returns (r: Response)
    requires store.Valid()
    modifies store
    ensures store.Valid()
    ensures r.Rejected? <==> Admission(RulesFor(e), RequestOf(e, body), o).Respond?
    ensures r.Rejected? ==>
      r.status == 400 && r.invalid == InvalidBody(false, Errors(RulesFor(e), RequestOf(e, body), o))
    ensures r.Rejected? ==> store.notes == old(store.notes)
    ensures r.Handled? ==> Handles(e, old(store.notes), store.notes, r.out, body, newId, now, parseDate, fault)
  {
    var gate := Admission(RulesFor(e), RequestOf(e, body), o);
    if gate.Respond? {
      return Rejected(gate.status, gate.body);
    }
    var out := Dispatch(store, e, body, newId, now, parseDate, fault);
    return Handled(out);
  }

  /** The handler each endpoint is wired to. */
  method Dispatch(store: Notes, e: Endpoint, body: Body, newId: Id, now: Time,
                  parseDate: string -> Option<Time>, fault: Option<Error>)
    returns (out: Outcome<Reply<Note>>)
    requires store.Valid()
    modifies store
    ensures store.Valid()
    ensures Handles(e, old(store.notes), store.notes, out, body, newId, now, parseDate, fault)
  {
    match e {
      case List => out := store.GetAll(fault);
      case Read(id) => out := store.GetOne(id, fault);
      case Add => out := store.Create(body, newId, now, parseDate, fault);
      case Change(id) => out := store.Update(id, body, now, parseDate, fault);
      case Drop(id) => out := store.Remove(id, fault);
    }
  }

  /** `GET /` has no rules. */
  lemma ListIsNeverRejected(body: Body, o: Oracles)
    ensures Admission(RulesFor(List), RequestOf(List, body), o).Next?
  {
  }

  /** `GET /:id` and `DELETE /:id` check the id alone, whatever the body. */
  lemma IdRoutesCheckOnlyId(id: Id, body: Body, o: Oracles)
    ensures Admission(RulesFor(Read(id)), RequestOf(Read(id), body), o).Next? <==> o.isMongoId(id)
    ensures Admission(RulesFor(Drop(id)), RequestOf(Drop(id), body), o).Next? <==> o.isMongoId(id)
  {
    assert RulesFor(Read(id)) == [IdRule] && RulesFor(Drop(id)) == [IdRule];
    assert RequestOf(Read(id), body) == Request(map["id" := id], body) == RequestOf(Drop(id), body);
    MongoIdParam("id", id, body, o);
  }

  /** The route's `isIn` list and the schema's `enum` accept the same strings. */
  lemma PriorityAgreesWithSchema(s: string, o: Oracles)
    ensures Holds(IsIn(PriorityOptions), Some(Str(s)), o) <==> ParsePriority(s).Some?
  {
  }

  /** `POST /` admits exactly the bodies with non-empty string title, content
      and author, whose optional fields, when present, pass their checks. */
  lemma PostAdmits(body: Body, o: Oracles)
    ensures Admission(PostRules, RequestOf(Add, body), o).Next? <==>
      && NonEmptyStr(body, "title") && NonEmptyStr(body, "content") && NonEmptyStr(body, "author")
      && ("tags" in body ==> body["tags"].Arr?)
      && ("isImportant" in body ==> Holds(IsBoolean, Some(body["isImportant"]), o))
      && ("dueDate" in body ==> Holds(IsISO8601, Some(body["dueDate"]), o))
      && ("priority" in body ==> Holds(IsIn(PriorityOptions), Some(body["priority"]), o))
  {
    var req := RequestOf(Add, body);
    AllPassAppend(RequiredRules, OptionalRules, req, o);
    RequiredPass(req, o);
    OptionalPass(req, o);
  }

  lemma RequiredPass(req: Request, o: Oracles)
    ensures (forall i :: 0 <= i < |RequiredRules| ==> Passes(RequiredRules[i], req, o)) <==>
      NonEmptyStr(req.body, "title") && NonEmptyStr(req.body, "content") && NonEmptyStr(req.body, "author")
  {
    assert (forall i :: 0 <= i < |RequiredRules| ==> Passes(RequiredRules[i], req, o)) <==>
      Passes(RequiredRules[0], req, o) && Passes(RequiredRules[1], req, o) && Passes(RequiredRules[2], req, o);
    RequiredStringRule("title", req, o);
    RequiredStringRule("content", req, o);
    RequiredStringRule("author", req, o);
  }

  lemma OptionalPass(req: Request, o: Oracles)
    ensures (forall i :: 0 <= i < |OptionalRules| ==> Passes(OptionalRules[i], req, o)) <==>
      && ("tags" in req.body ==> req.body["tags"].Arr?)
      && ("isImportant" in req.body ==> Holds(IsBoolean, Some(req.body["isImportant"]), o))
      && ("dueDate" in req.body ==> Holds(IsISO8601, Some(req.body["dueDate"]), o))
      && ("priority" in req.body ==> Holds(IsIn(PriorityOptions), Some(req.body["priority"]), o))
  {
    assert (forall i :: 0 <= i < |OptionalRules| ==> Passes(OptionalRules[i], req, o)) <==>
      Passes(OptionalRules[0], req, o) && Passes(OptionalRules[1], req, o)
      && Passes(OptionalRules[2], req, o) && Passes(OptionalRules[3], req, o);
    BodyCheck("tags", IsArray, true, req, o);
    BodyCheck("isImportant", IsBoolean, true, req, o);
    BodyCheck("dueDate", IsISO8601, true, req, o);
    BodyCheck("priority", IsIn(PriorityOptions), true, req, o);
  }

  /** `PUT /:id` checks the id, the due date and the priority only. */
  lemma PutAdmits(id: Id, body: Body, o: Oracles)
    ensures Admission(PutRules, RequestOf(Change(id), body), o).Next? <==>
      && o.isMongoId(id)
      && ("dueDate" in body ==> Holds(IsISO8601, Some(body["dueDate"]), o))
      && ("priority" in body ==> Holds(IsIn(PriorityOptions), Some(body["priority"]), o))
  {
    var req := RequestOf(Change(id), body);
    assert req == Request(map["id" := id], body);
    assert (forall i :: 0 <= i < |PutRules| ==> Passes(PutRules[i], req, o)) <==>
      Passes(PutRules[0], req, o) && Passes(PutRules[1], req, o) && Passes(PutRules[2], req, o);
    MongoIdParam("id", id, body, o);
    BodyCheck("dueDate", IsISO8601, true, req, o);
    BodyCheck("priority", IsIn(PriorityOptions), true, req, o);
  }

  /** What a `PUT /:id` body holds under any other name, `title` included,
      never changes the router's answer. */
  lemma PutIgnoresOtherFields(id: Id, body: Body, path: string, v: Value, o: Oracles)
    requires path != "dueDate" && path != "priority"
    ensures Admission(PutRules, RequestOf(Change(id), body), o)
         == Admission(PutRules, RequestOf(Change(id), body[path := v]), o)
  {
    var req := RequestOf(Change(id), body);
    var req' := RequestOf(Change(id), body[path := v]);
    forall i | 0 <= i < |PutRules| ensures Select(PutRules[i], req) == Select(PutRules[i], req') {
    }
    SameSelections(PutRules, req, req', o);
  }

  /** So a `PUT /:id` that blanks the title is admitted by the router (its
      id being a Mongo id and no due date or priority being sent) and then,
      once `update` has stamped `updatedAt`, fails the schema's `required`
      validator, which the error handler answers with a 500 rather than the
      validator's 400. */
  lemma BlankTitleAnswers500(id: Id, body: Body, now: Time, parseDate: string -> Option<Time>, o: Oracles)
    requires "title" in body && body["title"] == Str("")
    requires o.isMongoId(id) && "dueDate" !in body && "priority" !in body
    ensures Admission(PutRules, RequestOf(Change(id), body), o).Next?
    ensures NoteUpdate(Stamp(body, now), parseDate).Err?
    ensures ErrorHandler.Handle(NoteUpdate(Stamp(body, now), parseDate).error, false)
         == Respond(500, ErrorHandler.ErrorBody(false, Model + " validation failed"))
  {
    PutAdmits(id, body, o);
    assert Stamp(body, now)["title"] == Str("");
  }

  /** An empty array as priority passes the route's `isIn` (there is no
      element to fail) but not the schema's enum. */
  lemma EmptyPriorityArrayGap(body: Body, parseDate: string -> Option<Time>, o: Oracles)
    requires "priority" in body && body["priority"] == Arr([])
    ensures Holds(IsIn(PriorityOptions), Some(body["priority"]), o)
    ensures NoteUpdate(body, parseDate).Err?
  {
    assert Schema.Given(body, "priority").Some?;
  }
}
