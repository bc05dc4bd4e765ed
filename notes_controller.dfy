/**
 * The Note handlers (controllers/notes.js) as methods over the `notes`
 * collection. As for contacts, the store's failure for a call is the
 * parameter `fault`, forwarded to `next(err)` with nothing written.
 */
module NotesController {
  import opened Wrappers
  import opened Http
  import opened Store
  import opened Crud
  import opened Schema
  import opened NoteModel

  const NotFoundMessage: string := "Note not found"

  /** What every saved note satisfies: the required strings are non-empty. */
  predicate NoteWellFormed(n: Note)
  {
    n.title != "" && n.content != "" && n.author != ""
  }

  ghost predicate ValidNotes(s: seq<Stored<Note>>)
  {
    IdsUnique(s) && forall k :: 0 <= k < |s| ==> NoteWellFormed(s[k].doc)
  }

  lemma AppendKeepsValid(s: seq<Stored<Note>>, x: Stored<Note>)
    requires ValidNotes(s) && NoteWellFormed(x.doc) && !HasId(s, x.id)
    ensures ValidNotes(s + [x])
  {
    AppendFresh(s, x.id, x.doc);
    assert x == Stored(x.id, x.doc);
    forall k | 0 <= k < |s| + 1 ensures NoteWellFormed((s + [x])[k].doc) {
      if k < |s| {
        assert (s + [x])[k] == s[k];
      }
    }
  }

  lemma ReplaceKeepsValid(s: seq<Stored<Note>>, id: Id, n: Note)
    requires ValidNotes(s) && NoteWellFormed(n) && HasId(s, id)
    ensures ValidNotes(ReplaceById(s, id, n))
  {
    ReplaceFinds(s, id, n);
  }

  lemma RemoveKeepsValid(s: seq<Stored<Note>>, id: Id)
    requires ValidNotes(s)
    ensures ValidNotes(RemoveById(s, id))
  {
    RemoveKeepsUnique(s, id);
    var r := RemoveById(s, id);
    forall k | 0 <= k < |r| ensures NoteWellFormed(r[k].doc) {
      assert r[k] in s;
    }
  }

  /** `req.body.updatedAt = new Date()`, which `update` does first. */
  function Stamp(body: Body, now: Time): Body
  {
    body["updatedAt" := DateVal(now)]
  }

  class Notes {
    /** The `notes` collection in natural order. */
    var notes: seq<Stored<Note>>

    ghost predicate Valid()
      reads this
    {
      ValidNotes(notes)
    }

    constructor ()
      ensures Valid() && notes == []
    {
      notes := [];
    }

    /** `getAll`: every note, with `count` its number. */
    method GetAll(fault: Option<Error>) returns (r: Outcome<Reply<Note>>)
      ensures fault.Some? ==> r == NextError(fault.value)
      ensures fault.None? ==> r.Respond? && r.status == 200 && r.body.Listing? && r.body.items == notes
      ensures r.Respond? ==> r.body.Success() && r.body.count == |r.body.items|
    {
      if fault.Some? {
        return NextError(fault.value);
      }
      var items := notes;
      return Respond(200, Listing(|items|, items));
    }

    /** `getOne`: the note under `id`, or 404. */
    method GetOne(id: Id, fault: Option<Error>) returns (r: Outcome<Reply<Note>>)
      ensures fault.Some? ==> r == NextError(fault.value)
      ensures fault.None? && !HasId(notes, id) ==> r == Respond(404, NotFound(NotFoundMessage))
      ensures fault.None? && HasId(notes, id) ==>
        r.Respond? && r.status == 200 && r.body.Found? && r.body.data.id == id && r.body.data in notes
        && r == Respond(200, Found(FindById(notes, id).value))
      ensures r.Respond? ==> (r.body.Success() <==> r.status == 200)
    {
      if fault.Some? {
        return NextError(fault.value);
      }
      var doc := FindById(notes, id);
      if doc.None? {
        return Respond(404, NotFound(NotFoundMessage));
      }
      return Respond(200, Found(doc.value));
    }

    /** `create`: build the note from the body with the schema defaults,
        save it, answer 201 with its id and the saved document. */
    method Create(body: Body, newId: Id, now: Time, parseDate: string -> Option<Time>, fault: Option<Error>)
      returns (r: Outcome<Reply<Note>>)
      requires Valid()
      modifies this
      ensures Valid()
      ensures NewNote(body, now, parseDate).Err? ==> r == NextError(ValidationError(Model)) && notes == old(notes)
      ensures NewNote(body, now, parseDate).Ok? && fault.Some? ==> r == NextError(fault.value) && notes == old(notes)
      ensures NewNote(body, now, parseDate).Ok? && fault.None? && HasId(old(notes), newId) ==>
        r == NextError(DuplicateKey) && notes == old(notes)
      ensures NewNote(body, now, parseDate).Ok? && fault.None? && !HasId(old(notes), newId) ==>
        && r == Respond(201, Created(newId, Stored(newId, NewNote(body, now, parseDate).value)))
        && notes == old(notes) + [Stored(newId, NewNote(body, now, parseDate).value)]
    {
      var n := NewNote(body, now, parseDate);
      if n.Err? {
        return NextError(n.error);
      }
      if fault.Some? {
        return NextError(fault.value);
      }
      if HasId(notes, newId) {
        return NextError(DuplicateKey);
      }
      var saved := Stored(newId, n.value);
      AppendKeepsValid(notes, saved);
      notes := notes + [saved];
      return Respond(201, Created(saved.id, saved));
    }

    /** `update`: stamp `req.body.updatedAt` with the current time, then
        `findByIdAndUpdate` with validators; 404 when no note has `id`. */
    method Update(id: Id, body: Body, now: Time, parseDate: string -> Option<Time>, fault: Option<Error>)
      returns (r: Outcome<Reply<Note>>)
      requires Valid()
      modifies this
      ensures Valid()
      ensures NoteUpdate(Stamp(body, now), parseDate).Err? ==> r == NextError(ValidationError(Model)) && notes == old(notes)
      ensures NoteUpdate(Stamp(body, now), parseDate).Ok? && fault.Some? ==> r == NextError(fault.value) && notes == old(notes)
      ensures NoteUpdate(Stamp(body, now), parseDate).Ok? && fault.None? && !HasId(old(notes), id) ==>
        r == Respond(404, NotFound(NotFoundMessage)) && notes == old(notes)
      ensures NoteUpdate(Stamp(body, now), parseDate).Ok? && fault.None? && HasId(old(notes), id) ==>
        var doc := ApplyPatch(FindById(old(notes), id).value.doc, NoteUpdate(Stamp(body, now), parseDate).value);
        && r == Respond(200, Found(Stored(id, doc)))
        && notes == ReplaceById(old(notes), id, doc)
        && doc.updatedAt == now
    {
      var stamped := Stamp(body, now);
      var patch := NoteUpdate(stamped, parseDate);
      if patch.Err? {
        return NextError(patch.error);
      }
      if fault.Some? {
        return NextError(fault.value);
      }
      var current := FindById(notes, id);
      if current.None? {
        return Respond(404, NotFound(NotFoundMessage));
      }
      assert DateField(stamped, "updatedAt", parseDate) == Given(now);
      var updated := ApplyPatch(current.value.doc, patch.value);
      ReplaceKeepsValid(notes, id, updated);
      notes := ReplaceById(notes, id, updated);
      return Respond(200, Found(Stored(id, updated)));
    }

    /** `remove`: `findByIdAndDelete`; 404 when no note has `id`. */
    method Remove(id: Id, fault: Option<Error>) returns (r: Outcome<Reply<Note>>)
      requires Valid()
      modifies this
      ensures Valid()
      ensures fault.Some? ==> r == NextError(fault.value) && notes == old(notes)
      ensures fault.None? && !HasId(old(notes), id) ==>
        r == Respond(404, NotFound(NotFoundMessage)) && notes == old(notes)
      ensures fault.None? && HasId(old(notes), id) ==>
        && r == Respond(200, Deleted("Deleted"))
        && notes == RemoveById(old(notes), id)
        && |notes| == |old(notes)| - 1
        && !HasId(notes, id)
    {
      if fault.Some? {
        return NextError(fault.value);
      }
      if !HasId(notes, id) {
        return Respond(404, NotFound(NotFoundMessage));
      }
      RemoveKeepsValid(notes, id);
      RemoveCount(notes, id);
      RemoveExcludes(notes, id);
      notes := RemoveById(notes, id);
      return Respond(200, Deleted("Deleted"));
    }
  }
}
