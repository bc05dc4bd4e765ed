/**
 * The Contact handlers (controllers/contacts.js) as methods over the
 * `contacts` collection. The store's own failure for a call is the
 * parameter `fault`; the handler then passes it to `next(err)` and writes
 * nothing. The clock, the id `save()` assigns and date parsing are
 * parameters too.
 */
module ContactsController {
  import opened Wrappers
  import opened Http
  import opened Store
  import opened Crud
  import opened Schema
  import opened ContactModel

  const NotFoundMessage: string := "Contact not found"

  /** Ids are unique and every saved contact is normalised. */
  ghost predicate ValidContacts(s: seq<Stored<Contact>>)
  {
    IdsUnique(s) && forall k :: 0 <= k < |s| ==> WellFormed(s[k].doc)
  }

  lemma AppendKeepsValid(s: seq<Stored<Contact>>, x: Stored<Contact>)
    requires ValidContacts(s) && WellFormed(x.doc) && !HasId(s, x.id)
    ensures ValidContacts(s + [x])
  {
    AppendFresh(s, x.id, x.doc);
    assert x == Stored(x.id, x.doc);
    forall k | 0 <= k < |s| + 1 ensures WellFormed((s + [x])[k].doc) {
      if k < |s| {
        assert (s + [x])[k] == s[k];
      }
    }
  }

  lemma ReplaceKeepsValid(s: seq<Stored<Contact>>, id: Id, c: Contact)
    requires ValidContacts(s) && WellFormed(c) && HasId(s, id)
    ensures ValidContacts(ReplaceById(s, id, c))
  {
    ReplaceFinds(s, id, c);
  }

  lemma RemoveKeepsValid(s: seq<Stored<Contact>>, id: Id)
    requires ValidContacts(s)
    ensures ValidContacts(RemoveById(s, id))
  {
    RemoveKeepsUnique(s, id);
    var r := RemoveById(s, id);
    forall k | 0 <= k < |r| ensures WellFormed(r[k].doc) {
      assert r[k] in s;
    }
  }

  /** `req.body.updatedAt = new Date()`, which `update` does first. */
  function Stamp(body: Body, now: Time): Body
  {
    body["updatedAt" := DateVal(now)]
  }

  class Contacts {
    /** The `contacts` collection in natural order. */
    var contacts: seq<Stored<Contact>>

    ghost predicate Valid()
      reads this
    {
      ValidContacts(contacts)
    }

    constructor ()
      ensures Valid() && contacts == []
    {
      contacts := [];
    }

    /** `getAll`: every contact, with `count` its number. */
    method GetAll(fault: Option<Error>) returns (r: Outcome<Reply<Contact>>)
      ensures fault.Some? ==> r == NextError(fault.value)
      ensures fault.None? ==> r.Respond? && r.status == 200 && r.body.Listing? && r.body.items == contacts
      ensures r.Respond? ==> r.body.Success() && r.body.count == |r.body.items|
    {
      if fault.Some? {
        return NextError(fault.value);
      }
      var items := contacts;
      return Respond(200, Listing(|items|, items));
    }

    /** `getOne`: the contact under `id`, or 404. */
    method GetOne(id: Id, fault: Option<Error>) returns (r: Outcome<Reply<Contact>>)
      ensures fault.Some? ==> r == NextError(fault.value)
      ensures fault.None? && !HasId(contacts, id) ==> r == Respond(404, NotFound(NotFoundMessage))
      ensures fault.None? && HasId(contacts, id) ==>
        r.Respond? && r.status == 200 && r.body.Found? && r.body.data.id == id && r.body.data in contacts
        && r == Respond(200, Found(FindById(contacts, id).value))
      ensures r.Respond? ==> (r.body.Success() <==> r.status == 200)
    {
      if fault.Some? {
        return NextError(fault.value);
      }
      var item := FindById(contacts, id);
      if item.None? {
        return Respond(404, NotFound(NotFoundMessage));
      }
      return Respond(200, Found(item.value));
    }

    /** `create`: build the document from the body, save it, answer 201 with
        its id and the saved document. */
    method Create(body: Body, newId: Id, now: Time, parseDate: string -> Option<Time>, fault: Option<Error>)
      returns (r: Outcome<Reply<Contact>>)
      requires Valid()
      modifies this
      ensures Valid()
      ensures NewContact(body, now, parseDate).Err? ==> r == NextError(ValidationError(Model)) && contacts == old(contacts)
      ensures NewContact(body, now, parseDate).Ok? && fault.Some? ==> r == NextError(fault.value) && contacts == old(contacts)
      ensures NewContact(body, now, parseDate).Ok? && fault.None? && HasId(old(contacts), newId) ==>
        r == NextError(DuplicateKey) && contacts == old(contacts)
      ensures NewContact(body, now, parseDate).Ok? && fault.None? && !HasId(old(contacts), newId) ==>
        && r == Respond(201, Created(newId, Stored(newId, NewContact(body, now, parseDate).value)))
        && contacts == old(contacts) + [Stored(newId, NewContact(body, now, parseDate).value)]
    {
      var c := NewContact(body, now, parseDate);
      if c.Err? {
        return NextError(c.error);
      }
      if fault.Some? {
        return NextError(fault.value);
      }
      if HasId(contacts, newId) {
        return NextError(DuplicateKey);
      }
      var saved := Stored(newId, c.value);
      AppendKeepsValid(contacts, saved);
      contacts := contacts + [saved];
      return Respond(201, Created(saved.id, saved));
    }

    /** `update`: stamp `req.body.updatedAt` with the current time, then
        `findByIdAndUpdate` with validators; 404 when no contact has `id`. */
    method Update(id: Id, body: Body, now: Time, parseDate: string -> Option<Time>, fault: Option<Error>)
      returns (r: Outcome<Reply<Contact>>)
      requires Valid()
      modifies this
      ensures Valid()
      ensures ContactUpdate(Stamp(body, now), parseDate).Err? ==> r == NextError(ValidationError(Model)) && contacts == old(contacts)
      ensures ContactUpdate(Stamp(body, now), parseDate).Ok? && fault.Some? ==> r == NextError(fault.value) && contacts == old(contacts)
      ensures ContactUpdate(Stamp(body, now), parseDate).Ok? && fault.None? && !HasId(old(contacts), id) ==>
        r == Respond(404, NotFound(NotFoundMessage)) && contacts == old(contacts)
      ensures ContactUpdate(Stamp(body, now), parseDate).Ok? && fault.None? && HasId(old(contacts), id) ==>
        var doc := ApplyPatch(FindById(old(contacts), id).value.doc, ContactUpdate(Stamp(body, now), parseDate).value, now);
        && r == Respond(200, Found(Stored(id, doc)))
        && contacts == ReplaceById(old(contacts), id, doc)
        && doc.updatedAt == now
    {
      var stamped := Stamp(body, now);
      var patch := ContactUpdate(stamped, parseDate);
      if patch.Err? {
        return NextError(patch.error);
      }
      if fault.Some? {
        return NextError(fault.value);
      }
      var current := FindById(contacts, id);
      if current.None? {
        return Respond(404, NotFound(NotFoundMessage));
      }
      var updated := ApplyPatch(current.value.doc, patch.value, now);
      ReplaceKeepsValid(contacts, id, updated);
      contacts := ReplaceById(contacts, id, updated);
      return Respond(200, Found(Stored(id, updated)));
    }

    /** `remove`: `findByIdAndDelete`; 404 when no contact has `id`. */
    method Remove(id: Id, fault: Option<Error>) returns (r: Outcome<Reply<Contact>>)
      requires Valid()
      modifies this
      ensures Valid()
      ensures fault.Some? ==> r == NextError(fault.value) && contacts == old(contacts)
      ensures fault.None? && !HasId(old(contacts), id) ==>
        r == Respond(404, NotFound(NotFoundMessage)) && contacts == old(contacts)
      ensures fault.None? && HasId(old(contacts), id) ==>
        && r == Respond(200, Deleted("Deleted"))
        && contacts == RemoveById(old(contacts), id)
        && |contacts| == |old(contacts)| - 1
        && !HasId(contacts, id)
    {
      if fault.Some? {
        return NextError(fault.value);
      }
      if !HasId(contacts, id) {
        return Respond(404, NotFound(NotFoundMessage));
      }
      RemoveKeepsValid(contacts, id);
      RemoveCount(contacts, id);
      RemoveExcludes(contacts, id);
      contacts := RemoveById(contacts, id);
      return Respond(200, Deleted("Deleted"));
    }
  }
}
