/**
 * The Google login callback and the session hooks (config/passport.js).
 * The users collection is a field of `UserStore`; `findOne`, `create` and
 * `findById` act on it in natural order. The id a new user receives, the
 * clock and any failure of the store are parameters.
 */
module Passport {
  import opened Wrappers
  import opened Http
  import opened Store
  import opened UserModel

  const Provider: string := "google"

  /** An entry of `profile.emails`; its `value` may be missing. */
  datatype EmailEntry = EmailEntry(value: Option<string>)

  /** The Google profile the strategy hands to the callback. */
  datatype Profile = Profile(id: string, displayName: string, emails: Option<seq<EmailEntry>>)

  /** `done(err, user)`: an error and no user, or no error and the user (or
      `null`, which only deserialization produces). */
  datatype Done = Done(err: Option<Error>, user: Option<Stored<User>>)

  /** `(profile.emails && profile.emails[0]?.value) || ''`. */
  function PrimaryEmail(p: Profile): (e: string)
    ensures e != "" <==>
      p.emails.Some? && |p.emails.value| > 0 && Truthy(p.emails.value[0].value)
    ensures e != "" ==> e == p.emails.value[0].value.value
  {
    if p.emails.Some? && |p.emails.value| > 0 && Truthy(p.emails.value[0].value)
    then p.emails.value[0].value.value
    else ""
  }

  predicate Matches(u: Stored<User>, provider: string, providerId: string)
  {
    u.doc.provider == provider && u.doc.providerId == providerId
  }

  /** `User.findOne({provider, providerId})`: the first user in natural order
      with that identity, or `null` when there is none. */
  function FindOne(users: seq<Stored<User>>, provider: string, providerId: string): (r: Option<Stored<User>>)
    ensures r.Some? ==> r.value in users && Matches(r.value, provider, providerId)
    ensures r.None? <==> forall k :: 0 <= k < |users| ==> !Matches(users[k], provider, providerId)
    ensures forall k :: 0 <= k < |users| && Matches(users[k], provider, providerId) ==>
      (forall j :: 0 <= j < k ==> !Matches(users[j], provider, providerId)) ==> r == Some(users[k])
  {
    if users == [] then None
    else if Matches(users[0], provider, providerId) then Some(users[0])
    else
      var r := FindOne(users[1..], provider, providerId);
      assert forall k :: 1 <= k < |users| ==> users[k] == users[1..][k - 1];
      r
  }

  /** At most one user per (provider, providerId). The schema declares no
      such index; only the lookup before `create` maintains it. */
  predicate IdentitiesUnique(users: seq<Stored<User>>)
  {
    forall i, j :: 0 <= i < j < |users| ==>
      !(users[i].doc.provider == users[j].doc.provider && users[i].doc.providerId == users[j].doc.providerId)
  }

  predicate ValidUsers(users: seq<Stored<User>>)
  {
    IdsUnique(users) && IdentitiesUnique(users)
  }

  /** The document `User.create` receives for a first login. */
  function GoogleUser(p: Profile, now: Time): (u: User)
    ensures u.provider == Provider && u.providerId == p.id
    ensures u.displayName == p.displayName && u.email == PrimaryEmail(p)
    ensures u.role == "user" && u.createdAt == now
  {
    UserModel.Create(UserFields(Provider, p.id, p.displayName, PrimaryEmail(p), None, None), now)
  }

  /** Find-or-create without store failures: the users afterwards and what
      is passed to `done`. */
  function Resolve(users: seq<Stored<User>>, p: Profile, newId: Id, now: Time): (seq<Stored<User>>, Done)
  {
    match FindOne(users, Provider, p.id)
    case Some(u) => (users, Done(None, Some(u)))
    case None =>
      if HasId(users, newId) then (users, Done(Some(DuplicateKey), None))
      else
        var u := Stored(newId, GoogleUser(p, now));
        (users + [u], Done(None, Some(u)))
  }

  /** An existing Google identity is returned as it is and nothing is
      written. */
  lemma ResolveExisting(users: seq<Stored<User>>, p: Profile, newId: Id, now: Time)
    requires FindOne(users, Provider, p.id).Some?
    ensures Resolve(users, p, newId, now) == (users, Done(None, FindOne(users, Provider, p.id)))
  {
  }

  /** A first login creates exactly one user, appended to the store: a Google
      user with the profile's id and display name, the fallback email and
      the role "user". */
  lemma ResolveCreates(users: seq<Stored<User>>, p: Profile, newId: Id, now: Time)
    requires ValidUsers(users)
    requires forall k :: 0 <= k < |users| ==> !Matches(users[k], Provider, p.id)
    requires !HasId(users, newId)
    ensures var (after, d) := Resolve(users, p, newId, now);
      && d.err.None? && d.user.Some?
      && after == users + [d.user.value]
      && d.user.value.id == newId
      && d.user.value.doc == User(Provider, p.id, p.displayName, PrimaryEmail(p), "user", now)
      && ValidUsers(after)
  {
    var u := Stored(newId, GoogleUser(p, now));
    AppendFresh(users, newId, GoogleUser(p, now));
    var after := users + [u];
    forall i, j | 0 <= i < j < |after|
      ensures !(after[i].doc.provider == after[j].doc.provider && after[i].doc.providerId == after[j].doc.providerId)
    {
      if j == |users| {
        assert after[i] == users[i];
        assert !Matches(users[i], Provider, p.id);
      } else {
        assert after[i] == users[i] && after[j] == users[j];
      }
    }
  }

  /** Find-or-create keeps both uniqueness invariants. */
  lemma ResolveKeepsValid(users: seq<Stored<User>>, p: Profile, newId: Id, now: Time)
    requires ValidUsers(users)
    ensures ValidUsers(Resolve(users, p, newId, now).0)
  {
    if FindOne(users, Provider, p.id).None? && !HasId(users, newId) {
      ResolveCreates(users, p, newId, now);
    }
  }

  /** Idempotence: after a successful login, a second login with the same
      Google id (whatever id the store would assign and whatever the time)
      returns the same user and writes nothing. */
  lemma ResolveIdempotent(users: seq<Stored<User>>, p: Profile, id1: Id, t1: Time, id2: Id, t2: Time)
    requires ValidUsers(users)
    requires Resolve(users, p, id1, t1).1.user.Some?
    ensures var (after, d1) := Resolve(users, p, id1, t1);
      Resolve(after, p, id2, t2) == (after, d1)
  {
    var (after, d1) := Resolve(users, p, id1, t1);
    ResolveKeepsValid(users, p, id1, t1);
    var u := d1.user.value;
    assert u in after && Matches(u, Provider, p.id);
    var found := FindOne(after, Provider, p.id);
    assert found.Some?;
    assert found.value == u by {
      var i :| 0 <= i < |after| && after[i] == found.value;
      var j :| 0 <= j < |after| && after[j] == u;
      if i < j {
        assert false;
      } else if j < i {
        assert false;
      }
    }
  }

  /** `serializeUser`: a user is remembered by its id. */
  function SerializeUser(u: Stored<User>): (id: Id)
    ensures id == u.id
  {
    u.id
  }

  /** Deserializing a serialized user of the store gives that user back. */
  lemma DeserializeSerialized(users: seq<Stored<User>>, u: Stored<User>)
    requires IdsUnique(users) && u in users
    ensures FindById(users, SerializeUser(u)) == Some(u)
  {
    FindStored(users, u);
  }

  class UserStore {
    /** The `users` collection in natural order. */
    var users: seq<Stored<User>>

    ghost predicate Valid()
      reads this
    {
      ValidUsers(users)
    }

    constructor ()
      ensures Valid() && users == []
    {
      users := [];
    }

    /** The strategy's verify callback. `findFault` and `createFault` are
        what `User.findOne` and `User.create` throw, if anything. */
    method VerifyCallback(p: Profile, newId: Id, now: Time, findFault: Option<Error>, createFault: Option<Error>)
      returns (d: Done)
      requires Valid()
      modifies this
      ensures Valid()
      ensures findFault.Some? ==> d == Done(findFault, None) && users == old(users)
      ensures findFault.None? && FindOne(old(users), Provider, p.id).Some? ==>
        (users, d) == Resolve(old(users), p, newId, now)
      ensures findFault.None? && FindOne(old(users), Provider, p.id).None? && createFault.Some? ==>
        d == Done(createFault, None) && users == old(users)
      ensures findFault.None? && createFault.None? ==> (users, d) == Resolve(old(users), p, newId, now)
      ensures d.err.Some? <==> d.user.None?
    {
      if findFault.Some? {
        return Done(findFault, None);
      }
      var user := FindOne(users, Provider, p.id);
      if user.None? {
        if createFault.Some? {
          return Done(createFault, None);
        }
        if HasId(users, newId) {
          return Done(Some(DuplicateKey), None);
        }
        var created := Stored(newId, GoogleUser(p, now));
        ResolveCreates(users, p, newId, now);
        users := users + [created];
        user := Some(created);
      }
      return Done(None, user);
    }

    /** `deserializeUser`: the user stored under `id`, `null` when there is
        none, or the error `User.findById` throws. */
    method DeserializeUser(id: Id, fault: Option<Error>) returns (d: Done)
      ensures fault.Some? ==> d == Done(fault, None)
      ensures fault.None? ==> d.err.None? && d.user == FindById(users, id)
      ensures d.user.Some? ==> d.user.value in users && d.user.value.id == id
    {
      if fault.Some? {
        return Done(fault, None);
      }
      var u := FindById(users, id);
      return Done(None, u);
    }
  }
}
