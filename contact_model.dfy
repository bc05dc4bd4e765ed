/**
 * The Contact schema (models/contact.js): five required fields, the four
 * strings trimmed and the email lower-cased, with `createdAt`/`updatedAt`
 * maintained by the `timestamps` option.
 */
module ContactModel {
  import opened Wrappers
  import opened Http
  import opened Text
  import opened Schema

  datatype Contact = Contact(
    firstName: string,
    lastName: string,
    email: string,
    favoriteColor: string,
    birthday: Time,
    createdAt: Time,
    updatedAt: Time)

  /** The fields an update may set; a missing one is left as it is. */
  datatype ContactPatch = ContactPatch(
    firstName: Change<string>,
    lastName: Change<string>,
    email: Change<string>,
    favoriteColor: Change<string>,
    birthday: Change<Time>,
    updatedAt: Change<Time>)

  const Model: string := "Contact"

  /** A string the setters would leave alone: no white space at either end
      and, for a lower-cased path, no upper-case letter. */
  predicate Clean(s: string, lower: bool)
  {
    && (s == [] || (!IsWhiteSpace(s[0]) && !IsWhiteSpace(s[|s| - 1])))
    && (lower ==> forall i :: 0 <= i < |s| ==> !IsUpper(s[i]))
  }

  /** A string as the schema stores it: `s.trim()`, then lower-cased when
      `lower`. */
  function Normalize(s: string, lower: bool): (r: string)
    ensures r == (if lower then ToLower(Trim(s)) else Trim(s))
    ensures Clean(r, lower)
  {
    var t := Trim(s);
    if lower then
      var l := ToLower(t);
      assert l != [] ==> l[0] == LowerChar(t[0]) && l[|l| - 1] == LowerChar(t[|t| - 1]);
      l
    else t
  }

  /** The setters leave a clean string unchanged. */
  lemma NormalizeFixed(s: string, lower: bool)
    requires Clean(s, lower)
    ensures Normalize(s, lower) == s
  {
    if s != [] {
      assert Leading(s) == 0 && Trailing(s) == 0;
      assert s[0..|s|] == s;
    }
    if lower {
      assert ToLower(s) == s;
    }
  }

  /** Normalising a stored value again changes nothing. */
  lemma NormalizeIdempotent(s: string, lower: bool)
    ensures Normalize(Normalize(s, lower), lower) == Normalize(s, lower)
  {
    NormalizeFixed(Normalize(s, lower), lower);
  }

  predicate NormalText(s: string, lower: bool)
  {
    s != "" && Clean(s, lower)
  }

  /** What every saved contact satisfies. */
  predicate WellFormed(c: Contact)
  {
    NormalText(c.firstName, false) && NormalText(c.lastName, false)
    && NormalText(c.email, true) && NormalText(c.favoriteColor, false)
  }

  /** A required string path being set to `v`: cast, normalised, and
      rejected when nothing is left. */
  function RequiredText(v: Value, lower: bool): (r: Option<string>)
    ensures r.Some? <==> v.Str? && Normalize(v.s, lower) != ""
    ensures r.Some? ==> r.value == Normalize(v.s, lower) && NormalText(r.value, lower)
  {
    match CastString(v)
    case None => None
    case Some(s) =>
      var t := Normalize(s, lower);
      if t == "" then None else Some(t)
  }

  /** The creation time the `timestamps` option records: a `createdAt` the
      body gives is cast and kept, otherwise it is `now`; `None` when the
      given value does not cast. */
  function CreationTime(body: Body, now: Time, parseDate: string -> Option<Time>): (r: Option<Time>)
    ensures GivenDate(body, "createdAt").None? ==> r == Some(now)
    ensures GivenDate(body, "createdAt").Some? ==> r == CastDate(body["createdAt"], parseDate)
  {
    match GivenDate(body, "createdAt")
    case None => Some(now)
    case Some(v) => CastDate(v, parseDate)
  }

  /** `new Contact(body).save()` up to the store write: every field is
      required, so an unset field fails just like a blank one. A given
      `createdAt` or `updatedAt` must cast; the first is kept and the
      second is then overwritten with the creation time. */
  function NewContact(body: Body, now: Time, parseDate: string -> Option<Time>): (r: Result<Contact, Error>)
    ensures r.Ok? ==> WellFormed(r.value)
    ensures r.Err? ==> r.error == ValidationError(Model)
    ensures r.Ok? <==>
      && "firstName" in body && RequiredText(body["firstName"], false).Some?
      && "lastName" in body && RequiredText(body["lastName"], false).Some?
      && "email" in body && RequiredText(body["email"], true).Some?
      && "favoriteColor" in body && RequiredText(body["favoriteColor"], false).Some?
      && "birthday" in body && CastDate(body["birthday"], parseDate).Some?
      && CreationTime(body, now, parseDate).Some?
      && (GivenDate(body, "updatedAt").Some? ==> CastDate(body["updatedAt"], parseDate).Some?)
    ensures r.Ok? ==>
      && r.value.firstName == Normalize(body["firstName"].s, false)
      && r.value.lastName == Normalize(body["lastName"].s, false)
      && r.value.email == Normalize(body["email"].s, true)
      && r.value.favoriteColor == Normalize(body["favoriteColor"].s, false)
      && CastDate(body["birthday"], parseDate) == Some(r.value.birthday)
    ensures r.Ok? ==> Some(r.value.createdAt) == CreationTime(body, now, parseDate) && r.value.updatedAt == r.value.createdAt
    ensures r.Ok? && GivenDate(body, "createdAt").None? ==> r.value.createdAt == now && r.value.updatedAt == now
  {
    var first := if "firstName" in body then RequiredText(body["firstName"], false) else None;
    var last := if "lastName" in body then RequiredText(body["lastName"], false) else None;
    var email := if "email" in body then RequiredText(body["email"], true) else None;
    var color := if "favoriteColor" in body then RequiredText(body["favoriteColor"], false) else None;
    var birthday := if "birthday" in body then CastDate(body["birthday"], parseDate) else None;
    var created := CreationTime(body, now, parseDate);
    var updatedCasts := GivenDate(body, "updatedAt").None? || CastDate(body["updatedAt"], parseDate).Some?;
    if first.Some? && last.Some? && email.Some? && color.Some? && birthday.Some? && created.Some? && updatedCasts then
      Ok(Contact(first.value, last.value, email.value, color.value, birthday.value, created.value, created.value))
    else Err(ValidationError(Model))
  }

  /** What an update body does to one path: leave it, set it, or fail. */
  datatype Change<+T> = Keep | Set(value: T) | Reject {
    function Or(current: T): T
    {
      if Set? then value else current
    }
  }

  /** A required string path in an update: unset paths are kept; a set path
      must still cast and, being required, must not be blank or null. */
  function TextChange(body: Body, path: string, lower: bool): (ch: Change<string>)
    ensures ch.Keep? <==> path !in body
    ensures ch.Set? ==> path in body && body[path].Str? && ch.value == Normalize(body[path].s, lower)
    ensures ch.Set? ==> NormalText(ch.value, lower)
    ensures ch.Reject? <==> path in body && !(body[path].Str? && Normalize(body[path].s, lower) != "")
  {
    if path !in body then Keep
    else
      match RequiredText(body[path], lower)
      case Some(t) => Set(t)
      case None => Reject
  }

  /** A required date path in an update: unset paths are kept; a set path
      must cast (`null` and `''` fail the required validator). */
  function DateChange(body: Body, path: string, parseDate: string -> Option<Time>): (ch: Change<Time>)
    ensures ch.Keep? <==> path !in body
    ensures ch.Set? ==> path in body && CastDate(body[path], parseDate) == Some(ch.value)
    ensures ch.Reject? <==> path in body && CastDate(body[path], parseDate).None?
  {
    if path !in body then Keep
    else
      match CastDate(body[path], parseDate)
      case Some(t) => Set(t)
      case None => Reject
  }

  predicate PatchNormal(p: ContactPatch)
  {
    && (p.firstName.Set? ==> NormalText(p.firstName.value, false))
    && (p.lastName.Set? ==> NormalText(p.lastName.value, false))
    && (p.email.Set? ==> NormalText(p.email.value, true))
    && (p.favoriteColor.Set? ==> NormalText(p.favoriteColor.value, false))
  }

  /** The body of `findByIdAndUpdate(id, body, {runValidators: true})` cast
      as an update; any rejected path fails the whole update. */
  function ContactUpdate(body: Body, parseDate: string -> Option<Time>): (r: Result<ContactPatch, Error>)
    ensures r.Ok? <==>
      && ("firstName" in body ==> RequiredText(body["firstName"], false).Some?)
      && ("lastName" in body ==> RequiredText(body["lastName"], false).Some?)
      && ("email" in body ==> RequiredText(body["email"], true).Some?)
      && ("favoriteColor" in body ==> RequiredText(body["favoriteColor"], false).Some?)
      && ("birthday" in body ==> CastDate(body["birthday"], parseDate).Some?)
      && ("updatedAt" in body ==> CastDate(body["updatedAt"], parseDate).Some?)
    ensures r.Ok? ==> PatchNormal(r.value)
    ensures r.Ok? ==>
      && r.value.firstName == TextChange(body, "firstName", false)
      && r.value.lastName == TextChange(body, "lastName", false)
      && r.value.email == TextChange(body, "email", true)
      && r.value.favoriteColor == TextChange(body, "favoriteColor", false)
      && r.value.birthday == DateChange(body, "birthday", parseDate)
      && r.value.updatedAt == DateChange(body, "updatedAt", parseDate)
    ensures r.Ok? && "updatedAt" in body && body["updatedAt"].DateVal? ==> r.value.updatedAt == Set(body["updatedAt"].t)
    ensures r.Err? ==> r.error == ValidationError(Model)
  {
    var p := ContactPatch(
      TextChange(body, "firstName", false),
      TextChange(body, "lastName", false),
      TextChange(body, "email", true),
      TextChange(body, "favoriteColor", false),
      DateChange(body, "birthday", parseDate),
      DateChange(body, "updatedAt", parseDate));
    if p.firstName.Reject? || p.lastName.Reject? || p.email.Reject? || p.favoriteColor.Reject?
      || p.birthday.Reject? || p.updatedAt.Reject?
    then Err(ValidationError(Model))
    else Ok(p)
  }

  /** The updated document: set paths replaced, `createdAt` kept, and
      `updatedAt` the value set or else `now` from the timestamps option. */
  function ApplyPatch(c: Contact, p: ContactPatch, now: Time): (r: Contact)
    ensures r.createdAt == c.createdAt
    ensures r.updatedAt == (if p.updatedAt.Set? then p.updatedAt.value else now)
    ensures r.firstName == (if p.firstName.Set? then p.firstName.value else c.firstName)
    ensures r.lastName == (if p.lastName.Set? then p.lastName.value else c.lastName)
    ensures r.email == (if p.email.Set? then p.email.value else c.email)
    ensures r.favoriteColor == (if p.favoriteColor.Set? then p.favoriteColor.value else c.favoriteColor)
    ensures r.birthday == (if p.birthday.Set? then p.birthday.value else c.birthday)
    ensures PatchNormal(p) && WellFormed(c) ==> WellFormed(r)
  {
    Contact(p.firstName.Or(c.firstName), p.lastName.Or(c.lastName), p.email.Or(c.email),
      p.favoriteColor.Or(c.favoriteColor), p.birthday.Or(c.birthday), c.createdAt, p.updatedAt.Or(now))
  }

  /** The stored text fields of a contact, as a request body. */
  function TextBody(c: Contact): Body
  {
    map["firstName" := Str(c.firstName), "lastName" := Str(c.lastName),
        "email" := Str(c.email), "favoriteColor" := Str(c.favoriteColor)]
  }

  /** A normalised value set again is set to itself. */
  lemma SetAgain(b: Body, path: string, lower: bool, x: string)
    requires path in b && b[path] == Str(x) && NormalText(x, lower)
    ensures TextChange(b, path, lower) == Set(x)
  {
    NormalizeFixed(x, lower);
  }

  /** Each text path of a saved contact's own body is set to itself. */
  lemma TextBodySets(c: Contact)
    requires WellFormed(c)
    ensures "birthday" !in TextBody(c) && "updatedAt" !in TextBody(c)
    ensures TextChange(TextBody(c), "firstName", false) == Set(c.firstName)
    ensures TextChange(TextBody(c), "lastName", false) == Set(c.lastName)
    ensures TextChange(TextBody(c), "email", true) == Set(c.email)
    ensures TextChange(TextBody(c), "favoriteColor", false) == Set(c.favoriteColor)
  {
    var b := TextBody(c);
    SetAgain(b, "firstName", false, c.firstName);
    SetAgain(b, "lastName", false, c.lastName);
    SetAgain(b, "email", true, c.email);
    SetAgain(b, "favoriteColor", false, c.favoriteColor);
  }

  /** Normalisation is stable: sending a saved contact's own strings back as
      an update changes nothing but `updatedAt`. */
  lemma ResubmitIsStable(c: Contact, parseDate: string -> Option<Time>, now: Time)
    requires WellFormed(c)
    ensures ContactUpdate(TextBody(c), parseDate).Ok?
    ensures ApplyPatch(c, ContactUpdate(TextBody(c), parseDate).value, now) == c.(updatedAt := now)
  {
    TextBodySets(c);
    var p := ContactPatch(Set(c.firstName), Set(c.lastName), Set(c.email), Set(c.favoriteColor), Keep, Keep);
    UpdateOfTexts(TextBody(c), parseDate, p);
  }

  /** An update body holding only accepted text paths sets exactly those. */
  lemma UpdateOfTexts(b: Body, parseDate: string -> Option<Time>, p: ContactPatch)
    requires "birthday" !in b && "updatedAt" !in b
    requires TextChange(b, "firstName", false) == p.firstName && !p.firstName.Reject?
    requires TextChange(b, "lastName", false) == p.lastName && !p.lastName.Reject?
    requires TextChange(b, "email", true) == p.email && !p.email.Reject?
    requires TextChange(b, "favoriteColor", false) == p.favoriteColor && !p.favoriteColor.Reject?
    requires p.birthday == Keep && p.updatedAt == Keep
    ensures ContactUpdate(b, parseDate) == Ok(p)
  {
  }
}
