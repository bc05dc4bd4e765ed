/**
 * The Note schema (models/note.js): three required strings, `tags` defaulting
 * to `[]`, `isImportant` to false, both timestamps to the creation time,
 * an optional `dueDate`, and `priority` restricted to low/medium/high with
 * default medium.
 */
module NoteModel {
  import opened Wrappers
  import opened Http
  import opened Schema

  datatype Priority = Low | Medium | High

  datatype Note = Note(
    title: string,
    content: string,
    author: string,
    tags: seq<Option<string>>,
    isImportant: bool,
    createdAt: Time,
    updatedAt: Time,
    dueDate: Option<Time>,
    priority: Priority)

  const Model: string := "Note"
  const DefaultPriority: Priority := Medium

  /** The stored spelling of a priority. */
  function PriorityName(p: Priority): string
  {
    match p
    case Low => "low"
    case Medium => "medium"
    case High => "high"
  }

  /** The enum validator: exactly the three names are accepted. */
  function ParsePriority(s: string): (r: Option<Priority>)
    ensures r.Some? <==> s in ["low", "medium", "high"]
    ensures r.Some? ==> PriorityName(r.value) == s
  {
    if s == "low" then Some(Low)
    else if s == "medium" then Some(Medium)
    else if s == "high" then Some(High)
    else None
  }

  /** Every priority survives being stored and read back. */
  lemma PriorityRoundTrip(p: Priority)
    ensures ParsePriority(PriorityName(p)) == Some(p)
  {
  }

  /** A required string: cast, and rejected when unset, null or empty (no
      trimming on this schema). */
  function RequiredString(body: Body, path: string): (r: Option<string>)
    ensures r.Some? <==> path in body && body[path].Str? && body[path].s != ""
    ensures r.Some? ==> r.value == body[path].s
  {
    if path in body && body[path].Str? && body[path].s != "" then Some(body[path].s) else None
  }

  /** `[String]`: a single string is wrapped; an array is cast element by
      element, where an element that is a string is kept and a `null` element
      stays `null` (`None`). */
  function CastTags(v: Value): (r: Option<seq<Option<string>>>)
    ensures v.Str? ==> r == Some([Some(v.s)])
    ensures v.Arr? ==> r == CastStrings(v.items)
    ensures !(v.Str? || v.Arr?) ==> r.None?
  {
    match v
    case Str(s) => Some([Some(s)])
    case Arr(items) => CastStrings(items)
    case _ => None
  }

  /** The element cast of `[String]`: a string or a `null`. */
  predicate StringOrNull(v: Value)
  {
    v.Str? || v.Null?
  }

  function CastStrings(items: seq<Value>): (r: Option<seq<Option<string>>>)
    ensures r.Some? <==> forall i :: 0 <= i < |items| ==> StringOrNull(items[i])
    ensures r.Some? ==> |r.value| == |items|
    ensures r.Some? ==> forall i :: 0 <= i < |items| ==>
      (if items[i].Null? then r.value[i].None? else r.value[i] == Some(items[i].s))
  {
    if items == [] then Some([])
    else if !StringOrNull(items[0]) then None
    else
      match CastStrings(items[1..])
      case None => None
      case Some(rest) => Some([if items[0].Null? then None else Some(items[0].s)] + rest)
  }

  /** A path with a default: the default when unset or null, else the cast
      value, else failure. */
  datatype Field<+T> = Default | Given(value: T) | Bad

  /** A `Date` path: `''` counts as unset, like `null`. */
  function DateField(body: Body, path: string, parseDate: string -> Option<Time>): (f: Field<Time>)
    ensures f.Default? <==> GivenDate(body, path).None?
    ensures f.Given? ==> CastDate(body[path], parseDate) == Some(f.value)
    ensures f.Bad? <==> GivenDate(body, path).Some? && CastDate(body[path], parseDate).None?
  {
    match GivenDate(body, path)
    case None => Default
    case Some(v) => if CastDate(v, parseDate).Some? then Given(CastDate(v, parseDate).value) else Bad
  }

  function BoolField(body: Body, path: string): (f: Field<bool>)
    ensures f.Default? <==> Schema.Given(body, path).None?
    ensures f.Given? ==> CastBoolean(body[path]) == Some(f.value)
    ensures f.Bad? <==> Schema.Given(body, path).Some? && CastBoolean(body[path]).None?
  {
    match Schema.Given(body, path)
    case None => Default
    case Some(v) => if CastBoolean(v).Some? then Given(CastBoolean(v).value) else Bad
  }

  function TagsField(body: Body, path: string): (f: Field<seq<Option<string>>>)
    ensures f.Default? <==> Schema.Given(body, path).None?
    ensures f.Given? ==> CastTags(body[path]) == Some(f.value)
    ensures f.Bad? <==> Schema.Given(body, path).Some? && CastTags(body[path]).None?
  {
    match Schema.Given(body, path)
    case None => Default
    case Some(v) => if CastTags(v).Some? then Given(CastTags(v).value) else Bad
  }

  function PriorityField(body: Body, path: string): (f: Field<Priority>)
    ensures f.Default? <==> Schema.Given(body, path).None?
    ensures f.Given? ==> body[path].Str? && PriorityName(f.value) == body[path].s
    ensures f.Bad? <==> Schema.Given(body, path).Some? && !(body[path].Str? && body[path].s in ["low", "medium", "high"])
  {
    match Schema.Given(body, path)
    case None => Default
    case Some(v) =>
      if v.Str? && ParsePriority(v.s).Some? then Given(ParsePriority(v.s).value) else Bad
  }

  function Or<T>(f: Field<T>, default: T): T
  {
    if f.Given? then f.value else default
  }

  /** `new Note(body).save()` up to the store write: the required strings
      must be given, every given path must cast (and `priority` be in the
      enum), and an unset path takes its default. */
  function NewNote(body: Body, now: Time, parseDate: string -> Option<Time>): (r: Result<Note, Error>)
    ensures r.Err? ==> r.error == ValidationError(Model)
    ensures r.Ok? <==>
      && RequiredString(body, "title").Some? && RequiredString(body, "content").Some?
      && RequiredString(body, "author").Some?
      && (Schema.Given(body, "tags").Some? ==> CastTags(body["tags"]).Some?)
      && (Schema.Given(body, "isImportant").Some? ==> CastBoolean(body["isImportant"]).Some?)
      && (GivenDate(body, "createdAt").Some? ==> CastDate(body["createdAt"], parseDate).Some?)
      && (GivenDate(body, "updatedAt").Some? ==> CastDate(body["updatedAt"], parseDate).Some?)
      && (GivenDate(body, "dueDate").Some? ==> CastDate(body["dueDate"], parseDate).Some?)
      && (Schema.Given(body, "priority").Some? ==> body["priority"].Str? && body["priority"].s in ["low", "medium", "high"])
    ensures r.Ok? ==> r.value.title != "" && r.value.content != "" && r.value.author != ""
    ensures r.Ok? ==> (RequiredString(body, "title") == Some(r.value.title)
      && RequiredString(body, "content") == Some(r.value.content)
      && RequiredString(body, "author") == Some(r.value.author))
    ensures r.Ok? ==> (if Schema.Given(body, "tags").None? then r.value.tags == []
      else CastTags(body["tags"]) == Some(r.value.tags))
    ensures r.Ok? ==> (if Schema.Given(body, "isImportant").None? then !r.value.isImportant
      else CastBoolean(body["isImportant"]) == Some(r.value.isImportant))
    ensures r.Ok? ==> (if Schema.Given(body, "priority").None? then r.value.priority == Medium
      else PriorityName(r.value.priority) == body["priority"].s)
    ensures r.Ok? ==> (if GivenDate(body, "createdAt").None? then r.value.createdAt == now
      else CastDate(body["createdAt"], parseDate) == Some(r.value.createdAt))
    ensures r.Ok? ==> (if GivenDate(body, "updatedAt").None? then r.value.updatedAt == now
      else CastDate(body["updatedAt"], parseDate) == Some(r.value.updatedAt))
    ensures r.Ok? ==> (if GivenDate(body, "dueDate").None? then r.value.dueDate.None?
      else r.value.dueDate.Some? && CastDate(body["dueDate"], parseDate) == r.value.dueDate)
  {
    var title := RequiredString(body, "title");
    var content := RequiredString(body, "content");
    var author := RequiredString(body, "author");
    var tags := TagsField(body, "tags");
    var important := BoolField(body, "isImportant");
    var created := DateField(body, "createdAt", parseDate);
    var updated := DateField(body, "updatedAt", parseDate);
    var due := DateField(body, "dueDate", parseDate);
    var priority := PriorityField(body, "priority");
    if title.None? || content.None? || author.None? || tags.Bad? || important.Bad?
      || created.Bad? || updated.Bad? || due.Bad? || priority.Bad?
    then Err(ValidationError(Model))
    else
      Ok(Note(title.value, content.value, author.value, Or(tags, []), Or(important, false),
        Or(created, now), Or(updated, now), if due.Given? then Some(due.value) else None,
        Or(priority, DefaultPriority)))
  }

  /** An update body cast against the schema: each set path must cast and
      pass its validators (required strings stay non-empty, the priority
      stays in the enum); unset paths are kept. */
  datatype NotePatch = NotePatch(
    title: Option<string>,
    content: Option<string>,
    author: Option<string>,
    tags: Option<seq<Option<string>>>,
    isImportant: Option<bool>,
    createdAt: Option<Time>,
    updatedAt: Option<Time>,
    dueDate: Option<Time>,
    priority: Option<Priority>)

  function Patched<T>(f: Field<T>): Option<T>
  {
    if f.Given? then Some(f.value) else None
  }

  /** A required string path in an update: kept when unset, rejected when
      set to null, a non-string or `''`. */
  function RequiredChange(body: Body, path: string): (r: Result<Option<string>, Error>)
    ensures r.Ok? && r.value.Some? ==> path in body && body[path].Str? && r.value.value == body[path].s && r.value.value != ""
    ensures r.Ok? && r.value.None? <==> path !in body
    ensures r.Err? <==> path in body && RequiredString(body, path).None?
    ensures r.Err? ==> r.error == ValidationError(Model)
  {
    if path !in body then Ok(None)
    else if RequiredString(body, path).Some? then Ok(RequiredString(body, path))
    else Err(ValidationError(Model))
  }

  /** The body of `findByIdAndUpdate(id, body, {runValidators: true})`:
      every path it sets must cast and pass its validators. */
  function NoteUpdate(body: Body, parseDate: string -> Option<Time>): (r: Result<NotePatch, Error>)
    ensures r.Err? ==> r.error == ValidationError(Model)
    ensures r.Ok? <==>
      && ("title" in body ==> RequiredString(body, "title").Some?)
      && ("content" in body ==> RequiredString(body, "content").Some?)
      && ("author" in body ==> RequiredString(body, "author").Some?)
      && !TagsField(body, "tags").Bad? && !BoolField(body, "isImportant").Bad?
      && !DateField(body, "createdAt", parseDate).Bad? && !DateField(body, "updatedAt", parseDate).Bad?
      && !DateField(body, "dueDate", parseDate).Bad? && !PriorityField(body, "priority").Bad?
    ensures r.Ok? ==>
      && r.value.title == (if "title" in body then Some(body["title"].s) else None)
      && r.value.content == (if "content" in body then Some(body["content"].s) else None)
      && r.value.author == (if "author" in body then Some(body["author"].s) else None)
      && r.value.tags == Patched(TagsField(body, "tags"))
      && r.value.isImportant == Patched(BoolField(body, "isImportant"))
      && r.value.createdAt == Patched(DateField(body, "createdAt", parseDate))
      && r.value.updatedAt == Patched(DateField(body, "updatedAt", parseDate))
      && r.value.dueDate == Patched(DateField(body, "dueDate", parseDate))
      && r.value.priority == Patched(PriorityField(body, "priority"))
    ensures r.Ok? ==> (r.value.title.Some? ==> r.value.title.value != "")
    ensures "title" in body && RequiredString(body, "title").None? ==> r.Err?
    ensures (Schema.Given(body, "priority").Some? && !(body["priority"].Str? && body["priority"].s in ["low", "medium", "high"])) ==> r.Err?
  {
    var title := RequiredChange(body, "title");
    var content := RequiredChange(body, "content");
    var author := RequiredChange(body, "author");
    var tags := TagsField(body, "tags");
    var important := BoolField(body, "isImportant");
    var created := DateField(body, "createdAt", parseDate);
    var updated := DateField(body, "updatedAt", parseDate);
    var due := DateField(body, "dueDate", parseDate);
    var priority := PriorityField(body, "priority");
    if title.Err? || content.Err? || author.Err? || tags.Bad? || important.Bad?
      || created.Bad? || updated.Bad? || due.Bad? || priority.Bad?
    then Err(ValidationError(Model))
    else
      Ok(NotePatch(title.value, content.value, author.value, Patched(tags), Patched(important),
        Patched(created), Patched(updated), Patched(due), Patched(priority)))
  }

  function Keep<T>(o: Option<T>, current: T): T
  {
    if o.Some? then o.value else current
  }

  /** The updated document: the paths the patch sets replaced, `createdAt`
      included, and every other path kept. */
  function ApplyPatch(n: Note, p: NotePatch): (r: Note)
    ensures r.title == (if p.title.Some? then p.title.value else n.title)
    ensures r.content == (if p.content.Some? then p.content.value else n.content)
    ensures r.author == (if p.author.Some? then p.author.value else n.author)
    ensures r.tags == (if p.tags.Some? then p.tags.value else n.tags)
    ensures r.isImportant == (if p.isImportant.Some? then p.isImportant.value else n.isImportant)
    ensures r.createdAt == (if p.createdAt.Some? then p.createdAt.value else n.createdAt)
    ensures r.updatedAt == (if p.updatedAt.Some? then p.updatedAt.value else n.updatedAt)
    ensures r.dueDate == (if p.dueDate.Some? then p.dueDate else n.dueDate)
    ensures r.priority == (if p.priority.Some? then p.priority.value else n.priority)
    ensures n.title != "" && n.content != "" && n.author != ""
      && (p.title.Some? ==> p.title.value != "") && (p.content.Some? ==> p.content.value != "")
      && (p.author.Some? ==> p.author.value != "")
      ==> r.title != "" && r.content != "" && r.author != ""
  {
    Note(Keep(p.title, n.title), Keep(p.content, n.content), Keep(p.author, n.author),
      Keep(p.tags, n.tags), Keep(p.isImportant, n.isImportant), Keep(p.createdAt, n.createdAt),
      Keep(p.updatedAt, n.updatedAt), if p.dueDate.Some? then p.dueDate else n.dueDate,
      Keep(p.priority, n.priority))
  }
}
