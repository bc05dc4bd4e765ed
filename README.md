# Contacts and Notes API — a Dafny model

This project models the core of a small Express + Mongoose REST API that
keeps two MongoDB collections, **contacts** and **notes**, behind CRUD
routes. It also has a Google-OAuth / JWT login flow. The model covers:

- the two routers, each a list of express-validator chains followed by
  the `validate` middleware and then a controller handler;
- the controller handlers, as classes whose methods update the stored
  collection;
- the three Mongoose schemas: their defaults, `trim`/`lowercase` setters,
  `required` and `enum` validators, and casts;
- the central error handler;
- the JWT bearer-token middleware;
- the Passport find-or-create callback and its (de)serialisation;
- the `/auth/*` handlers.

The server mounts only the contacts and notes routers, the Swagger page and
the error handler (server.js:29-41). The token middleware, Passport and the
auth router are modelled as written, but nothing in the server puts them in
front of the CRUD routes. The model therefore never claims that those routes
are protected.

Modules, one per source file plus a few shared ones:

- `Wrappers`: `Option` and `Result`.
- `Http`: the error object seen by `next(err)`; the three outcomes of a
  handler (respond, `next()`, `next(err)`); and JSON request values.
- `Text`: JavaScript's `split`, `trim` and `toLowerCase`.
- `Store`: a collection as a sequence of documents in natural order, each
  under its `_id`.
- `Schema`: the Mongoose casts and the validation error.
- `Crud`: the JSON bodies of the handlers.
- `ErrorHandler`, `ValidateRequest`, `Rules` (express-validator),
  `VerifyToken`, `UserModel`, `Passport`, `AuthRoutes`, `ContactModel`,
  `NoteModel`, `ContactsController`, `NotesController`, `ContactRoutes` and
  `NoteRoutes`.

Things the program gets from outside are parameters of the model:

- the id the store assigns to a new document;
- the current time;
- `jwt.sign` and `jwt.verify`;
- the string predicates `isEmail`, `isISO8601` and `isMongoId`;
- date-string parsing;
- whether a store call fails (`fault`: the error that call throws).

## Model

| member | source | states |
|---|---|---|
| Text.Split | middleware/verifyToken.js:8 | `split(' ')` keeps empty parts: at least one part, none containing the separator |
| Text.SplitCount | middleware/verifyToken.js:8-9 | the number of parts is the number of separators plus one |
| Text.JoinSplit | middleware/verifyToken.js:8 | joining the parts with the separator gives back the header |
| Text.SplitJoin | middleware/verifyToken.js:8 | splitting a join of separator-free parts gives back those parts |
| Text.Leading | models/contact.js:9-12 | the count of leading white space: every character before it is white space and the one at it is not |
| Text.Trailing | models/contact.js:9-12 | the count of trailing white space: every character after it is white space and the one before it is not |
| Text.Trim | models/contact.js:9-12 | `trim` keeps one contiguous slice, drops only ECMAScript white space around it, and leaves no white space at either end |
| Text.TrimIdempotent | models/contact.js:9-12 | trimming twice is trimming once |
| Text.ToLower | models/contact.js:11 | same length, each character lowered, no upper-case letter left |
| Text.ToLowerIdempotent | models/contact.js:11 | lowering twice is lowering once |
| ErrorHandler.StatusOf | middleware/errorHandler.js:9 | `err.statusCode \|\| 500`: never 0; the error's own code when truthy, otherwise 500 |
| ErrorHandler.MessageOf | middleware/errorHandler.js:15 | `err.message \|\| 'Internal Server Error'`: never empty; the error's message when truthy |
| ErrorHandler.Handle | middleware/errorHandler.js:7-16 | passes the error on exactly when headers were sent; otherwise responds `{success:false, message}` with that status |
| ErrorHandler.BareErrorIsGeneric500 | middleware/errorHandler.js:9-15 | an error with no status and no message becomes a 500 with the generic message |
| ErrorHandler.RespondsWithFailure | middleware/errorHandler.js:11-13 | every response the handler writes has `success: false` |
| ValidateRequest.Gate | middleware/validateRequest.js:8-15 | `next()` exactly when there are no errors; otherwise a 400 with `{success:false, errors}` carrying the full list; never `next(err)` |
| Rules.Select | routes/contacts.js:24-28 | `param(p)` reads the route parameter and `body(p)` the body field; absent means `undefined` |
| Rules.ItemErrors | routes/notes.js:28 | a standard validator on an array checks each element: no errors exactly when every element passes |
| Rules.ValidatorErrors | routes/notes.js:22-28 | one validator adds no error exactly when it holds for the selected value |
| Rules.ValidatorsErrors | routes/notes.js:22-24 | a chain's validators all run: no error exactly when all hold |
| Rules.ChainErrors | routes/notes.js:25-28 | a chain adds no error exactly when it passes, an `optional()` chain being skipped on an absent value |
| Rules.Errors | middleware/validateRequest.js:8 | `validationResult` is empty exactly when every chain of the route passes |
| Rules.ErrorsNameChains | middleware/validateRequest.js:12 | every reported error names the path and location of one of the route's chains |
| Rules.Admission | middleware/validateRequest.js:8-15 | chains plus `validate`: `next()` exactly when all chains pass, else a 400 with that route's error list |
| Rules.SameSelections | routes/notes.js:35-44 | the error list depends only on the fields the chains name |
| Rules.AllPassAppend | routes/notes.js:21-29 | the chains of a route pass exactly when each group of its chains passes |
| Rules.BodyCheck | routes/contacts.js:40-41 | a single-validator body chain: tested when present; when absent, skipped if optional and tested as `undefined` if not |
| Rules.MongoIdParam | routes/contacts.js:14 | `param('id').isMongoId()` passes exactly when `isMongoId` accepts the id |
| Rules.NumberBoolean | routes/notes.js:26 | a number prints as "0" or "1" exactly when it is 0 or 1 |
| Rules.BooleanAccepts | routes/notes.js:26 | `isBoolean` in its default (non-loose) mode accepts exactly the booleans, the numbers 0 and 1, and the strings "true", "false", "1" and "0" |
| Rules.EmptyArrayPasses | routes/notes.js:28 | an empty array passes any standard validator |
| Rules.NonEmptyString | routes/contacts.js:24 | `isString().notEmpty()` holds exactly for a non-empty string |
| Rules.MissingStringTwoErrors | routes/contacts.js:24 | a missing required string yields two errors, one from `isString` and one from `notEmpty` |
| Rules.RequiredStringRule | routes/contacts.js:24-27 | a `body(path).isString().notEmpty()` chain passes exactly when the field is a non-empty string |
| VerifyToken.AuthHeader | middleware/verifyToken.js:5 | the lower-case header when truthy, otherwise the capitalised one |
| VerifyToken.Middleware | middleware/verifyToken.js:4-18 | a 401 "No token provided", "Malformed token" or "Invalid token" per verdict; proceeds with the decoded claims exactly when the token verifies |
| VerifyToken.SplitShape | middleware/verifyToken.js:8-9 | two space-separated parts with `Bearer` first exactly when the header is `"Bearer "` followed by a space-free token; the parts are then `Bearer` and that token |
| VerifyToken.NoTokenExactly | middleware/verifyToken.js:5-6 | "No token" exactly when both headers are missing or empty |
| VerifyToken.MalformedExactly | middleware/verifyToken.js:9 | with a header present, "Malformed" exactly when it is not of bearer form |
| VerifyToken.VerifiesSecondPart | middleware/verifyToken.js:11-13 | the token handed to `jwt.verify` is the header after `"Bearer "` |
| VerifyToken.ProceedsExactly | middleware/verifyToken.js:4-15 | `next()` exactly when a header has bearer form and its token verifies; `req.user` is then the verified claims |
| VerifyToken.SchemeIsExact | middleware/verifyToken.js:9 | the scheme is case-sensitive: "bearer x" and "Token abc" are malformed |
| VerifyToken.PartCountIsExact | middleware/verifyToken.js:9 | "Bearer", "Bearer  x" (two spaces) and "Bearer a b" are malformed |
| VerifyToken.EmptyTokenIsVerified | middleware/verifyToken.js:9-13 | "Bearer " passes the shape test and hands the empty token to `jwt.verify` |
| VerifyToken.HeaderFallback | middleware/verifyToken.js:5 | an empty or missing lower-case header falls back to the capitalised one |
| UserModel.Create | models/user.js:4-11 | the given fields are kept; `role` defaults to "user" and `createdAt` to now, only when unset |
| Passport.PrimaryEmail | config/passport.js:20 | the first email's value when present and non-empty, otherwise "" |
| Passport.FindOne | config/passport.js:14 | the first user in natural order with that provider and provider id: a matching user with no match before it is the one returned; none exactly when no user matches |
| Passport.GoogleUser | config/passport.js:16-21 | the created user: provider "google", the profile's id, name and first email, role "user", created now |
| Passport.ResolveExisting | config/passport.js:14-23 | a known identity is returned as is and the store is unchanged |
| Passport.ResolveCreates | config/passport.js:15-23 | an unknown identity appends exactly one new user under the new id and returns it; identities stay unique |
| Passport.ResolveKeepsValid | config/passport.js:14-23 | the callback keeps ids and (provider, providerId) pairs unique |
| Passport.ResolveIdempotent | config/passport.js:14-23 | a second login with the same profile returns the same user and changes nothing |
| Passport.SerializeUser | config/passport.js:31 | the session key is the user's id |
| Passport.DeserializeSerialized | config/passport.js:31-35 | deserialising a serialised stored user finds that user |
| Passport.UserStore.constructor | models/user.js:13 | an empty, valid user store |
| Passport.UserStore.VerifyCallback | config/passport.js:11-27 | a find failure gives `done(err, null)` with nothing written; a create failure gives `done(err, null)`; otherwise the new store and `done` are those of the find-or-create |
| Passport.UserStore.DeserializeUser | config/passport.js:32-39 | `done(err, null)` on failure, otherwise `done(null, findById(id))` |
| AuthRoutes.Payload | routes/auth.js:17 | the JWT payload is the user's id, email and role |
| AuthRoutes.RedirectBase | routes/auth.js:28-30 | localhost:8080 outside production; `RENDER_URL` in production, printed "undefined" when unset |
| AuthRoutes.TokenInUrl | routes/auth.js:32 | reads back a token only from a URL of the success form |
| AuthRoutes.SuccessUrlRoundTrip | routes/auth.js:32 | the token placed in the redirect URL is read back unchanged |
| AuthRoutes.SuccessUrlInjective | routes/auth.js:32 | distinct tokens give distinct redirect URLs |
| AuthRoutes.Callback | routes/auth.js:13-35 | throws exactly when `jwt.sign` throws, with that error; otherwise redirects to the success URL from which `jwt.sign(payload, secret, 12h)` reads back |
| AuthRoutes.Fail | routes/auth.js:39 | a 401 "Authentication Failed" |
| AuthRoutes.Logout | routes/auth.js:41-44 | `{message: 'Logged out'}`, which calling `req.logout` when present does not change |
| AuthRoutes.Success | routes/auth.js:47-50 | "Login successful" with the query token echoed |
| AuthRoutes.Me | routes/auth.js:53-57 | the fixed hint message |
| AuthRoutes.CallbackThenSuccess | routes/auth.js:32-50 | when the callback redirects, following the redirect yields the signed token |
| AuthRoutes.ReloginSameSubject | routes/auth.js:17 | logging in twice with one profile signs the same payload |
| AuthRoutes.FirstLoginPayload | routes/auth.js:17 | a first login's payload carries the new id, the profile's first email and role "user" |
| Schema.ValidationError | models/contact.js:9-13 | a validation failure carries no status code and a non-empty message |
| Schema.CastString | models/contact.js:9 | a String path takes strings only, unchanged |
| Schema.CastDate | models/contact.js:13 | a Date path takes dates, time values within the range of a JavaScript `Date`, non-empty strings that parse, and arrays whose comma-joined text is non-empty and parses; `''`, `null` and booleans give no date |
| Schema.OneStringArrayDate | models/note.js:16 | an array holding one string casts to the same date as the string itself |
| Schema.CastBoolean | models/note.js:13 | the Boolean cast's true and false sets |
| Schema.Given | models/note.js:12-17 | a path counts as set when present and not `null` |
| Schema.GivenDate | models/note.js:14-16 | a date path counts as set when present and neither `null` nor `''` |
| ContactModel.Normalize | models/contact.js:9-12 | the stored form is `trim()` of the input, lower-cased for email, and so has no white space at either end (and no upper-case letter for email) |
| ContactModel.NormalizeFixed | models/contact.js:9-12 | an already clean string is stored unchanged |
| ContactModel.NormalizeIdempotent | models/contact.js:9-12 | normalising a stored value again changes nothing |
| ContactModel.RequiredText | models/contact.js:9-12 | a required text path accepts exactly the strings that are non-empty after trimming |
| ContactModel.CreationTime | models/contact.js:15 | the creation time is a given `createdAt` cast to a date, or now when none is given; no time when the given value does not cast |
| ContactModel.NewContact | models/contact.js:7-15 | `save` succeeds exactly when the four text fields are non-blank strings, the birthday casts and any given `createdAt` and `updatedAt` cast; each stored text field is the normalised input, the birthday the cast input, `createdAt` the creation time and `updatedAt` equal to it |
| ContactModel.TextChange | models/contact.js:9-12 | an absent path is kept; a present one is set to its normalised string exactly when that is non-empty, and rejected otherwise |
| ContactModel.DateChange | models/contact.js:13 | an absent date is kept; a present one is set to its cast value, and rejected exactly when it does not cast |
| ContactModel.ContactUpdate | models/contact.js:7-15 | an update succeeds exactly when every given text path is non-blank and every given date casts; each path of the patch is that path's change; a given `updatedAt` date is used |
| ContactModel.ApplyPatch | models/contact.js:15 | each path set by the patch takes its value and every other path is kept; `createdAt` is kept, `updatedAt` is the given value or now; a well-formed contact stays well-formed |
| ContactModel.SetAgain | models/contact.js:9-12 | re-submitting a stored text value sets it to itself |
| ContactModel.UpdateOfTexts | models/contact.js:7-15 | an update body holding only accepted text paths gives exactly the patch of those paths |
| ContactModel.TextBodySets | models/contact.js:9-12 | every text path of a saved contact's own body is set to its stored value |
| ContactModel.ResubmitIsStable | models/contact.js:7-15 | updating a contact with its own stored text changes only `updatedAt` |
| NoteModel.ParsePriority | models/note.js:17 | the enum accepts exactly "low", "medium" and "high" |
| NoteModel.PriorityRoundTrip | models/note.js:17 | printing a priority and parsing it back gives it unchanged |
| NoteModel.RequiredString | models/note.js:9-11 | a required path accepts exactly the non-empty strings, untrimmed |
| NoteModel.CastTags | models/note.js:12 | `[String]` wraps a single string and casts an array element by element |
| NoteModel.CastStrings | models/note.js:12 | an array casts exactly when every element is a string or `null`; each string is kept and each `null` stays `null`, in order |
| NoteModel.DateField | models/note.js:14-16 | a date path falls back to its default exactly when unset, `null` or `''`; otherwise it takes the cast value, and fails exactly when the value does not cast |
| NoteModel.BoolField | models/note.js:13 | `isImportant` falls back to its default exactly when unset; otherwise it takes the Boolean cast of the value, and fails exactly when that cast fails |
| NoteModel.TagsField | models/note.js:12 | `tags` falls back to its default exactly when unset; otherwise it takes the `[String]` cast of the value, and fails exactly when that cast fails |
| NoteModel.PriorityField | models/note.js:17 | `priority` falls back when unset, is rejected outside the enum, and otherwise is the given value |
| NoteModel.NewNote | models/note.js:7-18 | `save` succeeds exactly when title, content and author are non-empty strings, every given path casts and a given priority is in the enum; each given path holds its cast value, each unset one its default (`[]`, false, "medium", now, now, none) |
| NoteModel.RequiredChange | models/note.js:9-11 | an absent required path is kept; a present one is set to its string, and the update fails exactly when it is not a non-empty string |
| NoteModel.NoteUpdate | models/note.js:7-18 | an update succeeds exactly when every given required path is a non-empty string and every other given path casts and validates, `createdAt` included; the patch sets exactly the given paths to their cast values |
| NoteModel.ApplyPatch | models/note.js:7-18 | each path the patch sets, `createdAt` included, takes its value and every other path is kept; required strings stay non-empty |
| Store.FindById | controllers/contacts.js:122 | `findById` finds a document exactly when one has that id, and returns a stored document with that id |
| Store.FindStored | controllers/contacts.js:122 | with unique ids, `findById` returns the very document stored under the id |
| Store.AppendFresh | controllers/contacts.js:165-166 | saving under a fresh id keeps ids unique and makes the document findable |
| Store.ReplaceById | controllers/contacts.js:205-208 | `findByIdAndUpdate` replaces the document under the id and keeps order, ids and all other documents |
| Store.ReplaceFinds | controllers/contacts.js:205-210 | after the update the id finds the new document and ids stay unique |
| Store.RemoveById | controllers/contacts.js:239 | `findByIdAndDelete` keeps exactly the documents with other ids |
| Store.RemoveKeepsUnique | controllers/contacts.js:239 | deleting keeps ids unique |
| Store.RemoveCount | controllers/contacts.js:239-241 | deleting a present id removes exactly one document |
| Store.RemoveAbsent | controllers/contacts.js:239-240 | deleting an absent id changes nothing |
| Store.RemoveExcludes | controllers/contacts.js:239 | after deleting, nothing remains under the id |
| ContactsController.AppendKeepsValid | controllers/contacts.js:165-166 | saving a well-formed contact under a fresh id keeps the collection valid |
| ContactsController.ReplaceKeepsValid | controllers/contacts.js:205-208 | replacing with a well-formed contact keeps the collection valid |
| ContactsController.RemoveKeepsValid | controllers/contacts.js:239 | deleting keeps the collection valid |
| ContactsController.Contacts.constructor | models/contact.js:18 | an empty, valid collection |
| ContactsController.Contacts.GetAll | controllers/contacts.js:80-87 | `next(err)` on failure, otherwise 200 with every contact and `count` their number |
| ContactsController.Contacts.GetOne | controllers/contacts.js:120-128 | `next(err)` on failure; 404 "Contact not found" exactly when no contact has the id; otherwise 200 with the stored contact under that id |
| ContactsController.Contacts.Create | controllers/contacts.js:163-171 | a schema failure is `next(err)` before the store is touched, then a store fault, then a duplicate id; otherwise 201 with the id and the saved contact, which is appended |
| ContactsController.Contacts.Update | controllers/contacts.js:202-214 | stamps `updatedAt` with now; an update that fails validation goes to `next(err)` even for an unknown id, then a store fault; 404 for an unknown id; otherwise 200 with the stored contact patched in place, `updatedAt` now |
| ContactsController.Contacts.Remove | controllers/contacts.js:237-245 | 404 for an unknown id; otherwise "Deleted" with exactly that contact gone |
| NotesController.AppendKeepsValid | controllers/notes.js:162-163 | saving a note with non-empty required strings under a fresh id keeps the collection valid |
| NotesController.ReplaceKeepsValid | controllers/notes.js:200-203 | replacing with such a note keeps the collection valid |
| NotesController.RemoveKeepsValid | controllers/notes.js:232 | deleting keeps the collection valid |
| NotesController.Notes.constructor | models/note.js:20 | an empty, valid collection |
| NotesController.Notes.GetAll | controllers/notes.js:81-88 | `next(err)` on failure, otherwise 200 with every note and `count` their number |
| NotesController.Notes.GetOne | controllers/notes.js:119-127 | `next(err)` on failure; 404 "Note not found" exactly when no note has the id; otherwise 200 with the stored note under that id |
| NotesController.Notes.Create | controllers/notes.js:160-168 | a schema failure is `next(err)`, then a store fault, then a duplicate id; otherwise 201 with the id and the saved note (schema defaults applied), which is appended |
| NotesController.Notes.Update | controllers/notes.js:197-209 | stamps `updatedAt`; validation failure goes to `next(err)`, then a store fault; 404 for an unknown id; otherwise 200 with the note patched in place (a given `createdAt` included), `updatedAt` now |
| NotesController.Notes.Remove | controllers/notes.js:230-238 | 404 for an unknown id; otherwise "Deleted" with exactly that note gone |
| ContactRoutes.Serve | routes/contacts.js:12-48 | a request the route's chains reject is a 400 carrying the error list, with the collection unchanged; an admitted one gets exactly the outcome and the new collection of its handler (`Handles`) |
| ContactRoutes.Dispatch | routes/contacts.js:12-48 | each endpoint reaches its handler: list and read answer from the collection unchanged, create appends the new contact, update replaces the patched one, delete removes it, each with the matching 201/200/404/`next(err)` |
| ContactRoutes.ListIsNeverRejected | routes/contacts.js:12 | `GET /` has no validation |
| ContactRoutes.IdRoutesCheckOnlyId | routes/contacts.js:14-48 | `GET /:id` and `DELETE /:id` pass exactly when the id is a Mongo id, whatever the body |
| ContactRoutes.PostAdmits | routes/contacts.js:21-32 | `POST /` passes exactly when both names and the colour are non-empty strings, email passes `isEmail` and birthday passes `isISO8601` |
| ContactRoutes.PutAdmits | routes/contacts.js:36-45 | `PUT /:id` passes exactly on a Mongo id with any present email and birthday valid; names and colour are not checked |
| ContactRoutes.BlankNameGap | routes/contacts.js:24 | a white-space-only name passes `isString().notEmpty()` but the schema's trimmed `required` rejects it |
| ContactRoutes.BlankNameAnswers500 | routes/contacts.js:24 | such a `POST` passes the first-name chain, then `save` fails and the error handler answers 500 "Contact validation failed", not 400 |
| NoteRoutes.Serve | routes/notes.js:12-47 | a request the route's chains reject is a 400 carrying the error list, with the collection unchanged; an admitted one gets exactly the outcome and the new collection of its handler (`Handles`) |
| NoteRoutes.Dispatch | routes/notes.js:12-47 | each endpoint reaches its handler: list and read answer from the collection unchanged, create appends the new note, update replaces the patched one, delete removes it, each with the matching 201/200/404/`next(err)` |
| NoteRoutes.ListIsNeverRejected | routes/notes.js:12 | `GET /` has no validation |
| NoteRoutes.IdRoutesCheckOnlyId | routes/notes.js:14-47 | `GET /:id` and `DELETE /:id` pass exactly when the id is a Mongo id |
| NoteRoutes.PriorityAgreesWithSchema | routes/notes.js:28 | the route's `isIn` list and the schema enum accept the same priority strings |
| NoteRoutes.PostAdmits | routes/notes.js:19-32 | `POST /` passes exactly when title, content and author are non-empty strings and each present optional field passes its check |
| NoteRoutes.RequiredPass | routes/notes.js:22-24 | the three required chains pass exactly on non-empty strings |
| NoteRoutes.OptionalPass | routes/notes.js:25-28 | the four optional chains pass exactly when each present field passes |
| NoteRoutes.PutAdmits | routes/notes.js:35-44 | `PUT /:id` passes exactly on a Mongo id with any present due date and priority valid |
| NoteRoutes.PutIgnoresOtherFields | routes/notes.js:35-44 | on `PUT /:id`, no body field other than the due date and priority, title included, changes the validation result |
| NoteRoutes.BlankTitleAnswers500 | routes/notes.js:35-44 | a `PUT` with an empty title, a Mongo id and no due date or priority passes the route, then the stamped update fails the schema and the error handler answers 500 |
| NoteRoutes.EmptyPriorityArrayGap | routes/notes.js:28 | an empty array as priority passes the route's `isIn` but fails the schema |

## Left out

- Express itself is not modelled: path matching, JSON body parsing, query-string decoding, headers and `res` objects. Handlers take the parsed inputs and return what they send.
- The server setup is not modelled: server.js, the Swagger document and UI, `dotenv`, the MongoDB connection, the port, the health check and `process.exit`.
- Asynchrony and concurrency are not modelled. Each store call completes atomically, so races between requests are out of scope.
- Console logging in the error handler is not modelled.
- The internals of `jwt.sign` and `jwt.verify` (signing, expiry, the secret) are not modelled. They are function parameters.
- The OAuth exchange inside `passport.authenticate`, the Google profile fetch, and sessions are not modelled. The callback starts from the profile; `req.logout` is not modelled, since it does not change the answer.
- The validator.js predicates `isEmail`, `isISO8601` and `isMongoId` are parameters, as is Mongoose's date parsing. A malformed id reaching `findById` (a CastError) cannot happen behind the `isMongoId` chain, so it is not modelled.
- Rules.Stringify: prints a date as its time value rather than ISO text. Parsed JSON bodies hold no dates, so this never matters. It prints every integer in plain decimal digits, whereas JavaScript's `String(n)` switches to exponent form from 1e21 on. Nested JSON objects are not part of `Value`.
- Http.Value: JSON numbers are integers only. A fractional number such as `0.5` cannot be represented, so its casts and validator results are not modelled.
- Rules.FieldError: the error entries carry the value, message, path and location; the constant `type: 'field'` is left out.
- Schema.CastString: numbers and booleans are not cast to strings, so a number for a String path, or a number inside `tags` (NoteModel.CastStrings), is rejected here, although Mongoose would store its text.
- Schema.Given: on the Note paths other than the three required strings, a `null` (and, for a date path, a `''`, which Mongoose casts to `null`) is treated as unset: on create the default applies and on update the stored value is kept, where Mongoose would store `null`.
- Schema.CastDate: a number is a whole number of milliseconds; string parsing is the `parseDate` parameter.
- ContactModel.CreationTime: with no `createdAt` given, Mongoose takes the creation time from the new ObjectId, which holds whole seconds; the model uses `now`.
- Text.ToLower: lower-cases ASCII letters only. JavaScript's `toLowerCase` also maps other Unicode letters.
- A client-supplied `_id` in a body is not modelled. New documents always get the id the store assigns.
- Mongoose's exact error messages and error classes are not modelled. A validation failure is one error, "<Model> validation failed", with no status code. A duplicate id gives an E11000 error.
- VerifyToken.AuthHeader: Node lower-cases incoming header names, so the `Authorization` fallback never fires in practice. The model keeps both header slots as inputs, as the code reads them.
- ContactsController.Contacts.Update: Mongoose's automatic `timestamps` update is not modelled separately. The handler already sets `updatedAt` to the current time, which is the value the model records. A `createdAt` in the update body is dropped, as the `timestamps` option makes `createdAt` immutable.
- Store.RemoveById: the contract states which documents remain, not that they keep their order.
