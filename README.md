# Multi-family office backend: authorization policy and resource store

This project models the client portal backend of a multi-family office in Dafny:

- the users, family offices, families, documents, meetings and messages it stores;
- the role-based access decisions that guard them;
- the REST endpoints that create and list them.

There are four roles: admin, family-office admin, advisor and family member. They decide:

- who may create offices and families;
- who may touch a family's documents, meetings and messages;
- what each listing returns.

Every endpoint is a chain of checks. It ends in an HTTP error status (400, 401, 403, 404, or 500 for an unhandled exception), in one insert into a collection, or in a filtered read.

Files:

- `common.dfy` (module `Common`) holds optional values and endpoint outcomes (`Ok(value)` or `Err(status)`). It also holds the three store queries the backend performs, each with its laws:
  - `Filter` for `find(query)`;
  - `Find` for `find_one(query)`;
  - `Count` for `count_documents(query)`.
- `models.dfy` (module `Models`) holds the enums with their string values, and the records with the default values a new record receives. It also holds the stored form of a user (with its password hash) and the user response, which has no password.
- `auth.dfy` (module `Auth`) models `backend/auth.py`. It holds the claim check on a decoded token, `get_current_user`, `authenticate_user`, the `require_role` gate and the family and document access checks. Each is a function of the store's collections. The advisor's database counts are counts over those sequences, and a lemma restates them as "some meeting or message links the advisor to the family".
- `queries.dfy` (module `Queries`) holds the pure parts of the endpoints:
  - the split of an upload's tags string;
  - the role-to-filter selection of the two listings;
  - the query records that the document, meeting and message listings build, and what each query matches;
  - the newest-first order of messages.

  Beside each query sits a reference predicate that states which records the caller is meant to see.
- `server.dfy` (module `Server`) holds the class `Store`. Its fields are the six collections, as sequences in insertion order. Each endpoint that writes to a collection is a method with a `modifies` clause: register, create family office, create family, upload document, create meeting and send message. The start-up seeding `create_default_data` is also a method. `login`, `get_family_offices`, `get_families` and `download_document` only read the store, so they are functions of `Store` with `reads` clauses. The other listings are methods that change nothing. The invariant `Valid()` is the unique index on `users.email`.

Things that come from outside the program are parameters:

- new ids and timestamps;
- bcrypt's password check (`verify`) and the stored hashes;
- base64 encoding (`encode`).

An authenticated endpoint receives as `caller` the user that `get_current_user` resolved from the token. A token is represented by the claims its JWT carries.

Two places where the code and its comments disagree; the model follows the code:

- The comment at `backend/auth.py:138` says admins and family-office admins reach the families "in their office". The code grants them every family id without consulting the office (`Auth.FamilyAccess`).
- `require_role` is defined but no endpoint in `backend/server.py` applies it. The endpoints make their own role checks, and those are what `CreateFamilyOffice` and `CreateFamily` model. The gate itself is `Auth.RequireRole`.

Other behaviour of the code worth knowing:

- `login` does not look at the active flag. A deactivated user still gets a token, but every authenticated endpoint refuses it (`Server.LoginThenCurrentUser`).
- `verify_token` raises its 401 for a payload without "sub" or "email" inside a `try`, and the handlers after it name `jwt.ExpiredSignatureError` and `jwt.JWTError` (`backend/auth.py:44-69`). The module is imported as `import jwt` (`backend/auth.py:2`). PyJWT, the package usually installed under that name, has no `JWTError`, which is python-jose's name. So under PyJWT, evaluating that handler raises AttributeError, and the answer to such a payload, or to any decode error other than expiry, is 500 instead of 401. The model follows the 401 the code raises (`Auth.VerifyClaims`).
- In `get_meetings` the query parameter `status` (`backend/server.py:393`) shadows the `status` module imported from FastAPI (`backend/server.py:5`). So for a family filter the caller cannot access, `status.HTTP_403_FORBIDDEN` raises AttributeError, and the answer is 500 rather than the intended 403. No meeting leaks either way: the request fails before the query runs (`Server.Store.GetMeetings`).
- A family member's meeting listing filters on the member's own `family_id`. When that is None it matches no meeting.
- A document type outside the enum makes `DocumentType(...)` raise after the access and size checks. FastAPI answers that with 500.

## Model

| member | source | states |
|---|---|---|
| Common.Filter | backend/server.py:319 | a `find(query)` keeps exactly the records that satisfy the query, in store order, never more than the store holds |
| Common.FilterAppend | backend/server.py:322-325 | selecting over a store grown by one record adds that record at the end exactly when it passes |
| Common.FilterFilter | backend/server.py:319-325 | filtering the query result by a second test is filtering the store by both tests |
| Common.FilterExt | backend/server.py:319 | two selections that agree on every record select the same records |
| Common.FilterAll | backend/server.py:178-180 | a selection every record passes (admin's `find()`) returns the whole store |
| Common.FilterRearranged | backend/server.py:485 | every record of a reordering of a selection passes the selection |
| Common.Find | backend/auth.py:77 | `find_one` is empty exactly when no record matches, and otherwise returns the first matching record |
| Common.FindFirst | backend/auth.py:98 | when record i is the first match, `find_one` returns record i |
| Common.Count | backend/auth.py:151-161 | a `count_documents` result is at most the store's size and equals the number of records `find` with the same query returns |
| Common.CountPositive | backend/auth.py:151-163 | a `count_documents` result is positive exactly when some record matches |
| Common.CountAppend | backend/server.py:501 | inserting one record raises the count of a query by one exactly when the record matches it |
| Models.ParseRole | backend/models.py:7-11 | a string denotes a role exactly when it is one of the four role values, and then names that role |
| Models.RoleRoundTrip | backend/models.py:7-11 | each of the four roles has its own value, which parses back to it |
| Models.ParseDocumentType | backend/models.py:13-19 | `DocumentType(s)` succeeds exactly for the six values; any other string matches no variant |
| Models.DocumentTypeRoundTrip | backend/models.py:13-19 | each of the six document types parses back from its value |
| Models.ParseMeetingStatus | backend/models.py:21-25 | a string denotes a status exactly when it is one of the four status values |
| Models.MeetingStatusRoundTrip | backend/models.py:21-25 | each meeting status parses back from its value |
| Models.ParseMessageType | backend/models.py:27-30 | a string denotes a message type exactly when it is one of the three values |
| Models.MessageTypeRoundTrip | backend/models.py:27-30 | each message type parses back from its value |
| Models.NewUser | backend/models.py:33-43 | a new user is active and created and updated at the given instant, with the given identity, role, office and family |
| Models.LoadUser | backend/auth.py:86-93 | a loaded user keeps every stored field except the hash, and is active unless its stored flag is false; a missing flag counts as active |
| Models.StoreUser | backend/server.py:112-113 | a stored user carries every field of the user, its active flag as present, and the given password hash under `password` |
| Models.StoreLoadRoundTrip | backend/server.py:111-113 | loading a stored user gives back the user that was stored |
| Models.ToResponse | backend/models.py:58-67 | a user response carries the user's id, email, names, role, office, family, active flag and creation time, and no password |
| Models.ResponseHidesPassword | backend/models.py:58-67 | the user response does not depend on the stored password hash |
| Models.NewFamilyOffice | backend/models.py:70-75 | a new family office has the given name and description, created and updated now |
| Models.NewFamily | backend/models.py:82-87 | a new family has the given name and office, created and updated now |
| Models.NewDocument | backend/models.py:94-107 | a new document has no tags, an empty access list and no description, and is active |
| Models.Responses | backend/server.py:323-325 | the document responses are the stored documents' metadata, one for one and in order |
| Models.ResponsesAppend | backend/server.py:325 | appending a stored document appends its response |
| Models.NewMeeting | backend/models.py:136-151 | a new meeting is scheduled, with no attendees, no action items, no link, no notes and no description |
| Models.NewMessage | backend/models.py:174-183 | a new message is plain text, unread, without attachment, from the given sender to the given recipient |
| Auth.VerifyClaims | backend/auth.py:42-56 | decoded claims pass exactly when both "sub" and "email" are present, giving those values; otherwise 401 |
| Auth.GetCurrentUser | backend/auth.py:71-93 | the resolved user has the token's subject as id and is active, and comes from the store; with no user of that id the answer is 401 |
| Auth.CurrentUserIsFirstMatch | backend/auth.py:77-93 | the first user with the subject's id decides: 401 exactly when its stored flag is false, otherwise that user |
| Auth.AuthenticateUser | backend/auth.py:95-106 | authentication returns a stored user with that email whose hash verifies the password; with no such email it returns nothing |
| Auth.AuthenticateIsFirstMatch | backend/auth.py:98-106 | the first user with the email decides: it is returned exactly when the password verifies against its hash |
| Auth.FirstUser | backend/auth.py:114-118 | the gate's current user is the first keyword argument that is a user, and is absent exactly when there is none |
| Auth.RequireRole | backend/auth.py:109-134 | 401 without a user argument; otherwise 403 when the first user's role is not required, and the endpoint's own outcome unchanged when it is |
| Auth.FamilyAccess | backend/auth.py:136-165 | `check_family_access`: admins and family-office admins always pass, a family member passes exactly for its own family id, and an advisor with no meetings and no messages in the store never passes |
| Auth.FamilyAccessByRole | backend/auth.py:150-163 | an advisor reaches a family exactly when some meeting it advises or some message it sent or received belongs to the family |
| Auth.DocumentAccess | backend/auth.py:167-178 | document access implies family access to the document's family; with a non-empty access list it also requires the user to be on it, and with an empty list family access alone decides |
| Queries.Split | backend/server.py:282 | `split(",")` gives at least one piece, no piece contains the separator, and the pieces joined by it give back the string |
| Queries.SplitJoin | backend/server.py:282 | splitting undoes joining pieces that contain no separator |
| Queries.SplitPrefix | backend/server.py:282 | a separator-free text in front of a string extends only the first piece |
| Queries.Tags | backend/server.py:282 | the empty tags string gives no tags; any other gives comma-free tags that join back to the string |
| Queries.OfficesFilter | backend/server.py:178-185 | the office query chosen by role matches exactly the offices the caller is meant to see: all for an admin, its own office otherwise |
| Queries.FamiliesFilter | backend/server.py:218-230 | the family query chosen by role matches exactly the families the caller is meant to see: all, those of its office, or its own |
| Queries.DocumentsQueryFor | backend/server.py:304-316 | the built documents query matches a document exactly when it lies in the given family and has the given type, each filter applying only when given |
| Queries.ListedDocuments | backend/server.py:304-327 | every listed document is the metadata of a stored document and passes document and family access and the given filters, and every stored document that does so is listed |
| Queries.ResponsesFilterAppend | backend/server.py:322-325 | scanning one more document adds its response exactly when it passes the access check |
| Queries.QueryThenAccessIsListed | backend/server.py:304-327 | running the built query and then keeping the accessible documents lists exactly the documents meant to be listed |
| Queries.MessagesQueryFor | backend/server.py:463-483 | the built messages query has two alternatives, each naming the caller as sender or recipient, and a family clause exactly when a family is given, holding that family |
| Queries.MessagesQuerySelectsVisible | backend/server.py:463-483 | the `$or` query built for the messages listing matches exactly the messages the caller sent or received (with that recipient when one is given), within the family filter |
| Queries.MessagesQueryFilter | backend/server.py:463-485 | filtering the messages by the built query is filtering them by visibility |
| Queries.ListedMessages | backend/server.py:463-487 | the listed messages are newest first and are, with multiplicity, exactly the visible messages; each has the caller as sender or recipient, is exchanged with the given recipient when one is given, and belongs to the given family when one is given |
| Queries.InsertNewestFirst | backend/server.py:485 | inserting into a newest-first list keeps it newest first, adds exactly that message and takes nothing away |
| Queries.SortNewestFirst | backend/server.py:485 | `sort("created_at", -1)` orders newest first and is a permutation of its input |
| Server.AtMostOneUserPerEmail | backend/database.py:41 | under the unique email index at most one user has any email |
| Server.AppendFreshEmail | backend/database.py:41 | inserting a user whose email is free keeps the index unique |
| Server.DemoOfficeId | backend/server.py:495-504 | the office id the seeding continues with is that of the first demo office in the store, or the fresh id when there is none |
| Server.DemoFamilyId | backend/server.py:507-516 | the family id the seeding continues with is that of the first demo family in the store, or the fresh id when there is none |
| Server.DemoAdmin | backend/server.py:521-529 | the demo admin is an active admin with the demo admin email, of the given office, with no family, stored with the given hash |
| Server.DemoMember | backend/server.py:535-544 | the demo member is an active family member with the demo member email, of the given office and family, stored with the given hash |
| Server.SeedOffices | backend/server.py:494-504 | afterwards the demo office is present, exactly once when it was at most once before; an office list that had it is unchanged; earlier offices keep their place |
| Server.SeedFamilies | backend/server.py:506-515 | the same for the demo family; a created family belongs to the given office |
| Server.AddIfMissing | backend/server.py:517-530 | insert-if-missing by email keeps the index unique, leaves the email taken and keeps every email taken before |
| Server.SeedUsers | backend/server.py:517-545 | afterwards exactly one user holds each demo email, the index stays unique, and a user list holding both is unchanged |
| Server.SeedingSeeds | backend/server.py:490-545 | after seeding every demo record is present, and seeding collections that already hold them all changes nothing |
| Server.KeepAccessible | backend/server.py:321-325 | the loop keeps, in order, the responses of exactly the fetched documents that pass the document access check |
| Server.SeededUsersCanLogIn | backend/server.py:517-545 | on a store without the demo users, seeding lets the demo admin and demo member log in with their documented passwords |
| Server.LoginThenCurrentUser | backend/server.py:119-142 | a login token passes the claim check, and with unique ids it resolves to the user who logged in, unless that user is deactivated |
| Server.Store.constructor | backend/database.py:41 | a new store is empty and satisfies the unique email index |
| Server.Store.Register | backend/server.py:71-117 | 400 and nothing inserted when the email is taken, the office is missing, or a given family is missing; otherwise exactly one user with that email is appended, the response matches it, and that email and password then log in to it |
| Server.Store.Login | backend/server.py:119-142 | 401 exactly when authentication fails; otherwise a bearer token for 86400 seconds whose claims are the user's id and email, and the user's response |
| Server.Store.CreateFamilyOffice | backend/server.py:150-171 | only an admin creates an office, which is appended; anyone else gets 403 and the offices are unchanged |
| Server.Store.GetFamilyOffices | backend/server.py:173-187 | returns exactly the visible offices in store order: all for an admin, only the caller's own office otherwise |
| Server.Store.CreateFamily | backend/server.py:190-211 | only an admin or a family-office admin creates a family, which is appended; anyone else gets 403 and the families are unchanged |
| Server.Store.GetFamilies | backend/server.py:213-232 | returns exactly the visible families in store order: all for an admin, those of its office for a family-office admin, only its own otherwise |
| Server.Store.UploadDocument | backend/server.py:235-292 | in order: empty family id 400, no family access 403, more than 50 MiB 400 (exactly 50 MiB passes), unknown type 500, and nothing stored on any error; on success the stored document has the content length as size, the split tags, the caller as uploader, and a later download of a fresh id returns its filename, content type and encoded content |
| Server.Store.GetDocuments | backend/server.py:294-327 | 403 for a family filter without access; otherwise exactly the listed documents, in store order |
| Server.Store.DownloadDocument | backend/server.py:329-356 | 404 exactly for an unknown id; otherwise the first document with that id decides: 403 when the caller lacks document access to it, and its stored original filename, content type and content unchanged when the caller has it |
| Server.Store.CreateMeeting | backend/server.py:359-388 | 403 and nothing inserted without family access; otherwise a scheduled meeting created by the caller is appended |
| Server.Store.GetMeetings | backend/server.py:390-422 | 500 for a family filter without access, since the `status` parameter shadows FastAPI's `status` module on the 403 path; otherwise exactly the visible meetings, so an advisor sees only its own meetings and a family member only its family's |
| Server.Store.SendMessage | backend/server.py:425-451 | 403 and nothing inserted without family access; otherwise an unread message from the caller is appended |
| Server.Store.GetMessages | backend/server.py:453-487 | 403 for a family filter without access; otherwise exactly the listed messages (newest first, each involving the caller) |
| Server.Store.SeedOffice | backend/server.py:494-504 | the offices become the seeded offices, and the answer is the id of the demo office found or inserted |
| Server.Store.SeedFamily | backend/server.py:506-515 | the families become the seeded families, and the answer is the id of the demo family found or inserted |
| Server.Store.SeedDemoUsers | backend/server.py:517-545 | the users become the seeded users and the email index stays unique |
| Server.Store.CreateDefaultData | backend/server.py:490-545 | the new collections are the seeded ones, the demo records are present, the email index stays unique, and a seeded store is unchanged |

## Left out

- JWT signing, encoding, decoding and expiry (`create_access_token`, `jwt.decode`): a foreign library and the wall clock. A token is represented by its claims, and only the presence check on an already-decoded payload is modelled.
- bcrypt (`get_password_hash`, `verify_password`): salted and opaque. Hashes are parameters and the check is the parameter `verify`.
- Base64 (`base64.b64encode`): a library call, passed in as `encode`. The stored content is an opaque string that the download returns unchanged.
- UUID generation and `datetime.utcnow()`: nondeterministic sources. Ids and instants are parameters, and an instant is an integer.
- FastAPI routing, dependency injection, form parsing, CORS, async/await, the lifespan hook and uvicorn: framework plumbing. Pydantic rejects a request whose enum field has an unknown value before the endpoint runs (422); this is not modelled.
- The root, health and `/api/auth/me` endpoints: they return constants or echo the resolved user, and hold no decisions.
- `backend/database.py`: connection set-up and index creation are I/O. Its unique email index is modelled as the store invariant `Valid()`.
- Auth.VerifyClaims: the 401 for missing claims assumes a `jwt` module that defines `JWTError`. Under PyJWT this path, and every decode error other than expiry, answers 500 instead. The installed JWT package is not part of this model.
- Server.Store.UploadDocument: `file.size` and the length of the content read are taken to be the same.
- Server.Store.GetMessages: Mongo's order among messages with the same `created_at` is unspecified. The model fixes one such order, the one `Queries.SortNewestFirst` produces. What the code promises, and what `Queries.ListedMessages` states, is the newest-first order and the visible messages with multiplicity. The tie order the model picks is not claimed to be Mongo's.
- Server.Store.CreateDefaultData: the demo passwords are hashed outside the model. The hashes are parameters, and `Server.SeededUsersCanLogIn` assumes they verify "admin123" and "member123".
- Server.LoginThenCurrentUser: stated for stores whose user ids are unique. Nothing in the code enforces unique ids; they come from uuid4.
- `DocumentCreate` and `MeetingUpdate`: declared in the models, but no endpoint uses them.
