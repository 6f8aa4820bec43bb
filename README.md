# Barrel + Verse backend, modelled in Dafny

Barrel + Verse is a small site that sells courses and experiences. Its backend has three parts, and this project models each one:

- **Validation schemas.** The four tables (users, courses, experiences, purchases) come with zod schemas that check every request body.
- **In-memory store.** `MemStorage` keeps the four tables as id-keyed, insertion-ordered maps. It forces server-owned defaults when it creates records and merges partial updates into existing ones.
- **Express handlers.** Two access gates (signed in; administrator) sit in front of the handlers. The handlers turn store results into 200/400/401/403/404 responses and set the session's user id on register and login.

The modules follow that structure:

| file | module | what it holds |
|---|---|---|
| `Wrappers.dfy` | `Wrappers` | `Option` and `Result` |
| `JsonValues.dfy` | `JsonValues` | JSON values; a request body is a map from member name to value |
| `OrderedMaps.dfy` | `OrderedMaps` | the ECMAScript `Map` with insertion order (`OMap`), plus `filter` and `find` over arrays |
| `DecimalFormat.dfy` | `DecimalFormat` | the price and amount pattern `^\d+(\.\d{1,2})?$`, as a scanner proved equal to the pattern |
| `Schema.dfy` | `Schema` | records, defaults, column tables, and `createInsertSchema` / `.omit` / `.partial` as operations on schemas; what a schema accepts, the issues it reports, and its stripped output |
| `Payloads.dfy` | `Payloads` | typed results of each `parse` call; each decoder is tied to its schema, and a round trip holds for every well-formed payload |
| `Storage.dfy` | `Storage` | the `MemStorage` class with four `OMap` fields, the record builders and the update merge |
| `Routes.dfy` | `Routes` | the `Session` class, the gates and read handlers as functions, and the mutating handlers as methods |

### Modelling decisions

- **Foreign functions become parameters.** The following are parameters of the members that use them:
  - `bcrypt.hash`, as `hash`;
  - `bcrypt.compare`, as `verify`;
  - zod's `.email()` check, as `isEmail`;
  - `randomUUID()`, as an `id` that must not already be a key of its table;
  - `new Date()`, as `now`.
- **Three-state fields.** Object spread keeps a missing key distinct from an explicit `null`, so a nullable field is `Field<T> = Absent | Null | Val(value)`.
  - A database would store an omitted nullable column as null.
  - `MemStorage` builds records by spread, so an omitted field stays absent. The model follows the code.
- **What drizzle-zod derives.** The model follows drizzle-zod 0.5.
  - `createInsertSchema` makes a nullable column optional and nullable, and a column with a default optional.
  - A refinement passed to it replaces only the column's base type; nullability and optionality are then added as above.
  - The constant schemas are proved equal to what this derivation gives from the column tables.
- **Dates from JSON.** A `timestamp` column validates with `z.date()`, and a JSON body cannot hold a `Date`. So the body can leave an experience's `date` out or set it to `null`, but any other value is rejected. The decoders state this outright.
- **Truthiness.** `!req.session.userId` also holds for the empty string, so "signed in" means present and non-empty.

## Model

| member | source | states |
|---|---|---|
| OrderedMaps.OMap.Set | server/storage.ts:73 | `Map.set` writes the entry. A key that was present keeps its place in iteration order; a new key goes last. |
| OrderedMaps.OMap.Delete | server/storage.ts:118 | `Map.delete` reports true exactly when the key was present. Afterwards the key is absent, every other entry is kept, and the remaining keys keep their order. Deleting an absent key leaves the map exactly as it was. |
| OrderedMaps.OMap.Values | server/storage.ts:79 | `Array.from(map.values())` has one value per key, in insertion order, and holds exactly the map's values. |
| OrderedMaps.Without | server/storage.ts:118 | Removes every occurrence of one key: the other keys keep their order and multiplicity, no duplicate is introduced, and a list without the key is returned unchanged. |
| OrderedMaps.Filter | server/storage.ts:83 | `filter` keeps exactly the elements that satisfy the predicate, in their original order (a subsequence of the input) and with their multiplicity. |
| OrderedMaps.Find | server/storage.ts:60-62 | `find` returns an element that satisfies the predicate, with no earlier one that does. It returns none exactly when no element does. |
| OrderedMaps.FirstIndex | server/storage.ts:60-62 | Gives the position where `find` stops: the predicate holds there and fails at every earlier position. |
| OrderedMaps.Empty | server/storage.ts:48-51 | `new Map()` is a well-formed map with no entries and an empty value list. |
| OrderedMaps.SetFreshAppends | server/storage.ts:100 | Creating a record under a fresh id appends it at the end of the table's listing. |
| OrderedMaps.SetPresentReplaces | server/storage.ts:113 | Re-setting a present id replaces the record in place; no other record moves. |
| OrderedMaps.DeleteTwice | server/storage.ts:117-119 | Deleting the same key twice reports whether it was present, then false. |
| DecimalFormat.LeadingDigits | shared/schema.ts:72 | Finds the longest run of ASCII digits at the start of a string: all digits, and followed by a non-digit or the end. |
| DecimalFormat.DigitRunIsGreedy | shared/schema.ts:72 | Any digit prefix that ends at a non-digit or at the end of the string is that longest run. |
| DecimalFormat.IsDecimal | shared/schema.ts:72 | The test `z.string().regex(/^\d+(\.\d{1,2})?$/)`: an accepted string begins and ends with a digit, holds only digits and at most one point, and a point is followed by one or two digits. Its exact language is given by `DecimalFormat.IsDecimalIffMatchesPattern`. |
| DecimalFormat.IsDecimalIffMatchesPattern | shared/schema.ts:72 | The scanner accepts a string exactly when it matches `^\d+(\.\d{1,2})?$`: one or more digits, optionally a point and one or two digits. |
| DecimalFormat.AcceptedExamples | shared/schema.ts:80 | The pattern accepts "19.99", "5", "0.5" and "120". |
| DecimalFormat.RejectedExamples | shared/schema.ts:85 | The pattern rejects "", ".5", "1.234", "-1", "1.", "1,50" and " 5". |
| Schema.InsertRule | shared/schema.ts:69-75 | A column becomes a field rule: it keeps the column's kind, it is nullable exactly when the column is nullable, and it is optional exactly when the column is nullable or has a default. |
| Schema.CreateInsertSchema | shared/schema.ts:58-62 | `createInsertSchema` has a field for exactly the table's columns, each with its column's rule. |
| Schema.Omit | shared/schema.ts:75 | `.omit` removes exactly the named fields and keeps every other rule. |
| Schema.MakePartial | server/routes.ts:200 | `.partial()` keeps the same fields and makes each one optional; its kind and nullability stay. |
| Schema.InsertUserSchemaDerived | shared/schema.ts:58-62 | `insertUserSchema` is the derivation from the users table without `id` and `createdAt`. |
| Schema.InsertCourseSchemaDerived | shared/schema.ts:69-75 | `insertCourseSchema` is the derivation from the courses table without `id`, `createdAt` and `updatedAt`. |
| Schema.InsertExperienceSchemaDerived | shared/schema.ts:77-81 | `insertExperienceSchema` is the derivation without `id`, the timestamps and `currentAttendees`. |
| Schema.InsertPurchaseSchemaDerived | shared/schema.ts:83-86 | `insertPurchaseSchema` is the derivation from the purchases table without `id` and `createdAt`. |
| Schema.Lookup | server/routes.ts:54 | Gives the value of a body member, or none exactly when the body lacks it. |
| Schema.KindOk | shared/schema.ts:69-75 | A JSON value passes a kind only if it is a string, boolean or number; no JSON value passes `z.date()`; every string kind demands a string. |
| Schema.FieldOk | shared/schema.ts:69-75 | A missing member passes exactly when the field is optional, and a null one exactly when it is nullable. A date field passes only when its member is missing or null. |
| Schema.Accepts | server/routes.ts:54 | An accepted body has every required field, a null only where the field is nullable, and every other value of the field's kind. |
| Schema.LevelMayBeNull | shared/schema.ts:74 | The course schema's `level` is the derived rule of its nullable column, so it may be left out or set to null. |
| Schema.Issues | server/routes.ts:78-80 | The fields reported on failure are fields of the schema, and there are none exactly when the schema accepts the body. |
| Schema.Stripped | server/routes.ts:54 | A successful parse keeps exactly the schema's fields that the body supplied, with the body's values. |
| Schema.Parse | server/routes.ts:54 | `parse` succeeds exactly when every field rule holds, and then returns the stripped body. Otherwise it fails with a non-empty set of failing fields. |
| Schema.UnknownMembersIgnored | server/routes.ts:186 | Members outside the schema do not affect the outcome of a parse. |
| Schema.PartialChecksPresentFields | server/routes.ts:200 | A partial schema accepts a body exactly when every field the body supplies passes that field's original rule. |
| Schema.PartialIsWeaker | server/routes.ts:248 | Whatever the full schema accepts, the partial schema accepts with the same output. The empty body is an accepted, empty patch. |
| Schema.UserAndPurchaseServerFieldsOmitted | shared/schema.ts:58-62 | `id` and `createdAt` are not fields of the user or purchase payloads. |
| Schema.CourseAndExperienceServerFieldsOmitted | shared/schema.ts:75-81 | `id`, `createdAt` and `updatedAt` are not course or experience payload fields, and `currentAttendees` is not an experience payload field. |
| Schema.CourseServerFieldsIgnored | shared/schema.ts:75 | A body's `id`, `createdAt` and `updatedAt` change nothing in the course parse, on create and on update. |
| Schema.ExperienceServerFieldsIgnored | shared/schema.ts:81 | A body's `id`, timestamps and `currentAttendees` change nothing in the experience parse, on create and on update. |
| Schema.PurchaseSchemaRules | shared/schema.ts:83-86 | An accepted purchase body has an item type of "course" or "experience", a decimal amount and string user and item ids, and at most a string or null payment reference. |
| Schema.PurchaseSchemaRejects | shared/schema.ts:84-85 | A wrong item type, a three-decimal amount and a missing item id are each rejected. |
| Payloads.DecodeInsertUser | shared/schema.ts:58-62 | Succeeds exactly when the schema accepts the body, and otherwise returns the schema's issues. On success the email passes the check, the password has at least 8 characters and the name at least 1. Written back as JSON, the payload equals the stripped body. |
| Payloads.DecodeInsertUserEncode | shared/schema.ts:58-62 | A well-formed registration payload, written as JSON, decodes to itself. |
| Payloads.DecodeCredentials | shared/schema.ts:64-67 | The login parse succeeds exactly when the schema accepts the body. The email passes the check, and both credentials are the body's strings. |
| Payloads.DecodeInsertCourse | shared/schema.ts:69-75 | Succeeds exactly when the schema accepts the body. The title and description are non-empty, the price matches the decimal pattern, the category is masterclass, video or membership, and a level, if given, is beginner, intermediate or advanced. The payload written back equals the stripped body. |
| Payloads.DecodeInsertCourseEncode | shared/schema.ts:69-75 | A well-formed course payload, written as JSON, decodes to itself. |
| Payloads.DecodeCoursePatch | server/routes.ts:200 | Succeeds exactly when the partial schema accepts the body. Every supplied field still obeys its rule, and the patch written back equals the stripped body. |
| Payloads.DecodeCoursePatchEncode | server/routes.ts:200 | A well-formed course patch, written as JSON, decodes to itself. |
| Payloads.DecodeInsertExperience | shared/schema.ts:77-81 | Succeeds exactly when the schema accepts the body. The title and description are non-empty, the price is decimal, and the date is never a value. The payload written back equals the stripped body. |
| Payloads.DecodeInsertExperienceEncode | shared/schema.ts:77-81 | A well-formed experience payload, written as JSON, decodes to itself. |
| Payloads.DecodeExperiencePatch | server/routes.ts:248 | Succeeds exactly when the partial schema accepts the body. Every supplied field still obeys its rule, and the patch written back equals the stripped body. |
| Payloads.DecodeExperiencePatchEncode | server/routes.ts:248 | A well-formed experience patch, written as JSON, decodes to itself. |
| Storage.NewUser | server/storage.ts:65-75 | A created user has the payload's email, password and name, the fresh id and the clock, and is never an administrator, whatever the payload says. |
| Storage.NewCourse | server/storage.ts:90-102 | A created course has the supplied `isPublished`, or true when it is absent. `createdAt` equals `updatedAt`, which is the clock, and the id is fresh. Every other field is the payload's. |
| Storage.NewExperience | server/storage.ts:134-147 | A created experience has `currentAttendees` 0 and the supplied `isPublished`, or true. Both timestamps are the clock. |
| Storage.NewPurchase | server/storage.ts:167-177 | A created purchase has status "completed", the fresh id and the clock, whatever the input says. It takes the input's user id and keeps every other member unchanged. |
| Storage.PatchCourse | server/storage.ts:108-112 | Every supplied field overwrites, including an explicit null, and every absent one is kept. `id` and `createdAt` are kept, and `updatedAt` is the clock. |
| Storage.PatchExperience | server/storage.ts:153-157 | Merges a patch as for courses, and never changes `currentAttendees`. |
| Storage.Over | server/storage.ts:96 | `data.isPublished ?? true`, and spread of a non-nullable member: a supplied value wins, otherwise the previous one is kept. |
| Storage.OverField | server/storage.ts:108-111 | Spread of a nullable member: a supplied value or explicit null overwrites, and an absent member keeps the previous field. |
| Storage.MemStorage.constructor | server/storage.ts:47-52 | The store starts with four empty tables. |
| Storage.MemStorage.GetUser | server/storage.ts:55-57 | Returns the user under the id, or none exactly when there is none. |
| Storage.MemStorage.GetUserByEmail | server/storage.ts:59-63 | Returns the first user, in insertion order, with that email: it sits under its own id and no earlier user has the email. It returns none exactly when no user has that email. |
| Storage.MemStorage.CreateUser | server/storage.ts:65-75 | Stores the built user under the fresh id and leaves the other tables unchanged. |
| Storage.MemStorage.GetAllCourses | server/storage.ts:78-80 | Returns every course, in insertion order. |
| Storage.MemStorage.GetPublishedCourses | server/storage.ts:82-84 | Returns exactly the published courses, in the order of `GetAllCourses`. |
| Storage.MemStorage.GetCourse | server/storage.ts:86-88 | Returns the course under the id, or none exactly when there is none. |
| Storage.MemStorage.CreateCourse | server/storage.ts:90-102 | Stores the built course under the fresh id, last in the listing. No other course or table changes. |
| Storage.MemStorage.UpdateCourse | server/storage.ts:104-115 | For an unknown id it returns none and the table is unchanged. Otherwise it returns the merged course, stored in place, and no other entry changes. |
| Storage.MemStorage.DeleteCourse | server/storage.ts:117-119 | Returns true exactly when the id was present. Afterwards the id is absent and all else is kept; for an absent id the table is unchanged, order included. |
| Storage.MemStorage.GetAllExperiences | server/storage.ts:122-124 | Returns every experience, in insertion order. |
| Storage.MemStorage.GetPublishedExperiences | server/storage.ts:126-128 | Returns exactly the published experiences, in the order of `GetAllExperiences`. |
| Storage.MemStorage.GetExperience | server/storage.ts:130-132 | Returns the experience under the id, or none exactly when there is none. |
| Storage.MemStorage.CreateExperience | server/storage.ts:134-147 | Stores the built experience under the fresh id, last in the listing. No other entry changes. |
| Storage.MemStorage.UpdateExperience | server/storage.ts:149-160 | For an unknown id it returns none with the table unchanged. Otherwise it stores the merged experience in place. |
| Storage.MemStorage.DeleteExperience | server/storage.ts:162-164 | Returns true exactly when the id was present. Afterwards the id is absent and all else is kept; for an absent id the table is unchanged, order included. |
| Storage.MemStorage.CreatePurchase | server/storage.ts:167-177 | Stores the built purchase under the fresh id, and no other table changes. |
| Storage.MemStorage.GetUserPurchases | server/storage.ts:179-181 | Returns exactly the stored purchases whose `userId` is the given one, in insertion order. |
| Storage.MemStorage.GetPurchase | server/storage.ts:183-185 | Returns the purchase under the id, or none exactly when there is none. |
| Storage.PatchCourseMembers | server/storage.ts:108-112 | A member the patch supplies becomes the course's member, and a member it leaves out keeps the course's. |
| Storage.PatchExperienceMembers | server/storage.ts:153-157 | Does the same for experiences. |
| Storage.CourseUpdateFollowsBody | server/routes.ts:198-205 | After an accepted update body, each field the body supplies has the body's value and each other field its old value. The id and `createdAt` are kept, and `updatedAt` is the clock. |
| Storage.ExperienceUpdateFollowsBody | server/routes.ts:246-253 | Does the same for experiences; `currentAttendees` is never touched. |
| Storage.EmptyPatchOnlyTouchesUpdatedAt | server/storage.ts:108-112 | Merging the empty patch changes only `updatedAt`. |
| Storage.PatchIdempotent | server/storage.ts:153-157 | Applying the same patch twice at the same instant is applying it once. |
| Storage.FullPatchIsCreate | server/storage.ts:90-115 | A patch supplying every field gives the course that creation would, under the old id and creation time. |
| Storage.DeleteCourseTwice | server/storage.ts:117-119 | Deleting a present course twice gives true, then false. |
| Routes.WithoutPassword | server/routes.ts:75 | The user as returned to the client: every member but the password. |
| Routes.SignedIn | server/routes.ts:28 | The truthiness test on `req.session.userId`: signed in needs an id, and the empty string does not count. |
| Routes.RequireAuth | server/routes.ts:27-32 | Rejects with 401 "Unauthorized" exactly when the session has no user id. It never looks the user up. |
| Routes.RequireAdmin | server/routes.ts:35-46 | Gives 401 without a session user id, and 403 when that user is missing or not an administrator. It proceeds exactly when the user exists and is an administrator. |
| Routes.AdminGateImpliesAuthGate | server/routes.ts:27-46 | Whoever passes the admin gate passes the auth gate, and both reject a missing session alike. |
| Routes.Me | server/routes.ts:127-139 | Gives 401 without a session and 404 when the session user is gone. It gives 200 with the user, without password, exactly when that user exists. |
| Routes.ListCourses | server/routes.ts:144-147 | Returns exactly the published courses, to anyone, in the store's order. |
| Routes.ShowCourse | server/routes.ts:150-156 | Gives 200 with the course exactly when it exists and is published. Otherwise it gives 404 "Course not found". |
| Routes.ListExperiences | server/routes.ts:161-164 | Returns exactly the published experiences, to anyone, in the store's order. |
| Routes.ShowExperience | server/routes.ts:167-173 | Gives 200 exactly when the experience exists and is published. Otherwise it gives 404 "Experience not found". |
| Routes.ListingAgreesWithShow | server/routes.ts:144-156 | A stored course is in the public listing exactly when its single-item route answers 200. |
| Routes.AdminListCourses | server/routes.ts:178-181 | Returns the gate's response, or every course, published or not, to an administrator. |
| Routes.AdminListExperiences | server/routes.ts:226-229 | Returns the gate's response, or every experience, to an administrator. |
| Routes.ListPurchases | server/routes.ts:274-277 | Gives 401 without a session. Otherwise it returns exactly the session user's purchases, in the order they were made. |
| Routes.AddingFreshEmailKeepsUnique | server/routes.ts:57-60 | Adding a user whose email nobody has keeps emails unique. |
| Routes.AddingNonAdminKeepsNoAdmins | server/storage.ts:65-75 | Adding a user who is no administrator keeps the users table free of administrators. |
| Routes.FreshEmailSoleHolder | server/routes.ts:57-66 | After adding a user whose email nobody had, no other user holds that email. |
| Routes.AdminRoutesClosedWithoutAdmins | server/routes.ts:35-46 | On a store holding no administrator, which registration preserves, the admin gate rejects everyone: 401 without a session, 403 with one. |
| Routes.Register | server/routes.ts:52-83 | A body that fails validation gives 400 with the issues and changes nothing. An email already registered gives 400 "Email already registered" and changes nothing. Otherwise the hashed password is stored, the user is never an administrator, and the session user id is the new id. The reply is the user without password. Email uniqueness and the absence of administrators are preserved. |
| Routes.Authenticate | server/routes.ts:91-100 | The login succeeds with exactly `getUserByEmail`'s result, the first user holding the email, and only when the password check accepts that user's password. |
| Routes.AuthenticateFindsTheUser | server/routes.ts:91-100 | When one user alone holds the email (as unique emails guarantee), a login finds that user, and succeeds exactly when that user's password matches. |
| Routes.Login | server/routes.ts:86-114 | A body that fails validation gives 400 with the issues. An unknown email and a wrong password both give 401 "Invalid credentials", and neither touches the session. On success the session user id is the user's and the reply omits the password. |
| Routes.AdminCreateCourse | server/routes.ts:184-195 | The gate's response comes first. An invalid body gives 400 and changes nothing. Otherwise the built course is stored and returned. |
| Routes.AdminUpdateCourse | server/routes.ts:198-212 | The gate comes first, then 400 for an invalid body. An absent id gives 404 "Course not found" with the store unchanged. Otherwise the merged course is stored and returned. |
| Routes.AdminDeleteCourse | server/routes.ts:215-221 | The gate comes first. An absent id gives 404 with the courses table unchanged, order included. Otherwise it gives `{ success: true }`, and the table is the `Map.delete` of the id: the course is gone and the others keep their order. |
| Routes.AdminCreateExperience | server/routes.ts:232-243 | The gate comes first, then 400 for an invalid body. Otherwise the built experience is stored and returned. |
| Routes.AdminUpdateExperience | server/routes.ts:246-260 | The gate comes first, then 400, then 404 "Experience not found" with the store unchanged. Otherwise the merged experience is stored, and its attendee count is kept. |
| Routes.AdminDeleteExperience | server/routes.ts:263-269 | The gate comes first. An absent id gives 404 with the experiences table unchanged, order included. Otherwise it gives `{ success: true }`, and the table is the `Map.delete` of the id, the others keeping their order. |
| Routes.CreatePurchase | server/routes.ts:280-290 | Gives 401 without a session. Otherwise the purchase's `userId` is the session's, even when the body supplies another. Its status is "completed", and every body member other than `id`, `userId`, `status` and `createdAt` is stored as sent; those four are the server's. |
| Routes.PurchaseBodyNotValidated | server/routes.ts:280-290 | The purchase route stores a body that `insertPurchaseSchema` would reject. |
| Routes.LoginBodyOfRegistration | shared/schema.ts:64-67 | The email and password of a valid registration form make an accepted login form. |
| Routes.RegisterThenLogin | server/routes.ts:52-114 | On any store, registering a new email and then logging in with the same password both answer 200, provided the password check accepts a hash of the password. The session then holds the new id. |
| Routes.LoginAs | server/routes.ts:86-114 | Logging in with a registration's email and password answers 200 with that user and signs them in, when they alone hold the email and their stored password passes the check. |

## Left out

- Logout (server/routes.ts:117-124) is not modelled: it only calls the session store's `destroy` callback.
- The 500 responses of the `catch` blocks are not modelled. `MemStorage` never throws, and a failure of hashing is a foreign call the model does not see.
- The `IStorage` interface (server/storage.ts:13-39) is a type only. The `storage` singleton (server/storage.ts:188) is module wiring.
- server/db.ts, the database tables as a store, and the React client are not part of this model.
- Express routing, `async`/`await`, JSON serialisation of responses, `createServer` and bcrypt's cost factor are framework or I/O behaviour and are not modelled.
- Request bodies that are not JSON objects are not modelled.
- JSON numbers are integers only. Under drizzle-zod 0.5 an integer column such as `maxAttendees` becomes a plain `z.number()`, so the source accepts and stores a fractional value such as 2.5. The model cannot represent such a value.
- String lengths count characters of a Dafny string, not UTF-16 code units.
- A zod error list is modelled as the set of failing field names, without messages or paths.
- The unique constraint on `users.email` is a database constraint that `MemStorage` lacks. The model proves that each registration, taken as one step, keeps emails unique (`Routes.Register`, whose contract preserves `Routes.UniqueEmails`).
- Routes.Register: handlers are modelled as atomic steps. In the source the duplicate check and `createUser` are separated by `await bcrypt.hash`, so two overlapping registrations for the same email can both pass the check and both be stored. Uniqueness is proved only for registrations that do not overlap.
- Schema.InsertCourseSchema: drizzle-zod 0.6 and later use a refinement exactly as written, so `level` is optional but not nullable there, and `{"level": null}` is rejected with 400. The model follows 0.5 and accepts it (`Schema.LevelMayBeNull`). Those versions also bound integer columns such as `maxAttendees` to 32 bits, which the model does not.
- Storage.MemStorage.GetAllCourses: the order of the listing after a delete is stated for the table's keys (`OrderedMaps.OMap.Delete`, and `Routes.AdminDeleteCourse` gives the table as that delete). It is not carried through to the value lists of `GetAllCourses` and `GetAllExperiences`.
- The purchase statuses "pending" and "refunded" appear only in a comment; nothing enforces them, so they are not modelled.
