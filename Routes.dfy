/**
 * The decision logic of the HTTP handlers registered by `registerRoutes`: the
 * two access gates, the read-only handlers as functions from the session's
 * user id and the store to a response, and the handlers that change the store
 * or the session as methods.
 *
 * A response is its status code and a reply: a record or list of records, a
 * user without its password, `{ success: true }`, `{ error: message }`, or the
 * validation failure, given by the set of fields that failed.
 *
 * The session is an object with one field, `userId`. `bcrypt.hash`,
 * `bcrypt.compare`, zod's email check, `randomUUID()` and `new Date()` are
 * parameters.
 */
module Routes {
  import opened Wrappers
  import opened JsonValues
  import opened OrderedMaps
  import opened Schema
  import opened Payloads
  import opened Storage

  // ---------------------------------------------------------------- sessions and responses

  class Session {
    var userId: Option<string>

    constructor (userId: Option<string>)
      ensures this.userId == userId
    {
      this.userId := userId;
    }
  }

  /** `req.session.userId` is truthy: present and not the empty string. */
  predicate SignedIn(userId: Option<string>): (r: bool)
    ensures r ==> userId.Some?
    ensures userId == Some("") ==> !r
  {
    userId.Some? && userId.value != ""
  }

  /** A user as the client sees it: every member but the password. */
  datatype PublicUser = PublicUser(id: string, email: string, name: string, isAdmin: bool, createdAt: Timestamp)

  /** `const { password, ...userWithoutPassword } = user`. */
  function WithoutPassword(u: User): (p: PublicUser)
    ensures p.id == u.id && p.email == u.email && p.name == u.name
    ensures p.isAdmin == u.isAdmin && p.createdAt == u.createdAt
  {
    PublicUser(u.id, u.email, u.name, u.isAdmin, u.createdAt)
  }

  datatype Reply =
    | UserReply(user: PublicUser)
    | CourseReply(course: Course)
    | CoursesReply(courses: seq<Course>)
    | ExperienceReply(experience: Experience)
    | ExperiencesReply(experiences: seq<Experience>)
    | PurchaseReply(purchase: Purchase)
    | PurchasesReply(purchases: seq<Purchase>)
    | SuccessReply                      // { success: true }
    | ErrorReply(message: string)       // { error: message }
    | IssuesReply(fields: set<string>)  // { error: error.errors }

  datatype Response = Response(status: int, reply: Reply)

  function Ok(reply: Reply): Response {
    Response(200, reply)
  }

  const Unauthorized := "Unauthorized"
  const AdminRequired := "Forbidden - Admin access required"
  const EmailTaken := "Email already registered"
  const InvalidCredentials := "Invalid credentials"
  const NotAuthenticated := "Not authenticated"
  const UserNotFound := "User not found"
  const CourseNotFound := "Course not found"
  const ExperienceNotFound := "Experience not found"

  // ---------------------------------------------------------------- gates

  /** The outcome of a middleware: call the handler, or answer now. */
  datatype Gate = Next | Halt(response: Response)

  /** `requireAuth`: 401 exactly when the session has no user id; it does not look the user up. */
  function RequireAuth(userId: Option<string>): (g: Gate)
    ensures g.Halt? <==> !SignedIn(userId)
    ensures g.Halt? ==> g.response == Response(401, ErrorReply(Unauthorized))
  {
    if !SignedIn(userId) then Halt(Response(401, ErrorReply(Unauthorized))) else Next
  }

  /** `requireAdmin`: 401 without a session user id, 403 when that user is gone or is no administrator. */
  function RequireAdmin(userId: Option<string>, s: MemStorage): (g: Gate)
    reads s
    ensures !SignedIn(userId) ==> g == Halt(Response(401, ErrorReply(Unauthorized)))
    ensures SignedIn(userId) && (userId.value !in s.users.entries || !s.users.entries[userId.value].isAdmin)
        ==> g == Halt(Response(403, ErrorReply(AdminRequired)))
    ensures g.Next? <==> SignedIn(userId) && userId.value in s.users.entries && s.users.entries[userId.value].isAdmin
  {
    if !SignedIn(userId) then Halt(Response(401, ErrorReply(Unauthorized)))
    else
      var user := s.GetUser(userId.value);
      if user.None? || !user.value.isAdmin then Halt(Response(403, ErrorReply(AdminRequired)))
      else Next
  }

  /** An administrator passes `requireAuth` too: the admin gate is the stricter one. */
  lemma AdminGateImpliesAuthGate(userId: Option<string>, s: MemStorage)
    ensures RequireAdmin(userId, s).Next? ==> RequireAuth(userId).Next?
    ensures RequireAuth(userId).Halt? ==> RequireAdmin(userId, s) == RequireAuth(userId)
  {
  }

  // ---------------------------------------------------------------- read-only handlers

  /** `GET /api/auth/me`. */
  function Me(userId: Option<string>, s: MemStorage): (r: Response)
    reads s
    ensures !SignedIn(userId) ==> r == Response(401, ErrorReply(NotAuthenticated))
    ensures SignedIn(userId) && userId.value !in s.users.entries ==> r == Response(404, ErrorReply(UserNotFound))
    ensures r.status == 200 <==> SignedIn(userId) && userId.value in s.users.entries
    ensures r.status == 200 ==> r.reply == UserReply(WithoutPassword(s.users.entries[userId.value]))
  {
    if !SignedIn(userId) then Response(401, ErrorReply(NotAuthenticated))
    else match s.GetUser(userId.value)
      case None => Response(404, ErrorReply(UserNotFound))
      case Some(user) => Ok(UserReply(WithoutPassword(user)))
  }

  /** `GET /api/courses`: exactly the published courses, to anyone. */
  function ListCourses(s: MemStorage): (r: Response)
    reads s
    requires s.Valid()
    ensures r.status == 200 && r.reply.CoursesReply?
    ensures forall c :: c in r.reply.courses <==> c in s.courses.entries.Values && c.isPublished
    ensures IsSubsequence(r.reply.courses, s.GetAllCourses())
  {
    Ok(CoursesReply(s.GetPublishedCourses()))
  }

  /** `GET /api/courses/:id`: 404 for an unknown and for an unpublished course alike. */
  function ShowCourse(id: string, s: MemStorage): (r: Response)
    reads s
    ensures r.status == 200 <==> id in s.courses.entries && s.courses.entries[id].isPublished
    ensures r.status == 200 ==> r.reply == CourseReply(s.courses.entries[id])
    ensures r.status != 200 ==> r == Response(404, ErrorReply(CourseNotFound))
  {
    match s.GetCourse(id)
    case Some(course) =>
      if course.isPublished then Ok(CourseReply(course)) else Response(404, ErrorReply(CourseNotFound))
    case None => Response(404, ErrorReply(CourseNotFound))
  }

  /** `GET /api/experiences`: exactly the published experiences, to anyone. */
  function ListExperiences(s: MemStorage): (r: Response)
    reads s
    requires s.Valid()
    ensures r.status == 200 && r.reply.ExperiencesReply?
    ensures forall e :: e in r.reply.experiences <==> e in s.experiences.entries.Values && e.isPublished
    ensures IsSubsequence(r.reply.experiences, s.GetAllExperiences())
  {
    Ok(ExperiencesReply(s.GetPublishedExperiences()))
  }

  /** `GET /api/experiences/:id`: 404 for an unknown and for an unpublished experience alike. */
  function ShowExperience(id: string, s: MemStorage): (r: Response)
    reads s
    ensures r.status == 200 <==> id in s.experiences.entries && s.experiences.entries[id].isPublished
    ensures r.status == 200 ==> r.reply == ExperienceReply(s.experiences.entries[id])
    ensures r.status != 200 ==> r == Response(404, ErrorReply(ExperienceNotFound))
  {
    match s.GetExperience(id)
    case Some(experience) =>
      if experience.isPublished then Ok(ExperienceReply(experience))
      else Response(404, ErrorReply(ExperienceNotFound))
    case None => Response(404, ErrorReply(ExperienceNotFound))
  }

  /** `GET /api/admin/courses`: every course, published or not, to an administrator only. */
  function AdminListCourses(userId: Option<string>, s: MemStorage): (r: Response)
    reads s
    requires s.Valid()
    ensures RequireAdmin(userId, s).Halt? ==> r == RequireAdmin(userId, s).response
    ensures RequireAdmin(userId, s).Next? ==> r == Ok(CoursesReply(s.GetAllCourses()))
  {
    match RequireAdmin(userId, s)
    case Halt(response) => response
    case Next => Ok(CoursesReply(s.GetAllCourses()))
  }

  /** `GET /api/admin/experiences`. */
  function AdminListExperiences(userId: Option<string>, s: MemStorage): (r: Response)
    reads s
    requires s.Valid()
    ensures RequireAdmin(userId, s).Halt? ==> r == RequireAdmin(userId, s).response
    ensures RequireAdmin(userId, s).Next? ==> r == Ok(ExperiencesReply(s.GetAllExperiences()))
  {
    match RequireAdmin(userId, s)
    case Halt(response) => response
    case Next => Ok(ExperiencesReply(s.GetAllExperiences()))
  }

  /** `GET /api/purchases`: the session user's own purchases and no one else's. */
  function ListPurchases(userId: Option<string>, s: MemStorage): (r: Response)
    reads s
    requires s.Valid()
    ensures !SignedIn(userId) ==> r == Response(401, ErrorReply(Unauthorized))
    ensures SignedIn(userId) ==> r.status == 200 && r.reply.PurchasesReply?
    ensures SignedIn(userId) ==>
      forall p :: p in r.reply.purchases <==> p in s.purchases.entries.Values && p.userId == userId.value
    ensures SignedIn(userId) ==> IsSubsequence(r.reply.purchases, s.purchases.Values())
  {
    match RequireAuth(userId)
    case Halt(response) => response
    case Next => Ok(PurchasesReply(s.GetUserPurchases(userId.value)))
  }

  /** A public listing never shows what the single-item route would hide. */
  lemma ListingAgreesWithShow(s: MemStorage, id: string)
    requires s.Valid()
    requires id in s.courses.entries
    ensures s.courses.entries[id] in ListCourses(s).reply.courses <==> ShowCourse(id, s).status == 200
  {
    assert s.courses.entries[id] in s.courses.entries.Values;
  }

  // ---------------------------------------------------------------- authentication

  /** No two users share an email. */
  ghost predicate UniqueEmailsIn(users: map<string, User>) {
    forall a, b :: a in users && b in users && users[a].email == users[b].email ==> a == b
  }

  /** What the duplicate check of `POST /api/auth/register` maintains. */
  ghost predicate UniqueEmails(s: MemStorage)
    reads s
  {
    UniqueEmailsIn(s.users.entries)
  }

  /** Adding a user whose email no one has keeps emails unique. */
  lemma AddingFreshEmailKeepsUnique(users: map<string, User>, id: string, user: User)
    requires UniqueEmailsIn(users)
    requires forall u :: u in users.Values ==> u.email != user.email
    ensures UniqueEmailsIn(users[id := user])
  {
    forall a | a in users && a != id ensures users[a].email != user.email {
      assert users[a] in users.Values;
    }
  }

  /**
   * No stored user is an administrator. It holds of the empty store, and
   * registration keeps it: `createUser` never stores an administrator and
   * nothing else writes the users table.
   */
  ghost predicate NoAdmins(s: MemStorage)
    reads s
  {
    forall id :: id in s.users.entries ==> !s.users.entries[id].isAdmin
  }

  /** On a store without administrators every admin route answers 401 or 403. */
  lemma AdminRoutesClosedWithoutAdmins(userId: Option<string>, s: MemStorage)
    requires NoAdmins(s)
    ensures RequireAdmin(userId, s).Halt?
    ensures SignedIn(userId) ==> RequireAdmin(userId, s) == Halt(Response(403, ErrorReply(AdminRequired)))
  {
  }

  /** Adding a user who is no administrator keeps the table free of administrators. */
  lemma AddingNonAdminKeepsNoAdmins(users: map<string, User>, id: string, user: User, after: map<string, User>)
    requires forall k :: k in users ==> !users[k].isAdmin
    requires !user.isAdmin && after == users[id := user]
    ensures forall k :: k in after ==> !after[k].isAdmin
  {
  }

  /** After adding a user whose email nobody had, that user is the email's only holder. */
  lemma FreshEmailSoleHolder(users: map<string, User>, id: string, user: User, after: map<string, User>)
    requires forall u :: u in users.Values ==> u.email != user.email
    requires after == users[id := user]
    ensures forall k :: k in after && k != id ==> after[k].email != user.email
  {
    forall k | k in after && k != id
      ensures after[k].email != user.email
    {
      assert users[k] in users.Values;
    }
  }

  /** `POST /api/auth/register`. */
  method Register(body: Body, isEmail: string -> bool, hash: string -> string, id: string, now: Timestamp,
                  s: MemStorage, session: Session) returns (r: Response)
    requires s.Valid() && id !in s.users.entries
    modifies s, session
    ensures s.Valid()
    ensures s.courses == old(s.courses) && s.experiences == old(s.experiences) && s.purchases == old(s.purchases)
    ensures DecodeInsertUser(body, isEmail).Failure? ==>
      && r == Response(400, IssuesReply(DecodeInsertUser(body, isEmail).error))
      && s.users == old(s.users) && session.userId == old(session.userId)
    ensures DecodeInsertUser(body, isEmail).Success? && old(s.GetUserByEmail(DecodeInsertUser(body, isEmail).value.email)).Some? ==>
      && r == Response(400, ErrorReply(EmailTaken))
      && s.users == old(s.users) && session.userId == old(session.userId)
    ensures r.status == 200 <==>
      DecodeInsertUser(body, isEmail).Success? && old(s.GetUserByEmail(DecodeInsertUser(body, isEmail).value.email)).None?
    ensures r.status == 200 ==>
      var data := DecodeInsertUser(body, isEmail).value;
      var user := NewUser(data.(password := hash(data.password)), id, now);
      && s.users == old(s.users).Set(id, user)
      && user.password == hash(data.password) && !user.isAdmin
      && session.userId == Some(id)
      && r == Ok(UserReply(WithoutPassword(user)))
    ensures old(UniqueEmails(s)) ==> UniqueEmails(s)
    ensures old(NoAdmins(s)) ==> NoAdmins(s)
  {
    var parsed := DecodeInsertUser(body, isEmail);
    if parsed.Failure? {
      return Response(400, IssuesReply(parsed.error));
    }
    var data := parsed.value;
    var existing := s.GetUserByEmail(data.email);
    if existing.Some? {
      return Response(400, ErrorReply(EmailTaken));
    }
    var hashedPassword := hash(data.password);
    if UniqueEmails(s) {
      AddingFreshEmailKeepsUnique(s.users.entries, id, NewUser(data.(password := hashedPassword), id, now));
    }
    if NoAdmins(s) {
      ghost var user := NewUser(data.(password := hashedPassword), id, now);
      AddingNonAdminKeepsNoAdmins(s.users.entries, id, user, s.users.entries[id := user]);
    }
    var user := s.CreateUser(data.(password := hashedPassword), id, now);
    session.userId := Some(user.id);
    r := Ok(UserReply(WithoutPassword(user)));
  }

  /** `bcrypt.compare`'s verdict on a login: the first user with that email, if the password matches theirs. */
  function Authenticate(c: Credentials, verify: (string, string) -> bool, s: MemStorage): (r: Option<User>)
    reads s
    requires s.Valid()
    ensures r.Some? ==> r.value.email == c.email && verify(c.password, r.value.password)
    ensures r.Some? ==> r.value.id in s.users.entries && s.users.entries[r.value.id] == r.value
    ensures r.Some? ==> r == s.GetUserByEmail(c.email)
    ensures r.None? <==> s.GetUserByEmail(c.email).None? || !verify(c.password, s.GetUserByEmail(c.email).value.password)
  {
    match s.GetUserByEmail(c.email)
    case None => None
    case Some(user) => if verify(c.password, user.password) then Some(user) else None
  }

  /**
   * When one user alone holds the email (as unique emails guarantee), a login
   * finds that user.
   */
  lemma AuthenticateFindsTheUser(c: Credentials, verify: (string, string) -> bool, s: MemStorage, id: string)
    requires s.Valid()
    requires id in s.users.entries && s.users.entries[id].email == c.email
    requires forall k :: k in s.users.entries && k != id ==> s.users.entries[k].email != c.email
    ensures Authenticate(c, verify, s).Some? <==> verify(c.password, s.users.entries[id].password)
    ensures Authenticate(c, verify, s).Some? ==> Authenticate(c, verify, s).value.id == id
  {
    assert s.users.entries[id] in s.users.entries.Values;
    var u := s.GetUserByEmail(c.email).value;
    assert s.users.entries[u.id] == u;
  }

  /** `POST /api/auth/login`: an unknown email and a wrong password are answered the same way. */
  method Login(body: Body, isEmail: string -> bool, verify: (string, string) -> bool,
               s: MemStorage, session: Session) returns (r: Response)
    requires s.Valid()
    modifies session
    ensures DecodeCredentials(body, isEmail).Failure? ==>
      && r == Response(400, IssuesReply(DecodeCredentials(body, isEmail).error))
      && session.userId == old(session.userId)
    ensures DecodeCredentials(body, isEmail).Success? && Authenticate(DecodeCredentials(body, isEmail).value, verify, s).None? ==>
      && r == Response(401, ErrorReply(InvalidCredentials))
      && session.userId == old(session.userId)
    ensures DecodeCredentials(body, isEmail).Success? && Authenticate(DecodeCredentials(body, isEmail).value, verify, s).Some? ==>
      var user := Authenticate(DecodeCredentials(body, isEmail).value, verify, s).value;
      && r == Ok(UserReply(WithoutPassword(user)))
      && session.userId == Some(user.id)
  {
    var parsed := DecodeCredentials(body, isEmail);
    if parsed.Failure? {
      return Response(400, IssuesReply(parsed.error));
    }
    var credentials := parsed.value;
    var user := s.GetUserByEmail(credentials.email);
    if user.None? {
      return Response(401, ErrorReply(InvalidCredentials));
    }
    var valid := verify(credentials.password, user.value.password);
    if !valid {
      return Response(401, ErrorReply(InvalidCredentials));
    }
    session.userId := Some(user.value.id);
    r := Ok(UserReply(WithoutPassword(user.value)));
  }

  // ---------------------------------------------------------------- admin course handlers

  /** `POST /api/admin/courses`. */
  method AdminCreateCourse(userId: Option<string>, body: Body, id: string, now: Timestamp, s: MemStorage)
    returns (r: Response)
    requires s.Valid() && id !in s.courses.entries
    modifies s
    ensures s.Valid()
    ensures s.users == old(s.users) && s.experiences == old(s.experiences) && s.purchases == old(s.purchases)
    ensures old(RequireAdmin(userId, s)).Halt? ==> r == old(RequireAdmin(userId, s)).response && s.courses == old(s.courses)
    ensures old(RequireAdmin(userId, s)).Next? && DecodeInsertCourse(body).Failure? ==>
      r == Response(400, IssuesReply(DecodeInsertCourse(body).error)) && s.courses == old(s.courses)
    ensures old(RequireAdmin(userId, s)).Next? && DecodeInsertCourse(body).Success? ==>
      var course := NewCourse(DecodeInsertCourse(body).value, id, now);
      r == Ok(CourseReply(course)) && s.courses == old(s.courses).Set(id, course)
  {
    var gate := RequireAdmin(userId, s);
    if gate.Halt? {
      return gate.response;
    }
    var parsed := DecodeInsertCourse(body);
    if parsed.Failure? {
      return Response(400, IssuesReply(parsed.error));
    }
    var course := s.CreateCourse(parsed.value, id, now);
    r := Ok(CourseReply(course));
  }

  /** `PUT /api/admin/courses/:id`: the body is checked before the id is looked up. */
  method AdminUpdateCourse(userId: Option<string>, courseId: string, body: Body, now: Timestamp, s: MemStorage)
    returns (r: Response)
    requires s.Valid()
    modifies s
    ensures s.Valid()
    ensures s.users == old(s.users) && s.experiences == old(s.experiences) && s.purchases == old(s.purchases)
    ensures old(RequireAdmin(userId, s)).Halt? ==> r == old(RequireAdmin(userId, s)).response && s.courses == old(s.courses)
    ensures old(RequireAdmin(userId, s)).Next? && DecodeCoursePatch(body).Failure? ==>
      r == Response(400, IssuesReply(DecodeCoursePatch(body).error)) && s.courses == old(s.courses)
    ensures old(RequireAdmin(userId, s)).Next? && DecodeCoursePatch(body).Success? && courseId !in old(s.courses.entries) ==>
      r == Response(404, ErrorReply(CourseNotFound)) && s.courses == old(s.courses)
    ensures old(RequireAdmin(userId, s)).Next? && DecodeCoursePatch(body).Success? && courseId in old(s.courses.entries) ==>
      var course := PatchCourse(old(s.courses.entries[courseId]), DecodeCoursePatch(body).value, now);
      r == Ok(CourseReply(course)) && s.courses == old(s.courses).Set(courseId, course)
  {
    var gate := RequireAdmin(userId, s);
    if gate.Halt? {
      return gate.response;
    }
    var parsed := DecodeCoursePatch(body);
    if parsed.Failure? {
      return Response(400, IssuesReply(parsed.error));
    }
    var course := s.UpdateCourse(courseId, parsed.value, now);
    if course.None? {
      return Response(404, ErrorReply(CourseNotFound));
    }
    r := Ok(CourseReply(course.value));
  }

  /** `DELETE /api/admin/courses/:id`. */
  method AdminDeleteCourse(userId: Option<string>, courseId: string, s: MemStorage) returns (r: Response)
    requires s.Valid()
    modifies s
    ensures s.Valid()
    ensures s.users == old(s.users) && s.experiences == old(s.experiences) && s.purchases == old(s.purchases)
    ensures old(RequireAdmin(userId, s)).Halt? ==> r == old(RequireAdmin(userId, s)).response && s.courses == old(s.courses)
    ensures old(RequireAdmin(userId, s)).Next? && courseId !in old(s.courses.entries) ==>
      r == Response(404, ErrorReply(CourseNotFound)) && s.courses == old(s.courses)
    ensures old(RequireAdmin(userId, s)).Next? && courseId in old(s.courses.entries) ==>
      r == Ok(SuccessReply) && s.courses.entries == old(s.courses.entries) - {courseId}
        && s.courses == old(s.courses).Delete(courseId).0
  {
    var gate := RequireAdmin(userId, s);
    if gate.Halt? {
      return gate.response;
    }
    var deleted := s.DeleteCourse(courseId);
    if !deleted {
      return Response(404, ErrorReply(CourseNotFound));
    }
    r := Ok(SuccessReply);
  }

  // ---------------------------------------------------------------- admin experience handlers

  /** `POST /api/admin/experiences`. */
  method AdminCreateExperience(userId: Option<string>, body: Body, id: string, now: Timestamp, s: MemStorage)
    returns (r: Response)
    requires s.Valid() && id !in s.experiences.entries
    modifies s
    ensures s.Valid()
    ensures s.users == old(s.users) && s.courses == old(s.courses) && s.purchases == old(s.purchases)
    ensures old(RequireAdmin(userId, s)).Halt? ==>
      r == old(RequireAdmin(userId, s)).response && s.experiences == old(s.experiences)
    ensures old(RequireAdmin(userId, s)).Next? && DecodeInsertExperience(body).Failure? ==>
      r == Response(400, IssuesReply(DecodeInsertExperience(body).error)) && s.experiences == old(s.experiences)
    ensures old(RequireAdmin(userId, s)).Next? && DecodeInsertExperience(body).Success? ==>
      var experience := NewExperience(DecodeInsertExperience(body).value, id, now);
      r == Ok(ExperienceReply(experience)) && s.experiences == old(s.experiences).Set(id, experience)
  {
    var gate := RequireAdmin(userId, s);
    if gate.Halt? {
      return gate.response;
    }
    var parsed := DecodeInsertExperience(body);
    if parsed.Failure? {
      return Response(400, IssuesReply(parsed.error));
    }
    var experience := s.CreateExperience(parsed.value, id, now);
    r := Ok(ExperienceReply(experience));
  }

  /** `PUT /api/admin/experiences/:id`. */
  method AdminUpdateExperience(userId: Option<string>, experienceId: string, body: Body, now: Timestamp, s: MemStorage)
    returns (r: Response)
    requires s.Valid()
    modifies s
    ensures s.Valid()
    ensures s.users == old(s.users) && s.courses == old(s.courses) && s.purchases == old(s.purchases)
    ensures old(RequireAdmin(userId, s)).Halt? ==>
      r == old(RequireAdmin(userId, s)).response && s.experiences == old(s.experiences)
    ensures old(RequireAdmin(userId, s)).Next? && DecodeExperiencePatch(body).Failure? ==>
      r == Response(400, IssuesReply(DecodeExperiencePatch(body).error)) && s.experiences == old(s.experiences)
    ensures (old(RequireAdmin(userId, s)).Next? && DecodeExperiencePatch(body).Success?
             && experienceId !in old(s.experiences.entries)) ==>
      r == Response(404, ErrorReply(ExperienceNotFound)) && s.experiences == old(s.experiences)
    ensures (old(RequireAdmin(userId, s)).Next? && DecodeExperiencePatch(body).Success?
             && experienceId in old(s.experiences.entries)) ==>
      var experience := PatchExperience(old(s.experiences.entries[experienceId]), DecodeExperiencePatch(body).value, now);
      && r == Ok(ExperienceReply(experience))
      && s.experiences == old(s.experiences).Set(experienceId, experience)
      && experience.currentAttendees == old(s.experiences.entries[experienceId].currentAttendees)
  {
    var gate := RequireAdmin(userId, s);
    if gate.Halt? {
      return gate.response;
    }
    var parsed := DecodeExperiencePatch(body);
    if parsed.Failure? {
      return Response(400, IssuesReply(parsed.error));
    }
    var experience := s.UpdateExperience(experienceId, parsed.value, now);
    if experience.None? {
      return Response(404, ErrorReply(ExperienceNotFound));
    }
    r := Ok(ExperienceReply(experience.value));
  }

  /** `DELETE /api/admin/experiences/:id`. */
  method AdminDeleteExperience(userId: Option<string>, experienceId: string, s: MemStorage) returns (r: Response)
    requires s.Valid()
    modifies s
    ensures s.Valid()
    ensures s.users == old(s.users) && s.courses == old(s.courses) && s.purchases == old(s.purchases)
    ensures old(RequireAdmin(userId, s)).Halt? ==>
      r == old(RequireAdmin(userId, s)).response && s.experiences == old(s.experiences)
    ensures old(RequireAdmin(userId, s)).Next? && experienceId !in old(s.experiences.entries) ==>
      r == Response(404, ErrorReply(ExperienceNotFound)) && s.experiences == old(s.experiences)
    ensures old(RequireAdmin(userId, s)).Next? && experienceId in old(s.experiences.entries) ==>
      r == Ok(SuccessReply) && s.experiences.entries == old(s.experiences.entries) - {experienceId}
        && s.experiences == old(s.experiences).Delete(experienceId).0
  {
    var gate := RequireAdmin(userId, s);
    if gate.Halt? {
      return gate.response;
    }
    var deleted := s.DeleteExperience(experienceId);
    if !deleted {
      return Response(404, ErrorReply(ExperienceNotFound));
    }
    r := Ok(SuccessReply);
  }

  // ---------------------------------------------------------------- purchases

  /**
   * `POST /api/purchases`: `{...req.body, userId: req.session.userId}` goes to
   * the store as it is; `insertPurchaseSchema` is not applied.
   */
  method CreatePurchase(userId: Option<string>, body: Body, id: string, now: Timestamp, s: MemStorage)
    returns (r: Response)
    requires s.Valid() && id !in s.purchases.entries
    modifies s
    ensures s.Valid()
    ensures s.users == old(s.users) && s.courses == old(s.courses) && s.experiences == old(s.experiences)
    ensures !SignedIn(userId) ==> r == Response(401, ErrorReply(Unauthorized)) && s.purchases == old(s.purchases)
    ensures SignedIn(userId) ==>
      var purchase := NewPurchase(body["userId" := JStr(userId.value)], id, now);
      && r == Ok(PurchaseReply(purchase))
      && s.purchases == old(s.purchases).Set(id, purchase)
      && purchase.userId == userId.value
      && purchase.status == "completed"
      && purchase.details == body - ServerPurchaseMembers
  {
    var gate := RequireAuth(userId);
    if gate.Halt? {
      return gate.response;
    }
    var input := body["userId" := JStr(userId.value)];
    var purchase := s.CreatePurchase(input, id, now);
    assert purchase.details == body - ServerPurchaseMembers;
    r := Ok(PurchaseReply(purchase));
  }

  /** The purchase route stores a body the purchase schema would turn away. */
  lemma PurchaseBodyNotValidated(userId: string, id: string, now: Timestamp, isEmail: string -> bool)
    ensures var body := map["itemType" := JStr("book"), "amount" := JStr("free")];
      && !Accepts(InsertPurchaseSchema, body["userId" := JStr(userId)], isEmail)
      && NewPurchase(body["userId" := JStr(userId)], id, now).details == body
  {
    var body := map["itemType" := JStr("book"), "amount" := JStr("free")];
    var input := body["userId" := JStr(userId)];
    assert !FieldOk(InsertPurchaseSchema["itemType"], Lookup(input, "itemType"), isEmail);
    assert input - ServerPurchaseMembers == body;
  }

  // ---------------------------------------------------------------- a client session

  /**
   * Registering and then logging in with the same body signs the new user in,
   * when the password check accepts the hash of a password.
   */
  method RegisterThenLogin(body: Body, isEmail: string -> bool, hash: string -> string,
                           verify: (string, string) -> bool, id: string, now: Timestamp,
                           s: MemStorage, session: Session) returns (registered: Response, loggedIn: Response)
    requires s.Valid() && id !in s.users.entries
    requires forall p :: verify(p, hash(p))
    requires DecodeInsertUser(body, isEmail).Success?
    requires s.GetUserByEmail(DecodeInsertUser(body, isEmail).value.email).None?
    modifies s, session
    ensures registered.status == 200 && loggedIn.status == 200
    ensures session.userId == Some(id)
  {
    ghost var before := s.users.entries;
    var data := DecodeInsertUser(body, isEmail).value;
    ghost var user := NewUser(data.(password := hash(data.password)), id, now);
    registered := Register(body, isEmail, hash, id, now, s, session);
    assert s.users.entries == before[id := user];
    FreshEmailSoleHolder(before, id, user, s.users.entries);
    loggedIn := LoginAs(data, isEmail, verify, id, s, session);
  }

  /**
   * Logging in with a registration form's email and password, when the user
   * under `id` is the only holder of that email and the password check
   * accepts their stored password, answers 200 and signs that user in.
   */
  method LoginAs(data: InsertUser, isEmail: string -> bool, verify: (string, string) -> bool, id: string,
                 s: MemStorage, session: Session) returns (r: Response)
    requires s.Valid() && data.WellFormed(isEmail)
    requires id in s.users.entries && s.users.entries[id].email == data.email
    requires forall k :: k in s.users.entries && k != id ==> s.users.entries[k].email != data.email
    requires verify(data.password, s.users.entries[id].password)
    modifies session
    ensures r == Ok(UserReply(WithoutPassword(s.users.entries[id])))
    ensures session.userId == Some(id)
  {
    var credentials := map["email" := JStr(data.email), "password" := JStr(data.password)];
    var c := Credentials(data.email, data.password);
    LoginBodyOfRegistration(data, isEmail);
    AuthenticateFindsTheUser(c, verify, s, id);
    r := Login(credentials, isEmail, verify, s, session);
  }

  /** The email and password of a registration form make a login form. */
  lemma LoginBodyOfRegistration(data: InsertUser, isEmail: string -> bool)
    requires data.WellFormed(isEmail)
    ensures var body := map["email" := JStr(data.email), "password" := JStr(data.password)];
      DecodeCredentials(body, isEmail) == Success(Credentials(data.email, data.password))
  {
    var body := map["email" := JStr(data.email), "password" := JStr(data.password)];
    assert "email" in LoginSchema && LoginSchema["email"] == Rule(EmailText, false, false);
    assert "password" in LoginSchema && LoginSchema["password"] == Rule(Text(0), false, false);
    assert Accepts(LoginSchema, body, isEmail) by {
      forall k | k in LoginSchema ensures FieldOk(LoginSchema[k], Lookup(body, k), isEmail) {
        assert k == "email" || k == "password";
      }
    }
  }
}
