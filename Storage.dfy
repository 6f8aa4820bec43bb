/**
 * `MemStorage`, the in-memory store behind every route: four id-keyed tables
 * (users, courses, experiences, purchases), each an insertion-ordered map as
 * JavaScript's `Map` is. Records are built by object spread, so the record
 * builders below say which members come from the caller and which the store
 * forces (a fresh id, the clock, `isAdmin = false`, `status = "completed"`,
 * `currentAttendees = 0`, `isPublished ?? true`).
 *
 * `randomUUID()` and `new Date()` are not modelled: the id and the clock value
 * are parameters, the id with the requirement that it is not yet a key of its
 * table.
 */
module Storage {
  import opened Wrappers
  import opened JsonValues
  import opened OrderedMaps
  import opened Schema
  import opened Payloads

  // ---------------------------------------------------------------- object spread

  /** `{...old, ...update}` for one member whose absence the update can express only by leaving it out. */
  function Over<T>(update: Option<T>, previous: T): (r: T)
    ensures update.Some? ==> r == update.value
    ensures update.None? ==> r == previous
  {
    if update.Some? then update.value else previous
  }

  /** `{...old, ...update}` for one nullable member: an explicit null overwrites, an absent one does not. */
  function OverField<T>(update: Field<T>, previous: Field<T>): (r: Field<T>)
    ensures !update.Absent? ==> r == update
    ensures update.Absent? ==> r == previous
  {
    if update.Absent? then previous else update
  }

  // ---------------------------------------------------------------- records the store builds

  /** `createUser`: the payload's members, a fresh id and the clock; never an administrator. */
  function NewUser(data: InsertUser, id: string, now: Timestamp): (u: User)
    ensures u.id == id && u.createdAt == now
    ensures u.email == data.email && u.password == data.password && u.name == data.name
    ensures !u.isAdmin
  {
    User(id, data.email, data.password, data.name, DefaultIsAdmin, now)
  }

  /** `createCourse`: published unless the payload says otherwise; created and updated at the same instant. */
  function NewCourse(data: InsertCourse, id: string, now: Timestamp): (c: Course)
    ensures c.id == id
    ensures data.isPublished.Some? ==> c.isPublished == data.isPublished.value
    ensures data.isPublished.None? ==> c.isPublished
    ensures c.createdAt == now && c.updatedAt == c.createdAt
    ensures c.title == data.title && c.description == data.description && c.price == data.price
    ensures c.longDescription == data.longDescription && c.image == data.image
    ensures c.category == data.category && c.duration == data.duration && c.level == data.level
  {
    Course(id, data.title, data.description, data.longDescription, data.price, data.image,
           data.category, data.duration, data.level, Over(data.isPublished, DefaultIsPublished), now, now)
  }

  /** `createExperience`: no attendees yet, published unless the payload says otherwise. */
  function NewExperience(data: InsertExperience, id: string, now: Timestamp): (e: Experience)
    ensures e.id == id
    ensures e.currentAttendees == 0
    ensures data.isPublished.Some? ==> e.isPublished == data.isPublished.value
    ensures data.isPublished.None? ==> e.isPublished
    ensures e.createdAt == now && e.updatedAt == e.createdAt
    ensures e.title == data.title && e.description == data.description && e.price == data.price
    ensures e.longDescription == data.longDescription && e.image == data.image && e.date == data.date
    ensures e.location == data.location && e.maxAttendees == data.maxAttendees
  {
    Experience(id, data.title, data.description, data.longDescription, data.price, data.image,
               data.date, data.location, data.maxAttendees, DefaultCurrentAttendees,
               Over(data.isPublished, DefaultIsPublished), now, now)
  }

  /** The members of a purchase record that `createPurchase` sets itself, over whatever the input holds. */
  const ServerPurchaseMembers: set<string> := {"id", "userId", "status", "createdAt"}

  /**
   * `createPurchase`: every member of the input is kept, except that the id,
   * the status ("completed") and the creation time are the store's own. The
   * user id is the input's.
   */
  function NewPurchase(input: Body, id: string, now: Timestamp): (p: Purchase)
    requires "userId" in input && input["userId"].JStr?
    ensures p.id == id && p.createdAt == now
    ensures p.status == "completed"
    ensures p.userId == input["userId"].s
    ensures p.details.Keys == input.Keys - ServerPurchaseMembers
    ensures forall k :: k in p.details ==> p.details[k] == input[k]
  {
    Purchase(id, input["userId"].s, DefaultStatus, now, input - ServerPurchaseMembers)
  }

  /** `updateCourse`'s merge `{...course, ...updates, updatedAt: now}`. */
  function PatchCourse(c: Course, p: CoursePatch, now: Timestamp): (r: Course)
    ensures r.id == c.id && r.createdAt == c.createdAt && r.updatedAt == now
    ensures r.title == Over(p.title, c.title) && r.description == Over(p.description, c.description)
    ensures r.price == Over(p.price, c.price) && r.category == Over(p.category, c.category)
    ensures r.isPublished == Over(p.isPublished, c.isPublished)
    ensures r.longDescription == OverField(p.longDescription, c.longDescription)
    ensures r.image == OverField(p.image, c.image)
    ensures r.duration == OverField(p.duration, c.duration)
    ensures r.level == OverField(p.level, c.level)
  {
    c.(title := Over(p.title, c.title),
       description := Over(p.description, c.description),
       longDescription := OverField(p.longDescription, c.longDescription),
       price := Over(p.price, c.price),
       image := OverField(p.image, c.image),
       category := Over(p.category, c.category),
       duration := OverField(p.duration, c.duration),
       level := OverField(p.level, c.level),
       isPublished := Over(p.isPublished, c.isPublished),
       updatedAt := now)
  }

  /** `updateExperience`'s merge; a patch has no `currentAttendees` member, so the count is kept. */
  function PatchExperience(e: Experience, p: ExperiencePatch, now: Timestamp): (r: Experience)
    ensures r.id == e.id && r.createdAt == e.createdAt && r.updatedAt == now
    ensures r.currentAttendees == e.currentAttendees
    ensures r.title == Over(p.title, e.title) && r.description == Over(p.description, e.description)
    ensures r.price == Over(p.price, e.price) && r.isPublished == Over(p.isPublished, e.isPublished)
    ensures r.longDescription == OverField(p.longDescription, e.longDescription)
    ensures r.image == OverField(p.image, e.image) && r.date == OverField(p.date, e.date)
    ensures r.location == OverField(p.location, e.location)
    ensures r.maxAttendees == OverField(p.maxAttendees, e.maxAttendees)
  {
    e.(title := Over(p.title, e.title),
       description := Over(p.description, e.description),
       longDescription := OverField(p.longDescription, e.longDescription),
       price := Over(p.price, e.price),
       image := OverField(p.image, e.image),
       date := OverField(p.date, e.date),
       location := OverField(p.location, e.location),
       maxAttendees := OverField(p.maxAttendees, e.maxAttendees),
       isPublished := Over(p.isPublished, e.isPublished),
       updatedAt := now)
  }

  /** The patch an empty JSON body decodes to. */
  const NoCourseChange: CoursePatch := CoursePatch(None, None, Absent, None, Absent, None, Absent, Absent, None)
  const NoExperienceChange: ExperiencePatch :=
    ExperiencePatch(None, None, Absent, None, Absent, Absent, Absent, Absent, None)

  // ---------------------------------------------------------------- the store

  class MemStorage {
    var users: OMap<User>
    var courses: OMap<Course>
    var experiences: OMap<Experience>
    var purchases: OMap<Purchase>

    /** Every table is a well-formed ordered map, and each record sits under its own id. */
    ghost predicate Valid()
      reads this
    {
      && users.Valid() && courses.Valid() && experiences.Valid() && purchases.Valid()
      && (forall id :: id in users.entries ==> users.entries[id].id == id)
      && (forall id :: id in courses.entries ==> courses.entries[id].id == id)
      && (forall id :: id in experiences.entries ==> experiences.entries[id].id == id)
      && (forall id :: id in purchases.entries ==> purchases.entries[id].id == id)
    }

    constructor ()
      ensures Valid()
      ensures users.entries == map[] && courses.entries == map[]
      ensures experiences.entries == map[] && purchases.entries == map[]
    {
      users := Empty();
      courses := Empty();
      experiences := Empty();
      purchases := Empty();
    }

    // -------------------------------------------------------------- users

    /** `getUser`: `users.get(id)`. */
    function GetUser(id: string): (r: Option<User>)
      reads this
      ensures r.Some? <==> id in users.entries
      ensures r.Some? ==> r.value == users.entries[id]
    {
      if id in users.entries then Some(users.entries[id]) else None
    }

    /** Position `i` of the users table holds a user with `email`, and no earlier position does. */
    ghost predicate FirstWithEmail(i: int, email: string)
      reads this
      requires Valid()
    {
      && 0 <= i < |users.keys|
      && users.entries[users.keys[i]].email == email
      && forall j :: 0 <= j < i ==> users.entries[users.keys[j]].email != email
    }

    /** `getUserByEmail`: the first user, in insertion order, with that email; none iff no user has it. */
    function GetUserByEmail(email: string): (r: Option<User>)
      reads this
      requires Valid()
      ensures r.Some? ==> r.value.email == email && r.value in users.entries.Values
      ensures r.Some? ==> r.value.id in users.entries && users.entries[r.value.id] == r.value
      ensures r.None? <==> forall u :: u in users.entries.Values ==> u.email != email
      ensures r.Some? ==> exists i :: FirstWithEmail(i, email) && users.entries[users.keys[i]] == r.value
    {
      var r := Find(users.Values(), (u: User) => u.email == email);
      if r.Some? then
        var u := r.value;
        assert exists id :: id in users.entries && users.entries[id] == u;
        r
      else r
    }

    method CreateUser(data: InsertUser, id: string, now: Timestamp) returns (user: User)
      requires Valid() && id !in users.entries
      modifies this
      ensures Valid()
      ensures user == NewUser(data, id, now)
      ensures users == old(users).Set(id, user)
      ensures courses == old(courses) && experiences == old(experiences) && purchases == old(purchases)
    {
      user := NewUser(data, id, now);
      users := users.Set(id, user);
    }

    // -------------------------------------------------------------- courses

    /** `getAllCourses`: every course, in insertion order. */
    function GetAllCourses(): (r: seq<Course>)
      reads this
      requires Valid()
      ensures |r| == |courses.keys|
      ensures forall i :: 0 <= i < |r| ==> r[i] == courses.entries[courses.keys[i]]
      ensures forall c :: c in r <==> c in courses.entries.Values
    {
      courses.Values()
    }

    /** `getPublishedCourses`: exactly the published courses, each one also in `GetAllCourses`. */
    function GetPublishedCourses(): (r: seq<Course>)
      reads this
      requires Valid()
      ensures forall c :: c in r <==> c in courses.entries.Values && c.isPublished
      ensures forall c :: c in r ==> c in GetAllCourses()
      ensures IsSubsequence(r, GetAllCourses())
      ensures |r| <= |GetAllCourses()|
    {
      Filter(GetAllCourses(), (c: Course) => c.isPublished)
    }

    /** `getCourse`. */
    function GetCourse(id: string): (r: Option<Course>)
      reads this
      ensures r.Some? <==> id in courses.entries
      ensures r.Some? ==> r.value == courses.entries[id]
    {
      if id in courses.entries then Some(courses.entries[id]) else None
    }

    method CreateCourse(data: InsertCourse, id: string, now: Timestamp) returns (course: Course)
      requires Valid() && id !in courses.entries
      modifies this
      ensures Valid()
      ensures course == NewCourse(data, id, now)
      ensures courses == old(courses).Set(id, course)
      ensures GetAllCourses() == old(GetAllCourses()) + [course]
      ensures users == old(users) && experiences == old(experiences) && purchases == old(purchases)
    {
      course := NewCourse(data, id, now);
      SetFreshAppends(courses, id, course);
      courses := courses.Set(id, course);
    }

    /** `updateCourse`: undefined, and nothing changes, when the id is unknown; otherwise the merged course, in place. */
    method UpdateCourse(id: string, updates: CoursePatch, now: Timestamp) returns (r: Option<Course>)
      requires Valid()
      modifies this
      ensures Valid()
      ensures id !in old(courses.entries) ==> r.None? && courses == old(courses)
      ensures id in old(courses.entries) ==>
        && r == Some(PatchCourse(old(courses.entries[id]), updates, now))
        && courses == old(courses).Set(id, r.value)
        && courses.keys == old(courses.keys)
      ensures users == old(users) && experiences == old(experiences) && purchases == old(purchases)
    {
      if id !in courses.entries {
        return None;
      }
      var updated := PatchCourse(courses.entries[id], updates, now);
      courses := courses.Set(id, updated);
      r := Some(updated);
    }

    /** `deleteCourse`: whether the id was there; afterwards it is not. */
    method DeleteCourse(id: string) returns (deleted: bool)
      requires Valid()
      modifies this
      ensures Valid()
      ensures deleted <==> id in old(courses.entries)
      ensures courses == old(courses).Delete(id).0
      ensures courses.entries == old(courses.entries) - {id}
      ensures !deleted ==> courses == old(courses)
      ensures users == old(users) && experiences == old(experiences) && purchases == old(purchases)
    {
      var (rest, present) := courses.Delete(id);
      courses := rest;
      deleted := present;
    }

    // -------------------------------------------------------------- experiences

    /** `getAllExperiences`: every experience, in insertion order. */
    function GetAllExperiences(): (r: seq<Experience>)
      reads this
      requires Valid()
      ensures |r| == |experiences.keys|
      ensures forall i :: 0 <= i < |r| ==> r[i] == experiences.entries[experiences.keys[i]]
      ensures forall e :: e in r <==> e in experiences.entries.Values
    {
      experiences.Values()
    }

    /** `getPublishedExperiences`: exactly the published experiences, each one also in `GetAllExperiences`. */
    function GetPublishedExperiences(): (r: seq<Experience>)
      reads this
      requires Valid()
      ensures forall e :: e in r <==> e in experiences.entries.Values && e.isPublished
      ensures forall e :: e in r ==> e in GetAllExperiences()
      ensures IsSubsequence(r, GetAllExperiences())
      ensures |r| <= |GetAllExperiences()|
    {
      Filter(GetAllExperiences(), (e: Experience) => e.isPublished)
    }

    /** `getExperience`. */
    function GetExperience(id: string): (r: Option<Experience>)
      reads this
      ensures r.Some? <==> id in experiences.entries
      ensures r.Some? ==> r.value == experiences.entries[id]
    {
      if id in experiences.entries then Some(experiences.entries[id]) else None
    }

    method CreateExperience(data: InsertExperience, id: string, now: Timestamp) returns (experience: Experience)
      requires Valid() && id !in experiences.entries
      modifies this
      ensures Valid()
      ensures experience == NewExperience(data, id, now)
      ensures experiences == old(experiences).Set(id, experience)
      ensures GetAllExperiences() == old(GetAllExperiences()) + [experience]
      ensures users == old(users) && courses == old(courses) && purchases == old(purchases)
    {
      experience := NewExperience(data, id, now);
      SetFreshAppends(experiences, id, experience);
      experiences := experiences.Set(id, experience);
    }

    /** `updateExperience`: as `UpdateCourse`. */
    method UpdateExperience(id: string, updates: ExperiencePatch, now: Timestamp) returns (r: Option<Experience>)
      requires Valid()
      modifies this
      ensures Valid()
      ensures id !in old(experiences.entries) ==> r.None? && experiences == old(experiences)
      ensures id in old(experiences.entries) ==>
        && r == Some(PatchExperience(old(experiences.entries[id]), updates, now))
        && experiences == old(experiences).Set(id, r.value)
        && experiences.keys == old(experiences.keys)
      ensures users == old(users) && courses == old(courses) && purchases == old(purchases)
    {
      if id !in experiences.entries {
        return None;
      }
      var updated := PatchExperience(experiences.entries[id], updates, now);
      experiences := experiences.Set(id, updated);
      r := Some(updated);
    }

    /** `deleteExperience`: whether the id was there; afterwards it is not. */
    method DeleteExperience(id: string) returns (deleted: bool)
      requires Valid()
      modifies this
      ensures Valid()
      ensures deleted <==> id in old(experiences.entries)
      ensures experiences == old(experiences).Delete(id).0
      ensures experiences.entries == old(experiences.entries) - {id}
      ensures !deleted ==> experiences == old(experiences)
      ensures users == old(users) && courses == old(courses) && purchases == old(purchases)
    {
      var (rest, present) := experiences.Delete(id);
      experiences := rest;
      deleted := present;
    }

    // -------------------------------------------------------------- purchases

    method CreatePurchase(input: Body, id: string, now: Timestamp) returns (purchase: Purchase)
      requires Valid() && id !in purchases.entries
      requires "userId" in input && input["userId"].JStr?
      modifies this
      ensures Valid()
      ensures purchase == NewPurchase(input, id, now)
      ensures purchases == old(purchases).Set(id, purchase)
      ensures users == old(users) && courses == old(courses) && experiences == old(experiences)
    {
      purchase := NewPurchase(input, id, now);
      purchases := purchases.Set(id, purchase);
    }

    /** `getUserPurchases`: exactly the purchases of that user. */
    function GetUserPurchases(userId: string): (r: seq<Purchase>)
      reads this
      requires Valid()
      ensures forall p :: p in r <==> p in purchases.entries.Values && p.userId == userId
      ensures IsSubsequence(r, purchases.Values())
    {
      Filter(purchases.Values(), (p: Purchase) => p.userId == userId)
    }

    /** `getPurchase`. */
    function GetPurchase(id: string): (r: Option<Purchase>)
      reads this
      ensures r.Some? <==> id in purchases.entries
      ensures r.Some? ==> r.value == purchases.entries[id]
    {
      if id in purchases.entries then Some(purchases.entries[id]) else None
    }
  }

  // ---------------------------------------------------------------- lemmas

  /** A stored course's payload fields as the JSON members a client sees. */
  function CourseMember(c: Course, k: string): Option<Json> {
    if k == "title" then TextJson(c.title)
    else if k == "description" then TextJson(c.description)
    else if k == "longDescription" then NullableTextJson(c.longDescription)
    else if k == "price" then TextJson(c.price)
    else if k == "image" then NullableTextJson(c.image)
    else if k == "category" then TextJson(c.category)
    else if k == "duration" then NullableTextJson(c.duration)
    else if k == "level" then NullableTextJson(c.level)
    else if k == "isPublished" then Some(JBool(c.isPublished))
    else None
  }

  /** A stored experience's payload fields as the JSON members a client sees; a date value has no JSON form. */
  function ExperienceMember(e: Experience, k: string): Option<Json> {
    if k == "title" then TextJson(e.title)
    else if k == "description" then TextJson(e.description)
    else if k == "longDescription" then NullableTextJson(e.longDescription)
    else if k == "price" then TextJson(e.price)
    else if k == "image" then NullableTextJson(e.image)
    else if k == "date" then NullableDateJson(e.date)
    else if k == "location" then NullableTextJson(e.location)
    else if k == "maxAttendees" then NullableIntJson(e.maxAttendees)
    else if k == "isPublished" then Some(JBool(e.isPublished))
    else None
  }

  /** Every member a course patch supplies overwrites the course's; every member it leaves out keeps the course's. */
  lemma PatchCourseMembers(c: Course, p: CoursePatch, now: Timestamp, k: string)
    requires k in CoursePatchSchema
    ensures CoursePatchMember(p, k).Some? ==> CourseMember(PatchCourse(c, p, now), k) == CoursePatchMember(p, k)
    ensures CoursePatchMember(p, k).None? ==> CourseMember(PatchCourse(c, p, now), k) == CourseMember(c, k)
  {
    CoursePatchKeys(k);
  }

  /** Every member an experience patch supplies overwrites the experience's; every member it leaves out keeps it. */
  lemma PatchExperienceMembers(e: Experience, p: ExperiencePatch, now: Timestamp, k: string)
    requires k in ExperiencePatchSchema
    requires !p.date.Val?
    ensures ExperiencePatchMember(p, k).Some? ==>
      ExperienceMember(PatchExperience(e, p, now), k) == ExperiencePatchMember(p, k)
    ensures ExperiencePatchMember(p, k).None? ==>
      ExperienceMember(PatchExperience(e, p, now), k) == ExperienceMember(e, k)
  {
    ExperiencePatchKeys(k);
  }

  /**
   * `PUT /api/admin/courses/:id` on a body the partial schema accepts: every
   * field the body supplies now has the body's value, every other field its old
   * one, the id and creation time are kept and `updatedAt` is the clock.
   */
  lemma CourseUpdateFollowsBody(c: Course, body: Body, now: Timestamp, k: string)
    requires DecodeCoursePatch(body).Success?
    requires k in CoursePatchSchema
    ensures var r := PatchCourse(c, DecodeCoursePatch(body).value, now);
      && (k in body ==> CourseMember(r, k) == Some(body[k]))
      && (k !in body ==> CourseMember(r, k) == CourseMember(c, k))
      && r.id == c.id && r.createdAt == c.createdAt && r.updatedAt == now
  {
    PatchCourseMembers(c, DecodeCoursePatch(body).value, now, k);
  }

  /** The same for `PUT /api/admin/experiences/:id`; the attendee count is never touched. */
  lemma ExperienceUpdateFollowsBody(e: Experience, body: Body, now: Timestamp, k: string)
    requires DecodeExperiencePatch(body).Success?
    requires k in ExperiencePatchSchema
    ensures var r := PatchExperience(e, DecodeExperiencePatch(body).value, now);
      && (k in body ==> ExperienceMember(r, k) == Some(body[k]))
      && (k !in body ==> ExperienceMember(r, k) == ExperienceMember(e, k))
      && r.id == e.id && r.createdAt == e.createdAt && r.updatedAt == now
      && r.currentAttendees == e.currentAttendees
  {
    PatchExperienceMembers(e, DecodeExperiencePatch(body).value, now, k);
  }

  /** Merging in the empty patch changes nothing but `updatedAt`. */
  lemma EmptyPatchOnlyTouchesUpdatedAt(c: Course, e: Experience, now: Timestamp)
    ensures PatchCourse(c, NoCourseChange, now) == c.(updatedAt := now)
    ensures PatchExperience(e, NoExperienceChange, now) == e.(updatedAt := now)
  {
  }

  /** Applying the same patch twice at the same instant is applying it once. */
  lemma PatchIdempotent(c: Course, p: CoursePatch, e: Experience, q: ExperiencePatch, now: Timestamp)
    ensures PatchCourse(PatchCourse(c, p, now), p, now) == PatchCourse(c, p, now)
    ensures PatchExperience(PatchExperience(e, q, now), q, now) == PatchExperience(e, q, now)
  {
  }

  /**
   * Patching with every field supplied gives the course the payload would
   * create, kept under the old id and creation time. A nullable field left out
   * of the patch would keep its old value instead.
   */
  lemma FullPatchIsCreate(c: Course, data: InsertCourse, now: Timestamp)
    requires data.isPublished.Some?
    requires !data.longDescription.Absent? && !data.image.Absent?
    requires !data.duration.Absent? && !data.level.Absent?
    ensures PatchCourse(c, CoursePatch(Some(data.title), Some(data.description), data.longDescription,
                                       Some(data.price), data.image, Some(data.category), data.duration,
                                       data.level, data.isPublished), now)
         == NewCourse(data, c.id, now).(createdAt := c.createdAt)
  {
  }

  /** Deleting the same course twice reports true, then false. */
  method DeleteCourseTwice(s: MemStorage, id: string) returns (first: bool, second: bool)
    requires s.Valid() && id in s.courses.entries
    modifies s
    ensures first && !second
    ensures id !in s.courses.entries
  {
    first := s.DeleteCourse(id);
    second := s.DeleteCourse(id);
  }
}
