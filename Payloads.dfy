/**
 * The typed payloads the handlers obtain from `insertUserSchema.parse`,
 * `loginSchema.parse`, `insertCourseSchema.parse`, `insertCourseSchema.partial().parse`
 * and the experience counterparts. Each decoder is tied to its schema twice
 * over: it succeeds exactly when the schema accepts the body, and the decoded
 * payload, written back as JSON, is exactly the schema's stripped output.
 * Conversely every well-formed payload written as JSON decodes to itself.
 */
module Payloads {
  import opened Wrappers
  import opened JsonValues
  import opened Schema
  import DecimalFormat

  // ---------------------------------------------------------------- payload types

  datatype InsertUser = InsertUser(email: string, password: string, name: string, isAdmin: Option<bool>) {
    predicate WellFormed(isEmail: string -> bool) {
      isEmail(email) && |password| >= 8 && |name| >= 1
    }
  }

  datatype Credentials = Credentials(email: string, password: string)

  datatype InsertCourse = InsertCourse(
    title: string, description: string, longDescription: Field<string>, price: string,
    image: Field<string>, category: string, duration: Field<string>, level: Field<string>,
    isPublished: Option<bool>)
  {
    predicate WellFormed() {
      && |title| >= 1 && |description| >= 1
      && DecimalFormat.IsDecimal(price)
      && category in Categories
      && (level.Val? ==> level.value in Levels)
    }
  }

  /** An update of a course: `None`/`Absent` where the body did not supply the field. */
  datatype CoursePatch = CoursePatch(
    title: Option<string>, description: Option<string>, longDescription: Field<string>,
    price: Option<string>, image: Field<string>, category: Option<string>,
    duration: Field<string>, level: Field<string>, isPublished: Option<bool>)
  {
    predicate WellFormed() {
      && (title.Some? ==> |title.value| >= 1)
      && (description.Some? ==> |description.value| >= 1)
      && (price.Some? ==> DecimalFormat.IsDecimal(price.value))
      && (category.Some? ==> category.value in Categories)
      && (level.Val? ==> level.value in Levels)
    }
  }

  datatype InsertExperience = InsertExperience(
    title: string, description: string, longDescription: Field<string>, price: string,
    image: Field<string>, date: Field<Timestamp>, location: Field<string>,
    maxAttendees: Field<int>, isPublished: Option<bool>)
  {
    /** A JSON body holds no Date object, so a decoded date is never a value. */
    predicate WellFormed() {
      && |title| >= 1 && |description| >= 1
      && DecimalFormat.IsDecimal(price)
      && !date.Val?
    }
  }

  datatype ExperiencePatch = ExperiencePatch(
    title: Option<string>, description: Option<string>, longDescription: Field<string>,
    price: Option<string>, image: Field<string>, date: Field<Timestamp>,
    location: Field<string>, maxAttendees: Field<int>, isPublished: Option<bool>)
  {
    predicate WellFormed() {
      && (title.Some? ==> |title.value| >= 1)
      && (description.Some? ==> |description.value| >= 1)
      && (price.Some? ==> DecimalFormat.IsDecimal(price.value))
      && !date.Val?
    }
  }

  // ---------------------------------------------------------------- JSON forms of fields

  function TextJson(s: string): (j: Option<Json>)
    ensures TextOf(j) == s
  {
    Some(JStr(s))
  }

  function MaybeTextJson(o: Option<string>): (j: Option<Json>)
    ensures MaybeText(j) == o
    ensures j.None? <==> o.None?
  {
    if o.Some? then Some(JStr(o.value)) else None
  }

  function NullableTextJson(f: Field<string>): (j: Option<Json>)
    ensures NullableText(j) == f
    ensures j.None? <==> f.Absent?
  {
    match f
    case Absent => None
    case Null => Some(JNull)
    case Val(s) => Some(JStr(s))
  }

  function MaybeBoolJson(o: Option<bool>): (j: Option<Json>)
    ensures MaybeBool(j) == o
    ensures j.None? <==> o.None?
  {
    if o.Some? then Some(JBool(o.value)) else None
  }

  function NullableIntJson(f: Field<int>): (j: Option<Json>)
    ensures NullableInt(j) == f
    ensures j.None? <==> f.Absent?
  {
    match f
    case Absent => None
    case Null => Some(JNull)
    case Val(n) => Some(JNum(n))
  }

  /** Only the null date has a JSON form. */
  function NullableDateJson(f: Field<Timestamp>): (j: Option<Json>)
    ensures !f.Val? ==> NullableDate(j) == f
    ensures j.None? <==> !f.Null?
  {
    if f.Null? then Some(JNull) else None
  }

  // ---------------------------------------------------------------- reading members

  function TextOf(v: Option<Json>): string {
    if v.Some? && v.value.JStr? then v.value.s else ""
  }

  function MaybeText(v: Option<Json>): Option<string> {
    if v.Some? && v.value.JStr? then Some(v.value.s) else None
  }

  function NullableText(v: Option<Json>): Field<string> {
    match v
    case Some(JNull) => Null
    case Some(JStr(s)) => Val(s)
    case _ => Absent
  }

  function MaybeBool(v: Option<Json>): Option<bool> {
    if v.Some? && v.value.JBool? then Some(v.value.b) else None
  }

  function NullableInt(v: Option<Json>): Field<int> {
    match v
    case Some(JNull) => Null
    case Some(JNum(n)) => Val(n)
    case _ => Absent
  }

  function NullableDate(v: Option<Json>): Field<Timestamp> {
    if v == Some(JNull) then Null else Absent
  }

  /** The JSON object whose member `k`, for each field `k` of `s`, is `member(k)`. */
  function ObjectOf(s: ObjectSchema, member: string -> Option<Json>): (b: Body)
    ensures b.Keys <= s.Keys
    ensures forall k :: k in s ==> Lookup(b, k) == member(k)
  {
    map k | k in s && member(k).Some? :: member(k).value
  }

  /** An object built field by field from exactly what a body supplies is the schema's stripped output. */
  lemma ObjectOfIsStripped(s: ObjectSchema, member: string -> Option<Json>, body: Body)
    requires forall k :: k in s ==> member(k) == Lookup(body, k)
    ensures ObjectOf(s, member) == Stripped(s, body)
  {
    var a, b := ObjectOf(s, member), Stripped(s, body);
    assert a.Keys == b.Keys by {
      forall k ensures k in a <==> k in b {
        if k in s {
          assert Lookup(a, k) == Lookup(body, k);
        }
      }
    }
    forall k | k in a ensures a[k] == b[k] {
      assert Lookup(a, k) == Lookup(body, k);
    }
  }

  // ---------------------------------------------------------------- users

  function InsertUserMember(x: InsertUser, k: string): Option<Json> {
    if k == "email" then TextJson(x.email)
    else if k == "password" then TextJson(x.password)
    else if k == "name" then TextJson(x.name)
    else if k == "isAdmin" then MaybeBoolJson(x.isAdmin)
    else None
  }

  function EncodeInsertUser(x: InsertUser): (b: Body)
    ensures forall k :: k in InsertUserSchema ==> Lookup(b, k) == InsertUserMember(x, k)
  {
    ObjectOf(InsertUserSchema, k => InsertUserMember(x, k))
  }

  /** Every field of `InsertUserSchema`, with its rule. */
  lemma InsertUserRules()
    ensures "email" in InsertUserSchema && InsertUserSchema["email"] == Rule(EmailText, false, false)
    ensures "password" in InsertUserSchema && InsertUserSchema["password"] == Rule(Text(8), false, false)
    ensures "name" in InsertUserSchema && InsertUserSchema["name"] == Rule(Text(1), false, false)
    ensures "isAdmin" in InsertUserSchema && InsertUserSchema["isAdmin"] == Rule(Boolean, true, false)
  {
  }

  /** The fields of `InsertUserSchema` are exactly these. */
  lemma InsertUserKeys(k: string)
    requires k in InsertUserSchema
    ensures k == "email" || k == "password" || k == "name" || k == "isAdmin"
  {
  }

  /** The payload read from an accepted body. */
  function ReadInsertUser(body: Body): InsertUser {
    InsertUser(
        TextOf(Lookup(body, "email")),
        TextOf(Lookup(body, "password")),
        TextOf(Lookup(body, "name")),
        MaybeBool(Lookup(body, "isAdmin")))
  }

  /** Each field of the payload read from an accepted body is the body's member for it. */
  lemma ReadInsertUserAgrees(body: Body, isEmail: string -> bool)
    requires Accepts(InsertUserSchema, body, isEmail)
    ensures forall k :: k in InsertUserSchema ==> InsertUserMember(ReadInsertUser(body), k) == Lookup(body, k)
  {
    InsertUserRules();
    forall k | k in InsertUserSchema ensures InsertUserMember(ReadInsertUser(body), k) == Lookup(body, k) {
      InsertUserKeys(k);
      assert FieldOk(InsertUserSchema[k], Lookup(body, k), isEmail);
    }
  }

  /** The payload read from an accepted body satisfies the schema's rules. */
  lemma ReadInsertUserWellFormed(body: Body, isEmail: string -> bool)
    requires Accepts(InsertUserSchema, body, isEmail)
    ensures ReadInsertUser(body).WellFormed(isEmail)
  {
    InsertUserRules();
    assert FieldOk(InsertUserSchema["email"], Lookup(body, "email"), isEmail);
    assert FieldOk(InsertUserSchema["password"], Lookup(body, "password"), isEmail);
    assert FieldOk(InsertUserSchema["name"], Lookup(body, "name"), isEmail);
  }

  /** `insertUserSchema.parse(req.body)`. */
  function DecodeInsertUser(body: Body, isEmail: string -> bool): (r: Result<InsertUser, set<string>>)
    ensures r.Success? <==> Accepts(InsertUserSchema, body, isEmail)
    ensures r.Failure? ==> r.error == Issues(InsertUserSchema, body, isEmail)
    ensures r.Success? ==> r.value.WellFormed(isEmail)
    ensures r.Success? ==> forall k :: k in InsertUserSchema ==> InsertUserMember(r.value, k) == Lookup(body, k)
    ensures r.Success? ==> EncodeInsertUser(r.value) == Stripped(InsertUserSchema, body)
  {
    if !Accepts(InsertUserSchema, body, isEmail) then Failure(Issues(InsertUserSchema, body, isEmail))
    else
      var x := ReadInsertUser(body);
      ReadInsertUserAgrees(body, isEmail);
      ReadInsertUserWellFormed(body, isEmail);
      ObjectOfIsStripped(InsertUserSchema, k => InsertUserMember(x, k), body);
      Success(x)
  }

  /** The JSON body written for a well-formed payload passes the schema. */
  lemma EncodeInsertUserAccepted(x: InsertUser, isEmail: string -> bool)
    requires x.WellFormed(isEmail)
    ensures Accepts(InsertUserSchema, EncodeInsertUser(x), isEmail)
  {
    var b := EncodeInsertUser(x);
    InsertUserRules();
    forall k | k in InsertUserSchema ensures FieldOk(InsertUserSchema[k], Lookup(b, k), isEmail) {
      InsertUserKeys(k);
    }
  }

  /** Reading back the JSON body written for a payload gives the payload. */
  lemma ReadInsertUserOfEncodeInsertUser(x: InsertUser)
    ensures ReadInsertUser(EncodeInsertUser(x)) == x
  {
    InsertUserRules();
    var b := EncodeInsertUser(x);
    assert Lookup(b, "email") == TextJson(x.email);
    assert Lookup(b, "password") == TextJson(x.password);
    assert Lookup(b, "name") == TextJson(x.name);
    assert Lookup(b, "isAdmin") == MaybeBoolJson(x.isAdmin);
  }

  /** A well-formed registration payload, written as a JSON body, decodes to itself. */
  lemma DecodeInsertUserEncode(x: InsertUser, isEmail: string -> bool)
    requires x.WellFormed(isEmail)
    ensures DecodeInsertUser(EncodeInsertUser(x), isEmail) == Success(x)
  {
    EncodeInsertUserAccepted(x, isEmail);
    ReadInsertUserOfEncodeInsertUser(x);
  }

  /** `loginSchema.parse(req.body)`. */
  function DecodeCredentials(body: Body, isEmail: string -> bool): (r: Result<Credentials, set<string>>)
    ensures r.Success? <==> Accepts(LoginSchema, body, isEmail)
    ensures r.Failure? ==> r.error == Issues(LoginSchema, body, isEmail)
    ensures r.Success? ==> isEmail(r.value.email)
    ensures r.Success? ==> Lookup(body, "email") == Some(JStr(r.value.email))
    ensures r.Success? ==> Lookup(body, "password") == Some(JStr(r.value.password))
  {
    if !Accepts(LoginSchema, body, isEmail) then Failure(Issues(LoginSchema, body, isEmail))
    else
      assert FieldOk(LoginSchema["email"], Lookup(body, "email"), isEmail);
      assert FieldOk(LoginSchema["password"], Lookup(body, "password"), isEmail);
      Success(Credentials(TextOf(Lookup(body, "email")), TextOf(Lookup(body, "password"))))
  }

  // ---------------------------------------------------------------- courses

  const CoursePatchSchema: ObjectSchema := MakePartial(InsertCourseSchema)

  function InsertCourseMember(x: InsertCourse, k: string): Option<Json> {
    if k == "title" then TextJson(x.title)
    else if k == "description" then TextJson(x.description)
    else if k == "longDescription" then NullableTextJson(x.longDescription)
    else if k == "price" then TextJson(x.price)
    else if k == "image" then NullableTextJson(x.image)
    else if k == "category" then TextJson(x.category)
    else if k == "duration" then NullableTextJson(x.duration)
    else if k == "level" then NullableTextJson(x.level)
    else if k == "isPublished" then MaybeBoolJson(x.isPublished)
    else None
  }

  function EncodeInsertCourse(x: InsertCourse): (b: Body)
    ensures forall k :: k in InsertCourseSchema ==> Lookup(b, k) == InsertCourseMember(x, k)
  {
    ObjectOf(InsertCourseSchema, k => InsertCourseMember(x, k))
  }

  /** Every field of `InsertCourseSchema`, with its rule. */
  lemma InsertCourseRules()
    ensures "title" in InsertCourseSchema && InsertCourseSchema["title"] == Rule(Text(1), false, false)
    ensures "description" in InsertCourseSchema && InsertCourseSchema["description"] == Rule(Text(1), false, false)
    ensures "longDescription" in InsertCourseSchema && InsertCourseSchema["longDescription"] == Rule(Text(0), true, true)
    ensures "price" in InsertCourseSchema && InsertCourseSchema["price"] == Rule(DecimalText, false, false)
    ensures "image" in InsertCourseSchema && InsertCourseSchema["image"] == Rule(Text(0), true, true)
    ensures "category" in InsertCourseSchema && InsertCourseSchema["category"] == Rule(OneOf(Categories), false, false)
    ensures "duration" in InsertCourseSchema && InsertCourseSchema["duration"] == Rule(Text(0), true, true)
    ensures "level" in InsertCourseSchema && InsertCourseSchema["level"] == Rule(OneOf(Levels), true, true)
    ensures "isPublished" in InsertCourseSchema && InsertCourseSchema["isPublished"] == Rule(Boolean, true, false)
  {
  }

  /** The fields of `InsertCourseSchema` are exactly these. */
  lemma InsertCourseKeys(k: string)
    requires k in InsertCourseSchema
    ensures k == "title" || k == "description" || k == "longDescription" || k == "price" || k == "image" || k == "category" || k == "duration" || k == "level" || k == "isPublished"
  {
  }

  /** The payload read from an accepted body. */
  function ReadInsertCourse(body: Body): InsertCourse {
    InsertCourse(
        TextOf(Lookup(body, "title")),
        TextOf(Lookup(body, "description")),
        NullableText(Lookup(body, "longDescription")),
        TextOf(Lookup(body, "price")),
        NullableText(Lookup(body, "image")),
        TextOf(Lookup(body, "category")),
        NullableText(Lookup(body, "duration")),
        NullableText(Lookup(body, "level")),
        MaybeBool(Lookup(body, "isPublished")))
  }

  /** Each field of the payload read from an accepted body is the body's member for it. */
  lemma ReadInsertCourseAgrees(body: Body)
    requires Accepts(InsertCourseSchema, body, NoEmail)
    ensures forall k :: k in InsertCourseSchema ==> InsertCourseMember(ReadInsertCourse(body), k) == Lookup(body, k)
  {
    InsertCourseRules();
    forall k | k in InsertCourseSchema ensures InsertCourseMember(ReadInsertCourse(body), k) == Lookup(body, k) {
      InsertCourseKeys(k);
      assert FieldOk(InsertCourseSchema[k], Lookup(body, k), NoEmail);
    }
  }

  /** The payload read from an accepted body satisfies the schema's rules. */
  lemma ReadInsertCourseWellFormed(body: Body)
    requires Accepts(InsertCourseSchema, body, NoEmail)
    ensures ReadInsertCourse(body).WellFormed()
  {
    InsertCourseRules();
    assert FieldOk(InsertCourseSchema["title"], Lookup(body, "title"), NoEmail);
    assert FieldOk(InsertCourseSchema["description"], Lookup(body, "description"), NoEmail);
    assert FieldOk(InsertCourseSchema["price"], Lookup(body, "price"), NoEmail);
    assert FieldOk(InsertCourseSchema["category"], Lookup(body, "category"), NoEmail);
    assert FieldOk(InsertCourseSchema["level"], Lookup(body, "level"), NoEmail);
  }

  /** `insertCourseSchema.parse(req.body)`. */
  function DecodeInsertCourse(body: Body): (r: Result<InsertCourse, set<string>>)
    ensures r.Success? <==> Accepts(InsertCourseSchema, body, NoEmail)
    ensures r.Failure? ==> r.error == Issues(InsertCourseSchema, body, NoEmail)
    ensures r.Success? ==> r.value.WellFormed()
    ensures r.Success? ==> forall k :: k in InsertCourseSchema ==> InsertCourseMember(r.value, k) == Lookup(body, k)
    ensures r.Success? ==> EncodeInsertCourse(r.value) == Stripped(InsertCourseSchema, body)
  {
    if !Accepts(InsertCourseSchema, body, NoEmail) then Failure(Issues(InsertCourseSchema, body, NoEmail))
    else
      var x := ReadInsertCourse(body);
      ReadInsertCourseAgrees(body);
      ReadInsertCourseWellFormed(body);
      ObjectOfIsStripped(InsertCourseSchema, k => InsertCourseMember(x, k), body);
      Success(x)
  }

  /** The JSON body written for a well-formed payload passes the schema. */
  lemma EncodeInsertCourseAccepted(x: InsertCourse)
    requires x.WellFormed()
    ensures Accepts(InsertCourseSchema, EncodeInsertCourse(x), NoEmail)
  {
    var b := EncodeInsertCourse(x);
    InsertCourseRules();
    forall k | k in InsertCourseSchema ensures FieldOk(InsertCourseSchema[k], Lookup(b, k), NoEmail) {
      InsertCourseKeys(k);
    }
  }

  /** Reading back the JSON body written for a payload gives the payload. */
  lemma ReadInsertCourseOfEncodeInsertCourse(x: InsertCourse)
    ensures ReadInsertCourse(EncodeInsertCourse(x)) == x
  {
    InsertCourseRules();
    var b := EncodeInsertCourse(x);
    assert Lookup(b, "title") == TextJson(x.title);
    assert Lookup(b, "description") == TextJson(x.description);
    assert Lookup(b, "longDescription") == NullableTextJson(x.longDescription);
    assert Lookup(b, "price") == TextJson(x.price);
    assert Lookup(b, "image") == NullableTextJson(x.image);
    assert Lookup(b, "category") == TextJson(x.category);
    assert Lookup(b, "duration") == NullableTextJson(x.duration);
    assert Lookup(b, "level") == NullableTextJson(x.level);
    assert Lookup(b, "isPublished") == MaybeBoolJson(x.isPublished);
  }

  /** A well-formed payload, written as a JSON body, decodes to itself. */
  lemma DecodeInsertCourseEncode(x: InsertCourse)
    requires x.WellFormed()
    ensures DecodeInsertCourse(EncodeInsertCourse(x)) == Success(x)
  {
    EncodeInsertCourseAccepted(x);
    ReadInsertCourseOfEncodeInsertCourse(x);
  }

  function CoursePatchMember(x: CoursePatch, k: string): Option<Json> {
    if k == "title" then MaybeTextJson(x.title)
    else if k == "description" then MaybeTextJson(x.description)
    else if k == "longDescription" then NullableTextJson(x.longDescription)
    else if k == "price" then MaybeTextJson(x.price)
    else if k == "image" then NullableTextJson(x.image)
    else if k == "category" then MaybeTextJson(x.category)
    else if k == "duration" then NullableTextJson(x.duration)
    else if k == "level" then NullableTextJson(x.level)
    else if k == "isPublished" then MaybeBoolJson(x.isPublished)
    else None
  }

  function EncodeCoursePatch(x: CoursePatch): (b: Body)
    ensures forall k :: k in CoursePatchSchema ==> Lookup(b, k) == CoursePatchMember(x, k)
  {
    ObjectOf(CoursePatchSchema, k => CoursePatchMember(x, k))
  }

  /** Every field of `CoursePatchSchema`, with its rule. */
  lemma CoursePatchRules()
    ensures "title" in CoursePatchSchema && CoursePatchSchema["title"] == Rule(Text(1), true, false)
    ensures "description" in CoursePatchSchema && CoursePatchSchema["description"] == Rule(Text(1), true, false)
    ensures "longDescription" in CoursePatchSchema && CoursePatchSchema["longDescription"] == Rule(Text(0), true, true)
    ensures "price" in CoursePatchSchema && CoursePatchSchema["price"] == Rule(DecimalText, true, false)
    ensures "image" in CoursePatchSchema && CoursePatchSchema["image"] == Rule(Text(0), true, true)
    ensures "category" in CoursePatchSchema && CoursePatchSchema["category"] == Rule(OneOf(Categories), true, false)
    ensures "duration" in CoursePatchSchema && CoursePatchSchema["duration"] == Rule(Text(0), true, true)
    ensures "level" in CoursePatchSchema && CoursePatchSchema["level"] == Rule(OneOf(Levels), true, true)
    ensures "isPublished" in CoursePatchSchema && CoursePatchSchema["isPublished"] == Rule(Boolean, true, false)
  {
  }

  /** The fields of `CoursePatchSchema` are exactly these. */
  lemma CoursePatchKeys(k: string)
    requires k in CoursePatchSchema
    ensures k == "title" || k == "description" || k == "longDescription" || k == "price" || k == "image" || k == "category" || k == "duration" || k == "level" || k == "isPublished"
  {
  }

  /** The payload read from an accepted body. */
  function ReadCoursePatch(body: Body): CoursePatch {
    CoursePatch(
        MaybeText(Lookup(body, "title")),
        MaybeText(Lookup(body, "description")),
        NullableText(Lookup(body, "longDescription")),
        MaybeText(Lookup(body, "price")),
        NullableText(Lookup(body, "image")),
        MaybeText(Lookup(body, "category")),
        NullableText(Lookup(body, "duration")),
        NullableText(Lookup(body, "level")),
        MaybeBool(Lookup(body, "isPublished")))
  }

  /** Each field of the payload read from an accepted body is the body's member for it. */
  lemma ReadCoursePatchAgrees(body: Body)
    requires Accepts(CoursePatchSchema, body, NoEmail)
    ensures forall k :: k in CoursePatchSchema ==> CoursePatchMember(ReadCoursePatch(body), k) == Lookup(body, k)
  {
    CoursePatchRules();
    forall k | k in CoursePatchSchema ensures CoursePatchMember(ReadCoursePatch(body), k) == Lookup(body, k) {
      CoursePatchKeys(k);
      assert FieldOk(CoursePatchSchema[k], Lookup(body, k), NoEmail);
    }
  }

  /** The payload read from an accepted body satisfies the schema's rules. */
  lemma ReadCoursePatchWellFormed(body: Body)
    requires Accepts(CoursePatchSchema, body, NoEmail)
    ensures ReadCoursePatch(body).WellFormed()
  {
    CoursePatchRules();
    assert FieldOk(CoursePatchSchema["title"], Lookup(body, "title"), NoEmail);
    assert FieldOk(CoursePatchSchema["description"], Lookup(body, "description"), NoEmail);
    assert FieldOk(CoursePatchSchema["price"], Lookup(body, "price"), NoEmail);
    assert FieldOk(CoursePatchSchema["category"], Lookup(body, "category"), NoEmail);
    assert FieldOk(CoursePatchSchema["level"], Lookup(body, "level"), NoEmail);
  }

  /** `insertCourseSchema.partial().parse(req.body)`. */
  function DecodeCoursePatch(body: Body): (r: Result<CoursePatch, set<string>>)
    ensures r.Success? <==> Accepts(CoursePatchSchema, body, NoEmail)
    ensures r.Failure? ==> r.error == Issues(CoursePatchSchema, body, NoEmail)
    ensures r.Success? ==> r.value.WellFormed()
    ensures r.Success? ==> forall k :: k in CoursePatchSchema ==> CoursePatchMember(r.value, k) == Lookup(body, k)
    ensures r.Success? ==> EncodeCoursePatch(r.value) == Stripped(CoursePatchSchema, body)
  {
    if !Accepts(CoursePatchSchema, body, NoEmail) then Failure(Issues(CoursePatchSchema, body, NoEmail))
    else
      var x := ReadCoursePatch(body);
      ReadCoursePatchAgrees(body);
      ReadCoursePatchWellFormed(body);
      ObjectOfIsStripped(CoursePatchSchema, k => CoursePatchMember(x, k), body);
      Success(x)
  }

  /** The JSON body written for a well-formed payload passes the schema. */
  lemma EncodeCoursePatchAccepted(x: CoursePatch)
    requires x.WellFormed()
    ensures Accepts(CoursePatchSchema, EncodeCoursePatch(x), NoEmail)
  {
    var b := EncodeCoursePatch(x);
    CoursePatchRules();
    forall k | k in CoursePatchSchema ensures FieldOk(CoursePatchSchema[k], Lookup(b, k), NoEmail) {
      CoursePatchKeys(k);
    }
  }

  /** The members of the JSON body written for a patch, first five fields. */
  lemma EncodeCoursePatchMembers(x: CoursePatch)
    ensures Lookup(EncodeCoursePatch(x), "title") == MaybeTextJson(x.title)
    ensures Lookup(EncodeCoursePatch(x), "description") == MaybeTextJson(x.description)
    ensures Lookup(EncodeCoursePatch(x), "longDescription") == NullableTextJson(x.longDescription)
    ensures Lookup(EncodeCoursePatch(x), "price") == MaybeTextJson(x.price)
    ensures Lookup(EncodeCoursePatch(x), "image") == NullableTextJson(x.image)
  {
    CoursePatchRules();
  }

  /** The members of the JSON body written for a patch, remaining fields. */
  lemma EncodeCoursePatchMoreMembers(x: CoursePatch)
    ensures Lookup(EncodeCoursePatch(x), "category") == MaybeTextJson(x.category)
    ensures Lookup(EncodeCoursePatch(x), "duration") == NullableTextJson(x.duration)
    ensures Lookup(EncodeCoursePatch(x), "level") == NullableTextJson(x.level)
    ensures Lookup(EncodeCoursePatch(x), "isPublished") == MaybeBoolJson(x.isPublished)
  {
    CoursePatchRules();
  }

  /** Reading back the JSON body written for a payload gives the payload. */
  lemma ReadCoursePatchOfEncodeCoursePatch(x: CoursePatch)
    ensures ReadCoursePatch(EncodeCoursePatch(x)) == x
  {
    EncodeCoursePatchMembers(x);
    EncodeCoursePatchMoreMembers(x);
  }


  /** A well-formed payload, written as a JSON body, decodes to itself. */
  lemma DecodeCoursePatchEncode(x: CoursePatch)
    requires x.WellFormed()
    ensures DecodeCoursePatch(EncodeCoursePatch(x)) == Success(x)
  {
    EncodeCoursePatchAccepted(x);
    ReadCoursePatchOfEncodeCoursePatch(x);
  }

  // ---------------------------------------------------------------- experiences

  const ExperiencePatchSchema: ObjectSchema := MakePartial(InsertExperienceSchema)

  function InsertExperienceMember(x: InsertExperience, k: string): Option<Json> {
    if k == "title" then TextJson(x.title)
    else if k == "description" then TextJson(x.description)
    else if k == "longDescription" then NullableTextJson(x.longDescription)
    else if k == "price" then TextJson(x.price)
    else if k == "image" then NullableTextJson(x.image)
    else if k == "date" then NullableDateJson(x.date)
    else if k == "location" then NullableTextJson(x.location)
    else if k == "maxAttendees" then NullableIntJson(x.maxAttendees)
    else if k == "isPublished" then MaybeBoolJson(x.isPublished)
    else None
  }

  function EncodeInsertExperience(x: InsertExperience): (b: Body)
    ensures forall k :: k in InsertExperienceSchema ==> Lookup(b, k) == InsertExperienceMember(x, k)
  {
    ObjectOf(InsertExperienceSchema, k => InsertExperienceMember(x, k))
  }

  /** Every field of `InsertExperienceSchema`, with its rule. */
  lemma InsertExperienceRules()
    ensures "title" in InsertExperienceSchema && InsertExperienceSchema["title"] == Rule(Text(1), false, false)
    ensures "description" in InsertExperienceSchema && InsertExperienceSchema["description"] == Rule(Text(1), false, false)
    ensures "longDescription" in InsertExperienceSchema && InsertExperienceSchema["longDescription"] == Rule(Text(0), true, true)
    ensures "price" in InsertExperienceSchema && InsertExperienceSchema["price"] == Rule(DecimalText, false, false)
    ensures "image" in InsertExperienceSchema && InsertExperienceSchema["image"] == Rule(Text(0), true, true)
    ensures "date" in InsertExperienceSchema && InsertExperienceSchema["date"] == Rule(DateObject, true, true)
    ensures "location" in InsertExperienceSchema && InsertExperienceSchema["location"] == Rule(Text(0), true, true)
    ensures "maxAttendees" in InsertExperienceSchema && InsertExperienceSchema["maxAttendees"] == Rule(Integer, true, true)
    ensures "isPublished" in InsertExperienceSchema && InsertExperienceSchema["isPublished"] == Rule(Boolean, true, false)
  {
  }

  /** The fields of `InsertExperienceSchema` are exactly these. */
  lemma InsertExperienceKeys(k: string)
    requires k in InsertExperienceSchema
    ensures k == "title" || k == "description" || k == "longDescription" || k == "price" || k == "image" || k == "date" || k == "location" || k == "maxAttendees" || k == "isPublished"
  {
  }

  /** The payload read from an accepted body. */
  function ReadInsertExperience(body: Body): InsertExperience {
    InsertExperience(
        TextOf(Lookup(body, "title")),
        TextOf(Lookup(body, "description")),
        NullableText(Lookup(body, "longDescription")),
        TextOf(Lookup(body, "price")),
        NullableText(Lookup(body, "image")),
        NullableDate(Lookup(body, "date")),
        NullableText(Lookup(body, "location")),
        NullableInt(Lookup(body, "maxAttendees")),
        MaybeBool(Lookup(body, "isPublished")))
  }

  /** Each field of the payload read from an accepted body is the body's member for it. */
  lemma ReadInsertExperienceAgrees(body: Body)
    requires Accepts(InsertExperienceSchema, body, NoEmail)
    ensures forall k :: k in InsertExperienceSchema ==> InsertExperienceMember(ReadInsertExperience(body), k) == Lookup(body, k)
  {
    InsertExperienceRules();
    forall k | k in InsertExperienceSchema ensures InsertExperienceMember(ReadInsertExperience(body), k) == Lookup(body, k) {
      InsertExperienceKeys(k);
      assert FieldOk(InsertExperienceSchema[k], Lookup(body, k), NoEmail);
    }
  }

  /** The payload read from an accepted body satisfies the schema's rules. */
  lemma ReadInsertExperienceWellFormed(body: Body)
    requires Accepts(InsertExperienceSchema, body, NoEmail)
    ensures ReadInsertExperience(body).WellFormed()
  {
    InsertExperienceRules();
    assert FieldOk(InsertExperienceSchema["title"], Lookup(body, "title"), NoEmail);
    assert FieldOk(InsertExperienceSchema["description"], Lookup(body, "description"), NoEmail);
    assert FieldOk(InsertExperienceSchema["price"], Lookup(body, "price"), NoEmail);
    assert FieldOk(InsertExperienceSchema["date"], Lookup(body, "date"), NoEmail);
  }

  /** `insertExperienceSchema.parse(req.body)`. */
  function DecodeInsertExperience(body: Body): (r: Result<InsertExperience, set<string>>)
    ensures r.Success? <==> Accepts(InsertExperienceSchema, body, NoEmail)
    ensures r.Failure? ==> r.error == Issues(InsertExperienceSchema, body, NoEmail)
    ensures r.Success? ==> r.value.WellFormed()
    ensures r.Success? ==> forall k :: k in InsertExperienceSchema ==> InsertExperienceMember(r.value, k) == Lookup(body, k)
    ensures r.Success? ==> EncodeInsertExperience(r.value) == Stripped(InsertExperienceSchema, body)
  {
    if !Accepts(InsertExperienceSchema, body, NoEmail) then Failure(Issues(InsertExperienceSchema, body, NoEmail))
    else
      var x := ReadInsertExperience(body);
      ReadInsertExperienceAgrees(body);
      ReadInsertExperienceWellFormed(body);
      ObjectOfIsStripped(InsertExperienceSchema, k => InsertExperienceMember(x, k), body);
      Success(x)
  }

  /** The JSON body written for a well-formed payload passes the schema. */
  lemma EncodeInsertExperienceAccepted(x: InsertExperience)
    requires x.WellFormed()
    ensures Accepts(InsertExperienceSchema, EncodeInsertExperience(x), NoEmail)
  {
    var b := EncodeInsertExperience(x);
    InsertExperienceRules();
    forall k | k in InsertExperienceSchema ensures FieldOk(InsertExperienceSchema[k], Lookup(b, k), NoEmail) {
      InsertExperienceKeys(k);
    }
  }

  /** Reading back the JSON body written for a payload gives the payload. */
  lemma ReadInsertExperienceOfEncodeInsertExperience(x: InsertExperience)
    requires !x.date.Val?
    ensures ReadInsertExperience(EncodeInsertExperience(x)) == x
  {
    InsertExperienceRules();
    var b := EncodeInsertExperience(x);
    assert Lookup(b, "title") == TextJson(x.title);
    assert Lookup(b, "description") == TextJson(x.description);
    assert Lookup(b, "longDescription") == NullableTextJson(x.longDescription);
    assert Lookup(b, "price") == TextJson(x.price);
    assert Lookup(b, "image") == NullableTextJson(x.image);
    assert Lookup(b, "date") == NullableDateJson(x.date);
    assert Lookup(b, "location") == NullableTextJson(x.location);
    assert Lookup(b, "maxAttendees") == NullableIntJson(x.maxAttendees);
    assert Lookup(b, "isPublished") == MaybeBoolJson(x.isPublished);
  }

  /** A well-formed payload, written as a JSON body, decodes to itself. */
  lemma DecodeInsertExperienceEncode(x: InsertExperience)
    requires x.WellFormed()
    ensures DecodeInsertExperience(EncodeInsertExperience(x)) == Success(x)
  {
    EncodeInsertExperienceAccepted(x);
    ReadInsertExperienceOfEncodeInsertExperience(x);
  }

  function ExperiencePatchMember(x: ExperiencePatch, k: string): Option<Json> {
    if k == "title" then MaybeTextJson(x.title)
    else if k == "description" then MaybeTextJson(x.description)
    else if k == "longDescription" then NullableTextJson(x.longDescription)
    else if k == "price" then MaybeTextJson(x.price)
    else if k == "image" then NullableTextJson(x.image)
    else if k == "date" then NullableDateJson(x.date)
    else if k == "location" then NullableTextJson(x.location)
    else if k == "maxAttendees" then NullableIntJson(x.maxAttendees)
    else if k == "isPublished" then MaybeBoolJson(x.isPublished)
    else None
  }

  function EncodeExperiencePatch(x: ExperiencePatch): (b: Body)
    ensures forall k :: k in ExperiencePatchSchema ==> Lookup(b, k) == ExperiencePatchMember(x, k)
  {
    ObjectOf(ExperiencePatchSchema, k => ExperiencePatchMember(x, k))
  }

  /** Every field of `ExperiencePatchSchema`, with its rule. */
  lemma ExperiencePatchRules()
    ensures "title" in ExperiencePatchSchema && ExperiencePatchSchema["title"] == Rule(Text(1), true, false)
    ensures "description" in ExperiencePatchSchema && ExperiencePatchSchema["description"] == Rule(Text(1), true, false)
    ensures "longDescription" in ExperiencePatchSchema && ExperiencePatchSchema["longDescription"] == Rule(Text(0), true, true)
    ensures "price" in ExperiencePatchSchema && ExperiencePatchSchema["price"] == Rule(DecimalText, true, false)
    ensures "image" in ExperiencePatchSchema && ExperiencePatchSchema["image"] == Rule(Text(0), true, true)
    ensures "date" in ExperiencePatchSchema && ExperiencePatchSchema["date"] == Rule(DateObject, true, true)
    ensures "location" in ExperiencePatchSchema && ExperiencePatchSchema["location"] == Rule(Text(0), true, true)
    ensures "maxAttendees" in ExperiencePatchSchema && ExperiencePatchSchema["maxAttendees"] == Rule(Integer, true, true)
    ensures "isPublished" in ExperiencePatchSchema && ExperiencePatchSchema["isPublished"] == Rule(Boolean, true, false)
  {
  }

  /** The fields of `ExperiencePatchSchema` are exactly these. */
  lemma ExperiencePatchKeys(k: string)
    requires k in ExperiencePatchSchema
    ensures k == "title" || k == "description" || k == "longDescription" || k == "price" || k == "image" || k == "date" || k == "location" || k == "maxAttendees" || k == "isPublished"
  {
  }

  /** The payload read from an accepted body. */
  function ReadExperiencePatch(body: Body): ExperiencePatch {
    ExperiencePatch(
        MaybeText(Lookup(body, "title")),
        MaybeText(Lookup(body, "description")),
        NullableText(Lookup(body, "longDescription")),
        MaybeText(Lookup(body, "price")),
        NullableText(Lookup(body, "image")),
        NullableDate(Lookup(body, "date")),
        NullableText(Lookup(body, "location")),
        NullableInt(Lookup(body, "maxAttendees")),
        MaybeBool(Lookup(body, "isPublished")))
  }

  /** Each field of the payload read from an accepted body is the body's member for it. */
  lemma ReadExperiencePatchAgrees(body: Body)
    requires Accepts(ExperiencePatchSchema, body, NoEmail)
    ensures forall k :: k in ExperiencePatchSchema ==> ExperiencePatchMember(ReadExperiencePatch(body), k) == Lookup(body, k)
  {
    ExperiencePatchRules();
    forall k | k in ExperiencePatchSchema ensures ExperiencePatchMember(ReadExperiencePatch(body), k) == Lookup(body, k) {
      ExperiencePatchKeys(k);
      assert FieldOk(ExperiencePatchSchema[k], Lookup(body, k), NoEmail);
    }
  }

  /** The payload read from an accepted body satisfies the schema's rules. */
  lemma ReadExperiencePatchWellFormed(body: Body)
    requires Accepts(ExperiencePatchSchema, body, NoEmail)
    ensures ReadExperiencePatch(body).WellFormed()
  {
    ExperiencePatchRules();
    assert FieldOk(ExperiencePatchSchema["title"], Lookup(body, "title"), NoEmail);
    assert FieldOk(ExperiencePatchSchema["description"], Lookup(body, "description"), NoEmail);
    assert FieldOk(ExperiencePatchSchema["price"], Lookup(body, "price"), NoEmail);
    assert FieldOk(ExperiencePatchSchema["date"], Lookup(body, "date"), NoEmail);
  }

  /** `insertExperienceSchema.partial().parse(req.body)`. */
  function DecodeExperiencePatch(body: Body): (r: Result<ExperiencePatch, set<string>>)
    ensures r.Success? <==> Accepts(ExperiencePatchSchema, body, NoEmail)
    ensures r.Failure? ==> r.error == Issues(ExperiencePatchSchema, body, NoEmail)
    ensures r.Success? ==> r.value.WellFormed()
    ensures r.Success? ==> forall k :: k in ExperiencePatchSchema ==> ExperiencePatchMember(r.value, k) == Lookup(body, k)
    ensures r.Success? ==> EncodeExperiencePatch(r.value) == Stripped(ExperiencePatchSchema, body)
  {
    if !Accepts(ExperiencePatchSchema, body, NoEmail) then Failure(Issues(ExperiencePatchSchema, body, NoEmail))
    else
      var x := ReadExperiencePatch(body);
      ReadExperiencePatchAgrees(body);
      ReadExperiencePatchWellFormed(body);
      ObjectOfIsStripped(ExperiencePatchSchema, k => ExperiencePatchMember(x, k), body);
      Success(x)
  }

  /** The JSON body written for a well-formed payload passes the schema. */
  lemma EncodeExperiencePatchAccepted(x: ExperiencePatch)
    requires x.WellFormed()
    ensures Accepts(ExperiencePatchSchema, EncodeExperiencePatch(x), NoEmail)
  {
    var b := EncodeExperiencePatch(x);
    ExperiencePatchRules();
    forall k | k in ExperiencePatchSchema ensures FieldOk(ExperiencePatchSchema[k], Lookup(b, k), NoEmail) {
      ExperiencePatchKeys(k);
    }
  }

  /** Reading back the JSON body written for a payload gives the payload. */
  lemma ReadExperiencePatchOfEncodeExperiencePatch(x: ExperiencePatch)
    requires !x.date.Val?
    ensures ReadExperiencePatch(EncodeExperiencePatch(x)) == x
  {
    ExperiencePatchRules();
    var b := EncodeExperiencePatch(x);
    assert Lookup(b, "title") == MaybeTextJson(x.title);
    assert Lookup(b, "description") == MaybeTextJson(x.description);
    assert Lookup(b, "longDescription") == NullableTextJson(x.longDescription);
    assert Lookup(b, "price") == MaybeTextJson(x.price);
    assert Lookup(b, "image") == NullableTextJson(x.image);
    assert Lookup(b, "date") == NullableDateJson(x.date);
    assert Lookup(b, "location") == NullableTextJson(x.location);
    assert Lookup(b, "maxAttendees") == NullableIntJson(x.maxAttendees);
    assert Lookup(b, "isPublished") == MaybeBoolJson(x.isPublished);
  }

  /** A well-formed payload, written as a JSON body, decodes to itself. */
  lemma DecodeExperiencePatchEncode(x: ExperiencePatch)
    requires x.WellFormed()
    ensures DecodeExperiencePatch(EncodeExperiencePatch(x)) == Success(x)
  {
    EncodeExperiencePatchAccepted(x);
    ReadExperiencePatchOfEncodeExperiencePatch(x);
  }
}
