/**
 * The four tables of the site (users, courses, experiences, purchases), their
 * record shapes and defaults, and the validation schemas derived from them.
 *
 * A table is a map from column name to `Column`: the column's value kind
 * (after the refinements passed to `createInsertSchema`), whether it is
 * `notNull` and whether it has a default. `createInsertSchema` turns a
 * nullable column into an optional, nullable field and a column with a default
 * into an optional field; `.omit` removes fields and `.partial` makes every
 * field optional. A zod object schema accepts a body when every field's rule
 * holds of the member (absent, null or a value), and its output holds only the
 * schema's fields that the body supplied: unknown members are stripped.
 */
module Schema {
  import opened Wrappers
  import opened JsonValues
  import DecimalFormat

  /** A point in time, as `new Date()` would give. */
  type Timestamp = int

  /**
   * A field of a record built by object spread: absent (the key is missing),
   * explicitly null, or a value.
   */
  datatype Field<T> = Absent | Null | Val(value: T)

  // ---------------------------------------------------------------- records

  datatype User = User(
    id: string, email: string, password: string, name: string,
    isAdmin: bool, createdAt: Timestamp)

  datatype Course = Course(
    id: string, title: string, description: string, longDescription: Field<string>,
    price: string, image: Field<string>, category: string, duration: Field<string>,
    level: Field<string>, isPublished: bool, createdAt: Timestamp, updatedAt: Timestamp)

  datatype Experience = Experience(
    id: string, title: string, description: string, longDescription: Field<string>,
    price: string, image: Field<string>, date: Field<Timestamp>, location: Field<string>,
    maxAttendees: Field<int>, currentAttendees: int, isPublished: bool,
    createdAt: Timestamp, updatedAt: Timestamp)

  /**
   * A purchase: the server-set members, and `details`, every other member the
   * creating request supplied (item type, item id, amount, payment reference,
   * or anything else), kept as it came.
   */
  datatype Purchase = Purchase(
    id: string, userId: string, status: string, createdAt: Timestamp, details: Body)

  // ---------------------------------------------------------------- defaults

  const DefaultIsAdmin: bool := false
  const DefaultIsPublished: bool := true
  const DefaultCurrentAttendees: int := 0
  const DefaultStatus: string := "completed"

  const Categories: seq<string> := ["masterclass", "video", "membership"]
  const Levels: seq<string> := ["beginner", "intermediate", "advanced"]
  const ItemTypes: seq<string> := ["course", "experience"]

  // ---------------------------------------------------------------- tables

  datatype Kind =
    | Text(minLength: nat)     // z.string().min(n)
    | EmailText                // z.string().email()
    | DecimalText              // z.string().regex(/^\d+(\.\d{1,2})?$/)
    | OneOf(options: seq<string>)  // z.enum([...])
    | Boolean
    | Integer
    | DateObject               // z.date(): a JavaScript Date object

  datatype Column = Column(kind: Kind, notNull: bool, hasDefault: bool)

  type Table = map<string, Column>

  const UserColumns: Table := map[
    "id" := Column(Text(0), true, true),
    "email" := Column(EmailText, true, false),
    "password" := Column(Text(8), true, false),
    "name" := Column(Text(1), true, false),
    "isAdmin" := Column(Boolean, true, true),
    "createdAt" := Column(DateObject, true, true)]

  const CourseColumns: Table := map[
    "id" := Column(Text(0), true, true),
    "title" := Column(Text(1), true, false),
    "description" := Column(Text(1), true, false),
    "longDescription" := Column(Text(0), false, false),
    "price" := Column(DecimalText, true, false),
    "image" := Column(Text(0), false, false),
    "category" := Column(OneOf(Categories), true, false),
    "duration" := Column(Text(0), false, false),
    "level" := Column(OneOf(Levels), false, false),
    "isPublished" := Column(Boolean, true, true),
    "createdAt" := Column(DateObject, true, true),
    "updatedAt" := Column(DateObject, true, true)]

  const ExperienceColumns: Table := map[
    "id" := Column(Text(0), true, true),
    "title" := Column(Text(1), true, false),
    "description" := Column(Text(1), true, false),
    "longDescription" := Column(Text(0), false, false),
    "price" := Column(DecimalText, true, false),
    "image" := Column(Text(0), false, false),
    "date" := Column(DateObject, false, false),
    "location" := Column(Text(0), false, false),
    "maxAttendees" := Column(Integer, false, false),
    "currentAttendees" := Column(Integer, true, true),
    "isPublished" := Column(Boolean, true, true),
    "createdAt" := Column(DateObject, true, true),
    "updatedAt" := Column(DateObject, true, true)]

  const PurchaseColumns: Table := map[
    "id" := Column(Text(0), true, true),
    "userId" := Column(Text(0), true, false),
    "itemType" := Column(OneOf(ItemTypes), true, false),
    "itemId" := Column(Text(0), true, false),
    "amount" := Column(DecimalText, true, false),
    "stripePaymentId" := Column(Text(0), false, false),
    "status" := Column(Text(0), true, true),
    "createdAt" := Column(DateObject, true, true)]

  // ---------------------------------------------------------------- schemas

  /** The rule for one field of an object schema. */
  datatype Rule = Rule(kind: Kind, optional: bool, nullable: bool)

  type ObjectSchema = map<string, Rule>

  /** How `createInsertSchema` treats one column. */
  function InsertRule(c: Column): (r: Rule)
    ensures r.kind == c.kind
    ensures r.nullable <==> !c.notNull
    ensures r.optional <==> !c.notNull || c.hasDefault
  {
    Rule(c.kind, !c.notNull || c.hasDefault, !c.notNull)
  }

  function CreateInsertSchema(t: Table): (s: ObjectSchema)
    ensures s.Keys == t.Keys
    ensures forall k :: k in s ==> s[k] == InsertRule(t[k])
  {
    map k | k in t :: InsertRule(t[k])
  }

  /** `.omit(...)`. */
  function Omit(s: ObjectSchema, names: set<string>): (r: ObjectSchema)
    ensures r.Keys == s.Keys - names
    ensures forall k :: k in r ==> r[k] == s[k]
  {
    s - names
  }

  /** `.partial()`: every field becomes optional, its other constraints stay. */
  function MakePartial(s: ObjectSchema): (r: ObjectSchema)
    ensures r.Keys == s.Keys
    ensures forall k :: k in r ==> r[k].optional && r[k].kind == s[k].kind && r[k].nullable == s[k].nullable
  {
    map k | k in s :: s[k].(optional := true)
  }

  const InsertUserSchema: ObjectSchema := map[
    "email" := Rule(EmailText, false, false),
    "password" := Rule(Text(8), false, false),
    "name" := Rule(Text(1), false, false),
    "isAdmin" := Rule(Boolean, true, false)]

  const LoginSchema: ObjectSchema := map[
    "email" := Rule(EmailText, false, false),
    "password" := Rule(Text(0), false, false)]

  const InsertCourseSchema: ObjectSchema := map[
    "title" := Rule(Text(1), false, false),
    "description" := Rule(Text(1), false, false),
    "longDescription" := Rule(Text(0), true, true),
    "price" := Rule(DecimalText, false, false),
    "image" := Rule(Text(0), true, true),
    "category" := Rule(OneOf(Categories), false, false),
    "duration" := Rule(Text(0), true, true),
    "level" := Rule(OneOf(Levels), true, true),
    "isPublished" := Rule(Boolean, true, false)]

  const InsertExperienceSchema: ObjectSchema := map[
    "title" := Rule(Text(1), false, false),
    "description" := Rule(Text(1), false, false),
    "longDescription" := Rule(Text(0), true, true),
    "price" := Rule(DecimalText, false, false),
    "image" := Rule(Text(0), true, true),
    "date" := Rule(DateObject, true, true),
    "location" := Rule(Text(0), true, true),
    "maxAttendees" := Rule(Integer, true, true),
    "isPublished" := Rule(Boolean, true, false)]

  const InsertPurchaseSchema: ObjectSchema := map[
    "userId" := Rule(Text(0), false, false),
    "itemType" := Rule(OneOf(ItemTypes), false, false),
    "itemId" := Rule(Text(0), false, false),
    "amount" := Rule(DecimalText, false, false),
    "stripePaymentId" := Rule(Text(0), true, true),
    "status" := Rule(Text(0), true, false)]

  /**
   * drizzle-zod 0.5 wraps a refined nullable column in `.nullable()`, so the
   * course schema's `level` takes an explicit null as well as being optional.
   */
  lemma LevelMayBeNull(isEmail: string -> bool)
    ensures InsertCourseSchema["level"] == InsertRule(CourseColumns["level"])
    ensures FieldOk(InsertCourseSchema["level"], Some(JNull), isEmail)
    ensures FieldOk(InsertCourseSchema["level"], None, isEmail)
  {
  }

  /** `insertUserSchema` is what `createInsertSchema(users).omit({id, createdAt})` derives. */
  lemma InsertUserSchemaDerived()
    ensures InsertUserSchema == Omit(CreateInsertSchema(UserColumns), {"id", "createdAt"})
  {
    var d := Omit(CreateInsertSchema(UserColumns), {"id", "createdAt"});
    assert UserColumns.Keys == {"id", "email", "password", "name", "isAdmin", "createdAt"};
    assert d.Keys == InsertUserSchema.Keys;
  }

  /** `insertCourseSchema` is what `createInsertSchema(courses, ...).omit({id, createdAt, updatedAt})` derives. */
  lemma InsertCourseSchemaDerived()
    ensures InsertCourseSchema == Omit(CreateInsertSchema(CourseColumns), {"id", "createdAt", "updatedAt"})
  {
    InsertCourseSchemaKeysDerived();
    InsertCourseSchemaEntriesDerived();
    SameEntries(Omit(CreateInsertSchema(CourseColumns), {"id", "createdAt", "updatedAt"}), InsertCourseSchema);
  }

  lemma InsertCourseSchemaKeysDerived()
    ensures Omit(CreateInsertSchema(CourseColumns), {"id", "createdAt", "updatedAt"}).Keys == InsertCourseSchema.Keys
  {
    assert CourseColumns.Keys - {"id", "createdAt", "updatedAt"} == InsertCourseSchema.Keys;
  }

  lemma InsertCourseSchemaEntriesDerived()
    ensures forall k :: k in InsertCourseSchema ==> InsertRule(CourseColumns[k]) == InsertCourseSchema[k]
  {
  }

  /** `insertExperienceSchema` also omits `currentAttendees`. */
  lemma InsertExperienceSchemaDerived()
    ensures InsertExperienceSchema == Omit(CreateInsertSchema(ExperienceColumns), {"id", "createdAt", "updatedAt", "currentAttendees"})
  {
    InsertExperienceSchemaKeysDerived();
    InsertExperienceSchemaEntriesDerived();
    SameEntries(Omit(CreateInsertSchema(ExperienceColumns), {"id", "createdAt", "updatedAt", "currentAttendees"}), InsertExperienceSchema);
  }

  lemma InsertExperienceSchemaKeysDerived()
    ensures Omit(CreateInsertSchema(ExperienceColumns), {"id", "createdAt", "updatedAt", "currentAttendees"}).Keys == InsertExperienceSchema.Keys
  {
    assert ExperienceColumns.Keys - {"id", "createdAt", "updatedAt", "currentAttendees"} == InsertExperienceSchema.Keys;
  }

  lemma InsertExperienceSchemaEntriesDerived()
    ensures forall k :: k in InsertExperienceSchema ==> InsertRule(ExperienceColumns[k]) == InsertExperienceSchema[k]
  {
  }

  /** `insertPurchaseSchema` is what `createInsertSchema(purchases, ...).omit({id, createdAt})` derives. */
  lemma InsertPurchaseSchemaDerived()
    ensures InsertPurchaseSchema == Omit(CreateInsertSchema(PurchaseColumns), {"id", "createdAt"})
  {
    InsertPurchaseSchemaKeysDerived();
    InsertPurchaseSchemaEntriesDerived();
    SameEntries(Omit(CreateInsertSchema(PurchaseColumns), {"id", "createdAt"}), InsertPurchaseSchema);
  }

  lemma InsertPurchaseSchemaKeysDerived()
    ensures Omit(CreateInsertSchema(PurchaseColumns), {"id", "createdAt"}).Keys == InsertPurchaseSchema.Keys
  {
    assert PurchaseColumns.Keys - {"id", "createdAt"} == InsertPurchaseSchema.Keys;
  }

  lemma InsertPurchaseSchemaEntriesDerived()
    ensures forall k :: k in InsertPurchaseSchema ==> InsertRule(PurchaseColumns[k]) == InsertPurchaseSchema[k]
  {
  }

  /** Two maps with the same keys and the same value at every key are equal. */
  lemma SameEntries(a: ObjectSchema, b: ObjectSchema)
    requires a.Keys == b.Keys && forall k :: k in a ==> a[k] == b[k]
    ensures a == b
  {
  }

  // ---------------------------------------------------------------- acceptance

  /** A JSON value of the given kind. A JSON value is never a Date object. */
  predicate KindOk(k: Kind, j: Json, isEmail: string -> bool): (ok: bool)
    ensures ok ==> j.JStr? || j.JBool? || j.JNum?
    ensures k.DateObject? ==> !ok
    ensures ok && (k.Text? || k.EmailText? || k.DecimalText? || k.OneOf?) ==> j.JStr?
  {
    match k
    case Text(n) => j.JStr? && |j.s| >= n
    case EmailText => j.JStr? && isEmail(j.s)
    case DecimalText => j.JStr? && DecimalFormat.IsDecimal(j.s)
    case OneOf(options) => j.JStr? && j.s in options
    case Boolean => j.JBool?
    case Integer => j.JNum?
    case DateObject => false
  }

  /** The member named by a field: `None` when the body lacks it. */
  function Lookup(body: Body, k: string): (r: Option<Json>)
    ensures r.Some? <==> k in body
    ensures r.Some? ==> r.value == body[k]
  {
    if k in body then Some(body[k]) else None
  }

  /** One field's rule applied to the member the body has for it, if any. */
  predicate FieldOk(r: Rule, v: Option<Json>, isEmail: string -> bool): (ok: bool)
    ensures v.None? ==> (ok <==> r.optional)
    ensures v == Some(JNull) ==> (ok <==> r.nullable)
    ensures r.kind.DateObject? ==> (ok ==> v.None? || v == Some(JNull))
  {
    match v
    case None => r.optional
    case Some(JNull) => r.nullable
    case Some(j) => KindOk(r.kind, j, isEmail)
  }

  /** `schema.safeParse(body).success`: every field's rule holds of the body's member for it. */
  predicate Accepts(s: ObjectSchema, body: Body, isEmail: string -> bool): (ok: bool)
    ensures ok ==> forall k :: k in s && !s[k].optional ==> k in body
    ensures ok ==> forall k :: k in s && k in body && body[k] == JNull ==> s[k].nullable
    ensures ok ==> forall k :: k in s && k in body && body[k] != JNull ==> KindOk(s[k].kind, body[k], isEmail)
  {
    forall k :: k in s ==> FieldOk(s[k], Lookup(body, k), isEmail)
  }

  /** The fields whose rule the body breaks. */
  function Issues(s: ObjectSchema, body: Body, isEmail: string -> bool): (r: set<string>)
    ensures r <= s.Keys
    ensures r == {} <==> Accepts(s, body, isEmail)
  {
    var r := set k | k in s && !FieldOk(s[k], Lookup(body, k), isEmail);
    assert !Accepts(s, body, isEmail) ==> r != {} by {
      if !Accepts(s, body, isEmail) {
        var k :| k in s && !FieldOk(s[k], Lookup(body, k), isEmail);
        assert k in r;
      }
    }
    r
  }

  /** The output of a successful parse: the schema's fields the body supplied, unknown members dropped. */
  function Stripped(s: ObjectSchema, body: Body): (r: Body)
    ensures r.Keys == s.Keys * body.Keys
    ensures forall k :: k in r ==> r[k] == body[k]
  {
    map k | k in s && k in body :: body[k]
  }

  /** `schema.parse(body)`: the stripped body, or the fields that failed. */
  function Parse(s: ObjectSchema, body: Body, isEmail: string -> bool): (r: Result<Body, set<string>>)
    ensures r.Success? <==> Accepts(s, body, isEmail)
    ensures r.Success? ==> r.value == Stripped(s, body)
    ensures r.Failure? ==> r.error != {} && r.error == Issues(s, body, isEmail)
  {
    if Accepts(s, body, isEmail) then Success(Stripped(s, body)) else Failure(Issues(s, body, isEmail))
  }

  // ---------------------------------------------------------------- lemmas

  /** Members outside the schema, such as server-owned fields, have no effect on parsing. */
  lemma UnknownMembersIgnored(s: ObjectSchema, body: Body, names: set<string>, isEmail: string -> bool)
    requires names !! s.Keys
    ensures Parse(s, body - names, isEmail) == Parse(s, body, isEmail)
  {
    forall k | k in s ensures Lookup(body - names, k) == Lookup(body, k) {
    }
    assert Accepts(s, body - names, isEmail) == Accepts(s, body, isEmail);
    assert Stripped(s, body - names) == Stripped(s, body);
    assert Issues(s, body - names, isEmail) == Issues(s, body, isEmail);
  }

  /** A partial schema accepts a body iff every field it does supply passes the field's original rule. */
  lemma PartialChecksPresentFields(s: ObjectSchema, body: Body, isEmail: string -> bool)
    ensures Accepts(MakePartial(s), body, isEmail)
        <==> forall k :: k in s && k in body ==> FieldOk(s[k], Some(body[k]), isEmail)
  {
    var p := MakePartial(s);
    forall k | k in s && k in body
      ensures FieldOk(p[k], Some(body[k]), isEmail) == FieldOk(s[k], Some(body[k]), isEmail)
    {
    }
    if forall k :: k in s && k in body ==> FieldOk(s[k], Some(body[k]), isEmail) {
      forall k | k in p ensures FieldOk(p[k], Lookup(body, k), isEmail) {
        if k in body {
          assert FieldOk(s[k], Some(body[k]), isEmail);
        }
      }
    }
  }

  /** Whatever the full schema accepts, its partial form accepts with the same output; and an empty patch is always accepted. */
  lemma PartialIsWeaker(s: ObjectSchema, body: Body, isEmail: string -> bool)
    ensures Accepts(s, body, isEmail) ==> Parse(MakePartial(s), body, isEmail) == Parse(s, body, isEmail)
    ensures Parse(MakePartial(s), map[], isEmail) == Success(map[])
  {
    var p := MakePartial(s);
    if Accepts(s, body, isEmail) {
      forall k | k in p ensures FieldOk(p[k], Lookup(body, k), isEmail) {
        assert FieldOk(s[k], Lookup(body, k), isEmail);
      }
      assert Stripped(p, body) == Stripped(s, body);
    }
    assert Accepts(p, map[], isEmail);
  }

  /** The server-owned fields of a user or a purchase are not fields of its payload. */
  lemma UserAndPurchaseServerFieldsOmitted()
    ensures {"id", "createdAt"} !! InsertUserSchema.Keys
    ensures {"id", "createdAt"} !! InsertPurchaseSchema.Keys
  {
  }

  /** The server-owned fields of a course, and also `currentAttendees` of an experience, are not fields of the payloads. */
  lemma CourseAndExperienceServerFieldsOmitted()
    ensures {"id", "createdAt", "updatedAt"} !! InsertCourseSchema.Keys
    ensures {"id", "createdAt", "updatedAt", "currentAttendees"} !! InsertExperienceSchema.Keys
  {
  }

  /** A client cannot set a course's id or timestamps: such members are dropped, on create and on update. */
  lemma CourseServerFieldsIgnored(body: Body)
    ensures Parse(InsertCourseSchema, body - {"id", "createdAt", "updatedAt"}, NoEmail)
         == Parse(InsertCourseSchema, body, NoEmail)
    ensures Parse(MakePartial(InsertCourseSchema), body - {"id", "createdAt", "updatedAt"}, NoEmail)
         == Parse(MakePartial(InsertCourseSchema), body, NoEmail)
  {
    CourseAndExperienceServerFieldsOmitted();
    UnknownMembersIgnored(InsertCourseSchema, body, {"id", "createdAt", "updatedAt"}, NoEmail);
    UnknownMembersIgnored(MakePartial(InsertCourseSchema), body, {"id", "createdAt", "updatedAt"}, NoEmail);
  }

  /** A client can set neither an experience's id and timestamps nor its `currentAttendees`, on create or on update. */
  lemma ExperienceServerFieldsIgnored(body: Body)
    ensures Parse(InsertExperienceSchema, body - {"id", "createdAt", "updatedAt", "currentAttendees"}, NoEmail)
         == Parse(InsertExperienceSchema, body, NoEmail)
    ensures Parse(MakePartial(InsertExperienceSchema), body - {"id", "createdAt", "updatedAt", "currentAttendees"}, NoEmail)
         == Parse(MakePartial(InsertExperienceSchema), body, NoEmail)
  {
    CourseAndExperienceServerFieldsOmitted();
    var names := {"id", "createdAt", "updatedAt", "currentAttendees"};
    UnknownMembersIgnored(InsertExperienceSchema, body, names, NoEmail);
    UnknownMembersIgnored(MakePartial(InsertExperienceSchema), body, names, NoEmail);
  }

  /** The email check passed to schemas that have no email field: it is never consulted. */
  function NoEmail(s: string): bool {
    true
  }

  /**
   * What `insertPurchaseSchema` demands of a body: an item type of "course" or
   * "experience", a decimal amount, string user and item ids, an optional
   * string or null payment reference and an optional string status.
   */
  lemma PurchaseSchemaRules(body: Body, isEmail: string -> bool)
    requires Accepts(InsertPurchaseSchema, body, isEmail)
    ensures "itemType" in body && body["itemType"].JStr? && body["itemType"].s in ItemTypes
    ensures body["itemType"].s == "course" || body["itemType"].s == "experience"
    ensures "amount" in body && body["amount"].JStr? && DecimalFormat.IsDecimal(body["amount"].s)
    ensures "userId" in body && body["userId"].JStr?
    ensures "itemId" in body && body["itemId"].JStr?
    ensures "stripePaymentId" in body ==> body["stripePaymentId"].JNull? || body["stripePaymentId"].JStr?
    ensures "status" in body ==> body["status"].JStr?
  {
    assert FieldOk(InsertPurchaseSchema["itemType"], Lookup(body, "itemType"), isEmail);
    assert FieldOk(InsertPurchaseSchema["amount"], Lookup(body, "amount"), isEmail);
    assert FieldOk(InsertPurchaseSchema["userId"], Lookup(body, "userId"), isEmail);
    assert FieldOk(InsertPurchaseSchema["itemId"], Lookup(body, "itemId"), isEmail);
    assert FieldOk(InsertPurchaseSchema["stripePaymentId"], Lookup(body, "stripePaymentId"), isEmail);
    assert FieldOk(InsertPurchaseSchema["status"], Lookup(body, "status"), isEmail);
  }

  /** Bodies the purchase schema turns away: a wrong item type, a malformed amount, a missing item id. */
  lemma PurchaseSchemaRejects(isEmail: string -> bool)
    ensures !Accepts(InsertPurchaseSchema, map["userId" := JStr("u"), "itemType" := JStr("book"),
                                               "itemId" := JStr("c"), "amount" := JStr("10")], isEmail)
    ensures !Accepts(InsertPurchaseSchema, map["userId" := JStr("u"), "itemType" := JStr("course"),
                                               "itemId" := JStr("c"), "amount" := JStr("1.234")], isEmail)
    ensures !Accepts(InsertPurchaseSchema, map["userId" := JStr("u"), "itemType" := JStr("course"),
                                               "amount" := JStr("10")], isEmail)
  {
    var a := map["userId" := JStr("u"), "itemType" := JStr("book"), "itemId" := JStr("c"), "amount" := JStr("10")];
    assert !FieldOk(InsertPurchaseSchema["itemType"], Lookup(a, "itemType"), isEmail);
    var b := map["userId" := JStr("u"), "itemType" := JStr("course"), "itemId" := JStr("c"), "amount" := JStr("1.234")];
    DecimalFormat.DigitRunIsGreedy("1.234", 1);
    assert !FieldOk(InsertPurchaseSchema["amount"], Lookup(b, "amount"), isEmail);
    var c := map["userId" := JStr("u"), "itemType" := JStr("course"), "amount" := JStr("10")];
    assert !FieldOk(InsertPurchaseSchema["itemId"], Lookup(c, "itemId"), isEmail);
  }
}
