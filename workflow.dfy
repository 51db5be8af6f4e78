/**
 * The writing routes of the server as transitions of the store: each takes
 * the store before the request and answers with the reply and the store
 * after it (`Outcome`). The imperative handlers in `Handlers` perform the
 * same `kv.get`/`kv.set` sequence and are proved to end in these outcomes.
 *
 * Ids and instants that the server draws from `Date.now()`, `Math.random()`
 * and `new Date()` are parameters (`now`, `rnd`), and so are the answers of
 * the identity provider and of the blob store.
 */
module Workflow {
  import opened Values
  import opened Numbers
  import opened Keys
  import opened KvStore
  import opened Access

  datatype Outcome<T> = Outcome(reply: Reply<T>, db: Db)

  /** A file in a multipart request: its name, size and MIME type. */
  datatype Upload = Upload(name: string, size: nat, mime: string)

  /** What the identity provider's `createUser` answers at sign-up. */
  datatype Created = Created(id: string) | Refused(message: string)

  predicate HasPercentage(r: Record)
  {
    Field(r, "percentage").Some? && Field(r, "percentage").value.Num?
  }

  predicate HasStamp(r: Record)
  {
    Field(r, "timestamp").Some? && Field(r, "timestamp").value.Stamp?
  }

  /** What the reports and the notification feed rely on of a record: under
      `grade:` it has a numeric percentage, under `notification:` an instant. */
  predicate Fits(k: string, r: Record)
  {
    (GradePrefix <= k ==> HasPercentage(r)) && (NoticePrefix <= k ==> HasStamp(r))
  }

  /** The store invariant every writing route keeps. */
  ghost predicate WellFormed(d: Db)
  {
    forall k :: k in d ==> Fits(k, d[k])
  }

  /** No profile disappears and no role changes from `d` to `e`: a role is
      fixed when the profile is created. */
  ghost predicate RolesKept(d: Db, e: Db)
  {
    forall k :: k in d && UserPrefix <= k ==> k in e && Field(e[k], "role") == Field(d[k], "role")
  }

  /** From `d` to `e` exactly the keys `ks` are written: they are present
      afterwards and every other key keeps its record. */
  ghost predicate Writes(d: Db, e: Db, ks: set<string>)
  {
    e.Keys == d.Keys + ks && forall k :: k in d && k !in ks ==> e[k] == d[k]
  }

  // ---------------------------------------------------------------- records

  /** The profile stored at sign-up; the password is not part of it. */
  function UserRecord(id: string, email: Option<Value>, name: Option<Value>, role: Option<Value>, now: int): (u: Record)
    ensures Field(u, "id") == Some(Str(id)) && Field(u, "createdAt") == Some(Stamp(now))
    ensures Field(u, "email") == email && Field(u, "name") == name && Field(u, "role") == role
    ensures Field(u, "password") == None
  {
    With(With(With(map["id" := Str(id), "createdAt" := Stamp(now)], "email", email), "name", name), "role", role)
  }

  function CourseRecord(key: string, name: Option<Value>, description: Option<Value>, instructorId: string,
                        instructorName: Option<Value>, now: int): (c: Record)
    ensures Field(c, "id") == Some(Str(key)) && Field(c, "instructorId") == Some(Str(instructorId))
    ensures Field(c, "name") == name && Field(c, "description") == description
  {
    var r := map["id" := Str(key), "instructorId" := Str(instructorId), "createdAt" := Stamp(now)];
    With(With(With(r, "name", name), "description", description), "instructorName", instructorName)
  }

  function MaterialRecord(key: string, title: Value, description: Value, file: Upload, path: string, courseId: Value,
                          uploaderId: string, uploaderName: Option<Value>, now: int): (m: Record)
    ensures Field(m, "uploadedBy") == Some(Str(uploaderId)) && Field(m, "filePath") == Some(Str(path))
    ensures Field(m, "courseId") == Some(courseId)
  {
    var r := map["id" := Str(key), "title" := title, "description" := description, "fileName" := Str(file.name),
                 "fileSize" := Num(file.size), "fileType" := Str(file.mime), "filePath" := Str(path),
                 "courseId" := courseId, "uploadedBy" := Str(uploaderId), "uploadedAt" := Stamp(now)];
    With(r, "uploadedByName", uploaderName)
  }

  function AssessmentRecord(key: string, title: Option<Value>, description: Option<Value>, courseId: Option<Value>,
                            dueDate: Option<Value>, totalMarks: Option<Value>, instructorId: string,
                            instructorName: Option<Value>, now: int): (a: Record)
    ensures Field(a, "courseId") == courseId && Field(a, "totalMarks") == totalMarks
    ensures Field(a, "instructorId") == Some(Str(instructorId)) && Field(a, "id") == Some(Str(key))
  {
    var r := map["createdAt" := Stamp(now)];
    var r := With(With(With(r, "title", title), "description", description), "courseId", courseId);
    var r := With(With(With(r, "dueDate", dueDate), "totalMarks", totalMarks), "instructorName", instructorName);
    r["instructorId" := Str(instructorId)]["id" := Str(key)]
  }

  function SubmissionRecord(key: string, assessmentId: Value, studentId: string, studentName: Option<Value>,
                            file: Upload, path: string, now: int): (r: Record)
    ensures Field(r, "status") == Some(Str("submitted")) && Field(r, "studentId") == Some(Str(studentId))
    ensures Field(r, "assessmentId") == Some(assessmentId)
    ensures Field(r, "id") == Some(Str(key)) && Field(r, "filePath") == Some(Str(path))
  {
    var r := map["id" := Str(key), "assessmentId" := assessmentId, "studentId" := Str(studentId),
                 "fileName" := Str(file.name), "fileSize" := Num(file.size), "fileType" := Str(file.mime),
                 "filePath" := Str(path), "status" := Str("submitted"), "submittedAt" := Stamp(now)];
    With(r, "studentName", studentName)
  }

  /** Every field a freshly posted grade may hold. */
  const GradeFields: set<string> := {"id", "submissionId", "assessmentId", "studentId", "grade", "totalMarks",
                                     "percentage", "feedback", "gradedBy", "gradedByName", "gradedAt", "verified"}

  /** Of the fields `verify` writes, a posted grade holds only `verified`. */
  lemma VerifierFieldsFresh()
    ensures "verifiedBy" !in GradeFields && "verifiedAt" !in GradeFields && "verifiedByName" !in GradeFields
  {
  }

  /** The fields of a grade copied from the submission and the marker's
      profile, which may be `undefined`. */
  function GradeCopied(submission: Record, markerName: Option<Value>): (o: Record)
    ensures o.Keys <= {"assessmentId", "studentId", "gradedByName"}
    ensures Field(o, "assessmentId") == Field(submission, "assessmentId")
    ensures Field(o, "studentId") == Field(submission, "studentId")
  {
    With(With(With(map[], "assessmentId", Field(submission, "assessmentId")),
              "studentId", Field(submission, "studentId")), "gradedByName", markerName)
  }

  /** The grade of the submission record `submission` stored under key
      `submissionId`; it starts unverified, and holds nothing but its own
      fields, so nothing of an earlier grade of the same submission survives
      in it. */
  function GradeRecord(submissionId: string, submission: Record, grade: int, totalMarks: int, feedback: Option<Value>,
                       markerId: string, markerName: Option<Value>, now: int): (g: Record)
    requires totalMarks > 0
    ensures Field(g, "percentage") == Some(Num(Percent(grade, totalMarks)))
    ensures Field(g, "grade") == Some(Num(grade)) && Field(g, "totalMarks") == Some(Num(totalMarks))
    ensures Field(g, "verified") == Some(Bool(false)) && Field(g, "submissionId") == Some(Str(submissionId))
    ensures Field(g, "studentId") == Field(submission, "studentId")
    ensures Field(g, "assessmentId") == Field(submission, "assessmentId")
    ensures Field(g, "gradedBy") == Some(Str(markerId))
    ensures Field(g, "id") == Some(Str(GradeKey(submissionId))) && Field(g, "feedback") == feedback
    ensures Field(g, "gradedAt") == Some(Stamp(now))
    ensures g.Keys <= GradeFields
    ensures Field(g, "verifiedBy") == None && Field(g, "verifiedAt") == None && Field(g, "verifiedByName") == None
  {
    VerifierFieldsFresh();
    var fixed := GradeFixed(GradeKey(submissionId), submissionId, grade, totalMarks, Percent(grade, totalMarks), markerId, now);
    With(GradeCopied(submission, markerName) + fixed, "feedback", feedback)
  }

  /** The fields of a grade that the request and the marker determine; a
      new grade starts unverified. */
  function GradeFixed(key: string, submissionId: string, grade: int, totalMarks: int, percentage: int,
                      markerId: string, now: int): (f: Record)
    ensures f.Keys == {"id", "submissionId", "grade", "totalMarks", "percentage", "gradedBy", "gradedAt", "verified"}
    ensures f["id"] == Str(key) && f["submissionId"] == Str(submissionId)
    ensures f["grade"] == Num(grade) && f["totalMarks"] == Num(totalMarks) && f["percentage"] == Num(percentage)
    ensures f["gradedBy"] == Str(markerId) && f["gradedAt"] == Stamp(now) && f["verified"] == Bool(false)
  {
    map["id" := Str(key), "submissionId" := Str(submissionId), "grade" := Num(grade),
        "totalMarks" := Num(totalMarks), "percentage" := Num(percentage),
        "gradedBy" := Str(markerId), "gradedAt" := Stamp(now), "verified" := Bool(false)]
  }

  /** A notification addressed to `userId`, unread, pointing at `target`
      through the field `targetField`. */
  function Notice(userId: Option<Value>, kind: string, message: string, targetField: string, target: string, now: int): (n: Record)
    requires targetField !in {"userId", "type", "message", "read", "timestamp"}
    ensures HasStamp(n) && Field(n, "userId") == userId
    ensures Field(n, "type") == Some(Str(kind)) && Field(n, targetField) == Some(Str(target))
    ensures Field(n, "read") == Some(Bool(false))
  {
    var r := map[targetField := Str(target)];
    var r := r["type" := Str(kind)]["message" := Str(message)]["read" := Bool(false)]["timestamp" := Stamp(now)];
    With(r, "userId", userId)
  }

  /** The broadcast that announces a new assessment: no `userId`, no `read`. */
  function AssessmentNotice(assessmentKey: string, title: Option<Value>, now: int): (n: Record)
    ensures HasStamp(n) && Field(n, "userId") == None
    ensures Field(n, "type") == Some(Str("new_assessment")) && Field(n, "assessmentId") == Some(Str(assessmentKey))
  {
    map["type" := Str("new_assessment"), "message" := Str("New assessment \"" + Text(title) + "\" has been posted"),
        "assessmentId" := Str(assessmentKey), "timestamp" := Stamp(now)]
  }

  /** The grade record after `verify`: the verdict and who gave it, when. */
  function Verified(g: Record, verified: Option<Value>, adminId: string, adminName: Option<Value>, now: int): (v: Record)
    ensures Field(v, "verified") == verified && Field(v, "verifiedBy") == Some(Str(adminId))
    ensures Field(v, "verifiedAt") == Some(Stamp(now))
    ensures forall f :: !VerifyField(f) ==> Field(v, f) == Field(g, f)
  {
    With(With(With(With(g, "verified", verified), "verifiedAt", Some(Stamp(now))), "verifiedBy", Some(Str(adminId))), "verifiedByName", adminName)
  }

  /** The fields `verify` writes; every other field of the grade is kept. */
  predicate VerifyField(f: string)
  {
    f == "verified" || f == "verifiedAt" || f == "verifiedBy" || f == "verifiedByName"
  }

  /** Where a notification about `rec`'s student goes: `rec.studentId` as a
      template literal spells it, `undefined` included. */
  function StudentFeedKey(rec: Record, now: nat): (k: string)
    ensures Field(rec, "studentId").Some? && Field(rec, "studentId").value.Str? ==> k == FeedKey(Field(rec, "studentId").value.s, now)
    ensures Field(rec, "studentId") == None ==> k == FeedKey("undefined", now)
  {
    FeedKey(Text(Field(rec, "studentId")), now)
  }

  // ------------------------------------------------------------ invariants

  lemma KeepsAfterWrite(d: Db, k: string, r: Record)
    requires Fits(k, r)
    requires UserPrefix <= k ==> k in d && Field(r, "role") == Field(d[k], "role")
    ensures WellFormed(d) ==> WellFormed(d[k := r])
    ensures RolesKept(d, d[k := r])
  {
  }

  lemma RolesKeptTrans(d: Db, e: Db, f: Db)
    requires RolesKept(d, e) && RolesKept(e, f)
    ensures RolesKept(d, f)
  {
  }

  /** Rewriting a record in place with its percentage, instant and role kept. */
  lemma KeepsAfterRewrite(d: Db, k: string, r: Record)
    requires k in d
    requires Field(r, "percentage") == Field(d[k], "percentage")
    requires Field(r, "timestamp") == Field(d[k], "timestamp")
    requires Field(r, "role") == Field(d[k], "role")
    ensures WellFormed(d) ==> WellFormed(d[k := r])
    ensures RolesKept(d, d[k := r])
  {
    if WellFormed(d) {
      assert Fits(k, d[k]);
    }
  }

  lemma WritesOne(d: Db, k: string, r: Record)
    ensures Writes(d, d[k := r], {k})
  {
  }

  lemma WritesMore(d: Db, e: Db, ks: set<string>, k: string, r: Record)
    requires Writes(d, e, ks)
    ensures Writes(d, e[k := r], ks + {k})
  {
  }

  /** Three writes in a row; the first survives the other two when its key
      differs from theirs, the second when the third's key differs. */
  lemma WritesThree(d: Db, k1: string, r1: Record, k2: string, r2: Record, k3: string, r3: Record)
    requires k1 != k2 && k1 != k3
    ensures Writes(d, d[k1 := r1][k2 := r2][k3 := r3], {k1, k2, k3})
    ensures d[k1 := r1][k2 := r2][k3 := r3][k1] == r1
    ensures k2 != k3 ==> d[k1 := r1][k2 := r2][k3 := r3][k2] == r2
  {
    WritesOne(d, k1, r1);
    WritesMore(d, d[k1 := r1], {k1}, k2, r2);
    WritesMore(d, d[k1 := r1][k2 := r2], {k1, k2}, k3, r3);
  }

  // ---------------------------------------------------------------- routes

  /** `POST /auth/signup`: every field present, a known role, and an account
      the identity provider agreed to create; then the profile is stored. */
  function Signup(d: Db, email: Option<Value>, password: Option<Value>, name: Option<Value>, role: Option<Value>,
                  created: Created, now: int): (o: Outcome<string>)
    ensures o.reply.Fail? ==> o.db == d
    ensures !(Truthy(email) && Truthy(password) && Truthy(name) && Truthy(role)) ==>
      o.reply == Fail(400, "Missing required fields")
    ensures Truthy(email) && Truthy(password) && Truthy(name) && Truthy(role) && !ValidRole(role) ==>
      o.reply == Fail(400, "Invalid role")
    ensures Truthy(email) && Truthy(password) && Truthy(name) && ValidRole(role) && created.Refused? ==>
      o.reply == Fail(400, created.message)
    ensures o.reply.Ok? <==> Truthy(email) && Truthy(password) && Truthy(name) && ValidRole(role) && created.Created?
    ensures o.reply.Ok? ==>
      var key := UserKey(created.id);
      && o.reply.body == created.id
      && Writes(d, o.db, {key})
      && Field(o.db[key], "id") == Some(Str(created.id))
      && Field(o.db[key], "role") == role && Field(o.db[key], "name") == name && Field(o.db[key], "email") == email
      && Field(o.db[key], "password") == None
    ensures WellFormed(d) ==> WellFormed(o.db)
    ensures !(created.Created? && UserKey(created.id) in d) ==> RolesKept(d, o.db)
  {
    if !(Truthy(email) && Truthy(password) && Truthy(name) && Truthy(role)) then
      Outcome(Fail(400, "Missing required fields"), d)
    else if !ValidRole(role) then
      Outcome(Fail(400, "Invalid role"), d)
    else match created
      case Refused(message) => Outcome(Fail(400, message), d)
      case Created(id) =>
        var key := UserKey(id);
        Under(UserPrefix, UserPrefix, id);
        NotUnder(GradePrefix, UserPrefix, id, 0);
        NotUnder(NoticePrefix, UserPrefix, id, 0);
        Outcome(Ok(id), d[key := UserRecord(id, email, name, role, now)])
  }

  /** Signing up under an id whose profile is already stored replaces that
      profile, role included: the route does not look before it writes. */
  lemma SignupOverwritesRole(d: Db, email: Option<Value>, password: Option<Value>, name: Option<Value>,
                             role: Option<Value>, id: string, now: int)
    requires Truthy(email) && Truthy(password) && Truthy(name) && ValidRole(role)
    requires UserKey(id) in d && Field(d[UserKey(id)], "role") != role
    ensures Signup(d, email, password, name, role, Created(id), now).reply == Ok(id)
    ensures !RolesKept(d, Signup(d, email, password, name, role, Created(id), now).db)
  {
    var o := Signup(d, email, password, name, role, Created(id), now);
    assert UserPrefix <= UserKey(id);
    assert Field(o.db[UserKey(id)], "role") == role;
  }

  /** `POST /courses`: instructors and admins only. */
  function CreateCourse(d: Db, caller: Option<AuthUser>, name: Option<Value>, description: Option<Value>,
                        now: nat, rnd: string): (o: Outcome<Record>)
    ensures !Authenticated(caller) ==> o == Outcome(Fail(401, "Unauthorized"), d)
    ensures Authenticated(caller) && !IsStaff(d, caller.value.id) ==>
      o == Outcome(Fail(403, "Insufficient permissions"), d)
    ensures o.reply.Ok? <==> Authenticated(caller) && IsStaff(d, caller.value.id)
    ensures o.reply.Ok? ==>
      var key := CourseKey(now, rnd);
      && Writes(d, o.db, {key}) && o.db[key] == o.reply.body
      && Field(o.reply.body, "id") == Some(Str(key))
      && Field(o.reply.body, "instructorId") == Some(Str(caller.value.id))
      && Field(o.reply.body, "name") == name && Field(o.reply.body, "description") == description
    ensures WellFormed(d) ==> WellFormed(o.db)
    ensures RolesKept(d, o.db)
  {
    if !Authenticated(caller) then Outcome(Fail(401, "Unauthorized"), d)
    else
      var user := caller.value;
      var profile := ProfileOf(d, user.id);
      if !StaffProfile(profile) then Outcome(Fail(403, "Insufficient permissions"), d)
      else
        var key := CourseKey(now, rnd);
        var course := CourseRecord(key, name, description, user.id, Field(profile.value, "name"), now);
        CourseKeyKind(now, rnd);
        Outcome(Ok(course), d[key := course])
  }

  /** `POST /materials/upload`: instructors and admins only; a file and a
      title are required, and the file must reach the blob store, which
      answers with its path (`stored`) or fails. */
  function UploadMaterial(d: Db, caller: Option<AuthUser>, file: Option<Upload>, title: Value, description: Value,
                          courseId: Value, stored: Option<string>, now: nat, rnd: string): (o: Outcome<Record>)
    ensures !Authenticated(caller) ==> o == Outcome(Fail(401, "Unauthorized"), d)
    ensures Authenticated(caller) && !IsStaff(d, caller.value.id) ==>
      o == Outcome(Fail(403, "Insufficient permissions"), d)
    ensures Authenticated(caller) && IsStaff(d, caller.value.id) && (file.None? || !Truthy(Some(title))) ==>
      o == Outcome(Fail(400, "Missing required fields"), d)
    ensures Authenticated(caller) && IsStaff(d, caller.value.id) && file.Some? && Truthy(Some(title)) && stored.None? ==>
      o == Outcome(Fail(500, "Failed to upload file"), d)
    ensures o.reply.Ok? <==>
      Authenticated(caller) && IsStaff(d, caller.value.id) && file.Some? && Truthy(Some(title)) && stored.Some?
    ensures o.reply.Ok? ==>
      var key := MaterialKey(now, rnd);
      && Writes(d, o.db, {key}) && o.db[key] == o.reply.body
      && Field(o.reply.body, "uploadedBy") == Some(Str(caller.value.id))
      && Field(o.reply.body, "filePath") == Some(Str(stored.value))
      && Field(o.reply.body, "courseId") == Some(courseId)
    ensures WellFormed(d) ==> WellFormed(o.db)
    ensures RolesKept(d, o.db)
  {
    if !Authenticated(caller) then Outcome(Fail(401, "Unauthorized"), d)
    else
      var user := caller.value;
      var profile := ProfileOf(d, user.id);
      if !StaffProfile(profile) then Outcome(Fail(403, "Insufficient permissions"), d)
      else if file.None? || !Truthy(Some(title)) then Outcome(Fail(400, "Missing required fields"), d)
      else if stored.None? then Outcome(Fail(500, "Failed to upload file"), d)
      else
        var key := MaterialKey(now, rnd);
        var material := MaterialRecord(key, title, description, file.value, stored.value, courseId, user.id,
                                       Field(profile.value, "name"), now);
        MaterialKeyKind(now, rnd);
        Outcome(Ok(material), d[key := material])
  }

  /** `POST /assessments`: instructors and admins only; stores the
      assessment and a broadcast notification announcing it. */
  function CreateAssessment(d: Db, caller: Option<AuthUser>, title: Option<Value>, description: Option<Value>,
                            courseId: Option<Value>, dueDate: Option<Value>, totalMarks: Option<Value>,
                            now: nat, rnd: string, noticeRnd: string): (o: Outcome<Record>)
    ensures !Authenticated(caller) ==> o == Outcome(Fail(401, "Unauthorized"), d)
    ensures Authenticated(caller) && !IsStaff(d, caller.value.id) ==>
      o == Outcome(Fail(403, "Insufficient permissions"), d)
    ensures o.reply.Ok? <==> Authenticated(caller) && IsStaff(d, caller.value.id)
    ensures WellFormed(d) ==> WellFormed(o.db)
    ensures RolesKept(d, o.db)
  {
    if !Authenticated(caller) then Outcome(Fail(401, "Unauthorized"), d)
    else
      var user := caller.value;
      var profile := ProfileOf(d, user.id);
      if !StaffProfile(profile) then Outcome(Fail(403, "Insufficient permissions"), d)
      else
        var key := AssessmentKey(now, rnd);
        var assessment := AssessmentRecord(key, title, description, courseId, dueDate, totalMarks, user.id,
                                           Field(profile.value, "name"), now);
        var notice := GlobalNoticeKey(now, noticeRnd);
        AssessmentKeyKind(now, rnd);
        GlobalNoticeKeyKind(now, noticeRnd, user.id);
        var d1 := d[key := assessment];
        KeepsAfterWrite(d, key, assessment);
        KeepsAfterWrite(d1, notice, AssessmentNotice(key, title, now));
        RolesKeptTrans(d, d1, d1[notice := AssessmentNotice(key, title, now)]);
        Outcome(Ok(assessment), d1[notice := AssessmentNotice(key, title, now)])
  }

  /** What creating an assessment writes: the assessment, holding the course,
      the total marks and the caller as its instructor, and a broadcast
      announcing it under a different key. Nothing else changes. */
  lemma CreateAssessmentWrites(d: Db, caller: Option<AuthUser>, title: Option<Value>, description: Option<Value>,
                               courseId: Option<Value>, dueDate: Option<Value>, totalMarks: Option<Value>,
                               now: nat, rnd: string, noticeRnd: string)
    requires CreateAssessment(d, caller, title, description, courseId, dueDate, totalMarks, now, rnd, noticeRnd).reply.Ok?
    ensures caller.Some?
    ensures
      var o := CreateAssessment(d, caller, title, description, courseId, dueDate, totalMarks, now, rnd, noticeRnd);
      var key := AssessmentKey(now, rnd);
      var notice := GlobalNoticeKey(now, noticeRnd);
      && key != notice
      && Writes(d, o.db, {key, notice}) && o.db[key] == o.reply.body
      && Field(o.reply.body, "courseId") == courseId && Field(o.reply.body, "totalMarks") == totalMarks
      && Field(o.reply.body, "instructorId") == Some(Str(caller.value.id))
      && Field(o.db[notice], "userId") == None
      && Field(o.db[notice], "type") == Some(Str("new_assessment"))
      && Field(o.db[notice], "assessmentId") == Some(Str(key))
  {
    var key := AssessmentKey(now, rnd);
    var notice := GlobalNoticeKey(now, noticeRnd);
    AssessmentKeyKind(now, rnd);
    GlobalNoticeKeyKind(now, noticeRnd, caller.value.id);
    assert key != notice;
    var o := CreateAssessment(d, caller, title, description, courseId, dueDate, totalMarks, now, rnd, noticeRnd);
    WritesOne(d, key, o.reply.body);
    WritesMore(d, d[key := o.reply.body], {key}, notice, AssessmentNotice(key, title, now));
  }

  /** The `studentName` of a submission: `profile?.name || user.email`. */
  function StudentName(profile: Option<Record>, user: AuthUser): (n: Option<Value>)
    ensures profile.Some? && Truthy(Field(profile.value, "name")) ==> n == Field(profile.value, "name")
    ensures !(profile.Some? && Truthy(Field(profile.value, "name"))) ==> n == user.email
  {
    var name := if profile.Some? then Field(profile.value, "name") else None;
    if Truthy(name) then name else user.email
  }

  /** `POST /submissions`: any signed-in user, with no role check and no
      check that the assessment exists; a file and an assessment id are
      required. Stores the submission as `submitted` and confirms it to the
      submitter. */
  function Submit(d: Db, caller: Option<AuthUser>, file: Option<Upload>, assessmentId: Value, stored: Option<string>,
                  now: nat, rnd: string): (o: Outcome<Record>)
    ensures !Authenticated(caller) ==> o == Outcome(Fail(401, "Unauthorized"), d)
    ensures Authenticated(caller) && (file.None? || !Truthy(Some(assessmentId))) ==>
      o == Outcome(Fail(400, "Missing required fields"), d)
    ensures Authenticated(caller) && file.Some? && Truthy(Some(assessmentId)) && stored.None? ==>
      o == Outcome(Fail(500, "Failed to upload file"), d)
    ensures o.reply.Ok? <==> Authenticated(caller) && file.Some? && Truthy(Some(assessmentId)) && stored.Some?
    ensures WellFormed(d) ==> WellFormed(o.db)
    ensures RolesKept(d, o.db)
  {
    if !Authenticated(caller) then Outcome(Fail(401, "Unauthorized"), d)
    else
      var user := caller.value;
      var profile := ProfileOf(d, user.id);
      if file.None? || !Truthy(Some(assessmentId)) then Outcome(Fail(400, "Missing required fields"), d)
      else if stored.None? then Outcome(Fail(500, "Failed to upload file"), d)
      else
        var key := SubmissionKey(now, rnd);
        var submission := SubmissionRecord(key, assessmentId, user.id, StudentName(profile, user), file.value,
                                           stored.value, now);
        var notice := FeedKey(user.id, now);
        SubmissionKeyKind(now, rnd);
        FeedKeyKind(user.id, now);
        var n := SubmittedNotice(user.id, key, now);
        var d1 := d[key := submission];
        KeepsAfterWrite(d, key, submission);
        KeepsAfterWrite(d1, notice, n);
        RolesKeptTrans(d, d1, d1[notice := n]);
        Outcome(Ok(submission), d1[notice := n])
  }

  /** The `submission_confirmed` notice a submission sends its submitter. */
  function SubmittedNotice(userId: string, submissionKey: string, now: nat): (n: Record)
    ensures HasStamp(n) && Field(n, "userId") == Some(Str(userId)) && Field(n, "read") == Some(Bool(false))
    ensures Field(n, "type") == Some(Str("submission_confirmed")) && Field(n, "submissionId") == Some(Str(submissionKey))
  {
    Notice(Some(Str(userId)), "submission_confirmed", "Your submission has been received successfully",
           "submissionId", submissionKey, now)
  }

  /** What a submission writes: the submission, `submitted`, by the caller,
      for the given assessment, and an unread confirmation in the caller's
      own feed. Nothing else changes. */
  lemma SubmitWrites(d: Db, caller: Option<AuthUser>, file: Option<Upload>, assessmentId: Value, stored: Option<string>,
                     now: nat, rnd: string)
    requires Submit(d, caller, file, assessmentId, stored, now, rnd).reply.Ok?
    ensures caller.Some?
    ensures
      var o := Submit(d, caller, file, assessmentId, stored, now, rnd);
      var key := SubmissionKey(now, rnd);
      var notice := FeedKey(caller.value.id, now);
      && key != notice
      && Writes(d, o.db, {key, notice}) && o.db[key] == o.reply.body
      && Field(o.reply.body, "status") == Some(Str("submitted"))
      && Field(o.reply.body, "studentId") == Some(Str(caller.value.id))
      && Field(o.reply.body, "assessmentId") == Some(assessmentId)
      && Field(o.db[notice], "userId") == Some(Str(caller.value.id))
      && Field(o.db[notice], "type") == Some(Str("submission_confirmed"))
      && Field(o.db[notice], "submissionId") == Some(Str(key))
      && Field(o.db[notice], "read") == Some(Bool(false))
  {
    var key := SubmissionKey(now, rnd);
    var notice := FeedKey(caller.value.id, now);
    SubmissionKeyKind(now, rnd);
    FeedKeyKind(caller.value.id, now);
    assert key != notice;
    var o := Submit(d, caller, file, assessmentId, stored, now, rnd);
    var user := caller.value;
    var submission := SubmissionRecord(key, assessmentId, user.id, StudentName(ProfileOf(d, user.id), user), file.value,
                                       stored.value, now);
    var n := SubmittedNotice(user.id, key, now);
    assert o.reply.body == submission && o.db == d[key := submission][notice := n];
    WritesOne(d, key, submission);
    WritesMore(d, d[key := submission], {key}, notice, n);
  }

  /** `POST /grades`: instructors and admins only, checked before the
      submission is looked up. Stores the grade under `grade:` + the
      submission's key (one grade per submission, a re-grade replaces it and
      leaves it unverified), marks the submission `graded` and tells the
      student. The percentage is taken against the `totalMarks` of the
      request, not of the assessment. */
  function PostGrade(d: Db, caller: Option<AuthUser>, submissionId: string, grade: int, feedback: Option<Value>,
                     totalMarks: int, now: nat): (o: Outcome<Record>)
    requires totalMarks > 0
    ensures !Authenticated(caller) ==> o == Outcome(Fail(401, "Unauthorized"), d)
    ensures Authenticated(caller) && !IsStaff(d, caller.value.id) ==>
      o == Outcome(Fail(403, "Insufficient permissions"), d)
    ensures Authenticated(caller) && IsStaff(d, caller.value.id) && submissionId !in d ==>
      o == Outcome(Fail(404, "Submission not found"), d)
    ensures o.reply.Ok? <==> Authenticated(caller) && IsStaff(d, caller.value.id) && submissionId in d
  {
    if !Authenticated(caller) then Outcome(Fail(401, "Unauthorized"), d)
    else
      var user := caller.value;
      var profile := ProfileOf(d, user.id);
      if !StaffProfile(profile) then Outcome(Fail(403, "Insufficient permissions"), d)
      else if submissionId !in d then Outcome(Fail(404, "Submission not found"), d)
      else
        var sub := d[submissionId];
        var g := PostedGrade(d, caller, submissionId, grade, feedback, totalMarks, now);
        Outcome(Ok(g), d[GradeKey(submissionId) := g][submissionId := sub["status" := Str("graded")]]
                        [StudentFeedKey(sub, now) := GradePostedNotice(sub, submissionId, now)])
  }

  /** The grade record a successful grading stores and answers with. */
  function PostedGrade(d: Db, caller: Option<AuthUser>, submissionId: string, grade: int, feedback: Option<Value>,
                       totalMarks: int, now: nat): Record
    requires totalMarks > 0 && caller.Some? && submissionId in d
  {
    var profile := ProfileOf(d, caller.value.id);
    GradeRecord(submissionId, d[submissionId], grade, totalMarks, feedback, caller.value.id,
                if profile.Some? then Field(profile.value, "name") else None, now)
  }

  /** The `grade_posted` notice a successful grading sends. */
  function GradePostedNotice(sub: Record, submissionId: string, now: nat): (n: Record)
    ensures HasStamp(n) && Field(n, "userId") == Field(sub, "studentId") && Field(n, "read") == Some(Bool(false))
    ensures Field(n, "type") == Some(Str("grade_posted")) && Field(n, "gradeId") == Some(Str(GradeKey(submissionId)))
  {
    Notice(Field(sub, "studentId"), "grade_posted", "Your assessment has been graded and is pending verification",
           "gradeId", GradeKey(submissionId), now)
  }

  lemma PostGradeShape(d: Db, caller: Option<AuthUser>, submissionId: string, grade: int, feedback: Option<Value>,
                       totalMarks: int, now: nat)
    requires totalMarks > 0
    requires PostGrade(d, caller, submissionId, grade, feedback, totalMarks, now).reply.Ok?
    ensures caller.Some? && submissionId in d
    ensures
      var sub := d[submissionId];
      var g := PostedGrade(d, caller, submissionId, grade, feedback, totalMarks, now);
      PostGrade(d, caller, submissionId, grade, feedback, totalMarks, now) ==
        Outcome(Ok(g), d[GradeKey(submissionId) := g][submissionId := sub["status" := Str("graded")]]
                        [StudentFeedKey(sub, now) := GradePostedNotice(sub, submissionId, now)])
  {
  }

  /** What a successful grading writes: the grade under `grade:` + the
      submission's key, the submission, now `graded`, and a notice in the
      feed of the submission's student. Nothing else changes. */
  lemma PostGradeWrites(d: Db, caller: Option<AuthUser>, submissionId: string, grade: int, feedback: Option<Value>,
                        totalMarks: int, now: nat)
    requires totalMarks > 0
    requires PostGrade(d, caller, submissionId, grade, feedback, totalMarks, now).reply.Ok?
    ensures submissionId in d
    ensures
      var o := PostGrade(d, caller, submissionId, grade, feedback, totalMarks, now);
      var key := GradeKey(submissionId);
      var sub := d[submissionId];
      var notice := StudentFeedKey(sub, now);
      && Writes(d, o.db, {key, submissionId, notice})
      && o.db[key] == o.reply.body
      && (submissionId != notice ==> o.db[submissionId] == sub["status" := Str("graded")])
  {
    PostGradeShape(d, caller, submissionId, grade, feedback, totalMarks, now);
    var sub := d[submissionId];
    var key := GradeKey(submissionId);
    var g := PostedGrade(d, caller, submissionId, grade, feedback, totalMarks, now);
    var graded := sub["status" := Str("graded")];
    var notice := StudentFeedKey(sub, now);
    var n := GradePostedNotice(sub, submissionId, now);
    GradeKeyKind(submissionId);
    FeedKeyKind(Text(Field(sub, "studentId")), now);
    assert |key| > |submissionId|;
    WritesThree(d, key, g, submissionId, graded, notice, n);
  }

  /** The stored grade: the mark, the request's `totalMarks` and their
      percentage, unverified, linked to the submission, its student and its
      assessment, and graded by the caller. */
  lemma PostGradeRecord(d: Db, caller: Option<AuthUser>, submissionId: string, grade: int, feedback: Option<Value>,
                        totalMarks: int, now: nat)
    requires totalMarks > 0
    requires PostGrade(d, caller, submissionId, grade, feedback, totalMarks, now).reply.Ok?
    ensures caller.Some? && submissionId in d
    ensures
      var g := PostGrade(d, caller, submissionId, grade, feedback, totalMarks, now).reply.body;
      var sub := d[submissionId];
      && Field(g, "percentage") == Some(Num(Percent(grade, totalMarks)))
      && Field(g, "grade") == Some(Num(grade)) && Field(g, "totalMarks") == Some(Num(totalMarks))
      && Field(g, "verified") == Some(Bool(false))
      && Field(g, "submissionId") == Some(Str(submissionId))
      && Field(g, "studentId") == Field(sub, "studentId")
      && Field(g, "assessmentId") == Field(sub, "assessmentId")
      && Field(g, "gradedBy") == Some(Str(caller.value.id))
      && Field(g, "id") == Some(Str(GradeKey(submissionId))) && Field(g, "feedback") == feedback
      && Field(g, "verifiedBy") == None && Field(g, "verifiedAt") == None && Field(g, "verifiedByName") == None
  {
    PostGradeShape(d, caller, submissionId, grade, feedback, totalMarks, now);
  }

  /** The student of the submission is told, in their own feed, that the
      grade is posted and pending verification. */
  lemma PostGradeNotifies(d: Db, caller: Option<AuthUser>, submissionId: string, grade: int, feedback: Option<Value>,
                          totalMarks: int, now: nat)
    requires totalMarks > 0
    requires PostGrade(d, caller, submissionId, grade, feedback, totalMarks, now).reply.Ok?
    ensures submissionId in d
    ensures
      var sub := d[submissionId];
      var notice := StudentFeedKey(sub, now);
      var n := PostGrade(d, caller, submissionId, grade, feedback, totalMarks, now).db[notice];
      && Field(n, "userId") == Field(sub, "studentId")
      && Field(n, "type") == Some(Str("grade_posted"))
      && Field(n, "gradeId") == Some(Str(GradeKey(submissionId)))
      && Field(n, "read") == Some(Bool(false))
  {
    PostGradeShape(d, caller, submissionId, grade, feedback, totalMarks, now);
  }

  /** Grading keeps the store well formed and every role as it was. */
  lemma PostGradeKeeps(d: Db, caller: Option<AuthUser>, submissionId: string, grade: int, feedback: Option<Value>,
                       totalMarks: int, now: nat)
    requires totalMarks > 0
    ensures WellFormed(d) ==> WellFormed(PostGrade(d, caller, submissionId, grade, feedback, totalMarks, now).db)
    ensures RolesKept(d, PostGrade(d, caller, submissionId, grade, feedback, totalMarks, now).db)
  {
    if PostGrade(d, caller, submissionId, grade, feedback, totalMarks, now).reply.Ok? {
      PostGradeShape(d, caller, submissionId, grade, feedback, totalMarks, now);
      var sub := d[submissionId];
      var key := GradeKey(submissionId);
      var g := PostedGrade(d, caller, submissionId, grade, feedback, totalMarks, now);
      GradeKeyKind(submissionId);
      FeedKeyKind(Text(Field(sub, "studentId")), now);
      assert |key| > |submissionId|;
      assert Fits(key, g) by { assert HasPercentage(g); }
      GradedKeepsFields(sub);
      KeepsThree(d, key, g, submissionId, sub["status" := Str("graded")],
                 StudentFeedKey(sub, now), GradePostedNotice(sub, submissionId, now));
    }
  }

  /** Marking a record `graded` keeps its percentage, instant and role. */
  lemma GradedKeepsFields(r: Record)
    ensures Field(r["status" := Str("graded")], "percentage") == Field(r, "percentage")
    ensures Field(r["status" := Str("graded")], "timestamp") == Field(r, "timestamp")
    ensures Field(r["status" := Str("graded")], "role") == Field(r, "role")
  {
  }

  /** A new record, a record rewritten with its percentage, instant and role,
      and another new record: the store stays well formed and every role is
      kept. */
  lemma KeepsThree(d: Db, k1: string, r1: Record, k2: string, r2: Record, k3: string, r3: Record)
    requires Fits(k1, r1) && !(UserPrefix <= k1) && k1 != k2
    requires k2 in d
    requires Field(r2, "percentage") == Field(d[k2], "percentage")
    requires Field(r2, "timestamp") == Field(d[k2], "timestamp")
    requires Field(r2, "role") == Field(d[k2], "role")
    requires Fits(k3, r3) && !(UserPrefix <= k3)
    ensures WellFormed(d) ==> WellFormed(d[k1 := r1][k2 := r2][k3 := r3])
    ensures RolesKept(d, d[k1 := r1][k2 := r2][k3 := r3])
  {
    var d1 := d[k1 := r1];
    var d2 := d1[k2 := r2];
    KeepsAfterWrite(d, k1, r1);
    KeepsAfterRewrite(d1, k2, r2);
    KeepsAfterWrite(d2, k3, r3);
    RolesKeptTrans(d, d1, d2);
    RolesKeptTrans(d, d2, d2[k3 := r3]);
  }

  /** `PUT /grades/:id/verify`: admins only, checked before the grade is
      looked up. Records the verdict and who gave it, keeping the mark and
      the percentage, and, whenever the verdict is truthy (not only when it
      changes), tells the student the grade is released. A revocation tells
      no one. */
  function VerifyGrade(d: Db, caller: Option<AuthUser>, gradeId: string, verified: Option<Value>, now: nat): (o: Outcome<Record>)
    ensures !Authenticated(caller) ==> o == Outcome(Fail(401, "Unauthorized"), d)
    ensures Authenticated(caller) && !IsAdmin(d, caller.value.id) ==>
      o == Outcome(Fail(403, "Insufficient permissions - Admin only"), d)
    ensures Authenticated(caller) && IsAdmin(d, caller.value.id) && gradeId !in d ==>
      o == Outcome(Fail(404, "Grade not found"), d)
    ensures o.reply.Ok? <==> Authenticated(caller) && IsAdmin(d, caller.value.id) && gradeId in d
  {
    if !Authenticated(caller) then Outcome(Fail(401, "Unauthorized"), d)
    else
      var user := caller.value;
      var profile := ProfileOf(d, user.id);
      if !AdminProfile(profile) then Outcome(Fail(403, "Insufficient permissions - Admin only"), d)
      else if gradeId !in d then Outcome(Fail(404, "Grade not found"), d)
      else
        var g := d[gradeId];
        var g' := Verified(g, verified, user.id, Field(profile.value, "name"), now);
        if Truthy(verified) then Outcome(Ok(g'), d[gradeId := g'][StudentFeedKey(g, now) := GradeReleasedNotice(g, gradeId, now)])
        else Outcome(Ok(g'), d[gradeId := g'])
  }

  /** The `grade_released` notice a truthy verdict sends. */
  function GradeReleasedNotice(g: Record, gradeId: string, now: nat): (n: Record)
    ensures HasStamp(n) && Field(n, "userId") == Field(g, "studentId") && Field(n, "read") == Some(Bool(false))
    ensures Field(n, "type") == Some(Str("grade_released")) && Field(n, "gradeId") == Some(Str(gradeId))
  {
    Notice(Field(g, "studentId"), "grade_released", "Your grade has been officially verified and released",
           "gradeId", gradeId, now)
  }

  /** The grade after verification: the verdict and who gave it, when, and
      every other field, the mark and the percentage included, as it was. */
  lemma VerifyGradeRecord(d: Db, caller: Option<AuthUser>, gradeId: string, verified: Option<Value>, now: nat)
    requires VerifyGrade(d, caller, gradeId, verified, now).reply.Ok?
    ensures caller.Some? && gradeId in d
    ensures
      var v := VerifyGrade(d, caller, gradeId, verified, now).reply.body;
      && Field(v, "verified") == verified
      && Field(v, "verifiedBy") == Some(Str(caller.value.id))
      && Field(v, "verifiedAt") == Some(Stamp(now))
      && forall f :: !VerifyField(f) ==> Field(v, f) == Field(d[gradeId], f)
  {
  }

  /** A truthy verdict stores the grade and releases it to the student's
      feed; any other verdict (a revocation) stores the grade and tells no
      one. Nothing else changes. */
  lemma VerifyGradeWrites(d: Db, caller: Option<AuthUser>, gradeId: string, verified: Option<Value>, now: nat)
    requires VerifyGrade(d, caller, gradeId, verified, now).reply.Ok?
    ensures gradeId in d
    ensures
      var o := VerifyGrade(d, caller, gradeId, verified, now);
      var g := d[gradeId];
      var notice := StudentFeedKey(g, now);
      && (Truthy(verified) ==>
            && Writes(d, o.db, {gradeId, notice})
            && (gradeId != notice ==> o.db[gradeId] == o.reply.body)
            && Field(o.db[notice], "userId") == Field(g, "studentId")
            && Field(o.db[notice], "type") == Some(Str("grade_released"))
            && Field(o.db[notice], "gradeId") == Some(Str(gradeId)))
      && (!Truthy(verified) ==> Writes(d, o.db, {gradeId}) && o.db[gradeId] == o.reply.body)
  {
    var o := VerifyGrade(d, caller, gradeId, verified, now);
    var g := d[gradeId];
    var g' := o.reply.body;
    WritesOne(d, gradeId, g');
    if Truthy(verified) {
      WritesMore(d, d[gradeId := g'], {gradeId}, StudentFeedKey(g, now), GradeReleasedNotice(g, gradeId, now));
    }
  }

  /** Verification keeps the store well formed and every role as it was. */
  lemma VerifyGradeKeeps(d: Db, caller: Option<AuthUser>, gradeId: string, verified: Option<Value>, now: nat)
    ensures WellFormed(d) ==> WellFormed(VerifyGrade(d, caller, gradeId, verified, now).db)
    ensures RolesKept(d, VerifyGrade(d, caller, gradeId, verified, now).db)
  {
    var o := VerifyGrade(d, caller, gradeId, verified, now);
    if o.reply.Ok? {
      var g := d[gradeId];
      var g' := o.reply.body;
      var d1 := d[gradeId := g'];
      VerifyGradeRecord(d, caller, gradeId, verified, now);
      assert !VerifyField("percentage") && !VerifyField("timestamp") && !VerifyField("role");
      KeepsAfterRewrite(d, gradeId, g');
      if Truthy(verified) {
        var notice := StudentFeedKey(g, now);
        var n := GradeReleasedNotice(g, gradeId, now);
        FeedKeyKind(Text(Field(g, "studentId")), now);
        KeepsAfterWrite(d1, notice, n);
        RolesKeptTrans(d, d1, d1[notice := n]);
      }
    }
  }

  /** `PUT /notifications/:id/read`: marks the record read if there is one
      and reports success either way. */
  function MarkRead(d: Db, caller: Option<AuthUser>, id: string): (o: Outcome<bool>)
    ensures !Authenticated(caller) ==> o == Outcome(Fail(401, "Unauthorized"), d)
    ensures Authenticated(caller) ==> o.reply == Ok(true)
    ensures Authenticated(caller) && id !in d ==> o.db == d
    ensures Authenticated(caller) && id in d ==>
      && Writes(d, o.db, {id})
      && Field(o.db[id], "read") == Some(Bool(true))
      && forall f :: f != "read" ==> Field(o.db[id], f) == Field(d[id], f)
    ensures WellFormed(d) ==> WellFormed(o.db)
    ensures RolesKept(d, o.db)
  {
    if !Authenticated(caller) then Outcome(Fail(401, "Unauthorized"), d)
    else if id in d then
      var n := d[id]["read" := Bool(true)];
      KeepsAfterRewrite(d, id, n);
      Outcome(Ok(true), d[id := n])
    else Outcome(Ok(true), d)
  }

  // ------------------------------------------------------------ sequences

  /** The keys of the grade records in `d`. */
  ghost function GradeKeys(d: Db): set<string>
  {
    set k | k in d && GradePrefix <= k
  }

  /** Grading a submission adds its grade key to the grade records and no
      other. */
  lemma GradeKeysAfterGrade(d: Db, caller: Option<AuthUser>, submissionId: string, grade: int,
                            feedback: Option<Value>, totalMarks: int, now: nat)
    requires totalMarks > 0
    requires SubmissionPrefix <= submissionId
    requires PostGrade(d, caller, submissionId, grade, feedback, totalMarks, now).reply.Ok?
    ensures
      var e := PostGrade(d, caller, submissionId, grade, feedback, totalMarks, now).db;
      GradeKeys(e) == GradeKeys(d) + {GradeKey(submissionId)}
  {
    var e := PostGrade(d, caller, submissionId, grade, feedback, totalMarks, now).db;
    PostGradeWrites(d, caller, submissionId, grade, feedback, totalMarks, now);
    SubmissionPrefixKind(submissionId);
    GradeKeyKind(submissionId);
    var notice := StudentFeedKey(d[submissionId], now);
    FeedKeyKind(Text(Field(d[submissionId], "studentId")), now);
    GradeKeysGrow(d, e, GradeKey(submissionId), submissionId, notice);
  }

  /** Grading a submission leaves it `graded`, every other field as it was. */
  lemma GradeMarksGraded(d: Db, caller: Option<AuthUser>, submissionId: string, grade: int,
                         feedback: Option<Value>, totalMarks: int, now: nat)
    requires totalMarks > 0
    requires SubmissionPrefix <= submissionId
    requires PostGrade(d, caller, submissionId, grade, feedback, totalMarks, now).reply.Ok?
    ensures submissionId in d
    ensures
      var e := PostGrade(d, caller, submissionId, grade, feedback, totalMarks, now).db;
      && submissionId in e
      && Field(e[submissionId], "status") == Some(Str("graded"))
      && forall f :: f != "status" ==> Field(e[submissionId], f) == Field(d[submissionId], f)
  {
    PostGradeWrites(d, caller, submissionId, grade, feedback, totalMarks, now);
    SubmissionPrefixKind(submissionId);
    FeedKeyKind(Text(Field(d[submissionId], "studentId")), now);
    assert submissionId != StudentFeedKey(d[submissionId], now);
  }

  /** Writing one grade key and two keys of other kinds adds that grade key
      to the grade records and no other. */
  lemma GradeKeysGrow(d: Db, e: Db, g: string, a: string, b: string)
    requires e.Keys == d.Keys + {g, a, b}
    requires GradePrefix <= g && !(GradePrefix <= a) && !(GradePrefix <= b)
    ensures GradeKeys(e) == GradeKeys(d) + {g}
  {
  }

  /** Whoever could grade a submission once can grade it again: grading
      changes no role and removes no key. */
  lemma GradeAgain(d: Db, caller: Option<AuthUser>, submissionId: string, grade1: int, feedback1: Option<Value>,
                   totalMarks1: int, now1: nat, grade2: int, feedback2: Option<Value>, totalMarks2: int, now2: nat)
    requires totalMarks1 > 0 && totalMarks2 > 0
    requires PostGrade(d, caller, submissionId, grade1, feedback1, totalMarks1, now1).reply.Ok?
    ensures
      var d1 := PostGrade(d, caller, submissionId, grade1, feedback1, totalMarks1, now1).db;
      PostGrade(d1, caller, submissionId, grade2, feedback2, totalMarks2, now2).reply.Ok?
  {
    var d1 := PostGrade(d, caller, submissionId, grade1, feedback1, totalMarks1, now1).db;
    PostGradeWrites(d, caller, submissionId, grade1, feedback1, totalMarks1, now1);
    PostGradeKeeps(d, caller, submissionId, grade1, feedback1, totalMarks1, now1);
    var id := caller.value.id;
    assert UserPrefix <= UserKey(id) by { Under(UserPrefix, UserPrefix, id); }
    assert IsStaff(d1, id);
  }

  /** Grading a submission twice leaves exactly one grade record for it,
      holding the newest mark, percentage and `verified = false`. */
  lemma Regrade(d: Db, caller: Option<AuthUser>, submissionId: string,
                grade1: int, feedback1: Option<Value>, totalMarks1: int, now1: nat,
                grade2: int, feedback2: Option<Value>, totalMarks2: int, now2: nat)
    requires totalMarks1 > 0 && totalMarks2 > 0
    requires SubmissionPrefix <= submissionId
    requires PostGrade(d, caller, submissionId, grade1, feedback1, totalMarks1, now1).reply.Ok?
    ensures
      var d1 := PostGrade(d, caller, submissionId, grade1, feedback1, totalMarks1, now1).db;
      var o2 := PostGrade(d1, caller, submissionId, grade2, feedback2, totalMarks2, now2);
      var g := o2.db[GradeKey(submissionId)];
      && o2.reply.Ok?
      && GradeKeys(o2.db) == GradeKeys(d) + {GradeKey(submissionId)}
      && g == o2.reply.body
      && Field(g, "grade") == Some(Num(grade2))
      && Field(g, "percentage") == Some(Num(Percent(grade2, totalMarks2)))
      && Field(g, "verified") == Some(Bool(false))
      && Field(g, "feedback") == feedback2
      && Field(g, "verifiedBy") == None && Field(g, "verifiedAt") == None && Field(g, "verifiedByName") == None
      && Field(o2.db[submissionId], "status") == Some(Str("graded"))
  {
    var d1 := PostGrade(d, caller, submissionId, grade1, feedback1, totalMarks1, now1).db;
    GradeAgain(d, caller, submissionId, grade1, feedback1, totalMarks1, now1, grade2, feedback2, totalMarks2, now2);
    GradeKeysAfterGrade(d, caller, submissionId, grade1, feedback1, totalMarks1, now1);
    GradeKeysAfterGrade(d1, caller, submissionId, grade2, feedback2, totalMarks2, now2);
    GradeMarksGraded(d1, caller, submissionId, grade2, feedback2, totalMarks2, now2);
    PostGradeWrites(d1, caller, submissionId, grade2, feedback2, totalMarks2, now2);
    PostGradeRecord(d1, caller, submissionId, grade2, feedback2, totalMarks2, now2);
  }

  /** Releasing a grade and then revoking it leaves it unverified, with its
      mark and percentage as they were before either step; the revocation
      writes the grade alone and sends no notification. */
  lemma ReleaseThenRevoke(d: Db, caller: Option<AuthUser>, gradeId: string, now1: nat, now2: nat)
    requires GradePrefix <= gradeId
    requires VerifyGrade(d, caller, gradeId, Some(Bool(true)), now1).reply.Ok?
    ensures
      var d1 := VerifyGrade(d, caller, gradeId, Some(Bool(true)), now1).db;
      var o2 := VerifyGrade(d1, caller, gradeId, Some(Bool(false)), now2);
      && o2.reply.Ok?
      && Writes(d1, o2.db, {gradeId})
      && Field(o2.db[gradeId], "verified") == Some(Bool(false))
      && forall f :: !VerifyField(f) ==> Field(o2.db[gradeId], f) == Field(d[gradeId], f)
  {
    var o1 := VerifyGrade(d, caller, gradeId, Some(Bool(true)), now1);
    var d1 := o1.db;
    VerifyGradeWrites(d, caller, gradeId, Some(Bool(true)), now1);
    VerifyGradeRecord(d, caller, gradeId, Some(Bool(true)), now1);
    VerifyGradeKeeps(d, caller, gradeId, Some(Bool(true)), now1);
    var id := caller.value.id;
    assert UserPrefix <= UserKey(id) by { Under(UserPrefix, UserPrefix, id); }
    assert IsAdmin(d1, id);
    var notice := StudentFeedKey(d[gradeId], now1);
    FeedKeyKind(Text(Field(d[gradeId], "studentId")), now1);
    assert gradeId != notice;
    assert d1[gradeId] == o1.reply.body;
    var o2 := VerifyGrade(d1, caller, gradeId, Some(Bool(false)), now2);
    assert o2.reply.Ok?;
    VerifyGradeWrites(d1, caller, gradeId, Some(Bool(false)), now2);
    VerifyGradeRecord(d1, caller, gradeId, Some(Bool(false)), now2);
  }

  /** Roles kept from `d` to `e` keep every gate a caller passes in `d`. */
  lemma GatesKept(d: Db, e: Db, id: string)
    requires RolesKept(d, e)
    ensures IsStaff(d, id) ==> IsStaff(e, id)
    ensures IsAdmin(d, id) ==> IsAdmin(e, id)
  {
    Under(UserPrefix, UserPrefix, id);
  }

  /** A submission marked 85 out of 100 right after it is made: both steps
      succeed, the grade holds the student, the mark and the percentage, and
      every gate passed before still passes. */
  lemma SubmitThenGrade(d: Db, student: AuthUser, file: Upload, assessmentId: Value, path: string,
                        marker: AuthUser, feedback: Option<Value>, t1: nat, t2: nat, rnd: string, id: string)
    requires Authenticated(Some(student)) && Truthy(Some(assessmentId))
    requires Authenticated(Some(marker)) && IsStaff(d, marker.id)
    ensures
      var sid := SubmissionKey(t1, rnd);
      var s := Submit(d, Some(student), Some(file), assessmentId, Some(path), t1, rnd);
      var p := PostGrade(s.db, Some(marker), sid, 85, feedback, 100, t2);
      && s.reply.Ok? && p.reply.Ok?
      && GradeKey(sid) in p.db
      && Field(p.db[GradeKey(sid)], "grade") == Some(Num(85))
      && Field(p.db[GradeKey(sid)], "percentage") == Some(Num(85))
      && Field(p.db[GradeKey(sid)], "studentId") == Some(Str(student.id))
      && (IsAdmin(d, id) ==> IsAdmin(p.db, id))
  {
    var sid := SubmissionKey(t1, rnd);
    var s := Submit(d, Some(student), Some(file), assessmentId, Some(path), t1, rnd);
    SubmitWrites(d, Some(student), Some(file), assessmentId, Some(path), t1, rnd);
    GatesKept(d, s.db, marker.id);
    GatesKept(d, s.db, id);
    var p := PostGrade(s.db, Some(marker), sid, 85, feedback, 100, t2);
    assert p.reply.Ok?;
    PostGradeWrites(s.db, Some(marker), sid, 85, feedback, 100, t2);
    PostGradeRecord(s.db, Some(marker), sid, 85, feedback, 100, t2);
    PostGradeKeeps(s.db, Some(marker), sid, 85, feedback, 100, t2);
    PercentOfHundred(85);
    GatesKept(s.db, p.db, id);
  }

  /** The life of one submission: a student submits, a member of staff marks
      it 85 out of 100, an admin releases the grade and then revokes it.
      Every step succeeds; the release is recorded, and after the revocation
      the grade is unverified again with the student, the mark and the
      percentage it was given. */
  lemma SubmitGradeReleaseRevoke(d: Db, student: AuthUser, file: Upload, assessmentId: Value, path: string,
                                 marker: AuthUser, feedback: Option<Value>, admin: AuthUser,
                                 t1: nat, t2: nat, t3: nat, t4: nat, rnd: string)
    requires Authenticated(Some(student)) && Truthy(Some(assessmentId))
    requires Authenticated(Some(marker)) && IsStaff(d, marker.id)
    requires Authenticated(Some(admin)) && IsAdmin(d, admin.id)
    ensures
      var gid := GradeKey(SubmissionKey(t1, rnd));
      var s := Submit(d, Some(student), Some(file), assessmentId, Some(path), t1, rnd);
      var p := PostGrade(s.db, Some(marker), SubmissionKey(t1, rnd), 85, feedback, 100, t2);
      var v := VerifyGrade(p.db, Some(admin), gid, Some(Bool(true)), t3);
      var r := VerifyGrade(v.db, Some(admin), gid, Some(Bool(false)), t4);
      && s.reply.Ok? && p.reply.Ok? && v.reply.Ok? && r.reply.Ok?
      && Field(v.reply.body, "verified") == Some(Bool(true))
      && gid in r.db
      && Field(r.db[gid], "verified") == Some(Bool(false))
      && Field(r.db[gid], "grade") == Some(Num(85))
      && Field(r.db[gid], "percentage") == Some(Num(85))
      && Field(r.db[gid], "studentId") == Some(Str(student.id))
  {
    var sid := SubmissionKey(t1, rnd);
    SubmitThenGrade(d, student, file, assessmentId, path, marker, feedback, t1, t2, rnd, admin.id);
    GradeKeyKind(sid);
    var s := Submit(d, Some(student), Some(file), assessmentId, Some(path), t1, rnd);
    ReleaseThenRevokeKeeps(PostGrade(s.db, Some(marker), sid, 85, feedback, 100, t2).db, admin, GradeKey(sid), t3, t4);
  }

  /** An admin releases a stored grade and then revokes it: both steps
      succeed, and the grade ends unverified with its mark, percentage and
      student as before. */
  lemma ReleaseThenRevokeKeeps(d: Db, admin: AuthUser, gid: string, t3: nat, t4: nat)
    requires Authenticated(Some(admin)) && IsAdmin(d, admin.id)
    requires GradePrefix <= gid && gid in d
    ensures
      var v := VerifyGrade(d, Some(admin), gid, Some(Bool(true)), t3);
      var r := VerifyGrade(v.db, Some(admin), gid, Some(Bool(false)), t4);
      && v.reply.Ok? && r.reply.Ok?
      && Field(v.reply.body, "verified") == Some(Bool(true))
      && gid in r.db
      && Field(r.db[gid], "verified") == Some(Bool(false))
      && Field(r.db[gid], "grade") == Field(d[gid], "grade")
      && Field(r.db[gid], "percentage") == Field(d[gid], "percentage")
      && Field(r.db[gid], "studentId") == Field(d[gid], "studentId")
  {
    AdminReleases(d, admin, gid, t3);
    ReleaseThenRevoke(d, Some(admin), gid, t3, t4);
    var v := VerifyGrade(d, Some(admin), gid, Some(Bool(true)), t3);
    MarksKept(d[gid], VerifyGrade(v.db, Some(admin), gid, Some(Bool(false)), t4).db[gid]);
  }

  /** An admin's release of a stored grade succeeds and records the verdict. */
  lemma AdminReleases(d: Db, admin: AuthUser, gid: string, now: nat)
    requires Authenticated(Some(admin)) && IsAdmin(d, admin.id) && gid in d
    ensures
      var v := VerifyGrade(d, Some(admin), gid, Some(Bool(true)), now);
      v.reply.Ok? && Field(v.reply.body, "verified") == Some(Bool(true))
  {
    VerifyGradeRecord(d, Some(admin), gid, Some(Bool(true)), now);
  }

  /** A record that keeps every field outside `verify`'s keeps the mark, the
      percentage and the student. */
  lemma MarksKept(g: Record, g': Record)
    requires forall f :: !VerifyField(f) ==> Field(g', f) == Field(g, f)
    ensures Field(g', "grade") == Field(g, "grade") && Field(g', "percentage") == Field(g, "percentage")
    ensures Field(g', "studentId") == Field(g, "studentId")
  {
    assert !VerifyField("grade") && !VerifyField("percentage") && !VerifyField("studentId");
  }

  /** Marking a notification read twice is marking it once. */
  lemma MarkReadIdempotent(d: Db, caller: Option<AuthUser>, id: string)
    ensures MarkRead(MarkRead(d, caller, id).db, caller, id) == MarkRead(d, caller, id)
  {
    if Authenticated(caller) && id in d {
      var n := d[id]["read" := Bool(true)];
      assert n["read" := Bool(true)] == n;
      assert d[id := n][id := n] == d[id := n];
    }
  }
}
