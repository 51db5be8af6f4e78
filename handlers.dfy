/**
 * The writing routes as the server runs them: a sequence of `kv.get` and
 * `kv.set` calls on the shared store, with records fetched, updated in place
 * and written back. Each handler ends in exactly the outcome the matching
 * transition of `Workflow` describes, and keeps the store well formed.
 */
module Handlers {
  import opened Values
  import opened Keys
  import opened KvStore
  import opened Access
  import opened Workflow

  /** `POST /auth/signup`. */
  method Signup(kv: Store, email: Option<Value>, password: Option<Value>, name: Option<Value>, role: Option<Value>,
                created: Created, now: int) returns (reply: Reply<string>)
    requires kv.Valid()
    modifies kv
    ensures kv.Valid()
    ensures Outcome(reply, kv.data) == Workflow.Signup(old(kv.data), email, password, name, role, created, now)
    ensures WellFormed(old(kv.data)) ==> WellFormed(kv.data)
  {
    ghost var before := kv.data;
    if !(Truthy(email) && Truthy(password) && Truthy(name) && Truthy(role)) {
      return Fail(400, "Missing required fields");
    }
    if !ValidRole(role) {
      return Fail(400, "Invalid role");
    }
    if created.Refused? {
      return Fail(400, created.message);
    }
    kv.Set(UserKey(created.id), UserRecord(created.id, email, name, role, now));
    reply := Ok(created.id);
    assert Workflow.Signup(before, email, password, name, role, created, now).reply == reply;
  }

  /** `POST /courses`. */
  method CreateCourse(kv: Store, caller: Option<AuthUser>, name: Option<Value>, description: Option<Value>,
                      now: nat, rnd: string) returns (reply: Reply<Record>)
    requires kv.Valid()
    modifies kv
    ensures kv.Valid()
    ensures Outcome(reply, kv.data) == Workflow.CreateCourse(old(kv.data), caller, name, description, now, rnd)
    ensures WellFormed(old(kv.data)) ==> WellFormed(kv.data)
  {
    if !Authenticated(caller) {
      return Fail(401, "Unauthorized");
    }
    var user := caller.value;
    var profile := kv.Get(UserKey(user.id));
    if !StaffProfile(profile) {
      return Fail(403, "Insufficient permissions");
    }
    var courseId := CourseKey(now, rnd);
    var course := CourseRecord(courseId, name, description, user.id, Field(profile.value, "name"), now);
    kv.Set(courseId, course);
    return Ok(course);
  }

  /** `POST /materials/upload`; `stored` is the blob store's answer to the
      upload: the file's path, or `None` when it failed. */
  method UploadMaterial(kv: Store, caller: Option<AuthUser>, file: Option<Upload>, title: Value, description: Value,
                        courseId: Value, stored: Option<string>, now: nat, rnd: string) returns (reply: Reply<Record>)
    requires kv.Valid()
    modifies kv
    ensures kv.Valid()
    ensures Outcome(reply, kv.data) ==
            Workflow.UploadMaterial(old(kv.data), caller, file, title, description, courseId, stored, now, rnd)
    ensures WellFormed(old(kv.data)) ==> WellFormed(kv.data)
  {
    if !Authenticated(caller) {
      return Fail(401, "Unauthorized");
    }
    var user := caller.value;
    var profile := kv.Get(UserKey(user.id));
    if !StaffProfile(profile) {
      return Fail(403, "Insufficient permissions");
    }
    if file.None? || !Truthy(Some(title)) {
      return Fail(400, "Missing required fields");
    }
    if stored.None? {
      return Fail(500, "Failed to upload file");
    }
    var materialId := MaterialKey(now, rnd);
    var material := MaterialRecord(materialId, title, description, file.value, stored.value, courseId, user.id,
                                   Field(profile.value, "name"), now);
    kv.Set(materialId, material);
    return Ok(material);
  }

  /** `POST /assessments`: the assessment first, then the broadcast. */
  method CreateAssessment(kv: Store, caller: Option<AuthUser>, title: Option<Value>, description: Option<Value>,
                          courseId: Option<Value>, dueDate: Option<Value>, totalMarks: Option<Value>,
                          now: nat, rnd: string, noticeRnd: string) returns (reply: Reply<Record>)
    requires kv.Valid()
    modifies kv
    ensures kv.Valid()
    ensures Outcome(reply, kv.data) ==
            Workflow.CreateAssessment(old(kv.data), caller, title, description, courseId, dueDate, totalMarks,
                                      now, rnd, noticeRnd)
    ensures WellFormed(old(kv.data)) ==> WellFormed(kv.data)
  {
    if !Authenticated(caller) {
      return Fail(401, "Unauthorized");
    }
    var user := caller.value;
    var profile := kv.Get(UserKey(user.id));
    if !StaffProfile(profile) {
      return Fail(403, "Insufficient permissions");
    }
    var assessmentId := AssessmentKey(now, rnd);
    var assessment := AssessmentRecord(assessmentId, title, description, courseId, dueDate, totalMarks, user.id,
                                       Field(profile.value, "name"), now);
    kv.Set(assessmentId, assessment);
    kv.Set(GlobalNoticeKey(now, noticeRnd), AssessmentNotice(assessmentId, title, now));
    return Ok(assessment);
  }

  /** `POST /submissions`: the submission first, then the confirmation. */
  method Submit(kv: Store, caller: Option<AuthUser>, file: Option<Upload>, assessmentId: Value,
                stored: Option<string>, now: nat, rnd: string) returns (reply: Reply<Record>)
    requires kv.Valid()
    modifies kv
    ensures kv.Valid()
    ensures Outcome(reply, kv.data) == Workflow.Submit(old(kv.data), caller, file, assessmentId, stored, now, rnd)
    ensures WellFormed(old(kv.data)) ==> WellFormed(kv.data)
  {
    if !Authenticated(caller) {
      return Fail(401, "Unauthorized");
    }
    var user := caller.value;
    var profile := kv.Get(UserKey(user.id));
    if file.None? || !Truthy(Some(assessmentId)) {
      return Fail(400, "Missing required fields");
    }
    if stored.None? {
      return Fail(500, "Failed to upload file");
    }
    var submissionId := SubmissionKey(now, rnd);
    var submission := SubmissionRecord(submissionId, assessmentId, user.id, StudentName(profile, user), file.value,
                                       stored.value, now);
    kv.Set(submissionId, submission);
    kv.Set(FeedKey(user.id, now), SubmittedNotice(user.id, submissionId, now));
    return Ok(submission);
  }

  /** `POST /grades`: the grade, then the submission marked `graded` in
      place and written back, then the notice to its student. */
  method PostGrade(kv: Store, caller: Option<AuthUser>, submissionId: string, grade: int, feedback: Option<Value>,
                   totalMarks: int, now: nat) returns (reply: Reply<Record>)
    requires kv.Valid() && totalMarks > 0
    modifies kv
    ensures kv.Valid()
    ensures Outcome(reply, kv.data) ==
            Workflow.PostGrade(old(kv.data), caller, submissionId, grade, feedback, totalMarks, now)
    ensures WellFormed(old(kv.data)) ==> WellFormed(kv.data)
  {
    PostGradeKeeps(kv.data, caller, submissionId, grade, feedback, totalMarks, now);
    if !Authenticated(caller) {
      return Fail(401, "Unauthorized");
    }
    var user := caller.value;
    var profile := kv.Get(UserKey(user.id));
    if !StaffProfile(profile) {
      return Fail(403, "Insufficient permissions");
    }
    var found := kv.Get(submissionId);
    if found.None? {
      return Fail(404, "Submission not found");
    }
    var submission := found.value;
    var gradeId := GradeKey(submissionId);
    var gradeData := GradeRecord(submissionId, submission, grade, totalMarks, feedback, user.id,
                                 Field(profile.value, "name"), now);
    kv.Set(gradeId, gradeData);
    var notice := GradePostedNotice(submission, submissionId, now);
    submission := submission["status" := Str("graded")];
    kv.Set(submissionId, submission);
    kv.Set(StudentFeedKey(found.value, now), notice);
    return Ok(gradeData);
  }

  /** `PUT /grades/:id/verify`: the grade updated in place and written back,
      then, for a truthy verdict, the release notice. */
  method VerifyGrade(kv: Store, caller: Option<AuthUser>, gradeId: string, verified: Option<Value>, now: nat)
    returns (reply: Reply<Record>)
    requires kv.Valid()
    modifies kv
    ensures kv.Valid()
    ensures Outcome(reply, kv.data) == Workflow.VerifyGrade(old(kv.data), caller, gradeId, verified, now)
    ensures WellFormed(old(kv.data)) ==> WellFormed(kv.data)
  {
    VerifyGradeKeeps(kv.data, caller, gradeId, verified, now);
    if !Authenticated(caller) {
      return Fail(401, "Unauthorized");
    }
    var user := caller.value;
    var profile := kv.Get(UserKey(user.id));
    if !AdminProfile(profile) {
      return Fail(403, "Insufficient permissions - Admin only");
    }
    var found := kv.Get(gradeId);
    if found.None? {
      return Fail(404, "Grade not found");
    }
    var grade := found.value;
    grade := With(grade, "verified", verified);
    grade := grade["verifiedAt" := Stamp(now)];
    grade := grade["verifiedBy" := Str(user.id)];
    grade := With(grade, "verifiedByName", Field(profile.value, "name"));
    assert grade == Verified(found.value, verified, user.id, Field(profile.value, "name"), now);
    kv.Set(gradeId, grade);
    if Truthy(verified) {
      kv.Set(StudentFeedKey(found.value, now), GradeReleasedNotice(found.value, gradeId, now));
    }
    return Ok(grade);
  }

  /** `PUT /notifications/:id/read`: the record, if there is one, marked read
      in place and written back. */
  method MarkRead(kv: Store, caller: Option<AuthUser>, id: string) returns (reply: Reply<bool>)
    requires kv.Valid()
    modifies kv
    ensures kv.Valid()
    ensures Outcome(reply, kv.data) == Workflow.MarkRead(old(kv.data), caller, id)
    ensures WellFormed(old(kv.data)) ==> WellFormed(kv.data)
  {
    if !Authenticated(caller) {
      return Fail(401, "Unauthorized");
    }
    var found := kv.Get(id);
    if found.Some? {
      var notification := found.value;
      notification := notification["read" := Bool(true)];
      kv.Set(id, notification);
    }
    return Ok(true);
  }
}
