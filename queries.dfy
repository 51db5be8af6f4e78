/**
 * The reading routes: listings with their optional filters, single-record
 * lookups, downloads, the notification feed and the two reports. Each reads
 * the store and writes nothing. Where a route counts records, the count is
 * proved to be a number of keys, so it does not depend on the order in which
 * the store enumerates them.
 */
module Queries {
  import opened Values
  import opened Keys
  import opened KvStore
  import opened Access
  import opened Feed
  import opened Reports

  /** `if (v) rs = rs.filter(r => r[f] === v)` for a query parameter `v`,
      which is absent or a string. */
  function WhereField(rs: seq<Record>, f: string, v: Option<string>): (out: seq<Record>)
    ensures forall r :: r in out <==> r in rs && (v.Some? && v.value != "" ==> Field(r, f) == Some(Str(v.value)))
  {
    if v.Some? && v.value != "" then Filter(rs, r => Field(r, f) == Some(Str(v.value))) else rs
  }

  /** `GET /courses`: every course, to anyone. */
  function ListCourses(kv: Store): (rs: seq<Record>)
    reads kv
    requires kv.Valid()
    ensures forall r :: r in rs <==> exists k :: k in kv.data && CoursePrefix <= k && kv.data[k] == r
  {
    kv.GetByPrefix(CoursePrefix)
  }

  /** `GET /materials?courseId=`: the materials, of one course when a
      non-empty `courseId` is given; no sign-in needed. */
  function ListMaterials(kv: Store, courseId: Option<string>): (rs: seq<Record>)
    reads kv
    requires kv.Valid()
    ensures forall r :: r in rs <==>
      && (exists k :: k in kv.data && MaterialPrefix <= k && kv.data[k] == r)
      && (courseId.Some? && courseId.value != "" ==> Field(r, "courseId") == Some(Str(courseId.value)))
  {
    WhereField(kv.GetByPrefix(MaterialPrefix), "courseId", courseId)
  }

  /** `GET /assessments?courseId=`: as for materials. */
  function ListAssessments(kv: Store, courseId: Option<string>): (rs: seq<Record>)
    reads kv
    requires kv.Valid()
    ensures forall r :: r in rs <==>
      && (exists k :: k in kv.data && AssessmentPrefix <= k && kv.data[k] == r)
      && (courseId.Some? && courseId.value != "" ==> Field(r, "courseId") == Some(Str(courseId.value)))
  {
    WhereField(kv.GetByPrefix(AssessmentPrefix), "courseId", courseId)
  }

  /** `GET /submissions?assessmentId=&studentId=`: any signed-in user may
      list anyone's submissions. */
  function ListSubmissions(kv: Store, caller: Option<AuthUser>, assessmentId: Option<string>, studentId: Option<string>)
    : (r: Reply<seq<Record>>)
    reads kv
    requires kv.Valid()
    ensures r.Fail? <==> !Authenticated(caller)
    ensures r.Fail? ==> r == Fail(401, "Unauthorized")
    ensures r.Ok? ==> forall s :: s in r.body <==>
      && (exists k :: k in kv.data && SubmissionPrefix <= k && kv.data[k] == s)
      && (assessmentId.Some? && assessmentId.value != "" ==> Field(s, "assessmentId") == Some(Str(assessmentId.value)))
      && (studentId.Some? && studentId.value != "" ==> Field(s, "studentId") == Some(Str(studentId.value)))
  {
    if !Authenticated(caller) then Fail(401, "Unauthorized")
    else Ok(WhereField(WhereField(kv.GetByPrefix(SubmissionPrefix), "assessmentId", assessmentId), "studentId", studentId))
  }

  /** `GET /grades?studentId=&assessmentId=`: any signed-in user may list
      anyone's grades, verified or not. */
  function ListGrades(kv: Store, caller: Option<AuthUser>, studentId: Option<string>, assessmentId: Option<string>)
    : (r: Reply<seq<Record>>)
    reads kv
    requires kv.Valid()
    ensures r.Fail? <==> !Authenticated(caller)
    ensures r.Fail? ==> r == Fail(401, "Unauthorized")
    ensures r.Ok? ==> forall g :: g in r.body <==>
      && (exists k :: k in kv.data && GradePrefix <= k && kv.data[k] == g)
      && (studentId.Some? && studentId.value != "" ==> Field(g, "studentId") == Some(Str(studentId.value)))
      && (assessmentId.Some? && assessmentId.value != "" ==> Field(g, "assessmentId") == Some(Str(assessmentId.value)))
  {
    if !Authenticated(caller) then Fail(401, "Unauthorized")
    else Ok(WhereField(WhereField(kv.GetByPrefix(GradePrefix), "studentId", studentId), "assessmentId", assessmentId))
  }

  /** `GET /grades/submission/:submissionId`: the one grade of a submission,
      found by its key; no sign-in needed. */
  function GradeForSubmission(kv: Store, submissionId: string): (r: Reply<Record>)
    reads kv
    ensures r.Ok? <==> GradeKey(submissionId) in kv.data
    ensures r.Ok? ==> r.body == kv.data[GradeKey(submissionId)]
    ensures r.Fail? ==> r == Fail(404, "Grade not found")
  {
    match kv.Get(GradeKey(submissionId))
    case Some(g) => Ok(g)
    case None => Fail(404, "Grade not found")
  }

  /** The download routes: the record's file as a signed URL, which the blob
      store gives (`signedUrl`) or refuses. Any signed-in user may download
      any material and any submission. */
  function Download(kv: Store, caller: Option<AuthUser>, id: string, signedUrl: Option<string>, missing: string)
    : (r: Reply<Record>)
    reads kv
    ensures !Authenticated(caller) ==> r == Fail(401, "Unauthorized")
    ensures Authenticated(caller) && id !in kv.data ==> r == Fail(404, missing)
    ensures Authenticated(caller) && id in kv.data && signedUrl.None? ==> r == Fail(500, "Failed to generate download URL")
    ensures r.Ok? <==> Authenticated(caller) && id in kv.data && signedUrl.Some?
    ensures r.Ok? ==> Field(r.body, "url") == Some(Str(signedUrl.value))
                      && Field(r.body, "fileName") == Field(kv.data[id], "fileName")
  {
    if !Authenticated(caller) then Fail(401, "Unauthorized")
    else match kv.Get(id)
      case None => Fail(404, missing)
      case Some(rec) =>
        if signedUrl.None? then Fail(500, "Failed to generate download URL")
        else Ok(With(map["url" := Str(signedUrl.value)], "fileName", Field(rec, "fileName")))
  }

  /** `GET /materials/:id/download`. */
  function DownloadMaterial(kv: Store, caller: Option<AuthUser>, id: string, signedUrl: Option<string>)
    : (r: Reply<Record>)
    reads kv
    ensures Authenticated(caller) && id !in kv.data ==> r == Fail(404, "Material not found")
    ensures r.Ok? ==> signedUrl.Some? && Field(r.body, "url") == Some(Str(signedUrl.value))
  {
    Download(kv, caller, id, signedUrl, "Material not found")
  }

  /** `GET /submissions/:id/download`. */
  function DownloadSubmission(kv: Store, caller: Option<AuthUser>, id: string, signedUrl: Option<string>)
    : (r: Reply<Record>)
    reads kv
    ensures Authenticated(caller) && id !in kv.data ==> r == Fail(404, "Submission not found")
    ensures r.Ok? ==> id in kv.data && Field(r.body, "fileName") == Field(kv.data[id], "fileName")
  {
    Download(kv, caller, id, signedUrl, "Submission not found")
  }

  // ------------------------------------------------------------------ feed

  /** The keys whose records a user's feed shows: those in the user's own
      feed and the notifications without a `userId`. */
  ghost function FeedKeys(d: Db, userId: string): set<string>
  {
    set k | k in d && (FeedPrefix(userId) <= k || (NoticePrefix <= k && !Truthy(Field(d[k], "userId"))))
  }

  /** The records of the broadcast notifications. */
  function Broadcasts(kv: Store): (rs: seq<Record>)
    reads kv
    requires kv.Valid()
    ensures forall r :: r in rs <==> exists k :: k in kv.data && NoticePrefix <= k && kv.data[k] == r && !Truthy(Field(r, "userId"))
  {
    Filter(kv.GetByPrefix(NoticePrefix), r => !Truthy(Field(r, "userId")))
  }

  /** `GET /notifications`: the caller's own notifications and the
      broadcasts, newest first. */
  function Notifications(kv: Store, caller: Option<AuthUser>): (r: Reply<seq<Record>>)
    reads kv
    requires kv.Valid()
    ensures r.Fail? <==> !Authenticated(caller)
    ensures r.Fail? ==> r == Fail(401, "Unauthorized")
    ensures r.Ok? ==> NewestFirst(r.body)
    ensures r.Ok? ==> multiset(r.body) == multiset(kv.GetByPrefix(FeedPrefix(caller.value.id))) + multiset(Broadcasts(kv))
    ensures r.Ok? ==> forall n :: n in r.body <==> exists k :: k in FeedKeys(kv.data, caller.value.id) && kv.data[k] == n
  {
    if !Authenticated(caller) then Fail(401, "Unauthorized")
    else
      var own := kv.GetByPrefix(FeedPrefix(caller.value.id));
      var all := own + Broadcasts(kv);
      var sorted := SortNewestFirst(all);
      assert forall n :: n in sorted <==> n in all by {
        forall n ensures n in sorted <==> n in all {
          SortKeepsRecords(all, n);
        }
      }
      Ok(sorted)
  }

  /** Another user's notification is never in the caller's feed, provided
      neither id contains `:` and the notification names its user. */
  lemma ForeignNoticeHidden(d: Db, caller: string, other: string, now: nat)
    requires caller != other && NoColon(caller) && NoColon(other)
    requires FeedKey(other, now) in d && Truthy(Field(d[FeedKey(other, now)], "userId"))
    ensures FeedKey(other, now) !in FeedKeys(d, caller)
  {
    ForeignFeedKey(caller, other, now);
  }

  // --------------------------------------------------------------- reports

  /** The keys under `p` whose records name `studentId` as their student. */
  ghost function StudentKeys(d: Db, p: string, studentId: string): set<string>
  {
    set k | k in d && p <= k && Field(d[k], "studentId") == Some(Str(studentId))
  }

  lemma StudentCount(kv: Store, p: string, studentId: string)
    requires kv.Valid()
    ensures |Filter(kv.GetByPrefix(p), OfStudent(studentId))| == |StudentKeys(kv.data, p, studentId)|
  {
    FilterCount(kv, p, OfStudent(studentId));
    assert (set k | k in kv.data && p <= k && OfStudent(studentId)(kv.data[k])) == StudentKeys(kv.data, p, studentId);
  }

  /** `GET /reports/student/:studentId`: any signed-in user may read any
      student's report. The counts are numbers of keys: the student's
      submissions, their grades and the difference of the two. */
  function GetStudentReport(kv: Store, caller: Option<AuthUser>, studentId: string): (r: Reply<StudentReport>)
    reads kv
    requires kv.Valid()
    ensures r.Fail? <==> !Authenticated(caller)
    ensures r.Fail? ==> r == Fail(401, "Unauthorized")
    ensures r.Ok? ==>
      && r.body.totalAssessments == |StudentKeys(kv.data, SubmissionPrefix, studentId)|
      && r.body.gradedAssessments == |StudentKeys(kv.data, GradePrefix, studentId)|
      && r.body.pendingAssessments == r.body.totalAssessments - r.body.gradedAssessments
      && (r.body.gradedAssessments == 0 ==> r.body.averageGrade == 0)
      && (r.body.gradedAssessments > 0 ==>
            2 * PercentSum(r.body.grades) - |r.body.grades| < 2 * |r.body.grades| * r.body.averageGrade
                                                             <= 2 * PercentSum(r.body.grades) + |r.body.grades|)
      && (forall g :: g in r.body.grades <==>
            (exists k :: k in kv.data && GradePrefix <= k && kv.data[k] == g) && Field(g, "studentId") == Some(Str(studentId)))
  {
    if !Authenticated(caller) then Fail(401, "Unauthorized")
    else
      StudentCount(kv, GradePrefix, studentId);
      StudentCount(kv, SubmissionPrefix, studentId);
      Ok(StudentReportOf(studentId, kv.GetByPrefix(GradePrefix), kv.GetByPrefix(SubmissionPrefix)))
  }

  /** A record belongs to a course when its `assessmentId` is the `id` of an
      assessment of that course. */
  ghost predicate InCourse(d: Db, courseId: string, r: Record)
  {
    exists k :: k in d && AssessmentPrefix <= k && Field(d[k], "courseId") == Some(Str(courseId))
                && Field(d[k], "id") == Field(r, "assessmentId")
  }

  /** The keys under `p` whose records belong to the course. */
  ghost function CourseKeys(d: Db, p: string, courseId: string): set<string>
  {
    set k | k in d && p <= k && InCourse(d, courseId, d[k])
  }

  /** The keys of the course's assessments. */
  ghost function AssessmentKeys(d: Db, courseId: string): set<string>
  {
    set k | k in d && AssessmentPrefix <= k && Field(d[k], "courseId") == Some(Str(courseId))
  }

  lemma AssessmentCount(kv: Store, courseId: string)
    requires kv.Valid()
    ensures |Filter(kv.GetByPrefix(AssessmentPrefix), OfCourse(courseId))| == |AssessmentKeys(kv.data, courseId)|
  {
    FilterCount(kv, AssessmentPrefix, OfCourse(courseId));
    assert (set k | k in kv.data && AssessmentPrefix <= k && OfCourse(courseId)(kv.data[k])) == AssessmentKeys(kv.data, courseId);
  }

  /** `GET /reports/course/:courseId`: instructors and admins only. */
  function GetCourseReport(kv: Store, caller: Option<AuthUser>, courseId: string): (r: Reply<CourseReport>)
    reads kv
    requires kv.Valid()
    ensures !Authenticated(caller) ==> r == Fail(401, "Unauthorized")
    ensures Authenticated(caller) && !IsStaff(kv.data, caller.value.id) ==> r == Fail(403, "Insufficient permissions")
    ensures r.Ok? <==> Authenticated(caller) && IsStaff(kv.data, caller.value.id)
    ensures r.Ok? ==>
      && r.body.totalAssessments == |AssessmentKeys(kv.data, courseId)|
      && r.body.totalSubmissions == |CourseKeys(kv.data, SubmissionPrefix, courseId)|
      && r.body.totalGraded == |CourseKeys(kv.data, GradePrefix, courseId)|
      && (r.body.totalGraded == 0 ==> r.body.averageGrade == 0)
    ensures r.Ok? ==>
      var courseGrades := Filter(kv.GetByPrefix(GradePrefix),
                                 ForAssessments(Filter(kv.GetByPrefix(AssessmentPrefix), OfCourse(courseId))));
      r.body.totalGraded > 0 ==>
        2 * PercentSum(courseGrades) - r.body.totalGraded < 2 * r.body.totalGraded * r.body.averageGrade
                                                             <= 2 * PercentSum(courseGrades) + r.body.totalGraded
  {
    if !Authenticated(caller) then Fail(401, "Unauthorized")
    else if !StaffProfile(kv.Get(UserKey(caller.value.id))) then Fail(403, "Insufficient permissions")
    else
      var assessments := kv.GetByPrefix(AssessmentPrefix);
      AssessmentCount(kv, courseId);
      InCourseScanned(kv, courseId, SubmissionPrefix);
      InCourseScanned(kv, courseId, GradePrefix);
      Ok(CourseReportOf(courseId, assessments, kv.GetByPrefix(SubmissionPrefix), kv.GetByPrefix(GradePrefix)))
  }

  /** The report's filter over the scanned assessments picks out exactly the
      records that belong to the course. */
  lemma ForAssessmentsInCourse(kv: Store, courseId: string, r: Record)
    requires kv.Valid()
    ensures ForAssessments(Filter(kv.GetByPrefix(AssessmentPrefix), OfCourse(courseId)))(r)
            <==> InCourse(kv.data, courseId, r)
  {
    var courseAssessments := Filter(kv.GetByPrefix(AssessmentPrefix), OfCourse(courseId));
    if ForAssessments(courseAssessments)(r) {
      CourseAssessmentStored(kv, courseId, r);
    }
    if InCourse(kv.data, courseId, r) {
      var k :| k in kv.data && AssessmentPrefix <= k && Field(kv.data[k], "courseId") == Some(Str(courseId))
               && Field(kv.data[k], "id") == Field(r, "assessmentId");
      assert kv.data[k] in kv.GetByPrefix(AssessmentPrefix);
      assert kv.data[k] in courseAssessments;
    }
  }

  lemma CourseAssessmentStored(kv: Store, courseId: string, r: Record)
    requires kv.Valid()
    requires ForAssessments(Filter(kv.GetByPrefix(AssessmentPrefix), OfCourse(courseId)))(r)
    ensures InCourse(kv.data, courseId, r)
  {
    var courseAssessments := Filter(kv.GetByPrefix(AssessmentPrefix), OfCourse(courseId));
    var a :| a in courseAssessments && Field(a, "id") == Field(r, "assessmentId");
    assert a in kv.GetByPrefix(AssessmentPrefix) && OfCourse(courseId)(a);
    var k :| k in kv.data && AssessmentPrefix <= k && kv.data[k] == a;
  }

  /** Counting with that filter counts the course's keys under `p`. */
  lemma InCourseScanned(kv: Store, courseId: string, p: string)
    requires kv.Valid()
    ensures
      var courseAssessments := Filter(kv.GetByPrefix(AssessmentPrefix), OfCourse(courseId));
      |Filter(kv.GetByPrefix(p), ForAssessments(courseAssessments))| == |CourseKeys(kv.data, p, courseId)|
  {
    var P := ForAssessments(Filter(kv.GetByPrefix(AssessmentPrefix), OfCourse(courseId)));
    forall k | k in kv.data && p <= k ensures P(kv.data[k]) <==> k in CourseKeys(kv.data, p, courseId) {
      ForAssessmentsInCourse(kv, courseId, kv.data[k]);
    }
    CountBy(kv, p, P, CourseKeys(kv.data, p, courseId));
  }

  /** A filtered scan counts any set of keys under `p` that holds exactly the
      keys whose records pass. */
  lemma CountBy(kv: Store, p: string, P: Record -> bool, keys: set<string>)
    requires kv.Valid()
    requires forall k :: k in kv.data && p <= k ==> (P(kv.data[k]) <==> k in keys)
    requires forall k :: k in keys ==> k in kv.data && p <= k
    ensures |Filter(kv.GetByPrefix(p), P)| == |keys|
  {
    FilterCount(kv, p, P);
    assert (set k | k in kv.data && p <= k && P(kv.data[k])) == keys;
  }
}
