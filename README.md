# Assessment marking server: grading and verification over a key-value store

This project models the server of an assessment marking system
(`supabase/functions/server/index.tsx`). Instructors create courses, upload
materials and post assessments. Students submit work. Instructors grade the
submissions, and an administrator verifies each grade, which releases it to
the student. Every entity is a JSON record in one key-value store, under a
key whose prefix names its kind (`user:`, `course:`, `material:`,
`assessment:`, `submission:`, `grade:`, `notification:`).

The model has these layers:

- `values.dfy` (module `Values`): records as maps from field names to JSON values. An absent field is `undefined`. It also defines JavaScript truthiness, template-literal text, and `Date.now()` written in decimal.
- `numbers.dfy` (module `Numbers`): `Math.round` of a quotient, computed exactly on integers. This covers a grade's percentage and the report averages.
- `keys.dfy` (module `Keys`): the key layout, and proofs that keys of different kinds never collide.
- `kv_store.dfy` (module `KvStore`): the store. It is a class holding a map and an enumeration of its keys. It provides `get`, `set` and `getByPrefix`. Counts over prefix scans are proved independent of the enumeration.
- `access.dfy` (module `Access`): who the caller is, the role gates, and the profile route with its fallback.
- `workflow.dfy` (module `Workflow`): each writing route as a transition from the store before the request to the reply and the store after it. Two invariants are proved:
  - every route keeps the store well formed: grades carry a numeric percentage and notifications an instant;
  - every route keeps every stored role, except that signup under an id whose profile is already stored overwrites it (`Workflow.SignupOverwritesRole`); the identity provider issues fresh ids, which the server does not check.
- `handlers.dfy` (module `Handlers`): the writing routes as the server runs them. Each is a sequence of `kv.get` and `kv.set` calls on the store object, with records updated in place and written back. Each is proved to end in exactly the transition of `Workflow`.
- `feed.dfy` (module `Feed`): the newest-first order of the notification feed.
- `reports.dfy` (module `Reports`) and `queries.dfy` (module `Queries`): the reading routes, the notification feed, and the student and course reports.

The model follows what the code does rather than an idealised workflow:

- A submission is accepted without checking that its assessment exists.
- Every truthy verdict sends a `grade_released` notification, not only a change from false to true.
- The role gate runs before the submission or grade is looked up.
- Listings, downloads and the student report are open to every signed-in user. Grade lookup by submission and the course, material and assessment listings need no sign-in at all.
- The percentage uses the `totalMarks` sent with the grading request, not the assessment's own total.

## Model

| member | source | states |
|---|---|---|
| Values.With | supabase/functions/server/index.tsx:158-165 | Setting a field of an object literal: the field holds the value afterwards, or is absent when the value is `undefined`, and no other field changes |
| Values.Decimal | supabase/functions/server/index.tsx:156 | `Date.now()` in an id is a non-empty run of decimal digits |
| Values.DecimalRoundTrip | supabase/functions/server/index.tsx:156 | Reading the decimal digits back gives the number written |
| Values.DecimalInjective | supabase/functions/server/index.tsx:426 | Different instants are written differently |
| Values.Text | supabase/functions/server/index.tsx:554 | A template literal spells a string as itself and `undefined` as the word `undefined` |
| Values.Truthy | supabase/functions/server/index.tsx:68 | JavaScript's falsy values, as `!x` tests them (also at line 687): exactly `undefined`, `null`, `false`, `0` and `""`; everything else is truthy |
| Numbers.RoundDiv | supabase/functions/server/index.tsx:760 | `Math.round(a / b)` is within one half of `a / b`, halves rounding up |
| Numbers.RoundDivUnique | supabase/functions/server/index.tsx:760 | It is the only integer within one half of `a / b` |
| Numbers.RoundDivBetween | supabase/functions/server/index.tsx:811 | A quotient between two integer bounds rounds to a value between them |
| Numbers.Percent | supabase/functions/server/index.tsx:539 | `Math.round(grade / totalMarks * 100)` is within one half of the exact percentage |
| Numbers.PercentInRange | supabase/functions/server/index.tsx:539 | A mark between 0 and the total gives a percentage between 0 and 100 |
| Numbers.PercentOfHundred | supabase/functions/server/index.tsx:539 | Marks out of 100 are their own percentage |
| Keys.GeneratedParts | supabase/functions/server/index.tsx:156 | An id built as prefix, `Date.now()`, a dash and a random suffix reads back into those parts, the instant as its decimal digits |
| Keys.UserKey | supabase/functions/server/index.tsx:90 | A profile key is `user:` followed by the user id, which dropping the prefix gives back |
| Keys.CourseKey | supabase/functions/server/index.tsx:156 | A course id reads back as `course:`, the instant, a dash and the random suffix |
| Keys.MaterialKey | supabase/functions/server/index.tsx:228 | A material id reads back as `material:`, the instant, a dash and the random suffix |
| Keys.AssessmentKey | supabase/functions/server/index.tsx:321 | An assessment id reads back as `assessment:`, the instant, a dash and the random suffix |
| Keys.GlobalNoticeKey | supabase/functions/server/index.tsx:345 | A broadcast notification id reads back as `notification:`, the instant, a dash and the random suffix |
| Keys.SubmissionKey | supabase/functions/server/index.tsx:408 | A submission id reads back as `submission:`, the instant, a dash and the random suffix |
| Keys.GradeKey | supabase/functions/server/index.tsx:530 | A grade key is `grade:` followed by the submission's key, which dropping the prefix gives back |
| Keys.FeedPrefix | supabase/functions/server/index.tsx:683 | The feed scan's prefix is `notification:student:`, the user id and a closing `:` |
| Keys.FeedKey | supabase/functions/server/index.tsx:426 | A per-user notification key lies under that user's feed prefix, followed by the instant, which reads back |
| Keys.CourseKeyKind | supabase/functions/server/index.tsx:156 | A generated course id is a course key, and not a user, grade or notification key |
| Keys.MaterialKeyKind | supabase/functions/server/index.tsx:228 | A generated material id is a material key, and not a user, grade or notification key |
| Keys.AssessmentKeyKind | supabase/functions/server/index.tsx:321 | A generated assessment id is an assessment key, and not a user, grade or notification key |
| Keys.SubmissionKeyKind | supabase/functions/server/index.tsx:408 | A generated submission id is a submission key, and not a user, grade or notification key |
| Keys.GradeKeyKind | supabase/functions/server/index.tsx:530 | `grade:` + a submission id is a grade key, and not a user or notification key |
| Keys.GradePrefixKind | supabase/functions/server/index.tsx:634 | A key under `grade:` is under neither `user:` nor `notification:` |
| Keys.SubmissionPrefixKind | supabase/functions/server/index.tsx:456 | A submission key is not a grade, notification or user key |
| Keys.FeedKeyKind | supabase/functions/server/index.tsx:426 | A per-user notification key lies in that user's feed and among the notifications |
| Keys.GlobalNoticeKeyKind | supabase/functions/server/index.tsx:345 | A broadcast key lies among the notifications and in no user's feed |
| Keys.ForeignFeedKey | supabase/functions/server/index.tsx:683 | Another user's notification key is not under the caller's feed prefix, for ids without `:` |
| Keys.FeedKeysDiffer | supabase/functions/server/index.tsx:554 | Two notifications to one user share a key exactly when written in the same millisecond |
| KvStore.Scan | supabase/functions/server/index.tsx:179 | A prefix scan returns only records stored under the prefix |
| KvStore.ScanComplete | supabase/functions/server/index.tsx:179 | A prefix scan returns every record stored under the prefix |
| KvStore.Filter | supabase/functions/server/index.tsx:260 | `filter` keeps exactly the records that pass |
| KvStore.FilterScanCount | supabase/functions/server/index.tsx:740 | The length of a filtered scan is the number of matching keys |
| KvStore.ScanCount | supabase/functions/server/index.tsx:179 | The length of a scan is the number of keys under the prefix |
| KvStore.FilterCount | supabase/functions/server/index.tsx:744 | A filtered `getByPrefix` counts the matching keys, whatever the store's enumeration |
| KvStore.Store.Get | supabase/functions/server/index.tsx:525 | `kv.get` returns the stored record, or nothing for an absent key |
| KvStore.Store.Set | supabase/functions/server/index.tsx:547 | `kv.set` stores the record under the key and changes no other key |
| KvStore.Store.GetByPrefix | supabase/functions/server/index.tsx:634 | `kv.getByPrefix` returns exactly the records under the prefix, one per key |
| Access.ProfileOf | supabase/functions/server/index.tsx:150 | The caller's profile exists exactly when `user:{id}` is stored, and is then that record |
| Access.Authenticated | supabase/functions/server/index.tsx:144-148 | A caller is signed in exactly when the provider resolved the token to a user whose id is truthy, the negation of `error || !user?.id` |
| Access.StaffProfile | supabase/functions/server/index.tsx:151-153 | The staff gate of courses, materials, assessments, grading and course reports reads the stored role `instructor` or `admin`; every admin passes it |
| Access.AdminProfile | supabase/functions/server/index.tsx:581-584 | The verification gate (role `admin`) admits only a stored profile, and its role is one that signup accepts |
| Access.ValidRole | supabase/functions/server/index.tsx:72-74 | The roles accepted at signup are `student`, `instructor` and `admin`; each is truthy, so it also passes the missing-field check |
| Access.AdminIsStaff | supabase/functions/server/index.tsx:582 | Every admin passes the staff gate; an instructor passes it but not the admin gate |
| Access.Profile | supabase/functions/server/index.tsx:106-136 | 401 without a token or a valid caller. Otherwise the stored profile, or a fallback built from the token's metadata: name `''` and role `student` when missing |
| Access.FallbackGrantsNothing | supabase/functions/server/index.tsx:121-128 | A fallback profile may show any role from the metadata, yet passes neither role gate |
| Workflow.UserRecord | supabase/functions/server/index.tsx:90-96 | The stored profile holds the provider's id, the e-mail, name and role given, and the creation instant, and no password |
| Workflow.CourseRecord | supabase/functions/server/index.tsx:158-165 | A course holds its key as id, the caller as instructor, and the name and description given |
| Workflow.MaterialRecord | supabase/functions/server/index.tsx:230-242 | A material holds the blob-store path, the course given and the uploader |
| Workflow.AssessmentRecord | supabase/functions/server/index.tsx:323-333 | An assessment holds its key as `id` (which the course report joins on), the course and total marks given, and the caller as instructor |
| Workflow.SubmissionRecord | supabase/functions/server/index.tsx:410-421 | A submission holds its key as `id` and the blob-store path of its file, starts `submitted`, with the caller as student and the assessment given |
| Workflow.StudentName | supabase/functions/server/index.tsx:414 | A submission's student name is the profile's name when truthy, otherwise the e-mail of the signed-in user |
| Workflow.SubmittedNotice | supabase/functions/server/index.tsx:427-434 | The confirmation goes to the submitter, is unread, carries an instant and names the submission |
| Workflow.GradePostedNotice | supabase/functions/server/index.tsx:555-562 | The `grade_posted` notice goes to the submission's student, is unread, carries an instant and names the grade key |
| Workflow.GradeReleasedNotice | supabase/functions/server/index.tsx:604-611 | The `grade_released` notice goes to the grade's student, is unread, carries an instant and names the grade |
| Workflow.GradeRecord | supabase/functions/server/index.tsx:532-545 | The grade holds `grade:` + the submission id as `id`, the mark, the request's total and its percentage, the feedback given, the staff member who graded and the instant. It copies the student and assessment from the submission, is unverified, and holds no field but its own, so no verifier, verification instant or verifier name |
| Workflow.Notice | supabase/functions/server/index.tsx:555-562 | A notification names its user and type, points at its target, is unread and carries an instant |
| Workflow.AssessmentNotice | supabase/functions/server/index.tsx:338-343 | The broadcast for a new assessment has no `userId`, points at the assessment and carries an instant |
| Workflow.Verified | supabase/functions/server/index.tsx:594-597 | Verification sets the verdict, verifier and instant, and keeps every other field of the grade |
| Workflow.StudentFeedKey | supabase/functions/server/index.tsx:554 | A notice about a record goes to the feed of its `studentId` (also at line 603), or of the word `undefined` when the record has none |
| Workflow.KeepsAfterWrite | supabase/functions/server/index.tsx:547 | Writing a record that fits its key keeps the store well formed and keeps every role |
| Workflow.KeepsAfterRewrite | supabase/functions/server/index.tsx:551 | Writing back a record with its percentage, instant and role unchanged keeps the store well formed and keeps every role |
| Workflow.Signup | supabase/functions/server/index.tsx:64-103 | 400 when a field is missing, the role is unknown or the account is refused (with the provider's message), and then nothing is written. Otherwise exactly `user:{id}` is written, holding the id, e-mail, name and role and no password. Roles are kept unless that profile already existed |
| Workflow.SignupOverwritesRole | supabase/functions/server/index.tsx:89-96 | Signing up under an id whose profile is stored succeeds and replaces its role |
| Workflow.CreateCourse | supabase/functions/server/index.tsx:141-174 | 401, then 403 unless the caller is an instructor or admin, with no write. Otherwise exactly the new course key is written, holding the caller as instructor |
| Workflow.UploadMaterial | supabase/functions/server/index.tsx:190-251 | 401, 403, then 400 without a file or title, then 500 when the upload fails, each with no write. Otherwise exactly the new material is written, holding the stored path and the uploader |
| Workflow.CreateAssessment | supabase/functions/server/index.tsx:306-353 | 401, then 403 unless staff, with no write. Success exactly when the caller is staff. The store stays well formed and keeps every role |
| Workflow.CreateAssessmentWrites | supabase/functions/server/index.tsx:323-346 | Exactly two keys are written: the assessment, holding its course, total marks and instructor, and a broadcast without `userId` announcing it under a different key |
| Workflow.Submit | supabase/functions/server/index.tsx:375-441 | 401, then 400 without a file or assessment id, then 500 when the upload fails, with no write. There is no role check and no check that the assessment exists |
| Workflow.SubmitWrites | supabase/functions/server/index.tsx:410-434 | Exactly the submission is written, `submitted`, with the caller as student, plus an unread `submission_confirmed` notice in the caller's own feed |
| Workflow.PostGrade | supabase/functions/server/index.tsx:509-569 | 401, then 403 unless staff, even for a missing submission, then 404 for a missing submission, each with no write. Success exactly when the caller is staff and the submission exists |
| Workflow.PostGradeWrites | supabase/functions/server/index.tsx:530-562 | Exactly three keys are written: the grade under `grade:` + submission id, which is also the reply; the submission, now `graded`; and the student's notice |
| Workflow.PostGradeRecord | supabase/functions/server/index.tsx:532-545 | The stored grade holds its `id`, the mark, the percentage of the request's total, the feedback given, `verified = false`, the submission, its student and assessment, and the staff member who graded, and no verifier fields |
| Workflow.PostGradeNotifies | supabase/functions/server/index.tsx:554-562 | The submission's student gets an unread `grade_posted` notice naming the grade |
| Workflow.PostGradeKeeps | supabase/functions/server/index.tsx:547-562 | Grading keeps the store well formed and keeps every role |
| Workflow.GradeMarksGraded | supabase/functions/server/index.tsx:550-551 | Grading a submission sets its status to `graded` and keeps all its other fields |
| Workflow.GradeKeysAfterGrade | supabase/functions/server/index.tsx:530 | Grading adds the submission's grade key to the grade records and no other |
| Workflow.GradeAgain | supabase/functions/server/index.tsx:518-528 | Whoever could grade a submission once can grade it again |
| Workflow.Regrade | supabase/functions/server/index.tsx:530-547 | Grading twice leaves one grade record for the submission. The second grading replaces it: it holds the newest mark, percentage and feedback with `verified = false`, and nothing is left of an earlier verification |
| Workflow.VerifyGrade | supabase/functions/server/index.tsx:572-619 | 401, then 403 unless admin, even for a missing grade, then 404, each with no write. Success exactly when the caller is admin and the grade exists |
| Workflow.VerifyGradeRecord | supabase/functions/server/index.tsx:594-597 | The verdict and the verifier are recorded; mark, total, percentage and every other field are unchanged |
| Workflow.VerifyGradeWrites | supabase/functions/server/index.tsx:599-612 | A truthy verdict writes the grade and a `grade_released` notice to the student. Any other verdict writes the grade alone |
| Workflow.VerifyGradeKeeps | supabase/functions/server/index.tsx:599-612 | Verification keeps the store well formed and keeps every role |
| Workflow.ReleaseThenRevoke | supabase/functions/server/index.tsx:594-612 | After a release and then a revocation, the grade is unverified with its original mark. The revocation writes only the grade |
| Workflow.ReleaseThenRevokeKeeps | supabase/functions/server/index.tsx:581-612 | An admin can release and then revoke any stored grade; the release is recorded, and afterwards the grade is unverified with its mark, percentage and student unchanged |
| Workflow.GatesKept | supabase/functions/server/index.tsx:150-153 | A step that keeps every role keeps every staff and admin gate |
| Workflow.SubmitThenGrade | supabase/functions/server/index.tsx:375-569 | A fresh submission graded 85 out of 100 by staff: both steps succeed, the grade holds the student, the mark and percentage 85, and every admin stays admin |
| Workflow.SubmitGradeReleaseRevoke | supabase/functions/server/index.tsx:375-619 | Submit, grade 85 out of 100, release, revoke: every step succeeds, the release is recorded, and the grade ends unverified with the student, mark 85 and percentage 85 |
| Workflow.MarkRead | supabase/functions/server/index.tsx:700-722 | 401 when not signed in. Otherwise success, even for a missing id, which writes nothing; a present record gets `read = true` with its other fields kept |
| Workflow.MarkReadIdempotent | supabase/functions/server/index.tsx:709-717 | Marking a notification read twice is the same as marking it once |
| Handlers.Signup | supabase/functions/server/index.tsx:64-103 | The imperative route ends in exactly the `Workflow.Signup` outcome and keeps the store well formed |
| Handlers.CreateCourse | supabase/functions/server/index.tsx:141-174 | Ends in exactly the `Workflow.CreateCourse` outcome |
| Handlers.UploadMaterial | supabase/functions/server/index.tsx:190-251 | Ends in exactly the `Workflow.UploadMaterial` outcome |
| Handlers.CreateAssessment | supabase/functions/server/index.tsx:306-353 | Writes the assessment and then the broadcast, ending in exactly the `Workflow.CreateAssessment` outcome |
| Handlers.Submit | supabase/functions/server/index.tsx:375-441 | Writes the submission and then the confirmation, ending in exactly the `Workflow.Submit` outcome |
| Handlers.PostGrade | supabase/functions/server/index.tsx:509-569 | Writes the grade, then marks the fetched submission `graded` in place and writes it back, then the notice, ending in exactly the `Workflow.PostGrade` outcome |
| Handlers.VerifyGrade | supabase/functions/server/index.tsx:572-619 | Updates the fetched grade in place and writes it back, then the notice for a truthy verdict, ending in exactly the `Workflow.VerifyGrade` outcome |
| Handlers.MarkRead | supabase/functions/server/index.tsx:700-722 | Marks the fetched record read and writes it back, ending in exactly the `Workflow.MarkRead` outcome |
| Feed.Insert | supabase/functions/server/index.tsx:689-690 | Insertion into a newest-first list keeps it newest first and adds exactly that record |
| Feed.Instant | supabase/functions/server/index.tsx:690 | `new Date(x.timestamp).getTime()`: the instant a record carries, or the epoch for a record without one |
| Feed.SortNewestFirst | supabase/functions/server/index.tsx:689-690 | The sort returns a permutation of its input, newest first by `timestamp` |
| Feed.SortKeepsRecords | supabase/functions/server/index.tsx:689-690 | A record is in the sorted feed exactly when it was in the merged lists |
| Reports.PercentOf | supabase/functions/server/index.tsx:752 | `g.percentage` inside the `reduce`: the grade's numeric percentage, or 0 when it has none |
| Reports.PercentSum | supabase/functions/server/index.tsx:752 | The `reduce` adding up the grades' percentages |
| Reports.PercentSumLeftToRight | supabase/functions/server/index.tsx:752 | The sum taken left to right, as `reduce` takes it, equals the model's sum: the last grade is added to the sum of those before it |
| Reports.MeanPercent | supabase/functions/server/index.tsx:751-753 | The rounded mean percentage: 0 with no grades, otherwise within one half of sum / count |
| Reports.PercentSumBounds | supabase/functions/server/index.tsx:752 | A sum of n percentages in [0, 100] lies in [0, 100·n] |
| Reports.MeanInRange | supabase/functions/server/index.tsx:750-760 | An average of percentages in [0, 100] is in [0, 100] |
| Reports.SumOfEqual | supabase/functions/server/index.tsx:752 | n grades of equal percentage p sum to p·n |
| Reports.MeanOfEqual | supabase/functions/server/index.tsx:750-760 | Grades of equal percentage average to that percentage |
| Reports.SomeHasId | supabase/functions/server/index.tsx:795-797 | `some(a => a.id === v)` holds exactly when some record's `id` equals `v`, two `undefined`s included |
| Reports.OfStudent | supabase/functions/server/index.tsx:740 | The filter `g => g.studentId === studentId` (also at line 744) accepts exactly the records whose `studentId` is that string |
| Reports.OfCourse | supabase/functions/server/index.tsx:791 | The filter `a => a.courseId === courseId` accepts exactly the records whose `courseId` is that string |
| Reports.ForAssessments | supabase/functions/server/index.tsx:795-797 | The course report's filter accepts exactly the records whose `assessmentId` is the `id` of one of the given assessments |
| Reports.StudentReportOf | supabase/functions/server/index.tsx:739-762 | The report holds exactly the student's grades and submissions. Pending is total minus graded, and the average is 0 with no grades, otherwise the rounded mean |
| Reports.CourseReportOf | supabase/functions/server/index.tsx:790-813 | Counts the course's assessments, and the submissions and grades for them. The average is 0 with no grades, otherwise the rounded mean of the course's grades |
| Queries.WhereField | supabase/functions/server/index.tsx:458-464 | An optional query filter keeps every record when the parameter is absent or empty, and otherwise exactly the records whose field equals it |
| Queries.ListCourses | supabase/functions/server/index.tsx:177-185 | Exactly the records stored under `course:` |
| Queries.ListMaterials | supabase/functions/server/index.tsx:254-268 | Exactly the materials, of the given course when one is named |
| Queries.ListAssessments | supabase/functions/server/index.tsx:356-370 | Exactly the assessments, of the given course when one is named |
| Queries.ListSubmissions | supabase/functions/server/index.tsx:444-471 | 401 when not signed in. Otherwise exactly the submissions that match the assessment and student filters given |
| Queries.ListGrades | supabase/functions/server/index.tsx:622-649 | 401 when not signed in. Otherwise exactly the grades that match the student and assessment filters given |
| Queries.GradeForSubmission | supabase/functions/server/index.tsx:652-668 | The record under `grade:` + submission id, or 404 `Grade not found` |
| Queries.Download | supabase/functions/server/index.tsx:271-301 | 401, then 404 for a missing record, then 500 when no signed URL is given. Otherwise the URL and the record's file name |
| Queries.DownloadMaterial | supabase/functions/server/index.tsx:283-285 | A missing material is 404 `Material not found` |
| Queries.DownloadSubmission | supabase/functions/server/index.tsx:486-488 | A missing submission is 404 `Submission not found`; a download names the stored file of the submission |
| Queries.Broadcasts | supabase/functions/server/index.tsx:686-687 | Exactly the notifications without a truthy `userId` |
| Queries.Notifications | supabase/functions/server/index.tsx:673-697 | 401 when not signed in. Otherwise a newest-first rearrangement of the caller's own scan followed by the broadcasts, so a record in both is listed twice; a record is listed exactly when it is under one of the caller's feed keys or the notifications without `userId` |
| Queries.ForeignNoticeHidden | supabase/functions/server/index.tsx:683-687 | Another user's notification that names its user is never among the caller's feed keys |
| Queries.StudentCount | supabase/functions/server/index.tsx:740 | Filtering a scan by student counts the student's keys |
| Queries.GetStudentReport | supabase/functions/server/index.tsx:727-770 | 401 when not signed in. Otherwise total and graded are the numbers of the student's submission and grade keys, pending is their difference, and the average is 0 with no grades, otherwise the rounded mean of the student's grades |
| Queries.AssessmentCount | supabase/functions/server/index.tsx:791 | Filtering the assessments by course counts the course's assessment keys |
| Queries.ForAssessmentsInCourse | supabase/functions/server/index.tsx:795-803 | The report's filter accepts a record exactly when its `assessmentId` is the `id` of a stored assessment of the course |
| Queries.CourseAssessmentStored | supabase/functions/server/index.tsx:795-797 | A record the filter accepts belongs to a stored assessment of the course |
| Queries.InCourseScanned | supabase/functions/server/index.tsx:794-803 | The report's submission and grade counts are numbers of keys of the course's records |
| Queries.GetCourseReport | supabase/functions/server/index.tsx:773-820 | 401, then 403 unless staff. Otherwise the counts are numbers of the course's assessment, submission and grade keys, and the average is 0 with no grades, otherwise the rounded mean of the course's grades |

## Left out

- Identity: resolving a bearer token and creating accounts are calls to the identity provider. The resolved caller (`Option<AuthUser>`) and the provider's answer to `createUser` (`Created`) are parameters. Signup's reply is the new user's id rather than the provider's whole user object.
- Blob storage: bucket creation, uploads and signed URLs are calls to the blob store. An upload's answer (a path or a failure) and a signed URL's answer are parameters. The blob object names the server builds for uploads (index.tsx:214, 394) are not modelled, since they stay inside the blob store; the records keep the uploaded file's own name.
- Time and randomness: `Date.now()`, `new Date()` and `Math.random()` are parameters (`now`, `rnd`). One handler uses a single instant for all its ids and timestamps. Instants are milliseconds, not ISO text.
- Numbers: grades, marks and percentages are integers, and `Math.round` of a quotient is computed exactly. The server computes in floating point, so where the exact percentage is a half its result can round the other way: `23 / 40 * 100` is `57.49999999999999` in double precision, so the server stores 57 where the model stores 58 (29 of 200 and 115 of 200 behave the same way). Non-integer marks are not modelled.
- Numbers.Percent: requires `totalMarks > 0`. The server never checks this, and a zero total gives `NaN` or `Infinity` there.
- Workflow.PostGrade: requires `totalMarks > 0`, as for `Numbers.Percent`.
- Handlers.PostGrade: requires `totalMarks > 0`, as for `Numbers.Percent`.
- Request bodies: JSON fields are optional values, except three fields of the grading request: `submissionId` is a string, and `grade` and `totalMarks` are integers. A grading request without one of them is not modelled (without `grade` or `totalMarks` the server would store a `null` percentage). Form fields (title, description, course id and assessment id of an upload) are values that are present. A body that fails to parse, or any thrown exception, gives the route's 500 in the server; neither is modelled.
- Reports.PercentOf: a grade without a numeric `percentage` counts as 0, where JavaScript would produce `NaN`. Every grade the server writes has one (`Workflow.WellFormed`).
- Feed.Instant: a record without an instant sorts as the epoch, where JavaScript compares `NaN`. Every notification the server writes has one.
- Feed.SortNewestFirst: stability (records with the same instant keep their order) is not proved.
- Keys.ForeignFeedKey: assumes user ids contain no `:`. This holds for the provider's UUIDs but is not checked by the server.
- Concurrency: the server's requests interleave, and each write is separate. Every route here runs alone, from start to end.
- CORS, the request logger, the health route and `Deno.serve` are plumbing with no state.
- The store's own implementation is not part of this model; it is the map in `KvStore.Store`.
