/**
 * The reports: counts and the rounded mean percentage over the records a
 * prefix scan returned. A mean is `Math.round(sum / count)` of the grades'
 * `percentage` fields, and 0 when there are no grades.
 */
module Reports {
  import opened Values
  import opened Numbers
  import opened KvStore

  datatype StudentReport = StudentReport(
    studentId: string,
    totalAssessments: int,
    gradedAssessments: int,
    pendingAssessments: int,
    averageGrade: int,
    grades: seq<Record>,
    submissions: seq<Record>)

  datatype CourseReport = CourseReport(
    courseId: string,
    totalAssessments: int,
    totalSubmissions: int,
    totalGraded: int,
    averageGrade: int)

  /** A grade's `percentage`; a grade without a numeric one counts as 0 (the
      grade records the server writes always have one). */
  function PercentOf(g: Record): (p: int)
    ensures Field(g, "percentage").Some? && Field(g, "percentage").value.Num? ==> Field(g, "percentage") == Some(Num(p))
    ensures !(Field(g, "percentage").Some? && Field(g, "percentage").value.Num?) ==> p == 0
  {
    match Field(g, "percentage")
    case Some(Num(p)) => p
    case _ => 0
  }

  /** `gs.reduce((sum, g) => sum + g.percentage, 0)`. */
  function PercentSum(gs: seq<Record>): int
  {
    if gs == [] then 0 else PercentOf(gs[0]) + PercentSum(gs[1..])
  }

  /** The sum is the same taken left to right, as `reduce` takes it: the
      last grade is added to the sum of the ones before it. */
  lemma {:induction false} PercentSumLeftToRight(gs: seq<Record>)
    ensures gs != [] ==> PercentSum(gs) == PercentSum(gs[..|gs| - 1]) + PercentOf(gs[|gs| - 1])
  {
    if |gs| == 1 {
      assert gs[..0] == [];
    } else if |gs| > 1 {
      PercentSumLeftToRight(gs[1..]);
      assert gs[1..][..|gs| - 2] == gs[..|gs| - 1][1..];
    }
  }

  /** The rounded mean percentage, 0 for no grades. */
  function MeanPercent(gs: seq<Record>): (m: int)
    ensures gs == [] ==> m == 0
    ensures gs != [] ==> 2 * PercentSum(gs) - |gs| < 2 * |gs| * m <= 2 * PercentSum(gs) + |gs|
  {
    if |gs| > 0 then RoundDiv(PercentSum(gs), |gs|) else 0
  }

  /** A sum of percentages that each lie in [0, 100]. */
  lemma {:induction false} PercentSumBounds(gs: seq<Record>)
    requires forall g :: g in gs ==> 0 <= PercentOf(g) <= 100
    ensures 0 <= PercentSum(gs) <= 100 * |gs|
  {
    if gs != [] {
      assert forall g :: g in gs[1..] ==> g in gs;
      PercentSumBounds(gs[1..]);
    }
  }

  /** The mean of percentages in [0, 100] is in [0, 100]. */
  lemma MeanInRange(gs: seq<Record>)
    requires forall g :: g in gs ==> 0 <= PercentOf(g) <= 100
    ensures 0 <= MeanPercent(gs) <= 100
  {
    if gs != [] {
      PercentSumBounds(gs);
      RoundDivBetween(PercentSum(gs), |gs|, 0, 100);
    }
  }

  /** n grades that all carry the percentage p sum to p·n. */
  lemma {:induction false} SumOfEqual(gs: seq<Record>, p: int)
    requires forall g :: g in gs ==> PercentOf(g) == p
    ensures PercentSum(gs) == p * |gs|
  {
    if gs != [] {
      forall g | g in gs[1..] ensures PercentOf(g) == p {
        assert g in gs;
      }
      SumOfEqual(gs[1..], p);
      assert PercentOf(gs[0]) == p;
    }
  }

  /** Grades that all carry one percentage average to it. */
  lemma MeanOfEqual(gs: seq<Record>, p: int)
    requires gs != []
    requires forall g :: g in gs ==> PercentOf(g) == p
    ensures MeanPercent(gs) == p
  {
    SumOfEqual(gs, p);
    RoundDivUnique(PercentSum(gs), |gs|, p);
  }

  /** The filter `r => r.studentId === studentId`. */
  function OfStudent(studentId: string): (f: Record -> bool)
    ensures forall r :: f(r) <==> Field(r, "studentId") == Some(Str(studentId))
  {
    r => Field(r, "studentId") == Some(Str(studentId))
  }

  /** The filter `a => a.courseId === courseId`. */
  function OfCourse(courseId: string): (f: Record -> bool)
    ensures forall a :: f(a) <==> Field(a, "courseId") == Some(Str(courseId))
  {
    a => Field(a, "courseId") == Some(Str(courseId))
  }

  /** `as.some(a => a.id === v)`; `===` between two `undefined`s holds. */
  function SomeHasId(rs: seq<Record>, v: Option<Value>): (b: bool)
    ensures b <==> exists a :: a in rs && Field(a, "id") == v
  {
    if rs == [] then false
    else Field(rs[0], "id") == v || SomeHasId(rs[1..], v)
  }

  /** The filter of the course report: the record's `assessmentId` is the id
      of one of the course's assessments. */
  function ForAssessments(assessments: seq<Record>): (f: Record -> bool)
    ensures forall r :: f(r) <==> exists a :: a in assessments && Field(a, "id") == Field(r, "assessmentId")
  {
    r => SomeHasId(assessments, Field(r, "assessmentId"))
  }

  /** The student report over all grades and all submissions. */
  function StudentReportOf(studentId: string, grades: seq<Record>, submissions: seq<Record>): (rep: StudentReport)
    ensures rep.studentId == studentId
    ensures forall g :: g in rep.grades <==> g in grades && Field(g, "studentId") == Some(Str(studentId))
    ensures forall s :: s in rep.submissions <==> s in submissions && Field(s, "studentId") == Some(Str(studentId))
    ensures rep.totalAssessments == |rep.submissions| && rep.gradedAssessments == |rep.grades|
    ensures rep.pendingAssessments == rep.totalAssessments - rep.gradedAssessments
    ensures rep.grades == [] ==> rep.averageGrade == 0
    ensures rep.grades != [] ==>
      2 * PercentSum(rep.grades) - |rep.grades| < 2 * |rep.grades| * rep.averageGrade <= 2 * PercentSum(rep.grades) + |rep.grades|
  {
    var studentGrades := Filter(grades, OfStudent(studentId));
    var studentSubmissions := Filter(submissions, OfStudent(studentId));
    var total := |studentSubmissions|;
    var graded := |studentGrades|;
    StudentReport(studentId, total, graded, total - graded, MeanPercent(studentGrades), studentGrades, studentSubmissions)
  }

  /** The course report over all assessments, submissions and grades. */
  function CourseReportOf(courseId: string, assessments: seq<Record>, submissions: seq<Record>, grades: seq<Record>)
    : (rep: CourseReport)
    ensures rep.courseId == courseId
    ensures rep.totalAssessments == |Filter(assessments, OfCourse(courseId))|
    ensures
      var courseAssessments := Filter(assessments, OfCourse(courseId));
      && rep.totalSubmissions == |Filter(submissions, ForAssessments(courseAssessments))|
      && rep.totalGraded == |Filter(grades, ForAssessments(courseAssessments))|
    ensures rep.totalGraded == 0 ==> rep.averageGrade == 0
    ensures
      var courseGrades := Filter(grades, ForAssessments(Filter(assessments, OfCourse(courseId))));
      rep.totalGraded > 0 ==>
        2 * PercentSum(courseGrades) - rep.totalGraded < 2 * rep.totalGraded * rep.averageGrade
                                                         <= 2 * PercentSum(courseGrades) + rep.totalGraded
  {
    var courseAssessments := Filter(assessments, OfCourse(courseId));
    var courseSubmissions := Filter(submissions, ForAssessments(courseAssessments));
    var courseGrades := Filter(grades, ForAssessments(courseAssessments));
    CourseReport(courseId, |courseAssessments|, |courseSubmissions|, |courseGrades|, MeanPercent(courseGrades))
  }
}
