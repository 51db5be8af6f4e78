/**
 * The key layout of the store. Each entity kind lives under its own prefix
 * (`user:`, `course:`, `material:`, `assessment:`, `submission:`, `grade:`,
 * `notification:`); generated ids are `Date.now()` in decimal, a dash and a
 * random base-36 suffix. A grade's key is `grade:` followed by the key of the
 * submission it grades, and a notification for one user lives under
 * `notification:student:{userId}:{Date.now()}`.
 */
module Keys {
  import opened Values

  const UserPrefix := "user:"
  const CoursePrefix := "course:"
  const MaterialPrefix := "material:"
  const AssessmentPrefix := "assessment:"
  const SubmissionPrefix := "submission:"
  const GradePrefix := "grade:"
  const NoticePrefix := "notification:"
  const StudentNoticePrefix := "notification:student:"

  /** `k` reads back as `prefix`, the decimal digits of `now`, a dash and
      `rnd`: the shape of `${prefix}${Date.now()}-${random}`. */
  predicate GeneratedFrom(k: string, prefix: string, now: nat, rnd: string)
  {
    && prefix <= k
    && |prefix| + |rnd| < |k|
    && DigitsValue(k[|prefix|..|k| - |rnd| - 1]) == now
    && k[|k| - |rnd| - 1] == '-'
    && k[|k| - |rnd|..] == rnd
  }

  /** A generated id parses back into its prefix, instant and suffix. */
  lemma GeneratedParts(prefix: string, now: nat, rnd: string)
    ensures GeneratedFrom(prefix + Decimal(now) + "-" + rnd, prefix, now, rnd)
  {
    var k := prefix + Decimal(now) + "-" + rnd;
    assert k[..|prefix|] == prefix;
    assert k[|prefix|..|k| - |rnd| - 1] == Decimal(now);
    assert k[|k| - |rnd|..] == rnd;
    DecimalRoundTrip(now);
  }

  /** The profile of user `id`; dropping the prefix gives the id back. */
  function UserKey(id: string): (k: string)
    ensures UserPrefix <= k && k[|UserPrefix|..] == id
  {
    UserPrefix + id
  }

  function CourseKey(now: nat, rnd: string): (k: string)
    ensures GeneratedFrom(k, CoursePrefix, now, rnd)
  {
    GeneratedParts(CoursePrefix, now, rnd);
    CoursePrefix + Decimal(now) + "-" + rnd
  }

  function MaterialKey(now: nat, rnd: string): (k: string)
    ensures GeneratedFrom(k, MaterialPrefix, now, rnd)
  {
    GeneratedParts(MaterialPrefix, now, rnd);
    MaterialPrefix + Decimal(now) + "-" + rnd
  }

  function AssessmentKey(now: nat, rnd: string): (k: string)
    ensures GeneratedFrom(k, AssessmentPrefix, now, rnd)
  {
    GeneratedParts(AssessmentPrefix, now, rnd);
    AssessmentPrefix + Decimal(now) + "-" + rnd
  }

  function SubmissionKey(now: nat, rnd: string): (k: string)
    ensures GeneratedFrom(k, SubmissionPrefix, now, rnd)
  {
    GeneratedParts(SubmissionPrefix, now, rnd);
    SubmissionPrefix + Decimal(now) + "-" + rnd
  }

  /** The grade of a submission; dropping the prefix gives the submission's
      key back. */
  function GradeKey(submissionId: string): (k: string)
    ensures GradePrefix <= k && k[|GradePrefix|..] == submissionId
  {
    GradePrefix + submissionId
  }

  /** A broadcast notification, visible to every user. */
  function GlobalNoticeKey(now: nat, rnd: string): (k: string)
    ensures GeneratedFrom(k, NoticePrefix, now, rnd)
  {
    GeneratedParts(NoticePrefix, now, rnd);
    NoticePrefix + Decimal(now) + "-" + rnd
  }

  /** The prefix the notification feed scans for one user: the user's id
      between `notification:student:` and a closing `:`. */
  function FeedPrefix(userId: string): (p: string)
    ensures StudentNoticePrefix <= p && |p| == |StudentNoticePrefix| + |userId| + 1
    ensures p[|StudentNoticePrefix|..|p| - 1] == userId && p[|p| - 1] == ':'
  {
    var p := StudentNoticePrefix + userId + ":";
    assert p[..|StudentNoticePrefix|] == StudentNoticePrefix;
    assert p[|StudentNoticePrefix|..|p| - 1] == userId;
    p
  }

  /** A notification addressed to one user: under that user's feed prefix,
      followed by the instant, which reads back. */
  function FeedKey(userId: string, now: nat): (k: string)
    ensures FeedPrefix(userId) <= k && DigitsValue(k[|FeedPrefix(userId)|..]) == now
  {
    var k := FeedPrefix(userId) + Decimal(now);
    assert k[..|FeedPrefix(userId)|] == FeedPrefix(userId);
    assert k[|FeedPrefix(userId)|..] == Decimal(now);
    DecimalRoundTrip(now);
    k
  }

  /** Strings that differ at a position neither is too short for are not
      prefix and extension. */
  lemma DifferAt(p: string, q: string, i: nat)
    requires i < |p| && i < |q| && p[i] != q[i]
    ensures !(p <= q)
  {
    if |p| <= |q| {
      assert q[..|p|][i] == q[i];
    }
  }

  /** `p` is not a prefix of anything that starts with a `q` it differs from. */
  lemma NotUnder(p: string, q: string, s: string, i: nat)
    requires i < |p| && i < |q| && p[i] != q[i]
    ensures !(p <= q + s)
  {
    assert (q + s)[i] == q[i];
    DifferAt(p, q + s, i);
  }

  /** `p` prefixes every extension of itself. */
  lemma Under(p: string, q: string, s: string)
    requires p <= q
    ensures p <= q + s
  {
    assert (q + s)[..|p|] == q[..|p|];
  }

  /** A generated course key is a course key and no other kind of key. */
  lemma CourseKeyKind(now: nat, rnd: string)
    ensures CoursePrefix <= CourseKey(now, rnd)
    ensures !(UserPrefix <= CourseKey(now, rnd)) && !(GradePrefix <= CourseKey(now, rnd))
    ensures !(NoticePrefix <= CourseKey(now, rnd))
  {
    var s := Decimal(now) + "-" + rnd;
    assert CourseKey(now, rnd) == CoursePrefix + s;
    Under(CoursePrefix, CoursePrefix, s);
    NotUnder(UserPrefix, CoursePrefix, s, 0);
    NotUnder(GradePrefix, CoursePrefix, s, 0);
    NotUnder(NoticePrefix, CoursePrefix, s, 0);
  }

  /** A generated material key is a material key and no other kind of key. */
  lemma MaterialKeyKind(now: nat, rnd: string)
    ensures MaterialPrefix <= MaterialKey(now, rnd)
    ensures !(UserPrefix <= MaterialKey(now, rnd)) && !(GradePrefix <= MaterialKey(now, rnd))
    ensures !(NoticePrefix <= MaterialKey(now, rnd))
  {
    var s := Decimal(now) + "-" + rnd;
    assert MaterialKey(now, rnd) == MaterialPrefix + s;
    Under(MaterialPrefix, MaterialPrefix, s);
    NotUnder(UserPrefix, MaterialPrefix, s, 0);
    NotUnder(GradePrefix, MaterialPrefix, s, 0);
    NotUnder(NoticePrefix, MaterialPrefix, s, 0);
  }

  /** A generated assessment key is an assessment key and no other kind of key. */
  lemma AssessmentKeyKind(now: nat, rnd: string)
    ensures AssessmentPrefix <= AssessmentKey(now, rnd)
    ensures !(UserPrefix <= AssessmentKey(now, rnd)) && !(GradePrefix <= AssessmentKey(now, rnd))
    ensures !(NoticePrefix <= AssessmentKey(now, rnd))
  {
    var s := Decimal(now) + "-" + rnd;
    assert AssessmentKey(now, rnd) == AssessmentPrefix + s;
    Under(AssessmentPrefix, AssessmentPrefix, s);
    NotUnder(UserPrefix, AssessmentPrefix, s, 0);
    NotUnder(GradePrefix, AssessmentPrefix, s, 0);
    NotUnder(NoticePrefix, AssessmentPrefix, s, 0);
  }

  /** A generated submission key is a submission key and no other kind of key. */
  lemma SubmissionKeyKind(now: nat, rnd: string)
    ensures SubmissionPrefix <= SubmissionKey(now, rnd)
    ensures !(UserPrefix <= SubmissionKey(now, rnd)) && !(GradePrefix <= SubmissionKey(now, rnd))
    ensures !(NoticePrefix <= SubmissionKey(now, rnd))
  {
    var s := Decimal(now) + "-" + rnd;
    assert SubmissionKey(now, rnd) == SubmissionPrefix + s;
    Under(SubmissionPrefix, SubmissionPrefix, s);
    NotUnder(UserPrefix, SubmissionPrefix, s, 0);
    NotUnder(GradePrefix, SubmissionPrefix, s, 0);
    NotUnder(NoticePrefix, SubmissionPrefix, s, 0);
  }

  /** A grade key is a grade key and neither a user key nor a notification key. */
  lemma GradeKeyKind(submissionId: string)
    ensures GradePrefix <= GradeKey(submissionId)
    ensures !(UserPrefix <= GradeKey(submissionId)) && !(NoticePrefix <= GradeKey(submissionId))
  {
    Under(GradePrefix, GradePrefix, submissionId);
    NotUnder(UserPrefix, GradePrefix, submissionId, 0);
    NotUnder(NoticePrefix, GradePrefix, submissionId, 0);
  }

  /** A key under `grade:` is neither a user key nor a notification key. */
  lemma GradePrefixKind(k: string)
    requires GradePrefix <= k
    ensures !(UserPrefix <= k) && !(NoticePrefix <= k)
  {
    assert k == GradePrefix + k[|GradePrefix|..];
    GradeKeyKind(k[|GradePrefix|..]);
  }

  /** A key under `submission:` is neither a grade key, a notification key
      nor a user key. */
  lemma SubmissionPrefixKind(k: string)
    requires SubmissionPrefix <= k
    ensures !(GradePrefix <= k) && !(NoticePrefix <= k) && !(UserPrefix <= k)
  {
    var s := k[|SubmissionPrefix|..];
    assert k == SubmissionPrefix + s;
    NotUnder(GradePrefix, SubmissionPrefix, s, 0);
    NotUnder(NoticePrefix, SubmissionPrefix, s, 0);
    NotUnder(UserPrefix, SubmissionPrefix, s, 0);
  }

  /** A user's notification key lies in that user's feed, among the
      notifications, and is neither a user key nor a grade key. */
  lemma FeedKeyKind(userId: string, now: nat)
    ensures FeedPrefix(userId) <= FeedKey(userId, now)
    ensures NoticePrefix <= FeedKey(userId, now)
    ensures !(UserPrefix <= FeedKey(userId, now)) && !(GradePrefix <= FeedKey(userId, now))
  {
    var k := FeedKey(userId, now);
    assert k[..|NoticePrefix|] == FeedPrefix(userId)[..|NoticePrefix|] == NoticePrefix;
    DifferAt(UserPrefix, k, 0);
    DifferAt(GradePrefix, k, 0);
  }

  /** A broadcast notification key lies among the notifications, is neither
      a user key nor a grade key, and lies in no user's feed. */
  lemma GlobalNoticeKeyKind(now: nat, rnd: string, userId: string)
    ensures NoticePrefix <= GlobalNoticeKey(now, rnd)
    ensures !(UserPrefix <= GlobalNoticeKey(now, rnd)) && !(GradePrefix <= GlobalNoticeKey(now, rnd))
    ensures !(FeedPrefix(userId) <= GlobalNoticeKey(now, rnd))
  {
    var s := Decimal(now) + "-" + rnd;
    var k := GlobalNoticeKey(now, rnd);
    assert k == NoticePrefix + s;
    Under(NoticePrefix, NoticePrefix, s);
    NotUnder(UserPrefix, NoticePrefix, s, 0);
    NotUnder(GradePrefix, NoticePrefix, s, 0);
    assert FeedPrefix(userId)[|NoticePrefix|] == 's';
    assert k[|NoticePrefix|] == Decimal(now)[0];
    DifferAt(FeedPrefix(userId), k, |NoticePrefix|);
  }

  /** Another user's notification key is not in the caller's feed, provided
      neither id contains `:` (true of the identity provider's UUIDs). */
  lemma ForeignFeedKey(caller: string, other: string, now: nat)
    requires caller != other && NoColon(caller) && NoColon(other)
    ensures !(FeedPrefix(caller) <= FeedKey(other, now))
  {
    var n := |StudentNoticePrefix|;
    var p := FeedPrefix(caller);
    var k := FeedKey(other, now);
    assert k == StudentNoticePrefix + other + ":" + Decimal(now);
    if |caller| < |other| {
      assert p[n + |caller|] == ':';
      assert k[n + |caller|] == other[|caller|];
      DifferAt(p, k, n + |caller|);
    } else if |caller| > |other| {
      assert p[n + |other|] == caller[|other|];
      assert k[n + |other|] == ':';
      DifferAt(p, k, n + |other|);
    } else {
      var i :| 0 <= i < |caller| && caller[i] != other[i];
      assert p[n + i] == caller[i];
      assert k[n + i] == other[i];
      DifferAt(p, k, n + i);
    }
  }

  /** Two notifications for one user written at different milliseconds have
      different keys; written in the same millisecond, they share one. */
  lemma FeedKeysDiffer(userId: string, t1: nat, t2: nat)
    ensures FeedKey(userId, t1) == FeedKey(userId, t2) <==> t1 == t2
  {
    if FeedKey(userId, t1) == FeedKey(userId, t2) {
      var n := |FeedPrefix(userId)|;
      assert Decimal(t1) == FeedKey(userId, t1)[n..];
      assert Decimal(t2) == FeedKey(userId, t2)[n..];
      DecimalInjective(t1, t2);
    }
  }
}
