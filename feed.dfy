/**
 * The order of the notification feed: newest first, by the instant in each
 * record's `timestamp` (`new Date(b.timestamp).getTime() -
 * new Date(a.timestamp).getTime()` as the comparator of `Array.sort`).
 */
module Feed {
  import opened Values

  /** The instant of a record, in milliseconds; a record without one is
      placed as if written at the epoch. */
  function Instant(r: Record): (t: int)
    ensures Field(r, "timestamp").Some? && Field(r, "timestamp").value.Stamp? ==> Field(r, "timestamp") == Some(Stamp(t))
    ensures !(Field(r, "timestamp").Some? && Field(r, "timestamp").value.Stamp?) ==> t == 0
  {
    match Field(r, "timestamp")
    case Some(Stamp(ms)) => ms
    case _ => 0
  }

  /** Every record is at least as recent as every record after it. */
  predicate NewestFirst(rs: seq<Record>)
  {
    forall i, j :: 0 <= i < j < |rs| ==> Instant(rs[i]) >= Instant(rs[j])
  }

  /** `r` placed into a newest-first list ahead of the first record that is
      no more recent, so that of two records with one instant the one
      inserted later comes first. */
  function Insert(r: Record, rs: seq<Record>): (out: seq<Record>)
    requires NewestFirst(rs)
    ensures NewestFirst(out)
    ensures multiset(out) == multiset(rs) + multiset{r}
    ensures forall x :: x in out <==> x in rs || x == r
  {
    if rs == [] || Instant(rs[0]) <= Instant(r) then [r] + rs
    else
      var rest := Insert(r, rs[1..]);
      assert rs == [rs[0]] + rs[1..];
      HeadNewest(r, rs, rest);
      ConsNewestFirst(rs[0], rest);
      [rs[0]] + rest
  }

  /** The head of a newest-first list is no older than the rest of it, nor
      than a record older than the head. */
  lemma HeadNewest(r: Record, rs: seq<Record>, rest: seq<Record>)
    requires NewestFirst(rs) && rs != [] && Instant(r) < Instant(rs[0])
    requires forall x :: x in rest ==> x in rs[1..] || x == r
    ensures forall x :: x in rest ==> Instant(x) <= Instant(rs[0])
  {
    forall x | x in rest ensures Instant(x) <= Instant(rs[0]) {
      if x != r {
        var j :| 0 <= j < |rs[1..]| && rs[1..][j] == x;
        assert rs[j + 1] == x;
      }
    }
  }

  /** A record no older than every record of a newest-first list can head it. */
  lemma ConsNewestFirst(h: Record, rs: seq<Record>)
    requires NewestFirst(rs)
    requires forall x :: x in rs ==> Instant(x) <= Instant(h)
    ensures NewestFirst([h] + rs)
  {
    forall i, j | 0 <= i < j < |[h] + rs| ensures Instant(([h] + rs)[i]) >= Instant(([h] + rs)[j]) {
      if i > 0 {
        assert ([h] + rs)[i] == rs[i - 1] && ([h] + rs)[j] == rs[j - 1];
      } else {
        assert ([h] + rs)[j] in rs;
      }
    }
  }

  /** The feed's order: the same records, newest first. */
  function SortNewestFirst(rs: seq<Record>): (out: seq<Record>)
    ensures NewestFirst(out)
    ensures multiset(out) == multiset(rs)
    ensures |out| == |rs|
  {
    if rs == [] then []
    else
      assert rs == [rs[0]] + rs[1..];
      Insert(rs[0], SortNewestFirst(rs[1..]))
  }

  /** Sorting keeps every record and adds none. */
  lemma SortKeepsRecords(rs: seq<Record>, r: Record)
    ensures r in SortNewestFirst(rs) <==> r in rs
  {
    assert r in multiset(SortNewestFirst(rs)) <==> r in multiset(rs);
  }
}
