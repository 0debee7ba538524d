/**
 HTTP delivery coverage: which bytes of a file the server has sent, kept as the normal form of a set of ranges.
 */
module DeliveryCoverage {
  import opened Collections

  datatype Range = Range(start: int, end: int)

  predicate Inside(r: Range, x: int) {
    r.start <= x <= r.end
  }

  predicate Covers(ranges: seq<Range>, x: int) {
    exists i :: 0 <= i < |ranges| && Inside(ranges[i], x)
  }

  /** The bytes of a file of the given size that the ranges cover. */
  ghost function Covered(ranges: seq<Range>, size: int): set<int> {
    set x | 0 <= x < size && Covers(ranges, x)
  }

  predicate InFile(x: int, size: int) {
    0 <= x < size
  }

  ghost function Whole(size: int): set<int> {
    set x | 0 <= x < size && InFile(x, size)
  }

  predicate Within(r: Range, size: int) {
    0 <= r.start <= r.end < size
  }

  /** Sorted, inside the file, and with a gap between any two ranges. */
  ghost predicate Normal(ranges: seq<Range>, size: int) {
    && (forall i :: 0 <= i < |ranges| ==> Within(ranges[i], size))
    && (forall i, j :: 0 <= i < j < |ranges| ==> ranges[i].end + 1 < ranges[j].start)
  }

  // ---- the normal form is unique ----

  lemma FirstStart(a: seq<Range>, b: seq<Range>, size: int)
    requires Normal(a, size) && Normal(b, size) && a != [] && Covered(a, size) <= Covered(b, size)
    ensures b != [] && b[0].start <= a[0].start
  {
    assert Inside(a[0], a[0].start) && Within(a[0], size);
    assert a[0].start in Covered(a, size);
    var j :| 0 <= j < |b| && Inside(b[j], a[0].start);
    assert j > 0 ==> Within(b[0], size) && b[0].end + 1 < b[j].start;
  }

  lemma FirstEnd(a: seq<Range>, b: seq<Range>, size: int)
    requires Normal(a, size) && Normal(b, size) && a != [] && b != [] && a[0].start == b[0].start
    requires Covered(b, size) <= Covered(a, size)
    ensures b[0].end <= a[0].end
  {
    var x := a[0].end + 1;
    assert !Covers(a, x) by {
      forall i | 0 <= i < |a| ensures !Inside(a[i], x) {
        assert i > 0 ==> a[0].end + 1 < a[i].start;
      }
    }
    assert Within(a[0], size) && Within(b[0], size);
    assert Inside(b[0], x) ==> x in Covered(b, size);
  }

  lemma TailCovered(a: seq<Range>, size: int)
    requires Normal(a, size) && a != []
    ensures Normal(a[1..], size)
    ensures forall x :: x in Covered(a[1..], size) <==> x in Covered(a, size) && !Inside(a[0], x)
  {
    forall x ensures Covers(a[1..], x) <==> Covers(a, x) && !Inside(a[0], x) {
      if Covers(a[1..], x) {
        var i :| 0 <= i < |a[1..]| && Inside(a[1..][i], x);
        assert Inside(a[i + 1], x);
      }
      if Covers(a, x) && !Inside(a[0], x) {
        var i :| 0 <= i < |a| && Inside(a[i], x);
        assert a[1..][i - 1] == a[i];
      }
    }
  }

  /** Two normal forms of the same bytes are the same list. */
  lemma {:induction false} NormalFormUnique(a: seq<Range>, b: seq<Range>, size: int)
    requires Normal(a, size) && Normal(b, size) && Covered(a, size) == Covered(b, size)
    ensures a == b
  {
    if a == [] || b == [] {
      if a != [] { FirstStart(a, b, size); }
      if b != [] { FirstStart(b, a, size); }
    } else {
      FirstStart(a, b, size);
      FirstStart(b, a, size);
      FirstEnd(a, b, size);
      FirstEnd(b, a, size);
      TailCovered(a, size);
      TailCovered(b, size);
      NormalFormUnique(a[1..], b[1..], size);
      assert a == [a[0]] + a[1..] && b == [b[0]] + b[1..];
    }
  }

  // ---- merging ----

  function Clip(r: Range, size: int): Range {
    Range(if r.start < 0 then 0 else r.start, if r.end >= size then size - 1 else r.end)
  }

  predicate Before(a: Range, b: Range) {
    if a.start == b.start then a.end < b.end else a.start < b.start
  }

  predicate Sorted(ranges: seq<Range>) {
    forall i, j :: 0 <= i < j < |ranges| ==> !Before(ranges[j], ranges[i])
  }

  function Insert(r: Range, ranges: seq<Range>): (s: seq<Range>)
    ensures |s| == |ranges| + 1
  {
    if ranges == [] then [r]
    else if Before(ranges[0], r) then [ranges[0]] + Insert(r, ranges[1..])
    else [r] + ranges
  }

  /** `sort.Slice` with a total order: every correct sort gives this list. */
  function Sort(ranges: seq<Range>): (s: seq<Range>)
    ensures |s| == |ranges|
  {
    if ranges == [] then [] else Insert(ranges[0], Sort(ranges[1..]))
  }

  lemma {:induction false} InsertSorts(r: Range, ranges: seq<Range>)
    requires Sorted(ranges)
    ensures Sorted(Insert(r, ranges)) && multiset(Insert(r, ranges)) == multiset(ranges) + multiset{r}
  {
    if ranges != [] && Before(ranges[0], r) {
      InsertSorts(r, ranges[1..]);
      var rest := Insert(r, ranges[1..]);
      assert ranges == [ranges[0]] + ranges[1..];
      forall j | 0 <= j < |rest| ensures !Before(rest[j], ranges[0]) {
        assert rest[j] in multiset(rest);
        assert rest[j] == r || rest[j] in ranges[1..];
      }
    }
  }

  lemma {:induction false} SortSorts(ranges: seq<Range>)
    ensures Sorted(Sort(ranges)) && multiset(Sort(ranges)) == multiset(ranges)
  {
    if ranges != [] {
      SortSorts(ranges[1..]);
      InsertSorts(ranges[0], Sort(ranges[1..]));
      assert ranges == [ranges[0]] + ranges[1..];
    }
  }

  lemma SameMembersSameCover(a: seq<Range>, b: seq<Range>, size: int)
    requires multiset(a) == multiset(b)
    ensures forall x :: Covers(a, x) <==> Covers(b, x)
    ensures (forall r :: r in a ==> Within(r, size)) ==> (forall r :: r in b ==> Within(r, size))
  {
    forall x ensures Covers(a, x) <==> Covers(b, x) {
      if Covers(a, x) {
        var i :| 0 <= i < |a| && Inside(a[i], x);
        assert a[i] in multiset(b);
        var j :| 0 <= j < |b| && b[j] == a[i];
      }
      if Covers(b, x) {
        var i :| 0 <= i < |b| && Inside(b[i], x);
        assert b[i] in multiset(a);
        var j :| 0 <= j < |a| && a[j] == b[i];
      }
    }
    assert forall r :: r in b ==> r in multiset(a);
  }

  lemma CoversLast(ranges: seq<Range>, r: Range, x: int)
    ensures Covers(ranges + [r], x) <==> Covers(ranges, x) || Inside(r, x)
  {
    var longer := ranges + [r];
    if Covers(ranges, x) {
      var i :| 0 <= i < |ranges| && Inside(ranges[i], x);
      assert longer[i] == ranges[i];
    }
    if Inside(r, x) {
      assert longer[|ranges|] == r;
    }
  }

  /** The merged prefix after `i` ranges of the sorted list: normal, with the same cover, and not starting later than what follows. */
  ghost predicate Merging(sorted: seq<Range>, i: nat, merged: seq<Range>, size: int) {
    && 0 < i <= |sorted| && 0 < |merged| <= i
    && Normal(merged, size)
    && (forall x :: Covers(merged, x) <==> Covers(sorted[..i], x))
    && (forall k :: i <= k < |sorted| ==> merged[|merged| - 1].start <= sorted[k].start)
  }

  /** What one round of the compaction makes of the merged prefix. */
  function Absorb(merged: seq<Range>, next: Range): (r: seq<Range>)
    requires merged != []
  {
    var last := merged[|merged| - 1];
    if next.start <= last.end || next.start == last.end + 1
    then if next.end > last.end then merged[|merged| - 1 := Range(last.start, next.end)] else merged
    else merged + [next]
  }

  lemma AbsorbCovers(merged: seq<Range>, next: Range, size: int)
    requires merged != [] && Normal(merged, size) && Within(next, size) && merged[|merged| - 1].start <= next.start
    ensures Normal(Absorb(merged, next), size)
    ensures forall x :: Covers(Absorb(merged, next), x) <==> Covers(merged, x) || Inside(next, x)
    ensures merged[|merged| - 1].start <= Absorb(merged, next)[|Absorb(merged, next)| - 1].start <= next.start
  {
    var init, last := merged[..|merged| - 1], merged[|merged| - 1];
    assert merged == init + [last] && Within(last, size);
    var r := Absorb(merged, next);
    if next.start <= last.end + 1 {
      var wider := Range(last.start, if next.end > last.end then next.end else last.end);
      assert r == init + [wider];
      forall x ensures Covers(r, x) <==> Covers(merged, x) || Inside(next, x) {
        CoversLast(init, wider, x);
        CoversLast(init, last, x);
      }
    } else {
      forall x ensures Covers(r, x) <==> Covers(merged, x) || Inside(next, x) {
        CoversLast(merged, next, x);
      }
    }
  }

  lemma MergingStep(sorted: seq<Range>, i: nat, merged: seq<Range>, size: int)
    requires Merging(sorted, i, merged, size) && i < |sorted| && Sorted(sorted) && forall r :: r in sorted ==> Within(r, size)
    ensures Merging(sorted, i + 1, Absorb(merged, sorted[i]), size)
  {
    var next := sorted[i];
    assert Within(next, size);
    AbsorbCovers(merged, next, size);
    assert sorted[..i + 1] == sorted[..i] + [next];
    forall x ensures Covers(Absorb(merged, next), x) <==> Covers(sorted[..i + 1], x) {
      CoversLast(sorted[..i], next, x);
    }
    forall k | i + 1 <= k < |sorted| ensures next.start <= sorted[k].start {
      assert !Before(sorted[k], sorted[i]);
    }
  }

  /** The compaction shares the sorted slice's storage: it never overwrites a range that it has yet to read. */
  method Compact(a: array<Range>, size: int) returns (m: nat)
    requires a.Length > 0 && Sorted(a[..]) && forall r :: r in a[..] ==> Within(r, size)
    modifies a
    ensures m <= a.Length && Merging(old(a[..]), a.Length, a[..m], size)
  {
    ghost var sorted := a[..];
    m := 1;
    assert a[..1] == sorted[..1];
    for i := 1 to a.Length
      invariant 0 < m <= i && a[i..] == sorted[i..]
      invariant Merging(sorted, i, a[..m], size)
    {
      hide Merging, Sorted;
      ghost var merged := a[..m];
      var next := a[i];
      assert next == a[i..][0] == sorted[i];
      MergingStep(sorted, i, merged, size);
      if next.start <= a[m - 1].end || next.start == a[m - 1].end + 1 {
        if next.end > a[m - 1].end {
          a[m - 1] := a[m - 1].(end := next.end);
        }
      } else {
        a[m] := next;
        m := m + 1;
      }
      assert a[..m] == Absorb(merged, next);
      assert a[i + 1..] == sorted[i + 1..];
    }
  }

  /** The first loop of `mergeHTTPDeliveryRanges`: clips to the file and drops what is empty. */
  method Normalize(ranges: seq<Range>, size: int) returns (normalized: seq<Range>)
    requires size > 0
    ensures forall r :: r in normalized ==> Within(r, size)
    ensures forall x :: 0 <= x < size ==> (Covers(normalized, x) <==> Covers(ranges, x))
  {
    normalized := [];
    for i := 0 to |ranges|
      invariant forall r :: r in normalized ==> Within(r, size)
      invariant forall x :: 0 <= x < size ==> (Covers(normalized, x) <==> Covers(ranges[..i], x))
    {
      hide Covers, Inside;
      var delivered := ranges[i];
      if delivered.start < 0 {
        delivered := delivered.(start := 0);
      }
      if delivered.end >= size {
        delivered := delivered.(end := size - 1);
      }
      assert delivered == Clip(ranges[i], size);
      assert ranges[..i + 1] == ranges[..i] + [ranges[i]];
      forall x | 0 <= x < size
        ensures Covers(ranges[..i + 1], x) <==> Covers(ranges[..i], x) || Inside(delivered, x)
        ensures delivered.end < delivered.start || delivered.start >= size ==> !Inside(delivered, x)
        ensures Covers(normalized + [delivered], x) <==> Covers(normalized, x) || Inside(delivered, x)
      {
        CoversLast(ranges[..i], ranges[i], x);
        CoversLast(normalized, delivered, x);
      }
      if delivered.end < delivered.start || delivered.start >= size {
        continue;
      }
      normalized := normalized + [delivered];
    }
    assert ranges[..|ranges|] == ranges;
  }

  /** `mergeHTTPDeliveryRanges`: the normal form of whatever part of the file the ranges cover. */
  method MergeRanges(ranges: seq<Range>, size: int) returns (merged: seq<Range>)
    ensures Normal(merged, size) && Covered(merged, size) == Covered(ranges, size)
  {
    if size <= 0 || |ranges| == 0 {
      return [];
    }
    var normalized := Normalize(ranges, size);
    if |normalized| == 0 {
      return [];
    }
    SortSorts(normalized);
    var sorted := Sort(normalized);
    SameMembersSameCover(normalized, sorted, size);
    var a := new Range[|sorted|](i requires 0 <= i < |sorted| => sorted[i]);
    assert a[..] == sorted;
    var m := Compact(a, size);
    merged := a[..m];
    assert sorted[..|sorted|] == sorted;
  }

  // ---- the delivery record ----

  type Time = nat

  datatype Delivery = Delivery(fileSize: int, ranges: seq<Range>, completedAt: Option<Time>)

  const EMPTY := Delivery(0, [], None)

  /** A change of the file's size forgets what was delivered of the old file. */
  function Rebased(d: Delivery, size: int): Delivery {
    if d.fileSize != size && (|d.ranges| > 0 || d.completedAt.Some?) then EMPTY.(fileSize := size) else d.(fileSize := size)
  }

  /**
   What a report of delivered ranges means for the record, whatever ranges were stored: the union with what was
   covered before, completed exactly when that is the whole file.
   */
  ghost predicate Recorded(d: Delivery, after: Delivery, size: int, added: seq<Range>, at: Time, complete: bool) {
    var base := Rebased(d, size);
    var union := Covered(base.ranges, size) + Covered(added, size);
    if base.completedAt.Some? then
      after == d && !complete
    else
      && (complete <==> union == Whole(size))
      && (complete ==> after == Delivery(size, [], Some(at)))
      && (!complete ==> after == Delivery(size, after.ranges, None) && Normal(after.ranges, size) && Covered(after.ranges, size) == union)
  }

  lemma CoveredUnion(a: seq<Range>, b: seq<Range>, size: int)
    ensures Covered(a + b, size) == Covered(a, size) + Covered(b, size)
  {
    forall x ensures Covers(a + b, x) <==> Covers(a, x) || Covers(b, x) {
      if Covers(a, x) {
        var i :| 0 <= i < |a| && Inside(a[i], x);
        assert (a + b)[i] == a[i];
      }
      if Covers(b, x) {
        var i :| 0 <= i < |b| && Inside(b[i], x);
        assert (a + b)[|a| + i] == b[i];
      }
    }
  }

  /** The test for completion, one range from 0 to the last byte, recognises exactly full coverage. */
  lemma FullCoverage(ranges: seq<Range>, size: int)
    requires 0 <= size && Normal(ranges, size)
    ensures Covered(ranges, size) == Whole(size)
            <==> size == 0 || (|ranges| == 1 && ranges[0].start == 0 && ranges[0].end == size - 1)
  {
    if 0 < size && Covered(ranges, size) == Whole(size) {
      var all := [Range(0, size - 1)];
      forall x | 0 <= x < size ensures Covers(all, x) {
        assert Inside(all[0], x);
      }
      assert Covered(all, size) == Whole(size);
      NormalFormUnique(ranges, all, size);
    }
    if 0 < size && |ranges| == 1 && ranges[0].start == 0 && ranges[0].end == size - 1 {
      forall x | 0 <= x < size ensures Covers(ranges, x) {
        assert Inside(ranges[0], x);
      }
    }
  }

  /** The delivery part of a persistent download task. */
  class TaskRecord {
    var delivery: Delivery
    var downloaded: bool

    constructor ()
      ensures delivery == EMPTY && !downloaded
    {
      delivery, downloaded := EMPTY, false;
    }

    /** `recordHTTPDelivery`: one read-modify-write of the record. */
    method RecordDelivery(size: int, added: seq<Range>, at: Time) returns (complete: bool, invalid: bool)
      modifies this
      ensures invalid <==> size < 0
      ensures invalid ==> !complete && delivery == old(delivery) && downloaded == old(downloaded)
      ensures !invalid ==> Recorded(old(delivery), delivery, size, added, at, complete)
      ensures !invalid ==> downloaded == (old(downloaded) || complete)
    {
      if size < 0 {
        return false, true;
      }
      complete, invalid := false, false;
      var d := delivery;
      if d.fileSize != size && (|d.ranges| > 0 || d.completedAt.Some?) {
        d := EMPTY;
      }
      d := d.(fileSize := size);
      if d.completedAt.Some? {
        return;
      }
      hide Normal, Covered;
      CoveredUnion(d.ranges, added, size);
      var merged := MergeRanges(d.ranges + added, size);
      FullCoverage(merged, size);
      d := d.(ranges := merged);
      complete := size == 0 || (|d.ranges| == 1 && d.ranges[0].start == 0 && d.ranges[0].end == size - 1);
      if complete {
        d := d.(completedAt := Some(at), ranges := []);
        downloaded := true;
      }
      delivery := d;
    }
  }

  // ---- what the status reports ----

  /** The bytes that count as delivered. */
  ghost function Delivered(d: Delivery): set<int> {
    if d.completedAt.Some? then Whole(d.fileSize) else Covered(d.ranges, d.fileSize)
  }

  /**
   What counts as delivered after a report: for another file size only the bytes of that report, for the same size
   these besides those delivered before, and a completed record stays as it is.
   */
  lemma ReportCounts(d: Delivery, after: Delivery, size: int, added: seq<Range>, at: Time, complete: bool)
    requires 0 <= size && Recorded(d, after, size, added, at, complete)
    ensures after.fileSize == size
    ensures d.fileSize != size ==> Delivered(after) == Covered(added, size)
    ensures d.fileSize == size ==> Delivered(after) == Delivered(d) + (if d.completedAt.Some? then {} else Covered(added, size))
    ensures complete <==> Delivered(after) == Whole(size) && !(d.fileSize == size && d.completedAt.Some?)
    ensures complete ==> after.completedAt == Some(at)
    ensures d.fileSize == size && d.completedAt.Some? ==> after == d
    ensures !complete && !(d.fileSize == size && d.completedAt.Some?) ==> after.completedAt == None
  {
    NothingCovered(size);
    hide Covered, Normal, Whole;
  }

  function Length(r: Range): int {
    r.end - r.start + 1
  }

  function TotalLength(ranges: seq<Range>): int {
    if ranges == [] then 0 else TotalLength(ranges[..|ranges| - 1]) + Length(ranges[|ranges| - 1])
  }

  ghost function Interval(lo: int, hi: int): set<int> {
    set x | lo <= x < hi && InFile(x, hi)
  }

  lemma {:induction false} IntervalSize(lo: int, hi: int)
    requires 0 <= lo <= hi
    ensures |Interval(lo, hi)| == hi - lo
    decreases hi
  {
    if lo < hi {
      IntervalSize(lo, hi - 1);
      assert Interval(lo, hi) == Interval(lo, hi - 1) + {hi - 1};
    } else {
      assert Interval(lo, hi) == {};
    }
  }

  lemma WholeSize(size: int)
    requires 0 <= size
    ensures |Whole(size)| == size
  {
    IntervalSize(0, size);
    assert Interval(0, size) == Whole(size);
  }

  /** The lengths of a normal form add up to the number of bytes it covers. */
  lemma {:induction false} TotalIsCount(ranges: seq<Range>, size: int)
    requires Normal(ranges, size)
    ensures TotalLength(ranges) == |Covered(ranges, size)|
  {
    hide Normal, Covered, Interval;
    if ranges == [] {
      assert Covered(ranges, size) == {} by { NothingCovered(size); }
    } else {
      var init, last := ranges[..|ranges| - 1], ranges[|ranges| - 1];
      SplitLast(ranges, size);
      TotalIsCount(init, size);
      IntervalSize(last.start, last.end + 1);
    }
  }

  lemma NothingCovered(size: int)
    ensures Covered([], size) == {}
  {
  }

  lemma SplitLast(ranges: seq<Range>, size: int)
    requires Normal(ranges, size) && ranges != []
    ensures var init, last := ranges[..|ranges| - 1], ranges[|ranges| - 1];
            && Normal(init, size) && 0 <= last.start <= last.end
            && Covered(ranges, size) == Covered(init, size) + Interval(last.start, last.end + 1)
            && Covered(init, size) !! Interval(last.start, last.end + 1)
  {
    var init, last := ranges[..|ranges| - 1], ranges[|ranges| - 1];
    assert Within(last, size) && ranges == init + [last];
    forall x ensures Covers(ranges, x) <==> Covers(init, x) || Inside(last, x) {
      CoversLast(init, last, x);
    }
    forall x | x in Interval(last.start, last.end + 1) ensures Inside(last, x) && !Covers(init, x) {
      assert forall i :: 0 <= i < |init| ==> init[i] == ranges[i];
    }
  }

  datatype Status = Status(completed: bool, completedAt: Option<Time>, deliveredBytes: int, fileSize: int)

  /** `ParseDownloadTaskHTTPStatus` on a decoded record: the count is the number of distinct bytes delivered. */
  method ParseStatus(delivery: Delivery) returns (status: Status)
    ensures status.completed == delivery.completedAt.Some? && status.completedAt == delivery.completedAt
    ensures status.fileSize == delivery.fileSize
    ensures delivery.fileSize >= 0 || delivery.completedAt.None? ==> status.deliveredBytes == |Delivered(delivery)|
  {
    status := Status(delivery.completedAt.Some?, delivery.completedAt, 0, delivery.fileSize);
    if status.completed {
      if delivery.fileSize >= 0 {
        WholeSize(delivery.fileSize);
      }
      return status.(deliveredBytes := delivery.fileSize);
    }
    var merged := MergeRanges(delivery.ranges, delivery.fileSize);
    for i := 0 to |merged|
      invariant status == Status(false, None, TotalLength(merged[..i]), delivery.fileSize)
    {
      assert merged[..i + 1][..i] == merged[..i];
      status := status.(deliveredBytes := status.deliveredBytes + (merged[i].end - merged[i].start + 1));
    }
    assert merged[..|merged|] == merged;
    TotalIsCount(merged, delivery.fileSize);
  }

  // ---- any number of reports ----

  datatype Report = Report(ranges: seq<Range>, at: Time)

  /** The record after each of a list of reports for one file size. */
  ghost predicate Reports(size: int, states: seq<Delivery>, reports: seq<Report>) {
    && |states| == |reports| + 1
    && forall i: nat :: i < |reports| ==> ReportAt(size, states, reports, i)
  }

  ghost predicate ReportAt(size: int, states: seq<Delivery>, reports: seq<Report>, i: nat)
    requires i < |reports| && |states| == |reports| + 1
  {
    var r := reports[i];
    || Recorded(states[i], states[i + 1], size, r.ranges, r.at, true)
    || Recorded(states[i], states[i + 1], size, r.ranges, r.at, false)
  }

  ghost function Union(reports: seq<Report>, size: int): set<int> {
    if reports == [] then {}
    else Union(reports[..|reports| - 1], size) + Covered(reports[|reports| - 1].ranges, size)
  }

  /** Nothing delivered yet. */
  predicate Untouched(d: Delivery) {
    d.ranges == [] && d.completedAt.None?
  }

  /** The record holds exactly the given bytes, in normal form, and is completed when they are the whole file. */
  ghost predicate Holds(d: Delivery, size: int, bytes: set<int>) {
    if bytes == Whole(size)
    then d.completedAt.Some? && d.ranges == [] && d.fileSize == size
    else d.completedAt.None? && d.fileSize == size && Normal(d.ranges, size) && Covered(d.ranges, size) == bytes
  }

  lemma HoldsAfterReport(d: Delivery, after: Delivery, size: int, bytes: set<int>, r: Report)
    requires Recorded(d, after, size, r.ranges, r.at, true) || Recorded(d, after, size, r.ranges, r.at, false)
    requires bytes <= Whole(size) && (Holds(d, size, bytes) || (bytes == {} && Untouched(d)))
    ensures Holds(after, size, bytes + Covered(r.ranges, size)) && bytes + Covered(r.ranges, size) <= Whole(size)
  {
    assert Covered(r.ranges, size) <= Whole(size);
    NothingCovered(size);
  }

  /** After any reports of a file's ranges, in any order, the record holds their union. */
  lemma {:induction false} RecordHoldsUnion(size: int, states: seq<Delivery>, reports: seq<Report>)
    requires 0 <= size && Reports(size, states, reports) && Untouched(states[0]) && reports != []
    ensures Holds(states[|reports|], size, Union(reports, size)) && Union(reports, size) <= Whole(size)
  {
    hide Recorded, Holds, Normal, Covered, Whole;
    var n := |reports| - 1;
    var before := reports[..n];
    assert Union(reports, size) == Union(before, size) + Covered(reports[n].ranges, size);
    assert ReportAt(size, states, reports, n);
    if n > 0 {
      EarlierReports(size, states, reports, n);
      RecordHoldsUnion(size, states[..n + 1], before);
    } else {
      assert before == [];
    }
    HoldsAfterReport(states[n], states[n + 1], size, Union(before, size), reports[n]);
  }

  lemma EarlierReports(size: int, states: seq<Delivery>, reports: seq<Report>, n: nat)
    requires Reports(size, states, reports) && n < |reports|
    ensures Reports(size, states[..n + 1], reports[..n])
  {
    var states0, reports0 := states[..n + 1], reports[..n];
    forall i: nat | i < n ensures ReportAt(size, states0, reports0, i) {
      assert ReportAt(size, states, reports, i);
    }
  }

  /** The order and the grouping of the reports do not matter: equal unions leave equal records. */
  lemma OrderDoesNotMatter(size: int, states: seq<Delivery>, reports: seq<Report>, states': seq<Delivery>, reports': seq<Report>)
    requires 0 <= size && Reports(size, states, reports) && Reports(size, states', reports')
    requires Untouched(states[0]) && Untouched(states'[0]) && reports != [] && reports' != []
    requires Union(reports, size) == Union(reports', size)
    ensures states[|reports|].ranges == states'[|reports'|].ranges
    ensures states[|reports|].completedAt.Some? <==> states'[|reports'|].completedAt.Some?
    ensures states[|reports|].completedAt.Some? <==> Union(reports, size) == Whole(size)
  {
    RecordHoldsUnion(size, states, reports);
    RecordHoldsUnion(size, states', reports');
    var d, d' := states[|reports|], states'[|reports'|];
    hide Reports, Union;
    if Union(reports, size) != Whole(size) {
      NormalFormUnique(d.ranges, d'.ranges, size);
    }
  }

  /** A report for the same size never loses delivered bytes, so the count never falls. */
  lemma DeliveredNeverFalls(d: Delivery, after: Delivery, size: int, added: seq<Range>, at: Time, complete: bool)
    requires 0 <= size && d.fileSize == size && Recorded(d, after, size, added, at, complete)
    ensures Delivered(d) <= Delivered(after) && |Delivered(d)| <= |Delivered(after)|
    ensures Delivered(after) == Delivered(d) + Covered(added, size)
    ensures d.completedAt.Some? ==> after == d
  {
    assert Covered(added, size) <= Whole(size) && Covered(d.ranges, size) <= Whole(size);
    SubsetSize(Delivered(d), Delivered(after));
  }
}
