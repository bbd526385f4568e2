/** Buffered time ranges: interval comparisons, overlap, merge and gap of
    two ranges, and the container that collects them. The constructor's
    acceptance test is one named predicate, `ConstructorAccepts`, and every
    operation that builds a range goes through it. */
module BufferedTimeRanges {
  import opened Common

  /** BufferedTimeRange: two times in seconds. */
  datatype TimeRange = TimeRange(start: real, end: real)

  /** The outcome of an operation that may build a range: `null`, a new
      range, or the constructor's exception. */
  datatype Made = Null | Made(range: TimeRange) | Thrown

  /** The constructor's test as written: it throws when `end > start`, so it
      accepts exactly the pairs whose end is not after their start. */
  predicate ConstructorAccepts(start: real, end: real)
  {
    !(end > start)
  }

  /** `new BufferedTimeRange(start, end)`. */
  function New(start: real, end: real): (m: Made)
    ensures m != Null
    ensures m.Made? <==> end <= start
    ensures m.Made? ==> m.range == TimeRange(start, end)
  {
    if ConstructorAccepts(start, end) then Made(TimeRange(start, end)) else Thrown
  }

  /** The test the constructor's message describes: end strictly after start. */
  predicate IntendedAccepts(start: real, end: real)
  {
    end > start
  }

  /** The constructor with the intended test. */
  function NewIntended(start: real, end: real): (m: Made)
    ensures m != Null
    ensures m.Made? <==> start < end
    ensures m.Made? ==> m.range == TimeRange(start, end)
  {
    if IntendedAccepts(start, end) then Made(TimeRange(start, end)) else Thrown
  }

  function Min(a: real, b: real): real { if a < b then a else b }
  function Max(a: real, b: real): real { if a > b then a else b }

  /** duration: end minus start. */
  function Duration(r: TimeRange): (d: real)
    ensures r.start + d == r.end
  {
    r.end - r.start
  }

  /** The documentation promises a positive duration; every range the
      constructor accepts has a duration of at most 0. */
  lemma DurationOfConstructed(r: TimeRange)
    requires ConstructorAccepts(r.start, r.end)
    ensures Duration(r) <= 0.0
  {
  }

  /** compareStart: positive exactly when `range` starts after `self`. */
  function CompareStart(self: TimeRange, range: TimeRange): (d: real)
    ensures d > 0.0 <==> range.start > self.start
    ensures d == 0.0 <==> range.start == self.start
    ensures self.start + d == range.start
  {
    range.start - self.start
  }

  /** compareEnd: positive exactly when `range` ends after `self`. */
  function CompareEnd(self: TimeRange, range: TimeRange): (d: real)
    ensures d > 0.0 <==> range.end > self.end
    ensures d == 0.0 <==> range.end == self.end
    ensures self.end + d == range.end
  {
    range.end - self.end
  }

  /** compareInterval: membership of `time`, boundaries included unless `strict`. */
  function CompareInterval(self: TimeRange, time: real, strict: bool): (b: bool)
    ensures strict ==> (b <==> self.start < time < self.end)
    ensures !strict ==> (b <==> self.start <= time <= self.end)
  {
    if strict then time > self.start && time < self.end
    else time >= self.start && time <= self.end
  }

  /** A strict hit is also a hit with boundaries. */
  lemma StrictImpliesInclusive(self: TimeRange, time: real)
    ensures CompareInterval(self, time, true) ==> CompareInterval(self, time, false)
  {
  }

  /** contains: `range` lies inside `self`, boundaries included. */
  function Contains(self: TimeRange, range: TimeRange): (b: bool)
    ensures b <==> self.start <= range.start && range.end <= self.end
  {
    CompareStart(self, range) >= 0.0 && CompareEnd(self, range) <= 0.0
  }

  /** equals: both end points coincide. */
  function Equals(self: TimeRange, range: TimeRange): (b: bool)
    ensures b <==> self == range
  {
    CompareStart(self, range) == 0.0 && CompareEnd(self, range) == 0.0
  }

  /** Two ranges that contain each other are equal. */
  lemma ContainsAntisymmetric(a: TimeRange, b: TimeRange)
    ensures Contains(a, b) && Contains(b, a) <==> Equals(a, b)
  {
  }

  /** _getOverlapRangeBoundaries: the later start and the earlier end. */
  function OverlapBoundaries(self: TimeRange, range: TimeRange): (b: (real, real))
    ensures b.0 >= self.start && b.0 >= range.start && (b.0 == self.start || b.0 == range.start)
    ensures b.1 <= self.end && b.1 <= range.end && (b.1 == self.end || b.1 == range.end)
  {
    var startDiff := CompareStart(self, range);
    var endDiff := CompareEnd(self, range);
    var start := if startDiff > 0.0 then range.start else self.start;
    var end := if endDiff > 0.0 then self.end else range.end;
    (start, end)
  }

  /** overlapsWith: the later start is before the earlier end; that is,
      each range starts before it ends and before the other one ends. */
  function OverlapsWith(self: TimeRange, range: TimeRange): (b: bool)
    ensures b <==> self.start < self.end && range.start < range.end
                   && self.start < range.end && range.start < self.end
  {
    var (start, end) := OverlapBoundaries(self, range);
    start < end
  }

  /** touchesWith: one range ends where the other starts. */
  function TouchesWith(self: TimeRange, range: TimeRange): (b: bool)
    ensures b <==> range.end == self.start || self.end == range.start
  {
    range.end == self.start || self.end == range.start
  }

  /** Overlapping and touching do not depend on the order of the two ranges. */
  lemma OverlapAndTouchSymmetric(a: TimeRange, b: TimeRange)
    ensures OverlapsWith(a, b) == OverlapsWith(b, a)
    ensures TouchesWith(a, b) == TouchesWith(b, a)
    ensures OverlapBoundaries(a, b) == OverlapBoundaries(b, a)
  {
  }

  /** continues: `self` starts where `range` ends (compareStart measured
      from `range` equals its duration). */
  function Continues(self: TimeRange, range: TimeRange): (b: bool)
    ensures b <==> self.start == range.end
  {
    CompareStart(range, self) == Duration(range)
  }

  /** A range that continues another touches it. */
  lemma ContinuesTouches(a: TimeRange, b: TimeRange)
    ensures Continues(a, b) ==> TouchesWith(a, b) && TouchesWith(b, a)
  {
  }

  /** getOverlappingRange: the overlap boundaries as a range when the
      constructor accepts them, otherwise null (the exception is caught). */
  function GetOverlappingRange(self: TimeRange, range: TimeRange): (m: Made)
    ensures m != Thrown
    ensures m.Made? ==> m.range == TimeRange(Max(self.start, range.start), Min(self.end, range.end))
  {
    var (start, end) := OverlapBoundaries(self, range);
    match New(start, end)
    case Thrown => Null
    case other => other
  }

  /** As written, the overlapping range is null exactly when the two ranges
      overlap, and a range exactly when they do not. */
  lemma OverlappingRangeInverted(a: TimeRange, b: TimeRange)
    ensures GetOverlappingRange(a, b) == Null <==> OverlapsWith(a, b)
  {
  }

  /** getOverlappingRange with the intended constructor test. */
  function GetOverlappingRangeIntended(self: TimeRange, range: TimeRange): (m: Made)
    ensures m != Thrown
    ensures m.Made? <==> OverlapsWith(self, range)
    ensures m.Made? ==> m.range == TimeRange(Max(self.start, range.start), Min(self.end, range.end))
    ensures m.Made? ==> Contains(self, m.range) && Contains(range, m.range)
  {
    var (start, end) := OverlapBoundaries(self, range);
    match NewIntended(start, end)
    case Thrown => Null
    case other => other
  }

  /** getMergedRange: null unless the ranges overlap or touch; otherwise the
      constructor applied to the earlier start and the later end. */
  function GetMergedRange(self: TimeRange, range: TimeRange): (m: Made)
    ensures m == Null <==> !OverlapsWith(range, self) && !TouchesWith(range, self)
    ensures m != Null ==> m == New(Min(self.start, range.start), Max(self.end, range.end))
  {
    if !OverlapsWith(range, self) && !TouchesWith(range, self) then Null
    else New(Min(self.start, range.start), Max(self.end, range.end))
  }

  /** getGapRange: null when the ranges overlap; otherwise the constructor
      applied to the earlier end and the later start. */
  function GetGapRange(self: TimeRange, range: TimeRange): (m: Made)
    ensures m == Null <==> OverlapsWith(range, self)
    ensures m != Null ==> m == New(Min(self.end, range.end), Max(self.start, range.start))
  {
    if OverlapsWith(range, self) then Null
    else New(Min(self.end, range.end), Max(self.start, range.start))
  }

  /** Ranges the constructor accepts never overlap: each ends no later
      than it starts. */
  lemma ConstructedNeverOverlap(a: TimeRange, b: TimeRange)
    requires ConstructorAccepts(a.start, a.end) && ConstructorAccepts(b.start, b.end)
    ensures !OverlapsWith(a, b)
  {
  }

  /** For ranges the constructor accepts, getGapRange never returns null,
      and it throws unless all four end points are equal. */
  lemma GapOfConstructed(a: TimeRange, b: TimeRange)
    requires ConstructorAccepts(a.start, a.end) && ConstructorAccepts(b.start, b.end)
    ensures GetGapRange(a, b) != Null
    ensures GetGapRange(a, b).Made? <==> a.start == a.end == b.start == b.end
  {
  }

  /** For ranges the constructor accepts, getMergedRange is null exactly
      when they do not touch, and builds a range only when the touching
      point is both the earliest start and the latest end, which makes the
      merged range empty; otherwise it throws. */
  lemma MergedOfConstructed(a: TimeRange, b: TimeRange)
    requires ConstructorAccepts(a.start, a.end) && ConstructorAccepts(b.start, b.end)
    ensures GetMergedRange(a, b) == Null <==> !TouchesWith(b, a)
    ensures GetMergedRange(a, b).Made? <==> TouchesWith(b, a) && a.end <= b.start && b.end <= a.start
    ensures GetMergedRange(a, b).Made? ==> GetMergedRange(a, b).range.start == GetMergedRange(a, b).range.end
  {
    ConstructedNeverOverlap(b, a);
  }

  /** getMergedRange with the intended constructor test. */
  function GetMergedRangeIntended(self: TimeRange, range: TimeRange): (m: Made)
    ensures m == Null <==> !OverlapsWith(range, self) && !TouchesWith(range, self)
    ensures m != Null ==> m == NewIntended(Min(self.start, range.start), Max(self.end, range.end))
  {
    if !OverlapsWith(range, self) && !TouchesWith(range, self) then Null
    else NewIntended(Min(self.start, range.start), Max(self.end, range.end))
  }

  /** Time `t` lies in one of the ranges, boundaries included. */
  predicate Covers(ranges: seq<TimeRange>, t: real)
  {
    exists k :: 0 <= k < |ranges| && CompareInterval(ranges[k], t, false)
  }

  /** Two proper ranges that overlap or touch merge into a proper range
      that covers exactly the times either of them covers. */
  lemma MergeCoversUnion(a: TimeRange, b: TimeRange, t: real)
    requires a.start < a.end && b.start < b.end
    requires OverlapsWith(b, a) || TouchesWith(b, a)
    ensures GetMergedRangeIntended(a, b).Made?
    ensures var m := GetMergedRangeIntended(a, b).range;
      m.start < m.end
      && (CompareInterval(m, t, false) <==> CompareInterval(a, t, false) || CompareInterval(b, t, false))
  {
  }

  lemma CoversAppend(ranges: seq<TimeRange>, r: TimeRange, t: real)
    ensures Covers(ranges + [r], t) <==> Covers(ranges, t) || CompareInterval(r, t, false)
  {
    var all := ranges + [r];
    if Covers(ranges, t) {
      var k :| 0 <= k < |ranges| && CompareInterval(ranges[k], t, false);
      assert all[k] == ranges[k];
    }
    if CompareInterval(r, t, false) {
      assert all[|ranges|] == r;
    }
    if Covers(all, t) {
      var k :| 0 <= k < |all| && CompareInterval(all[k], t, false);
      if k < |ranges| {
        assert all[k] == ranges[k];
      }
    }
  }

  /** The ranges are in order of their starts. */
  predicate SortedByStart(ranges: seq<TimeRange>)
  {
    forall i, j :: 0 <= i < j < |ranges| ==> ranges[i].start <= ranges[j].start
  }

  /** Each range ends strictly before the next one starts: no overlap and
      no contact. */
  predicate Separated(ranges: seq<TimeRange>)
  {
    forall k :: 0 < k < |ranges| ==> ranges[k - 1].end < ranges[k].start
  }

  predicate AllProper(ranges: seq<TimeRange>)
  {
    forall k :: 0 <= k < |ranges| ==> ranges[k].start < ranges[k].end
  }

  /** The merge `flatten` describes in its comments, with the intended
      constructor: a range that overlaps or touches the last output range
      replaces it by their merge, any other range is appended. The output
      covers the same times as the input; when the input is in order of its
      starts, the output ranges are also separated. */
  method MergeRanges(ranges: seq<TimeRange>) returns (merged: seq<TimeRange>)
    requires AllProper(ranges)
    ensures AllProper(merged)
    ensures |merged| <= |ranges|
    ensures forall t :: Covers(ranges, t) <==> Covers(merged, t)
    ensures SortedByStart(ranges) ==> Separated(merged)
  {
    merged := [];
    var previousRange: Option<TimeRange> := None;
    var i := 0;
    while i < |ranges|
      invariant 0 <= i <= |ranges|
      invariant |merged| <= i
      invariant i > 0 <==> |merged| > 0
      invariant i > 0 <==> previousRange.Some?
      invariant i > 0 ==> previousRange.value == merged[|merged| - 1]
      invariant AllProper(merged)
      invariant forall t :: Covers(ranges[..i], t) <==> Covers(merged, t)
      invariant SortedByStart(ranges) ==> Separated(merged)
      invariant SortedByStart(ranges) && i > 0 ==>
        exists m :: 0 <= m < i && previousRange.value.start == ranges[m].start
    {
      var range := ranges[i];
      assert ranges[..i + 1] == ranges[..i] + [range];
      ghost var prefix := ranges[..i];
      var overlap := if i > 0 then GetMergedRangeIntended(previousRange.value, range) else Null;
      if overlap != Null {
        var previous := previousRange.value;
        var init := merged[..|merged| - 1];
        assert merged == init + [previous];
        forall t
          ensures Covers(prefix + [range], t) <==> Covers(init + [overlap.range], t)
        {
          MergeCoversUnion(previous, range, t);
          CoversAppend(prefix, range, t);
          CoversAppend(init, previous, t);
          CoversAppend(init, overlap.range, t);
        }
        if SortedByStart(ranges) {
          var m :| 0 <= m < i && previousRange.value.start == ranges[m].start;
          assert ranges[m].start <= range.start;
        }
        merged := init + [overlap.range];
        range := overlap.range;
      } else {
        forall t
          ensures Covers(prefix + [range], t) <==> Covers(merged + [range], t)
        {
          CoversAppend(prefix, range, t);
          CoversAppend(merged, range, t);
        }
        if SortedByStart(ranges) && i > 0 {
          var m :| 0 <= m < i && previousRange.value.start == ranges[m].start;
          assert ranges[m].start <= range.start;
        }
        merged := merged + [range];
      }
      previousRange := Some(range);
      i := i + 1;
    }
    assert ranges[..i] == ranges;
  }

  /** `Array.prototype.pop` on a list, which leaves an empty list alone. */
  function DropLast<T>(s: seq<T>): (r: seq<T>)
    ensures s != [] ==> s == r + [s[|s| - 1]]
    ensures s == [] ==> r == []
  {
    if s == [] then [] else s[..|s| - 1]
  }

  /** BufferedTimeRangeContainer: the ranges in insertion order. */
  class BufferedTimeRangeContainer {
    var ranges: seq<TimeRange>

    constructor(ranges: seq<TimeRange>)
      ensures this.ranges == ranges
    {
      this.ranges := ranges;
    }

    /** insert: append at the tail. */
    method Insert(range: TimeRange)
      modifies this
      ensures ranges == old(ranges) + [range]
    {
      ranges := ranges + [range];
    }

    /** flatten as written: `previousRange` starts null and is only assigned
        inside the branch that needs it to be set, so no range is ever
        pushed and the new container is empty. The receiver is not changed. */
    method FlattenAsWritten() returns (c: BufferedTimeRangeContainer)
      ensures fresh(c)
      ensures c.ranges == []
    {
      var newRanges: seq<TimeRange> := [];
      var previousRange: Option<TimeRange> := None;
      var i := 0;
      while i < |ranges|
        invariant 0 <= i <= |ranges|
        invariant previousRange == None && newRanges == []
      {
        var range := ranges[i];
        // previousRange is never assigned outside this branch, so the
        // branch is never taken and a throwing merge cannot happen here.
        match previousRange {
          case Some(previous) =>
            match GetMergedRange(previous, range) {
              case Made(overlap) =>
                newRanges := DropLast(newRanges) + [overlap];
                range := overlap;
              case Null =>
              case Thrown =>
            }
            previousRange := Some(range);
          case None =>
        }
        i := i + 1;
      }
      c := new BufferedTimeRangeContainer(newRanges);
    }

    /** flatten with the merge its comments describe. */
    method Flatten() returns (c: BufferedTimeRangeContainer)
      requires AllProper(ranges)
      ensures fresh(c)
      ensures forall t :: Covers(ranges, t) <==> Covers(c.ranges, t)
      ensures SortedByStart(ranges) ==> Separated(c.ranges)
    {
      var merged := MergeRanges(ranges);
      c := new BufferedTimeRangeContainer(merged);
    }

    /** addTimeRanges: insert each pair of the `TimeRanges` list in order.
        The constructor throws at the first pair it rejects, leaving the
        pairs before it inserted and none after. */
    method AddTimeRanges(timeRanges: seq<(real, real)>) returns (thrown: bool)
      modifies this
      ensures var n := AcceptedPrefix(timeRanges);
        && ranges == old(ranges) + Ranges(timeRanges[..n])
        && (thrown <==> n < |timeRanges|)
    {
      var i := 0;
      while i < |timeRanges|
        invariant 0 <= i <= AcceptedPrefix(timeRanges)
        invariant ranges == old(ranges) + Ranges(timeRanges[..i])
      {
        var made := New(timeRanges[i].0, timeRanges[i].1);
        if made == Thrown {
          AcceptedPrefixStops(timeRanges, i);
          return true;
        }
        AcceptedPrefixContinues(timeRanges, i);
        RangesAppend(timeRanges[..i], timeRanges[i]);
        assert timeRanges[..i + 1] == timeRanges[..i] + [timeRanges[i]];
        Insert(made.range);
        i := i + 1;
      }
      return false;
    }
  }

  /** The ranges of a list of pairs. */
  function Ranges(pairs: seq<(real, real)>): (rs: seq<TimeRange>)
    ensures |rs| == |pairs|
    ensures forall k :: 0 <= k < |pairs| ==> rs[k] == TimeRange(pairs[k].0, pairs[k].1)
  {
    if pairs == [] then [] else Ranges(pairs[..|pairs| - 1]) + [TimeRange(pairs[|pairs| - 1].0, pairs[|pairs| - 1].1)]
  }

  lemma RangesAppend(pairs: seq<(real, real)>, p: (real, real))
    ensures Ranges(pairs + [p]) == Ranges(pairs) + [TimeRange(p.0, p.1)]
  {
    assert (pairs + [p])[..|pairs|] == pairs;
  }

  /** How many pairs, from the first, the constructor accepts before the
      first one it rejects. */
  function AcceptedPrefix(pairs: seq<(real, real)>): (n: nat)
    ensures n <= |pairs|
    ensures forall k :: 0 <= k < n ==> ConstructorAccepts(pairs[k].0, pairs[k].1)
    ensures n < |pairs| ==> !ConstructorAccepts(pairs[n].0, pairs[n].1)
  {
    if pairs == [] || !ConstructorAccepts(pairs[0].0, pairs[0].1) then 0
    else 1 + AcceptedPrefix(pairs[1..])
  }

  lemma AcceptedPrefixStops(pairs: seq<(real, real)>, i: nat)
    requires i <= AcceptedPrefix(pairs) && i < |pairs|
    requires !ConstructorAccepts(pairs[i].0, pairs[i].1)
    ensures i == AcceptedPrefix(pairs)
  {
  }

  lemma AcceptedPrefixContinues(pairs: seq<(real, real)>, i: nat)
    requires i <= AcceptedPrefix(pairs) && i < |pairs|
    requires ConstructorAccepts(pairs[i].0, pairs[i].1)
    ensures i < AcceptedPrefix(pairs)
  {
  }
}
