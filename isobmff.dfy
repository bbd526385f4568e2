/** The ISO-BMFF box walker: a scan over (size, type, payload) records in
    the layout of ISO/IEC 14496-12 section 4.2, with the path search, box
    views and recursion exactly as the source writes them. */
module IsoBmffBox {
  import opened Common
  import opened BytesReadWrite

  /** MpegIsoBmffBox: a view of `data` between `start` and `end`. */
  datatype Box = Box(data: seq<byte>, start: int, end: int)

  function Min(a: int, b: int): int { if a < b then a else b }

  /** The type of the record at cursor `i`: the bytes from `i + 4` to
      `i + 8` as characters, the subarray clipped to the end of the buffer. */
  function RecordType(data: seq<byte>, i: nat): string
  {
    BytesToString(data[Min(i + 4, |data|)..Min(i + 8, |data|)])
  }

  /** Where the record at cursor `i` ends: `i + size` when the size field
      exceeds 1, the end of the buffer when it is 0 or 1. */
  function RecordEnd(data: seq<byte>, i: nat): (e: nat)
    requires i < |data|
    ensures e > i
    ensures e == |data| || e == i + ReadUint32(data, i)
  {
    var size := ReadUint32(data, i);
    if size > 1 then i + size else |data|
  }

  /** The boxes a search for `path` (called with `start`) collects from the
      records at and after cursor `i`. A record whose type is `path[0]`
      contributes one box over the whole buffer when the path ends there,
      and otherwise the matches of the rest of the path searched from the
      record's end. */
  function Scan(data: seq<byte>, path: seq<string>, start: nat, i: nat): seq<Box>
    requires |path| > 0
    decreases |path|, |data| - i
  {
    if i >= |data| then []
    else
      var end := RecordEnd(data, i);
      var here :=
        if RecordType(data, i) != path[0] then []
        else if |path| == 1 then [Box(data, start, |data|)]
        else Scan(data, path[1..], end, end);
      here + Scan(data, path, start, end)
  }

  /** One record's contribution to `Scan`, and what the rest of the scan adds. */
  lemma ScanStep(data: seq<byte>, path: seq<string>, start: nat, i: nat)
    requires |path| > 0 && i < |data|
    ensures RecordType(data, i) != path[0] ==>
      Scan(data, path, start, i) == Scan(data, path, start, RecordEnd(data, i))
    ensures RecordType(data, i) == path[0] && |path| == 1 ==>
      Scan(data, path, start, i) == [Box(data, start, |data|)] + Scan(data, path, start, RecordEnd(data, i))
    ensures RecordType(data, i) == path[0] && |path| > 1 ==>
      Scan(data, path, start, i)
      == Scan(data, path[1..], RecordEnd(data, i), RecordEnd(data, i)) + Scan(data, path, start, RecordEnd(data, i))
  {
  }

  /** findIsoBmffBoxes: null for an empty path, otherwise every match. */
  method FindIsoBmffBoxes(data: seq<byte>, path: seq<string>, start: nat) returns (r: Option<seq<Box>>)
    ensures |path| == 0 ==> r == None
    ensures |path| > 0 ==> r == Some(Scan(data, path, start, start))
    decreases |path|
  {
    if |path| == 0 {
      return None;
    }
    var boxes: seq<Box> := [];
    var i := start;
    while i < |data|
      invariant boxes + Scan(data, path, start, i) == Scan(data, path, start, start)
      decreases |data| - i
    {
      var recordType := RecordType(data, i);
      var end := RecordEnd(data, i);
      ScanStep(data, path, start, i);
      if recordType == path[0] {
        var box := Box(data, start, |data|);
        if |path| == 1 {
          ghost var rest := Scan(data, path, start, end);
          assert Scan(data, path, start, i) == [box] + rest;
          assert boxes + ([box] + rest) == (boxes + [box]) + rest;
          boxes := boxes + [box];
        } else {
          var subBoxes := FindIsoBmffBoxes(box.data, path[1..], end);
          ghost var rest := Scan(data, path, start, end);
          assert Scan(data, path, start, i) == subBoxes.value + rest;
          assert boxes + (subBoxes.value + rest) == (boxes + subBoxes.value) + rest;
          if |subBoxes.value| > 0 {
            boxes := boxes + subBoxes.value;
          } else {
            assert subBoxes.value + rest == rest;
          }
        }
      }
      i := end;
    }
    assert Scan(data, path, start, i) == [];
    assert boxes + [] == boxes;
    return Some(boxes);
  }

  /** MpegIsoBmffBox.fromPath: the first match, or nothing: null when the
      path is empty (the walk gave null), undefined when nothing matches
      (element 0 of an empty list). */
  method FromPath(data: seq<byte>, path: seq<string>) returns (r: Option<Box>)
    ensures |path| == 0 || Scan(data, path, 0, 0) == [] ==> r == None
    ensures |path| > 0 && Scan(data, path, 0, 0) != [] ==> r == Some(Scan(data, path, 0, 0)[0])
  {
    var boxes := FindIsoBmffBoxes(data, path, 0);
    if boxes.Some? && |boxes.value| > 0 {
      r := Some(boxes.value[0]);
    } else {
      r := None;
    }
  }

  /** The cursor positions the scan visits from `i`. */
  function RecordStarts(data: seq<byte>, i: nat): seq<nat>
    decreases |data| - i
  {
    if i >= |data| then [] else [i] + RecordStarts(data, RecordEnd(data, i))
  }

  /** The scan terminates by moving forward: it visits cursors in strictly
      increasing order, each inside the buffer, each the end of the record
      before it. */
  lemma {:induction false} CursorAdvances(data: seq<byte>, i: nat)
    ensures forall k :: 0 <= k < |RecordStarts(data, i)| ==> i <= RecordStarts(data, i)[k] < |data|
    ensures |RecordStarts(data, i)| > 0 ==> RecordStarts(data, i)[0] == i
    ensures forall k :: 0 <= k < |RecordStarts(data, i)| - 1 ==>
      RecordStarts(data, i)[k] < RecordStarts(data, i)[k + 1]
      && RecordStarts(data, i)[k + 1] == RecordEnd(data, RecordStarts(data, i)[k])
    decreases |data| - i
  {
    if i < |data| {
      CursorAdvances(data, RecordEnd(data, i));
    }
  }

  /** The cursors of the records whose type is `t`, in scan order. */
  function MatchingStarts(data: seq<byte>, t: string, i: nat): seq<nat>
    decreases |data| - i
  {
    if i >= |data| then []
    else (if RecordType(data, i) == t then [i] else []) + MatchingStarts(data, t, RecordEnd(data, i))
  }

  /** The matching cursors are exactly the visited cursors of type `t`. */
  lemma {:induction false} MatchingStartsAreMatches(data: seq<byte>, t: string, i: nat)
    ensures forall c :: c in MatchingStarts(data, t, i) <==> c in RecordStarts(data, i) && RecordType(data, c) == t
    decreases |data| - i
  {
    if i < |data| {
      MatchingStartsAreMatches(data, t, RecordEnd(data, i));
    }
  }

  /** With a one-element path the result holds one entry per record of that
      type, and every entry is the same view: the whole buffer from the
      caller's `start`, never the record's own bounds. */
  lemma {:induction false} SinglePathMatches(data: seq<byte>, t: string, start: nat, i: nat)
    ensures |Scan(data, [t], start, i)| == |MatchingStarts(data, t, i)|
    ensures forall b :: b in Scan(data, [t], start, i) ==> b == Box(data, start, |data|)
    decreases |data| - i
  {
    if i < |data| {
      SinglePathMatches(data, t, start, RecordEnd(data, i));
    }
  }

  /** Every box found carries the whole buffer and ends at its end. Those
      of a one-element path start at the caller's `start`; those of a longer
      path start where the deeper search resumed: at the end of a matched
      record, strictly after the cursor and inside the buffer. */
  lemma {:induction false} BoxesViewWholeBuffer(data: seq<byte>, path: seq<string>, start: nat, i: nat)
    requires |path| > 0
    ensures forall b :: b in Scan(data, path, start, i) ==>
      b.data == data && b.end == |data|
      && (|path| == 1 ==> b.start == start)
      && (|path| > 1 ==> i < b.start < |data|)
    decreases |path|, |data| - i
  {
    if i < |data| {
      var end := RecordEnd(data, i);
      BoxesViewWholeBuffer(data, path, start, end);
      if |path| > 1 {
        BoxesViewWholeBuffer(data, path[1..], end, end);
        if |path| > 2 {
          forall b | b in Scan(data, path[1..], end, end)
            ensures end <= b.start < |data|
          {
          }
        } else {
          forall b | b in Scan(data, path[1..], end, end)
            ensures end <= b.start < |data|
          {
            ScanEmptyPastEnd(data, path[1..], end);
          }
        }
      }
    }
  }

  /** A search started at or past the end of the buffer finds nothing. */
  lemma ScanEmptyPastEnd(data: seq<byte>, path: seq<string>, i: nat)
    requires |path| > 0
    ensures i >= |data| ==> Scan(data, path, i, i) == []
  {
  }
}
