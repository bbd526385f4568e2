/** The `sidx` (segment index) decoder: the version byte, the timescale, the
    reference count and the 12-byte references of ISO/IEC 14496-12 section
    8.16.3, read at the fixed offsets the source uses. Those offsets count
    from the first byte of the whole input, because the box walker hands
    back a view of the whole buffer, not of the record. */
module DashSidx {
  import opened Common
  import opened BytesReadWrite
  import opened IsoBmffBox

  /** MpegDashSidxReference: the raw size and duration, and the derived
      duration in seconds and inclusive byte range. `duration` is missing
      when the timescale is 0 (a JavaScript division by zero). */
  datatype Reference = Reference(referenceSize: int, subsegmentDuration: int,
                                 duration: Option<real>, start: int, end: int)

  /** MpegDashSidx: the box it was parsed from and the decoded fields.
      `references` is missing where the source leaves it `undefined`. */
  datatype Sidx = Sidx(box: Box, earliestPresentationTime: int, timescale: int,
                       version: int, referencesCount: int,
                       references: Option<seq<Reference>>)

  /** What parseSidxData hands back: `null` when there is no `sidx`
      record, `undefined` on a hierarchical reference, a TypeError when a
      reference is pushed onto the never-initialised list, or the index. */
  datatype Outcome = NoSidx | Hierarchical | PushOnUndefined | Parsed(sidx: Sidx)

  const SIDX: string := ['s', 'i', 'd', 'x']

  /** Where the timescale sits: 8 for version 0, 16 otherwise. */
  function TimescaleOffset(version: int): (o: nat)
    ensures version == 0 ==> o == 8
    ensures version != 0 ==> o == 16
  {
    if version == 0 then 8 else 16
  }

  /** Where the reference count sits: after the timescale, the two time
      fields (4 bytes each for version 0, 8 otherwise) and 2 reserved bytes. */
  function CountOffset(version: int): (o: nat)
    ensures version == 0 ==> o == 22
    ensures version != 0 ==> o == 38
  {
    TimescaleOffset(version) + 4 + (if version == 0 then 8 else 16) + 2
  }

  /** Where reference `k` begins: 12 bytes per reference after the count. */
  function ReferenceOffset(version: int, k: nat): (o: nat)
    ensures o == CountOffset(version) + 2 + 12 * k
  {
    CountOffset(version) + 2 + 12 * k
  }

  /** `referenceInfo & 0x7FFFFFFF` for an unsigned 32-bit value: its low 31 bits. */
  function Low31(info: int): int { info % 0x8000_0000 }

  /** `(referenceInfo & 0x80000000) >>> 31` for an unsigned 32-bit value: its top bit. */
  function TopBit(info: int): int { info / 0x8000_0000 }

  /** The first word of reference `k`: type bit and size. */
  function ReferenceInfo(data: seq<byte>, version: int, k: nat): (info: int)
    ensures 0 <= info < MAX_UINT_32
  {
    ReadUint32(data, ReferenceOffset(version, k))
  }

  /** The second word of reference `k`: the unscaled duration. */
  function SubsegmentDuration(data: seq<byte>, version: int, k: nat): (d: int)
    ensures 0 <= d < MAX_UINT_32
  {
    ReadUint32(data, ReferenceOffset(version, k) + 4)
  }

  /** `subsegmentDuration / timescale`, missing when the timescale is 0. */
  function ScaledDuration(subsegmentDuration: int, timescale: int): (d: Option<real>)
    ensures timescale == 0 <==> d == None
    ensures timescale != 0 ==> d.value * timescale as real == subsegmentDuration as real
  {
    if timescale == 0 then None else Some(subsegmentDuration as real / timescale as real)
  }

  /** `ref` is reference `k` of the index, decoded from its fixed offset:
      the low 31 bits of its first word as size, its second word as the
      unscaled duration, the scaled duration beside it, and an inclusive
      byte range of `referenceSize` bytes. */
  predicate Decoded(data: seq<byte>, version: int, timescale: int, k: nat, ref: Reference)
  {
    && ref.referenceSize == Low31(ReferenceInfo(data, version, k))
    && ref.subsegmentDuration == SubsegmentDuration(data, version, k)
    && ref.duration == ScaledDuration(ref.subsegmentDuration, timescale)
    && ref.end == ref.start + ref.referenceSize - 1
  }

  /** Round trip of one reference: when the 8 bytes at reference `k`'s
      offset are a size below 2^31 and an unscaled duration, stored the way
      writeUint32 stores them, the reference is not hierarchical and decodes
      to exactly that size and duration (so by `Decoded` it spans `size`
      bytes and its scaled duration is `duration / timescale`). */
  lemma ReferenceRoundTrip(data: seq<byte>, version: int, k: nat, size: int, duration: int)
    requires ReferenceOffset(version, k) + 8 <= |data|
    requires 0 <= size < 0x8000_0000 && 0 <= duration < MAX_UINT_32
    requires forall j :: 0 <= j < 4 ==> data[ReferenceOffset(version, k) + j] == StoredByte(size, j)
    requires forall j :: 0 <= j < 4 ==> data[ReferenceOffset(version, k) + 4 + j] == StoredByte(duration, j)
    ensures TopBit(ReferenceInfo(data, version, k)) == 0
    ensures Low31(ReferenceInfo(data, version, k)) == size
    ensures SubsegmentDuration(data, version, k) == duration
  {
    var o := ReferenceOffset(version, k);
    StoredWord(data, o, size);
    StoredWord(data, o + 4, duration);
    assert TopBit(size) == 0 && Low31(size) == size;
  }

  /** A 32-bit word stored as writeUint32 stores it reads back unchanged. */
  lemma StoredWord(data: seq<byte>, offset: nat, value: int)
    requires offset + 4 <= |data| && 0 <= value < MAX_UINT_32
    requires forall j :: 0 <= j < 4 ==> data[offset + j] == StoredByte(value, j)
    ensures ReadUint32(data, offset) == value
  {
    ReadAfterWrite(data, offset, value);
    SmallUint32(value);
  }

  /** The byte ranges of `refs` follow each other without gap or overlap,
      the first one starting at `first`. */
  predicate Contiguous(refs: seq<Reference>, first: int)
  {
    && (|refs| > 0 ==> refs[0].start == first)
    && (forall k :: 0 < k < |refs| ==> refs[k].start == refs[k - 1].end + 1)
  }

  /** True when one of the first `n` references has its type bit set. */
  predicate HasHierarchical(data: seq<byte>, version: int, n: nat)
  {
    exists k :: 0 <= k < n && TopBit(ReferenceInfo(data, version, k)) == 1
  }

  lemma TopBitRange(info: int)
    requires 0 <= info < MAX_UINT_32
    ensures TopBit(info) == 0 || TopBit(info) == 1
    ensures 0 <= Low31(info) < 0x8000_0000
  {
  }

  /** The bytes the references cover together. */
  function TotalSize(refs: seq<Reference>): int
  {
    if refs == [] then 0 else TotalSize(refs[..|refs| - 1]) + refs[|refs| - 1].referenceSize
  }

  /** Contiguous references each spanning `referenceSize` bytes: reference
      `k` starts `first` plus the sizes of the ones before it. */
  lemma {:induction false} ContiguousStarts(refs: seq<Reference>, first: int)
    requires Contiguous(refs, first)
    requires forall k :: 0 <= k < |refs| ==> refs[k].end == refs[k].start + refs[k].referenceSize - 1
    ensures forall k :: 0 <= k < |refs| ==> refs[k].start == first + TotalSize(refs[..k])
  {
    if refs != [] {
      var n := |refs| - 1;
      var init := refs[..n];
      assert Contiguous(init, first) by {
        forall k | 0 < k < |init|
          ensures init[k].start == init[k - 1].end + 1
        {
          assert init[k] == refs[k] && init[k - 1] == refs[k - 1];
        }
      }
      ContiguousStarts(init, first);
      forall k | 0 <= k < |refs|
        ensures refs[k].start == first + TotalSize(refs[..k])
      {
        if k < n {
          assert refs[..k] == init[..k];
        } else if k > 0 {
          assert refs[..k][..k - 1] == init[..k - 1];
        }
      }
    }
  }

  /** Appending a range that starts right after the last one keeps the
      list contiguous. */
  lemma ContiguousAppend(refs: seq<Reference>, first: int, ref: Reference)
    requires Contiguous(refs, first)
    requires ref.start == if refs == [] then first else refs[|refs| - 1].end + 1
    ensures Contiguous(refs + [ref], first)
  {
    var all := refs + [ref];
    forall k | 0 < k < |all|
      ensures all[k].start == all[k - 1].end + 1
    {
      if k < |refs| {
        assert all[k] == refs[k] && all[k - 1] == refs[k - 1];
      }
    }
  }

  /** A reference without the type bit extends a hierarchical-free prefix. */
  lemma NoHierarchicalStep(data: seq<byte>, version: int, n: nat)
    requires !HasHierarchical(data, version, n)
    requires TopBit(ReferenceInfo(data, version, n)) != 1
    ensures !HasHierarchical(data, version, n + 1)
  {
  }

  /** The single `sidx` record the parser looks at: the first match of the
      walker, which spans the whole input. */
  method FindSidx(data: seq<byte>) returns (r: Option<Box>)
    ensures Scan(data, [SIDX], 0, 0) == [] <==> r == None
    ensures r.Some? ==> r.value == Box(data, 0, |data|) && |data| > 0
  {
    var sidxBoxes := FindIsoBmffBoxes(data, [SIDX], 0);
    if |sidxBoxes.value| == 0 {
      return None;
    }
    BoxesViewWholeBuffer(data, [SIDX], 0, 0);
    assert sidxBoxes.value[0] in Scan(data, [SIDX], 0, 0);
    return Some(sidxBoxes.value[0]);
  }

  /** parseSidxData as written: `references` is declared but never given a
      value, so the first push throws. It parses only an index with no
      references (and then leaves `references` undefined); any other input
      ends without a result. */
  method ParseSidxDataAsWritten(data: seq<byte>) returns (r: Outcome)
    ensures r == NoSidx <==> Scan(data, [SIDX], 0, 0) == []
    ensures r.Parsed? ==>
      (r.sidx.references == None
       && r.sidx.referencesCount == ReadUint16(data, CountOffset(ByteAt(data, 0))) == 0)
    ensures r == Hierarchical <==>
      (Scan(data, [SIDX], 0, 0) != [] && ReadUint16(data, CountOffset(ByteAt(data, 0))) > 0
       && TopBit(ReferenceInfo(data, ByteAt(data, 0), 0)) == 1)
    ensures r == PushOnUndefined <==>
      (Scan(data, [SIDX], 0, 0) != [] && ReadUint16(data, CountOffset(ByteAt(data, 0))) > 0
       && TopBit(ReferenceInfo(data, ByteAt(data, 0), 0)) != 1)
  {
    var references: Option<seq<Reference>> := None;
    var found := FindSidx(data);
    if found == None {
      return NoSidx;
    }
    var sidx := found.value;
    var version := ByteAt(sidx.data, 0);
    var index := if version == 0 then 8 else 16;
    var timescale := ReadUint32(sidx.data, index);
    index := index + 4;
    if version == 0 {
      index := index + 8;
    } else {
      index := index + 16;
    }
    index := index + 2;
    var startByte := sidx.end + 0;
    var referencesCount := ReadUint16(sidx.data, index);
    index := index + 2;
    // the loop never completes its first iteration
    if 0 < referencesCount {
      var referenceIndex := index;
      var referenceInfo := ReadUint32(sidx.data, referenceIndex);
      referenceIndex := referenceIndex + 4;
      var referenceSize := Low31(referenceInfo);
      var referenceType := TopBit(referenceInfo);
      if referenceType == 1 {
        return Hierarchical;
      }
      // pushing onto `undefined` throws a TypeError
      return PushOnUndefined;
    }
    return Parsed(Sidx(sidx, 0, timescale, version, referencesCount, references));
  }

  /** parseSidxData with `references` starting as an empty list: reference
      `k` is decoded from its fixed offset, the byte ranges follow each
      other from the end of the `sidx` view, and a hierarchical reference
      anywhere abandons the whole parse. */
  method ParseSidxData(data: seq<byte>) returns (r: Outcome)
    ensures r == NoSidx <==> Scan(data, [SIDX], 0, 0) == []
    ensures r != PushOnUndefined
    ensures r == Hierarchical <==>
      (Scan(data, [SIDX], 0, 0) != []
       && HasHierarchical(data, ByteAt(data, 0), ReadUint16(data, CountOffset(ByteAt(data, 0)))))
    ensures r.Parsed? ==>
      var s := r.sidx;
      var version := ByteAt(data, 0);
      && s.box == Box(data, 0, |data|)
      && s.version == version
      && s.earliestPresentationTime == 0
      && s.timescale == ReadUint32(data, TimescaleOffset(version))
      && s.referencesCount == ReadUint16(data, CountOffset(version))
      && s.references.Some?
      && |s.references.value| == s.referencesCount
      && (forall k :: 0 <= k < |s.references.value| ==>
            Decoded(data, version, s.timescale, k, s.references.value[k]))
      && Contiguous(s.references.value, |data|)
  {
    var found := FindSidx(data);
    if found == None {
      return NoSidx;
    }
    var sidx := found.value;
    var version := ByteAt(sidx.data, 0);
    var index := if version == 0 then 8 else 16;
    var timescale := ReadUint32(sidx.data, index);
    index := index + 4;
    if version == 0 {
      index := index + 8;
    } else {
      index := index + 16;
    }
    index := index + 2;
    var startByte := sidx.end + 0;
    var referencesCount := ReadUint16(sidx.data, index);
    index := index + 2;
    var references := DecodeReferences(sidx.data, version, timescale, referencesCount, index, startByte);
    if references == None {
      return Hierarchical;
    }
    return Parsed(Sidx(sidx, 0, timescale, version, referencesCount, references));
  }

  /** The reference loop of parseSidxData, with `references` starting as an
      empty list: `firstIndex` is the cursor of the first reference and
      `firstByte` the first byte the references cover. It gives up with
      nothing at the first reference whose type bit is set. */
  method DecodeReferences(data: seq<byte>, version: int, timescale: int, referencesCount: int,
                          firstIndex: int, firstByte: int) returns (r: Option<seq<Reference>>)
    requires firstIndex == ReferenceOffset(version, 0)
    ensures r == None <==> referencesCount >= 0 && HasHierarchical(data, version, referencesCount)
    ensures r.Some? ==> |r.value| == if referencesCount < 0 then 0 else referencesCount
    ensures r.Some? ==> forall k :: 0 <= k < |r.value| ==> Decoded(data, version, timescale, k, r.value[k])
    ensures r.Some? ==> Contiguous(r.value, firstByte)
  {
    var references: seq<Reference> := [];
    var index := firstIndex;
    var startByte := firstByte;
    var i := 0;
    while i < referencesCount
      invariant 0 <= i <= if referencesCount < 0 then 0 else referencesCount
      invariant |references| == i
      invariant index == ReferenceOffset(version, i)
      invariant !HasHierarchical(data, version, i)
      invariant forall k :: 0 <= k < i ==> Decoded(data, version, timescale, k, references[k])
      invariant Contiguous(references, firstByte)
      invariant startByte == if i == 0 then firstByte else references[i - 1].end + 1
    {
      var referenceIndex := index;
      // the word at `referenceIndex`, which is ReferenceOffset(version, i)
      var referenceInfo := ReferenceInfo(data, version, i);
      referenceIndex := referenceIndex + 4;
      var referenceSize := Low31(referenceInfo);
      var referenceType := TopBit(referenceInfo);
      if referenceType == 1 {
        return None;
      }
      NoHierarchicalStep(data, version, i);
      // the word at `referenceIndex`, four bytes further on
      var subsegmentDuration := SubsegmentDuration(data, version, i);
      referenceIndex := referenceIndex + 4;
      var ref := Reference(referenceSize, subsegmentDuration,
                           ScaledDuration(subsegmentDuration, timescale),
                           startByte, startByte + referenceSize - 1);
      ghost var before := references;
      references := references + [ref];
      assert Decoded(data, version, timescale, i, ref);
      forall k | 0 <= k < i + 1
        ensures Decoded(data, version, timescale, k, references[k])
      {
        if k < i {
          assert references[k] == before[k];
        }
      }
      ContiguousAppend(before, firstByte, ref);
      startByte := startByte + referenceSize;
      referenceIndex := referenceIndex + 4;
      index := referenceIndex;
      i := i + 1;
    }
    return Some(references);

  }
}
