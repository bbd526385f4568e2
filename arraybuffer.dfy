/** Bounded copies between byte buffers. The destination is an array written
    in place; a source is read as a value, so a copy behaves as if the
    source bytes were taken before any are written, which is what
    `Uint8Array.prototype.set` guarantees. */
module ArrayBufferUtils {
  import opened Common

  /** Why a copy throws: one of the two size checks, or a negative offset or
      length refused when the typed-array views are made. */
  datatype CopyError = SourceTooSmall | DestinationTooSmall | RangeError

  /** The size checks of copyArrayBuffer as written: a copy that ends at or
      after the last byte of either buffer is refused. */
  predicate SourceTooSmallAsWritten(srcLength: int, length: int, srcOffset: int)
  {
    srcOffset + length >= srcLength
  }

  predicate DestinationTooSmallAsWritten(destLength: int, length: int, destOffset: int)
  {
    destOffset + length >= destLength
  }

  /** The size checks as intended: only a copy that runs past the end of a
      buffer is refused. */
  predicate SourceTooSmallIntended(srcLength: int, length: int, srcOffset: int)
  {
    srcOffset + length > srcLength
  }

  predicate DestinationTooSmallIntended(destLength: int, length: int, destOffset: int)
  {
    destOffset + length > destLength
  }

  /** The new contents of `before` with `src[srcOffset..srcOffset + length]`
      placed at `destOffset`. */
  function Placed(before: seq<byte>, src: seq<byte>, length: nat, srcOffset: nat, destOffset: nat): (r: seq<byte>)
    requires srcOffset + length <= |src| && destOffset + length <= |before|
    ensures |r| == |before|
    ensures forall k :: 0 <= k < |r| ==>
      r[k] == if destOffset <= k < destOffset + length then src[srcOffset + k - destOffset] else before[k]
  {
    before[..destOffset] + src[srcOffset..srcOffset + length] + before[destOffset + length..]
  }

  /** The copy itself: `destView.set(srcView, destOffset)`, one byte at a time. */
  method Place(src: seq<byte>, dest: array<byte>, length: nat, srcOffset: nat, destOffset: nat)
    requires srcOffset + length <= |src| && destOffset + length <= dest.Length
    modifies dest
    ensures dest[..] == Placed(old(dest[..]), src, length, srcOffset, destOffset)
  {
    var k := 0;
    while k < length
      invariant 0 <= k <= length
      invariant forall j :: 0 <= j < dest.Length ==>
        dest[j] == if destOffset <= j < destOffset + k then src[srcOffset + j - destOffset] else old(dest[j])
    {
      dest[destOffset + k] := src[srcOffset + k];
      k := k + 1;
    }
  }

  /** copyArrayBuffer as written. An omitted `length` is the whole source.
      It throws when the copy would end at or past the last byte of the
      source or of the destination, and when an offset or the length is
      negative; otherwise it copies and hands back `dest`. */
  method CopyArrayBuffer(src: seq<byte>, dest: array<byte>, length: Option<int>, srcOffset: int, destOffset: int)
    returns (r: Result<array<byte>, CopyError>)
    modifies dest
    ensures var n := if length.Some? then length.value else |src|;
      && (SourceTooSmallAsWritten(|src|, n, srcOffset) ==> r == Err(SourceTooSmall))
      && (!SourceTooSmallAsWritten(|src|, n, srcOffset) && DestinationTooSmallAsWritten(dest.Length, n, destOffset)
          ==> r == Err(DestinationTooSmall))
      && (!SourceTooSmallAsWritten(|src|, n, srcOffset) && !DestinationTooSmallAsWritten(dest.Length, n, destOffset)
          ==> (r.Ok? <==> 0 <= srcOffset && 0 <= n && 0 <= destOffset))
      && (r.Err? ==> dest[..] == old(dest[..]))
      && (r.Ok? ==> r.value == dest && dest[..] == Placed(old(dest[..]), src, n, srcOffset, destOffset))
  {
    var n := if length.Some? then length.value else |src|;
    if SourceTooSmallAsWritten(|src|, n, srcOffset) {
      return Err(SourceTooSmall);
    }
    if DestinationTooSmallAsWritten(dest.Length, n, destOffset) {
      return Err(DestinationTooSmall);
    }
    if srcOffset < 0 || n < 0 || destOffset < 0 {
      return Err(RangeError);
    }
    Place(src, dest, n, srcOffset, destOffset);
    return Ok(dest);
  }

  /** As written, the default copy of a whole source is always refused:
      it ends exactly at the source's last byte. */
  lemma WholeCopyRefused(srcLength: nat)
    ensures SourceTooSmallAsWritten(srcLength, srcLength, 0)
  {
  }

  /** copyArrayBuffer with the intended `>` checks. */
  method CopyArrayBufferIntended(src: seq<byte>, dest: array<byte>, length: Option<int>, srcOffset: int, destOffset: int)
    returns (r: Result<array<byte>, CopyError>)
    modifies dest
    ensures var n := if length.Some? then length.value else |src|;
      && (SourceTooSmallIntended(|src|, n, srcOffset) ==> r == Err(SourceTooSmall))
      && (!SourceTooSmallIntended(|src|, n, srcOffset) && DestinationTooSmallIntended(dest.Length, n, destOffset)
          ==> r == Err(DestinationTooSmall))
      && (!SourceTooSmallIntended(|src|, n, srcOffset) && !DestinationTooSmallIntended(dest.Length, n, destOffset)
          ==> (r.Ok? <==> 0 <= srcOffset && 0 <= n && 0 <= destOffset))
      && (r.Err? ==> dest[..] == old(dest[..]))
      && (r.Ok? ==> r.value == dest && dest[..] == Placed(old(dest[..]), src, n, srcOffset, destOffset))
  {
    var n := if length.Some? then length.value else |src|;
    if SourceTooSmallIntended(|src|, n, srcOffset) {
      return Err(SourceTooSmall);
    }
    if DestinationTooSmallIntended(dest.Length, n, destOffset) {
      return Err(DestinationTooSmall);
    }
    if srcOffset < 0 || n < 0 || destOffset < 0 {
      return Err(RangeError);
    }
    Place(src, dest, n, srcOffset, destOffset);
    return Ok(dest);
  }

  /** With the intended checks a copy is accepted exactly when it stays
      inside both buffers. */
  lemma IntendedChecksAcceptInBounds(srcLength: nat, destLength: nat, length: nat, srcOffset: nat, destOffset: nat)
    ensures !SourceTooSmallIntended(srcLength, length, srcOffset) && !DestinationTooSmallIntended(destLength, length, destOffset)
      <==> srcOffset + length <= srcLength && destOffset + length <= destLength
    ensures SourceTooSmallAsWritten(srcLength, length, srcOffset) && !SourceTooSmallIntended(srcLength, length, srcOffset)
      <==> srcOffset + length == srcLength
  {
  }

  /** The destination offset copyArrayBuffers uses for source `i` as
      written: 0 for the first, the previous source's length after that. */
  function OffsetAsWritten(srcs: seq<seq<byte>>, i: nat): nat
    requires i < |srcs|
  {
    if i == 0 then 0 else |srcs[i - 1]|
  }

  /** The sources laid end to end. */
  function Concat(srcs: seq<seq<byte>>): (r: seq<byte>)
  {
    if srcs == [] then [] else Concat(srcs[..|srcs| - 1]) + srcs[|srcs| - 1]
  }

  /** The offsets written do not follow the sources: with three one-byte
      sources the third lands on the second, where concatenation puts it
      one byte further. */
  lemma OffsetAsWrittenOverlaps(a: byte, b: byte, c: byte)
    ensures var srcs := [[a], [b], [c]];
      OffsetAsWritten(srcs, 2) == 1 && |Concat(srcs[..2])| == 2
  {
    var srcs: seq<seq<byte>> := [[a], [b], [c]];
    var none: seq<seq<byte>> := [];
    assert srcs[..2][..1] == [[a]];
    assert [[a]][..0] == none;
    assert Concat([[a]]) == [a];
    assert Concat(srcs[..2]) == [a] + [b];
  }

  /** copyArrayBuffers as written: each source is copied whole, so the
      first copy is already refused by the source check, which ends the
      loop with nothing written; only an empty list of sources succeeds. */
  method CopyArrayBuffersAsWritten(srcs: seq<seq<byte>>, dest: array<byte>) returns (r: Result<array<byte>, CopyError>)
    modifies dest
    ensures r.Ok? <==> srcs == []
    ensures r.Ok? ==> r.value == dest
    ensures r.Err? ==> r.error == SourceTooSmall
    ensures dest[..] == old(dest[..])
  {
    var i := 0;
    var failure: Option<CopyError> := None;
    while i < |srcs| && failure == None
      invariant 0 <= i <= |srcs|
      invariant failure == None <==> i == 0
      invariant failure != None ==> failure == Some(SourceTooSmall)
      invariant dest[..] == old(dest[..])
    {
      var copied := CopyArrayBuffer(srcs[i], dest, Some(|srcs[i]|), 0, OffsetAsWritten(srcs, i));
      if copied.Err? {
        failure := Some(copied.error);
      }
      i := i + 1;
    }
    if failure.Some? {
      return Err(failure.value);
    }
    return Ok(dest);
  }

  lemma ConcatGrows(srcs: seq<seq<byte>>, i: nat)
    requires i <= |srcs|
    ensures |Concat(srcs[..i])| <= |Concat(srcs)|
    decreases |srcs|
  {
    if i < |srcs| {
      assert srcs[..|srcs| - 1][..i] == srcs[..i];
      ConcatGrows(srcs[..|srcs| - 1], i);
      assert Concat(srcs) == Concat(srcs[..|srcs| - 1]) + srcs[|srcs| - 1];
    } else {
      assert srcs[..i] == srcs;
    }
  }

  lemma ConcatStep(srcs: seq<seq<byte>>, i: nat)
    requires i < |srcs|
    ensures Concat(srcs[..i + 1]) == Concat(srcs[..i]) + srcs[i]
  {
    assert srcs[..i + 1][..i] == srcs[..i];
  }

  /** Source j is the first whose bytes no longer fit in `capacity`: the
      sources before it fit, and it does not. */
  predicate StopsAt(srcs: seq<seq<byte>>, capacity: int, j: int)
  {
    0 <= j < |srcs| && |Concat(srcs[..j])| <= capacity < |Concat(srcs[..j + 1])|
  }

  /** Copying a whole source right after a prefix replaces the bytes that
      follow the prefix. */
  lemma PlacedAfterPrefix(prefix: seq<byte>, src: seq<byte>, rest: seq<byte>)
    requires |src| <= |rest|
    ensures Placed(prefix + rest, src, |src|, 0, |prefix|) == prefix + src + rest[|src|..]
  {
    var before := prefix + rest;
    assert before[..|prefix|] == prefix;
    assert src[0..|src|] == src;
    assert before[|prefix| + |src|..] == rest[|src|..];
  }

  /** copyArrayBuffers as intended: each source is copied at the running
      total of the lengths before it, with the intended checks. It
      succeeds exactly when the concatenation fits, and then the
      destination starts with the concatenation and keeps its other bytes. */
  method CopyArrayBuffersIntended(srcs: seq<seq<byte>>, dest: array<byte>) returns (r: Result<array<byte>, CopyError>)
    modifies dest
    ensures r.Ok? <==> |Concat(srcs)| <= dest.Length
    ensures r.Ok? ==> (r.value == dest && dest[..] == Concat(srcs) + old(dest[..])[|Concat(srcs)|..])
    ensures r.Err? ==> r.error == DestinationTooSmall
    ensures r.Err? ==> exists j :: StopsAt(srcs, dest.Length, j) &&
                                  dest[..] == Concat(srcs[..j]) + old(dest[..])[|Concat(srcs[..j])|..]
  {
    var i := 0;
    var offset := 0;
    while i < |srcs|
      invariant 0 <= i <= |srcs|
      invariant offset == |Concat(srcs[..i])| <= dest.Length
      invariant dest[..] == Concat(srcs[..i]) + old(dest[..])[offset..]
    {
      ConcatStep(srcs, i);
      var copied := CopyArrayBufferIntended(srcs[i], dest, Some(|srcs[i]|), 0, offset);
      if copied.Err? {
        ConcatGrows(srcs, i + 1);
        assert StopsAt(srcs, dest.Length, i);
        return Err(copied.error);
      }
      ghost var rest := old(dest[..])[offset..];
      PlacedAfterPrefix(Concat(srcs[..i]), srcs[i], rest);
      assert rest[|srcs[i]|..] == old(dest[..])[offset + |srcs[i]|..];
      offset := offset + |srcs[i]|;
      i := i + 1;
    }
    assert srcs[..i] == srcs;
    return Ok(dest);
  }
}
