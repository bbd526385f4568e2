/** AdaptiveMediaStreamConsumer: given a fetch target (a media time), it
    starts fetching the first segments of its rendition that are not loaded
    yet and end no later than the target, at most a fixed number per scan. */
module AdaptiveMediaClient {
  import opened Common
  import opened AdaptiveMediaModel

  /** The default number of fetches one scan may start. */
  const MaxConcurrentFetchInit: nat := 4

  /** Whether the end-time test lets a segment through: an unknown end time
      compares false against the target, so it is never excluded. */
  predicate EndsByTarget(segment: MediaSegment, target: real)
  {
    !(segment.locator.endTime.Some? && segment.locator.endTime.value > target)
  }

  /** A segment a scan would fetch if the limit were not reached yet. */
  predicate Eligible(segment: MediaSegment, target: real)
  {
    EndsByTarget(segment, target) && !segment.hasBuffer
  }

  /** The number of eligible segments among the first n. */
  function EligibleBefore(segments: seq<MediaSegment>, target: real, n: nat): (count: nat)
    requires n <= |segments|
    ensures count <= n
  {
    if n == 0 then 0
    else EligibleBefore(segments, target, n - 1) + (if Eligible(segments[n - 1], target) then 1 else 0)
  }

  /** Strictly increasing: the indices come in segment order, each once. */
  predicate Increasing(indices: seq<nat>)
  {
    forall i, j :: 0 <= i < j < |indices| ==> indices[i] < indices[j]
  }

  /** The indices a scan over the first n segments starts fetches for, in
      the order the scan meets them (characterised by SelectionIsFirstEligible). */
  function Selection(segments: seq<MediaSegment>, target: real, limit: nat, n: nat): (chosen: seq<nat>)
    requires n <= |segments|
    ensures |chosen| <= limit && |chosen| <= n
  {
    if n == 0 then []
    else
      var previous := Selection(segments, target, limit, n - 1);
      if |previous| < limit && Eligible(segments[n - 1], target) then previous + [n - 1] else previous
  }

  /** As many segments are chosen as are eligible, up to the limit. */
  lemma {:induction false} SelectionLength(segments: seq<MediaSegment>, target: real, limit: nat, n: nat)
    requires n <= |segments|
    ensures var count := EligibleBefore(segments, target, n);
      |Selection(segments, target, limit, n)| == if count < limit then count else limit
  {
    if n > 0 {
      SelectionLength(segments, target, limit, n - 1);
    }
  }

  /** The chosen indices are in segment order and within the scanned
      prefix. */
  lemma {:induction false} SelectionOrdered(segments: seq<MediaSegment>, target: real, limit: nat, n: nat)
    requires n <= |segments|
    ensures var chosen := Selection(segments, target, limit, n);
      Increasing(chosen) && forall k :: 0 <= k < |chosen| ==> chosen[k] < n
  {
    if n > 0 {
      SelectionOrdered(segments, target, limit, n - 1);
    }
  }

  /** An index is chosen exactly when its segment is eligible and fewer
      than `limit` eligible segments come before it. */
  lemma {:induction false} SelectionMembers(segments: seq<MediaSegment>, target: real, limit: nat, n: nat)
    requires n <= |segments|
    ensures forall i :: i in Selection(segments, target, limit, n) <==>
      (&& 0 <= i < n && Eligible(segments[i], target) && EligibleBefore(segments, target, i) < limit)
  {
    if n > 0 {
      SelectionMembers(segments, target, limit, n - 1);
      SelectionLength(segments, target, limit, n - 1);
    }
  }

  /** The scan starts fetches for the first eligible segments in segment
      order: an index is chosen exactly when its segment is eligible and
      fewer than `limit` eligible segments come before it, the chosen
      indices come in order, and as many are chosen as there are eligible
      segments, up to the limit. */
  lemma SelectionIsFirstEligible(segments: seq<MediaSegment>, target: real, limit: nat, n: nat)
    requires n <= |segments|
    ensures var chosen := Selection(segments, target, limit, n);
      && |chosen| == (if EligibleBefore(segments, target, n) < limit then EligibleBefore(segments, target, n) else limit)
      && Increasing(chosen)
      && (forall k :: 0 <= k < |chosen| ==> chosen[k] < n)
      && (forall i :: i in chosen <==> (&& 0 <= i < n && Eligible(segments[i], target)
                                         && EligibleBefore(segments, target, i) < limit))
  {
    SelectionLength(segments, target, limit, n);
    SelectionOrdered(segments, target, limit, n);
    SelectionMembers(segments, target, limit, n);
  }

  /** Every chosen segment is eligible and at most `limit` are chosen. */
  lemma {:induction false} SelectionSound(segments: seq<MediaSegment>, target: real, limit: nat)
    ensures var chosen := Selection(segments, target, limit, |segments|);
      |chosen| <= limit && forall k :: 0 <= k < |chosen| ==> chosen[k] < |segments| && Eligible(segments[chosen[k]], target)
  {
    var chosen := Selection(segments, target, limit, |segments|);
    SelectionIsFirstEligible(segments, target, limit, |segments|);
    forall k | 0 <= k < |chosen| ensures chosen[k] < |segments| && Eligible(segments[chosen[k]], target) {
      assert chosen[k] in chosen;
    }
  }

  /** A scan that starts fewer fetches than the limit has started one for
      every eligible segment. */
  lemma {:induction false} SelectionComplete(segments: seq<MediaSegment>, target: real, limit: nat, i: nat)
    requires i < |segments| && Eligible(segments[i], target)
    requires |Selection(segments, target, limit, |segments|)| < limit
    ensures i in Selection(segments, target, limit, |segments|)
  {
    SelectionIsFirstEligible(segments, target, limit, |segments|);
    EligibleBeforeMonotone(segments, target, i, |segments|);
  }

  /** Counting over a longer prefix never gives less. */
  lemma {:induction false} EligibleBeforeMonotone(segments: seq<MediaSegment>, target: real, m: nat, n: nat)
    requires m <= n <= |segments|
    ensures EligibleBefore(segments, target, m) <= EligibleBefore(segments, target, n)
    decreases n - m
  {
    if m < n {
      EligibleBeforeMonotone(segments, target, m, n - 1);
    }
  }

  /** One more segment extends the selection by its index exactly when it
      is eligible and the limit is not reached. */
  lemma SelectionStep(segments: seq<MediaSegment>, target: real, limit: nat, n: nat)
    requires n < |segments|
    ensures var previous := Selection(segments, target, limit, n);
      Selection(segments, target, limit, n + 1)
        == if |previous| < limit && Eligible(segments[n], target) then previous + [n] else previous
  {
  }

  class AdaptiveMediaStreamConsumer {
    var adaptiveMedia: AdaptiveMedia
    var fetchTarget: Option<real>
    var maxConcurrentFetchInit: nat

    /** A consumer of the rendition; the target is unset (undefined) and
        the limit is the default one. */
    constructor(adaptiveMedia: AdaptiveMedia)
      ensures this.adaptiveMedia == adaptiveMedia && fetchTarget == None
      ensures maxConcurrentFetchInit == MaxConcurrentFetchInit
    {
      this.adaptiveMedia := adaptiveMedia;
      fetchTarget := None;
      maxConcurrentFetchInit := MaxConcurrentFetchInit;
    }

    /** updateFetchTarget: stores the target and runs exactly one scan,
        returning the indices of the segments it started fetches for. The
        rendition is not touched, so a second call with the same target
        before any fetch completes starts the same fetches again. */
    method UpdateFetchTarget(seconds: real) returns (started: seq<nat>)
      modifies this
      ensures fetchTarget == Some(seconds)
      ensures adaptiveMedia == old(adaptiveMedia) && maxConcurrentFetchInit == old(maxConcurrentFetchInit)
      ensures started == Selection(adaptiveMedia.segments, seconds, maxConcurrentFetchInit, |adaptiveMedia.segments|)
    {
      fetchTarget := Some(seconds);
      started := Scan(adaptiveMedia.segments, seconds, maxConcurrentFetchInit);
    }
  }

  /** _onFetchTargetUpdated: one pass over the segments in order that
      counts the fetches it starts and skips every segment once the count
      reaches the limit. The fetches themselves are the returned indices. */
  method Scan(segments: seq<MediaSegment>, fetchTarget: real, maxConcurrentFetch: nat) returns (started: seq<nat>)
    ensures started == Selection(segments, fetchTarget, maxConcurrentFetch, |segments|)
    ensures |started| <= maxConcurrentFetch
  {
    started := [];
    var fetchInitCount := 0;
    var i := 0;
    while i < |segments|
      invariant 0 <= i <= |segments|
      invariant started == Selection(segments, fetchTarget, maxConcurrentFetch, i)
      invariant fetchInitCount == |started|
    {
      SelectionStep(segments, fetchTarget, maxConcurrentFetch, i);
      var segment := segments[i];
      if fetchInitCount >= maxConcurrentFetch {
      } else if segment.locator.endTime.Some? && segment.locator.endTime.value > fetchTarget {
      } else if !segment.hasBuffer {
        started := started + [i];
        fetchInitCount := fetchInitCount + 1;
      }
      i := i + 1;
    }
  }
}
