/** The rendition model: media segments as records, AdaptiveMedia (one
    rendition and its segment list), AdaptiveMediaSet (an insertion-ordered
    set of renditions) and AdaptiveMediaPeriod (the sets of one period). */
module AdaptiveMediaModel {
  import opened Common

  /** A URI as the model sees it: a literal text, or the result of resolving
      a relative reference against an optional base. URL resolution is not
      modelled; a resolved URI is kept as the pair it came from. */
  datatype Uri = Text(text: string) | Resolved(relative: Uri, base: Option<Uri>)

  /** MediaLocator: where a segment is and which media time it spans; an
      unknown time (NaN or undefined) is missing. */
  datatype MediaLocator = MediaLocator(uri: Uri, startTime: Option<real>, endTime: Option<real>,
                                       byteRange: Option<(int, int)>)

  /** MediaSegment: its locator and whether its data is loaded. */
  datatype MediaSegment = MediaSegment(locator: MediaLocator, hasBuffer: bool)

  /** A segment-index provider: the media playlist it fetches and parses. */
  datatype Provider = FetchAndParse(playlistUri: Uri)

  /** The engine a rendition is activated through; what it does is outside
      the model. */
  datatype Engine = Engine(id: nat)

  /** What activate() hands back: false, or the engine's answer to
      activateMediaStream for this rendition. */
  datatype Activation = NotActivated | AskedEngine(engine: Engine)

  datatype VideoInfo = VideoInfo(width: int, height: int)

  /** AdaptiveMedia: one rendition. */
  class AdaptiveMedia {
    var segments: seq<MediaSegment>
    var mediaEngine: Option<Engine>
    var parent: Option<AdaptiveMediaSet>
    var bandwidth: Option<int>
    var codecs: Option<string>
    var videoInfo: Option<VideoInfo>
    var labelText: Option<string>
    var segmentIndexUri: Option<Uri>
    var segmentIndexRange: Option<(int, int)>
    var segmentIndexProvider: Option<Provider>

    /** A new rendition: no segments, no provider, the given engine. */
    constructor(mediaEngine: Option<Engine>)
      ensures this.mediaEngine == mediaEngine
      ensures segments == [] && segmentIndexProvider == None && parent == None
      ensures bandwidth == None && codecs == None && videoInfo == None && labelText == None
      ensures segmentIndexUri == None && segmentIndexRange == None
    {
      this.mediaEngine := mediaEngine;
      segments := [];
      parent := None;
      bandwidth := None;
      codecs := None;
      videoInfo := None;
      labelText := None;
      segmentIndexUri := None;
      segmentIndexRange := None;
      segmentIndexProvider := None;
    }

    /** getUrl: the segment index URI, or null when it is unset or empty. */
    function GetUrl(): (u: Option<Uri>)
      reads this
      ensures u.Some? <==> segmentIndexUri.Some? && segmentIndexUri.value != Text("")
      ensures u.Some? ==> u == segmentIndexUri
    {
      if segmentIndexUri == None || segmentIndexUri == Some(Text("")) then None else segmentIndexUri
    }

    /** refresh: rejects when no provider is set; otherwise waits for the
        provider, whose outcome is `delivered`: a rejection is passed on
        with the segments untouched, and delivered segments are appended
        after the existing ones before resolving to this rendition. No
        other property changes. */
    method Refresh(delivered: Result<seq<MediaSegment>, string>) returns (r: Result<AdaptiveMedia, string>)
      modifies this
      ensures segmentIndexProvider == None ==>
        r == Err("No segment index provider set") && segments == old(segments)
      ensures segmentIndexProvider != None && delivered.Err? ==>
        r == Err(delivered.error) && segments == old(segments)
      ensures segmentIndexProvider != None && delivered.Ok? ==>
        r == Ok(this) && segments == old(segments) + delivered.value
      ensures segmentIndexProvider == old(segmentIndexProvider) && parent == old(parent)
      ensures mediaEngine == old(mediaEngine) && segmentIndexUri == old(segmentIndexUri)
      ensures bandwidth == old(bandwidth) && codecs == old(codecs) && videoInfo == old(videoInfo)
      ensures labelText == old(labelText) && segmentIndexRange == old(segmentIndexRange)
    {
      if segmentIndexProvider == None {
        return Err("No segment index provider set");
      }
      match delivered {
        case Err(reason) =>
          return Err(reason);
        case Ok(newSegments) =>
          segments := segments + newSegments;
          return Ok(this);
      }
    }

    /** activate: false without an engine; otherwise the engine is asked. */
    function Activate(): (a: Activation)
      reads this
      ensures mediaEngine == None <==> a == NotActivated
      ensures mediaEngine.Some? ==> a == AskedEngine(mediaEngine.value)
    {
      match mediaEngine
      case None => NotActivated
      case Some(engine) => AskedEngine(engine)
    }
  }

  /** No element occurs twice. */
  predicate Distinct<T(==)>(s: seq<T>)
  {
    forall i, j :: 0 <= i < j < |s| ==> s[i] != s[j]
  }

  /** AdaptiveMediaSet: renditions in insertion order, each at most once,
      and the period it belongs to. */
  class AdaptiveMediaSet {
    var items: seq<AdaptiveMedia>
    var parent: Option<AdaptiveMediaPeriod>

    constructor()
      ensures items == [] && parent == None
    {
      items := [];
      parent := None;
    }

    /** Set.prototype.add: a new element goes at the end, a present one
        changes nothing. */
    method Add(media: AdaptiveMedia)
      modifies this
      ensures media in old(items) ==> items == old(items)
      ensures media !in old(items) ==> items == old(items) + [media]
      ensures Distinct(old(items)) ==> Distinct(items)
      ensures parent == old(parent)
    {
      if media !in items {
        items := items + [media];
      }
    }

    function Size(): (n: nat)
      reads this
      ensures n == |items|
    {
      |items|
    }
  }

  /** AdaptiveMediaPeriod: the sets of one period. */
  class AdaptiveMediaPeriod {
    var sets: seq<AdaptiveMediaSet>

    constructor()
      ensures sets == []
    {
      sets := [];
    }

    /** getDefaultMedia: the first rendition added to the first set. With no
        set at all the lookup of `sets[0]` fails; an empty first set throws. */
    function GetDefaultMedia(): (r: Result<AdaptiveMedia, string>)
      reads this, sets
      ensures sets == [] ==> r.Err?
      ensures sets != [] && sets[0].items == [] ==> r == Err("No default media found")
      ensures sets != [] && sets[0].items != [] ==> r == Ok(sets[0].items[0])
    {
      if sets == [] then Err("TypeError: sets[0] is undefined")
      else if sets[0].Size() == 0 then Err("No default media found")
      else Ok(sets[0].items[0])
    }

    /** getMediaListFromSet: the renditions of set `index` in insertion
        order; an index without a set fails. */
    function GetMediaListFromSet(index: int): (r: Result<seq<AdaptiveMedia>, string>)
      reads this, sets
      ensures r.Ok? <==> 0 <= index < |sets|
      ensures r.Ok? ==> r.value == sets[index].items
    {
      if 0 <= index < |sets| then Ok(sets[index].items) else Err("TypeError: set is undefined")
    }

    /** addSet: a set that already has a parent is refused and nothing
        changes; otherwise the set is given this period as parent and
        appended. A set is therefore added to at most one period, once. */
    method AddSet(mediaSet: AdaptiveMediaSet) returns (r: Result<(), string>)
      modifies this, mediaSet
      ensures old(mediaSet.parent).Some? ==>
        r == Err("Set already has a parent period") && sets == old(sets) && mediaSet.parent == old(mediaSet.parent)
      ensures old(mediaSet.parent) == None ==>
        r == Ok(()) && mediaSet.parent == Some(this) && sets == old(sets) + [mediaSet]
      ensures mediaSet.items == old(mediaSet.items)
    {
      if mediaSet.parent.Some? {
        return Err("Set already has a parent period");
      }
      mediaSet.parent := Some(this);
      sets := sets + [mediaSet];
      return Ok(());
    }
  }
}
