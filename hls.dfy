/** HLS playlists (RFC 8216): an M3U8 file is classified as a master or a
    media playlist from what the m3u8 parser found in it, and turned into
    one period holding one set of renditions. The parser itself is a
    parameter: a function from the playlist text to the manifest it finds. */
module HlsM3u8 {
  import opened Common
  import opened BytesReadWrite
  import opened AdaptiveMediaModel

  datatype FileType = Master | Media

  /** The error a media playlist's parse throws: the segment locators are
      built by `MediaLocator.fromRelativeURI`, which MediaLocator does not
      define. */
  const FromRelativeUriMissing := "TypeError: MediaLocator.fromRelativeURI is not a function"

  datatype Resolution = Resolution(width: int, height: int)

  /** The attributes of an EXT-X-STREAM-INF line the model uses. */
  datatype Attributes = Attributes(bandwidth: Option<int>, codecs: Option<string>,
                                   resolution: Option<Resolution>, name: Option<string>)

  /** One variant stream of a master playlist. */
  datatype Variant = Variant(attributes: Attributes, uri: string)

  /** One media segment of a media playlist (EXTINF duration and URI). */
  datatype SegmentEntry = SegmentEntry(uri: string, duration: real)

  /** What the parser hands back; either list may be absent. */
  datatype Manifest = Manifest(playlists: Option<seq<Variant>>, segments: Option<seq<SegmentEntry>>)

  /** The classification in parse: a non-empty list of variants makes a
      master playlist, otherwise a non-empty list of segments a media
      playlist, otherwise the type cannot be determined. */
  function Classify(m: Manifest): (t: Option<FileType>)
    ensures t == Some(Master) <==> m.playlists.Some? && |m.playlists.value| > 0
    ensures t == Some(Media) <==>
      (m.playlists == None || m.playlists.value == []) && m.segments.Some? && |m.segments.value| > 0
    ensures t == None <==>
      (m.playlists == None || m.playlists.value == []) && (m.segments == None || m.segments.value == [])
  {
    if m.playlists.Some? && |m.playlists.value| > 0 then Some(Master)
    else if m.segments.Some? && |m.segments.value| > 0 then Some(Media)
    else None
  }

  /** How many variants are processed before one without a RESOLUTION
      attribute stops the master processing; |vs| when all have one. */
  function FirstMissingResolution(vs: seq<Variant>): (k: nat)
    ensures k <= |vs|
    ensures forall j :: 0 <= j < k ==> vs[j].attributes.resolution.Some?
    ensures k < |vs| ==> vs[k].attributes.resolution == None
  {
    if vs == [] || vs[0].attributes.resolution == None then 0
    else 1 + FirstMissingResolution(vs[1..])
  }

  /** The segment durations of a media playlist. */
  function Durations(entries: seq<SegmentEntry>): (ds: seq<real>)
    ensures |ds| == |entries|
    ensures forall k :: 0 <= k < |entries| ==> ds[k] == entries[k].duration
  {
    seq(|entries|, k requires 0 <= k < |entries| => entries[k].duration)
  }

  /** Segment k of a media playlist: its URI against the playlist URL,
      starting where the durations before it end and lasting its own
      duration. */
  function SegmentAt(entries: seq<SegmentEntry>, playlistUrl: Uri, k: nat): MediaSegment
    requires k < |entries|
  {
    var ds := Durations(entries);
    MediaSegment(MediaLocator(Resolved(Text(entries[k].uri), Some(playlistUrl)),
                              Some(Sum(ds[..k])), Some(Sum(ds[..k + 1])), None),
                 false)
  }

  /** Adding one more duration to a prefix adds it to the sum. */
  lemma SumStep(ds: seq<real>, k: nat)
    requires k < |ds|
    ensures Sum(ds[..k + 1]) == Sum(ds[..k]) + ds[k]
  {
    assert ds[..k + 1][..k] == ds[..k];
  }

  /** Consecutive segments of a media playlist tile the timeline: the first
      starts at 0, each lasts its duration and ends where the next starts. */
  lemma SegmentsTile(entries: seq<SegmentEntry>, url: Uri, k: nat)
    requires k < |entries|
    ensures k == 0 ==> SegmentAt(entries, url, k).locator.startTime == Some(0.0)
    ensures SegmentAt(entries, url, k).locator.endTime.value
      == SegmentAt(entries, url, k).locator.startTime.value + entries[k].duration
    ensures k + 1 < |entries| ==>
      SegmentAt(entries, url, k).locator.endTime == SegmentAt(entries, url, k + 1).locator.startTime
  {
    SumStep(Durations(entries), k);
  }

  /** With non-negative durations the start times never decrease. */
  lemma {:induction false} StartTimesOrdered(ds: seq<real>, i: nat, j: nat)
    requires i <= j <= |ds|
    requires forall k :: 0 <= k < |ds| ==> ds[k] >= 0.0
    ensures Sum(ds[..i]) <= Sum(ds[..j])
    decreases j - i
  {
    if i < j {
      StartTimesOrdered(ds, i, j - 1);
      SumStep(ds, j - 1);
    }
  }

  /** The media playlist object a master playlist makes for a variant (and
      that a provider fetches): its URI is the variant file's URL, the
      variant's URI resolved against the master's URL, resolved once more
      against the master's URL. */
  function VariantPlaylistUri(v: Variant, masterUrl: Uri): Uri
  {
    Resolved(Resolved(Text(v.uri), Some(masterUrl)), Some(masterUrl))
  }

  /** The rendition a master playlist makes for a variant. */
  ghost predicate VariantMedia(m: AdaptiveMedia, v: Variant, masterUrl: Uri)
    reads m
  {
    && v.attributes.resolution.Some?
    && m.bandwidth == v.attributes.bandwidth
    && m.codecs == v.attributes.codecs
    && m.videoInfo == Some(VideoInfo(v.attributes.resolution.value.width, v.attributes.resolution.value.height))
    && m.labelText == v.attributes.name
    && m.segmentIndexUri == Some(Resolved(Text(v.uri), Some(masterUrl)))
    && m.segmentIndexRange == None
    && m.segmentIndexProvider == Some(FetchAndParse(VariantPlaylistUri(v, masterUrl)))
    && m.segments == []
    && m.mediaEngine == None
    && m.parent == None
  }

  /** An M3U8 file: a resource (URI, base URI, loaded bytes) and what parsing
      it produced. */
  class HlsM3u8File {
    var uri: Uri
    var baseUri: Option<Uri>
    var buffer: Option<seq<byte>>
    var parsed: bool
    var periods: seq<AdaptiveMediaPeriod>
    var fileType: Option<FileType>
    var adaptiveMediaSet: AdaptiveMediaSet
    var hlsMediaPlaylists: seq<HlsM3u8MediaPlaylist>
    var parserResult: Option<Manifest>

    /** A new file: one period whose only set is this file's (empty) set.
        The set is pushed into the period directly, so it gets no parent. */
    constructor(uri: Uri, fileType: Option<FileType>, baseUri: Option<Uri>)
      ensures this.uri == uri && this.baseUri == baseUri && this.fileType == fileType
      ensures buffer == None && !parsed && hlsMediaPlaylists == [] && parserResult == None
      ensures |periods| == 1 && fresh(periods[0]) && fresh(adaptiveMediaSet)
      ensures periods[0].sets == [adaptiveMediaSet]
      ensures adaptiveMediaSet.items == [] && adaptiveMediaSet.parent == None
    {
      this.uri := uri;
      this.baseUri := baseUri;
      this.fileType := fileType;
      buffer := None;
      parsed := false;
      hlsMediaPlaylists := [];
      parserResult := None;
      var period := new AdaptiveMediaPeriod();
      var mediaSet := new AdaptiveMediaSet();
      period.sets := period.sets + [mediaSet];
      periods := [period];
      adaptiveMediaSet := mediaSet;
    }

    /** getUrl of the resource: its URI against its base URI. */
    function GetUrl(): Uri
      reads this
    {
      Resolved(uri, baseUri)
    }

    /** The resource part of the file: URI, base URI and loaded bytes. */
    function Resource(): (Uri, Option<Uri>, Option<seq<byte>>)
      reads this
    {
      (uri, baseUri, buffer)
    }

    /** The parse state of the file other than the renditions: the flag, the
        periods, the type and the parser's manifest. */
    function Parsing(): (bool, seq<AdaptiveMediaPeriod>, Option<FileType>, Option<Manifest>)
      reads this
    {
      (parsed, periods, fileType, parserResult)
    }

    /** setBuffer: the loaded bytes. */
    method SetBuffer(bytes: seq<byte>)
      modifies this
      ensures buffer == Some(bytes)
      ensures uri == old(uri) && baseUri == old(baseUri) && parsed == old(parsed)
      ensures periods == old(periods) && fileType == old(fileType) && adaptiveMediaSet == old(adaptiveMediaSet)
      ensures hlsMediaPlaylists == old(hlsMediaPlaylists) && parserResult == old(parserResult)
    {
      buffer := Some(bytes);
    }

    /** parse. Without loaded bytes it throws. A parsed file hands back its
        periods again. Otherwise the bytes are read as text, the manifest
        the parser finds is kept and classified, and the renditions are
        added to this file's set; only a complete run marks the file as
        parsed. A media playlist always throws on its first segment (see
        ParseMediaAsWritten). */
    method Parse(parser: string -> Manifest) returns (r: Result<seq<AdaptiveMediaPeriod>, string>)
      modifies this, adaptiveMediaSet
      ensures uri == old(uri) && baseUri == old(baseUri) && buffer == old(buffer)
      ensures periods == old(periods) && adaptiveMediaSet == old(adaptiveMediaSet)
      ensures adaptiveMediaSet.parent == old(adaptiveMediaSet.parent)
      ensures old(buffer) == None ==>
        r == Err("No data to parse") && unchanged(this) && unchanged(adaptiveMediaSet)
      ensures old(buffer).Some? && old(parsed) ==>
        r == Ok(periods) && unchanged(this) && unchanged(adaptiveMediaSet)
      ensures old(buffer).Some? && !old(parsed) ==>
        parserResult == Some(parser(BytesToString(old(buffer).value)))
      ensures old(buffer).Some? && !old(parsed) && Classify(parserResult.value) == None ==>
        (&& r == Err("Could not determine type of HLS playlist") && !parsed && fileType == old(fileType)
         && adaptiveMediaSet.items == old(adaptiveMediaSet.items) && hlsMediaPlaylists == old(hlsMediaPlaylists))
      ensures old(buffer).Some? && !old(parsed) && Classify(parserResult.value) == Some(Master) ==>
        (var vs := parserResult.value.playlists.value;
         var k := FirstMissingResolution(vs);
         var n := |old(adaptiveMediaSet.items)|;
         && fileType == Some(Master)
         && (r.Ok? <==> k == |vs|)
         && (r.Ok? ==> parsed && r.value == periods)
         && (r.Err? ==> !parsed && r.error == "TypeError: RESOLUTION is undefined")
         && |adaptiveMediaSet.items| == n + k
         && adaptiveMediaSet.items[..n] == old(adaptiveMediaSet.items)
         && (forall m :: n <= m < n + k ==>
               fresh(adaptiveMediaSet.items[m]) && VariantMedia(adaptiveMediaSet.items[m], vs[m - n], GetUrl()))
         && |hlsMediaPlaylists| == |old(hlsMediaPlaylists)| + k)
      ensures old(buffer).Some? && !old(parsed) && Classify(parserResult.value) == Some(Master) ==>
        (var vs := parserResult.value.playlists.value;
         var p := |old(hlsMediaPlaylists)|;
         && hlsMediaPlaylists[..p] == old(hlsMediaPlaylists)
         && (forall m :: p <= m < |hlsMediaPlaylists| ==>
               fresh(hlsMediaPlaylists[m]) && hlsMediaPlaylists[m].uri == VariantPlaylistUri(vs[m - p], GetUrl())))
      ensures old(buffer).Some? && !old(parsed) && Classify(parserResult.value) == Some(Media) ==>
        (&& fileType == Some(Media) && !parsed && r == Err(FromRelativeUriMissing)
         && adaptiveMediaSet.items == old(adaptiveMediaSet.items) && hlsMediaPlaylists == old(hlsMediaPlaylists))
    {
      if buffer == None {
        return Err("No data to parse");
      }
      if parsed {
        return Ok(periods);
      }
      var text := BytesToString(buffer.value);
      var manifest := parser(text);
      // The processing reads the kept manifest; it is passed here as the
      // value that is kept, which nothing changes in between, so keeping
      // it after the processing has the same effect.
      r := ParseManifest(manifest);
      parserResult := Some(manifest);
    }

    /** The part of parse after the manifest is known: it is classified and
        processed as a master or a media playlist, or parse throws. */
    method ParseManifest(manifest: Manifest) returns (r: Result<seq<AdaptiveMediaPeriod>, string>)
      modifies this, adaptiveMediaSet
      ensures Resource() == old(Resource()) && periods == old(periods) && parserResult == old(parserResult)
      ensures adaptiveMediaSet == old(adaptiveMediaSet) && adaptiveMediaSet.parent == old(adaptiveMediaSet.parent)
      ensures Classify(manifest) == None ==>
        (&& r == Err("Could not determine type of HLS playlist") && parsed == old(parsed) && fileType == old(fileType)
         && adaptiveMediaSet.items == old(adaptiveMediaSet.items) && hlsMediaPlaylists == old(hlsMediaPlaylists))
      ensures Classify(manifest) == Some(Master) ==>
        (var vs := manifest.playlists.value;
         var k := FirstMissingResolution(vs);
         var n := |old(adaptiveMediaSet.items)|;
         && fileType == Some(Master)
         && (r.Ok? <==> k == |vs|)
         && (r.Ok? ==> parsed && r.value == periods)
         && (r.Err? ==> parsed == old(parsed) && r.error == "TypeError: RESOLUTION is undefined")
         && |adaptiveMediaSet.items| == n + k
         && adaptiveMediaSet.items[..n] == old(adaptiveMediaSet.items)
         && (forall m :: n <= m < n + k ==>
               fresh(adaptiveMediaSet.items[m]) && VariantMedia(adaptiveMediaSet.items[m], vs[m - n], GetUrl()))
         && |hlsMediaPlaylists| == |old(hlsMediaPlaylists)| + k)
      ensures Classify(manifest) == Some(Master) ==>
        (var vs := manifest.playlists.value;
         var p := |old(hlsMediaPlaylists)|;
         && hlsMediaPlaylists[..p] == old(hlsMediaPlaylists)
         && (forall m :: p <= m < |hlsMediaPlaylists| ==>
               fresh(hlsMediaPlaylists[m]) && hlsMediaPlaylists[m].uri == VariantPlaylistUri(vs[m - p], GetUrl())))
      ensures Classify(manifest) == Some(Media) ==>
        (&& fileType == Some(Media) && parsed == old(parsed) && r == Err(FromRelativeUriMissing)
         && adaptiveMediaSet.items == old(adaptiveMediaSet.items) && hlsMediaPlaylists == old(hlsMediaPlaylists))
    {
      match Classify(manifest) {
        case Some(Master) =>
          r := ParseMaster(manifest.playlists.value);
        case Some(Media) =>
          r := ParseMediaAsWritten(manifest.segments.value);
        case None =>
          r := Err("Could not determine type of HLS playlist");
      }
    }

    /** parse of a master playlist: the type is set, the variants are
        processed, and only a complete run marks the file as parsed. */
    method ParseMaster(vs: seq<Variant>) returns (r: Result<seq<AdaptiveMediaPeriod>, string>)
      modifies this, adaptiveMediaSet
      ensures Resource() == old(Resource()) && periods == old(periods) && parserResult == old(parserResult)
      ensures adaptiveMediaSet == old(adaptiveMediaSet) && adaptiveMediaSet.parent == old(adaptiveMediaSet.parent)
      ensures var k := FirstMissingResolution(vs);
        var n := |old(adaptiveMediaSet.items)|;
        && fileType == Some(Master)
        && (r.Ok? <==> k == |vs|)
        && (r.Ok? ==> parsed && r.value == periods)
        && (r.Err? ==> parsed == old(parsed) && r.error == "TypeError: RESOLUTION is undefined")
        && |adaptiveMediaSet.items| == n + k
        && adaptiveMediaSet.items[..n] == old(adaptiveMediaSet.items)
        && (forall m :: n <= m < n + k ==>
              fresh(adaptiveMediaSet.items[m]) && VariantMedia(adaptiveMediaSet.items[m], vs[m - n], GetUrl()))
        && |hlsMediaPlaylists| == |old(hlsMediaPlaylists)| + k
        && hlsMediaPlaylists[..|old(hlsMediaPlaylists)|] == old(hlsMediaPlaylists)
        && (forall m :: |old(hlsMediaPlaylists)| <= m < |hlsMediaPlaylists| ==>
              fresh(hlsMediaPlaylists[m])
              && hlsMediaPlaylists[m].uri == VariantPlaylistUri(vs[m - |old(hlsMediaPlaylists)|], GetUrl()))
    {
      fileType := Some(Master);
      var complete := ProcessMasterPlaylist(vs);
      if !complete {
        return Err("TypeError: RESOLUTION is undefined");
      }
      parsed := true;
      return Ok(periods);
    }

    /** parse of a media playlist as written: the type is set, and the
        first segment's locator is built by `MediaLocator.fromRelativeURI`,
        which MediaLocator does not define, so the call throws a TypeError
        before any segment is pushed or the rendition is added; the file
        stays unparsed. (The rendition and the media playlist object made
        before the loop are local and dropped.) */
    method ParseMediaAsWritten(entries: seq<SegmentEntry>) returns (r: Result<seq<AdaptiveMediaPeriod>, string>)
      requires |entries| > 0
      modifies this
      ensures r == Err(FromRelativeUriMissing) && fileType == Some(Media)
      ensures Resource() == old(Resource()) && periods == old(periods) && parserResult == old(parserResult)
      ensures parsed == old(parsed) && hlsMediaPlaylists == old(hlsMediaPlaylists)
      ensures adaptiveMediaSet == old(adaptiveMediaSet)
    {
      fileType := Some(Media);
      return Err(FromRelativeUriMissing);
    }

    /** parse of a media playlist with a locator resolver in place of the
        missing `fromRelativeURI`: the type is set, the one rendition is
        made, and the file is marked as parsed. */
    method ParseMedia(entries: seq<SegmentEntry>) returns (r: Result<seq<AdaptiveMediaPeriod>, string>)
      requires |entries| > 0
      modifies this, adaptiveMediaSet
      ensures Resource() == old(Resource()) && periods == old(periods) && parserResult == old(parserResult)
      ensures adaptiveMediaSet == old(adaptiveMediaSet) && adaptiveMediaSet.parent == old(adaptiveMediaSet.parent)
      ensures var n := |old(adaptiveMediaSet.items)|;
        && fileType == Some(Media) && parsed && r == Ok(periods)
        && |adaptiveMediaSet.items| == n + 1
        && adaptiveMediaSet.items[..n] == old(adaptiveMediaSet.items)
        && fresh(adaptiveMediaSet.items[n])
        && |adaptiveMediaSet.items[n].segments| == |entries|
        && (forall k :: 0 <= k < |entries| ==> adaptiveMediaSet.items[n].segments[k] == SegmentAt(entries, GetUrl(), k))
        && adaptiveMediaSet.items[n].segmentIndexProvider == Some(FetchAndParse(GetUrl()))
        && hlsMediaPlaylists == old(hlsMediaPlaylists)
    {
      fileType := Some(Media);
      ProcessMediaVariantPlaylist(entries);
      parsed := true;
      return Ok(periods);
    }

    /** The master processing: one rendition and one media playlist object
        per variant, in order, until a variant without RESOLUTION throws;
        what was added before it stays. */
    method ProcessMasterPlaylist(vs: seq<Variant>) returns (complete: bool)
      modifies this, adaptiveMediaSet
      ensures var k := FirstMissingResolution(vs);
        var n := |old(adaptiveMediaSet.items)|;
        && (complete <==> k == |vs|)
        && |adaptiveMediaSet.items| == n + k
        && adaptiveMediaSet.items[..n] == old(adaptiveMediaSet.items)
        && (forall m :: n <= m < n + k ==>
              fresh(adaptiveMediaSet.items[m]) && VariantMedia(adaptiveMediaSet.items[m], vs[m - n], GetUrl()))
        && |hlsMediaPlaylists| == |old(hlsMediaPlaylists)| + k
        && hlsMediaPlaylists[..|old(hlsMediaPlaylists)|] == old(hlsMediaPlaylists)
        && (forall m :: |old(hlsMediaPlaylists)| <= m < |hlsMediaPlaylists| ==>
              fresh(hlsMediaPlaylists[m])
              && hlsMediaPlaylists[m].uri == VariantPlaylistUri(vs[m - |old(hlsMediaPlaylists)|], GetUrl()))
      ensures Resource() == old(Resource()) && Parsing() == old(Parsing())
      ensures adaptiveMediaSet == old(adaptiveMediaSet) && adaptiveMediaSet.parent == old(adaptiveMediaSet.parent)
    {
      var masterUrl := GetUrl();
      var n := |adaptiveMediaSet.items|;
      var p := |hlsMediaPlaylists|;
      var i := 0;
      while i < |vs|
        invariant 0 <= i <= FirstMissingResolution(vs)
        invariant Resource() == old(Resource()) && Parsing() == old(Parsing())
        invariant adaptiveMediaSet == old(adaptiveMediaSet) && adaptiveMediaSet.parent == old(adaptiveMediaSet.parent)
        invariant masterUrl == GetUrl()
        invariant |adaptiveMediaSet.items| == n + i
        invariant adaptiveMediaSet.items[..n] == old(adaptiveMediaSet.items)
        invariant forall m :: n <= m < n + i ==>
          fresh(adaptiveMediaSet.items[m]) && VariantMedia(adaptiveMediaSet.items[m], vs[m - n], masterUrl)
        invariant |hlsMediaPlaylists| == p + i
        invariant hlsMediaPlaylists[..p] == old(hlsMediaPlaylists)
        invariant forall m :: p <= m < p + i ==>
          fresh(hlsMediaPlaylists[m]) && hlsMediaPlaylists[m].uri == VariantPlaylistUri(vs[m - p], masterUrl)
      {
        if vs[i].attributes.resolution == None {
          assert i == FirstMissingResolution(vs);
          return false;
        }
        ghost var before := adaptiveMediaSet.items;
        ghost var playlistsBefore := hlsMediaPlaylists;
        var media := AddVariant(vs[i], masterUrl);
        assert hlsMediaPlaylists[..p] == playlistsBefore[..p];
        i := i + 1;
      }
      return true;
    }

    /** One variant of a master playlist: a rendition carrying its
        attributes and URI, added to the set, and a media playlist object
        for its file, which the rendition's provider fetches. */
    method AddVariant(v: Variant, masterUrl: Uri) returns (media: AdaptiveMedia)
      requires v.attributes.resolution.Some?
      modifies this, adaptiveMediaSet
      ensures fresh(media) && VariantMedia(media, v, masterUrl)
      ensures adaptiveMediaSet.items == old(adaptiveMediaSet.items) + [media]
      ensures |hlsMediaPlaylists| == |old(hlsMediaPlaylists)| + 1
      ensures hlsMediaPlaylists[..|old(hlsMediaPlaylists)|] == old(hlsMediaPlaylists)
      ensures fresh(hlsMediaPlaylists[|old(hlsMediaPlaylists)|])
      ensures hlsMediaPlaylists[|old(hlsMediaPlaylists)|].uri == VariantPlaylistUri(v, masterUrl)
      ensures Resource() == old(Resource()) && Parsing() == old(Parsing())
      ensures adaptiveMediaSet == old(adaptiveMediaSet) && adaptiveMediaSet.parent == old(adaptiveMediaSet.parent)
    {
      media := NewVariantMedia(v, masterUrl);
      adaptiveMediaSet.Add(media);
      var playlist := NewVariantPlaylist(v, masterUrl);
      hlsMediaPlaylists := hlsMediaPlaylists + [playlist];
      media.segmentIndexProvider := Some(FetchAndParse(playlist.uri));
    }

    /** The media processing, with a locator resolver in place of the
        missing `fromRelativeURI`: one rendition whose segments follow the
        playlist, each starting where the previous one ends, the first at 0. */
    method ProcessMediaVariantPlaylist(entries: seq<SegmentEntry>)
      requires |entries| > 0
      modifies this, adaptiveMediaSet
      ensures var n := |old(adaptiveMediaSet.items)|;
        && |adaptiveMediaSet.items| == n + 1
        && adaptiveMediaSet.items[..n] == old(adaptiveMediaSet.items)
        && fresh(adaptiveMediaSet.items[n])
        && |adaptiveMediaSet.items[n].segments| == |entries|
        && (forall k :: 0 <= k < |entries| ==> adaptiveMediaSet.items[n].segments[k] == SegmentAt(entries, GetUrl(), k))
        && adaptiveMediaSet.items[n].segmentIndexProvider == Some(FetchAndParse(GetUrl()))
      ensures Resource() == old(Resource()) && Parsing() == old(Parsing())
      ensures hlsMediaPlaylists == old(hlsMediaPlaylists)
      ensures adaptiveMediaSet == old(adaptiveMediaSet) && adaptiveMediaSet.parent == old(adaptiveMediaSet.parent)
    {
      var media := new AdaptiveMedia(None);
      // This file is not parsed yet, so the media playlist check passes.
      var playlist := new HlsM3u8MediaPlaylist(this);
      var url := GetUrl();
      ghost var ds := Durations(entries);
      var startTime := 0.0;
      var i := 0;
      while i < |entries|
        invariant 0 <= i <= |entries|
        modifies media
        invariant startTime == Sum(ds[..i])
        invariant |media.segments| == i
        invariant forall k :: 0 <= k < i ==> media.segments[k] == SegmentAt(entries, url, k)
        invariant i > 0 ==> media.segmentIndexProvider == Some(FetchAndParse(url))
      {
        var endTime := startTime + entries[i].duration;
        SumStep(ds, i);
        var segment := MediaSegment(MediaLocator(Resolved(Text(entries[i].uri), Some(url)),
                                                 Some(startTime), Some(endTime), None), false);
        media.segments := media.segments + [segment];
        media.segmentIndexProvider := Some(FetchAndParse(playlist.uri));
        startTime := endTime;
        i := i + 1;
      }
      assert media !in adaptiveMediaSet.items;
      adaptiveMediaSet.Add(media);
    }
  }

  /** The rendition of a variant before its provider is set: its
      attributes, its resolution as video info and its URI against the
      master playlist's URL. */
  method NewVariantMedia(v: Variant, masterUrl: Uri) returns (media: AdaptiveMedia)
    requires v.attributes.resolution.Some?
    ensures fresh(media)
    ensures && media.bandwidth == v.attributes.bandwidth && media.codecs == v.attributes.codecs
            && media.videoInfo == Some(VideoInfo(v.attributes.resolution.value.width, v.attributes.resolution.value.height))
            && media.labelText == v.attributes.name
            && media.segmentIndexUri == Some(Resolved(Text(v.uri), Some(masterUrl)))
            && media.segmentIndexRange == None && media.segmentIndexProvider == None
            && media.segments == [] && media.mediaEngine == None && media.parent == None
  {
    var resolution := v.attributes.resolution.value;
    media := new AdaptiveMedia(None);
    media.bandwidth := v.attributes.bandwidth;
    media.codecs := v.attributes.codecs;
    media.videoInfo := Some(VideoInfo(resolution.width, resolution.height));
    media.labelText := v.attributes.name;
    media.segmentIndexUri := Some(Resolved(Text(v.uri), Some(masterUrl)));
    media.segmentIndexRange := None;
  }

  /** The media playlist object of a variant: a new, unparsed media
      playlist file at the variant's URI, so the type check passes. */
  method NewVariantPlaylist(v: Variant, masterUrl: Uri) returns (playlist: HlsM3u8MediaPlaylist)
    ensures fresh(playlist) && playlist.uri == VariantPlaylistUri(v, masterUrl)
  {
    var file := new HlsM3u8File(Resolved(Text(v.uri), Some(masterUrl)), Some(Media), Some(masterUrl));
    playlist := new HlsM3u8MediaPlaylist(file);
  }

  /** A media playlist resource wrapping an M3U8 file; its URI is the file's
      URL. */
  class HlsM3u8MediaPlaylist {
    var file: HlsM3u8File
    var uri: Uri

    constructor(file: HlsM3u8File)
      ensures this.file == file && uri == file.GetUrl()
    {
      this.file := file;
      uri := file.GetUrl();
    }
  }

  /** The HlsM3u8MediaPlaylist constructor: a file that has been parsed
      must be a media playlist, otherwise it throws. */
  method NewMediaPlaylist(file: HlsM3u8File) returns (r: Result<HlsM3u8MediaPlaylist, string>)
    ensures r.Err? <==> file.parsed && file.fileType != Some(Media)
    ensures r.Err? ==> r.error == "File is not a media playlist"
    ensures r.Ok? ==> fresh(r.value) && r.value.file == file && r.value.uri == file.GetUrl()
  {
    if file.parsed && file.fileType != Some(Media) {
      return Err("File is not a media playlist");
    }
    var playlist := new HlsM3u8MediaPlaylist(file);
    return Ok(playlist);
  }
}
