/** Metadata records of bot/providers/apple/metadata.py: the choice of extraction strategy by file
    extension, the three record builders with their defaults, the cover-art rule and the fallback
    record used when extraction raises.

    A tag handle (what `MP4(path)` or `File(path)` yields) is a map from tag names to value lists,
    the playing time already truncated to an integer, and the number of embedded pictures when the
    handle has a `pictures` attribute. Whether the cover file can be written is an input. */
module AppleMetadata {
  import opened Wrappers
  import opened PyText

  /** A tag value: text, a number, or a pair such as the track number `(n, total)`. */
  datatype Value = Text(s: string) | Number(n: int) | Pair(a: int, b: int)

  datatype Handle = Handle(tags: map<string, seq<Value>>, length: int, pictures: Option<nat>)

  datatype Extra =
    | AudioTags(tracknumber: Value, genre: Value, date: Value, isrc: Value, explicit: string)
    | VideoTags(width: Value, height: Value, resolution: string)

  /** The metadata dict: the keys every strategy fills, then the audio or the video keys. */
  datatype Metadata = Metadata(title: Value, artist: Value, album: Value, duration: int,
                               cover: Option<string>, thumbnail: Option<string>, extra: Extra)

  /** `handle.get(key, [default])[0]`; `None` when the tag's list is empty (an `IndexError`). */
  function First(h: Handle, key: string, default: Value): (r: Option<Value>)
    ensures key !in h.tags ==> r == Some(default)
    ensures key in h.tags ==> (r.Some? <==> h.tags[key] != []) && (r.Some? ==> r.value == h.tags[key][0])
  {
    if key !in h.tags then Some(default)
    else if h.tags[key] == [] then None
    else Some(h.tags[key][0])
  }

  /** `v[0]` on a tag value: the first number of a pair, the first character of a text; a number
      cannot be indexed. */
  function Index0(v: Value): Option<Value> {
    match v
    case Pair(a, _) => Some(Number(a))
    case Text(s) => if s == [] then None else Some(Text([s[0]]))
    case Number(_) => None
  }

  /** `str(v)` */
  function Str(v: Value): string {
    match v
    case Text(s) => s
    case Number(n) => IntToString(n)
    case Pair(a, b) => "(" + IntToString(a) + ", " + IntToString(b) + ")"
  }

  // ---------------------------------------------------------------------------------------------
  // _extract_cover_art

  /** Where the cover is written: the media path with its extension replaced by ".jpg". */
  function CoverPath(path: string): string {
    SplitextRoot(path) + ".jpg"
  }

  /** `_extract_cover_art(handle, path)`: the embedded pictures first, else the 'covr' atom, else
      nothing; a failure (an empty 'covr' list, a file that cannot be written) gives `None`. */
  function CoverArt(h: Handle, path: string, writable: bool): Option<string> {
    if h.pictures.Some? && h.pictures.value > 0 then
      (if writable then Some(CoverPath(path)) else None)
    else if "covr" in h.tags then
      (if h.tags["covr"] != [] && writable then Some(CoverPath(path)) else None)
    else None
  }

  /** The cover is written next to the media file, under the same name with the ".jpg"
      extension. */
  lemma CoverIsSibling(h: Handle, path: string, writable: bool)
    ensures CoverArt(h, path, writable).Some? ==>
              (exists ext :: path == SplitextRoot(path) + ext && '/' !in ext)
              && CoverArt(h, path, writable) == Some(SplitextRoot(path) + ".jpg")
  {
    var root := SplitextRoot(path);
    var ext := path[|root|..];
    assert path == root + ext;
    assert forall i :: 0 <= i < |ext| ==> ext[i] == path[|root| + i];
  }

  /** There is a cover exactly when the file can be written and there is a picture or a
      non-empty 'covr' atom; pictures are looked at first. */
  lemma CoverPreference(h: Handle, path: string, writable: bool)
    ensures CoverArt(h, path, writable).Some? <==>
              writable && ((h.pictures.Some? && h.pictures.value > 0) || ("covr" in h.tags && h.tags["covr"] != []))
    ensures h.pictures.Some? && h.pictures.value > 0 && "covr" in h.tags && h.tags["covr"] == [] ==>
              CoverArt(h, path, writable) == (if writable then Some(CoverPath(path)) else None)
  {
  }

  // ---------------------------------------------------------------------------------------------
  // the three strategies; `None` is an exception, `handle == None` an opener that raised or, for
  // `File`, returned `None`

  const TitleTag := "\U{A9}nam"
  const ArtistTag := "\U{A9}ART"
  const AlbumTag := "\U{A9}alb"

  /** `_extract_m4a_metadata(path)` */
  function M4aMetadata(handle: Option<Handle>, path: string, writable: bool): Option<Metadata> {
    if handle.None? then None
    else
      var h := handle.value;
      var title := First(h, TitleTag, Text("Unknown"));
      var artist := First(h, ArtistTag, Text("Unknown Artist"));
      var album := First(h, AlbumTag, Text("Unknown Album"));
      var trkn := First(h, "trkn", Pair(0, 0));
      var track := if trkn.Some? then Index0(trkn.value) else None;
      var genre := First(h, "\U{A9}gen", Text(""));
      var date := First(h, "\U{A9}day", Text(""));
      var isrc := First(h, "----:com.apple.iTunes:ISRC", Text(""));
      var rtng := First(h, "rtng", Number(0));
      if title.None? || artist.None? || album.None? || track.None? || genre.None? || date.None?
         || isrc.None? || rtng.None?
      then None
      else
        var cover := CoverArt(h, path, writable);
        Some(Metadata(title.value, artist.value, album.value, h.length, cover, cover,
                      AudioTags(track.value, genre.value, date.value, isrc.value,
                                if rtng.value == Number(1) then "Explicit" else "")))
  }

  /** `_extract_video_metadata(path)` */
  function VideoMetadata(handle: Option<Handle>, path: string, writable: bool): Option<Metadata> {
    if handle.None? then None
    else
      var h := handle.value;
      var title := First(h, TitleTag, Text("Unknown"));
      var artist := First(h, ArtistTag, Text("Unknown Artist"));
      var album := First(h, AlbumTag, Text("Unknown Album"));
      var width := First(h, "width", Number(1920));
      var height := First(h, "height", Number(1080));
      if title.None? || artist.None? || album.None? || width.None? || height.None? then None
      else
        var cover := CoverArt(h, path, writable);
        Some(Metadata(title.value, artist.value, album.value, h.length, cover, cover,
                      VideoTags(width.value, height.value, Str(width.value) + "x" + Str(height.value))))
  }

  /** `_extract_generic_metadata(path)`. `audio.get('explicit', '0')` is a list when the tag is
      present and the string '0' otherwise; neither equals the string '1'. */
  function GenericMetadata(handle: Option<Handle>, path: string, writable: bool): Option<Metadata> {
    if handle.None? then None
    else
      var h := handle.value;
      var title := First(h, "title", Text("Unknown"));
      var artist := First(h, "artist", Text("Unknown Artist"));
      var album := First(h, "album", Text("Unknown Album"));
      var track := First(h, "tracknumber", Text("0"));
      var genre := First(h, "genre", Text(""));
      var date := First(h, "date", Text(""));
      var isrc := First(h, "isrc", Text(""));
      if title.None? || artist.None? || album.None? || track.None? || genre.None? || date.None? || isrc.None?
      then None
      else
        var cover := CoverArt(h, path, writable);
        Some(Metadata(title.value, artist.value, album.value, h.length, cover, cover,
                      AudioTags(track.value, genre.value, date.value, isrc.value, "")))
  }

  /** `_default_metadata(path)` */
  function DefaultMetadata(path: string): Metadata {
    Metadata(Text(Basename(path)), Text("Unknown Artist"), Text("Unknown Album"), 0, None, None,
             AudioTags(Text("0"), Text(""), Text(""), Text(""), ""))
  }

  // ---------------------------------------------------------------------------------------------
  // extract_apple_metadata

  datatype Strategy = AudioStrategy | VideoStrategy | GenericStrategy

  /** The strategy the extension selects. */
  function StrategyFor(path: string): Strategy {
    if EndsWith(path, ".m4a") then AudioStrategy
    else if EndsWith(path, ".mp4") || EndsWith(path, ".m4v") || EndsWith(path, ".mov") then VideoStrategy
    else GenericStrategy
  }

  /** `extract_apple_metadata(path)`: the selected strategy's record, or the fallback record
      when the strategy raises. */
  function ExtractAppleMetadata(path: string, handle: Option<Handle>, writable: bool): Metadata {
    var r := match StrategyFor(path)
             case AudioStrategy => M4aMetadata(handle, path, writable)
             case VideoStrategy => VideoMetadata(handle, path, writable)
             case GenericStrategy => GenericMetadata(handle, path, writable);
    if r.Some? then r.value else DefaultMetadata(path)
  }

  /** The last character decides the strategy among the known extensions: ".flac" files go to
      the generic strategy, not the audio one. */
  lemma DispatchByExtension(path: string)
    ensures EndsWith(path, ".m4a") ==> StrategyFor(path) == AudioStrategy
    ensures EndsWith(path, ".mp4") || EndsWith(path, ".m4v") || EndsWith(path, ".mov") ==> StrategyFor(path) == VideoStrategy
    ensures EndsWith(path, ".flac") ==> StrategyFor(path) == GenericStrategy
  {
    if EndsWith(path, ".flac") {
      assert path[|path| - 1] == 'c';
      assert path[|path| - 1] == path[|path| - 4..][3];
    }
  }

  /** An opener that raises gives the fallback record, whatever the extension. */
  lemma UnreadableFileFallsBack(path: string, writable: bool)
    ensures ExtractAppleMetadata(path, None, writable) == DefaultMetadata(path)
  {
  }

  /** The tags a strategy reads with `handle.get(key, [default])[0]`. */
  function ReadKeys(s: Strategy): seq<string> {
    match s
    case AudioStrategy =>
      [TitleTag, ArtistTag, AlbumTag, "trkn", "\U{A9}gen", "\U{A9}day", "----:com.apple.iTunes:ISRC", "rtng"]
    case VideoStrategy => [TitleTag, ArtistTag, AlbumTag, "width", "height"]
    case GenericStrategy => ["title", "artist", "album", "tracknumber", "genre", "date", "isrc"]
  }

  /** A tag the selected strategy reads that is present with an empty list raises an
      `IndexError`, and the file gets the fallback record. */
  lemma EmptyTagFallsBack(path: string, h: Handle, writable: bool, key: string)
    requires key in ReadKeys(StrategyFor(path)) && key in h.tags && h.tags[key] == []
    ensures ExtractAppleMetadata(path, Some(h), writable) == DefaultMetadata(path)
  {
  }

  /** The fallback record is named after the file and carries no cover. */
  lemma DefaultMetadataShape(path: string)
    ensures var m := DefaultMetadata(path);
            m.title.Text? && EndsWith(path, m.title.s) && '/' !in m.title.s
            && m.artist == Text("Unknown Artist") && m.album == Text("Unknown Album")
            && m.duration == 0 && m.cover == None && m.thumbnail == None
            && m.extra.AudioTags? && m.extra.tracknumber == Text("0") && m.extra.explicit == ""
  {
  }

  /** Whatever the path and the handle, the record's cover and thumbnail are the same, and each
      is absent or the sibling ".jpg" of the media file. */
  lemma CoverAndThumbnailAgree(path: string, handle: Option<Handle>, writable: bool)
    ensures var m := ExtractAppleMetadata(path, handle, writable);
            m.cover == m.thumbnail && (m.cover.Some? ==> m.cover.value == CoverPath(path))
  {
  }

  /** A strategy that succeeds on a handle without title, artist or album tags fills in
      "Unknown", "Unknown Artist" and "Unknown Album". */
  lemma MissingTagsDefault(path: string, h: Handle, writable: bool)
    ensures var m := M4aMetadata(Some(h), path, writable);
            m.Some? ==> (TitleTag !in h.tags ==> m.value.title == Text("Unknown"))
                        && (ArtistTag !in h.tags ==> m.value.artist == Text("Unknown Artist"))
                        && (AlbumTag !in h.tags ==> m.value.album == Text("Unknown Album"))
    ensures var m := VideoMetadata(Some(h), path, writable);
            m.Some? ==> (TitleTag !in h.tags ==> m.value.title == Text("Unknown"))
                        && (ArtistTag !in h.tags ==> m.value.artist == Text("Unknown Artist"))
                        && (AlbumTag !in h.tags ==> m.value.album == Text("Unknown Album"))
    ensures var m := GenericMetadata(Some(h), path, writable);
            m.Some? ==> ("title" !in h.tags ==> m.value.title == Text("Unknown"))
                        && ("artist" !in h.tags ==> m.value.artist == Text("Unknown Artist"))
                        && ("album" !in h.tags ==> m.value.album == Text("Unknown Album"))
  {
  }

  /** A strategy fails only on an unreadable file or an empty tag list (or, for ".m4a", a
      track number that cannot be indexed): a handle whose tag lists are all non-empty and
      whose 'trkn' values are pairs always gives a record. */
  lemma StrategiesSucceedOnWellFormedTags(path: string, h: Handle, writable: bool)
    requires forall k :: k in h.tags ==> h.tags[k] != []
    requires "trkn" in h.tags ==> h.tags["trkn"][0].Pair?
    ensures M4aMetadata(Some(h), path, writable).Some?
    ensures VideoMetadata(Some(h), path, writable).Some?
    ensures GenericMetadata(Some(h), path, writable).Some?
  {
  }

  /** For ".m4a" files the record is marked explicit exactly when the first 'rtng' value is 1;
      the generic strategy never marks a record explicit. */
  lemma ExplicitRule(path: string, h: Handle, writable: bool)
    ensures var m := M4aMetadata(Some(h), path, writable);
            m.Some? ==> m.value.extra.AudioTags?
                        && (m.value.extra.explicit == "Explicit" <==> "rtng" in h.tags && h.tags["rtng"][0] == Number(1))
                        && (m.value.extra.explicit == "" || m.value.extra.explicit == "Explicit")
    ensures var m := GenericMetadata(Some(h), path, writable);
            m.Some? ==> m.value.extra.AudioTags? && m.value.extra.explicit == ""
  {
  }

  /** A video without width and height tags is reported as 1920x1080. */
  lemma DefaultResolution(path: string, h: Handle, writable: bool)
    requires "width" !in h.tags && "height" !in h.tags
    ensures var m := VideoMetadata(Some(h), path, writable);
            m.Some? ==> m.value.extra == VideoTags(Number(1920), Number(1080), "1920x1080")
  {
    assert NatToString(19) == "19";
    assert NatToString(192) == "192";
    assert NatToString(1920) == "1920";
    assert NatToString(10) == "10";
    assert NatToString(108) == "108";
    assert NatToString(1080) == "1080";
    assert Str(Number(1920)) + "x" + Str(Number(1080)) == "1920x1080";
  }
}
