/** The Apple Music processor of bot/providers/apple/apple.py (`AppleMusicCore`): the media-file
    filter and bundle built from the downloaded files, the classification of the content, the
    dispatch to an upload handler, and the stage sequence of `process` with its cleanup on both
    exits.

    The files `os.walk` finds are an input, in walk order. What the tag library yields for each
    file, and whether its cover can be written, is an oracle. The bundle handed to the upload
    handlers is built exactly as written, with `'items'`, although the handlers read `'filepath'`,
    `'tracks'` and `'albums'`; `BundleMismatch` states the consequence. */
module AppleCore {
  import opened Wrappers
  import opened PyText
  import PyDict
  import AppleUtils
  import AppleDownloader
  import AppleMetadata
  import Up = AppleUploader

  // ---------------------------------------------------------------------------------------------
  // _process_content

  /** The extensions `_process_content` keeps. */
  predicate IsMediaFile(path: string) {
    EndsWith(path, ".m4a") || EndsWith(path, ".flac") || EndsWith(path, ".mp4") || EndsWith(path, ".mov")
  }

  /** For a path: the tag handle (`None` when the file cannot be read) and whether a cover file
      can be written next to it. */
  type Probe = string -> (Option<AppleMetadata.Handle>, bool)

  function ValueField(v: AppleMetadata.Value): Up.Field {
    match v
    case Text(s) => Up.FText(s)
    case Number(n) => Up.FNum(n)
    case Pair(a, b) => Up.FList([Up.FNum(a), Up.FNum(b)])
  }

  function PathField(p: Option<string>): Up.Field {
    if p.Some? then Up.FText(p.value) else Up.FNone
  }

  /** The dict `extract_apple_metadata` returns. */
  function MetadataFields(m: AppleMetadata.Metadata): (r: map<string, Up.Field>)
    ensures "title" in r && "artist" in r && "album" in r
    ensures r["title"] == ValueField(m.title) && r["artist"] == ValueField(m.artist)
            && r["album"] == ValueField(m.album)
  {
    var common := map["title" := ValueField(m.title), "artist" := ValueField(m.artist),
                      "album" := ValueField(m.album), "duration" := Up.FNum(m.duration),
                      "cover" := PathField(m.cover), "thumbnail" := PathField(m.thumbnail)];
    match m.extra
    case AudioTags(tracknumber, genre, date, isrc, explicit) =>
      common["tracknumber" := ValueField(tracknumber)]["genre" := ValueField(genre)]
            ["date" := ValueField(date)]["isrc" := ValueField(isrc)]["explicit" := Up.FText(explicit)]
    case VideoTags(width, height, resolution) =>
      common["width" := ValueField(width)]["height" := ValueField(height)]
            ["resolution" := Up.FText(resolution)]
  }

  /** The item for one kept file: its metadata dict updated with `'filepath'` and `'provider'`. */
  function ItemOf(path: string, probe: Probe): Up.Field {
    var m := AppleMetadata.ExtractAppleMetadata(path, probe(path).0, probe(path).1);
    Up.FRecord(MetadataFields(m)["filepath" := Up.FText(path)]["provider" := Up.FText("apple")])
  }

  /** The walked paths that have a media extension, in walk order. */
  function MediaFiles(files: seq<string>): seq<string> {
    if files == [] then []
    else MediaFiles(files[..|files| - 1]) + (if IsMediaFile(files[|files| - 1]) then [files[|files| - 1]] else [])
  }

  /** The items `_process_content` collects. */
  function Items(files: seq<string>, probe: Probe): (r: seq<Up.Field>)
    ensures |r| == |MediaFiles(files)|
  {
    var kept := MediaFiles(files);
    seq(|kept|, i requires 0 <= i < |kept| => ItemOf(kept[i], probe))
  }

  /** The dict `_process_content` returns beside the content type. The default of
      `items[0].get('album', items[0]['title'])` is evaluated first, so `'title'` is read even
      when `'album'` is present. */
  function Bundle(directory: string, items: seq<Up.Field>): (r: Result<Up.Field>)
    requires items != []
    ensures r.Ok? ==> r.value.FRecord? && r.value.fields.Keys == {"items", "folderpath", "title", "artist"}
  {
    var first := items[0];
    var title := Up.Index(first, "title");
    if title.Err? then Err(title.error)
    else
      var chosen := if "album" in first.fields then first.fields["album"] else title.value;
      var artist := Up.Index(first, "artist");
      if artist.Err? then Err(artist.error)
      else Ok(Up.FRecord(map["items" := Up.FList(items), "folderpath" := Up.FText(directory),
                             "title" := chosen, "artist" := artist.value]))
  }

  const NoMediaError := "No valid media files found"

  /** `_process_content(directory, url)`: the content type and the bundle, or the error. */
  function Content(directory: string, url: string, files: seq<string>, probe: Probe): Result<(string, Up.Field)> {
    var items := Items(files, probe);
    if items == [] then Err(NoMediaError)
    else
      var bundle := Bundle(directory, items);
      if bundle.Err? then Err(bundle.error)
      else Ok((DetermineContentType(url, |items|), bundle.value))
  }

  lemma MediaFilesSnoc(files: seq<string>, i: nat)
    requires i < |files|
    ensures MediaFiles(files[..i + 1]) == MediaFiles(files[..i]) + (if IsMediaFile(files[i]) then [files[i]] else [])
  {
    assert files[..i + 1][..i] == files[..i];
  }

  method ProcessContent(directory: string, url: string, files: seq<string>, probe: Probe)
    returns (r: Result<(string, Up.Field)>)
    ensures r == Content(directory, url, files, probe)
  {
    var items: seq<Up.Field> := [];
    for i := 0 to |files|
      invariant items == Items(files[..i], probe)
    {
      MediaFilesSnoc(files, i);
      if IsMediaFile(files[i]) {
        var (handle, writable) := probe(files[i]);
        var metadata := AppleMetadata.ExtractAppleMetadata(files[i], handle, writable);
        var fields := MetadataFields(metadata)["filepath" := Up.FText(files[i])]["provider" := Up.FText("apple")];
        items := items + [Up.FRecord(fields)];
      }
      assert items == Items(files[..i + 1], probe);
    }
    assert files[..|files|] == files;
    if items == [] {
      return Err(NoMediaError);
    }
    var bundle := Bundle(directory, items);
    if bundle.Err? {
      return Err(bundle.error);
    }
    r := Ok((DetermineContentType(url, |items|), bundle.value));
  }

  /** Exactly the media files are kept, in walk order. */
  lemma {:induction false} MediaFilesExactly(files: seq<string>)
    ensures forall p :: p in MediaFiles(files) <==> p in files && IsMediaFile(p)
    ensures |MediaFiles(files)| <= |files|
    decreases |files|
  {
    if files != [] {
      var init := files[..|files| - 1];
      MediaFilesExactly(init);
      assert files == init + [files[|files| - 1]];
    }
  }

  /** Content is found exactly when some walked file has a media extension; the bundle then
      lists one item per kept file, in order, each tagged with its path and the provider
      `'apple'`, and takes its title (the album) and artist from the first item and its folder
      from the scanned directory. Extraction never fails, so the bundle is always built. */
  lemma ContentShape(directory: string, url: string, files: seq<string>, probe: Probe)
    ensures var c := Content(directory, url, files, probe);
            var kept := MediaFiles(files);
            (c.Err? <==> kept == []) && (c.Err? ==> c.error == NoMediaError)
            && (c.Ok? ==>
                  var m := AppleMetadata.ExtractAppleMetadata(kept[0], probe(kept[0]).0, probe(kept[0]).1);
                  var b := c.value.1;
                  b.FRecord? && b.fields["items"] == Up.FList(Items(files, probe))
                  && b.fields["folderpath"] == Up.FText(directory)
                  && b.fields["title"] == ValueField(m.album) && b.fields["artist"] == ValueField(m.artist)
                  && c.value.0 == DetermineContentType(url, |kept|)
                  && forall i :: 0 <= i < |kept| ==>
                       Items(files, probe)[i].FRecord?
                       && Items(files, probe)[i].fields["filepath"] == Up.FText(kept[i])
                       && Items(files, probe)[i].fields["provider"] == Up.FText("apple"))
  {
    var kept := MediaFiles(files);
    if kept != [] {
      var items := Items(files, probe);
      assert items[0] == ItemOf(kept[0], probe);
      ItemShape(kept[0], probe);
      forall i | 0 <= i < |kept|
        ensures items[i].FRecord? && items[i].fields["filepath"] == Up.FText(kept[i])
                && items[i].fields["provider"] == Up.FText("apple")
      {
        ItemShape(kept[i], probe);
      }
    }
  }

  /** An item is a dict holding the file's title, artist and album, its path and the provider. */
  lemma ItemShape(path: string, probe: Probe)
    ensures var m := AppleMetadata.ExtractAppleMetadata(path, probe(path).0, probe(path).1);
            var item := ItemOf(path, probe);
            item.FRecord? && item.fields["filepath"] == Up.FText(path) && item.fields["provider"] == Up.FText("apple")
            && "title" in item.fields && "album" in item.fields && "artist" in item.fields
            && item.fields["album"] == ValueField(m.album) && item.fields["artist"] == ValueField(m.artist)
  {
  }

  // ---------------------------------------------------------------------------------------------
  // _determine_content_type and _handle_upload

  /** `_determine_content_type(url, items)`, which sees only the URL and the number of items. */
  function DetermineContentType(url: string, count: nat): (r: string)
    ensures r in UploadHandlers
    ensures r == "video" <==> Contains(url, "music-video")
    ensures (r == "album" || r == "track") <==>
              !Contains(url, "music-video") && !Contains(url, "playlist") && !Contains(url, "artist")
    ensures r == "playlist" <==> !Contains(url, "music-video") && Contains(url, "playlist")
    ensures r == "artist" <==> !Contains(url, "music-video") && !Contains(url, "playlist") && Contains(url, "artist")
    ensures r == "album" <==>
              !Contains(url, "music-video") && !Contains(url, "playlist") && !Contains(url, "artist") && count > 1
  {
    if Contains(url, "music-video") then "video"
    else if Contains(url, "playlist") then "playlist"
    else if Contains(url, "artist") then "artist"
    else if count > 1 then "album"
    else "track"
  }

  datatype Handler = TrackHandler | VideoHandler | AlbumHandler | PlaylistHandler | ArtistHandler

  /** `upload_handlers` */
  const UploadHandlers: map<string, Handler> :=
    map["track" := TrackHandler, "video" := VideoHandler, "album" := AlbumHandler,
        "playlist" := PlaylistHandler, "artist" := ArtistHandler]

  /** Every classification has a handler, so "Unsupported content type" is never raised on the
      way from `process`; and the number of items matters only for URLs that name none of
      'music-video', 'playlist' and 'artist', where it separates album from track. */
  lemma ClassificationHasHandler(url: string, count: nat, count': nat)
    ensures DetermineContentType(url, count) in UploadHandlers
    ensures DetermineContentType(url, count) != DetermineContentType(url, count') ==>
              !Contains(url, "music-video") && !Contains(url, "playlist") && !Contains(url, "artist")
              && (count > 1 <==> count' <= 1)
    ensures Contains(url, "music-video") ==> DetermineContentType(url, count) == "video"
  {
  }

  /** The run of the handler registered for `contentType`. */
  function UploadTrace(contentType: string, data: Up.Field, cfg: Up.Config, userId: int,
                       rclone: string -> Up.RcloneReply): Up.Trace
  {
    if contentType !in UploadHandlers then Up.Trace([], Some("Unsupported content type: " + contentType))
    else
      match UploadHandlers[contentType]
      case TrackHandler => Up.SingleUpload(Up.Track, data, cfg, rclone)
      case VideoHandler => Up.SingleUpload(Up.Video, data, cfg, rclone)
      case AlbumHandler => Up.CollectionTrace(Up.Album, data, cfg, userId, rclone)
      case PlaylistHandler => Up.CollectionTrace(Up.Playlist, data, cfg, userId, rclone)
      case ArtistHandler => Up.CollectionTrace(Up.Artist, data, cfg, userId, rclone)
  }

  /** `_handle_upload(content_type, data, user)` */
  method HandleUpload(contentType: string, data: Up.Field, cfg: Up.Config, userId: int,
                      rclone: string -> Up.RcloneReply) returns (t: Up.Trace)
    ensures t == UploadTrace(contentType, data, cfg, userId, rclone)
  {
    if contentType !in UploadHandlers {
      return Up.Trace([], Some("Unsupported content type: " + contentType));
    }
    match UploadHandlers[contentType]
    case TrackHandler => t := Up.SingleUpload(Up.Track, data, cfg, rclone);
    case VideoHandler => t := Up.SingleUpload(Up.Video, data, cfg, rclone);
    case AlbumHandler => t := Up.AlbumUpload(data, cfg, userId, rclone);
    case PlaylistHandler => t := Up.PlaylistUpload(data, cfg, userId, rclone);
    case ArtistHandler => t := Up.ArtistUpload(data, cfg, userId, rclone);
  }

  /** The handler each classification reaches. */
  lemma UploadTraceDispatch(kind: string, data: Up.Field, cfg: Up.Config, userId: int,
                            rclone: string -> Up.RcloneReply)
    ensures kind == "track" ==> UploadTrace(kind, data, cfg, userId, rclone) == Up.SingleUpload(Up.Track, data, cfg, rclone)
    ensures kind == "video" ==> UploadTrace(kind, data, cfg, userId, rclone) == Up.SingleUpload(Up.Video, data, cfg, rclone)
    ensures kind == "album" ==> UploadTrace(kind, data, cfg, userId, rclone) == Up.CollectionTrace(Up.Album, data, cfg, userId, rclone)
    ensures kind == "playlist" ==> UploadTrace(kind, data, cfg, userId, rclone) == Up.CollectionTrace(Up.Playlist, data, cfg, userId, rclone)
    ensures kind == "artist" ==> UploadTrace(kind, data, cfg, userId, rclone) == Up.CollectionTrace(Up.Artist, data, cfg, userId, rclone)
  {
    if kind in UploadHandlers {
      assert UploadHandlers[kind] == match kind
        case "track" => TrackHandler case "video" => VideoHandler case "album" => AlbumHandler
        case "playlist" => PlaylistHandler case _ => ArtistHandler;
    }
  }

  /** A dict without `'filepath'` makes the track and video handlers raise `KeyError('filepath')`
      before any effect. */
  lemma MissingFilepathRaises(data: Up.Field, kind: string, cfg: Up.Config, userId: int,
                              rclone: string -> Up.RcloneReply)
    requires data.FRecord? && "filepath" !in data.fields && (kind == "track" || kind == "video")
    ensures UploadTrace(kind, data, cfg, userId, rclone) == Up.Trace([], Some("'filepath'"))
  {
    UploadTraceDispatch(kind, data, cfg, userId, rclone);
    assert Up.Index(data, "filepath") == Err("'filepath'");
  }

  /** In Telegram mode without zips, a dict without the key a collection loops over makes the
      handler raise a `KeyError` for that key before any effect. */
  lemma MissingChildrenRaises(data: Up.Field, c: Up.Collection, cfg: Up.Config, userId: int,
                              rclone: string -> Up.RcloneReply)
    requires data.FRecord? && Up.ChildKey(c) !in data.fields
    requires cfg.uploadMode == "Telegram" && !Up.ZipMode(c, cfg)
    ensures Up.CollectionTrace(c, data, cfg, userId, rclone) == Up.Trace([], Some("'" + Up.ChildKey(c) + "'"))
  {
  }

  /** A dict with exactly the bundle's keys: a track or video upload raises `KeyError('filepath')`
      before any effect, and in Telegram mode without zips an album or playlist upload raises
      `KeyError('tracks')` and an artist upload `KeyError('albums')`. */
  lemma BundleKeysRaise(kind: string, data: Up.Field, cfg: Up.Config, userId: int,
                        rclone: string -> Up.RcloneReply)
    requires data.FRecord? && data.fields.Keys == {"items", "folderpath", "title", "artist"}
    ensures kind == "track" || kind == "video" ==> UploadTrace(kind, data, cfg, userId, rclone) == Up.Trace([], Some("'filepath'"))
    ensures kind == "album" && cfg.uploadMode == "Telegram" && !cfg.albumZip ==>
              UploadTrace(kind, data, cfg, userId, rclone) == Up.Trace([], Some("'tracks'"))
    ensures kind == "playlist" && cfg.uploadMode == "Telegram" && !cfg.playlistZip ==>
              UploadTrace(kind, data, cfg, userId, rclone) == Up.Trace([], Some("'tracks'"))
    ensures kind == "artist" && cfg.uploadMode == "Telegram" && !cfg.artistZip ==>
              UploadTrace(kind, data, cfg, userId, rclone) == Up.Trace([], Some("'albums'"))
  {
    assert "filepath" !in data.fields && "tracks" !in data.fields && "albums" !in data.fields;
    if kind == "track" || kind == "video" {
      MissingFilepathRaises(data, kind, cfg, userId, rclone);
    } else if kind == "album" && cfg.uploadMode == "Telegram" && !cfg.albumZip {
      UploadTraceDispatch(kind, data, cfg, userId, rclone);
      MissingChildrenRaises(data, Up.Album, cfg, userId, rclone);
      assert Up.ChildKey(Up.Album) == "tracks";
      assert "'" + "tracks" + "'" == "'tracks'";
    } else if kind == "playlist" && cfg.uploadMode == "Telegram" && !cfg.playlistZip {
      UploadTraceDispatch(kind, data, cfg, userId, rclone);
      MissingChildrenRaises(data, Up.Playlist, cfg, userId, rclone);
      assert Up.ChildKey(Up.Playlist) == "tracks";
      assert "'" + "tracks" + "'" == "'tracks'";
    } else if kind == "artist" && cfg.uploadMode == "Telegram" && !cfg.artistZip {
      UploadTraceDispatch(kind, data, cfg, userId, rclone);
      MissingChildrenRaises(data, Up.Artist, cfg, userId, rclone);
      assert Up.ChildKey(Up.Artist) == "albums";
      assert "'" + "albums" + "'" == "'albums'";
    }
  }

  /** The bundle `_process_content` builds has no `'filepath'`, `'tracks'` or `'albums'`, so every
      handler it can be given, in Telegram mode without zips, raises a `KeyError` before any effect:
      the track and video handlers for `'filepath'`, the album and playlist handlers for
      `'tracks'` and the artist handler for `'albums'`. */
  lemma BundleMismatch(directory: string, items: seq<Up.Field>, kind: string, cfg: Up.Config, userId: int,
                       rclone: string -> Up.RcloneReply)
    requires items != [] && Bundle(directory, items).Ok?
    ensures var b := Bundle(directory, items).value;
            b.FRecord? && "filepath" !in b.fields && "tracks" !in b.fields && "albums" !in b.fields
    ensures var t := UploadTrace(kind, Bundle(directory, items).value, cfg, userId, rclone);
            (kind == "track" || kind == "video" ==> t == Up.Trace([], Some("'filepath'")))
            && (kind == "album" && cfg.uploadMode == "Telegram" && !cfg.albumZip ==> t == Up.Trace([], Some("'tracks'")))
            && (kind == "playlist" && cfg.uploadMode == "Telegram" && !cfg.playlistZip ==> t == Up.Trace([], Some("'tracks'")))
            && (kind == "artist" && cfg.uploadMode == "Telegram" && !cfg.artistZip ==> t == Up.Trace([], Some("'albums'")))
  {
    BundleKeysRaise(kind, Bundle(directory, items).value, cfg, userId, rclone);
  }

  // ---------------------------------------------------------------------------------------------
  // process

  /** What `process` does, stage by stage. */
  datatype Step =
    | MadeDirectory(path: string)                               // create_apple_directory
    | Downloaded(cmd: Option<seq<string>>, edits: seq<string>)  // run_apple_downloader
    | Uploaded(effects: seq<Up.Effect>)                         // _handle_upload
    | CleanedUp(path: string)                                   // cleanup_apple_files
    | Completed                                                 // _send_completion_message
    | ErrorShown(text: string)                                  // _handle_error

  /** The downloader: its configured path, whether it is present, and the child process it starts. */
  datatype Downloader = Downloader(path: string, present: bool, child: AppleDownloader.Process)

  const InvalidUrlError := "Invalid Apple Music URL format"

  function ErrorMessage(e: string): string {
    "\U{274C} Apple Music Error:\n" + e
  }

  /** The `except` clause: clean up, show the error, re-raise it. */
  function Fail(steps: seq<Step>, userDir: string, e: string): (seq<Step>, Option<string>) {
    (steps + [CleanedUp(userDir), ErrorShown(ErrorMessage(e))], Some(e))
  }

  /** The command run, if any, the progress edits and the result of the download stage. */
  datatype Download = Download(ran: Option<seq<string>>, edits: seq<string>, result: AppleDownloader.DownloadResult)

  /** `run_apple_downloader(url, user_dir, options, user)`: a directory path is passed where the
      user id is expected, and the options dict is spliced, which yields its keys. The user is
      the one whose `'bot_msg'` is being edited, so progress is reported. */
  function DownloadStage(url: string, userDir: string, options: PyDict.Dict<AppleUtils.OptValue>,
                         storage: string, d: Downloader): Download
  {
    if !d.present then Download(None, [], AppleDownloader.Failure(AppleDownloader.NotFoundError(d.path)))
    else
      var chunks := AppleDownloader.StripAll(d.child.stdout);
      Download(Some(AppleDownloader.DownloaderCommand(d.path, PyDict.Keys(options), AppleUtils.AppleDirectory(storage, userDir), url)),
               AppleDownloader.MonitorMessages(AppleDownloader.ThrottledEdits(AppleDownloader.Progresses(chunks))),
               AppleDownloader.MonitorResult(d.child.returnCode, d.child.stderr, chunks))
  }

  /** The stages after a successful download: scan, upload, then cleanup and the completion
      message, or the `except` clause. */
  function AfterDownload(steps: seq<Step>, userDir: string, url: string, userId: int, cfg: Up.Config,
                         files: seq<string>, probe: Probe, rclone: string -> Up.RcloneReply): (seq<Step>, Option<string>)
  {
    var content := Content(userDir, url, files, probe);
    if content.Err? then Fail(steps, userDir, content.error)
    else
      var t := UploadTrace(content.value.0, content.value.1, cfg, userId, rclone);
      if t.raised.Some? then Fail(steps + [Uploaded(t.effects)], userDir, t.raised.value)
      else (steps + [Uploaded(t.effects), CleanedUp(userDir), Completed], None)
  }

  /** The stages after the URL is accepted: the directories, the download, then the rest. */
  function AfterValidation(userDir: string, url: string, userId: int, options: PyDict.Dict<AppleUtils.OptValue>,
                           cfg: Up.Config, d: Downloader, files: seq<string>, probe: Probe,
                           rclone: string -> Up.RcloneReply): (seq<Step>, Option<string>)
  {
    AfterStage(DownloadStage(url, userDir, options, cfg.storage, d), userDir, url, userId, cfg, files, probe, rclone)
  }

  /** The directories made, the download `dl` run, then the rest or the `except` clause. */
  function AfterStage(dl: Download, userDir: string, url: string, userId: int, cfg: Up.Config,
                      files: seq<string>, probe: Probe, rclone: string -> Up.RcloneReply): (seq<Step>, Option<string>)
  {
    var steps := [MadeDirectory(userDir), MadeDirectory(AppleUtils.AppleDirectory(cfg.storage, userDir)),
                  Downloaded(dl.ran, dl.edits)];
    if dl.result.Failure? then Fail(steps, userDir, dl.result.error)
    else AfterDownload(steps, userDir, url, userId, cfg, files, probe, rclone)
  }

  /** The steps of `process(url, user, options)` and the exception it re-raises, if any. */
  function ProcessRun(url: string, userId: int, options: PyDict.Dict<AppleUtils.OptValue>, cfg: Up.Config,
                      d: Downloader, files: seq<string>, probe: Probe,
                      rclone: string -> Up.RcloneReply): (seq<Step>, Option<string>)
  {
    var userDir := AppleUtils.AppleDirectory(cfg.storage, IntToString(userId));
    if !AppleUtils.ValidateAppleUrl(url) then Fail([], userDir, InvalidUrlError)
    else AfterValidation(userDir, url, userId, options, cfg, d, files, probe, rclone)
  }

  /** `AppleMusicCore.process(url, user, options)` */
  method Process(url: string, userId: int, options: PyDict.Dict<AppleUtils.OptValue>, cfg: Up.Config,
                 d: Downloader, files: seq<string>, probe: Probe, rclone: string -> Up.RcloneReply)
    returns (steps: seq<Step>, raised: Option<string>)
    ensures (steps, raised) == ProcessRun(url, userId, options, cfg, d, files, probe, rclone)
  {
    var userDir := AppleUtils.AppleDirectory(cfg.storage, IntToString(userId));
    steps := [];
    if !AppleUtils.ValidateAppleUrl(url) {
      var failed := Fail(steps, userDir, InvalidUrlError);
      steps, raised := failed.0, failed.1;
      return;
    }
    assert ProcessRun(url, userId, options, cfg, d, files, probe, rclone)
        == AfterValidation(userDir, url, userId, options, cfg, d, files, probe, rclone);
    var outputDir := AppleUtils.AppleDirectory(cfg.storage, userDir);
    var ran, edits, result := AppleDownloader.RunAppleDownloader(url, userDir, PyDict.Keys(options), true,
                                                                  cfg.storage, d.path, d.present, d.child);
    assert Download(ran, edits, result) == DownloadStage(url, userDir, options, cfg.storage, d);
    assert ProcessRun(url, userId, options, cfg, d, files, probe, rclone)
        == AfterStage(Download(ran, edits, result), userDir, url, userId, cfg, files, probe, rclone);
    steps := [MadeDirectory(userDir), MadeDirectory(outputDir), Downloaded(ran, edits)];
    if result.Failure? {
      var failed := Fail(steps, userDir, result.error);
      steps, raised := failed.0, failed.1;
      return;
    }
    assert AfterStage(Download(ran, edits, result), userDir, url, userId, cfg, files, probe, rclone)
        == AfterDownload(steps, userDir, url, userId, cfg, files, probe, rclone);
    steps, raised := Deliver(steps, userDir, url, userId, cfg, files, probe, rclone);
  }

  /** The `try` block after a successful download: scan the directory, upload, clean up and
      report completion; on an exception, the `except` clause. */
  method Deliver(downloaded: seq<Step>, userDir: string, url: string, userId: int, cfg: Up.Config,
                 files: seq<string>, probe: Probe, rclone: string -> Up.RcloneReply)
    returns (steps: seq<Step>, raised: Option<string>)
    ensures (steps, raised) == AfterDownload(downloaded, userDir, url, userId, cfg, files, probe, rclone)
  {
    steps := downloaded;
    var content := ProcessContent(userDir, url, files, probe);
    if content.Err? {
      var failed := Fail(steps, userDir, content.error);
      steps, raised := failed.0, failed.1;
      return;
    }
    var t := HandleUpload(content.value.0, content.value.1, cfg, userId, rclone);
    assert AfterDownload(downloaded, userDir, url, userId, cfg, files, probe, rclone)
        == (if t.raised.Some? then Fail(downloaded + [Uploaded(t.effects)], userDir, t.raised.value)
            else (downloaded + [Uploaded(t.effects), CleanedUp(userDir), Completed], None));
    steps := steps + [Uploaded(t.effects)];
    if t.raised.Some? {
      var failed := Fail(steps, userDir, t.raised.value);
      steps, raised := failed.0, failed.1;
      return;
    }
    steps := steps + [CleanedUp(userDir), Completed];
    assert steps == downloaded + [Uploaded(t.effects), CleanedUp(userDir), Completed];
    raised := None;
  }

  /** The user's directory is cleaned up on both exits, and it is the second-last step: the
      completion message follows on success; on failure the error is shown and then re-raised. */
  lemma CleanupOnBothExits(url: string, userId: int, options: PyDict.Dict<AppleUtils.OptValue>,
                           cfg: Up.Config, d: Downloader, files: seq<string>, probe: Probe,
                           rclone: string -> Up.RcloneReply)
    ensures var r := ProcessRun(url, userId, options, cfg, d, files, probe, rclone);
            var userDir := AppleUtils.AppleDirectory(cfg.storage, IntToString(userId));
            |r.0| >= 2 && r.0[|r.0| - 2] == CleanedUp(userDir)
            && r.0[|r.0| - 1] == (if r.1.None? then Completed else ErrorShown(ErrorMessage(r.1.value)))
  {
    var r := ProcessRun(url, userId, options, cfg, d, files, probe, rclone);
    var userDir := AppleUtils.AppleDirectory(cfg.storage, IntToString(userId));
    if AppleUtils.ValidateAppleUrl(url) {
      assert r == AfterStage(DownloadStage(url, userDir, options, cfg.storage, d), userDir, url, userId, cfg, files, probe, rclone);
      AfterStageEndsCleanly(DownloadStage(url, userDir, options, cfg.storage, d), userDir, url, userId, cfg, files, probe, rclone);
    } else {
      assert r == Fail([], userDir, InvalidUrlError);
    }
  }

  /** The last two steps are the cleanup of `userDir`, then the completion message on success or
      the error message for the exception re-raised. */
  ghost predicate EndsCleanly(r: (seq<Step>, Option<string>), userDir: string) {
    |r.0| >= 2 && r.0[|r.0| - 2] == CleanedUp(userDir)
    && r.0[|r.0| - 1] == (if r.1.None? then Completed else ErrorShown(ErrorMessage(r.1.value)))
  }

  lemma AfterStageEndsCleanly(dl: Download, userDir: string, url: string, userId: int, cfg: Up.Config,
                              files: seq<string>, probe: Probe, rclone: string -> Up.RcloneReply)
    ensures EndsCleanly(AfterStage(dl, userDir, url, userId, cfg, files, probe, rclone), userDir)
  {
    var r := AfterStage(dl, userDir, url, userId, cfg, files, probe, rclone);
    var steps := [MadeDirectory(userDir), MadeDirectory(AppleUtils.AppleDirectory(cfg.storage, userDir)),
                  Downloaded(dl.ran, dl.edits)];
    if dl.result.Success? {
      assert r == AfterDownload(steps, userDir, url, userId, cfg, files, probe, rclone);
      AfterDownloadEndsCleanly(steps, userDir, url, userId, cfg, files, probe, rclone);
    } else {
      assert r == Fail(steps, userDir, dl.result.error);
    }
  }

  lemma AfterDownloadEndsCleanly(steps: seq<Step>, userDir: string, url: string, userId: int, cfg: Up.Config,
                                 files: seq<string>, probe: Probe, rclone: string -> Up.RcloneReply)
    ensures EndsCleanly(AfterDownload(steps, userDir, url, userId, cfg, files, probe, rclone), userDir)
  {
    var r := AfterDownload(steps, userDir, url, userId, cfg, files, probe, rclone);
    var content := Content(userDir, url, files, probe);
    if content.Ok? {
      var t := UploadTrace(content.value.0, content.value.1, cfg, userId, rclone);
      if t.raised.None? {
        assert r == (steps + [Uploaded(t.effects), CleanedUp(userDir), Completed], None);
      } else {
        assert r == Fail(steps + [Uploaded(t.effects)], userDir, t.raised.value);
      }
    } else {
      assert r == Fail(steps, userDir, content.error);
    }
  }

  /** Uploading happens only for a valid URL, an existing downloader that exits with status 0,
      and at least one media file; an invalid URL is refused before any directory is made. */
  lemma UploadOnlyAfterDownload(url: string, userId: int, options: PyDict.Dict<AppleUtils.OptValue>,
                                cfg: Up.Config, d: Downloader, files: seq<string>, probe: Probe,
                                rclone: string -> Up.RcloneReply)
    ensures var (steps, raised) := ProcessRun(url, userId, options, cfg, d, files, probe, rclone);
            (forall i :: 0 <= i < |steps| && steps[i].Uploaded? ==>
               AppleUtils.ValidateAppleUrl(url) && d.present && d.child.returnCode == 0 && MediaFiles(files) != [])
            && (!AppleUtils.ValidateAppleUrl(url) ==>
                  |steps| == 2 && raised == Some(InvalidUrlError))
  {
    var r := ProcessRun(url, userId, options, cfg, d, files, probe, rclone);
    var userDir := AppleUtils.AppleDirectory(cfg.storage, IntToString(userId));
    if !AppleUtils.ValidateAppleUrl(url) {
      assert r == Fail([], userDir, InvalidUrlError);
    } else {
      assert r == AfterValidation(userDir, url, userId, options, cfg, d, files, probe, rclone);
      UploadNeedsDownload(userDir, url, userId, options, cfg, d, files, probe, rclone);
    }
  }

  /** After validation, an upload step is reached only when the downloader exists and exits
      with status 0, and the scan kept a media file. */
  lemma UploadNeedsDownload(userDir: string, url: string, userId: int, options: PyDict.Dict<AppleUtils.OptValue>,
                            cfg: Up.Config, d: Downloader, files: seq<string>, probe: Probe,
                            rclone: string -> Up.RcloneReply)
    ensures !NoUpload(AfterValidation(userDir, url, userId, options, cfg, d, files, probe, rclone).0) ==>
              d.present && d.child.returnCode == 0 && MediaFiles(files) != []
  {
    var dl := DownloadStage(url, userDir, options, cfg.storage, d);
    UploadNeedsSuccess(dl, userDir, url, userId, cfg, files, probe, rclone);
    DownloadSucceeded(url, userDir, options, cfg.storage, d);
  }

  /** An upload step follows only a successful download and a scan that kept a media file. */
  lemma UploadNeedsSuccess(dl: Download, userDir: string, url: string, userId: int, cfg: Up.Config,
                           files: seq<string>, probe: Probe, rclone: string -> Up.RcloneReply)
    ensures !NoUpload(AfterStage(dl, userDir, url, userId, cfg, files, probe, rclone).0) ==>
              dl.result.Success? && MediaFiles(files) != []
  {
    var steps := [MadeDirectory(userDir), MadeDirectory(AppleUtils.AppleDirectory(cfg.storage, userDir)),
                  Downloaded(dl.ran, dl.edits)];
    assert NoUpload(steps);
    if dl.result.Failure? {
      FailAddsNoUpload(steps, userDir, dl.result.error);
    } else {
      UploadNeedsMedia(steps, userDir, url, userId, cfg, files, probe, rclone);
    }
  }

  /** The download stage succeeds only when the downloader exists and exits with status 0. */
  lemma DownloadSucceeded(url: string, userDir: string, options: PyDict.Dict<AppleUtils.OptValue>,
                          storage: string, d: Downloader)
    ensures DownloadStage(url, userDir, options, storage, d).result.Success? <==> d.present && d.child.returnCode == 0
  {
  }

  /** No step of `steps` is an upload. */
  predicate NoUpload(steps: seq<Step>) {
    forall i :: 0 <= i < |steps| ==> !steps[i].Uploaded?
  }

  /** The `except` clause uploads nothing. */
  lemma FailAddsNoUpload(steps: seq<Step>, userDir: string, e: string)
    requires NoUpload(steps)
    ensures NoUpload(Fail(steps, userDir, e).0)
  {
  }

  /** After the download, an upload step is reached only when the scan kept a media file. */
  lemma UploadNeedsMedia(steps: seq<Step>, userDir: string, url: string, userId: int, cfg: Up.Config,
                         files: seq<string>, probe: Probe, rclone: string -> Up.RcloneReply)
    requires NoUpload(steps)
    ensures !NoUpload(AfterDownload(steps, userDir, url, userId, cfg, files, probe, rclone).0) ==> MediaFiles(files) != []
  {
    var content := Content(userDir, url, files, probe);
    if content.Err? {
      FailAddsNoUpload(steps, userDir, content.error);
    } else {
      assert Items(files, probe) != [];
    }
  }

  /** `str(user_id)` never starts with '/'. */
  lemma IdIsRelative(userId: int)
    ensures !StartsWith(IntToString(userId), "/")
  {
    var s := IntToString(userId);
    if userId >= 0 {
      NatToStringRoundTrip(userId);
      assert IsDigit(s[0]);
    } else {
      assert s[0] == '-';
    }
  }

  /** A prefix of a prefix. */
  lemma StartsWithTrans(s: string, t: string, p: string)
    requires StartsWith(s, t) && StartsWith(t, p)
    ensures StartsWith(s, p)
  {
    assert s[..|p|] == s[..|t|][..|p|];
  }

  /** The downloader is told to write into `<storage>/Apple Music/<user_dir>`, which is the
      scanned `user_dir` itself exactly when the storage root is an absolute path. */
  lemma DownloadDirectoryMatchesScan(storage: string, userId: int)
    ensures var userDir := AppleUtils.AppleDirectory(storage, IntToString(userId));
            AppleUtils.AppleDirectory(storage, userDir) == userDir <==> StartsWith(storage, "/")
  {
    var root := Join(storage, "Apple Music");
    var uid := IntToString(userId);
    var userDir := Join(root, uid);
    IdIsRelative(userId);
    AppleUtils.JoinShape(storage, "Apple Music");
    AppleUtils.JoinShape(root, uid);
    if StartsWith(storage, "/") {
      StartsWithTrans(root, storage, "/");
      StartsWithTrans(userDir, root, "/");
    } else {
      assert root != [] && !StartsWith(root, "/") by {
        if storage == [] {
          assert root == "Apple Music";
        } else {
          assert root[0] == storage[0];
        }
      }
      assert !StartsWith(userDir, "/") by {
        assert userDir[0] == root[0];
      }
      assert |Join(root, userDir)| > |userDir|;
    }
  }
}
