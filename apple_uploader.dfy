/** Delivery of downloaded Apple Music content, bot/providers/apple/uploader.py: the link
    computation of `apple_rclone_upload` and the effects of the five `apple_*_upload` handlers.

    A handler receives a metadata dict, described here by `Field`. What it does to the world is
    an `Effect`. One run of a handler is a `Trace`: the effects in order, then the text of the
    exception it raised, if any. The deployment settings (`Config.UPLOAD_MODE`, the three `*_ZIP`
    switches, `RCLONE_DEST`, `INDEX_LINK`, `LOCAL_STORAGE`, `bot_set.link_options`) form a `Config`.
    The reply of the `rclone link` shell command is an oracle, a function of the command text.
    `format_string` is not part of this model, so a message is kept as its template, its
    arguments and the text appended to it. */
module AppleUploader {
  import opened Wrappers
  import opened PyText
  import AppleUtils

  // ---------------------------------------------------------------------------------------------
  // Python values as the handlers see them

  /** A value of a metadata dict: text, an integer, `None`, a list, or a nested dict. */
  datatype Field =
    | FText(s: string)
    | FNum(n: int)
    | FNone
    | FList(items: seq<Field>)
    | FRecord(fields: map<string, Field>)

  const StrIndexError := "string indices must be integers, not 'str'"

  /** `f[key]` with a string key: the entry of a dict, a `KeyError` (whose text is the quoted key)
      for a missing one, a `TypeError` for anything that is not a dict. */
  function Index(f: Field, key: string): (r: Result<Field>)
    ensures r.Ok? <==> f.FRecord? && key in f.fields
    ensures r.Ok? ==> r.value == f.fields[key]
    ensures f.FRecord? && key !in f.fields ==> r == Err("'" + key + "'")
  {
    match f
    case FRecord(m) => if key in m then Ok(m[key]) else Err("'" + key + "'")
    case FText(_) => Err(StrIndexError)
    case FNum(_) => Err("'int' object is not subscriptable")
    case FNone => Err("'NoneType' object is not subscriptable")
    case FList(_) => Err("list indices must be integers or slices, not str")
  }

  /** The `KeyError` of the first of `keys` that `m` lacks, reading them in order. */
  function FirstMissing(m: map<string, Field>, keys: seq<string>): (r: Option<string>)
    ensures r.None? <==> forall i :: 0 <= i < |keys| ==> keys[i] in m
    ensures r.Some? ==> exists i :: 0 <= i < |keys| && keys[i] !in m && r.value == "'" + keys[i] + "'"
  {
    if keys == [] then None
    else if keys[0] !in m then Some("'" + keys[0] + "'")
    else
      var r := FirstMissing(m, keys[1..]);
      assert r.Some? ==> exists i :: 0 <= i < |keys| && keys[i] !in m && r.value == "'" + keys[i] + "'" by {
        if r.Some? {
          var i :| 0 <= i < |keys[1..]| && keys[1..][i] !in m && r.value == "'" + keys[1..][i] + "'";
          assert keys[i + 1] == keys[1..][i];
        }
      }
      r
  }

  /** Python truthiness. */
  predicate Truthy(f: Field) {
    match f
    case FText(s) => s != []
    case FNum(n) => n != 0
    case FNone => false
    case FList(items) => items != []
    case FRecord(m) => |m| != 0
  }

  /** `str(f)` for text, integers and `None`; lists and dicts are not rendered element by element. */
  function PyStr(f: Field): string {
    match f
    case FText(s) => s
    case FNum(n) => IntToString(n)
    case FNone => "None"
    case FList(_) => "[...]"
    case FRecord(_) => "{...}"
  }

  /** What `for x in f` yields, as far as a handler can tell. A list yields its items. An empty
      string or dict yields nothing. A non-empty string or dict yields strings, and every handler
      raises the same `TypeError` on a string before it has any effect (`IteratingStringsRaises`),
      so that error stands for the whole loop. A number or `None` is not iterable. */
  function Elements(f: Field): Result<seq<Field>> {
    match f
    case FList(items) => Ok(items)
    case FText(s) => if s == [] then Ok([]) else Err(StrIndexError)
    case FRecord(m) => if |m| == 0 then Ok([]) else Err(StrIndexError)
    case FNum(_) => Err("'int' object is not iterable")
    case FNone => Err("'NoneType' object is not iterable")
  }

  // ---------------------------------------------------------------------------------------------
  // Settings, effects and traces

  datatype Config = Config(uploadMode: string, albumZip: bool, artistZip: bool, playlistZip: bool,
                           rcloneDest: string, indexLink: string, linkOptions: string,
                           storage: string)

  /** Exit status and standard output of one `rclone link` command. */
  datatype RcloneReply = RcloneReply(returnCode: int, stdout: string)

  /** A message: `format_string(template, args)` followed by `suffix`. */
  datatype Notice = Notice(template: string, args: seq<(string, Field)>, suffix: string)

  datatype Effect =
    | SendFile(path: Field, kind: string, caption: Notice)   // send_message(user, path, kind, caption=…)
    | SendText(text: Notice)                                  // send_message(user, text)
    | RunShell(cmd: string)                                   // the `rclone link` command
    | WriteZip(folder: string, zipPath: string)               // create_apple_zip writes the archive
    | RemoveFile(path: Field)                                 // os.remove
    | RemoveTree(path: Field)                                 // shutil.rmtree

  datatype Trace = Trace(effects: seq<Effect>, raised: Option<string>)

  const Done := Trace([], None)

  /** Run `t`, then `u` unless `t` raised. */
  function Then(t: Trace, u: Trace): Trace {
    if t.raised.Some? then t else Trace(t.effects + u.effects, u.raised)
  }

  /** `os.path.join(Config.LOCAL_STORAGE, "Apple Music")` */
  function Base(cfg: Config): string {
    Join(cfg.storage, "Apple Music")
  }

  // ---------------------------------------------------------------------------------------------
  // apple_rclone_upload

  /** `str(path).replace(base_path, "").lstrip('/')` */
  function RelativePath(path: string, base: string): (r: string)
    ensures r == [] || r[0] != '/'
  {
    LStripChar(RemoveAll(path, base), '/')
  }

  function RcloneCommand(dest: string, rel: string): string {
    "rclone link --config ./rclone.conf \"" + dest + "/" + rel + "\""
  }

  predicate WantsRclone(linkOptions: string) {
    linkOptions == "RCLONE" || linkOptions == "Both"
  }

  predicate WantsIndex(linkOptions: string) {
    linkOptions == "Index" || linkOptions == "Both"
  }

  /** The effects of `apple_rclone_upload` and the pair it returns. */
  datatype Links = Links(effects: seq<Effect>, rclone: Option<string>, index: Option<string>)

  /** `apple_rclone_upload(user, path, base_path)` */
  function RcloneUpload(cfg: Config, path: string, base: string, rclone: string -> RcloneReply): Links {
    if cfg.rcloneDest == "" then Links([], None, None)
    else
      var rel := RelativePath(path, base);
      var cmd := RcloneCommand(cfg.rcloneDest, rel);
      var ran := if WantsRclone(cfg.linkOptions) then [RunShell(cmd)] else [];
      var link := if WantsRclone(cfg.linkOptions) && rclone(cmd).returnCode == 0
                  then Some(Strip(rclone(cmd).stdout)) else None;
      var index := if WantsIndex(cfg.linkOptions) && cfg.indexLink != ""
                   then Some(cfg.indexLink + "/" + rel) else None;
      Links(ran, link, index)
  }

  /** With no rclone destination nothing runs and both links are `None`. */
  lemma RcloneDisabled(cfg: Config, path: string, base: string, rclone: string -> RcloneReply)
    requires cfg.rcloneDest == ""
    ensures RcloneUpload(cfg, path, base, rclone) == Links([], None, None)
  {
  }

  /** The index link exists exactly when a destination is set, the link options ask for it and
      `INDEX_LINK` is set; it is `INDEX_LINK`, a slash and the relative path, with no shell command
      involved. */
  lemma IndexLinkRule(cfg: Config, path: string, base: string, rclone: string -> RcloneReply)
    ensures var l := RcloneUpload(cfg, path, base, rclone);
            (l.index.Some? <==> cfg.rcloneDest != "" && WantsIndex(cfg.linkOptions) && cfg.indexLink != "")
            && (l.index.Some? ==> l.index.value == cfg.indexLink + "/" + RelativePath(path, base))
            && (!WantsRclone(cfg.linkOptions) ==> l.effects == [])
  {
  }

  /** The rclone link exists only when the link options ask for it and the command exits with 0;
      it is then the command's output without surrounding whitespace. */
  lemma RcloneLinkRule(cfg: Config, path: string, base: string, rclone: string -> RcloneReply)
    ensures var l := RcloneUpload(cfg, path, base, rclone);
            var cmd := RcloneCommand(cfg.rcloneDest, RelativePath(path, base));
            (l.rclone.Some? <==> cfg.rcloneDest != "" && WantsRclone(cfg.linkOptions) && rclone(cmd).returnCode == 0)
            && (l.rclone.Some? ==> l.rclone.value == Strip(rclone(cmd).stdout))
            && (l.effects != [] <==> cfg.rcloneDest != "" && WantsRclone(cfg.linkOptions))
            && (l.effects != [] ==> l.effects == [RunShell(cmd)])
  {
  }

  /** Removing every occurrence of a pattern that does not occur leaves the text as it is. */
  lemma {:induction false} RemoveAllAbsent(s: string, pat: string)
    requires pat != [] && !Contains(s, pat)
    ensures RemoveAll(s, pat) == s
    decreases |s|
  {
    if |s| >= |pat| {
      assert !StartsWith(s, pat);
      RemoveAllAbsent(s[1..], pat);
      assert [s[0]] + s[1..] == s;
    }
  }

  /** A path directly below the base, whose remainder does not repeat the base, is stored under
      exactly that remainder. */
  lemma {:induction false} RelativePathOfChild(base: string, rest: string)
    requires base != [] && !Contains("/" + rest, base) && !StartsWith(rest, "/")
    ensures RelativePath(base + "/" + rest, base) == rest
  {
    var s := base + "/" + rest;
    assert s[..|base|] == base;
    assert s[|base|..] == "/" + rest;
    RemoveAllAbsent("/" + rest, base);
    assert ("/" + rest)[1..] == rest;
    assert rest == [] || rest[0] != '/' by {
      if rest != [] { assert rest[..1] == [rest[0]]; }
    }
  }

  /** `"\n📁 [Index Link](<index>)"`, appended to an rclone-mode message when the index link
      is truthy. */
  function IndexSuffix(index: Option<string>): (r: string)
    ensures r != [] <==> index.Some? && index.value != []
    ensures r != [] ==> r == "\n\U{1F4C1} [Index Link](" + index.value + ")"
  {
    if index.Some? && index.value != [] then "\n\U{1F4C1} [Index Link](" + index.value + ")" else ""
  }

  function LinkField(link: Option<string>): Field {
    if link.Some? then FText(link.value) else FNone
  }

  const DirectLinkLine := "\n\U{1F517} [Direct Link]({r_link})"

  /** The message an rclone-mode handler sends: its caption template with the direct-link line,
      the caption arguments with `r_link`, and the index-link suffix. */
  function RcloneNotice(caption: string, args: seq<(string, Field)>, links: Links): Notice {
    Notice(caption + DirectLinkLine, args + [("r_link", LinkField(links.rclone))], IndexSuffix(links.index))
  }

  // ---------------------------------------------------------------------------------------------
  // apple_track_upload and apple_music_video_upload

  datatype Single = Track | Video

  const TrackCaption := "\U{1F3B5} **{title}**\n\U{1F464} {artist}\n\U{1F3A7} Apple Music"
  const VideoCaption := "\U{1F3AC} **{title}**\n\U{1F464} {artist}\n\U{1F3A7} Apple Music Video"

  function SingleCaption(kind: Single): string {
    if kind == Track then TrackCaption else VideoCaption
  }

  function SingleSendKind(kind: Single): string {
    if kind == Track then "audio" else "video"
  }

  /** The keys the send step reads after `'filepath'`, in the order Python evaluates them. */
  function SendKeys(kind: Single, uploadMode: string): seq<string> {
    if uploadMode == "Telegram" then
      (if kind == Track then ["title", "artist", "duration", "thumbnail"] else ["title", "artist"])
    else if uploadMode == "Rclone" then ["title", "artist"]
    else []
  }

  /** The two removals that end a successful track or video upload. */
  function SingleRemovals(m: map<string, Field>): seq<Effect>
    requires "filepath" in m
  {
    [RemoveFile(m["filepath"])]
    + (if "thumbnail" in m && Truthy(m["thumbnail"]) then [RemoveFile(m["thumbnail"])] else [])
  }

  /** The mode-dependent send step, once `metadata['filepath']` has been read. */
  function SingleSend(kind: Single, m: map<string, Field>, cfg: Config, rclone: string -> RcloneReply): Trace
    requires "filepath" in m
  {
    var miss := FirstMissing(m, SendKeys(kind, cfg.uploadMode));
    if cfg.uploadMode == "Telegram" then
      if miss.Some? then Trace([], miss)
      else
        assert SendKeys(kind, cfg.uploadMode)[1] == "artist";
        var caption := Notice(SingleCaption(kind), [("title", m["title"]), ("artist", m["artist"])], "");
        Trace([SendFile(m["filepath"], SingleSendKind(kind), caption)], None)
    else if cfg.uploadMode == "Rclone" then
      var links := RcloneUpload(cfg, PyStr(m["filepath"]), Base(cfg), rclone);
      if miss.Some? then Trace(links.effects, miss)
      else
        assert SendKeys(kind, cfg.uploadMode)[1] == "artist";
        var notice := RcloneNotice(SingleCaption(kind), [("title", m["title"]), ("artist", m["artist"])], links);
        Trace(links.effects + [SendText(notice)], None)
    else Done
  }

  /** `apple_track_upload(metadata, user)` and `apple_music_video_upload(metadata, user)`.
      Every mode reads `metadata['filepath']` before anything else, so a missing path or a
      metadata value that is not a dict raises before any effect. */
  function SingleUpload(kind: Single, meta: Field, cfg: Config, rclone: string -> RcloneReply): Trace {
    var path := Index(meta, "filepath");
    if path.Err? then Trace([], Some(path.error))
    else
      var sent := SingleSend(kind, meta.fields, cfg, rclone);
      if sent.raised.Some? then sent
      else Trace(sent.effects + SingleRemovals(meta.fields), None)
  }

  /** A track or video upload succeeds exactly when the dict holds every key its mode reads; it
      then ends by removing the file and, when one is set, the thumbnail, in every mode. In
      Telegram mode the file is sent first; in rclone mode the message goes after the link
      command. */
  lemma SingleUploadCleanup(kind: Single, meta: Field, cfg: Config, rclone: string -> RcloneReply)
    ensures var t := SingleUpload(kind, meta, cfg, rclone);
            (t.raised.None? <==> meta.FRecord? && "filepath" in meta.fields
                                 && forall k :: k in SendKeys(kind, cfg.uploadMode) ==> k in meta.fields)
            && (t.raised.None? ==>
                  var removals := SingleRemovals(meta.fields);
                  |removals| <= |t.effects| && t.effects[|t.effects| - |removals|..] == removals
                  && (cfg.uploadMode == "Telegram" ==>
                        |t.effects| == 1 + |removals| && t.effects[0].SendFile?
                        && t.effects[0].path == meta.fields["filepath"])
                  && (cfg.uploadMode == "Rclone" ==>
                        t.effects[|t.effects| - |removals| - 1].SendText?)
                  && (cfg.uploadMode != "Telegram" && cfg.uploadMode != "Rclone" ==> t.effects == removals))
  {
    var t := SingleUpload(kind, meta, cfg, rclone);
    if meta.FRecord? && "filepath" in meta.fields {
      var keys := SendKeys(kind, cfg.uploadMode);
      var miss := FirstMissing(meta.fields, keys);
      assert (forall k :: k in keys ==> k in meta.fields) <==> (forall i :: 0 <= i < |keys| ==> keys[i] in meta.fields);
    }
  }

  /** A one-character string where a dict is expected makes every handler raise the same
      `TypeError`, with no effect; this is why `Elements` can stand for looping over a string. */
  lemma IteratingStringsRaises(c: char, cfg: Config, userId: int, rclone: string -> RcloneReply)
    ensures SingleUpload(Track, FText([c]), cfg, rclone) == Trace([], Some(StrIndexError))
    ensures CollectionTrace(Album, FText([c]), cfg, userId, rclone) == Trace([], Some(StrIndexError))
  {
  }

  // ---------------------------------------------------------------------------------------------
  // apple_album_upload, apple_artist_upload and apple_playlist_upload

  datatype Collection = Album | Artist | Playlist

  const AlbumCaption := "\U{1F4BF} **{album}**\n\U{1F464} {artist}\n\U{1F3A7} Apple Music"
  const ArtistCaption := "\U{1F3A4} **{artist}**\n\U{1F3A7} Apple Music Discography"
  const PlaylistCaption := "\U{1F3B5} **{title}**\n\U{1F464} Curated by {artist}\n\U{1F3A7} Apple Music Playlist"

  /** The switch that selects zip delivery in Telegram mode. */
  predicate ZipMode(kind: Collection, cfg: Config) {
    match kind
    case Album => cfg.albumZip
    case Artist => cfg.artistZip
    case Playlist => cfg.playlistZip
  }

  /** The key a non-zip Telegram upload loops over. */
  function ChildKey(kind: Collection): string {
    if kind == Artist then "albums" else "tracks"
  }

  /** The keys a caption reads; the playlist's artist is read with a default. */
  function CaptionKeys(kind: Collection): seq<string> {
    if kind == Album then ["title", "artist"] else ["title"]
  }

  /** The caption template and its arguments. */
  function CollectionCaption(kind: Collection, m: map<string, Field>): (string, seq<(string, Field)>)
    requires forall i :: 0 <= i < |CaptionKeys(kind)| ==> CaptionKeys(kind)[i] in m
  {
    assert CaptionKeys(kind)[0] == "title";
    match kind
    case Album =>
      assert CaptionKeys(kind)[1] == "artist";
      (AlbumCaption, [("album", m["title"]), ("artist", m["artist"])])
    case Artist => (ArtistCaption, [("artist", m["title"])])
    case Playlist =>
      var artist := if "artist" in m then m["artist"] else FText("Various Artists");
      (PlaylistCaption, [("title", m["title"]), ("artist", artist)])
  }

  /** `create_apple_zip(metadata['folderpath'], user['user_id'], metadata)` up to the point where
      the archive is written: the folder and the archive path, or the `KeyError` (of 'folderpath',
      then 'title', then 'artist') it raises first. */
  function ZipArguments(meta: Field, cfg: Config, userId: int): (r: Result<(string, string)>)
    ensures r.Ok? ==> meta.FRecord? && "folderpath" in meta.fields && "title" in meta.fields && "artist" in meta.fields
  {
    var folder := Index(meta, "folderpath");
    if folder.Err? then Err(folder.error)
    else
      var miss := FirstMissing(meta.fields, ["title", "artist"]);
      if miss.Some? then Err(miss.value)
      else
        assert ["title", "artist"][1] == "artist";
        var name := AppleUtils.ZipPath(cfg.storage, IntToString(userId),
                                       PyStr(meta.fields["title"]), PyStr(meta.fields["artist"]));
        Ok((PyStr(folder.value), name))
  }

  const AwaitStrError := "object str can't be used in 'await' expression"

  /** `zip_path = await create_apple_zip(…)` as written: `create_apple_zip` is a plain function, so
      the archive is written and awaiting the path it returns raises a `TypeError`. */
  function ZipAndSendAsWritten(kind: Collection, meta: Field, cfg: Config, userId: int): Trace {
    var args := ZipArguments(meta, cfg, userId);
    if args.Err? then Trace([], Some(args.error))
    else Trace([WriteZip(args.value.0, args.value.1)], Some(AwaitStrError))
  }

  /** The zip delivery with `create_apple_zip` called without `await`: write the archive, send it
      as a document, remove it. */
  function ZipAndSend(kind: Collection, meta: Field, cfg: Config, userId: int): Trace {
    var args := ZipArguments(meta, cfg, userId);
    if args.Err? then Trace([], Some(args.error))
    else
      assert forall i :: 0 <= i < |CaptionKeys(kind)| ==> CaptionKeys(kind)[i] in meta.fields;
      var (template, captionArgs) := CollectionCaption(kind, meta.fields);
      var zip := FText(args.value.1);
      Trace([WriteZip(args.value.0, args.value.1), SendFile(zip, "doc", Notice(template, captionArgs, "")),
             RemoveFile(zip)], None)
  }

  /** As written, zip delivery never sends the archive: it either raises a `KeyError` before
      writing it or writes it and raises the `TypeError`, so neither the archive nor the folder
      is ever removed. */
  lemma ZipAsWrittenNeverDelivers(kind: Collection, meta: Field, cfg: Config, userId: int)
    ensures var t := ZipAndSendAsWritten(kind, meta, cfg, userId);
            t.raised.Some? && |t.effects| <= 1
            && forall i :: 0 <= i < |t.effects| ==> t.effects[i].WriteZip?
    ensures ZipArguments(meta, cfg, userId).Ok? ==>
              ZipAndSendAsWritten(kind, meta, cfg, userId).raised == Some(AwaitStrError)
  {
  }

  /** Corrected, a zip delivery that gets past the `KeyError`s writes the archive, sends it and
      then removes it. */
  lemma ZipSentThenRemoved(kind: Collection, meta: Field, cfg: Config, userId: int)
    ensures var t := ZipAndSend(kind, meta, cfg, userId);
            var args := ZipArguments(meta, cfg, userId);
            (t.raised.None? <==> args.Ok?)
            && (args.Ok? ==>
                  |t.effects| == 3 && t.effects[0] == WriteZip(args.value.0, args.value.1)
                  && t.effects[1].SendFile? && t.effects[1].path == FText(args.value.1)
                  && t.effects[1].kind == "doc"
                  && t.effects[2] == RemoveFile(FText(args.value.1)))
  {
  }

  function Rank(kind: Collection): nat {
    if kind == Artist then 2 else 0
  }

  /** The loop `for track in …: await apple_track_upload(track, user)`. */
  function TracksTrace(items: seq<Field>, cfg: Config, rclone: string -> RcloneReply): Trace {
    if items == [] then Done
    else Then(TracksTrace(items[..|items| - 1], cfg, rclone), SingleUpload(Track, items[|items| - 1], cfg, rclone))
  }

  /** The loop `for album in …: await apple_album_upload(album, user)`. */
  function AlbumsTrace(items: seq<Field>, cfg: Config, userId: int, rclone: string -> RcloneReply): Trace
    decreases 1, |items|
  {
    if items == [] then Done
    else Then(AlbumsTrace(items[..|items| - 1], cfg, userId, rclone),
              CollectionTrace(Album, items[|items| - 1], cfg, userId, rclone))
  }

  /** The mode-dependent part of a collection handler, before the folder is removed. */
  function CollectionSend(kind: Collection, meta: Field, cfg: Config, userId: int,
                          rclone: string -> RcloneReply): Trace
    decreases Rank(kind), 0
  {
    if cfg.uploadMode == "Telegram" then
      if ZipMode(kind, cfg) then ZipAndSendAsWritten(kind, meta, cfg, userId)
      else
        var children := Index(meta, ChildKey(kind));
        if children.Err? then Trace([], Some(children.error))
        else
          var elements := Elements(children.value);
          if elements.Err? then Trace([], Some(elements.error))
          else if kind == Artist then AlbumsTrace(elements.value, cfg, userId, rclone)
          else TracksTrace(elements.value, cfg, rclone)
    else if cfg.uploadMode == "Rclone" then
      var folder := Index(meta, "folderpath");
      if folder.Err? then Trace([], Some(folder.error))
      else
        var links := RcloneUpload(cfg, PyStr(folder.value), Base(cfg), rclone);
        var miss := FirstMissing(meta.fields, CaptionKeys(kind));
        if miss.Some? then Trace(links.effects, miss)
        else
          var (template, args) := CollectionCaption(kind, meta.fields);
          Trace(links.effects + [SendText(RcloneNotice(template, args, links))], None)
    else Done
  }

  /** A collection handler: the send step, then `shutil.rmtree(metadata['folderpath'])`. */
  function CollectionTrace(kind: Collection, meta: Field, cfg: Config, userId: int,
                           rclone: string -> RcloneReply): Trace
    decreases Rank(kind), 1
  {
    var sent := CollectionSend(kind, meta, cfg, userId, rclone);
    if sent.raised.Some? then sent
    else
      var folder := Index(meta, "folderpath");
      if folder.Err? then Trace(sent.effects, Some(folder.error))
      else Trace(sent.effects + [RemoveTree(folder.value)], None)
  }

  /** A collection handler that completes has removed its folder as its last effect, in every
      mode. */
  lemma CollectionCleanup(kind: Collection, meta: Field, cfg: Config, userId: int,
                          rclone: string -> RcloneReply)
    ensures var t := CollectionTrace(kind, meta, cfg, userId, rclone);
            t.raised.None? ==> meta.FRecord? && "folderpath" in meta.fields && t.effects != []
                               && t.effects[|t.effects| - 1] == RemoveTree(meta.fields["folderpath"])
  {
  }

  /** In Telegram mode with zips enabled a collection handler stops at the `TypeError` (or an
      earlier `KeyError`): nothing is sent and the downloaded folder stays on disk. */
  lemma ZipModeHandlerRaises(kind: Collection, meta: Field, cfg: Config, userId: int,
                             rclone: string -> RcloneReply)
    requires cfg.uploadMode == "Telegram" && ZipMode(kind, cfg)
    ensures var t := CollectionTrace(kind, meta, cfg, userId, rclone);
            t.raised.Some? && t == ZipAndSendAsWritten(kind, meta, cfg, userId)
            && (ZipArguments(meta, cfg, userId).Ok? ==> t.raised == Some(AwaitStrError))
            && forall i :: 0 <= i < |t.effects| ==> t.effects[i].WriteZip?
  {
    ZipAsWrittenNeverDelivers(kind, meta, cfg, userId);
  }

  /** Once a loop step raises, the later items change nothing. */
  lemma {:induction false} TracksTraceStops(items: seq<Field>, i: nat, cfg: Config, rclone: string -> RcloneReply)
    requires i <= |items| && TracksTrace(items[..i], cfg, rclone).raised.Some?
    ensures TracksTrace(items, cfg, rclone) == TracksTrace(items[..i], cfg, rclone)
    decreases |items|
  {
    if i < |items| {
      var init := items[..|items| - 1];
      assert init[..i] == items[..i];
      TracksTraceStops(init, i, cfg, rclone);
    } else {
      assert items[..i] == items;
    }
  }

  lemma {:induction false} AlbumsTraceStops(items: seq<Field>, i: nat, cfg: Config, userId: int,
                                            rclone: string -> RcloneReply)
    requires i <= |items| && AlbumsTrace(items[..i], cfg, userId, rclone).raised.Some?
    ensures AlbumsTrace(items, cfg, userId, rclone) == AlbumsTrace(items[..i], cfg, userId, rclone)
    decreases |items|
  {
    if i < |items| {
      var init := items[..|items| - 1];
      assert init[..i] == items[..i];
      AlbumsTraceStops(init, i, cfg, userId, rclone);
    } else {
      assert items[..i] == items;
    }
  }

  /** The concatenation of effect lists. */
  function Flatten(parts: seq<seq<Effect>>): seq<Effect> {
    if parts == [] then [] else Flatten(parts[..|parts| - 1]) + parts[|parts| - 1]
  }

  /** The effects of each track's upload, in list order. */
  function TrackParts(items: seq<Field>, cfg: Config, rclone: string -> RcloneReply): (r: seq<seq<Effect>>)
    ensures |r| == |items|
  {
    seq(|items|, i requires 0 <= i < |items| => SingleUpload(Track, items[i], cfg, rclone).effects)
  }

  /** The effects of each album's upload, in list order. */
  function AlbumParts(items: seq<Field>, cfg: Config, userId: int, rclone: string -> RcloneReply): (r: seq<seq<Effect>>)
    ensures |r| == |items|
  {
    seq(|items|, i requires 0 <= i < |items| => CollectionTrace(Album, items[i], cfg, userId, rclone).effects)
  }

  /** Runs in turn, stopping at the first that raises. */
  function Sequence(ts: seq<Trace>): Trace {
    if ts == [] then Done else Then(Sequence(ts[..|ts| - 1]), ts[|ts| - 1])
  }

  function EffectsOf(ts: seq<Trace>): (r: seq<seq<Effect>>)
    ensures |r| == |ts| && forall i :: 0 <= i < |ts| ==> r[i] == ts[i].effects
  {
    seq(|ts|, i requires 0 <= i < |ts| => ts[i].effects)
  }

  /** Runs in turn that complete have each completed, and their effects are concatenated in order. */
  lemma {:induction false} SequenceInOrder(ts: seq<Trace>)
    ensures Sequence(ts).raised.None? ==>
              (forall i :: 0 <= i < |ts| ==> ts[i].raised.None?)
              && Sequence(ts).effects == Flatten(EffectsOf(ts))
    decreases |ts|
  {
    if ts != [] && Sequence(ts).raised.None? {
      var n := |ts|;
      var init := ts[..n - 1];
      SequenceInOrder(init);
      assert Sequence(init).raised.None?;
      forall i | 0 <= i < n ensures ts[i].raised.None? {
        if i < n - 1 { assert ts[i] == init[i]; }
      }
      assert EffectsOf(ts)[..n - 1] == EffectsOf(init);
    }
  }

  /** The uploads the track loop runs, one per item. */
  function TrackRuns(items: seq<Field>, cfg: Config, rclone: string -> RcloneReply): (r: seq<Trace>)
    ensures |r| == |items| && forall i :: 0 <= i < |items| ==> r[i] == SingleUpload(Track, items[i], cfg, rclone)
  {
    seq(|items|, i requires 0 <= i < |items| => SingleUpload(Track, items[i], cfg, rclone))
  }

  /** The uploads the album loop runs, one per item. */
  function AlbumRuns(items: seq<Field>, cfg: Config, userId: int, rclone: string -> RcloneReply): (r: seq<Trace>)
    ensures |r| == |items| && forall i :: 0 <= i < |items| ==> r[i] == CollectionTrace(Album, items[i], cfg, userId, rclone)
  {
    seq(|items|, i requires 0 <= i < |items| => CollectionTrace(Album, items[i], cfg, userId, rclone))
  }

  lemma {:induction false} TracksAreSequence(items: seq<Field>, cfg: Config, rclone: string -> RcloneReply)
    ensures TracksTrace(items, cfg, rclone) == Sequence(TrackRuns(items, cfg, rclone))
    decreases |items|
  {
    if items != [] {
      var init := items[..|items| - 1];
      TracksAreSequence(init, cfg, rclone);
      assert TrackRuns(items, cfg, rclone)[..|items| - 1] == TrackRuns(init, cfg, rclone);
    }
  }

  lemma {:induction false} AlbumsAreSequence(items: seq<Field>, cfg: Config, userId: int, rclone: string -> RcloneReply)
    ensures AlbumsTrace(items, cfg, userId, rclone) == Sequence(AlbumRuns(items, cfg, userId, rclone))
    decreases |items|
  {
    if items != [] {
      var init := items[..|items| - 1];
      AlbumsAreSequence(init, cfg, userId, rclone);
      assert AlbumRuns(items, cfg, userId, rclone)[..|items| - 1] == AlbumRuns(init, cfg, userId, rclone);
    }
  }

  /** A track loop that completes has run every track's upload in order, each completing. */
  lemma TracksInOrder(items: seq<Field>, cfg: Config, rclone: string -> RcloneReply)
    ensures var t := TracksTrace(items, cfg, rclone);
            t.raised.None? ==>
              (forall i :: 0 <= i < |items| ==> SingleUpload(Track, items[i], cfg, rclone).raised.None?)
              && t.effects == Flatten(TrackParts(items, cfg, rclone))
  {
    var runs := TrackRuns(items, cfg, rclone);
    TracksAreSequence(items, cfg, rclone);
    SequenceInOrder(runs);
    assert EffectsOf(runs) == TrackParts(items, cfg, rclone);
  }

  /** An album loop that completes has run every album's upload in order, each completing. */
  lemma AlbumsInOrder(items: seq<Field>, cfg: Config, userId: int, rclone: string -> RcloneReply)
    ensures var t := AlbumsTrace(items, cfg, userId, rclone);
            t.raised.None? ==>
              (forall i :: 0 <= i < |items| ==> CollectionTrace(Album, items[i], cfg, userId, rclone).raised.None?)
              && t.effects == Flatten(AlbumParts(items, cfg, userId, rclone))
  {
    var runs := AlbumRuns(items, cfg, userId, rclone);
    AlbumsAreSequence(items, cfg, userId, rclone);
    SequenceInOrder(runs);
    assert EffectsOf(runs) == AlbumParts(items, cfg, userId, rclone);
  }

  /** In Telegram mode without zips a completed collection upload is the uploads of its children,
      in list order, followed by the removal of the folder. */
  lemma FanOutThenCleanup(kind: Collection, meta: Field, cfg: Config, userId: int,
                          rclone: string -> RcloneReply)
    requires cfg.uploadMode == "Telegram" && !ZipMode(kind, cfg)
    requires meta.FRecord? && ChildKey(kind) in meta.fields && meta.fields[ChildKey(kind)].FList?
    ensures var t := CollectionTrace(kind, meta, cfg, userId, rclone);
            var items := meta.fields[ChildKey(kind)].items;
            t.raised.None? ==>
              t.effects == (if kind == Artist then AlbumsTrace(items, cfg, userId, rclone).effects
                            else TracksTrace(items, cfg, rclone).effects)
                           + [RemoveTree(meta.fields["folderpath"])]
  {
  }

  // ---------------------------------------------------------------------------------------------
  // The handlers, with their loops

  method FanOutTracks(items: seq<Field>, cfg: Config, rclone: string -> RcloneReply) returns (t: Trace)
    ensures t == TracksTrace(items, cfg, rclone)
  {
    t := Done;
    var i := 0;
    while i < |items| && t.raised.None?
      invariant 0 <= i <= |items|
      invariant t == TracksTrace(items[..i], cfg, rclone)
    {
      assert items[..i + 1][..i] == items[..i];
      t := Then(t, SingleUpload(Track, items[i], cfg, rclone));
      i := i + 1;
    }
    if i < |items| {
      TracksTraceStops(items, i, cfg, rclone);
    } else {
      assert items[..i] == items;
    }
  }

  method FanOutAlbums(items: seq<Field>, cfg: Config, userId: int, rclone: string -> RcloneReply)
    returns (t: Trace)
    ensures t == AlbumsTrace(items, cfg, userId, rclone)
  {
    t := Done;
    var i := 0;
    while i < |items| && t.raised.None?
      invariant 0 <= i <= |items|
      invariant t == AlbumsTrace(items[..i], cfg, userId, rclone)
    {
      assert items[..i + 1][..i] == items[..i];
      var u := AlbumUpload(items[i], cfg, userId, rclone);
      t := Then(t, u);
      i := i + 1;
    }
    if i < |items| {
      AlbumsTraceStops(items, i, cfg, userId, rclone);
    } else {
      assert items[..i] == items;
    }
  }

  /** The removal of the folder that ends every collection handler that has not raised. */
  method RemoveFolder(meta: Field, sent: Trace) returns (t: Trace)
    ensures sent.raised.Some? ==> t == sent
    ensures sent.raised.None? && Index(meta, "folderpath").Err? ==>
              t == Trace(sent.effects, Some(Index(meta, "folderpath").error))
    ensures sent.raised.None? && Index(meta, "folderpath").Ok? ==>
              t == Trace(sent.effects + [RemoveTree(meta.fields["folderpath"])], None)
  {
    t := sent;
    if t.raised.None? {
      var folder := Index(meta, "folderpath");
      if folder.Err? {
        t := Trace(t.effects, Some(folder.error));
      } else {
        t := Trace(t.effects + [RemoveTree(folder.value)], None);
      }
    }
  }

  /** `apple_album_upload(metadata, user)` */
  method AlbumUpload(meta: Field, cfg: Config, userId: int, rclone: string -> RcloneReply) returns (t: Trace)
    ensures t == CollectionTrace(Album, meta, cfg, userId, rclone)
  {
    var sent: Trace;
    if cfg.uploadMode == "Telegram" && !cfg.albumZip {
      var tracks := Index(meta, "tracks");
      var elements := if tracks.Ok? then Elements(tracks.value) else Err(tracks.error);
      if elements.Err? {
        sent := Trace([], Some(elements.error));
      } else {
        sent := FanOutTracks(elements.value, cfg, rclone);
      }
    } else {
      sent := CollectionSend(Album, meta, cfg, userId, rclone);
    }
    t := RemoveFolder(meta, sent);
  }

  /** `apple_artist_upload(metadata, user)` */
  method ArtistUpload(meta: Field, cfg: Config, userId: int, rclone: string -> RcloneReply) returns (t: Trace)
    ensures t == CollectionTrace(Artist, meta, cfg, userId, rclone)
  {
    var sent: Trace;
    if cfg.uploadMode == "Telegram" && !cfg.artistZip {
      var albums := Index(meta, "albums");
      var elements := if albums.Ok? then Elements(albums.value) else Err(albums.error);
      if elements.Err? {
        sent := Trace([], Some(elements.error));
      } else {
        sent := FanOutAlbums(elements.value, cfg, userId, rclone);
      }
    } else {
      sent := CollectionSend(Artist, meta, cfg, userId, rclone);
    }
    t := RemoveFolder(meta, sent);
  }

  /** `apple_playlist_upload(metadata, user)` */
  method PlaylistUpload(meta: Field, cfg: Config, userId: int, rclone: string -> RcloneReply) returns (t: Trace)
    ensures t == CollectionTrace(Playlist, meta, cfg, userId, rclone)
  {
    var sent: Trace;
    if cfg.uploadMode == "Telegram" && !cfg.playlistZip {
      var tracks := Index(meta, "tracks");
      var elements := if tracks.Ok? then Elements(tracks.value) else Err(tracks.error);
      if elements.Err? {
        sent := Trace([], Some(elements.error));
      } else {
        sent := FanOutTracks(elements.value, cfg, rclone);
      }
    } else {
      sent := CollectionSend(Playlist, meta, cfg, userId, rclone);
    }
    t := RemoveFolder(meta, sent);
  }
}
