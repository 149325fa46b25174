# Apple Music download-and-deliver pipeline, modelled in Dafny

This project models the Apple Music path of a Telegram music bot: how it takes a link, runs an external
downloader, reads tags from the downloaded files, classifies them, and delivers them. The model
covers:

- **Download command** (`bot/modules/download.py`): `parse_options`, a while loop over token
  indices that fills an insertion-ordered dict, and the prefix router `start_link`.
- **Apple utilities** (`bot/providers/apple/utils.py`):
  - the URL validator (three regular expressions, written here as explicit recognisers);
  - content-ID extraction, with its `"unknown"` fallback;
  - the option-to-flag whitelist;
  - the quality-label table and the supported-formats list;
  - the placement of the zip archive.
- **Downloader** (`bot/providers/apple/downloader.py`):
  - the layout of the downloader's argument vector;
  - the `(\d+)%` progress parser;
  - the progress throttle of `_monitor_download_process`, with `last_progress` and the multiple-of-5
    rule;
  - the choice of error text on a non-zero exit;
  - the unthrottled, raising `_handle_progress` loop;
  - `handle_apple_download`, as a sequence of events;
  - the module's duplicate `build_apple_options`.
- **Metadata** (`bot/providers/apple/metadata.py`):
  - the choice of strategy by extension;
  - the three record builders, with their tag defaults;
  - the sibling-cover rule;
  - the never-failing fallback record.
- **Processor** (`bot/providers/apple/apple.py`, `AppleMusicCore`):
  - the media-file filter;
  - the bundle built from the first item;
  - the precedence of content types;
  - the dispatch to an upload handler;
  - the stage sequence of `process`, with cleanup on both exits.
- **Uploader** (`bot/providers/apple/uploader.py`):
  - the relative path, the rclone link and the index link computed by `apple_rclone_upload`;
  - the effects of the five `apple_*_upload` handlers: what they send, what they remove, and the
    order of their fan-out.

## Modules and what each models

Each module models one source file.

| Module | Source file | How it is modelled |
|---|---|---|
| `AppleUtils` | `utils.py` | Functions, plus a `BuildAppleOptions` method with a loop. |
| `AppleDownloader` | `downloader.py` | Functions for the parser and the throttle. The loops of `_monitor_download_process` and `_handle_progress` are methods, proved against those functions. |
| `DownloadCommand` | `download.py` | `ParseOptions` is the index-driven loop, proved against `OptionsOf`. |
| `AppleMetadata` | `metadata.py` | Pure functions. |
| `AppleCore` | `apple.py` | `ProcessContent`, `HandleUpload`, `Process` and `Deliver` are methods, proved against `Content`, `UploadTrace` and `ProcessRun`. |
| `AppleUploader` | `uploader.py` | A handler run is a `Trace`: the effects in order, then the exception raised, if any. The handlers are methods that fan out with loops. |

Helper modules:

- `Wrappers` provides `Option` and `Result`.
- `PyText` models the Python string operations used: `startswith`, `strip`, `lstrip`, `replace`,
  `os.path.join`, `basename`, `splitext`, and `str`/`int` on naturals.
- `PyDict` models a Python dict as a sequence of pairs in insertion order. Assigning to an
  existing key keeps its position.

What the model takes as inputs:

- **Subprocesses.** Each one is an input value: the stdout lines, the stderr text and the exit
  status. The `rclone link` reply is an oracle, a function of the command text.
- **Directory scan.** The files `os.walk` finds are a sequence in walk order.
- **Tags.** What the tag library yields for a file is an oracle: a map from tag names to value
  lists, or `None` when the file cannot be read.
- **Configuration.** The `Config` and `bot_set` values are parameters.

An exception is modelled as the text `str(e)` would give. A `KeyError`, for example, is the key
in quotes.

### Behaviour of the code worth knowing

- **Progress throttle.** The monitor compares each parsed value with `last_progress`, and
  `last_progress` takes every non-zero value that differs from it. The multiple-of-5 test sits
  in `_update_progress`, after that assignment. So `5, 6, 5` edits for 5 twice
  (`AppleDownloader.ThrottleExampleReturn`).
- **Output lines.** Neither progress loop looks for error patterns in the output. Every line is
  either progress or ignored, and only the exit status decides failure.
- **Fallback record.** The fallback uses the file's basename as the title and `'Unknown Artist'`
  as the artist (`AppleMetadata.DefaultMetadataShape`).
- **Handler keys.** The processor builds its bundle with the key `'items'`, but the handlers read
  `'filepath'`, `'tracks'` and `'albums'`. The model keeps this mismatch, and
  `AppleCore.BundleMismatch` states what it leads to.
- **Zip delivery.** The collection handlers `await` the plain function `create_apple_zip`. The
  handlers in this model keep that behaviour, which raises a `TypeError` (see "## Findings").

## Model

| member | source | states |
|---|---|---|
| AppleUtils.ValidateAppleUrl | bot/providers/apple/utils.py:21-26 | The URL is accepted iff it matches the first pattern: `https://music.apple.com/`, then a non-empty newline-free segment, then `/<kind>/` for one of the five kinds, then at least one more character. There is no end anchor. |
| AppleUtils.MatchesPatternIff | bot/providers/apple/utils.py:22-24 | The executable recogniser agrees with the declarative reading of the regular expression, in both directions. |
| AppleUtils.ScanSplitsIff | bot/providers/apple/utils.py:22 | Scanning slash positions from left to right finds a match exactly when some way of splitting `.+/(kind)/.+` fits the URL; this is the backtracking of `.+`. |
| AppleUtils.KindAtIff | bot/providers/apple/utils.py:22 | The alternation of the five kinds (album, song, playlist, music-video, artist) matches at a position iff one of the listed kinds fits there. |
| AppleUtils.PatternSubsumed | bot/providers/apple/utils.py:22-24 | A pattern whose set of kinds is contained in another's matches only URLs the larger one matches. |
| AppleUtils.PatternsRedundant | bot/providers/apple/utils.py:22-24 | The `album` pattern and the `playlist` pattern accept nothing that the first pattern rejects. |
| AppleUtils.ValidateAppleUrlAcceptsAlbum | bot/providers/apple/utils.py:21-26 | `https://music.apple.com/us/album/name/123` is accepted. |
| AppleUtils.ValidateAppleUrlRejectsUnknownKind | bot/providers/apple/utils.py:21-26 | `https://music.apple.com/us/unknown/123` is rejected. |
| AppleUtils.FindId | bot/providers/apple/utils.py:36 | The search returns the ID at the leftmost position where `/<kind>/<segment>/<digits>` occurs, and returns none iff it occurs nowhere. |
| AppleUtils.ExtractContentId | bot/providers/apple/utils.py:36-37 | The result is `"unknown"` or a non-empty all-digit string. It is `"unknown"` iff no position matches; otherwise it is the digit run of the leftmost match. |
| AppleUtils.NotUnknown | bot/providers/apple/utils.py:37 | A digit string is never `"unknown"`, so the fallback cannot be mistaken for an ID. |
| AppleUtils.OptionTokens | bot/providers/apple/utils.py:86-107 | The tokens `build_apple_options` emits, entry by entry in the dict's order; the loop and the next rows are proved against it. |
| AppleUtils.OptionMapSpellsKeys | bot/providers/apple/utils.py:87-99 | Each of the 11 whitelisted keys maps to `--` followed by the key. |
| AppleUtils.BuildAppleOptions | bot/providers/apple/utils.py:86-107 | The loop emits exactly the per-entry tokens, in the dict's order. An entry contributes the flag alone for a boolean (`False` included), the flag then `str(value)` otherwise, and nothing for a key outside the whitelist. |
| AppleUtils.OptionTokensAppend | bot/providers/apple/utils.py:101-106 | The tokens of two dicts laid end to end are the first dict's tokens followed by the second's: output order follows the input's order. |
| AppleUtils.UnknownKeyIgnored | bot/providers/apple/utils.py:101-102 | Inserting an entry whose key is outside the whitelist anywhere in the dict leaves the tokens unchanged. |
| AppleUtils.OptionTokensFromWhitelist | bot/providers/apple/utils.py:101-106 | Every token emitted is a whitelisted flag or the value of a whitelisted entry. |
| AppleUtils.FormatAppleQuality | bot/providers/apple/utils.py:134-155 | Reads the setting `APPLE_<FORMAT>_QUALITY` first, then indexes the table by format, then looks the setting up with the `'Unknown Quality'` default; its properties are in the next two rows. |
| AppleUtils.FormatAppleQualityUnknown | bot/providers/apple/utils.py:142-155 | A missing setting raises the `AttributeError` naming `APPLE_<FORMAT>_QUALITY`. With the setting present, a format other than `alac` or `atmos` raises the `KeyError` of the format. For the two formats, the result is `'Unknown Quality'` iff the configured code is not a key of the format's table. |
| AppleUtils.QualitySettingNames | bot/providers/apple/utils.py:154 | The setting read is the format upper-cased: `APPLE_ALAC_QUALITY` and `APPLE_ATMOS_QUALITY`. |
| AppleUtils.AppleSupportedFormats | bot/providers/apple/utils.py:157-166 | The supported codes of each format as strings; the next three rows relate them to the table. |
| AppleUtils.SupportedCodesRendered | bot/providers/apple/utils.py:157-166 | Both the supported-formats list and the table have the keys `alac` and `atmos`. Each list holds, in order, the decimal spellings of the table's codes. |
| AppleUtils.LabelledCodesSupported | bot/providers/apple/utils.py:142-166 | Every code with a label appears, spelled in decimal, in its format's supported list. |
| AppleUtils.SupportedCodeHasLabel | bot/providers/apple/utils.py:142-166 | Every supported code, read as an integer, is a key of its format's table, so it never yields `'Unknown Quality'`. |
| AppleUtils.ZipPathPlacement | bot/providers/apple/utils.py:179-181 | For a relative title, the archive path lies under `<storage>/Zips/<user id>` and ends with `<title> - <artist>.zip`. An absolute title replaces the directory, as `os.path.join` does. |
| AppleUtils.JoinShape | bot/providers/apple/utils.py:48-52 | `os.path.join(a, b)` starts with `a` and ends with `b` when `b` is relative, and is `b` itself when `b` is absolute. |
| AppleDownloader.SearchPercent | bot/providers/apple/downloader.py:102 | The search finds the leftmost position where a digit run followed by `%` starts, and finds none iff there is no such position. |
| AppleDownloader.ParseProgress | bot/providers/apple/downloader.py:100-103 | The first capture of `(\d+)%` as a number, or `None`; characterised by the next four rows. |
| AppleDownloader.ParseProgressNone | bot/providers/apple/downloader.py:100-103 | The result is `None` iff no `%` in the line has a digit immediately before it. |
| AppleDownloader.ParseProgressSome | bot/providers/apple/downloader.py:100-103 | A result is the value of a full digit run that ends at a `%`, with no earlier `%` preceded by a digit. |
| AppleDownloader.ParseProgressCaptures | bot/providers/apple/downloader.py:100-103 | Conversely, such a capture is what the parser returns. |
| AppleDownloader.CapturesUnique | bot/providers/apple/downloader.py:102 | At most one digit run qualifies as that capture. |
| AppleDownloader.ParseProgressExample | bot/providers/apple/downloader.py:100-103 | `Track 12 of 20: 45%` parses to 45, not 12. |
| AppleDownloader.StripAll | bot/providers/apple/downloader.py:74-75 | Every stdout line is kept stripped, in arrival order. |
| AppleDownloader.MonitorDownloadProcess | bot/providers/apple/downloader.py:60-97 | The loop stores the stripped lines, sends the edits the throttle selects (only when progress is reported to a user), and returns the result chosen from the exit status. |
| AppleDownloader.ThrottledEdits | bot/providers/apple/downloader.py:77-113 | The values the monitor sends edits for, line by line; characterised by the next five rows. |
| AppleDownloader.ThrottleSnoc | bot/providers/apple/downloader.py:77-81 | One more line updates `last_progress` iff its value is non-zero. It adds an edit iff the value is non-zero, differs from `last_progress` and is a multiple of 5. |
| AppleDownloader.LastProgressIsLastNonZero | bot/providers/apple/downloader.py:79-81 | `last_progress` is the last non-zero parsed value, or 0 when there is none, whether or not an edit was sent for it. |
| AppleDownloader.ThrottledEditsShape | bot/providers/apple/downloader.py:77-113 | Every edit is for a positive multiple of 5. There are no more edits than lines, and a value repeated on consecutive lines is never sent twice in a row. |
| AppleDownloader.ThrottleExampleRepeat | bot/providers/apple/downloader.py:79-81 | Values `1,4,5,5,9,10` give edits for 5 and 10 only. |
| AppleDownloader.ThrottleExampleReturn | bot/providers/apple/downloader.py:79-81 | Values `5,6,5` give an edit for 5 twice. |
| AppleDownloader.ErrorText | bot/providers/apple/downloader.py:87 | The stripped stderr, or the last five stored lines joined by newlines. |
| AppleDownloader.MonitorResult | bot/providers/apple/downloader.py:86-93 | A non-zero exit is a failure carrying the error text; exit 0 is success. |
| AppleDownloader.ErrorTextChoice | bot/providers/apple/downloader.py:87-90 | The error is the stripped stderr when that is non-empty. Otherwise it is the last five (or fewer) stdout lines joined with newlines, which starts with the first of them and ends with the last line. |
| AppleDownloader.HandleProgress | bot/providers/apple/downloader.py:219-239 | The edits are one per reported value, and the exception is either the one from the loop or, on a non-zero exit, `Downloader failed: ` followed by the stripped stderr or `Unknown error`. |
| AppleDownloader.HandleLines | bot/providers/apple/downloader.py:221-233 | The loop over stdout lines produces exactly the edits and the exception of the line-by-line trace. |
| AppleDownloader.HandleTrace | bot/providers/apple/downloader.py:221-233 | The values `_handle_progress` reports line by line and the exception it raises, if any; characterised by the next five rows. |
| AppleDownloader.HandleTraceStops | bot/providers/apple/downloader.py:227-228 | Once a line raises, later lines change nothing. |
| AppleDownloader.HandleTraceShape | bot/providers/apple/downloader.py:227-233 | The loop raises iff some line has a `%` with no digit before any `%`, and then raises the `NoneType` error. Every reported value is a multiple of 5, 0 included. |
| AppleDownloader.HandleReportsAllFives | bot/providers/apple/downloader.py:227-233 | When no line raises, the reported values are exactly the parsed values of the lines with `%` that are multiples of 5, in line order, with repeats and 0 kept (`Fives`, an independent front-to-back filter). |
| AppleDownloader.HandleReportsUpToFailure | bot/providers/apple/downloader.py:227-233 | When line `k` is the first to raise, the reports are the multiples of 5 among the lines before it, and the error is the `NoneType` one. |
| AppleDownloader.HandleReportsEach | bot/providers/apple/downloader.py:227-233 | `_handle_progress` reports `5%, 5%, 0%` as 5, 5 and 0: there is no de-duplication, and 0 is reported. |
| AppleDownloader.MonitorReportsOnce | bot/providers/apple/downloader.py:77-81 | The monitor reports the same lines once, as 5. |
| AppleDownloader.HandleVersusMonitor | bot/providers/apple/downloader.py:219-239 | The two progress loops disagree on the same output. |
| AppleDownloader.DownloaderCommand | bot/providers/apple/downloader.py:37-42 | The command is the downloader path, the option tokens, `--output`, the output directory, and the URL last. |
| AppleDownloader.RunAppleDownloader | bot/providers/apple/downloader.py:17-57 | A missing downloader yields the not-found error and runs nothing. Otherwise the options are spliced verbatim, without the whitelist, and the result and edits are those of the monitor. |
| AppleDownloader.HandleAppleDownload | bot/providers/apple/downloader.py:118-171 | The method produces the event sequence of `handle_apple_download`. |
| AppleDownloader.DownloadEvents | bot/providers/apple/downloader.py:118-171 | The events of `handle_apple_download` in order; characterised by the next three rows. |
| AppleDownloader.InvalidUrlStopsEarly | bot/providers/apple/downloader.py:128-130 | An invalid URL yields only the "Invalid Apple Music URL" edit. |
| AppleDownloader.SpawnOnlyWhenReady | bot/providers/apple/downloader.py:126-162 | A process is spawned iff the URL is valid and no tool is missing. The spawn comes first, its URL is last, and its options are the whitelisted tokens. |
| AppleDownloader.CleanupOnBothExits | bot/providers/apple/downloader.py:162-171 | For a valid URL, cleanup happens exactly once, as the last or next-to-last event, on the success path and on the error path alike. |
| AppleDownloader.OptionMapsAgree | bot/providers/apple/downloader.py:242-257 | The duplicate option map equals the one in `utils.py`. |
| AppleDownloader.BuildAppleOptions | bot/providers/apple/downloader.py:242-266 | The duplicate `build_apple_options` emits the same tokens as the one it shadows, for every input. |
| DownloadCommand.ParseOptions | bot/modules/download.py:57-78 | The index-driven loop terminates and builds exactly the dict the token-by-token reading gives. |
| DownloadCommand.OptionsKeys | bot/modules/download.py:66-77 | The dict's keys are distinct, and they are exactly the tokens starting with `--`, minus those two characters. Any other token contributes no key. |
| DownloadCommand.LastOccurrenceWins | bot/modules/download.py:71-76 | For the last occurrence of a key, the value is the next token when that exists and does not start with `--`, otherwise `True`. |
| DownloadCommand.ReadCommand | bot/modules/download.py:20-31 | Reading a command takes the options from the words after the command. The link comes from the reply, or is the last word. |
| DownloadCommand.FlagBeforeLinkCapturesIt | bot/modules/download.py:28-31 | A `--flag` directly before the link takes the link as its value. |
| DownloadCommand.ParseRenderRoundTrip | bot/modules/download.py:68-77 | Parsing the rendering of a dict gives the dict back. This holds for distinct keys, true booleans, and values that do not start with `--`. |
| DownloadCommand.ParseAppendedOption | bot/modules/download.py:70-76 | Appending `--key` (and its value) for a new key adds exactly that entry at the end. |
| DownloadCommand.BuildThenParse | bot/modules/download.py:57-78 | The flags `build_apple_options` emits for whitelisted options parse back to those options. |
| DownloadCommand.BuildIsRender | bot/providers/apple/utils.py:101-106 | For whitelisted keys, the option tokens are the `--key value` rendering. |
| DownloadCommand.StartLink | bot/modules/download.py:81-108 | The branch `start_link` takes, tried in the order Tidal, Deezer, Qobuz, Spotify, Apple Music, and the provider afterwards; characterised by the next four rows. |
| DownloadCommand.UnsupportedIffUnknownPrefix | bot/modules/download.py:90-108 | A link gets the unsupported-link reply iff it starts with none of the listed prefixes. |
| DownloadCommand.ProviderOnlyForQobuz | bot/modules/download.py:100-102 | Only the Qobuz branch sets the provider, and it sets it to `'Qobuz'`. |
| DownloadCommand.AppleLinksReachApple | bot/modules/download.py:90-106 | A link starting with `https://music.apple.com` matches no earlier prefix and reaches the Apple handler. |
| DownloadCommand.ValidAppleUrlsReachApple | bot/modules/download.py:94-106 | Every URL the validator accepts is routed to the Apple handler. |
| AppleMetadata.ExtractAppleMetadata | bot/providers/apple/metadata.py:9-28 | The record of the strategy the extension selects, or the fallback record when it raises; characterised by the rows below. |
| AppleMetadata.StrategyFor | bot/providers/apple/metadata.py:20-25 | `.m4a`, then `.mp4`/`.m4v`/`.mov`, else generic (see `DispatchByExtension`). |
| AppleMetadata.M4aMetadata | bot/providers/apple/metadata.py:30-45 | The `.m4a` record from the MP4 atoms; raising is `None` (see `MissingTagsDefault`, `ExplicitRule`, `EmptyTagFallsBack`). |
| AppleMetadata.VideoMetadata | bot/providers/apple/metadata.py:47-60 | The video record with width, height and resolution; raising is `None` (see `DefaultResolution`). |
| AppleMetadata.GenericMetadata | bot/providers/apple/metadata.py:62-77 | The record from the generic tag names; raising is `None`. |
| AppleMetadata.CoverArt | bot/providers/apple/metadata.py:79-95 | The cover written beside the file, or `None` (see `CoverPreference`, `CoverIsSibling`). |
| AppleMetadata.DefaultMetadata | bot/providers/apple/metadata.py:97-111 | The fallback record (see `DefaultMetadataShape`). |
| AppleMetadata.First | bot/providers/apple/metadata.py:34 | `get(key, [default])[0]` is the default for a missing tag and the first value of a present one. It raises for an empty list. |
| AppleMetadata.DispatchByExtension | bot/providers/apple/metadata.py:20-25 | `.m4a` goes to the audio strategy; `.mp4`, `.m4v` and `.mov` go to the video strategy; `.flac` goes to the generic one. |
| AppleMetadata.UnreadableFileFallsBack | bot/providers/apple/metadata.py:19-28 | A file the opener cannot read gets the fallback record, whatever its extension. |
| AppleMetadata.EmptyTagFallsBack | bot/providers/apple/metadata.py:19-77 | A tag the selected strategy reads that is present with an empty list raises `IndexError`, and the file gets the fallback record. |
| AppleMetadata.DefaultMetadataShape | bot/providers/apple/metadata.py:97-111 | The fallback has the basename as title, `'Unknown Artist'`, `'Unknown Album'`, duration 0, track number `'0'`, no cover or thumbnail, and an empty explicit flag. |
| AppleMetadata.MissingTagsDefault | bot/providers/apple/metadata.py:30-77 | In each strategy, a missing title, artist or album tag becomes `'Unknown'`, `'Unknown Artist'` or `'Unknown Album'`. |
| AppleMetadata.StrategiesSucceedOnWellFormedTags | bot/providers/apple/metadata.py:30-77 | No strategy raises when every tag list is non-empty and the track number is a pair. |
| AppleMetadata.ExplicitRule | bot/providers/apple/metadata.py:44-76 | For `.m4a`, `explicit` is `'Explicit'` iff the first `rtng` value is 1, and `''` otherwise. The generic strategy always gives `''`. |
| AppleMetadata.DefaultResolution | bot/providers/apple/metadata.py:55-59 | Without width or height tags, a video's record is 1920 by 1080 with resolution `1920x1080`. |
| AppleMetadata.CoverAndThumbnailAgree | bot/providers/apple/metadata.py:30-95 | `cover` and `thumbnail` are equal, and are either `None` or the sibling `.jpg` path. |
| AppleMetadata.CoverIsSibling | bot/providers/apple/metadata.py:79-95 | A cover path is the file's path with its extension replaced by `.jpg`, in the same directory. |
| AppleMetadata.CoverPreference | bot/providers/apple/metadata.py:82-95 | There is a cover iff it can be written and there is a picture or a non-empty `covr` atom. Pictures are preferred over `covr`. |
| AppleUploader.RcloneUpload | bot/providers/apple/uploader.py:173-201 | The rclone command's effects and the two links; characterised by the next four rows. |
| AppleUploader.Index | bot/providers/apple/uploader.py:21 | `metadata[key]` is the entry of a dict, a `KeyError` naming the key when the key is missing, and a `TypeError` for anything else. |
| AppleUploader.RelativePath | bot/providers/apple/uploader.py:178 | The relative path never starts with `/`. |
| AppleUploader.RelativePathOfChild | bot/providers/apple/uploader.py:178 | For a path `<base>/<rest>` where `rest` does not contain the base, the relative path is `rest`. |
| AppleUploader.RcloneDisabled | bot/providers/apple/uploader.py:175-176 | An empty `RCLONE_DEST` gives no links and runs nothing. |
| AppleUploader.IndexLinkRule | bot/providers/apple/uploader.py:198-199 | The index link is `INDEX_LINK/<relative path>` iff the link options are `Index` or `Both` and `INDEX_LINK` is set; no command is run for it. |
| AppleUploader.RcloneLinkRule | bot/providers/apple/uploader.py:183-196 | The rclone link exists iff the link options are `RCLONE` or `Both` and the command exits 0, and then it is the stripped stdout. The command runs iff rclone links are wanted. |
| AppleUploader.IndexSuffix | bot/providers/apple/uploader.py:40-41 | The index line is appended iff the index link is truthy. |
| AppleUploader.SingleUpload | bot/providers/apple/uploader.py:14-75 | The run of `apple_track_upload` or `apple_music_video_upload` in each upload mode. |
| AppleUploader.SingleUploadCleanup | bot/providers/apple/uploader.py:14-75 | A track or video upload succeeds iff its keys are present. It then ends by removing the file, and the thumbnail if there is one, after the send (Telegram) or the text with links (Rclone). |
| AppleUploader.IteratingStringsRaises | bot/providers/apple/uploader.py:95-96 | A handler given a string instead of a dict raises the string-indices `TypeError`. |
| AppleUploader.ZipArguments | bot/providers/apple/utils.py:178-181 | The archive is written only when `folderpath`, `title` and `artist` are all present. |
| AppleUploader.ZipAndSendAsWritten | bot/providers/apple/uploader.py:82-93 | Zip delivery as written, which the handlers use: the `KeyError`, or the archive written and then the `await` `TypeError`. |
| AppleUploader.ZipAndSend | bot/providers/apple/uploader.py:82-93 | Zip delivery with `create_apple_zip` called without `await`: write, send as a document, remove. |
| AppleUploader.ZipAsWrittenNeverDelivers | bot/providers/apple/uploader.py:83 | As written, zip mode never sends the archive. It raises a `KeyError` first, or writes the archive and then raises the `await` `TypeError`. |
| AppleUploader.ZipSentThenRemoved | bot/providers/apple/uploader.py:82-93 | Corrected, zip mode writes the archive, sends it as a document and then removes it. |
| AppleUploader.CollectionTrace | bot/providers/apple/uploader.py:77-171 | A collection handler's run: the mode-dependent send, then `rmtree(folderpath)`. |
| AppleUploader.ZipModeHandlerRaises | bot/providers/apple/uploader.py:80-83 | In Telegram mode with zips on, a collection handler's run is the as-written zip delivery: it always raises, its only effect is writing the archive, and nothing is sent or removed. |
| AppleUploader.CollectionCleanup | bot/providers/apple/uploader.py:77-171 | A collection upload that succeeds ends by removing `folderpath`, in both modes. |
| AppleUploader.FanOutThenCleanup | bot/providers/apple/uploader.py:94-107 | Without zip mode in Telegram mode, the effects are those of the fan-out over `'tracks'` (album, playlist) or `'albums'` (artist), then the folder's removal. |
| AppleUploader.SequenceInOrder | bot/providers/apple/uploader.py:95-96 | A sequence of runs that raises nothing has every run succeed, and has the runs' effects concatenated in order. |
| AppleUploader.TracksAreSequence | bot/providers/apple/uploader.py:95-96 | The track fan-out is the sequence of the per-track uploads. |
| AppleUploader.AlbumsAreSequence | bot/providers/apple/uploader.py:127-128 | The album fan-out is the sequence of the per-album uploads. |
| AppleUploader.TracksInOrder | bot/providers/apple/uploader.py:95-96 | A track fan-out that succeeds uploads every track, in order. |
| AppleUploader.AlbumsInOrder | bot/providers/apple/uploader.py:127-128 | An album fan-out that succeeds uploads every album, in order. |
| AppleUploader.TracksTraceStops | bot/providers/apple/uploader.py:95-96 | Once a track upload raises, the remaining tracks are not uploaded. |
| AppleUploader.AlbumsTraceStops | bot/providers/apple/uploader.py:127-128 | Once an album upload raises, the remaining albums are not uploaded. |
| AppleUploader.FanOutTracks | bot/providers/apple/uploader.py:95-96 | The `for` loop over tracks produces the track fan-out's trace. |
| AppleUploader.FanOutAlbums | bot/providers/apple/uploader.py:127-128 | The `for` loop over albums produces the album fan-out's trace. |
| AppleUploader.RemoveFolder | bot/providers/apple/uploader.py:107 | `rmtree(folderpath)` runs after a successful send, raises the `KeyError` when `folderpath` is missing, and is skipped after an exception. |
| AppleUploader.AlbumUpload | bot/providers/apple/uploader.py:77-107 | `apple_album_upload` produces the album trace: the as-written zip delivery (which raises) in Telegram zip mode, the track fan-out otherwise in Telegram mode, the rclone text in Rclone mode, then the folder's removal. |
| AppleUploader.ArtistUpload | bot/providers/apple/uploader.py:109-139 | `apple_artist_upload` produces the artist trace: the as-written zip delivery (which raises) in Telegram zip mode, the album fan-out otherwise in Telegram mode, the rclone text in Rclone mode, then the folder's removal. |
| AppleUploader.PlaylistUpload | bot/providers/apple/uploader.py:141-171 | `apple_playlist_upload` produces the playlist trace: the as-written zip delivery (which raises) in Telegram zip mode, the track fan-out otherwise in Telegram mode, the rclone text in Rclone mode, then the folder's removal. |
| AppleCore.MetadataFields | bot/providers/apple/apple.py:70-74 | An item carries the record's title, artist and album. |
| AppleCore.MediaFilesExactly | bot/providers/apple/apple.py:68 | Exactly the files ending in `.m4a`, `.flac`, `.mp4` or `.mov` are kept. |
| AppleCore.ProcessContent | bot/providers/apple/apple.py:62-87 | The nested loop builds exactly the content the filter-then-bundle reading gives. |
| AppleCore.Content | bot/providers/apple/apple.py:62-87 | The content type and bundle `_process_content` returns, or its error; characterised by the next rows. |
| AppleCore.ContentShape | bot/providers/apple/apple.py:62-87 | Zero kept files raise "No valid media files found". Otherwise the bundle has the items, the scanned folder, the first item's album as title and the first item's artist. Each item is tagged with its path and provider `'apple'`, and the type is classified from the URL and the count. |
| AppleCore.ItemShape | bot/providers/apple/apple.py:70-74 | Each item is its metadata record updated with `filepath` and `provider`. |
| AppleCore.Bundle | bot/providers/apple/apple.py:82-87 | The bundle has exactly the keys `items`, `folderpath`, `title` and `artist`. |
| AppleCore.DetermineContentType | bot/providers/apple/apple.py:89-97 | The type is always a key of `upload_handlers`, with the precedence video, playlist, artist, then album or track. It is `video` iff the URL contains `music-video`. It is `playlist` iff it contains `playlist` but not `music-video`, and `artist` iff it contains `artist` but neither of those. It is `album` iff it contains none of the three and there is more than one item; `track` is what remains. |
| AppleCore.ClassificationHasHandler | bot/providers/apple/apple.py:89-110 | Every classification is a key of `upload_handlers`, so "Unsupported content type" is unreachable from `process`. The item count matters only when the URL names none of the three kinds. |
| AppleCore.UploadTrace | bot/providers/apple/apple.py:99-112 | The run of the handler registered for the type, or the unsupported-type error. |
| AppleCore.HandleUpload | bot/providers/apple/apple.py:99-112 | The dispatch runs the registered handler, or raises for an unknown type. |
| AppleCore.UploadTraceDispatch | bot/providers/apple/apple.py:101-112 | Each content type runs its own handler. |
| AppleCore.MissingFilepathRaises | bot/providers/apple/uploader.py:14-21 | A track or video handler given a dict without `filepath` raises `KeyError('filepath')` before doing anything. |
| AppleCore.MissingChildrenRaises | bot/providers/apple/uploader.py:94-96 | A collection handler in Telegram, non-zip mode raises the `KeyError` of `'tracks'` or `'albums'` when that key is missing. |
| AppleCore.BundleKeysRaise | bot/providers/apple/apple.py:82-87 | A dict with only the bundle's keys fails in every handler that reads a per-item key. |
| AppleCore.BundleMismatch | bot/providers/apple/apple.py:82-87 | The processor's bundle lacks `filepath`, `tracks` and `albums`. A track or video bundle always raises `KeyError('filepath')`, and a non-zip Telegram collection raises the `KeyError` of its child key. |
| AppleCore.ProcessRun | bot/providers/apple/apple.py:33-60 | The steps of `process` and the exception it re-raises; characterised by the rows below. |
| AppleCore.Process | bot/providers/apple/apple.py:33-60 | The method runs the stages of `process` in order and re-raises as `process` does. |
| AppleCore.Deliver | bot/providers/apple/apple.py:51-54 | Scanning, uploading, cleanup and the completion message follow a successful download. |
| AppleCore.CleanupOnBothExits | bot/providers/apple/apple.py:53-60 | Every run ends with cleanup of the user directory, then the completion message (no exception) or the error message with the exception text (which is re-raised). |
| AppleCore.AfterStageEndsCleanly | bot/providers/apple/apple.py:41-60 | After the download stage, every run ends with cleanup and then the final message. |
| AppleCore.AfterDownloadEndsCleanly | bot/providers/apple/apple.py:51-60 | After a successful download, every run ends with cleanup and then the final message. |
| AppleCore.UploadOnlyAfterDownload | bot/providers/apple/apple.py:35-52 | An upload step occurs only when the URL is valid, the downloader exists and exits 0, and some media file was kept. An invalid URL yields only cleanup and the error. |
| AppleCore.UploadNeedsDownload | bot/providers/apple/apple.py:41-52 | Once the URL is valid, an upload requires a present downloader that exits 0 and a kept media file. |
| AppleCore.UploadNeedsSuccess | bot/providers/apple/apple.py:48-52 | An upload requires the download result to be a success and a media file to be kept. |
| AppleCore.DownloadSucceeded | bot/providers/apple/apple.py:41-49 | The download reports success iff the downloader is present and exits 0. |
| AppleCore.FailAddsNoUpload | bot/providers/apple/apple.py:56-60 | The `except` path adds no upload. |
| AppleCore.UploadNeedsMedia | bot/providers/apple/apple.py:51-52 | Uploading requires at least one kept media file. |
| AppleCore.DownloadDirectoryMatchesScan | bot/providers/apple/apple.py:39-51 | The downloader writes into the scanned directory iff the storage root is absolute. `process` passes the user directory where a user id is expected. |
| PyText.Strip | bot/providers/apple/downloader.py:74 | `str.strip()` removes a run of whitespace from each end and nothing else: the result sits at some index `i` of the input, everything before `i` and after the result is whitespace, and the result neither starts nor ends with whitespace. |
| PyText.Basename | bot/providers/apple/metadata.py:100 | `os.path.basename` is a suffix of the path that contains no `/`. |
| PyText.SplitextRoot | bot/providers/apple/metadata.py:83 | `os.path.splitext(p)[0]` is a prefix of `p`, and the extension it drops contains no `/`. |
| PyDict.AssignKeys | bot/modules/download.py:73-76 | Assigning to a dict keeps its keys in order, and appends a new key at the end. |
| PyDict.AssignGet | bot/modules/download.py:73-76 | After `d[k] = v`, looking up `k` gives `v`, and every other key is unchanged. |

## Left out

- Subprocess, filesystem and Telegram I/O are inputs and effect records, not actions:
  - `create_subprocess_exec` and `create_subprocess_shell`, `readline`, `communicate` and `wait`;
  - `mkdir`, `os.walk`, cover-file writes, zip writing, `os.remove` and `rmtree`;
  - `send_message`, `edit_message` and `edit_text`.
- `run_apple_downloader` (`RunAppleDownloader`) models a missing downloader path: the not-found
  error, with nothing run. `handle_apple_download` (`DownloadEvents`) does not check the path,
  and a `create_subprocess_exec` that raises there is not modelled: in the code it gives the error
  edit and then cleanup, a path `DownloadEvents` cannot produce.
- A failing `mkdir` in `create_apple_directory` is not modelled: directory creation always succeeds.
- `cleanup_apple_files` is recorded as a step. Its internal `try`/`except`, which swallows every
  error, needs nothing more.
- `verify_apple_dependencies` is only its result: the list of missing tools. Its three probe
  commands are I/O.
- `format_string` is not part of this model. A message is kept as its template, its arguments and
  the text appended to it.
- The `meta=` argument of `send_message` is not modelled, and neither is what `send_message` does
  with the file. The caption and the file path are recorded.
- `_send_completion_message` is recorded as a `Completed` step. The text it formats, from
  `APPLE_DEFAULT_FORMAT` and the quality settings, is configuration display. It calls
  `format_string` without `await` (apple.py:117), while the uploader awaits it (uploader.py:23,
  36, 88, 99). If `format_string` is a coroutine function, the completion text is a coroutine
  object; if it is a plain function, every awaited caption raises. `format_string` is not part of
  this model, so the model does not say which happens.
- Byte decoding is left out. Lines arrive as strings, and `UnicodeDecodeError` from `.decode()` is
  not modelled.
- `int(audio.info.length)` is float truncation. The duration is taken as an integer already.
- Mutagen tag decoding is an oracle. `pictures` is the number of embedded pictures.
- `\d` is ASCII digits only. Python's `\d` on `str` also matches other Unicode decimal digits.
- The model has no `.` matching a newline: the validator's segments are required to be free of
  `\n`, as Python's `.` is.
- `start_apple` in `downloader.py` repeats `handle_apple_download` with a different error prefix,
  and `start_apple` in `apple.py` only constructs the processor and calls `process`. Neither is
  modelled separately.
- `download_track`, `antiSpam`, `check_user`, `fetch_user_details` and the message deletion are
  Telegram command plumbing.
- `msg.text.split()` is the list of words given to `ReadCommand`. Whitespace splitting is not
  modelled.
- A user without `'bot_msg'` is not modelled in `process`. Progress there is always reported to
  the user's message.
- `str()` of a list or a dict (`PyStr`) is approximated. Only text and numbers are rendered
  exactly.
- A tuple tag value such as `trkn` is a `Pair`. `str()` of it is not rendered.
- The processor's metadata record is a map, so `dict.update` order is not kept. Only the keys and
  values are modelled.
- The `except` inside `_process_content` is unreachable in the model, because
  `extract_apple_metadata` never raises. This is also true of the code.
- AppleMetadata.DefaultResolution: states the resolution only for the default width and height. With
  the tags present, the resolution is the width and height rendered with `str` and joined by `x`,
  which holds by definition and has no separate lemma.
- `str.upper()` is modelled on ASCII letters only, for the setting name in `format_apple_quality`.
- `Config` is taken to be a class, so a missing quality setting raises "type object 'Config' has no
  attribute …". The setting's value is taken to be an integer.
- `bot/helpers/uploader.py` is not part of this model. It duplicates the Apple uploader's
  structure.

## Findings

| source | as written | input that shows it | evidently intended | confidence | as-written member | corrected member |
|---|---|---|---|---|---|---|
| bot/providers/apple/uploader.py:83 | `zip_path = await create_apple_zip(...)` awaits a plain function that returns a `str`. The archive is written, then the `await` raises `TypeError`, so the archive is never sent or removed. The same holds at lines 115 and 147. | Telegram mode with `ALBUM_ZIP` on, and a bundle that has `folderpath`, `title` and `artist` | Call `create_apple_zip` without `await`, then send the archive and remove it. The handlers keep the as-written behaviour; `ZipSentThenRemoved` proves the intended one | not executed | AppleUploader.ZipAndSendAsWritten | AppleUploader.ZipAndSend |
