/** bot/providers/apple/utils.py: URL recognition, content-id extraction, the option whitelist,
    quality labels and the workspace / archive path rules. */
module AppleUtils {
  import opened Wrappers
  import opened PyText
  import opened PyDict

  const AppleMusicRoot := "https://music.apple.com/"
  const ContentKinds: seq<string> := ["album", "song", "playlist", "music-video", "artist"]

  // ---------------------------------------------------------------------------------------------
  // validate_apple_url

  /** Every character can be matched by the regex `.`, which excludes only the newline. */
  predicate NoNewline(s: string) {
    forall i :: 0 <= i < |s| ==> s[i] != '\n'
  }

  /** From position `i`, `url` reads `/<kind>/` followed by one character that `.` matches. */
  predicate KindFits(url: string, kind: string, i: nat) {
    i <= |url| && StartsWith(url[i..], "/" + kind + "/")
    && i + |kind| + 2 < |url| && url[i + |kind| + 2] != '\n'
  }

  /** `re.match(r"https://music\.apple\.com/.+/(<kinds>)/.+", url)` succeeds: the fixed prefix,
      a non-empty newline-free segment ending at some `i`, then `/<kind>/` and one more character.
      There is no end anchor, so anything may follow. */
  ghost predicate PatternMatches(url: string, kinds: seq<string>) {
    StartsWith(url, AppleMusicRoot) &&
    exists i: nat, k :: |AppleMusicRoot| < i <= |url| && NoNewline(url[|AppleMusicRoot|..i])
                        && k in kinds && KindFits(url, k, i)
  }

  /** Some kind of `kinds` fits at `i` (the regex alternation). */
  predicate KindAt(url: string, kinds: seq<string>, i: nat)
    decreases |kinds|
  {
    |kinds| > 0 && (KindFits(url, kinds[0], i) || KindAt(url, kinds[1..], i))
  }

  lemma {:induction false} KindAtIff(url: string, kinds: seq<string>, i: nat)
    ensures KindAt(url, kinds, i) <==> exists k :: k in kinds && KindFits(url, k, i)
    decreases |kinds|
  {
    if |kinds| > 0 {
      KindAtIff(url, kinds[1..], i);
      assert forall k :: k in kinds <==> k == kinds[0] || k in kinds[1..];
    }
  }

  /** Tries every end `i, i + 1, ...` of the `.+` segment, stopping at a newline. */
  predicate ScanSplits(url: string, kinds: seq<string>, i: nat)
    requires 0 < i <= |url|
    decreases |url| - i
  {
    url[i - 1] != '\n' && (KindAt(url, kinds, i) || (i < |url| && ScanSplits(url, kinds, i + 1)))
  }

  /** The recogniser for one pattern of `validate_apple_url`. */
  predicate MatchesPattern(url: string, kinds: seq<string>) {
    StartsWith(url, AppleMusicRoot) && |AppleMusicRoot| < |url| && ScanSplits(url, kinds, |AppleMusicRoot| + 1)
  }

  lemma {:induction false} ScanSplitsIff(url: string, kinds: seq<string>, i: nat)
    requires StartsWith(url, AppleMusicRoot) && |AppleMusicRoot| < i <= |url|
    requires NoNewline(url[|AppleMusicRoot|..i - 1])
    ensures ScanSplits(url, kinds, i) <==>
            exists j: nat, k :: i <= j <= |url| && NoNewline(url[|AppleMusicRoot|..j]) && k in kinds && KindFits(url, k, j)
    decreases |url| - i
  {
    var n := |AppleMusicRoot|;
    if url[i - 1] == '\n' {
      forall j: nat, k | i <= j <= |url| && k in kinds && KindFits(url, k, j)
        ensures !NoNewline(url[n..j])
      {
        assert url[n..j][i - 1 - n] == '\n';
      }
    } else {
      assert NoNewline(url[n..i]) by {
        forall m | 0 <= m < i - n ensures url[n..i][m] != '\n' {
          if m < i - 1 - n { assert url[n..i][m] == url[n..i - 1][m]; }
        }
      }
      KindAtIff(url, kinds, i);
      if i < |url| {
        ScanSplitsIff(url, kinds, i + 1);
      }
      if ScanSplits(url, kinds, i) {
        if !KindAt(url, kinds, i) {
          var j: nat, k :| i + 1 <= j <= |url| && NoNewline(url[n..j]) && k in kinds && KindFits(url, k, j);
        }
      } else {
        forall j: nat, k | i <= j <= |url| && NoNewline(url[n..j]) && k in kinds
          ensures !KindFits(url, k, j)
        {
          if j > i {
            assert i < |url|;
          }
        }
      }
    }
  }

  lemma MatchesPatternIff(url: string, kinds: seq<string>)
    ensures MatchesPattern(url, kinds) <==> PatternMatches(url, kinds)
  {
    var n := |AppleMusicRoot|;
    if StartsWith(url, AppleMusicRoot) && n < |url| {
      ScanSplitsIff(url, kinds, n + 1);
    }
  }

  /** A pattern whose kinds are among `kinds'` matches no URL that the `kinds'` pattern rejects. */
  lemma PatternSubsumed(url: string, kinds: seq<string>, kinds': seq<string>)
    requires forall k :: k in kinds ==> k in kinds'
    requires PatternMatches(url, kinds)
    ensures PatternMatches(url, kinds')
  {
    var i: nat, k :| |AppleMusicRoot| < i <= |url| && NoNewline(url[|AppleMusicRoot|..i]) && k in kinds && KindFits(url, k, i);
    assert k in kinds';
  }

  /** The album-only and playlist-only patterns accept no URL the first pattern rejects. */
  lemma PatternsRedundant(url: string)
    ensures PatternMatches(url, ["album"]) ==> PatternMatches(url, ContentKinds)
    ensures PatternMatches(url, ["playlist"]) ==> PatternMatches(url, ContentKinds)
  {
    if PatternMatches(url, ["album"]) { PatternSubsumed(url, ["album"], ContentKinds); }
    if PatternMatches(url, ["playlist"]) { PatternSubsumed(url, ["playlist"], ContentKinds); }
  }

  /** `validate_apple_url`: any of the three patterns matches. The second and third patterns only
      repeat kinds of the first, so the result is exactly whether the first pattern matches. */
  function ValidateAppleUrl(url: string): (r: bool)
    ensures r <==> PatternMatches(url, ContentKinds)
  {
    MatchesPatternIff(url, ContentKinds);
    MatchesPatternIff(url, ["album"]);
    MatchesPatternIff(url, ["playlist"]);
    PatternsRedundant(url);
    MatchesPattern(url, ContentKinds) || MatchesPattern(url, ["album"]) || MatchesPattern(url, ["playlist"])
  }

  lemma ValidateAppleUrlAcceptsAlbum(url: string)
    requires url == "https://music.apple.com/us/album/name/123"
    ensures ValidateAppleUrl(url)
  {
    assert url[26..][..7] == "/album/";
    assert KindFits(url, "album", 26);
    assert NoNewline(url[24..26]);
  }

  /** A fitting kind sits between two slashes. */
  lemma KindFitsSlashes(url: string, k: string, i: nat)
    requires KindFits(url, k, i)
    ensures i + |k| + 1 < |url| && url[i] == '/' && url[i + |k| + 1] == '/'
  {
    assert url[i..][..|k| + 2] == "/" + k + "/";
    assert ("/" + k + "/")[|k| + 1] == '/';
  }

  lemma ValidateAppleUrlRejectsUnknownKind(url: string)
    requires url == "https://music.apple.com/us/unknown/123"
    ensures !ValidateAppleUrl(url)
  {
    forall i: nat, k | 24 < i <= |url| && k in ContentKinds ensures !KindFits(url, k, i) {
      if KindFits(url, k, i) {
        KindFitsSlashes(url, k, i);
        SlashesOfUnknownKind(url, i);
        SlashesOfUnknownKind(url, i + |k| + 1);
        assert false;
      }
    }
  }

  /** The slashes after the host in that URL. */
  lemma SlashesOfUnknownKind(url: string, j: nat)
    requires url == "https://music.apple.com/us/unknown/123"
    requires 24 < j < |url| && url[j] == '/'
    ensures j == 26 || j == 34
  {
  }

  // ---------------------------------------------------------------------------------------------
  // extract_content_id

  /** The first position at or after `i` holding '/', or `|s|` when there is none. */
  function SlashFrom(s: string, i: nat): (r: nat)
    requires i <= |s|
    ensures i <= r <= |s| && (r < |s| ==> s[r] == '/')
    ensures forall j :: i <= j < r ==> s[j] != '/'
    decreases |s| - i
  {
    if i == |s| || s[i] == '/' then i else SlashFrom(s, i + 1)
  }

  /** The end of the run of digits that starts at `i`. */
  function DigitRunEnd(s: string, i: nat): (r: nat)
    requires i <= |s|
    ensures i <= r <= |s| && (r < |s| ==> !IsDigit(s[r]))
    ensures forall j :: i <= j < r ==> IsDigit(s[j])
    decreases |s| - i
  {
    if i == |s| || !IsDigit(s[i]) then i else DigitRunEnd(s, i + 1)
  }

  /** The second group of `/(<kinds>)/[^/]+/(\d+)` when the pattern matches at position `p`.
      `[^/]+` followed by '/' can only take the whole run of non-slash characters, and the
      greedy `\d+` takes the whole run of digits. */
  function IdAt(url: string, p: nat, kinds: seq<string>): (r: Option<string>)
    ensures r.Some? ==> r.value != [] && AllDigits(r.value)
    decreases |kinds|
  {
    if kinds == [] || p > |url| then None
    else if StartsWith(url[p..], "/" + kinds[0] + "/") then
      var e := SlashFrom(url, p + |kinds[0]| + 2);
      if p + |kinds[0]| + 2 < e < |url| && e + 1 < DigitRunEnd(url, e + 1) then
        Some(url[e + 1..DigitRunEnd(url, e + 1)])
      else IdAt(url, p, kinds[1..])
    else IdAt(url, p, kinds[1..])
  }

  /** The id the pattern of `extract_content_id` captures when it matches at position `p`. */
  function IdHere(url: string, p: nat): (r: Option<string>)
    ensures r.Some? ==> r.value != [] && AllDigits(r.value)
  {
    IdAt(url, p, ContentKinds)
  }

  /** `re.search` from position `p`: the match at the leftmost position that has one. */
  function FindId(url: string, p: nat): (r: Option<string>)
    requires p <= |url| + 1
    ensures r.None? <==> forall q :: p <= q <= |url| ==> IdHere(url, q).None?
    ensures r.Some? ==> exists q :: p <= q <= |url| && IdHere(url, q) == r
                                   && forall q' :: p <= q' < q ==> IdHere(url, q').None?
    decreases |url| + 1 - p
  {
    if p > |url| then None
    else
      var here := IdHere(url, p);
      if here.Some? then here else FindId(url, p + 1)
  }

  lemma NotUnknown(id: string)
    requires id != [] && AllDigits(id)
    ensures id != "unknown"
  {
    assert IsDigit(id[0]);
  }

  /** `extract_content_id`: the digits of the leftmost match, or "unknown". */
  function ExtractContentId(url: string): (r: string)
    ensures r == "unknown" || (r != [] && AllDigits(r))
    ensures r == "unknown" <==> forall p :: 0 <= p <= |url| ==> IdHere(url, p).None?
    ensures r != "unknown" ==> exists p :: 0 <= p <= |url| && IdHere(url, p) == Some(r)
                                         && forall p' :: 0 <= p' < p ==> IdHere(url, p').None?
  {
    var found := FindId(url, 0);
    if found.None? then "unknown"
    else
      NotUnknown(found.value);
      found.value
  }

  // ---------------------------------------------------------------------------------------------
  // build_apple_options

  /** A value of the options dict: the `True` of a bare `--flag`, or a string. */
  datatype OptValue = BoolVal(b: bool) | StrVal(s: string)

  /** The whitelist from option keys to the downloader's flags. */
  const OptionMap: map<string, string> := map[
    "aac" := "--aac", "aac-type" := "--aac-type", "alac-max" := "--alac-max",
    "all-album" := "--all-album", "atmos" := "--atmos", "atmos-max" := "--atmos-max",
    "debug" := "--debug", "mv-audio-type" := "--mv-audio-type", "mv-max" := "--mv-max",
    "select" := "--select", "song" := "--song"]

  /** Every whitelisted key maps to itself behind "--". */
  lemma OptionMapSpellsKeys()
    ensures forall k :: k in OptionMap ==> OptionMap[k] == "--" + k
  {
  }

  /** The tokens one entry adds: nothing for a key outside the whitelist, the flag alone for a
      bool (`False` included), the flag and `str(value)` otherwise. */
  function EntryTokens(key: string, value: OptValue): seq<string> {
    if key !in OptionMap then []
    else if value.BoolVal? then [OptionMap[key]]
    else [OptionMap[key], value.s]
  }

  /** The argument list `build_apple_options` produces, entry by entry in the dict's order. */
  function OptionTokens(options: Dict<OptValue>): seq<string> {
    if options == [] then []
    else OptionTokens(options[..|options| - 1]) + EntryTokens(options[|options| - 1].0, options[|options| - 1].1)
  }

  method BuildAppleOptions(options: Dict<OptValue>) returns (cmd: seq<string>)
    ensures cmd == OptionTokens(options)
  {
    cmd := [];
    for i := 0 to |options|
      invariant cmd == OptionTokens(options[..i])
    {
      var (key, value) := options[i];
      if key in OptionMap {
        if value.BoolVal? {
          cmd := cmd + [OptionMap[key]];
        } else {
          cmd := cmd + [OptionMap[key], value.s];
        }
      }
      assert options[..i + 1][..i] == options[..i];
    }
    assert options[..|options|] == options;
  }

  /** The output keeps the input's order: the tokens of `a + b` are those of `a`, then of `b`. */
  lemma {:induction false} OptionTokensAppend(a: Dict<OptValue>, b: Dict<OptValue>)
    ensures OptionTokens(a + b) == OptionTokens(a) + OptionTokens(b)
    decreases |b|
  {
    if b == [] {
      assert a + b == a;
    } else {
      var b' := b[..|b| - 1];
      assert (a + b)[..|a + b| - 1] == a + b';
      OptionTokensAppend(a, b');
    }
  }

  /** A key outside the whitelist contributes no token wherever it stands. */
  lemma UnknownKeyIgnored(a: Dict<OptValue>, key: string, value: OptValue, b: Dict<OptValue>)
    requires key !in OptionMap
    ensures OptionTokens(a + [(key, value)] + b) == OptionTokens(a + b)
  {
    OptionTokensAppend(a + [(key, value)], b);
    OptionTokensAppend(a, [(key, value)]);
    OptionTokensAppend(a, b);
    assert OptionTokens([(key, value)]) == [] by {
      assert [(key, value)][..0] == [];
    }
  }

  /** Every emitted token is a whitelisted flag or the string value of a whitelisted key:
      nothing the user typed outside the whitelist reaches the command line. */
  lemma {:induction false} OptionTokensFromWhitelist(options: Dict<OptValue>)
    ensures forall t :: t in OptionTokens(options) ==>
              t in OptionMap.Values
              || exists j :: 0 <= j < |options| && options[j].0 in OptionMap && options[j].1 == StrVal(t)
    decreases |options|
  {
    if options != [] {
      var init := options[..|options| - 1];
      OptionTokensFromWhitelist(init);
      forall t | t in OptionTokens(options)
        ensures t in OptionMap.Values
                || exists j :: 0 <= j < |options| && options[j].0 in OptionMap && options[j].1 == StrVal(t)
      {
        if t in OptionTokens(init) {
          if t !in OptionMap.Values {
            var j :| 0 <= j < |init| && init[j].0 in OptionMap && init[j].1 == StrVal(t);
            assert options[j] == init[j];
          }
        } else {
          var last := options[|options| - 1];
          assert t in EntryTokens(last.0, last.1);
          assert last.0 in OptionMap;
          if t != OptionMap[last.0] {
            assert last.1 == StrVal(t);
          }
        }
      }
    }
  }

  // ---------------------------------------------------------------------------------------------
  // format_apple_quality and apple_supported_formats

  const AlacQualities: map<int, string> := map[
    192000 := "ALAC 16-bit/44.1kHz", 256000 := "ALAC 24-bit/48kHz", 320000 := "ALAC 24-bit/96kHz"]
  const AtmosQualities: map<int, string> := map[
    2768 := "Dolby Atmos 768kbps", 3072 := "Dolby Atmos 1536kbps", 3456 := "Dolby Atmos 3456kbps"]
  const Qualities: map<string, map<int, string>> := map["alac" := AlacQualities, "atmos" := AtmosQualities]

  /** The name of the setting `format_apple_quality` reads for a format. */
  function QualitySetting(formatType: string): string {
    "APPLE_" + Upper(formatType) + "_QUALITY"
  }

  /** `format_apple_quality(format_type)`, where `setting` is the value of the attribute
      `QualitySetting(format_type)` of `Config`, `None` when it has no such attribute (the
      `AttributeError` is raised first); a format other than "alac" and "atmos" then raises a
      `KeyError`. */
  function FormatAppleQuality(formatType: string, setting: Option<int>): Result<string> {
    if setting.None? then Err("type object 'Config' has no attribute '" + QualitySetting(formatType) + "'")
    else if formatType !in Qualities then Err("'" + formatType + "'")
    else if setting.value in Qualities[formatType] then Ok(Qualities[formatType][setting.value])
    else Ok("Unknown Quality")
  }

  /** `apple_supported_formats()` */
  function AppleSupportedFormats(): map<string, seq<string>> {
    map["alac" := ["192000", "256000", "320000"], "atmos" := ["2768", "3072", "3456"]]
  }

  /** A missing setting raises the `AttributeError`; otherwise only "alac" and "atmos" are
      known, and the label is "Unknown Quality" exactly when the configured code is not in the
      table (no table label reads "Unknown Quality"). */
  lemma FormatAppleQualityUnknown(formatType: string, setting: Option<int>)
    ensures setting.None? ==>
              FormatAppleQuality(formatType, setting)
                == Err("type object 'Config' has no attribute '" + QualitySetting(formatType) + "'")
    ensures setting.Some? ==>
              (FormatAppleQuality(formatType, setting).Err? <==> formatType != "alac" && formatType != "atmos")
    ensures setting.Some? && formatType !in Qualities ==> FormatAppleQuality(formatType, setting) == Err("'" + formatType + "'")
    ensures setting.Some? && formatType in Qualities ==>
              (FormatAppleQuality(formatType, setting) == Ok("Unknown Quality") <==> setting.value !in Qualities[formatType])
  {
    if setting.Some? && formatType in Qualities && setting.value in Qualities[formatType] {
      assert formatType == "alac" || formatType == "atmos";
      assert Qualities[formatType][setting.value] != "Unknown Quality";
    }
  }

  /** The setting name is the format upper-cased: "alac" reads `APPLE_ALAC_QUALITY`. */
  lemma QualitySettingNames()
    ensures QualitySetting("alac") == "APPLE_ALAC_QUALITY"
    ensures QualitySetting("atmos") == "APPLE_ATMOS_QUALITY"
  {
    UpperAlac();
    UpperAtmos();
  }

  lemma UpperAlac()
    ensures Upper("alac") == "ALAC"
  {
    assert Upper("c") == "C";
    assert Upper("ac") == "AC";
    assert Upper("lac") == "LAC";
  }

  lemma UpperAtmos()
    ensures Upper("atmos") == "ATMOS"
  {
    assert Upper("s") == "S";
    assert Upper("os") == "OS";
    assert Upper("mos") == "MOS";
    assert Upper("tmos") == "TMOS";
  }

  /** The codes offered as supported are the decimal renderings of the table's codes. */
  lemma SupportedCodesRendered()
    ensures AppleSupportedFormats().Keys == Qualities.Keys
    ensures AppleSupportedFormats()["alac"] == [NatToString(192000), NatToString(256000), NatToString(320000)]
    ensures AppleSupportedFormats()["atmos"] == [NatToString(2768), NatToString(3072), NatToString(3456)]
  {
    AlacCodesRendered();
    AtmosCodesRendered();
  }

  lemma AlacCodesRendered()
    ensures NatToString(192000) == "192000" && NatToString(256000) == "256000" && NatToString(320000) == "320000"
  {
    Rendered192000();
    Rendered256000();
    Rendered320000();
  }

  lemma Rendered192000()
    ensures NatToString(192000) == "192000"
  {
    assert NatToString(19) == "19";
    assert NatToString(192) == "192";
    assert NatToString(1920) == "1920";
    assert NatToString(19200) == "19200";
  }

  lemma Rendered256000()
    ensures NatToString(256000) == "256000"
  {
    assert NatToString(25) == "25";
    assert NatToString(256) == "256";
    assert NatToString(2560) == "2560";
    assert NatToString(25600) == "25600";
  }

  lemma Rendered320000()
    ensures NatToString(320000) == "320000"
  {
    assert NatToString(32) == "32";
    assert NatToString(320) == "320";
    assert NatToString(3200) == "3200";
    assert NatToString(32000) == "32000";
  }

  lemma AtmosCodesRendered()
    ensures NatToString(2768) == "2768" && NatToString(3072) == "3072" && NatToString(3456) == "3456"
  {
    assert NatToString(2768) == "2768" by {
      assert NatToString(27) == "27";
      assert NatToString(276) == "276";
    }
    assert NatToString(3072) == "3072" by {
      assert NatToString(30) == "30";
      assert NatToString(307) == "307";
    }
    assert NatToString(3456) == "3456" by {
      assert NatToString(34) == "34";
      assert NatToString(345) == "345";
    }
  }

  /** Every labelled code is offered as supported. */
  lemma LabelledCodesSupported()
    ensures forall f, k :: f in Qualities && k in Qualities[f] ==> NatToString(k) in AppleSupportedFormats()[f]
  {
    SupportedCodesRendered();
  }

  /** Every code offered as supported reads back as a code that has a label of its own. */
  lemma SupportedCodeHasLabel(f: string, c: string)
    requires f in AppleSupportedFormats() && c in AppleSupportedFormats()[f]
    ensures AllDigits(c) && f in Qualities && DigitsValue(c) in Qualities[f]
  {
    if f == "alac" {
      assert c == "192000" || c == "256000" || c == "320000";
      if c == "192000" { Reads192000(); } else if c == "256000" { Reads256000(); } else { Reads320000(); }
    } else {
      assert c == "2768" || c == "3072" || c == "3456";
      if c == "2768" { Reads2768(); } else if c == "3072" { Reads3072(); } else { Reads3456(); }
    }
  }

  lemma Reads192000()
    ensures AllDigits("192000") && DigitsValue("192000") == 192000
  {
    Rendered192000();
    NatToStringRoundTrip(192000);
  }

  lemma Reads256000()
    ensures AllDigits("256000") && DigitsValue("256000") == 256000
  {
    Rendered256000();
    NatToStringRoundTrip(256000);
  }

  lemma Reads320000()
    ensures AllDigits("320000") && DigitsValue("320000") == 320000
  {
    Rendered320000();
    NatToStringRoundTrip(320000);
  }

  lemma Reads2768()
    ensures AllDigits("2768") && DigitsValue("2768") == 2768
  {
    AtmosCodesRendered();
    NatToStringRoundTrip(2768);
  }

  lemma Reads3072()
    ensures AllDigits("3072") && DigitsValue("3072") == 3072
  {
    AtmosCodesRendered();
    NatToStringRoundTrip(3072);
  }

  lemma Reads3456()
    ensures AllDigits("3456") && DigitsValue("3456") == 3456
  {
    AtmosCodesRendered();
    NatToStringRoundTrip(3456);
  }

  // ---------------------------------------------------------------------------------------------
  // create_apple_directory / cleanup_apple_files / create_apple_zip: the paths they use

  /** The per-user workspace `<LOCAL_STORAGE>/Apple Music/<user_id>`. */
  function AppleDirectory(storage: string, userId: string): string {
    Join(Join(storage, "Apple Music"), userId)
  }

  /** The archive path `<LOCAL_STORAGE>/Zips/<user_id>/<title> - <artist>.zip`. */
  function ZipPath(storage: string, userId: string, title: string, artist: string): string {
    Join(Join(Join(storage, "Zips"), userId), title + " - " + artist + ".zip")
  }

  /** A relative part is appended below the base; an absolute one replaces it. */
  lemma JoinShape(a: string, b: string)
    ensures !StartsWith(b, "/") ==> StartsWith(Join(a, b), a) && EndsWith(Join(a, b), b)
    ensures StartsWith(b, "/") ==> Join(a, b) == b
  {
    if !StartsWith(b, "/") {
      var r := Join(a, b);
      assert r[|r| - |b|..] == b;
      assert r[..|a|] == a;
    }
  }

  /** The archive lands in the user's archive folder and is named after the bundle, unless the
      title begins with '/', in which case it escapes that folder. */
  lemma ZipPathPlacement(storage: string, userId: string, title: string, artist: string)
    ensures !StartsWith(title, "/") ==>
              StartsWith(ZipPath(storage, userId, title, artist), Join(Join(storage, "Zips"), userId))
              && EndsWith(ZipPath(storage, userId, title, artist), title + " - " + artist + ".zip")
    ensures StartsWith(title, "/") ==> ZipPath(storage, userId, title, artist) == title + " - " + artist + ".zip"
  {
    var name := title + " - " + artist + ".zip";
    if StartsWith(title, "/") {
      assert name[..1] == title[..1];
    } else {
      assert !StartsWith(name, "/") by {
        if |title| > 0 { assert name[0] == title[0]; } else { assert name[0] == ' '; }
      }
    }
    JoinShape(Join(Join(storage, "Zips"), userId), name);
  }
}
