/** The `/download` command of bot/modules/download.py: reading the options and the link out of
    the command's words, and routing the link to a provider by its prefix. */
module DownloadCommand {
  import opened Wrappers
  import opened PyText
  import opened PyDict
  import AppleUtils

  type OptValue = AppleUtils.OptValue

  // ---------------------------------------------------------------------------------------------
  // parse_options

  /** A token that names an option. */
  predicate IsFlag(t: string) {
    StartsWith(t, "--")
  }

  /** The value the flag at `j` takes: the next token when there is one and it is not a flag,
      else `True`. */
  function ValueAt(parts: seq<string>, j: nat): OptValue
    requires j < |parts|
  {
    if j + 1 < |parts| && !IsFlag(parts[j + 1]) then AppleUtils.StrVal(parts[j + 1]) else AppleUtils.BoolVal(true)
  }

  /** The options the flags among the first `n` tokens set, each flag in turn assigning its key
      (the token without its leading "--") its value. Tokens that are not flags set nothing. */
  function OptionsUpTo(parts: seq<string>, n: nat): Dict<OptValue>
    requires n <= |parts|
  {
    if n == 0 then []
    else if IsFlag(parts[n - 1]) then Assign(OptionsUpTo(parts, n - 1), parts[n - 1][2..], ValueAt(parts, n - 1))
    else OptionsUpTo(parts, n - 1)
  }

  function OptionsOf(parts: seq<string>): Dict<OptValue> {
    OptionsUpTo(parts, |parts|)
  }

  /** `parse_options(parts)`. The loop visits every flag, and skips exactly the tokens that
      follow a flag and are not flags themselves: those are the values. */
  method ParseOptions(parts: seq<string>) returns (options: Dict<OptValue>)
    ensures options == OptionsOf(parts)
  {
    options := [];
    var i := 0;
    while i < |parts|
      invariant 0 <= i <= |parts|
      invariant options == OptionsUpTo(parts, i)
    {
      var part := parts[i];
      if StartsWith(part, "--") {
        var key := part[2..];
        if i + 1 < |parts| && !StartsWith(parts[i + 1], "--") {
          options := Assign(options, key, AppleUtils.StrVal(parts[i + 1]));
          i := i + 1;
        } else {
          options := Assign(options, key, AppleUtils.BoolVal(true));
        }
      }
      i := i + 1;
    }
  }

  /** The keys are exactly the flags without their "--", each once. */
  lemma {:induction false} OptionsKeys(parts: seq<string>, n: nat)
    requires n <= |parts|
    ensures DistinctKeys(OptionsUpTo(parts, n))
    ensures forall k :: k in Keys(OptionsUpTo(parts, n)) <==>
              exists j :: 0 <= j < n && IsFlag(parts[j]) && parts[j][2..] == k
    decreases n
  {
    if n > 0 {
      OptionsKeys(parts, n - 1);
      var d := OptionsUpTo(parts, n - 1);
      if IsFlag(parts[n - 1]) {
        AssignKeys(d, parts[n - 1][2..], ValueAt(parts, n - 1));
        AssignDistinct(d, parts[n - 1][2..], ValueAt(parts, n - 1));
      }
      forall k | exists j :: 0 <= j < n && IsFlag(parts[j]) && parts[j][2..] == k
        ensures k in Keys(OptionsUpTo(parts, n))
      {
        var j :| 0 <= j < n && IsFlag(parts[j]) && parts[j][2..] == k;
        if j < n - 1 {
          assert k in Keys(d);
        }
      }
    }
  }

  /** A key's value comes from its last flag: a later occurrence overwrites an earlier one. */
  lemma {:induction false} LastOccurrenceWins(parts: seq<string>, n: nat, j: nat)
    requires j < n <= |parts| && IsFlag(parts[j])
    requires forall j' :: j < j' < n && IsFlag(parts[j']) ==> parts[j'][2..] != parts[j][2..]
    ensures Get(OptionsUpTo(parts, n), parts[j][2..]) == Some(ValueAt(parts, j))
    decreases n
  {
    var k := parts[j][2..];
    if IsFlag(parts[n - 1]) {
      AssignGet(OptionsUpTo(parts, n - 1), parts[n - 1][2..], ValueAt(parts, n - 1), k);
    }
    if j < n - 1 {
      LastOccurrenceWins(parts, n - 1, j);
    }
  }

  /** The words the user typed, as `msg.text.split()` yields them, and the text of the message
      replied to, if any. */
  datatype Command = Command(options: Dict<OptValue>, link: Option<string>)

  /** The parsing half of `download_track`. In a reply the options are every word after the
      command and the link is the replied text; otherwise the link is the last word. */
  method ReadCommand(words: seq<string>, reply: Option<Option<string>>) returns (cmd: Command)
    ensures reply.Some? ==>
              cmd.options == (if |words| > 1 then OptionsOf(words[1..]) else []) && cmd.link == reply.value
    ensures reply.None? ==>
              cmd.options == OptionsOf(if words == [] then [] else words[1..])
              && cmd.link == (if |words| <= 1 then None else Some(words[|words| - 1]))
  {
    if reply.Some? {
      var options := [];
      if |words| > 1 {
        options := ParseOptions(words[1..]);
      }
      cmd := Command(options, reply.value);
    } else {
      var parts := if words == [] then [] else words[1..];
      var options := ParseOptions(parts);
      cmd := Command(options, if parts == [] then None else Some(parts[|parts| - 1]));
    }
  }

  /** Because the link is also the last word, a flag right before it takes the link as its
      value (unless the link itself looks like a flag). */
  lemma FlagBeforeLinkCapturesIt(words: seq<string>)
    requires |words| >= 3 && IsFlag(words[|words| - 2]) && !IsFlag(words[|words| - 1])
    ensures var parts := words[1..];
            Get(OptionsOf(parts), words[|words| - 2][2..]) == Some(AppleUtils.StrVal(words[|words| - 1]))
  {
    var parts := words[1..];
    LastOccurrenceWins(parts, |parts|, |parts| - 2);
  }

  // ---------------------------------------------------------------------------------------------
  // parse_options inverts the rendering of an options dict as flags

  /** How a user writes options: `--key` for `True`, `--key value` for a string. */
  function RenderOptions(options: Dict<OptValue>): seq<string> {
    if options == [] then []
    else
      var (k, v) := options[|options| - 1];
      RenderOptions(options[..|options| - 1]) + ["--" + k] + (if v.StrVal? then [v.s] else [])
  }

  /** Options `parse_options` can give back: distinct keys, `True` flags and values that do not
      look like flags. */
  predicate Renderable(options: Dict<OptValue>) {
    DistinctKeys(options)
    && forall i :: 0 <= i < |options| ==>
         (options[i].1.BoolVal? ==> options[i].1.b) && (options[i].1.StrVal? ==> !IsFlag(options[i].1.s))
  }

  /** Tokens past the first `|a|` do not change what the first `|a|` set, provided `a` does not
      end in a flag that the next token would give a value. */
  lemma {:induction false} OptionsUpToPrefix(a: seq<string>, b: seq<string>, n: nat)
    requires n <= |a|
    requires a == [] || !IsFlag(a[|a| - 1]) || b == [] || IsFlag(b[0])
    ensures OptionsUpTo(a + b, n) == OptionsUpTo(a, n)
    decreases n
  {
    if n > 0 {
      OptionsUpToPrefix(a, b, n - 1);
      assert (a + b)[n - 1] == a[n - 1];
      if n < |a| {
        assert (a + b)[n] == a[n];
      }
    }
  }

  /** `parse_options` reads back what `RenderOptions` writes. */
  lemma {:induction false} ParseRenderRoundTrip(options: Dict<OptValue>)
    requires Renderable(options)
    ensures OptionsOf(RenderOptions(options)) == options
    decreases |options|
  {
    if options != [] {
      var init := options[..|options| - 1];
      var (k, v) := options[|options| - 1];
      assert Renderable(init);
      ParseRenderRoundTrip(init);
      assert k !in Keys(init) by {
        assert forall i :: 0 <= i < |init| ==> Keys(init)[i] == options[i].0 != options[|options| - 1].0;
      }
      ParseAppendedOption(RenderOptions(init), init, k, v);
      assert options == init + [(k, v)];
    }
  }

  /** Rendering one more option, under a new key, after tokens that read back as `init`. */
  lemma ParseAppendedOption(a: seq<string>, init: Dict<OptValue>, k: string, v: OptValue)
    requires OptionsOf(a) == init && k !in Keys(init)
    requires (v.BoolVal? ==> v.b) && (v.StrVal? ==> !IsFlag(v.s))
    ensures OptionsOf(a + ["--" + k] + (if v.StrVal? then [v.s] else [])) == init + [(k, v)]
  {
    var e := ["--" + k] + (if v.StrVal? then [v.s] else []);
    var parts := a + e;
    assert a + ["--" + k] + (if v.StrVal? then [v.s] else []) == parts;
    assert ("--" + k)[..2] == "--";
    OptionsUpToPrefix(a, e, |a|);
    assert parts[|a|] == "--" + k && IsFlag(parts[|a|]) && parts[|a|][2..] == k;
    assert OptionsUpTo(parts, |a|) == init;
    AssignNew(init, k, v);
    assert OptionsUpTo(parts, |a| + 1) == Assign(init, k, ValueAt(parts, |a|));
    if v.StrVal? {
      assert !IsFlag(parts[|a| + 1]);
      assert ValueAt(parts, |a|) == v;
      assert OptionsUpTo(parts, |a| + 2) == OptionsUpTo(parts, |a| + 1);
    } else {
      assert ValueAt(parts, |a|) == v;
    }
  }

  /** For whitelisted keys the downloader flags are exactly the user's spelling. */
  lemma {:induction false} BuildIsRender(options: Dict<OptValue>)
    requires forall i :: 0 <= i < |options| ==> options[i].0 in AppleUtils.OptionMap
    ensures AppleUtils.OptionTokens(options) == RenderOptions(options)
    decreases |options|
  {
    if options != [] {
      AppleUtils.OptionMapSpellsKeys();
      BuildIsRender(options[..|options| - 1]);
    }
  }

  /** Options with whitelisted keys survive `build_apple_options` followed by `parse_options`. */
  lemma BuildThenParse(options: Dict<OptValue>)
    requires Renderable(options)
    requires forall i :: 0 <= i < |options| ==> options[i].0 in AppleUtils.OptionMap
    ensures OptionsOf(AppleUtils.OptionTokens(options)) == options
  {
    BuildIsRender(options);
    ParseRenderRoundTrip(options);
  }

  // ---------------------------------------------------------------------------------------------
  // start_link

  const TidalPrefixes := ["https://tidal.com", "https://listen.tidal.com", "tidal.com", "listen.tidal.com"]
  const DeezerPrefixes := ["https://link.deezer.com", "https://deezer.com", "deezer.com", "https://www.deezer.com", "link.deezer.com"]
  const QobuzPrefixes := ["https://play.qobuz.com", "https://open.qobuz.com", "https://www.qobuz.com"]
  const SpotifyPrefixes := ["https://open.spotify.com"]
  const AppleMusicPrefixes := ["https://music.apple.com"]

  /** `link.startswith(tuple(prefixes))` */
  predicate StartsWithAny(link: string, prefixes: seq<string>) {
    exists i :: 0 <= i < |prefixes| && StartsWith(link, prefixes[i])
  }

  /** Where `start_link` sends a link. */
  datatype Route = ToTidal | ToDeezer | ToQobuz | SpotifySoon | ToApple | Unsupported

  /** `start_link(link, user, options)`: the branch taken and the `user['provider']` that results
      from the one given. */
  function StartLink(link: string, provider: Option<string>): (Route, Option<string>) {
    if StartsWithAny(link, TidalPrefixes) then (ToTidal, provider)
    else if StartsWithAny(link, DeezerPrefixes) then (ToDeezer, provider)
    else if StartsWithAny(link, QobuzPrefixes) then (ToQobuz, Some("Qobuz"))
    else if StartsWithAny(link, SpotifyPrefixes) then (SpotifySoon, provider)
    else if StartsWithAny(link, AppleMusicPrefixes) then (ToApple, provider)
    else (Unsupported, provider)
  }

  /** Every prefix `start_link` recognises. */
  const KnownPrefixes := TidalPrefixes + DeezerPrefixes + QobuzPrefixes + SpotifyPrefixes + AppleMusicPrefixes

  lemma StartsWithAnyConcat(link: string, a: seq<string>, b: seq<string>)
    ensures StartsWithAny(link, a + b) <==> StartsWithAny(link, a) || StartsWithAny(link, b)
  {
    if StartsWithAny(link, a + b) {
      var i :| 0 <= i < |a + b| && StartsWith(link, (a + b)[i]);
      if i >= |a| {
        assert b[i - |a|] == (a + b)[i];
      }
    }
    if StartsWithAny(link, a) {
      var i :| 0 <= i < |a| && StartsWith(link, a[i]);
      assert (a + b)[i] == a[i];
    }
    if StartsWithAny(link, b) {
      var i :| 0 <= i < |b| && StartsWith(link, b[i]);
      assert (a + b)[|a| + i] == b[i];
    }
  }

  /** A link is unsupported exactly when it starts with none of the known prefixes. */
  lemma UnsupportedIffUnknownPrefix(link: string, provider: Option<string>)
    ensures StartLink(link, provider).0 == Unsupported <==> !StartsWithAny(link, KnownPrefixes)
  {
    StartsWithAnyConcat(link, TidalPrefixes + DeezerPrefixes + QobuzPrefixes + SpotifyPrefixes, AppleMusicPrefixes);
    StartsWithAnyConcat(link, TidalPrefixes + DeezerPrefixes + QobuzPrefixes, SpotifyPrefixes);
    StartsWithAnyConcat(link, TidalPrefixes + DeezerPrefixes, QobuzPrefixes);
    StartsWithAnyConcat(link, TidalPrefixes, DeezerPrefixes);
  }

  /** Only the Qobuz branch touches the provider, and it sets it to "Qobuz". */
  lemma ProviderOnlyForQobuz(link: string, provider: Option<string>)
    ensures StartLink(link, provider).0 == ToQobuz ==> StartLink(link, provider).1 == Some("Qobuz")
    ensures StartLink(link, provider).0 != ToQobuz ==> StartLink(link, provider).1 == provider
  {
  }

  /** An Apple Music link reaches the Apple handler: no earlier prefix can match it. */
  lemma AppleLinksReachApple(link: string, provider: Option<string>)
    requires StartsWith(link, "https://music.apple.com")
    ensures StartLink(link, provider) == (ToApple, provider)
  {
    assert link[..23] == "https://music.apple.com";
    assert link[0] == 'h' && link[8] == 'm';
    forall p | p in TidalPrefixes + DeezerPrefixes + QobuzPrefixes + SpotifyPrefixes
      ensures !StartsWith(link, p)
    {
      assert |p| > 8 && (p[0] != 'h' || p[8] != 'm');
    }
    assert StartsWithAny(link, AppleMusicPrefixes) by {
      assert StartsWith(link, AppleMusicPrefixes[0]);
    }
  }

  /** Every link the Apple validator accepts is routed to the Apple handler. */
  lemma ValidAppleUrlsReachApple(link: string, provider: Option<string>)
    requires AppleUtils.ValidateAppleUrl(link)
    ensures StartLink(link, provider) == (ToApple, provider)
  {
    assert link[..23] == AppleUtils.AppleMusicRoot[..23];
    AppleLinksReachApple(link, provider);
  }
}
