/** The downloader driver of bot/providers/apple/downloader.py: the argument vector handed to the
    external downloader, the `(\d+)%` progress parser, the two loops that follow the downloader's
    output, and the module's own copy of `build_apple_options`.

    The child process is an input: the lines it prints on stdout (decoded, in order, as
    `readline` returns them before end of file), its stderr text and its exit status. A progress
    edit is recorded as the text of the message it sends. */
module AppleDownloader {
  import opened Wrappers
  import opened PyText
  import opened PyDict
  import AppleUtils

  // ---------------------------------------------------------------------------------------------
  // _parse_progress

  /** The value `(\d+)%` captures when it matches at position `i`: a digit at `i` whose run of
      digits ends at a '%'. A shorter run cannot help, since it is followed by another digit. */
  function PercentAt(s: string, i: nat): (r: Option<nat>)
    ensures r.Some? ==> i < |s| && IsDigit(s[i])
  {
    if i < |s| && IsDigit(s[i]) then
      var e := AppleUtils.DigitRunEnd(s, i);
      if e < |s| && s[e] == '%' then Some(DigitsValue(s[i..e])) else None
    else None
  }

  /** `re.search` from position `i`: the match at the leftmost position that has one. */
  function SearchPercent(s: string, i: nat): (r: Option<nat>)
    requires i <= |s|
    ensures r.None? <==> forall j :: i <= j < |s| ==> PercentAt(s, j).None?
    ensures r.Some? ==> exists j :: i <= j < |s| && PercentAt(s, j) == r
                                   && forall j' :: i <= j' < j ==> PercentAt(s, j').None?
    decreases |s| - i
  {
    if i == |s| then None
    else
      var here := PercentAt(s, i);
      if here.Some? then here else SearchPercent(s, i + 1)
  }

  /** `_parse_progress(line)`; `None` stands for Python's `None`. */
  function ParseProgress(line: string): Option<nat> {
    SearchPercent(line, 0)
  }

  /** The run `line[i..q]` is a maximal run of digits and the '%' at `q` closes it. */
  ghost predicate Captures(line: string, i: nat, q: nat) {
    i < q < |line| && line[q] == '%' && (i == 0 || !IsDigit(line[i - 1]))
    && forall k :: i <= k < q ==> IsDigit(line[k])
  }

  /** No '%' before `q` has a digit immediately before it. */
  ghost predicate NoEarlierPercent(line: string, q: nat) {
    forall q' :: 0 < q' < q && q' < |line| && line[q'] == '%' ==> !IsDigit(line[q' - 1])
  }

  lemma PercentAtAfterDigit(line: string, q: nat)
    requires 0 < q < |line| && line[q] == '%' && IsDigit(line[q - 1])
    ensures PercentAt(line, q - 1).Some?
  {
  }

  /** A match at `j` right after a digit means a match one position earlier. */
  lemma PercentAtExtends(line: string, j: nat)
    requires PercentAt(line, j).Some? && j > 0 && IsDigit(line[j - 1])
    ensures PercentAt(line, j - 1).Some?
  {
    assert AppleUtils.DigitRunEnd(line, j - 1) == AppleUtils.DigitRunEnd(line, j);
  }

  /** Two captures that both end at a first '%' after a digit are the same capture. */
  lemma CapturesUnique(line: string, i: nat, q: nat, i': nat, q': nat)
    requires Captures(line, i, q) && NoEarlierPercent(line, q)
    requires Captures(line, i', q') && NoEarlierPercent(line, q')
    ensures i == i' && q == q'
  {
    assert IsDigit(line[q - 1]) && IsDigit(line[q' - 1]);
    assert q == q';
  }

  /** The parser finds nothing exactly when no '%' of the line has a digit right before it. */
  lemma ParseProgressNone(line: string)
    ensures ParseProgress(line).None? <==> NoEarlierPercent(line, |line|)
  {
    if ParseProgress(line).None? {
      forall q' | 0 < q' < |line| && line[q'] == '%'
        ensures !IsDigit(line[q' - 1])
      {
        if IsDigit(line[q' - 1]) {
          PercentAtAfterDigit(line, q');
        }
      }
    } else {
      var j :| 0 <= j < |line| && PercentAt(line, j).Some?;
      var e := AppleUtils.DigitRunEnd(line, j);
      assert 0 < e < |line| && line[e] == '%' && IsDigit(line[e - 1]);
    }
  }

  /** When the parser finds a value, it is the value of the whole digit run that ends at the
      first '%' with a digit right before it. */
  lemma ParseProgressSome(line: string)
    requires ParseProgress(line).Some?
    ensures exists i: nat, q: nat :: Captures(line, i, q) && NoEarlierPercent(line, q)
                           && AllDigits(line[i..q]) && ParseProgress(line).value == DigitsValue(line[i..q])
  {
    var j :| 0 <= j < |line| && PercentAt(line, j) == ParseProgress(line)
             && forall j' :: 0 <= j' < j ==> PercentAt(line, j').None?;
    var q := AppleUtils.DigitRunEnd(line, j);
    assert q < |line| && line[q] == '%';
    assert AllDigits(line[j..q]);
    assert ParseProgress(line).value == DigitsValue(line[j..q]);
    assert j == 0 || !IsDigit(line[j - 1]) by {
      if j > 0 && IsDigit(line[j - 1]) {
        PercentAtExtends(line, j);
      }
    }
    forall q' | 0 < q' < q && q' < |line| && line[q'] == '%'
      ensures !IsDigit(line[q' - 1])
    {
      if IsDigit(line[q' - 1]) {
        assert q' < j;
        PercentAtAfterDigit(line, q');
      }
    }
    assert Captures(line, j, q);
  }

  /** The converse: a maximal digit run closed by the first '%' that follows a digit is what the
      parser returns. With `ParseProgressSome` this pins the result down completely. */
  lemma ParseProgressCaptures(line: string, i: nat, q: nat)
    requires Captures(line, i, q) && NoEarlierPercent(line, q)
    ensures AllDigits(line[i..q]) && ParseProgress(line) == Some(DigitsValue(line[i..q]))
  {
    assert IsDigit(line[q - 1]);
    ParseProgressNone(line);
    ParseProgressSome(line);
    var i': nat, q': nat :| Captures(line, i', q') && NoEarlierPercent(line, q')
                  && AllDigits(line[i'..q']) && ParseProgress(line).value == DigitsValue(line[i'..q']);
    CapturesUnique(line, i, q, i', q');
  }

  /** Digits before the percentage that no '%' follows do not count. */
  lemma ParseProgressExample(line: string)
    requires line == "Track 12 of 20: 45%"
    ensures ParseProgress(line) == Some(45)
  {
    assert line[16..18] == "45";
    assert DigitsValue("45") == 45 by {
      assert "45"[..1] == "4";
      assert "4"[..0] == "";
    }
    ParseProgressCaptures(line, 16, 18);
  }

  // ---------------------------------------------------------------------------------------------
  // _monitor_download_process with _update_progress

  /** What the child process shows the bot: its stdout lines, its stderr and its exit status. */
  datatype Process = Process(stdout: seq<string>, stderr: string, returnCode: int)

  /** `{'success': True}` or `{'success': False, 'error': ...}` */
  datatype DownloadResult = Success | Failure(error: string)

  /** The parsed progress of each stored line. */
  function Progresses(chunks: seq<string>): (r: seq<Option<nat>>)
    ensures |r| == |chunks| && forall i :: 0 <= i < |chunks| ==> r[i] == ParseProgress(chunks[i])
  {
    seq(|chunks|, i requires 0 <= i < |chunks| => ParseProgress(chunks[i]))
  }

  /** `last_progress` after a run of parsed values: the last non-zero one, 0 when there is none. */
  function LastProgress(vals: seq<Option<nat>>): nat {
    if vals == [] then 0
    else if vals[|vals| - 1].Some? && vals[|vals| - 1].value != 0 then vals[|vals| - 1].value
    else LastProgress(vals[..|vals| - 1])
  }

  /** Whether the value at index `i` makes the monitor send an edit: it is truthy, differs from
      `last_progress` and is a multiple of 5. */
  predicate EditsAt(vals: seq<Option<nat>>, i: nat)
    requires i < |vals|
  {
    vals[i].Some? && vals[i].value != 0 && vals[i].value != LastProgress(vals[..i]) && vals[i].value % 5 == 0
  }

  /** The progress values the monitor reports, in order. */
  function ThrottledEdits(vals: seq<Option<nat>>): seq<nat> {
    if vals == [] then []
    else ThrottledEdits(vals[..|vals| - 1]) + (if EditsAt(vals, |vals| - 1) then [vals[|vals| - 1].value] else [])
  }

  /** The text `_update_progress` sends. */
  function MonitorMessage(p: nat): string {
    "\U{1F34E} Apple Music Progress: " + NatToString(p) + "%"
  }

  function MonitorMessages(ps: seq<nat>): (r: seq<string>)
    ensures |r| == |ps| && forall i :: 0 <= i < |ps| ==> r[i] == MonitorMessage(ps[i])
  {
    seq(|ps|, i requires 0 <= i < |ps| => MonitorMessage(ps[i]))
  }

  /** The error text on a non-zero exit: the stripped stderr, or failing that the last five
      stored lines joined by newlines. */
  function ErrorText(stderr: string, chunks: seq<string>): string {
    if Strip(stderr) != [] then Strip(stderr) else JoinWith("\n", LastN(chunks, 5))
  }

  function MonitorResult(returnCode: int, stderr: string, chunks: seq<string>): DownloadResult {
    if returnCode != 0 then Failure(ErrorText(stderr, chunks)) else Success
  }

  /** `_monitor_download_process(process, user)`; `tracking` says that `user` is given and has a
      `'bot_msg'`. Returns the stored lines, the edits sent and the result. */
  method MonitorDownloadProcess(process: Process, tracking: bool)
    returns (chunks: seq<string>, edits: seq<string>, result: DownloadResult)
    ensures chunks == StripAll(process.stdout)
    ensures edits == if tracking then MonitorMessages(ThrottledEdits(Progresses(chunks))) else []
    ensures result == MonitorResult(process.returnCode, process.stderr, chunks)
  {
    chunks := [];
    edits := [];
    var lastProgress := 0;
    var i := 0;
    while i < |process.stdout|
      invariant 0 <= i <= |process.stdout| && chunks == StripAll(process.stdout[..i])
      invariant tracking ==> lastProgress == LastProgress(Progresses(chunks))
      invariant edits == if tracking then MonitorMessages(ThrottledEdits(Progresses(chunks))) else []
    {
      var lineStr := Strip(process.stdout[i]);
      ghost var vals := Progresses(chunks);
      ghost var p := ParseProgress(lineStr);
      ProgressesSnoc(chunks, lineStr);
      ThrottleSnoc(vals, p);
      MonitorMessagesSnoc(ThrottledEdits(vals),
        if p.Some? && p.value != 0 && p.value != LastProgress(vals) && p.value % 5 == 0 then [p.value] else []);
      StripAllSnoc(process.stdout, i);
      chunks := chunks + [lineStr];
      if tracking {
        var progress := ParseProgress(lineStr);
        if progress.Some? && progress.value != 0 && progress.value != lastProgress {
          if progress.value % 5 == 0 {
            edits := edits + [MonitorMessage(progress.value)];
          }
          lastProgress := progress.value;
        }
      }
      i := i + 1;
    }
    assert process.stdout[..i] == process.stdout;
    if process.returnCode != 0 {
      result := Failure(if Strip(process.stderr) != [] then Strip(process.stderr) else JoinWith("\n", LastN(chunks, 5)));
    } else {
      result := Success;
    }
  }

  /** Appending one value to the run: how `last_progress` and the reported values move. */
  lemma ThrottleSnoc(vals: seq<Option<nat>>, v: Option<nat>)
    ensures LastProgress(vals + [v]) == if v.Some? && v.value != 0 then v.value else LastProgress(vals)
    ensures ThrottledEdits(vals + [v]) == ThrottledEdits(vals)
              + (if v.Some? && v.value != 0 && v.value != LastProgress(vals) && v.value % 5 == 0 then [v.value] else [])
  {
    assert (vals + [v])[..|vals|] == vals;
  }

  lemma ProgressesSnoc(chunks: seq<string>, line: string)
    ensures Progresses(chunks + [line]) == Progresses(chunks) + [ParseProgress(line)]
  {
    assert |Progresses(chunks + [line])| == |chunks| + 1;
  }

  lemma MonitorMessagesSnoc(ps: seq<nat>, more: seq<nat>)
    requires |more| <= 1
    ensures MonitorMessages(ps + more) == MonitorMessages(ps) + (if more == [] then [] else [MonitorMessage(more[0])])
  {
    if more == [] {
      assert ps + more == ps;
    }
  }

  /** `last_progress` is the last non-zero value seen, 0 when there is none. */
  lemma {:induction false} LastProgressIsLastNonZero(vals: seq<Option<nat>>)
    ensures LastProgress(vals) == 0 <==> forall i :: 0 <= i < |vals| && vals[i].Some? ==> vals[i].value == 0
    ensures LastProgress(vals) != 0 ==>
              exists i :: 0 <= i < |vals| && vals[i] == Some(LastProgress(vals))
                          && forall j :: i < j < |vals| && vals[j].Some? ==> vals[j].value == 0
    decreases |vals|
  {
    if vals != [] {
      var init := vals[..|vals| - 1];
      LastProgressIsLastNonZero(init);
      if !(vals[|vals| - 1].Some? && vals[|vals| - 1].value != 0) && LastProgress(vals) != 0 {
        var i :| 0 <= i < |init| && init[i] == Some(LastProgress(init))
                 && forall j :: i < j < |init| && init[j].Some? ==> init[j].value == 0;
        assert vals[i] == init[i];
      }
    }
  }

  /** Every reported value is a positive multiple of 5, and the same value arriving twice in a
      row is reported at most once. */
  lemma {:induction false} ThrottledEditsShape(vals: seq<Option<nat>>)
    ensures forall p :: p in ThrottledEdits(vals) ==> p > 0 && p % 5 == 0
    ensures |ThrottledEdits(vals)| <= |vals|
    ensures forall i :: 0 < i < |vals| && vals[i] == vals[i - 1] ==> !EditsAt(vals, i)
    decreases |vals|
  {
    if vals != [] {
      ThrottledEditsShape(vals[..|vals| - 1]);
    }
    forall i | 0 < i < |vals| && vals[i] == vals[i - 1] && vals[i].Some? && vals[i].value != 0
      ensures LastProgress(vals[..i]) == vals[i].value
    {
      assert vals[..i][..i - 1] == vals[..i - 1];
    }
  }

  /** `1, 4, 5, 5, 9, 10` draws edits for 5 and 10 only. */
  lemma ThrottleExampleRepeat(vals: seq<Option<nat>>)
    requires vals == [Some(1), Some(4), Some(5), Some(5), Some(9), Some(10)]
    ensures ThrottledEdits(vals) == [5, 10]
  {
    var v0: seq<Option<nat>> := [];
    var v1 := v0 + [Some(1)];
    var v2 := v1 + [Some(4)];
    var v3 := v2 + [Some(5)];
    var v4 := v3 + [Some(5)];
    var v5 := v4 + [Some(9)];
    ThrottleSnoc(v0, Some(1));
    ThrottleSnoc(v1, Some(4));
    ThrottleSnoc(v2, Some(5));
    ThrottleSnoc(v3, Some(5));
    ThrottleSnoc(v4, Some(9));
    ThrottleSnoc(v5, Some(10));
    assert vals == v5 + [Some(10)];
  }

  /** `5, 6, 5` draws an edit for 5 twice: 6 moves `last_progress` without an edit. */
  lemma ThrottleExampleReturn(vals: seq<Option<nat>>)
    requires vals == [Some(5), Some(6), Some(5)]
    ensures ThrottledEdits(vals) == [5, 5]
  {
    var v0: seq<Option<nat>> := [];
    var v1 := v0 + [Some(5)];
    var v2 := v1 + [Some(6)];
    ThrottleSnoc(v0, Some(5));
    ThrottleSnoc(v1, Some(6));
    ThrottleSnoc(v2, Some(5));
    assert vals == v2 + [Some(5)];
  }

  /** The error text falls back to the stored lines only when stderr is blank: it then starts
      with the fifth line from the end (or the first) and ends with the last line. */
  lemma ErrorTextChoice(stderr: string, chunks: seq<string>)
    ensures Strip(stderr) != [] ==> ErrorText(stderr, chunks) == Strip(stderr)
    ensures Strip(stderr) == [] && chunks != [] ==>
              EndsWith(ErrorText(stderr, chunks), chunks[|chunks| - 1])
              && StartsWith(ErrorText(stderr, chunks), chunks[if |chunks| <= 5 then 0 else |chunks| - 5])
    ensures Strip(stderr) == [] && chunks == [] ==> ErrorText(stderr, chunks) == ""
  {
    if Strip(stderr) == [] && chunks != [] {
      var tail := LastN(chunks, 5);
      JoinWithEnds("\n", tail);
      assert tail[|tail| - 1] == chunks[|chunks| - 1];
    }
  }

  lemma {:induction false} JoinWithEnds(sep: string, parts: seq<string>)
    requires parts != []
    ensures StartsWith(JoinWith(sep, parts), parts[0])
    ensures EndsWith(JoinWith(sep, parts), parts[|parts| - 1])
    decreases |parts|
  {
    if |parts| > 1 {
      var init := parts[..|parts| - 1];
      JoinWithEnds(sep, init);
      var j := JoinWith(sep, parts);
      assert j == JoinWith(sep, init) + sep + parts[|parts| - 1];
      assert j[..|parts[0]|] == JoinWith(sep, init)[..|parts[0]|];
      assert j[|j| - |parts[|parts| - 1]|..] == parts[|parts| - 1];
    }
  }

  // ---------------------------------------------------------------------------------------------
  // _handle_progress

  const NoMatchError := "'NoneType' object has no attribute 'group'"

  /** A line containing '%' on which `re.search` finds nothing: `.group` is then called on `None`. */
  predicate BadLine(line: string) {
    '%' in line && ParseProgress(line).None?
  }

  /** The reported values and the error, if any, after a run of stripped lines. */
  datatype ProgressTrace = ProgressTrace(reported: seq<nat>, error: Option<string>)

  /** One stripped line of `_handle_progress`, after the trace `t` of the lines before it. */
  function HandleStep(t: ProgressTrace, line: string): ProgressTrace {
    if t.error.Some? || '%' !in line then t
    else if ParseProgress(line).None? then ProgressTrace(t.reported, Some(NoMatchError))
    else if ParseProgress(line).value % 5 == 0 then ProgressTrace(t.reported + [ParseProgress(line).value], None)
    else t
  }

  function HandleTrace(lines: seq<string>): ProgressTrace {
    if lines == [] then ProgressTrace([], None)
    else HandleStep(HandleTrace(lines[..|lines| - 1]), lines[|lines| - 1])
  }

  lemma HandleTracePrefix(lines: seq<string>, i: nat)
    requires i < |lines|
    ensures HandleTrace(lines[..i + 1]) == HandleStep(HandleTrace(lines[..i]), lines[i])
  {
    assert lines[..i + 1][..i] == lines[..i];
  }

  /** The text `_handle_progress` sends. */
  function HandleMessage(p: nat): string {
    "\U{1F34E} Progress: " + NatToString(p) + "%"
  }

  function HandleMessages(ps: seq<nat>): (r: seq<string>)
    ensures |r| == |ps| && forall i :: 0 <= i < |ps| ==> r[i] == HandleMessage(ps[i])
  {
    seq(|ps|, i requires 0 <= i < |ps| => HandleMessage(ps[i]))
  }

  /** Each line with `.strip()` applied, in order. */
  function StripAll(lines: seq<string>): (r: seq<string>)
    ensures |r| == |lines| && forall i :: 0 <= i < |lines| ==> r[i] == Strip(lines[i])
  {
    MapSeq(Strip, lines)
  }

  lemma StripAllSnoc(lines: seq<string>, i: nat)
    requires i < |lines|
    ensures StripAll(lines[..i + 1]) == StripAll(lines[..i]) + [Strip(lines[i])]
  {
    MapSeqSnoc(Strip, lines, i);
  }

  /** The exception `_handle_progress` ends with, if any. */
  function HandleOutcome(process: Process): Option<string> {
    var t := HandleTrace(StripAll(process.stdout));
    if t.error.Some? then t.error
    else if process.returnCode != 0 then
      Some("Downloader failed: " + (if Strip(process.stderr) != [] then Strip(process.stderr) else "Unknown error"))
    else None
  }

  lemma HandleMessageSnoc(ps: seq<nat>, p: nat)
    ensures HandleMessages(ps + [p]) == HandleMessages(ps) + [HandleMessage(p)]
  {
    assert |HandleMessages(ps + [p])| == |ps| + 1;
  }

  /** `_handle_progress(process, user)`: the edits sent and the exception raised, if any. */
  method HandleProgress(process: Process) returns (edits: seq<string>, raised: Option<string>)
    ensures edits == HandleMessages(HandleTrace(StripAll(process.stdout)).reported)
    ensures raised == HandleOutcome(process)
  {
    edits, raised := HandleLines(process.stdout);
    if raised.None? && process.returnCode != 0 {
      var error := if Strip(process.stderr) != [] then Strip(process.stderr) else "Unknown error";
      raised := Some("Downloader failed: " + error);
    }
  }

  /** The `while True` loop of `_handle_progress`, up to end of output or the first exception. */
  method HandleLines(stdout: seq<string>) returns (edits: seq<string>, raised: Option<string>)
    ensures edits == HandleMessages(HandleTrace(StripAll(stdout)).reported)
    ensures raised == HandleTrace(StripAll(stdout)).error
  {
    edits := [];
    raised := None;
    var i := 0;
    ghost var lines := StripAll(stdout);
    while i < |stdout| && raised.None?
      invariant 0 <= i <= |stdout|
      invariant HandleTrace(lines[..i]).error == raised
      invariant edits == HandleMessages(HandleTrace(lines[..i]).reported)
    {
      var lineStr := Strip(stdout[i]);
      ghost var before := HandleTrace(lines[..i]);
      HandleTracePrefix(lines, i);
      assert HandleTrace(lines[..i + 1]) == HandleStep(before, lineStr);
      if '%' in lineStr {
        var progress := ParseProgress(lineStr);
        if progress.None? {
          raised := Some(NoMatchError);
        } else if progress.value % 5 == 0 {
          HandleMessageSnoc(before.reported, progress.value);
          edits := edits + [HandleMessage(progress.value)];
        }
      }
      i := i + 1;
    }
    if raised.Some? {
      HandleTraceStops(lines, i);
    } else {
      assert lines[..|lines|] == lines;
    }
  }

  /** Once a line has raised, later lines change nothing. */
  lemma {:induction false} HandleTraceStops(lines: seq<string>, k: nat)
    requires k <= |lines| && HandleTrace(lines[..k]).error.Some?
    ensures HandleTrace(lines) == HandleTrace(lines[..k])
    decreases |lines| - k
  {
    if k < |lines| {
      assert lines[..k + 1][..k] == lines[..k];
      HandleTraceStops(lines, k + 1);
    } else {
      assert lines[..k] == lines;
    }
  }

  /** `_handle_progress` raises on the lines exactly when one of them contains '%' without a
      digit right before any '%'; every reported value is a multiple of 5. */
  lemma {:induction false} HandleTraceShape(lines: seq<string>)
    ensures HandleTrace(lines).error.Some? <==> exists i :: 0 <= i < |lines| && BadLine(lines[i])
    ensures HandleTrace(lines).error.Some? ==> HandleTrace(lines).error == Some(NoMatchError)
    ensures forall p :: p in HandleTrace(lines).reported ==> p % 5 == 0
    decreases |lines|
  {
    if lines != [] {
      var init := lines[..|lines| - 1];
      HandleTraceShape(init);
      assert HandleTrace(lines) == HandleStep(HandleTrace(init), lines[|lines| - 1]);
      if exists i :: 0 <= i < |init| && BadLine(init[i]) {
        var i :| 0 <= i < |init| && BadLine(init[i]);
        assert lines[i] == init[i];
      }
      if exists i :: 0 <= i < |lines| && BadLine(lines[i]) {
        var i :| 0 <= i < |lines| && BadLine(lines[i]);
        if i < |init| {
          assert init[i] == lines[i];
        }
      }
    }
  }

  /** What one line contributes to the reports: its value, when it has a '%', parses and is a
      multiple of 5. */
  function FiveOf(line: string): seq<nat> {
    if '%' in line && ParseProgress(line).Some? && ParseProgress(line).value % 5 == 0
    then [ParseProgress(line).value] else []
  }

  /** The values of the lines, in order, that are multiples of 5. */
  function Fives(lines: seq<string>): seq<nat> {
    if lines == [] then [] else FiveOf(lines[0]) + Fives(lines[1..])
  }

  lemma {:induction false} FivesSnoc(lines: seq<string>, line: string)
    ensures Fives(lines + [line]) == Fives(lines) + FiveOf(line)
    decreases |lines|
  {
    if lines == [] {
      assert [line][1..] == [];
    } else {
      assert (lines + [line])[1..] == lines[1..] + [line];
      FivesSnoc(lines[1..], line);
    }
  }

  /** On lines that do not raise, `_handle_progress` reports exactly the parsed values that are
      multiples of 5, each time one occurs and in order (0 and repeats included). */
  lemma {:induction false} HandleReportsAllFives(lines: seq<string>)
    ensures HandleTrace(lines).error.None? ==> HandleTrace(lines).reported == Fives(lines)
    decreases |lines|
  {
    if lines != [] {
      var init, last := lines[..|lines| - 1], lines[|lines| - 1];
      assert lines == init + [last];
      HandleReportsAllFives(init);
      FivesSnoc(init, last);
    }
  }

  /** When a line raises, what was reported before it is the multiples of 5 among the earlier
      lines, and nothing more is reported. */
  lemma {:induction false} HandleReportsUpToFailure(lines: seq<string>, k: nat)
    requires k < |lines| && BadLine(lines[k])
    requires forall j :: 0 <= j < k ==> !BadLine(lines[j])
    ensures HandleTrace(lines) == ProgressTrace(Fives(lines[..k]), Some(NoMatchError))
  {
    CleanPrefix(lines, k);
    RaisesAt(lines, k);
    HandleTraceStops(lines, k + 1);
  }

  /** A bad line after lines that did not raise ends the trace with what was reported before
      it. */
  lemma {:induction false} RaisesAt(lines: seq<string>, k: nat)
    requires k < |lines| && HandleTrace(lines[..k]).error.None? && BadLine(lines[k])
    ensures HandleTrace(lines[..k + 1]) == ProgressTrace(HandleTrace(lines[..k]).reported, Some(NoMatchError))
  {
    HandleTracePrefix(lines, k);
    BadStep(HandleTrace(lines[..k]), lines[k]);
  }

  lemma {:induction false} CleanPrefix(lines: seq<string>, k: nat)
    requires k <= |lines|
    requires forall j :: 0 <= j < k ==> !BadLine(lines[j])
    ensures HandleTrace(lines[..k]) == ProgressTrace(Fives(lines[..k]), None)
  {
    var before := lines[..k];
    assert forall j :: 0 <= j < |before| ==> before[j] == lines[j];
    HandleTraceShape(before);
    HandleReportsAllFives(before);
  }

  lemma BadStep(t: ProgressTrace, line: string)
    requires t.error.None? && BadLine(line)
    ensures HandleStep(t, line) == ProgressTrace(t.reported, Some(NoMatchError))
  {
  }

  /** Unlike the monitor, `_handle_progress` reports 0 and repeats: `5%, 5%, 0%` is reported as
      5, 5, 0, where the monitor reports 5 once. */
  lemma HandleVersusMonitor(lines: seq<string>)
    requires lines == ["5%", "5%", "0%"]
    ensures HandleTrace(lines).reported == [5, 5, 0]
    ensures ThrottledEdits(Progresses(lines)) == [5]
  {
    HandleReportsEach(lines);
    MonitorReportsOnce(lines);
  }

  lemma HandleReportsEach(lines: seq<string>)
    requires lines == ["5%", "5%", "0%"]
    ensures HandleTrace(lines).reported == [5, 5, 0]
  {
    FivePercent("5%");
    FivePercent("0%");
    HandleTracePrefix(lines, 0);
    HandleTracePrefix(lines, 1);
    HandleTracePrefix(lines, 2);
    assert lines[..0] == [] && lines[..3] == lines;
  }

  lemma MonitorReportsOnce(lines: seq<string>)
    requires lines == ["5%", "5%", "0%"]
    ensures ThrottledEdits(Progresses(lines)) == [5]
  {
    FivePercent("5%");
    FivePercent("0%");
    var v0: seq<Option<nat>> := [];
    var v1 := v0 + [Some(5)];
    var v2 := v1 + [Some(5)];
    assert Progresses(lines) == v2 + [Some(0)];
    ThrottleSnoc(v0, Some(5));
    ThrottleSnoc(v1, Some(5));
    ThrottleSnoc(v2, Some(0));
  }

  lemma FivePercent(line: string)
    requires line == "5%" || line == "0%"
    ensures '%' in line
    ensures ParseProgress(line) == Some(if line == "5%" then 5 else 0)
  {
    assert line[0..1] == [line[0]];
    assert DigitsValue([line[0]]) == (line[0] - '0') as nat by {
      assert [line[0]][..0] == [];
    }
    ParseProgressCaptures(line, 0, 1);
    assert line[1] == '%';
  }

  // ---------------------------------------------------------------------------------------------
  // command layout

  /** `[DOWNLOADER_PATH, *options, "--output", output_dir, url]` */
  function DownloaderCommand(path: string, options: seq<string>, outputDir: string, url: string): (cmd: seq<string>)
    ensures |cmd| == |options| + 4 && cmd[0] == path && cmd[|cmd| - 1] == url
    ensures cmd[1..|cmd| - 3] == options && cmd[|cmd| - 3] == "--output" && cmd[|cmd| - 2] == outputDir
  {
    [path] + options + ["--output", outputDir, url]
  }

  /** Where the downloader is missing, `run_apple_downloader` reports this error. */
  function NotFoundError(path: string): string {
    "Apple downloader not found at " + path
  }

  /** `run_apple_downloader(url, user_id, options, user)` with the downloader's presence, the
      storage root and the child process as inputs. `userKey` is `str(user_id)`: the caller in
      apple.py passes a directory path where a user id is expected, so it is kept as text.
      `options` is spliced verbatim (an absent list is the empty one). Returns the command run,
      if any, the edits and the result. */
  method RunAppleDownloader(url: string, userKey: string, options: seq<string>, tracking: bool,
                            storage: string, downloaderPath: string, downloaderExists: bool,
                            process: Process)
    returns (ran: Option<seq<string>>, edits: seq<string>, result: DownloadResult)
    ensures !downloaderExists ==> ran == None && edits == [] && result == Failure(NotFoundError(downloaderPath))
    ensures downloaderExists ==>
              ran == Some(DownloaderCommand(downloaderPath, options,
                                            AppleUtils.AppleDirectory(storage, userKey), url))
              && result == MonitorResult(process.returnCode, process.stderr, StripAll(process.stdout))
              && edits == if tracking then MonitorMessages(ThrottledEdits(Progresses(StripAll(process.stdout)))) else []
  {
    var outputDir := AppleUtils.AppleDirectory(storage, userKey);
    if !downloaderExists {
      return None, [], Failure(NotFoundError(downloaderPath));
    }
    var cmd := [downloaderPath] + options + ["--output", outputDir, url];
    ran := Some(cmd);
    var chunks;
    chunks, edits, result := MonitorDownloadProcess(process, tracking);
  }

  // ---------------------------------------------------------------------------------------------
  // handle_apple_download

  /** What the handler does that the user or the filesystem can see. */
  datatype Event = Edit(text: string) | Spawn(cmd: seq<string>, cwd: string) | Cleanup(dir: string)

  const InvalidUrlText := "Invalid Apple Music URL"
  const CompletedText := "\U{2705} Apple Music download completed!"

  function ErrorEdit(error: string): string {
    "\U{274C} Apple Music Error: " + error
  }

  function MissingToolsError(missing: seq<string>): string {
    "Missing required tools: " + JoinWith(", ", missing)
  }

  /** The last events of the handler once the downloader has run: cleanup then the completion
      edit, or the error edit then cleanup. */
  function Finish(raised: Option<string>, dir: string): seq<Event> {
    match raised
    case None => [Cleanup(dir), Edit(CompletedText)]
    case Some(e) => [Edit(ErrorEdit(e)), Cleanup(dir)]
  }

  function Edits(texts: seq<string>): (r: seq<Event>)
    ensures |r| == |texts| && forall i :: 0 <= i < |texts| ==> r[i] == Edit(texts[i])
  {
    seq(|texts|, i requires 0 <= i < |texts| => Edit(texts[i]))
  }

  /** The events of `handle_apple_download`. */
  function DownloadEvents(url: string, userId: int, options: Dict<AppleUtils.OptValue>,
                          storage: string, downloaderPath: string, missingTools: seq<string>,
                          process: Process): seq<Event>
  {
    var dir := AppleUtils.AppleDirectory(storage, IntToString(userId));
    if !AppleUtils.ValidateAppleUrl(url) then [Edit(InvalidUrlText)]
    else if missingTools != [] then [Edit(ErrorEdit(MissingToolsError(missingTools))), Cleanup(dir)]
    else
      [Spawn(DownloaderCommand(downloaderPath, AppleUtils.OptionTokens(options), dir, url), dir)]
      + Edits(HandleMessages(HandleTrace(StripAll(process.stdout)).reported))
      + Finish(HandleOutcome(process), dir)
  }

  /** `handle_apple_download(url, user, options)`. The tools `verify_apple_dependencies` found
      missing and the child process are inputs. */
  method HandleAppleDownload(url: string, userId: int, options: Dict<AppleUtils.OptValue>,
                             storage: string, downloaderPath: string, missingTools: seq<string>,
                             process: Process)
    returns (events: seq<Event>)
    ensures events == DownloadEvents(url, userId, options, storage, downloaderPath, missingTools, process)
  {
    if !AppleUtils.ValidateAppleUrl(url) {
      return [Edit(InvalidUrlText)];
    }
    var dir := AppleUtils.AppleDirectory(storage, IntToString(userId));
    if missingTools != [] {
      return [Edit(ErrorEdit(MissingToolsError(missingTools))), Cleanup(dir)];
    }
    var flags := BuildAppleOptions(options);
    var cmd := [downloaderPath] + flags + ["--output", dir, url];
    events := [Spawn(cmd, dir)];
    var edits, raised := HandleProgress(process);
    events := events + Edits(edits);
    if raised.None? {
      events := events + [Cleanup(dir), Edit(CompletedText)];
    } else {
      events := events + [Edit(ErrorEdit(raised.value)), Cleanup(dir)];
    }
  }

  /** An invalid URL gets one edit and nothing else: no download and no cleanup. */
  lemma InvalidUrlStopsEarly(url: string, userId: int, options: Dict<AppleUtils.OptValue>,
                             storage: string, downloaderPath: string, missingTools: seq<string>,
                             process: Process)
    requires !AppleUtils.ValidateAppleUrl(url)
    ensures DownloadEvents(url, userId, options, storage, downloaderPath, missingTools, process) == [Edit(InvalidUrlText)]
  {
  }

  /** The downloader runs only for a valid URL with every tool present, and then it is the first
      event, with the whitelisted flags between the path and "--output" and the URL last. */
  lemma SpawnOnlyWhenReady(url: string, userId: int, options: Dict<AppleUtils.OptValue>,
                           storage: string, downloaderPath: string, missingTools: seq<string>,
                           process: Process)
    ensures var events := DownloadEvents(url, userId, options, storage, downloaderPath, missingTools, process);
            (exists i :: 0 <= i < |events| && events[i].Spawn?)
            <==> AppleUtils.ValidateAppleUrl(url) && missingTools == []
    ensures var events := DownloadEvents(url, userId, options, storage, downloaderPath, missingTools, process);
            AppleUtils.ValidateAppleUrl(url) && missingTools == [] ==>
              events[0].Spawn? && events[0].cmd[|events[0].cmd| - 1] == url
              && events[0].cmd[1..|events[0].cmd| - 3] == AppleUtils.OptionTokens(options)
  {
    var events := DownloadEvents(url, userId, options, storage, downloaderPath, missingTools, process);
    if AppleUtils.ValidateAppleUrl(url) && missingTools == [] {
      assert events[0].Spawn?;
    }
  }

  /** Whenever the URL passes validation the workspace is cleaned exactly once, on success and on
      failure alike, and it is the last or next-to-last event. */
  lemma CleanupOnBothExits(url: string, userId: int, options: Dict<AppleUtils.OptValue>,
                           storage: string, downloaderPath: string, missingTools: seq<string>,
                           process: Process)
    requires AppleUtils.ValidateAppleUrl(url)
    ensures var events := DownloadEvents(url, userId, options, storage, downloaderPath, missingTools, process);
            |events| >= 2
            && (events[|events| - 1].Cleanup? || events[|events| - 2].Cleanup?)
            && !(events[|events| - 1].Cleanup? && events[|events| - 2].Cleanup?)
            && forall i :: 0 <= i < |events| - 2 ==> !events[i].Cleanup?
  {
    var dir := AppleUtils.AppleDirectory(storage, IntToString(userId));
    var events := DownloadEvents(url, userId, options, storage, downloaderPath, missingTools, process);
    if missingTools == [] {
      var head := [Spawn(DownloaderCommand(downloaderPath, AppleUtils.OptionTokens(options), dir, url), dir)]
                  + Edits(HandleMessages(HandleTrace(StripAll(process.stdout)).reported));
      var tail := Finish(HandleOutcome(process), dir);
      assert events == head + tail;
      assert |tail| == 2;
      forall i | 0 <= i < |events| - 2 ensures !events[i].Cleanup? {
        assert events[i] == head[i];
      }
    }
  }

  // ---------------------------------------------------------------------------------------------
  // build_apple_options, the module's own copy

  /** The copy's whitelist. */
  const DownloaderOptionMap: map<string, string> := map[
    "aac" := "--aac", "aac-type" := "--aac-type", "alac-max" := "--alac-max",
    "all-album" := "--all-album", "atmos" := "--atmos", "atmos-max" := "--atmos-max",
    "debug" := "--debug", "mv-audio-type" := "--mv-audio-type", "mv-max" := "--mv-max",
    "select" := "--select", "song" := "--song"]

  /** The copy's whitelist is the one in the utilities module. */
  lemma OptionMapsAgree()
    ensures DownloaderOptionMap == AppleUtils.OptionMap
  {
  }

  /** The module-level `build_apple_options`, which replaces the imported one: it produces the
      same tokens as the utilities' version for every input. */
  method BuildAppleOptions(options: Dict<AppleUtils.OptValue>) returns (cmd: seq<string>)
    ensures cmd == AppleUtils.OptionTokens(options)
  {
    OptionMapsAgree();
    cmd := [];
    for i := 0 to |options|
      invariant cmd == AppleUtils.OptionTokens(options[..i])
    {
      var (key, value) := options[i];
      if key in DownloaderOptionMap {
        if value.BoolVal? {
          cmd := cmd + [DownloaderOptionMap[key]];
        } else {
          cmd := cmd + [DownloaderOptionMap[key], value.s];
        }
      }
      assert options[..i + 1][..i] == options[..i];
    }
    assert options[..|options|] == options;
  }
}
