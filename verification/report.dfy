/**
  What the watcher reports for one `change` event (a finished rebuild) and
  for one `error` event (a failed build): the lines written to the user
  interface and the analytics payloads.
 */
module Report {
  import opened Base
  import opened Decimal
  import opened Terminal
  import opened Analytics

  // ---------------------------------------------------------------------
  // Change report
  // ---------------------------------------------------------------------

  /** A rebuild duration in whole milliseconds (1 ms = 1,000,000 ns), truncated. */
  function Millis(totalTime: nat): (ms: nat)
    ensures ms * 1_000_000 <= totalTime < (ms + 1) * 1_000_000
    ensures totalTime % 1_000_000 == 0 ==> ms * 1_000_000 == totalTime
  {
    totalTime / 1_000_000
  }

  function SuccessText(ms: nat): string {
    "Build successful - " + FromNat(ms) + "ms."
  }

  const RebuildMessagePrefix: string := "broccoli rebuild time: "

  function RebuildTrack(ms: nat): Track {
    Track("ember rebuild", RebuildMessagePrefix + FromNat(ms) + "ms")
  }

  function RebuildTiming(ms: nat): Timing {
    Timing("rebuild", "rebuild time", "broccoli rebuild time", ms)
  }

  datatype ChangeReport = ChangeReport(lines: seq<seq<Sym>>, track: Track, timing: Timing)

  /**
    The number written between `prefix` and `suffix` in `s`, if `s` is
    exactly `prefix`, a canonical decimal numeral and `suffix`.
   */
  function NumberBetween(s: string, prefix: string, suffix: string): Option<nat>
  {
    if |s| >= |prefix| + |suffix|
      && s[..|prefix|] == prefix
      && s[|s| - |suffix|..] == suffix
      && Canonical(s[|prefix|..|s| - |suffix|])
    then Some(ToNat(s[|prefix|..|s| - |suffix|]))
    else None
  }

  lemma NumberBetweenRoundTrip(prefix: string, n: nat, suffix: string)
    ensures NumberBetween(prefix + FromNat(n) + suffix, prefix, suffix) == Some(n)
  {
    var s := prefix + FromNat(n) + suffix;
    assert s[..|prefix|] == prefix;
    assert s[|s| - |suffix|..] == suffix;
    assert s[|prefix|..|s| - |suffix|] == FromNat(n);
    ToNatFromNat(n);
  }

  /**
    The user-facing report of a rebuild that took `totalTime` nanoseconds:
    an empty line, then the green success line; one `track` and one
    `trackTiming` event. The success line, the track message and the timing
    value all carry the same millisecond figure.
   */
  function ReportChange(totalTime: nat): (r: ChangeReport)
    ensures Render(r.lines) == [Eol] + Paint(Green, SuccessText(Millis(totalTime))) + [Eol]
    ensures |r.lines| == 2 && r.lines[0] == []
    ensures forall k :: 0 <= k < |r.lines| ==> LineBreakFree(r.lines[k])
    ensures r.timing.value * 1_000_000 <= totalTime < (r.timing.value + 1) * 1_000_000
    ensures r.track.name == "ember rebuild"
    ensures r.timing == Timing("rebuild", "rebuild time", "broccoli rebuild time", r.timing.value)
    ensures NumberBetween(r.track.message, RebuildMessagePrefix, "ms") == Some(r.timing.value)
    ensures NumberBetween(Text(r.lines[1]), "Build successful - ", "ms.") == Some(r.timing.value)
  {
    var ms := Millis(totalTime);
    NumberBetweenRoundTrip(RebuildMessagePrefix, ms, "ms");
    NumberBetweenRoundTrip("Build successful - ", ms, "ms.");
    var lines := [[], Paint(Green, SuccessText(ms))];
    assert lines[1..] == [lines[1]] && lines[1..][1..] == [];
    assert Render(lines[1..]) == lines[1] + [Eol];
    ChangeReport(lines, RebuildTrack(ms), RebuildTiming(ms))
  }

  /** The report for the rebuild the change tests emit (12344000000 ns). */
  lemma ChangeReportExample()
    ensures SuccessText(Millis(12344000000)) == "Build successful - 12344ms."
    ensures ReportChange(12344000000).track
         == Track("ember rebuild", "broccoli rebuild time: 12344ms")
    ensures ReportChange(12344000000).timing
         == Timing("rebuild", "rebuild time", "broccoli rebuild time", 12344)
    ensures Render(ReportChange(12344000000).lines)
         == [Eol] + Paint(Green, "Build successful - 12344ms.") + [Eol]
  {
    assert Millis(12344000000) == 12344;
    assert FromNat(1) == "1";
    assert FromNat(12) == "12";
    assert FromNat(123) == "123";
    assert FromNat(1234) == "1234";
    assert FromNat(12344) == "12344";
    assert SuccessText(12344) == "Build successful - 12344ms.";
    assert RebuildTrack(12344) == Track("ember rebuild", "broccoli rebuild time: 12344ms");
    assert ReportChange(12344000000)
        == ChangeReport([[], Paint(Green, SuccessText(12344))], RebuildTrack(12344), RebuildTiming(12344));
  }

  // ---------------------------------------------------------------------
  // Error report
  // ---------------------------------------------------------------------

  /** A build error, or the plain `{message, stack}` object of an `error` event. */
  datatype BuildError = BuildError(
    message: string,
    file: Option<string>,
    line: Option<Positive>,
    col: Option<Positive>,
    stack: Option<string>)

  /**
    The parenthesised position after the file name: `(line:col)`, `(line)`,
    or nothing when there is no line, whether or not a column is known.
   */
  function LocationSuffix(line: Option<Positive>, col: Option<Positive>): string
  {
    match line
    case None => ""
    case Some(l) =>
      match col
      case None => " (" + FromNat(l) + ")"
      case Some(c) => " (" + FromNat(l) + ":" + FromNat(c) + ")"
  }

  const FilePrefix: string := "File: "

  /** The position a location line shows: a column only alongside a line. */
  datatype Location = Location(line: Option<Positive>, col: Option<Positive>)

  function Shown(line: Option<Positive>, col: Option<Positive>): Location
  {
    if line.Some? then Location(line, col) else Location(None, None)
  }

  /** The index of the first `c` in `s`, or `|s|` when there is none. */
  function IndexOf(s: string, c: char): (k: nat)
    ensures k <= |s|
    ensures forall i :: 0 <= i < k ==> s[i] != c
    ensures k < |s| ==> s[k] == c
  {
    if |s| == 0 then 0 else if s[0] == c then 0 else 1 + IndexOf(s[1..], c)
  }

  function ParsePositive(s: string): Option<Positive>
  {
    if Canonical(s) && ToNat(s) > 0 then Some(ToNat(s)) else None
  }

  /** Reads a location suffix back: the inverse of `LocationSuffix`. */
  function DecodeLocation(suffix: string): Option<Location>
  {
    if suffix == "" then Some(Location(None, None))
    else if |suffix| >= 3 && suffix[..2] == " (" && suffix[|suffix| - 1] == ')' then
      DecodePosition(suffix[2..|suffix| - 1])
    else None
  }

  /** Reads the text between the parentheses: `line` or `line:col`. */
  function DecodePosition(body: string): Option<Location>
  {
    var k := IndexOf(body, ':');
    if k == |body| then
      match ParsePositive(body)
      case Some(l) => Some(Location(Some(l), None))
      case None => None
    else
      match (ParsePositive(body[..k]), ParsePositive(body[k + 1..]))
      case (Some(l), Some(c)) => Some(Location(Some(l), Some(c)))
      case _ => None
  }

  lemma ParsePositiveFromNat(n: Positive)
    ensures ParsePositive(FromNat(n)) == Some(n)
  {
    ToNatFromNat(n);
  }

  lemma DecodeParenthesised(body: string)
    ensures DecodeLocation(" (" + body + ")") == DecodePosition(body)
  {
    var suffix := " (" + body + ")";
    assert suffix[..2] == " (" && suffix[2..|suffix| - 1] == body;
  }

  lemma LineOnlyRoundTrip(l: Positive)
    ensures DecodeLocation(LocationSuffix(Some(l), None)) == Some(Location(Some(l), None))
  {
    var body := FromNat(l);
    assert LocationSuffix(Some(l), None) == " (" + body + ")";
    DecodeParenthesised(body);
    ParsePositiveFromNat(l);
  }

  lemma LineAndColumnRoundTrip(l: Positive, c: Positive)
    ensures DecodeLocation(LocationSuffix(Some(l), Some(c))) == Some(Location(Some(l), Some(c)))
  {
    var dl, dc := FromNat(l), FromNat(c);
    var body := dl + ":" + dc;
    assert LocationSuffix(Some(l), Some(c)) == " (" + body + ")";
    DecodeParenthesised(body);
    ParsePositiveFromNat(l);
    ParsePositiveFromNat(c);
    NoColonInNumber(l);
    SplitAtColon(dl, dc);
  }

  /** A rendered number holds no `:`. */
  lemma NoColonInNumber(n: nat)
    ensures ':' !in FromNat(n)
  {
    var d := FromNat(n);
    forall i | 0 <= i < |d|
      ensures d[i] != ':'
    {
      assert IsDigit(d[i]);
    }
  }

  /** The first `:` of `a + ":" + b` is the one after `a` when `a` has none. */
  lemma SplitAtColon(a: string, b: string)
    requires ':' !in a
    ensures var body := a + ":" + b;
      && IndexOf(body, ':') == |a| && body[..|a|] == a && body[|a| + 1..] == b
  {
    var body := a + ":" + b;
    var k := IndexOf(body, ':');
    assert body[|a|] == ':';
    if k < |a| {
      assert false;
    }
    assert body[..|a|] == a;
    assert body[|a| + 1..] == b;
  }

  /**
    The suffix records the line and, when there is a line, the column;
    a column without a line is lost.
   */
  lemma LocationRoundTrip(line: Option<Positive>, col: Option<Positive>)
    ensures DecodeLocation(LocationSuffix(line, col)) == Some(Shown(line, col))
  {
    match line
    case None =>
    case Some(l) =>
      match col
      case None => LineOnlyRoundTrip(l);
      case Some(c) => LineAndColumnRoundTrip(l, c);
  }

  /**
    The location line of an error in `file`: the file name after `File: `,
    then nothing when there is no line, whatever the column; otherwise a
    parenthesised suffix with a `:` in it exactly when a column is known.
   */
  function FileLine(file: string, line: Option<Positive>, col: Option<Positive>): (r: string)
    ensures |r| >= |FilePrefix + file|
    ensures r[..|FilePrefix + file|] == FilePrefix + file
    ensures line.None? ==> r == FilePrefix + file
    ensures line.Some? ==> |r| >= |FilePrefix + file| + 3
    ensures line.Some? ==> r[|FilePrefix + file|..|FilePrefix + file| + 2] == " (" && r[|r| - 1] == ')'
    ensures line.Some? ==> (col.Some? <==> ':' in r[|FilePrefix + file|..])
  {
    var p := FilePrefix + file;
    var suffix := LocationSuffix(line, col);
    LocationSuffixShape(line, col);
    assert (p + suffix)[..|p|] == p && (p + suffix)[|p|..] == suffix;
    assert line.Some? ==> (p + suffix)[|p|..|p| + 2] == suffix[..2];
    p + suffix
  }

  /** The suffix is empty without a line; otherwise parenthesised, with a `:` exactly when a column is known. */
  lemma LocationSuffixShape(line: Option<Positive>, col: Option<Positive>)
    ensures line.None? ==> LocationSuffix(line, col) == ""
    ensures line.Some? ==> var suffix := LocationSuffix(line, col);
      && |suffix| >= 3 && suffix[..2] == " (" && suffix[|suffix| - 1] == ')'
      && (col.Some? <==> ':' in suffix)
  {
    if line.Some? {
      var suffix := LocationSuffix(line, col);
      var dl := FromNat(line.value);
      NoColonInNumber(line.value);
      match col
      case None =>
        assert suffix == " (" + dl + ")";
        assert ':' !in suffix by {
          forall i | 0 <= i < |suffix|
            ensures suffix[i] != ':'
          {
            if 2 <= i < 2 + |dl| {
              assert suffix[i] == dl[i - 2];
            }
          }
        }
      case Some(c) =>
        assert suffix[2 + |dl|] == ':';
    }
  }

  /**
    The location line can be read back: after the file name comes a suffix
    that decodes to the line, and to the column only when there is a line.
   */
  lemma FileLineDecodes(file: string, line: Option<Positive>, col: Option<Positive>)
    ensures DecodeLocation(FileLine(file, line, col)[|FilePrefix + file|..]) == Some(Shown(line, col))
  {
    var p := FilePrefix + file;
    LocationRoundTrip(line, col);
    assert (p + LocationSuffix(line, col))[|p|..] == LocationSuffix(line, col);
  }

  /**
    Two location lines for the same file are equal exactly when they show
    the same position.
   */
  lemma FileLineDeterminesLocation(file: string, l1: Option<Positive>, c1: Option<Positive>,
                                   l2: Option<Positive>, c2: Option<Positive>)
    ensures FileLine(file, l1, c1) == FileLine(file, l2, c2) <==> Shown(l1, c1) == Shown(l2, c2)
  {
    var p := FilePrefix + file;
    var s1, s2 := LocationSuffix(l1, c1), LocationSuffix(l2, c2);
    LocationRoundTrip(l1, c1);
    LocationRoundTrip(l2, c2);
    if FileLine(file, l1, c1) == FileLine(file, l2, c2) {
      assert (p + s1)[|p|..] == s1;
      assert (p + s2)[|p|..] == s2;
    }
  }

  /** The location lines the error tests expect for `someFile`. */
  lemma FileLineExamples()
    ensures FileLine("someFile", None, None) == "File: someFile"
    ensures FileLine("someFile", Some(24), None) == "File: someFile (24)"
    ensures FileLine("someFile", None, Some(80)) == "File: someFile"
    ensures FileLine("someFile", Some(24), Some(80)) == "File: someFile (24:80)"
  {
    LineOnlySuffixExample();
    LineAndColumnSuffixExample();
  }

  /** The suffix for line 24 alone. */
  lemma LineOnlySuffixExample()
    ensures LocationSuffix(Some(24), None) == " (24)"
  {
    assert FromNat(24) == "24";
  }

  /** The suffix for line 24, column 80. */
  lemma LineAndColumnSuffixExample()
    ensures LocationSuffix(Some(24), Some(80)) == " (24:80)"
  {
    assert FromNat(24) == "24";
    assert FromNat(80) == "80";
  }

  /** The text of the lines written for an error, in order. */
  function ErrorText(e: BuildError): seq<string>
  {
    (if e.file.Some? then [FileLine(e.file.value, e.line, e.col)] else []) + [e.message]
  }

  datatype ErrorReport = ErrorReport(lines: seq<seq<Sym>>, tracked: TrackedError)

  /**
    The report of a failed build: the location line when the error names a
    file, then the message unchanged, both in red; and one `trackError`
    whose description is the message alone.
   */
  function ReportError(e: BuildError): (r: ErrorReport)
    ensures |r.lines| == if e.file.Some? then 2 else 1
    ensures forall k :: 0 <= k < |r.lines| ==> LineBreakFree(r.lines[k])
    ensures forall k, i :: 0 <= k < |r.lines| && 0 <= i < |r.lines[k]| ==> r.lines[k][i].Glyph? && r.lines[k][i].colour == Red
    ensures e.file.Some? ==> Text(r.lines[0]) == FileLine(e.file.value, e.line, e.col)
    ensures Text(r.lines[|r.lines| - 1]) == e.message
    ensures r.tracked.description == e.message
  {
    var text := ErrorText(e);
    ErrorReport(seq(|text|, k requires 0 <= k < |text| => Paint(Red, text[k])), TrackedError(e.message))
  }

  /** The analytics payload of an error depends on its message and nothing else. */
  lemma TrackedErrorIsMessageOnly(e: BuildError, f: BuildError)
    requires e.message == f.message
    ensures ReportError(e).tracked == ReportError(f).tracked
  {
  }
}
