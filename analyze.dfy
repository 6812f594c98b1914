/**
 * `parse_sample_checks` of the log analyser: it reads a score explanation back into
 * whether the code ran, whether it wrote an STL file, and the six optional verdicts.
 */
module Analyze {
  import opened Optional
  import opened Text
  import opened Checks

  // ---------------------------------------------------------------------------
  // The constants the analyser falls back to

  const ExecFailedMarker: string := "Code execution failed"
  const TimeoutMarker: string := "Code execution timed out"
  const NoCodeMarker: string := "No code found in model output"
  const NoStlMarker: string := "Code executed but output.stl was not created"

  /** The label the analyser looks for, per check (the keys of `check_map`). */
  function CheckLabel(c: Check): string {
    match c
    case Watertight => "Watertight"
    case SingleComponent => "Single Component"
    case BoundingBox => "Bounding Box"
    case Volume => "Volume"
    case Chamfer => "Chamfer Distance"
    case Hausdorff => "Hausdorff 95p"
  }

  /** `check_map` as a lookup: the check a label names, if any. */
  function LabelCheck(name: string): (c: Option<Check>)
    ensures c.Some? ==> CheckLabel(c.value) == name
  {
    if name == "Watertight" then Some(Watertight)
    else if name == "Single Component" then Some(SingleComponent)
    else if name == "Bounding Box" then Some(BoundingBox)
    else if name == "Volume" then Some(Volume)
    else if name == "Chamfer Distance" then Some(Chamfer)
    else if name == "Hausdorff 95p" then Some(Hausdorff)
    else None
  }

  /** Every check's label is found in `check_map`, so the map is a bijection onto the labels. */
  lemma LabelCheckInverse(c: Check)
    ensures LabelCheck(CheckLabel(c)) == Some(c)
  {
  }

  /** No label contains a colon, so `": "` ends the label in a `- <label>: <value>` line. */
  lemma LabelsHaveNoColon(c: Check)
    ensures ':' !in CheckLabel(c) && '\n' !in CheckLabel(c)
  {
    LabelHasNoColon(c);
    LabelHasNoNewline(c);
  }

  lemma LabelHasNoColon(c: Check)
    ensures ':' !in CheckLabel(c)
  {
  }

  lemma LabelHasNoNewline(c: Check)
    ensures '\n' !in CheckLabel(c)
  {
  }

  // ---------------------------------------------------------------------------
  // The parsed record

  datatype SampleChecks = SampleChecks(
    codeExecuted: bool,
    stlCreated: bool,
    watertight: Option<bool>,
    singleComponent: Option<bool>,
    bboxAccurate: Option<bool>,
    volumePassed: Option<bool>,
    chamferPassed: Option<bool>,
    hausdorffPassed: Option<bool>)
  {
    /** The entry for check `c`. */
    function Get(c: Check): Option<bool> {
      match c
      case Watertight => watertight
      case SingleComponent => singleComponent
      case BoundingBox => bboxAccurate
      case Volume => volumePassed
      case Chamfer => chamferPassed
      case Hausdorff => hausdorffPassed
    }

    /** `result[check_map[name]] = value`: sets the entry of `c` and nothing else. */
    function Set(c: Check, value: bool): (r: SampleChecks)
      ensures r.Get(c) == Some(value)
      ensures forall d :: d != c ==> r.Get(d) == Get(d)
      ensures r.codeExecuted == codeExecuted && r.stlCreated == stlCreated
    {
      match c
      case Watertight => this.(watertight := Some(value))
      case SingleComponent => this.(singleComponent := Some(value))
      case BoundingBox => this.(bboxAccurate := Some(value))
      case Volume => this.(volumePassed := Some(value))
      case Chamfer => this.(chamferPassed := Some(value))
      case Hausdorff => this.(hausdorffPassed := Some(value))
    }
  }

  /** The record `parse_sample_checks` starts from: code ran, STL written, nothing known. */
  const Unparsed: SampleChecks := SampleChecks(true, true, None, None, None, None, None, None)

  /** The record for an explanation saying the code did not run. */
  const NotExecuted: SampleChecks := Unparsed.(codeExecuted := false, stlCreated := false)

  /** The record for an explanation saying the code ran but wrote no STL file. */
  const NoStlWritten: SampleChecks := Unparsed.(stlCreated := false)

  // ---------------------------------------------------------------------------
  // One line

  /** `s.split(sep, 1)`: the whole string, or the parts before and after the first `sep`. */
  function SplitOnce(s: string, sep: string): (parts: seq<string>)
    requires sep != []
    ensures |parts| == 1 || |parts| == 2
    ensures |parts| == 2 <==> Contains(s, sep)
    ensures |parts| == 2 ==> parts[0] + sep + parts[1] == s && !Contains(parts[0], sep)
  {
    match Find(s, sep)
    case None => [s]
    case Some(i) =>
      assert s[..i] + sep + s[i + |sep|..] == s by {
        assert s[..i] + s[i..i + |sep|] + s[i + |sep|..] == s;
      }
      assert !Contains(s[..i], sep) by {
        NoOccurrenceInSlice(s, 0, i, sep);
        assert s[0..i] == s[..i];
      }
      [s[..i], s[i + |sep|..]]
  }

  /**
   * What one raw line of an explanation sets: after stripping, a `- <name>: <value>`
   * line with a known label and the value `PASS` or `FAIL`; every other line sets nothing.
   */
  function LineAssignment(raw: string): Option<(Check, bool)>
  {
    var line := Strip(raw);
    if StartsWith(line, "- ") && Contains(line, ": ") then
      var parts := SplitOnce(line[2..], ": ");
      if |parts| == 2 && LabelCheck(parts[0]).Some? && (parts[1] == "PASS" || parts[1] == "FAIL")
      then Some((LabelCheck(parts[0]).value, parts[1] == "PASS"))
      else None
    else None
  }

  /** One iteration of the line loop. */
  function ApplyLine(result: SampleChecks, raw: string): SampleChecks {
    match LineAssignment(raw)
    case None => result
    case Some((c, passed)) => result.Set(c, passed)
  }

  /** The line loop over `lines`, in order. */
  function FoldLines(lines: seq<string>, result: SampleChecks): SampleChecks {
    if lines == [] then result else ApplyLine(FoldLines(lines[..|lines| - 1], result), lines[|lines| - 1])
  }

  /**
   * What `parse_sample_checks` returns: the early-failure markers, tested in this order,
   * decide alone; otherwise every line is parsed, starting from `Unparsed`.
   */
  function ParsedChecks(explanation: string): SampleChecks {
    if Contains(explanation, ExecFailedMarker) then NotExecuted
    else if Contains(explanation, TimeoutMarker) then NotExecuted
    else if Contains(explanation, NoCodeMarker) then NotExecuted
    else if Contains(explanation, NoStlMarker) then NoStlWritten
    else FoldLines(SplitLines(explanation), Unparsed)
  }

  /** `parse_sample_checks`, with the result dictionary updated in place line by line. */
  method ParseSampleChecks(explanation: string) returns (result: SampleChecks)
    ensures result == ParsedChecks(explanation)
  {
    result := Unparsed;
    if Contains(explanation, ExecFailedMarker) {
      result := result.(codeExecuted := false, stlCreated := false);
      return;
    }
    if Contains(explanation, TimeoutMarker) {
      result := result.(codeExecuted := false, stlCreated := false);
      return;
    }
    if Contains(explanation, NoCodeMarker) {
      result := result.(codeExecuted := false, stlCreated := false);
      return;
    }
    if Contains(explanation, NoStlMarker) {
      result := result.(stlCreated := false);
      return;
    }
    var lines := SplitLines(explanation);
    for k := 0 to |lines|
      invariant result == FoldLines(lines[..k], Unparsed)
    {
      assert lines[..k + 1][..k] == lines[..k];
      var line := Strip(lines[k]);
      if StartsWith(line, "- ") && Contains(line, ": ") {
        var parts := SplitOnce(line[2..], ": ");
        if |parts| == 2 {
          var name, value := parts[0], parts[1];
          if LabelCheck(name).Some? && (value == "PASS" || value == "FAIL") {
            result := result.Set(LabelCheck(name).value, value == "PASS");
          }
        }
      }
    }
    assert lines[..|lines|] == lines;
  }

  // ---------------------------------------------------------------------------
  // Properties

  /**
   * The early markers: execution failure, timeout and missing code each mean the code did
   * not run, no STL exists and no check is known, whatever else the text holds; the
   * no-STL marker alone means the code ran but no check is known.
   */
  lemma EarlyFailures(explanation: string)
    ensures Contains(explanation, ExecFailedMarker) || Contains(explanation, TimeoutMarker)
            || Contains(explanation, NoCodeMarker)
            ==> !ParsedChecks(explanation).codeExecuted && !ParsedChecks(explanation).stlCreated
    ensures !Contains(explanation, ExecFailedMarker) && !Contains(explanation, TimeoutMarker)
            && !Contains(explanation, NoCodeMarker) && Contains(explanation, NoStlMarker)
            ==> ParsedChecks(explanation).codeExecuted && !ParsedChecks(explanation).stlCreated
    ensures ParsedChecks(explanation).stlCreated || forall c :: ParsedChecks(explanation).Get(c).None?
    ensures ParsedChecks(explanation).stlCreated == ParsedChecks(explanation).codeExecuted
            <==> !(Contains(explanation, NoStlMarker) && !Contains(explanation, ExecFailedMarker)
                   && !Contains(explanation, TimeoutMarker) && !Contains(explanation, NoCodeMarker))
  {
    FoldKeepsFlags(SplitLines(explanation), Unparsed);
    forall c: Check ensures NotExecuted.Get(c).None? && NoStlWritten.Get(c).None? {
    }
  }

  /** Without any marker both flags stay true. */
  lemma NoMarkerRan(explanation: string)
    requires !Contains(explanation, ExecFailedMarker) && !Contains(explanation, TimeoutMarker)
    requires !Contains(explanation, NoCodeMarker) && !Contains(explanation, NoStlMarker)
    ensures ParsedChecks(explanation).codeExecuted && ParsedChecks(explanation).stlCreated
  {
    FoldKeepsFlags(SplitLines(explanation), Unparsed);
  }

  /** The line loop never touches the two flags. */
  lemma {:induction false} FoldKeepsFlags(lines: seq<string>, result: SampleChecks)
    ensures FoldLines(lines, result).codeExecuted == result.codeExecuted
    ensures FoldLines(lines, result).stlCreated == result.stlCreated
  {
    if lines != [] {
      FoldKeepsFlags(lines[..|lines| - 1], result);
    }
  }

  /** One more line is one more step of the loop. */
  lemma FoldSnoc(lines: seq<string>, line: string, result: SampleChecks)
    ensures FoldLines(lines + [line], result) == ApplyLine(FoldLines(lines, result), line)
  {
    assert (lines + [line])[..|lines|] == lines;
  }

  /** Running the loop over `a + b` is running it over `a`, then over `b`. */
  lemma {:induction false} FoldConcat(a: seq<string>, b: seq<string>, result: SampleChecks)
    ensures FoldLines(a + b, result) == FoldLines(b, FoldLines(a, result))
    decreases |b|
  {
    if b == [] {
      assert a + b == a;
    } else {
      assert (a + b)[..|a + b| - 1] == a + b[..|b| - 1];
      FoldConcat(a, b[..|b| - 1], result);
    }
  }

  /** Lines that set nothing leave the record as it is. */
  lemma {:induction false} FoldInert(lines: seq<string>, result: SampleChecks)
    requires forall k :: 0 <= k < |lines| ==> LineAssignment(lines[k]).None?
    ensures FoldLines(lines, result) == result
  {
    if lines != [] {
      FoldInert(lines[..|lines| - 1], result);
    }
  }

  /** A line that is blank or does not start with `-` once stripped sets nothing (headings, code, prose). */
  lemma ProseLineInert(raw: string)
    requires Strip(raw) == [] || Strip(raw)[0] != '-'
    ensures LineAssignment(raw).None?
  {
    assert !StartsWith(Strip(raw), "- ") by {
      if |Strip(raw)| >= 2 {
        assert Strip(raw)[..2][0] == Strip(raw)[0];
      }
    }
  }

  /** The line `- <name>: <value>` read exactly, for a colon-free name and a value with no space at its end. */
  lemma EntryLine(name: string, value: string)
    requires ':' !in name
    requires value != [] && !IsSpace(value[|value| - 1])
    ensures LineAssignment("- " + name + ": " + value)
         == if LabelCheck(name).Some? && (value == "PASS" || value == "FAIL")
            then Some((LabelCheck(name).value, value == "PASS")) else None
  {
    var line := "- " + name + ": " + value;
    StripUnchanged(line);
    assert StartsWith(line, "- ");
    var rest := line[2..];
    assert rest == name + ": " + value;
    ColonSplit(name, value);
    ContainsAt(line, ": ", 2 + |name|);
  }

  /** Splitting `name + ": " + value` on the first `": "` gives back a colon-free name. */
  lemma ColonSplit(name: string, value: string)
    requires ':' !in name
    ensures SplitOnce(name + ": " + value, ": ") == [name, value]
  {
    var s := name + ": " + value;
    forall k | 0 <= k < |name| ensures !OccursAt(s, ": ", k) {
      assert s[k] == name[k];
    }
    FindIs(s, ": ", |name|);
    assert s[..|name|] == name;
    assert s[|name| + 2..] == value;
  }

  /**
   * A `- <name>: <value>` line whose value does not start with `PASS` or `FAIL` sets
   * nothing, whatever spaces it ends with: this is why metric lines and error lines of
   * the report leave the verdicts alone.
   */
  lemma {:induction false} InertEntry(name: string, value: string)
    requires ':' !in name
    requires !StartsWith(value, "PASS") && !StartsWith(value, "FAIL")
    ensures LineAssignment("- " + name + ": " + value).None?
  {
    var line := "- " + name + ": " + value;
    assert StripStart(line) == 0 by {
      assert !IsSpace(line[0]);
    }
    var e := StripEnd(line);
    assert Strip(line) == line[..e];
    var n := |name|;
    if e <= n + 3 {
      // The stripped line ends before the value: it holds no ": ".
      CutBeforeValue(name, value, e);
    } else {
      // The stripped line keeps a non-empty prefix of the value.
      assert line[n + 3] == ' ';
      assert e > n + 4 by {
        assert !IsSpace(line[e - 1]);
      }
      var kept := value[..e - n - 4];
      assert line[..e] == "- " + name + ": " + kept;
      assert kept != "PASS" && kept != "FAIL";
      KeptEntryInert(line, name, kept);
    }
  }

  /** A prefix of `- <name>: <value>` that stops before the value holds no `": "`. */
  lemma CutBeforeValue(name: string, value: string, e: nat)
    requires ':' !in name
    requires e <= |name| + 3
    ensures e <= |"- " + name + ": " + value|
    ensures !Contains(("- " + name + ": " + value)[..e], ": ")
  {
    var line := "- " + name + ": " + value;
    var cut := line[..e];
    assert forall j :: 2 <= j < |name| + 2 ==> line[j] == name[j - 2];
    assert forall j :: 0 <= j < |name| + 2 ==> line[j] != ':';
    forall k | 0 <= k ensures !OccursAt(cut, ": ", k) {
      if k + 2 <= |cut| {
        assert cut[k..k + 2][0] == cut[k] == line[k];
      }
    }
  }

  /** A line that strips to `- <name>: <kept>` with `kept` neither `PASS` nor `FAIL` sets nothing. */
  lemma KeptEntryInert(raw: string, name: string, kept: string)
    requires ':' !in name
    requires Strip(raw) == "- " + name + ": " + kept
    requires kept != "PASS" && kept != "FAIL"
    ensures LineAssignment(raw).None?
  {
    ColonSplit(name, kept);
    assert Strip(raw)[2..] == name + ": " + kept;
  }

}
