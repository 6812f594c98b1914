/**
 * The scorer's explanation is the analyser's input: `parse_sample_checks` reads back what
 * `score` and `format_check_results` wrote. This module proves that the two agree.
 */
module Protocol {
  import opened Optional
  import opened Text
  import opened Checks
  import opened Geometry
  import opened Scorer
  import opened Analyze

  /** An error whose `- ` line sets no check: a single line the line parser ignores. */
  predicate InertError(e: string) {
    '\n' !in e && LineAssignment("- " + e).None?
  }

  /** None of the analyser's early-failure markers occurs in `s`. */
  predicate MarkerFree(s: string) {
    !Contains(s, ExecFailedMarker) && !Contains(s, TimeoutMarker)
    && !Contains(s, NoCodeMarker) && !Contains(s, NoStlMarker)
  }

  /** The report writes each check under the label the analyser looks up. */
  lemma SameLabels(c: Check)
    ensures ReportLabel(c) == CheckLabel(c)
    ensures LabelCheck(ReportLabel(c)) == Some(c)
  {
    LabelCheckInverse(c);
  }

  /** A check line assigns its check the verdict it reports, and a `N/A` line assigns nothing. */
  lemma CheckLineAssignment(c: Check, v: Option<bool>)
    ensures LineAssignment(CheckLine(c, v)) == if v.Some? then Some((c, v.value)) else None
  {
    SameLabels(c);
    LabelsHaveNoColon(c);
    EntryLine(ReportLabel(c), Status(v));
  }

  /** A check line sets its check to the verdict it reports, and a `N/A` line sets nothing. */
  lemma CheckLineRead(r: SampleChecks, c: Check, v: Option<bool>)
    ensures ApplyLine(r, CheckLine(c, v)) == if v.Some? then r.Set(c, v.value) else r
  {
    CheckLineAssignment(c, v);
  }

  /** After reading the first `n` check lines: flags untouched, the first `n` checks recorded, the rest unset. */
  ghost predicate ReadUpTo(r: SampleChecks, checks: GeometryCheckResult, n: nat) {
    r.codeExecuted && r.stlCreated
    && forall k :: 0 <= k < |CheckOrder| ==>
         r.Get(CheckOrder[k]) == if k < n then checks.Verdict(CheckOrder[k]) else None
  }

  /** What the line parser takes from line `k` of `lines` is the verdict of the `k`-th check. */
  ghost predicate AssignsChecks(lines: seq<string>, checks: GeometryCheckResult) {
    |lines| == |CheckOrder|
    && forall k :: 0 <= k < |CheckOrder| ==>
         LineAssignment(lines[k])
         == if checks.Verdict(CheckOrder[k]).Some?
            then Some((CheckOrder[k], checks.Verdict(CheckOrder[k]).value)) else None
  }

  /** Reading check line `n` records check `n` and nothing else. */
  lemma CheckLineStep(r: SampleChecks, checks: GeometryCheckResult, n: nat, line: string)
    requires n < |CheckOrder| && ReadUpTo(r, checks, n)
    requires LineAssignment(line)
             == if checks.Verdict(CheckOrder[n]).Some?
                then Some((CheckOrder[n], checks.Verdict(CheckOrder[n]).value)) else None
    ensures ReadUpTo(ApplyLine(r, line), checks, n + 1)
  {
    var c := CheckOrder[n];
    var r' := ApplyLine(r, line);
    CheckOrderComplete(c);
    forall k | 0 <= k < |CheckOrder|
      ensures r'.Get(CheckOrder[k]) == if k < n + 1 then checks.Verdict(CheckOrder[k]) else None
    {
      if k != n {
        assert CheckOrder[k] != c;
        assert r'.Get(CheckOrder[k]) == r.Get(CheckOrder[k]);
      }
    }
  }

  /** The first `n` check lines, read from the start, record the first `n` verdicts. */
  lemma {:induction false} CheckPrefixRead(lines: seq<string>, checks: GeometryCheckResult, n: nat)
    requires AssignsChecks(lines, checks) && n <= |lines|
    ensures ReadUpTo(FoldLines(lines[..n], Unparsed), checks, n)
  {
    if n == 0 {
      assert lines[..0] == [];
    } else {
      CheckPrefixRead(lines, checks, n - 1);
      CheckLineStep(FoldLines(lines[..n - 1], Unparsed), checks, n - 1, lines[n - 1]);
      assert lines[..n] == lines[..n - 1] + [lines[n - 1]];
      FoldSnoc(lines[..n - 1], lines[n - 1], Unparsed);
    }
  }

  /** The six check lines, read from the start, record every verdict of the report. */
  lemma CheckBlockRead(checks: GeometryCheckResult)
    ensures FoldLines(CheckLines(checks), Unparsed).codeExecuted
    ensures FoldLines(CheckLines(checks), Unparsed).stlCreated
    ensures forall c :: FoldLines(CheckLines(checks), Unparsed).Get(c) == checks.Verdict(c)
  {
    CheckLinesInOrder(checks);
    forall k | 0 <= k < |CheckOrder|
      ensures LineAssignment(CheckLines(checks)[k])
              == if checks.Verdict(CheckOrder[k]).Some?
                 then Some((CheckOrder[k], checks.Verdict(CheckOrder[k]).value)) else None
    {
      CheckLineAssignment(CheckOrder[k], checks.Verdict(CheckOrder[k]));
    }
    CheckPrefixRead(CheckLines(checks), checks, |CheckOrder|);
    assert CheckLines(checks)[..|CheckOrder|] == CheckLines(checks);
    forall c ensures FoldLines(CheckLines(checks), Unparsed).Get(c) == checks.Verdict(c) {
      CheckOrderComplete(c);
    }
  }

  /** Lines the line parser passes over without setting anything. */
  ghost predicate Inert(lines: seq<string>) {
    forall k :: 0 <= k < |lines| ==> LineAssignment(lines[k]).None?
  }

  lemma InertConcat(a: seq<string>, b: seq<string>)
    requires Inert(a) && Inert(b)
    ensures Inert(a + b)
  {
    forall k | 0 <= k < |a + b| ensures LineAssignment((a + b)[k]).None? {
      if k < |a| {
        assert (a + b)[k] == a[k];
      } else {
        assert (a + b)[k] == b[k - |a|];
      }
    }
  }

  lemma InertPair(a: string, b: string)
    requires LineAssignment(a).None? && LineAssignment(b).None?
    ensures Inert([a, b])
  {
    forall k | 0 <= k < 2 ensures LineAssignment([a, b][k]).None? {
      if k == 1 {
        assert [a, b][k] == b;
      }
    }
  }

  lemma InertTriple(a: string, b: string, c: string)
    requires LineAssignment(a).None? && LineAssignment(b).None? && LineAssignment(c).None?
    ensures Inert([a, b, c])
  {
    InertPair(a, b);
    assert Inert([c]);
    InertConcat([a, b], [c]);
    assert [a, b] + [c] == [a, b, c];
  }

  /** A metric line is not a check line: its value starts with a numeral. */
  lemma MetricLineInert(name: string, metric: Option<real>, unit: string)
    requires ':' !in name
    ensures Inert(MetricLine(name, metric, unit))
  {
    if metric.Some? {
      var value := Fixed4(metric.value) + unit;
      assert IsNumeral(value[0]);
      assert "- " + name + ": " + Fixed4(metric.value) + unit == "- " + name + ": " + value;
      InertEntry(name, value);
    }
  }

  /** The metric lines set nothing. */
  lemma MetricBlockInert(checks: GeometryCheckResult)
    ensures Inert(MetricLines(checks))
  {
    var chamfer := MetricLine("Chamfer Distance", checks.chamferDistance, " mm");
    var hausdorff := MetricLine("Hausdorff 95p", checks.hausdorff95p, " mm");
    var fitness := MetricLine("ICP Fitness", checks.icpFitness, "");
    var ratio := MetricLine("Volume Ratio", checks.volumeRatio, "");
    MetricLineInert("Chamfer Distance", checks.chamferDistance, " mm");
    MetricLineInert("Hausdorff 95p", checks.hausdorff95p, " mm");
    MetricLineInert("ICP Fitness", checks.icpFitness, "");
    MetricLineInert("Volume Ratio", checks.volumeRatio, "");
    InertConcat(chamfer, hausdorff);
    InertConcat(chamfer + hausdorff, fitness);
    InertConcat(chamfer + hausdorff + fitness, ratio);
  }

  /** The lines of the error section set nothing when every error is inert. */
  lemma ErrorSectionInert(errors: seq<string>)
    requires forall k :: 0 <= k < |errors| ==> InertError(errors[k])
    ensures Inert(ErrorSection(errors))
  {
    if errors != [] {
      var lines := ErrorLines(errors);
      forall k | 0 <= k < |lines| ensures '\n' !in lines[k] && LineAssignment(lines[k]).None? {
        assert lines[k] == "- " + errors[k];
      }
      FlatSplitSingles(lines);
      HeadingsInert();
      InertTriple("", "## Errors", "");
      InertConcat(["", "## Errors", ""], lines);
    }
  }

  /** The headings and the blank line set nothing. */
  lemma HeadingsInert()
    ensures LineAssignment("").None?
    ensures LineAssignment("## Geometry Check Results").None?
    ensures LineAssignment("## Metrics").None?
    ensures LineAssignment("## Errors").None?
  {
    StripUnchanged("## Geometry Check Results");
    StripUnchanged("## Metrics");
    StripUnchanged("## Errors");
    ProseLineInert("");
    ProseLineInert("## Geometry Check Results");
    ProseLineInert("## Metrics");
    ProseLineInert("## Errors");
  }

  /**
   * The round trip: the report of a geometry check result, parsed back, says the code ran,
   * the STL was written and each check has the verdict it had, provided no error line
   * looks like a check line and no error mentions an early-failure marker.
   */
  lemma {:induction false} ReportReadBack(checks: GeometryCheckResult)
    requires forall k :: 0 <= k < |checks.errors| ==> InertError(checks.errors[k])
    requires MarkerFree(Report(checks))
    ensures ParsedChecks(Report(checks)).codeExecuted
    ensures ParsedChecks(Report(checks)).stlCreated
    ensures forall c :: ParsedChecks(Report(checks)).Get(c) == checks.Verdict(c)
  {
    var head := ["## Geometry Check Results", ""];
    var checkLines := CheckLines(checks);
    var metricsHead := ["", "## Metrics", ""];
    var metricLines := MetricLines(checks);
    var errorLines := ErrorSection(checks.errors);
    ReportLayout(checks);
    HeadingsInert();
    InertPair("## Geometry Check Results", "");
    InertTriple("", "## Metrics", "");
    MetricBlockInert(checks);
    ErrorSectionInert(checks.errors);
    FoldInert(head, Unparsed);
    FoldConcat(head, checkLines, Unparsed);
    CheckBlockRead(checks);
    var recorded := FoldLines(head + checkLines, Unparsed);
    FoldConcat(head + checkLines, metricsHead, Unparsed);
    FoldInert(metricsHead, recorded);
    FoldConcat(head + checkLines + metricsHead, metricLines, Unparsed);
    FoldInert(metricLines, recorded);
    FoldConcat(head + checkLines + metricsHead + metricLines, errorLines, Unparsed);
    FoldInert(errorLines, recorded);
  }

  /** A tagged error, `<tag>: <message>`, is inert when its message is neither `PASS` nor `FAIL` at the start. */
  lemma TaggedErrorInert(tag: string, message: string)
    requires ':' !in tag && '\n' !in tag && '\n' !in message
    requires !StartsWith(message, "PASS") && !StartsWith(message, "FAIL")
    ensures InertError(tag + ": " + message)
  {
    assert "- " + (tag + ": " + message) == "- " + tag + ": " + message;
    InertEntry(tag, message);
  }

  /** A string starts with itself, so it contains itself. */
  lemma ContainsOwnStart(s: string, rest: string)
    ensures Contains(s + rest, s)
  {
    assert (s + rest)[0..|s|] == s;
    ContainsAt(s + rest, s, 0);
  }

  /** The explanation written when the code ran but wrote no STL file mentions no earlier marker. */
  lemma NoStlMarkers()
    ensures !Contains(NoStlExplanation, ExecFailedMarker)
    ensures !Contains(NoStlExplanation, TimeoutMarker)
    ensures !Contains(NoStlExplanation, NoCodeMarker)
    ensures Contains(NoStlExplanation, NoStlMarker)
  {
    NoStlLetters();
    NoStlFirstLetter();
    NoStlCapitals();
    NotContainsFront(NoStlExplanation, ExecFailedMarker);
    NotContainsFront(NoStlExplanation, TimeoutMarker);
    NotContainsFront(NoStlExplanation, NoCodeMarker);
    ContainsOwnStart(NoStlExplanation, "");
    assert NoStlExplanation + "" == NoStlExplanation;
  }

  /** Where the explanation parts ways with the other markers. */
  lemma NoStlLetters()
    ensures !OccursAt(NoStlExplanation, ExecFailedMarker, 0)
    ensures !OccursAt(NoStlExplanation, TimeoutMarker, 0)
    ensures ExecFailedMarker[0] == 'C' && TimeoutMarker[0] == 'C'
  {
    assert NoStlExplanation[12] != ExecFailedMarker[12];
    assert NoStlExplanation[12] != TimeoutMarker[12];
  }

  lemma NoStlFirstLetter()
    ensures !OccursAt(NoStlExplanation, NoCodeMarker, 0)
    ensures NoCodeMarker[0] == 'N'
  {
    assert NoStlExplanation[0] != NoCodeMarker[0];
  }

  /** After its first letter, the explanation has no capital C or N. */
  lemma NoStlCapitals()
    ensures forall k :: 0 < k < |NoStlExplanation| ==> NoStlExplanation[k] != 'C' && NoStlExplanation[k] != 'N'
  {
  }

  /**
   * A sample whose checks did not run is read back as the failure its explanation reports:
   * no code, a timeout and a failed run all mean the code did not execute, and a run
   * without an STL file means it executed but wrote nothing.
   */
  lemma ExplanationReadBack(completion: string, run: Run)
    requires ExtractCode(completion) == [] || !run.Checked?
    ensures ParsedChecks(ScoreSample(completion, run).explanation)
         == if ExtractCode(completion) == [] || run.TimedOut? || run.Failed? then NotExecuted else NoStlWritten
  {
    if ExtractCode(completion) == [] {
      StartsWithMarker(NoCodeMarker, "");
      assert NoCodeMarker + "" == NoCodeExplanation;
    } else if run.TimedOut? {
      StartsWithMarker(TimeoutMarker, " after " + NatText(ExecutionTimeoutSeconds) + "s");
    } else if run.Failed? {
      StartsWithMarker(ExecFailedMarker, ":\n```\n" + run.stderr + "\n```");
    } else {
      NoStlMarkers();
    }
  }

  /** An explanation that starts with one of the first three markers means the code did not execute. */
  lemma StartsWithMarker(marker: string, rest: string)
    requires marker == ExecFailedMarker || marker == TimeoutMarker || marker == NoCodeMarker
    ensures ParsedChecks(marker + rest) == NotExecuted
  {
    ContainsOwnStart(marker, rest);
  }

  /**
   * A sample whose checks ran is read back with the verdicts it was scored on, and it was
   * scored correct exactly when every parsed check passed.
   */
  lemma CheckedSampleReadBack(completion: string, checks: GeometryCheckResult)
    requires ExtractCode(completion) != []
    requires forall k :: 0 <= k < |checks.errors| ==> InertError(checks.errors[k])
    requires MarkerFree(Report(checks))
    ensures ParsedChecks(ScoreSample(completion, Checked(checks)).explanation).codeExecuted
    ensures ParsedChecks(ScoreSample(completion, Checked(checks)).explanation).stlCreated
    ensures ScoreSample(completion, Checked(checks)).correct
        <==> forall c :: ParsedChecks(ScoreSample(completion, Checked(checks)).explanation).Get(c) == Some(true)
  {
    ReportReadBack(checks);
  }
}
