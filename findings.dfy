/**
 * The two detectors' payloads and the uniform finding records the comparator extracts from
 * them: one record per label the language model lists, one per `CODE_SMELL` issue of the
 * static analyser.
 */
module SmellFindings {
  import opened Wrappers
  import opened Text
  import opened Tally
  import opened SmellCategories

  /** The language model's report as `json.loads` leaves it. */
  datatype LlmPayload =
    | LlmNotAnObject
    | LlmWithoutSmells
    | LlmReport(smells: seq<string>, descriptions: map<string, string>,
                locations: map<string, string>, confidences: map<string, string>)

  /** The language model's input: an already-decoded payload, or JSON text and what decoding it gives (`None` when it raises). */
  datatype LlmInput = LlmObject(payload: LlmPayload) | LlmText(decoded: Option<LlmPayload>)

  /** `textRange` of an issue; a bound is `None` when its key is absent. */
  datatype TextRange = TextRange(startLine: Option<int>, endLine: Option<int>)

  /** One entry of the analyser's `issues`; each field is `None` when its key is absent. */
  datatype Issue = Issue(
    issueType: Option<string>, rule: Option<string>, component: Option<string>,
    message: Option<string>, severity: Option<string>,
    line: Option<int>, textRange: Option<TextRange>)

  /** The static analyser's report as `json.loads` leaves it. */
  datatype SonarPayload = SonarNotAnObject | SonarWithoutIssues | SonarReport(issues: seq<Issue>)

  datatype SonarInput = SonarObject(payload: SonarPayload) | SonarText(decoded: Option<SonarPayload>)

  /** What each detector attaches to a finding besides its location. */
  datatype Details =
    | LlmDetails(description: string, confidence: string)
    | SonarDetails(message: string, severity: string)

  /** The uniform finding record. `file` is `None` only for a model label without a location. */
  datatype Finding = Finding(category: string, originalLabel: string, file: Option<string>,
                             lines: seq<int>, details: Details)

  /** A file name that Python treats as true: present and not empty. */
  predicate HasFile(f: Finding) {
    f.file.Some? && f.file.value != ""
  }

  /**
   * `_normalize_llm_data`: text that does not decode becomes `{}`, an object without
   * `smells_detectados`.
   */
  function NormalizeLlm(input: LlmInput): (p: LlmPayload)
    ensures input == LlmText(None) ==> p == LlmWithoutSmells
  {
    match input
    case LlmObject(payload) => payload
    case LlmText(decoded) => decoded.GetOr(LlmWithoutSmells)
  }

  /** `_normalize_sonarqube_data`, the same rule for the analyser's payload. */
  function NormalizeSonar(input: SonarInput): (p: SonarPayload)
    ensures input == SonarText(None) ==> p == SonarWithoutIssues
  {
    match input
    case SonarObject(payload) => payload
    case SonarText(decoded) => decoded.GetOr(SonarWithoutIssues)
  }

  /** A file name and line numbers recovered from a location string. */
  datatype Location = Location(file: Option<string>, lines: seq<int>)

  /** `list(range(start, end + 1))`: the lines from `start` to `end` inclusive, empty if `start > end`. */
  function LineRange(start: int, end: int): seq<int> {
    seq(if start <= end then end - start + 1 else 0, i => start + i)
  }

  /** The range holds each line from `start` to `end` once, in increasing order. */
  lemma LineRangeSpec(start: int, end: int)
    ensures forall x :: x in LineRange(start, end) <==> start <= x <= end
    ensures forall i, j :: 0 <= i < j < |LineRange(start, end)| ==> LineRange(start, end)[i] < LineRange(start, end)[j]
  {
    var r := LineRange(start, end);
    forall x | start <= x <= end ensures x in r {
      assert r[x - start] == x;
    }
  }

  /**
   * The line part of a model location, `"<start>-<end>"`. Anything else, a missing `-`,
   * a second `-` or a bound that `int()` rejects, gives no lines. A minus sign cannot
   * survive the split on `-`, so every line is a natural number.
   */
  function ParseLineSpan(span: string): (lines: seq<int>)
    ensures forall i :: 0 <= i < |lines| ==> lines[i] >= 0
    ensures '-' !in span ==> lines == []
  {
    if '-' in span then
      var bounds := Split(span, '-');
      if |bounds| == 2 && ParseInt(bounds[0]).Some? && ParseInt(bounds[1]).Some? then
        ParseIntWithoutMinus(bounds[0]);
        LineRange(ParseInt(bounds[0]).value, ParseInt(bounds[1]).value)
      else []
    else []
  }

  /**
   * A model location `"<file>:<start>-<end>"`, split at its first colon. Without a colon
   * there is no file and no lines; with one, the file is the text before it and holds
   * no colon.
   */
  function ParseLocation(location: string): (loc: Location)
    ensures ':' !in location ==> loc == Location(None, [])
    ensures ':' in location ==>
      (loc.file.Some? && ':' !in loc.file.value && |loc.file.value| < |location|
       && location[..|loc.file.value|] == loc.file.value && location[|loc.file.value|] == ':')
  {
    if ':' in location then
      var i := IndexOf(location, ':');
      Location(Some(location[..i]), ParseLineSpan(location[i + 1..]))
    else
      Location(None, [])
  }

  /** A location with a colon-free file part splits into that file and the parse of the rest. */
  lemma ParseLocationOfFile(file: string, span: string)
    requires ':' !in file
    ensures ParseLocation(file + ":" + span) == Location(Some(file), ParseLineSpan(span))
  {
    var location := file + ":" + span;
    SplitFirstAt(file, span, ':');
  }

  /** The first `c` of `a + [c] + b`, when `a` has none, is the one after `a`. */
  lemma SplitFirstAt(a: string, b: string, c: char)
    requires c !in a
    ensures var s := a + [c] + b;
      c in s && IndexOf(s, c) == |a| && s[..|a|] == a && s[|a| + 1..] == b
  {
    var s := a + [c] + b;
    assert s[..|a|] == a;
    assert s[|a|] == c;
    assert s[|a| + 1..] == b;
  }

  /** `"<a>-<b>"` with two digit runs gives the lines from the value of `a` to that of `b`. */
  lemma SpanOfDigits(sa: string, sb: string)
    requires IsDigitGroup(sa) && IsDigitGroup(sb)
    ensures ParseLineSpan(sa + "-" + sb) == LineRange(DigitsValue(sa), DigitsValue(sb))
  {
    var span := sa + "-" + sb;
    assert '-' !in sa && '-' !in sb;
    SplitFirstAt(sa, sb, '-');
    assert Split(sb, '-') == [sb];
    assert Split(span, '-') == [sa, sb];
    DigitGroupParses(sa);
    DigitGroupParses(sb);
  }

  /** `"<file>:<a>-<b>"` with digit groups `a` and `b` gives the file and the lines between their values. */
  lemma ParseLocationOfDigits(file: string, sa: string, sb: string)
    requires ':' !in file && IsDigitGroup(sa) && IsDigitGroup(sb)
    ensures ParseLocation(file + ":" + sa + "-" + sb)
         == Location(Some(file), LineRange(DigitsValue(sa), DigitsValue(sb)))
  {
    var span := sa + "-" + sb;
    assert file + ":" + sa + "-" + sb == file + ":" + span;
    ParseLocationOfFile(file, span);
    SpanOfDigits(sa, sb);
  }

  /** `"<file>:<a>-<b>"` with decimal bounds gives the file and exactly the lines `a..b`. */
  lemma ParseLocationRoundTrip(file: string, a: nat, b: nat)
    requires ':' !in file
    ensures ParseLocation(file + ":" + NatToString(a) + "-" + NatToString(b))
         == Location(Some(file), LineRange(a, b))
  {
    NatToStringDigits(a);
    NatToStringDigits(b);
    ParseLocationOfDigits(file, NatToString(a), NatToString(b));
  }

  /**
   * A location whose line part has no `-`, more than one `-`, or a bound that is not a
   * number keeps its file but gets no lines.
   */
  lemma ParseLocationWithoutNumbers(file: string, span: string)
    requires ':' !in file
    requires '-' !in span || |Split(span, '-')| != 2
          || ParseInt(Split(span, '-')[0]).None? || ParseInt(Split(span, '-')[1]).None?
    ensures ParseLocation(file + ":" + span) == Location(Some(file), [])
  {
    ParseLocationOfFile(file, span);
  }

  /** The finding for one label of the model's `smells_detectados`. */
  function LlmFinding(smell: string, descriptions: map<string, string>,
                      locations: map<string, string>, confidences: map<string, string>): Finding
  {
    var loc := ParseLocation(if smell in locations then locations[smell] else "");
    Finding(Normalize(smell), smell, loc.file, loc.lines,
            LlmDetails(if smell in descriptions then descriptions[smell] else "",
                       if smell in confidences then confidences[smell] else "médio"))
  }

  /**
   * The findings of the model's payload: one per listed label, in order, each with its
   * label normalised; none for a payload that is not a report.
   */
  function LlmFindings(p: LlmPayload): (fs: seq<Finding>)
    ensures |fs| == if p.LlmReport? then |p.smells| else 0
    ensures p.LlmReport? ==> forall i :: 0 <= i < |fs| ==>
      fs[i].originalLabel == p.smells[i] && fs[i].category == Normalize(p.smells[i])
  {
    match p
    case LlmReport(smells, descriptions, locations, confidences) =>
      seq(|smells|, i requires 0 <= i < |smells| => LlmFinding(smells[i], descriptions, locations, confidences))
    case _ => []
  }

  /** The findings of the first `i + 1` labels extend those of the first `i` by the finding of label `i`. */
  lemma LlmFindingsStep(p: LlmPayload, i: nat)
    requires p.LlmReport? && i < |p.smells|
    ensures LlmFindings(p)[..i + 1] ==
      LlmFindings(p)[..i] + [LlmFinding(p.smells[i], p.descriptions, p.locations, p.confidences)]
  {
    var fs := LlmFindings(p);
    assert fs[..i + 1] == fs[..i] + [fs[i]];
  }

  /** `component.split(":")[-1] if ":" in component else component` */
  function SonarFileName(component: string): (file: string)
    ensures ':' !in file && |file| <= |component| && component[|component| - |file|..] == file
    ensures |file| < |component| ==> component[|component| - |file| - 1] == ':'
    ensures ':' !in component ==> file == component
  {
    LastSegmentIsTextAfterLastSeparator(component, ':');
    if ':' in component then LastSegment(component, ':') else component
  }

  /**
   * The lines of an issue: `line` when the key is present; otherwise `startLine..endLine`
   * of `textRange` when both bounds are present and non-zero (Python truthiness);
   * otherwise none.
   */
  function SonarLines(issue: Issue): (lines: seq<int>)
    ensures issue.line.Some? ==> lines == [issue.line.value]
    ensures issue.line.None? && issue.textRange.None? ==> lines == []
    ensures issue.line.None? && lines != [] ==>
      issue.textRange.Some? && issue.textRange.value.startLine.Some? && issue.textRange.value.endLine.Some?
      && issue.textRange.value.startLine.value != 0 && issue.textRange.value.endLine.value != 0
      && lines[0] == issue.textRange.value.startLine.value
      && lines[|lines| - 1] == issue.textRange.value.endLine.value
    ensures (issue.line.None? && issue.textRange.Some?
      && issue.textRange.value.startLine.Some? && issue.textRange.value.startLine.value != 0
      && issue.textRange.value.endLine.Some? && issue.textRange.value.endLine.value != 0) ==>
      lines == LineRange(issue.textRange.value.startLine.value, issue.textRange.value.endLine.value)
  {
    if issue.line.Some? then [issue.line.value]
    else if issue.textRange.Some? then
      var range := issue.textRange.value;
      if range.startLine.Some? && range.startLine.value != 0
         && range.endLine.Some? && range.endLine.value != 0
      then LineRange(range.startLine.value, range.endLine.value)
      else []
    else []
  }

  predicate IsCodeSmell(issue: Issue) {
    issue.issueType == Some("CODE_SMELL")
  }

  /** The finding for one `CODE_SMELL` issue. */
  function SonarFinding(issue: Issue): (f: Finding)
    ensures f.file.Some? && ':' !in f.file.value
  {
    var rule := issue.rule.GetOr("");
    Finding(Normalize(rule), rule, Some(SonarFileName(issue.component.GetOr(""))), SonarLines(issue),
            SonarDetails(issue.message.GetOr(""), issue.severity.GetOr("")))
  }

  /** The findings of a list of issues: the `CODE_SMELL` issues, in order, and nothing else. */
  function SonarFindingsOf(issues: seq<Issue>): (fs: seq<Finding>)
    ensures |fs| == Count(issues, IsCodeSmell)
    ensures forall k :: 0 <= k < |fs| ==> fs[k].file.Some? && ':' !in fs[k].file.value
  {
    if issues == [] then []
    else
      var last := issues[|issues| - 1];
      SonarFindingsOf(issues[..|issues| - 1]) + (if IsCodeSmell(last) then [SonarFinding(last)] else [])
  }

  /** The findings of the first `i + 1` issues extend those of the first `i` by issue `i`'s, if it is a code smell. */
  lemma SonarFindingsStep(issues: seq<Issue>, i: nat)
    requires i < |issues|
    ensures SonarFindingsOf(issues[..i + 1]) ==
      SonarFindingsOf(issues[..i]) + (if IsCodeSmell(issues[i]) then [SonarFinding(issues[i])] else [])
  {
    assert issues[..i + 1][..i] == issues[..i];
  }

  function SonarFindings(p: SonarPayload): seq<Finding> {
    if p.SonarReport? then SonarFindingsOf(p.issues) else []
  }

  /** Issues that are not code smells contribute nothing, whatever they hold. */
  lemma {:induction false} SonarFindingsIgnoreOtherIssues(issues: seq<Issue>, other: Issue)
    requires !IsCodeSmell(other)
    ensures SonarFindingsOf(issues + [other]) == SonarFindingsOf(issues)
    ensures SonarFindingsOf([other] + issues) == SonarFindingsOf(issues)
  {
    assert (issues + [other])[..|issues|] == issues;
    SonarFindingsPrepend(issues, other);
  }

  lemma {:induction false} SonarFindingsPrepend(issues: seq<Issue>, first: Issue)
    ensures SonarFindingsOf([first] + issues)
         == (if IsCodeSmell(first) then [SonarFinding(first)] else []) + SonarFindingsOf(issues)
  {
    if issues != [] {
      var init, last := issues[..|issues| - 1], issues[|issues| - 1];
      SonarFindingsPrepend(init, first);
      var all := [first] + issues;
      assert all[..|all| - 1] == [first] + init;
      assert all[|all| - 1] == last;
    } else {
      assert [first] + issues == [first];
      assert [first][..0] == [];
    }
  }

  /** The non-empty file names of a list of findings: `llm_files` and `sonar_files`. */
  function FilesOf(fs: seq<Finding>): set<string> {
    set i | 0 <= i < |fs| && HasFile(fs[i]) :: fs[i].file.value
  }

  /** Appending a finding adds its file, if it has one, and nothing else. */
  lemma FilesOfAppend(fs: seq<Finding>, f: Finding)
    ensures FilesOf(fs + [f]) == FilesOf(fs) + (if HasFile(f) then {f.file.value} else {})
  {
    var gs := fs + [f];
    forall x | x in FilesOf(gs) ensures x in FilesOf(fs) + (if HasFile(f) then {f.file.value} else {}) {
      var i :| 0 <= i < |gs| && HasFile(gs[i]) && gs[i].file.value == x;
      if i < |fs| { assert gs[i] == fs[i]; }
    }
    forall x | x in FilesOf(fs) ensures x in FilesOf(gs) {
      var i :| 0 <= i < |fs| && HasFile(fs[i]) && fs[i].file.value == x;
      assert gs[i] == fs[i];
    }
    if HasFile(f) {
      assert gs[|fs|] == f;
    }
  }

  /** Undecodable text, from either detector, yields no findings at all. */
  lemma MalformedTextHasNoFindings()
    ensures LlmFindings(NormalizeLlm(LlmText(None))) == []
    ensures SonarFindings(NormalizeSonar(SonarText(None))) == []
  {
  }

  /** Every file of an extracted finding is free of colons, on both sides. */
  lemma ExtractedFilesHaveNoColon(p: LlmPayload, q: SonarPayload)
    ensures forall f :: f in LlmFindings(p) && f.file.Some? ==> ':' !in f.file.value
    ensures forall f :: f in SonarFindings(q) ==> f.file.Some? && ':' !in f.file.value
  {
  }
}
