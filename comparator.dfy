/**
 * The comparator object: it normalises the two detectors' reports on construction,
 * extracts their findings and file sets into its fields, and answers the three questions
 * of the study from those fields.
 */
module SmellComparator {
  import opened Wrappers
  import opened Text
  import opened SmellCategories
  import opened SmellFindings
  import opened SmellFingerprints
  import opened SmellMetrics
  import opened SmellOverlap
  import opened FileCoverage
  import opened CategoryAgreement
  import opened CategoryScoring

  /** The scores of one category of question 3 over the detection table of two finding lists. */
  ghost function CategoryScoreOf(llm: seq<Finding>, sonar: seq<Finding>, category: string,
                                 kappaScore: (seq<int>, seq<int>) -> real): CategoryScore
  {
    DetectionKeysSpec(llm, sonar);
    var keys, table := DetectionKeys(llm, sonar), DetectionTable(llm, sonar);
    assert KeysInTable(keys, table);
    ScoreOf(category, Agreements(keys, table, category), kappaScore)
  }

  lemma CategoryScoreOfTable(llm: seq<Finding>, sonar: seq<Finding>, keys: seq<string>,
                             table: map<string, Detection>, category: string,
                             kappaScore: (seq<int>, seq<int>) -> real)
    requires keys == DetectionKeys(llm, sonar) && table == DetectionTable(llm, sonar)
    requires KeysInTable(keys, table)
    ensures CategoryScoreOf(llm, sonar, category, kappaScore)
         == ScoreOf(category, Agreements(keys, table, category), kappaScore)
  {
  }

  /**
   * A category's `total` of question 3 is the number of location keys at which at least
   * one detector placed that category.
   */
  lemma CategoryTotalIsFlaggedKeys(llm: seq<Finding>, sonar: seq<Finding>, category: string,
                                   kappaScore: (seq<int>, seq<int>) -> real)
    ensures var table := DetectionTable(llm, sonar);
      CategoryScoreOf(llm, sonar, category, kappaScore).total
        == |set k | k in table && (category in table[k].llm || category in table[k].sonar)|
  {
    var keys, table := DetectionKeys(llm, sonar), DetectionTable(llm, sonar);
    DetectionKeysSpec(llm, sonar);
    TotalIsFlaggedKeys(keys, table, category);
    assert FlaggedKeys(keys, table, category)
        == set k | k in table && (category in table[k].llm || category in table[k].sonar);
  }

  class CodeSmellComparator {
    var llmData: LlmPayload
    var sonarData: SonarPayload
    var llmSmells: seq<Finding>
    var llmFiles: set<string>
    var sonarSmells: seq<Finding>
    var sonarFiles: set<string>
    var allFiles: set<string>

    /** The extracted fields agree with the payloads they were extracted from. */
    ghost predicate Valid()
      reads this
    {
      && llmSmells == LlmFindings(llmData)
      && sonarSmells == SonarFindings(sonarData)
      && llmFiles == FilesOf(llmSmells)
      && sonarFiles == FilesOf(sonarSmells)
      && allFiles == llmFiles + sonarFiles
    }

    /** `__init__`: normalise both inputs, then extract findings and files. */
    constructor (llmInput: LlmInput, sonarInput: SonarInput)
      ensures llmData == NormalizeLlm(llmInput) && sonarData == NormalizeSonar(sonarInput)
      ensures Valid()
    {
      llmData := NormalizeLlm(llmInput);
      sonarData := NormalizeSonar(sonarInput);
      llmSmells, llmFiles := [], {};
      sonarSmells, sonarFiles := [], {};
      allFiles := {};
      new;
      ExtractSmellsAndFiles();
    }

    /**
     * `_extract_smells_and_files`: rebuild the finding lists and file sets from the
     * payloads, leaving the payloads as they are.
     */
    method ExtractSmellsAndFiles()
      modifies this
      ensures llmData == old(llmData) && sonarData == old(sonarData)
      ensures Valid()
    {
      ExtractLlm();
      ExtractSonar();
      allFiles := llmFiles + sonarFiles;
    }

    /** The language-model half of the extraction: one finding per listed label. */
    method ExtractLlm()
      modifies this
      ensures llmData == old(llmData) && sonarData == old(sonarData)
      ensures llmSmells == LlmFindings(llmData) && llmFiles == FilesOf(llmSmells)
      ensures sonarSmells == old(sonarSmells) && sonarFiles == old(sonarFiles)
      ensures allFiles == old(allFiles)
    {
      llmSmells, llmFiles := CollectLlmFindings(llmData);
    }

    /** The analyser half of the extraction: one finding per `CODE_SMELL` issue. */
    method ExtractSonar()
      modifies this
      ensures llmData == old(llmData) && sonarData == old(sonarData)
      ensures sonarSmells == SonarFindings(sonarData) && sonarFiles == FilesOf(sonarSmells)
      ensures llmSmells == old(llmSmells) && llmFiles == old(llmFiles)
      ensures allFiles == old(allFiles)
    {
      sonarSmells, sonarFiles := CollectSonarFindings(sonarData);
    }

    /**
     * M1 totals, M2 similarity and M3 divergence of question 1, from the two fingerprint
     * sets that the fingerprint loops collect.
     */
    method AnalyzeQuestion1() returns (q: Question1)
      ensures q == Question1Of(|llmSmells|, |sonarSmells|, Fingerprints(llmSmells), Fingerprints(sonarSmells))
    {
      var llmFingerprints := CollectFingerprints(llmSmells);
      var sonarFingerprints := CollectFingerprints(sonarSmells);
      q := Question1Of(|llmSmells|, |sonarSmells|, llmFingerprints, sonarFingerprints);
    }

    /**
     * M1 relevant files, M2 coverage and M3 mean categories per file of question 2, the
     * mean computed for both detectors alike.
     */
    method AnalyzeQuestion2() returns (q: Question2)
      requires Valid()
      ensures q == Question2Of(llmSmells, sonarSmells)
    {
      var total := |allFiles|;
      var llmCount, sonarCount := |llmFiles|, |sonarFiles|;
      var llmCoverage, sonarCoverage := Percent(llmCount, total), Percent(sonarCount, total);
      var llmDetails := CollectCategoriesPerFile(llmSmells);
      var sonarDetails := CollectCategoriesPerFile(sonarSmells);
      var meanLlm := MeanOf(llmDetails);
      var meanSonar := MeanOf(sonarDetails);
      q := Question2(total, allFiles, llmCount, sonarCount, llmCoverage, sonarCoverage,
                     meanLlm, meanSonar, llmDetails, sonarDetails);
    }

    /**
     * The per-category scores of question 3: fill the detection table, then score each
     * category over its keys; `kappaScore` stands for `cohen_kappa_score`.
     */
    method AnalyzeQuestion3(kappaScore: (seq<int>, seq<int>) -> real) returns (scores: seq<CategoryScore>)
      ensures |scores| == |Categories|
      ensures forall i :: 0 <= i < |Categories| ==>
        scores[i] == CategoryScoreOf(llmSmells, sonarSmells, Categories[i], kappaScore)
    {
      var keys, table := CollectDetections(llmSmells, sonarSmells);
      DetectionKeysSpec(llmSmells, sonarSmells);
      assert KeysInTable(keys, table);
      scores := ScoreCategories(Categories, keys, table, kappaScore);
      forall i | 0 <= i < |Categories|
        ensures scores[i] == CategoryScoreOf(llmSmells, sonarSmells, Categories[i], kappaScore)
      {
        CategoryScoreOfTable(llmSmells, sonarSmells, keys, table, Categories[i], kappaScore);
      }
    }
  }

  /** The loop of question 3 over the categories, scoring each over the same keys and table. */
  method ScoreCategories(categories: seq<string>, keys: seq<string>, table: map<string, Detection>,
                         kappaScore: (seq<int>, seq<int>) -> real)
    returns (scores: seq<CategoryScore>)
    requires KeysInTable(keys, table)
    ensures |scores| == |categories|
    ensures forall i :: 0 <= i < |categories| ==>
      scores[i] == ScoreOf(categories[i], Agreements(keys, table, categories[i]), kappaScore)
  {
    scores := [];
    for i := 0 to |categories|
      invariant |scores| == i
      invariant forall j :: 0 <= j < i ==>
        scores[j] == ScoreOf(categories[j], Agreements(keys, table, categories[j]), kappaScore)
    {
      var score := ScoreCategory(categories[i], keys, table, kappaScore);
      scores := scores + [score];
    }
  }

  /**
   * The loop over the model's labels: the findings in label order, and the set of the
   * non-empty files they name.
   */
  method CollectLlmFindings(p: LlmPayload) returns (smells: seq<Finding>, files: set<string>)
    ensures smells == LlmFindings(p) && files == FilesOf(smells)
  {
    smells, files := [], {};
    if p.LlmReport? {
      for i := 0 to |p.smells|
        invariant smells == LlmFindings(p)[..i] && files == FilesOf(smells)
      {
        var finding := ExtractLlmSmell(p.smells[i], p.descriptions, p.locations, p.confidences);
        if finding.file.Some? && finding.file.value != "" {
          files := files + {finding.file.value};
        }
        FilesOfAppend(smells, finding);
        LlmFindingsStep(p, i);
        smells := smells + [finding];
      }
      assert LlmFindings(p)[..|p.smells|] == LlmFindings(p);
    }
  }

  /**
   * The loop over the analyser's issues: the findings of the `CODE_SMELL` issues in
   * order, and the set of the non-empty files they name.
   */
  method CollectSonarFindings(p: SonarPayload) returns (smells: seq<Finding>, files: set<string>)
    ensures smells == SonarFindings(p) && files == FilesOf(smells)
  {
    smells, files := [], {};
    if p.SonarReport? {
      var issues := p.issues;
      for i := 0 to |issues|
        invariant smells == SonarFindingsOf(issues[..i]) && files == FilesOf(smells)
      {
        var issue := issues[i];
        SonarFindingsStep(issues, i);
        if issue.issueType == Some("CODE_SMELL") {
          var finding := ExtractSonarIssue(issue);
          if finding.file.value != "" {
            files := files + {finding.file.value};
          }
          FilesOfAppend(smells, finding);
          smells := smells + [finding];
        }
      }
      assert issues[..|issues|] == issues;
    }
  }

  /** The finding of one model label, computed step by step as the extraction loop does. */
  method ExtractLlmSmell(smell: string, descriptions: map<string, string>,
                         locations: map<string, string>, confidences: map<string, string>)
    returns (f: Finding)
    ensures f == LlmFinding(smell, descriptions, locations, confidences)
  {
    var category := Normalize(smell);
    var location := if smell in locations then locations[smell] else "";
    var fileName, lines := SplitLocation(location);
    assert Location(fileName, lines) == ParseLocation(location);
    var description := if smell in descriptions then descriptions[smell] else "";
    var confidence := if smell in confidences then confidences[smell] else "médio";
    f := Finding(category, smell, fileName, lines, LlmDetails(description, confidence));
  }

  /** The file and lines of a model location, split at its first colon and then at `-`. */
  method SplitLocation(location: string) returns (fileName: Option<string>, lines: seq<int>)
    ensures fileName == ParseLocation(location).file && lines == ParseLocation(location).lines
  {
    fileName, lines := None, [];
    if ':' in location {
      var colon := IndexOf(location, ':');
      ghost var loc := ParseLocation(location);
      assert loc.file == Some(location[..colon]);
      fileName := Some(location[..colon]);
      lines := SplitLineSpan(location[colon + 1..]);
    }
  }

  /** The lines of a span `"<start>-<end>"`, none when either bound does not parse. */
  method SplitLineSpan(linePart: string) returns (lines: seq<int>)
    ensures lines == ParseLineSpan(linePart)
  {
    lines := [];
    if '-' in linePart {
      var bounds := Split(linePart, '-');
      if |bounds| == 2 && ParseInt(bounds[0]).Some? && ParseInt(bounds[1]).Some? {
        lines := LineRange(ParseInt(bounds[0]).value, ParseInt(bounds[1]).value);
      }
    }
  }

  /** The finding of one `CODE_SMELL` issue, computed step by step as the extraction loop does. */
  method ExtractSonarIssue(issue: Issue) returns (f: Finding)
    ensures f == SonarFinding(issue)
  {
    var rule := issue.rule.GetOr("");
    var category := Normalize(rule);
    var component := issue.component.GetOr("");
    var fileName := if ':' in component then LastSegment(component, ':') else component;
    var lines: seq<int> := [];
    if issue.line.Some? {
      lines := [issue.line.value];
    } else if issue.textRange.Some? {
      var startLine, endLine := issue.textRange.value.startLine, issue.textRange.value.endLine;
      if startLine.Some? && startLine.value != 0 && endLine.Some? && endLine.value != 0 {
        lines := LineRange(startLine.value, endLine.value);
      }
    }
    f := Finding(category, rule, Some(fileName), lines,
                 SonarDetails(issue.message.GetOr(""), issue.severity.GetOr("")));
  }

  /** `sum(len(cats) for cats in m.values()) / len(m)`, or 0 for an empty grouping. */
  method MeanOf(m: map<string, set<string>>) returns (mean: real)
    ensures mean == MeanCategories(m)
  {
    mean := 0.0;
    if |m| > 0 {
      var total := SumCategoryCounts(m);
      mean := total as real / |m| as real;
    }
  }
}
