/**
 * The report step of the CheckStyle analyser: from the XML that CheckStyle prints, one
 * record per `<error>` of every `<file>` element, in document order, with a summary that
 * counts the records in total, by severity and by type.
 */
module CheckstyleReport {
  import opened Wrappers
  import opened Text
  import opened Tally

  /** An XML element as the element tree presents it: tag, attributes, child elements in order. */
  datatype Element = Element(tag: string, attributes: map<string, string>, children: seq<Element>)
  {
    /** `elem.get(name)`: the attribute's value, `None` when the element has no such attribute. */
    function Get(name: string): Option<string> {
      if name in attributes then Some(attributes[name]) else None
    }
  }

  /** The outcome of `ET.fromstring`: the root element, or the parser's error text. */
  datatype XmlParse = ParseError(message: string) | Parsed(root: Element)

  /** One record of `code_smells`; every attribute the error element lacks is `None`. */
  datatype CheckstyleSmell = CheckstyleSmell(
    file: Option<string>, line: Option<string>, column: Option<string>, severity: Option<string>,
    message: Option<string>, source: Option<string>, smellType: string)

  /** The `summary` entry; the severity keys include `None` for errors without a severity. */
  datatype Summary = Summary(
    totalIssues: nat, issuesBySeverity: map<Option<string>, nat>, issuesByType: map<string, nat>)

  /** The dictionary the analyser returns: an `error` entry alone, or the records and their summary. */
  datatype Report = Failure(error: string) | Analysis(codeSmells: seq<CheckstyleSmell>, summary: Summary)

  const EmptyOutputError := "Saída vazia do CheckStyle"
  const ParseErrorPrefix := "Erro ao analisar XML: "
  /** The output CheckStyle gives for a run without any file, answered without parsing. */
  const EmptyCheckstyleDocument := "<checkstyle version='8.0'></checkstyle>"

  /** All elements below `e` in document order (each element before its own descendants), `e` excluded. */
  function Descendants(e: Element): seq<Element>
    decreases e, 1
  {
    DescendantsOf(e.children)
  }

  /** The elements of `cs` and their descendants, in document order. */
  function DescendantsOf(cs: seq<Element>): seq<Element>
    decreases cs, 0
  {
    if cs == [] then [] else [cs[0]] + Descendants(cs[0]) + DescendantsOf(cs[1..])
  }

  /** The elements of `es` whose tag is `tag`, in their order: the filter of `findall`. */
  function WithTag(es: seq<Element>, tag: string): seq<Element> {
    if es == [] then []
    else
      var init := WithTag(es[..|es| - 1], tag);
      var last := es[|es| - 1];
      if last.tag == tag then init + [last] else init
  }

  /** The filter keeps exactly the elements of `es` that carry the tag. */
  lemma {:induction false} WithTagSpec(es: seq<Element>, tag: string, e: Element)
    ensures e in WithTag(es, tag) <==> e in es && e.tag == tag
  {
    if es != [] {
      var init := es[..|es| - 1];
      WithTagSpec(init, tag, e);
      assert es == init + [es[|es| - 1]];
    }
  }

  /** `root.findall(".//file")`: every `<file>` element below the root. */
  function FileElements(root: Element): seq<Element> {
    WithTag(Descendants(root), "file")
  }

  /** `file_elem.findall("./error")`: the `<error>` children of a file element. */
  function ErrorElements(file: Element): seq<Element> {
    WithTag(file.children, "error")
  }

  /**
   * The type of a record: the text after the last `.` of `source` when `source` is present
   * and not empty, otherwise `"Unknown"`.
   */
  function SmellType(source: Option<string>): (t: string)
    ensures source.None? || source == Some("") ==> t == "Unknown"
    ensures source.Some? && source.value != "" ==>
      '.' !in t && |t| <= |source.value| && source.value[|source.value| - |t|..] == t
      && (|t| < |source.value| ==> source.value[|source.value| - |t| - 1] == '.')
      && ('.' !in source.value ==> t == source.value)
  {
    if source.Some? && source.value != "" then
      LastSegmentIsTextAfterLastSeparator(source.value, '.');
      LastSegment(source.value, '.')
    else "Unknown"
  }

  /** The record of one error element of the file named `fileName`. */
  function SmellOf(fileName: Option<string>, error: Element): CheckstyleSmell {
    var source := error.Get("source");
    CheckstyleSmell(fileName, error.Get("line"), error.Get("column"), error.Get("severity"),
                    error.Get("message"), source, SmellType(source))
  }

  /** The records of one file element, one per error child, in order. */
  function SmellsOfFile(file: Element): seq<CheckstyleSmell> {
    var errors := ErrorElements(file);
    seq(|errors|, i requires 0 <= i < |errors| => SmellOf(file.Get("name"), errors[i]))
  }

  /** The records of a list of file elements: those of each file in turn. */
  function SmellsOfFiles(files: seq<Element>): seq<CheckstyleSmell> {
    FlatMap(files, SmellsOfFile)
  }

  /** The records of a parsed document. */
  function Smells(root: Element): seq<CheckstyleSmell> {
    SmellsOfFiles(FileElements(root))
  }

  function Severities(smells: seq<CheckstyleSmell>): seq<Option<string>> {
    seq(|smells|, i requires 0 <= i < |smells| => smells[i].severity)
  }

  function Types(smells: seq<CheckstyleSmell>): seq<string> {
    seq(|smells|, i requires 0 <= i < |smells| => smells[i].smellType)
  }

  /**
   * The summary of a list of records: the total is the number of records, each histogram
   * has an entry for exactly the values that occur, each entry counts the records with
   * that value, and the entries of each histogram add up to the total.
   */
  function SummaryOf(smells: seq<CheckstyleSmell>): (s: Summary)
    ensures s.totalIssues == |smells|
    ensures forall sev :: sev in s.issuesBySeverity <==> sev in Severities(smells)
    ensures forall sev :: sev in s.issuesBySeverity ==>
      s.issuesBySeverity[sev] == Occurrences(Severities(smells), sev)
    ensures forall t :: t in s.issuesByType <==> t in Types(smells)
    ensures forall t :: t in s.issuesByType ==> s.issuesByType[t] == Occurrences(Types(smells), t)
    ensures SumBy(s.issuesBySeverity, (n: nat) => n) == |smells|
    ensures SumBy(s.issuesByType, (n: nat) => n) == |smells|
  {
    var severities, types := Severities(smells), Types(smells);
    var bySeverity, byType := Histogram(severities), Histogram(types);
    forall sev ensures sev in bySeverity <==> sev in severities
      ensures sev in bySeverity ==> bySeverity[sev] == Occurrences(severities, sev)
    {
      HistogramCounts(severities, sev);
    }
    forall t ensures t in byType <==> t in types
      ensures t in byType ==> byType[t] == Occurrences(types, t)
    {
      HistogramCounts(types, t);
    }
    HistogramTotal(severities);
    HistogramTotal(types);
    Summary(|smells|, bySeverity, byType)
  }

  /** Records of consecutive runs of files are the records of each run in turn: document order. */
  lemma SmellsOfFilesAppend(a: seq<Element>, b: seq<Element>)
    ensures SmellsOfFiles(a + b) == SmellsOfFiles(a) + SmellsOfFiles(b)
  {
    FlatMapAppend(a, b, SmellsOfFile);
  }

  /** The records of the first `i + 1` files extend those of the first `i` by the records of file `i`. */
  lemma SmellsOfFilesStep(files: seq<Element>, i: nat)
    requires i < |files|
    ensures SmellsOfFiles(files[..i + 1]) == SmellsOfFiles(files[..i]) + SmellsOfFile(files[i])
  {
    var init := files[..i + 1][..i];
    assert init == files[..i];
    assert files[..i + 1] == init + [files[i]];
  }

  /** Every record comes from one error element of one file element, and every such error gives one. */
  lemma {:induction false} SmellsOfFilesSpec(files: seq<Element>, smell: CheckstyleSmell)
    ensures smell in SmellsOfFiles(files) <==>
      exists i, j :: 0 <= i < |files| && 0 <= j < |ErrorElements(files[i])|
        && smell == SmellOf(files[i].Get("name"), ErrorElements(files[i])[j])
  {
    if files != [] {
      var init, last := files[..|files| - 1], files[|files| - 1];
      SmellsOfFilesSpec(init, smell);
      var errors := ErrorElements(last);
      if smell in SmellsOfFile(last) {
        var j :| 0 <= j < |errors| && SmellsOfFile(last)[j] == smell;
        assert files[|files| - 1] == last;
      }
      if exists i, j :: (0 <= i < |files| && 0 <= j < |ErrorElements(files[i])|
        && smell == SmellOf(files[i].Get("name"), ErrorElements(files[i])[j]))
      {
        var i, j :| 0 <= i < |files| && 0 <= j < |ErrorElements(files[i])|
          && smell == SmellOf(files[i].Get("name"), ErrorElements(files[i])[j]);
        if i < |files| - 1 {
          assert files[i] == init[i];
        } else {
          assert SmellsOfFile(last)[j] == smell;
        }
      }
    }
  }

  lemma SmellsOfFileStep(file: Element, j: nat)
    requires j < |ErrorElements(file)|
    ensures SmellsOfFile(file)[..j + 1] ==
      SmellsOfFile(file)[..j] + [SmellOf(file.Get("name"), ErrorElements(file)[j])]
  {
    var s := SmellsOfFile(file);
    assert s[..j + 1] == s[..j] + [s[j]];
  }

  /** The counters of the loop agree with the records collected so far. */
  ghost predicate Tallied(smells: seq<CheckstyleSmell>, total: nat,
                          bySeverity: map<Option<string>, nat>, byType: map<string, nat>)
  {
    total == |smells| && bySeverity == Histogram(Severities(smells)) && byType == Histogram(Types(smells))
  }

  lemma ProjectionsAppend(smells: seq<CheckstyleSmell>, smell: CheckstyleSmell)
    ensures Severities(smells + [smell]) == Severities(smells) + [smell.severity]
    ensures Types(smells + [smell]) == Types(smells) + [smell.smellType]
  {
  }

  /**
   * `parse_checkstyle_output`: an absent or empty output is an error; the output of a run
   * without files gives an empty report without parsing; a document the parser rejects is
   * an error carrying the parser's message; otherwise the report holds one record per error
   * element of every file element, in document order, and their summary.
   */
  method ParseCheckstyleOutput(xmlOutput: Option<string>, fromString: string -> XmlParse) returns (r: Report)
    ensures xmlOutput.None? || xmlOutput == Some("") ==> r == Failure(EmptyOutputError)
    ensures xmlOutput.Some? && xmlOutput.value != "" && Strip(xmlOutput.value) == EmptyCheckstyleDocument ==>
      r == Analysis([], Summary(0, map[], map[]))
    ensures xmlOutput.Some? && xmlOutput.value != "" && Strip(xmlOutput.value) != EmptyCheckstyleDocument ==>
      match fromString(xmlOutput.value)
      case ParseError(m) => r == Failure(ParseErrorPrefix + m)
      case Parsed(root) => r == Analysis(Smells(root), SummaryOf(Smells(root)))
  {
    if xmlOutput.None? || xmlOutput.value == "" {
      return Failure(EmptyOutputError);
    }
    var xml := xmlOutput.value;
    if Strip(xml) == EmptyCheckstyleDocument {
      return Analysis([], Summary(0, map[], map[]));
    }
    match fromString(xml) {
      case ParseError(m) =>
        r := Failure(ParseErrorPrefix + m);
      case Parsed(root) =>
        var smells, summary := CollectSmells(root);
        r := Analysis(smells, summary);
    }
  }

  /** The loops over the file elements of a parsed document and their error children. */
  method CollectSmells(root: Element) returns (smells: seq<CheckstyleSmell>, summary: Summary)
    ensures smells == Smells(root) && summary == SummaryOf(smells)
  {
    var files := FileElements(root);
    smells := [];
    var total: nat := 0;
    var bySeverity: map<Option<string>, nat> := map[];
    var byType: map<string, nat> := map[];
    for fi := 0 to |files|
      invariant smells == SmellsOfFiles(files[..fi])
      invariant Tallied(smells, total, bySeverity, byType)
    {
      SmellsOfFilesStep(files, fi);
      smells, total, bySeverity, byType := RecordFileErrors(files[fi], smells, total, bySeverity, byType);
    }
    assert files[..|files|] == files;
    summary := Summary(total, bySeverity, byType);
  }

  /** The inner loop over the error children of one file element. */
  method RecordFileErrors(file: Element, smells0: seq<CheckstyleSmell>, total0: nat,
                          bySeverity0: map<Option<string>, nat>, byType0: map<string, nat>)
    returns (smells: seq<CheckstyleSmell>, total: nat,
             bySeverity: map<Option<string>, nat>, byType: map<string, nat>)
    requires Tallied(smells0, total0, bySeverity0, byType0)
    ensures smells == smells0 + SmellsOfFile(file)
    ensures Tallied(smells, total, bySeverity, byType)
  {
    smells, total, bySeverity, byType := smells0, total0, bySeverity0, byType0;
    var fileName := file.Get("name");
    var errors := ErrorElements(file);
    for ei := 0 to |errors|
      invariant smells == smells0 + SmellsOfFile(file)[..ei]
      invariant Tallied(smells, total, bySeverity, byType)
    {
      var error := errors[ei];
      var line, column := error.Get("line"), error.Get("column");
      var severity, message, source := error.Get("severity"), error.Get("message"), error.Get("source");
      var smellType := if source.Some? && source.value != "" then LastSegment(source.value, '.') else "Unknown";
      var smell := CheckstyleSmell(fileName, line, column, severity, message, source, smellType);
      assert smell == SmellOf(fileName, error);
      SmellsOfFileStep(file, ei);
      smells, total, bySeverity, byType := RecordSmell(smell, smells, total, bySeverity, byType);
    }
    assert SmellsOfFile(file)[..|errors|] == SmellsOfFile(file);
  }

  /** One step of the inner loop: append the record and count it in the total and both histograms. */
  method RecordSmell(smell: CheckstyleSmell, smells0: seq<CheckstyleSmell>, total0: nat,
                     bySeverity0: map<Option<string>, nat>, byType0: map<string, nat>)
    returns (smells: seq<CheckstyleSmell>, total: nat,
             bySeverity: map<Option<string>, nat>, byType: map<string, nat>)
    requires Tallied(smells0, total0, bySeverity0, byType0)
    ensures smells == smells0 + [smell]
    ensures Tallied(smells, total, bySeverity, byType)
  {
    var severity, smellType := smell.severity, smell.smellType;
    ProjectionsAppend(smells0, smell);
    HistogramAppend(Severities(smells0), severity);
    HistogramAppend(Types(smells0), smellType);
    smells := smells0 + [smell];
    total := total0 + 1;
    bySeverity, byType := bySeverity0, byType0;
    if severity !in bySeverity {
      bySeverity := bySeverity[severity := 0];
    }
    bySeverity := bySeverity[severity := bySeverity[severity] + 1];
    if smellType !in byType {
      byType := byType[smellType := 0];
    }
    byType := byType[smellType := byType[smellType] + 1];
  }
}
