# Code smells: language model versus static analysers

This project models, in Dafny, the analysis core of a study that compares code smells
found by a large language model with those found by static analysers (SonarQube and
CheckStyle) on Java repositories. Three parts of the repository are modelled.

- **The comparator** (`CodeSmellComparator`). It does five things:
  - It normalises both detectors' JSON reports. Text that does not decode becomes an empty object.
  - It maps every raw label or rule key to one of eight canonical categories. Unknown labels go to `"Outros"`.
  - It extracts one uniform finding per model label and one per SonarQube `CODE_SMELL` issue. Each finding has a category, a file and lines.
  - It answers question 1 with totals and with similarity and divergence rates over `file:line:category` fingerprints.
  - It answers question 2 with relevant files, coverage and the mean number of categories per file, and question 3 with per-category contingency counts, precision, recall, F1, a guarded Cohen's kappa and exclusivity.
- **The CheckStyle report step** (`parse_checkstyle_output`). It turns CheckStyle's XML output into one record per `<error>` of every `<file>`, in document order. The summary counts the records in total, by severity and by type. Empty output and unparseable XML give an error entry. The empty-run document gives an empty report.
- **The chunk splitter** (`split_into_chunks`). It cuts source code at `class`/`def` headers. A chunk over the token budget (120 000) is packed greedily, line by line, into pieces.

## How the model is built

- **Dafny modules.**

  | module | role |
  |---|---|
  | `Wrappers` | `Option` |
  | `Text` | Python's `strip`, `split`, `int()`, `str()` and `splitlines(keepends=True)` on `seq<char>` |
  | `Tally` | counts, histograms, sums over maps, unions |
  | `SmellCategories` | the category table |
  | `SmellFindings` | payloads and extraction |
  | `SmellFingerprints` | location keys and fingerprints |
  | `SmellMetrics` | rate formulas |
  | `SmellOverlap` | question 1 |
  | `FileCoverage` | question 2 |
  | `CategoryAgreement` | the `deteccoes` table of question 3 |
  | `CategoryScoring` | per-category scores |
  | `SmellComparator` | the comparator class |
  | `CheckstyleReport` | the CheckStyle report step |
  | `ChunkSplitter` | the chunk splitter |
- **The comparator class.** It keeps the source's fields and is updated in place by its constructor and extraction methods.
- **The loops.** Each loop of the source is a method. The method is proved equal to a specification function, and the properties are lemmas about that function.
- **Rates.** Rates are `real`, not floating point.
- **Foreign calls become inputs.**

  | call in the source | in the model |
  |---|---|
  | `json.loads` | an `Option` payload (`None` for a `JSONDecodeError`) |
  | `ET.fromstring` | a function from text to a parse result |
  | `re.split` | its result, `parts` |
  | `count_tokens` | a function `string -> nat` |
  | `cohen_kappa_score` | a function over the two 0/1 vectors |

## Model

| member | source | states |
|---|---|---|
| SmellCategories.Normalize | Codigo/code_smell_study/core/code_smell_comparator.py:30-56 | every label maps to one of the eight scored categories; a label outside the table maps to "Outros", so no finding is dropped |
| SmellCategories.CategoriesAreDistinct | Codigo/code_smell_study/core/code_smell_comparator.py:340-349 | question 3 scores eight distinct categories |
| SmellCategories.NormalizeSynonyms | Codigo/code_smell_study/core/code_smell_comparator.py:33-35 | "God Object" and "Large Class" map to "God Class" |
| SmellCategories.NormalizeRuleKey | Codigo/code_smell_study/core/code_smell_comparator.py:47 | the rule key "java:S138" maps to "Long Method" |
| SmellCategories.NormalizeUnknown | Codigo/code_smell_study/core/code_smell_comparator.py:90 | an unknown label maps to the default bucket "Outros" |
| SmellCategories.CategoriesHaveNoColon | Codigo/code_smell_study/core/code_smell_comparator.py:30-56 | no category contains a colon, so it closes a fingerprint unambiguously |
| SmellFindings.NormalizeLlm | Codigo/code_smell_study/core/code_smell_comparator.py:61-69 | model text that does not decode becomes an object without `smells_detectados` |
| SmellFindings.NormalizeSonar | Codigo/code_smell_study/core/code_smell_comparator.py:71-79 | analyser text that does not decode becomes an object without `issues` |
| SmellFindings.LineRangeSpec | Codigo/code_smell_study/core/code_smell_comparator.py:104 | `range(start, end + 1)` holds exactly the lines from `start` to `end`, each once and in increasing order; none when `start > end` |
| SmellFindings.ParseLineSpan | Codigo/code_smell_study/core/code_smell_comparator.py:101-106 | a span without `-` gives no lines; every parsed line is non-negative, since a minus sign cannot survive the split on `-` |
| SmellFindings.ParseLocation | Codigo/code_smell_study/core/code_smell_comparator.py:97-106 | without a colon there is no file and no lines; with one, the file is the colon-free text before the first colon |
| SmellFindings.ParseLocationOfFile | Codigo/code_smell_study/core/code_smell_comparator.py:97-99 | `file:span` with a colon-free file splits into that file and the parse of the span |
| SmellFindings.ParseLocationOfDigits | Codigo/code_smell_study/core/code_smell_comparator.py:97-104 | `file:a-b` with two digit runs gives the file and exactly the lines from the value of `a` to that of `b` |
| SmellFindings.ParseLocationRoundTrip | Codigo/code_smell_study/core/code_smell_comparator.py:97-104 | `file:str(a)-str(b)` parses back to the file and exactly the lines `a..b` |
| SmellFindings.ParseLocationWithoutNumbers | Codigo/code_smell_study/core/code_smell_comparator.py:101-106 | a span without `-`, with more than one `-`, or with either bound rejected by `int()` keeps the file and gets no lines |
| SmellFindings.LlmFindings | Codigo/code_smell_study/core/code_smell_comparator.py:87-118 | one finding per listed label, in order, carrying the label and its normalised category; none for a payload without labels |
| SmellFindings.SonarFileName | Codigo/code_smell_study/core/code_smell_comparator.py:134 | the file is the colon-free suffix after the last colon of `component`, or all of it when it has no colon |
| SmellFindings.SonarLines | Codigo/code_smell_study/core/code_smell_comparator.py:137-144 | `line` takes precedence; otherwise, when both `textRange` bounds are present and non-zero, the lines are exactly `range(startLine, endLine + 1)`, and in every other case there are none |
| SmellFindings.SonarFinding | Codigo/code_smell_study/core/code_smell_comparator.py:126-156 | a `CODE_SMELL` issue always gives a finding with a colon-free file |
| SmellFindings.SonarFindingsOf | Codigo/code_smell_study/core/code_smell_comparator.py:124-156 | as many findings as `CODE_SMELL` issues, each with a colon-free file |
| SmellFindings.SonarFindingsIgnoreOtherIssues | Codigo/code_smell_study/core/code_smell_comparator.py:126 | an issue of another type adds no finding, wherever it stands |
| SmellFindings.SonarFindingsPrepend | Codigo/code_smell_study/core/code_smell_comparator.py:125-126 | the findings of a first issue come before those of the rest: issue order is kept |
| SmellFindings.FilesOfAppend | Codigo/code_smell_study/core/code_smell_comparator.py:108-109 | a finding adds its file to the file set exactly when the file is non-empty |
| SmellFindings.MalformedTextHasNoFindings | Codigo/code_smell_study/core/code_smell_comparator.py:63-68 | undecodable text from either detector yields no findings instead of an error |
| SmellFindings.ExtractedFilesHaveNoColon | Codigo/code_smell_study/core/code_smell_comparator.py:97-99 | every extracted file name, from either detector, is free of colons |
| SmellFingerprints.LineFingerprintsMembership | Codigo/code_smell_study/core/code_smell_comparator.py:184-185 | the line fingerprints are exactly `file:line:category` for the lines given |
| SmellFingerprints.FindingFingerprintForms | Codigo/code_smell_study/core/code_smell_comparator.py:182-187 | a finding without a file contributes nothing, one with a file only `file:category`, one with lines exactly `{file:line:category}` |
| SmellFingerprints.FingerprintsMembership | Codigo/code_smell_study/core/code_smell_comparator.py:182-194 | a fingerprint of a list is a fingerprint of one of its findings, and conversely |
| SmellFingerprints.FingerprintIsUnambiguous | Codigo/code_smell_study/core/code_smell_comparator.py:185 | with colon-free categories, equal fingerprints have equal location keys and categories |
| SmellFingerprints.FingerprintSource | Codigo/code_smell_study/core/code_smell_comparator.py:182-187 | every fingerprint of a list comes from one finding's location key and category |
| SmellFingerprints.SharedFingerprint | Codigo/code_smell_study/core/code_smell_comparator.py:197 | a shared fingerprint means a finding of each detector with the same category at the same location key |
| SmellFingerprints.CollectFingerprints | Codigo/code_smell_study/core/code_smell_comparator.py:179-194 | the fingerprint loop collects exactly the union of the findings' fingerprints |
| SmellFingerprints.AddFingerprints | Codigo/code_smell_study/core/code_smell_comparator.py:182-187 | one iteration adds exactly that finding's fingerprints |
| SmellFingerprints.AddLineFingerprints | Codigo/code_smell_study/core/code_smell_comparator.py:184-185 | the inner loop adds exactly `file:line:category` for every line |
| SmellMetrics.Percent | Codigo/code_smell_study/core/code_smell_comparator.py:201-204 | 0 for an empty whole; within [0, 100] for a part of the whole; 100 exactly for the whole and 0 exactly for nothing |
| SmellMetrics.Ratio | Codigo/code_smell_study/core/code_smell_comparator.py:414-415 | 0 for a zero denominator, within [0, 1] for a numerator no larger |
| SmellMetrics.PercentsOfPartition | Codigo/code_smell_study/core/code_smell_comparator.py:201-221 | the percentages of three parts that make up a non-empty whole add up to exactly 100 |
| SmellMetrics.Precision | Codigo/code_smell_study/core/code_smell_comparator.py:414 | within [0, 1]; 0 when `tp + fp` is 0 and whenever `tp` is 0; 1 exactly when there are true positives and no false positives |
| SmellMetrics.Recall | Codigo/code_smell_study/core/code_smell_comparator.py:415 | within [0, 1]; 0 when `tp + fn` is 0 and whenever `tp` is 0; 1 exactly when there are true positives and no false negatives |
| SmellMetrics.F1 | Codigo/code_smell_study/core/code_smell_comparator.py:416 | within [0, 1]; 0 when precision or recall is 0; equal to them when they agree |
| SmellMetrics.HarmonicMeanBounds | Codigo/code_smell_study/core/code_smell_comparator.py:416 | the harmonic mean of two rates in [0, 1] lies in [0, 1] and equals them when they are equal |
| SmellOverlap.Question1Of | Codigo/code_smell_study/core/code_smell_comparator.py:166-228 | common, exclusive and union counts of the fingerprint sets; the rates are 0 for an empty union, otherwise add up to 100, each in [0, 100]; similarity is 100 exactly for equal non-empty sets and a divergence is 0 exactly for a subset |
| SmellOverlap.SetPartition | Codigo/code_smell_study/core/code_smell_comparator.py:197-214 | intersection and the two differences partition the union |
| FileCoverage.CategoriesPerFileSpec | Codigo/code_smell_study/core/code_smell_comparator.py:287-296 | the grouping has an entry for exactly the files of the findings, holding exactly the categories found in that file |
| FileCoverage.CategoriesAtAppend | Codigo/code_smell_study/core/code_smell_comparator.py:290-292 | a finding adds its category to its own file's set and to no other |
| FileCoverage.CategoriesAtBounds | Codigo/code_smell_study/core/code_smell_comparator.py:290-292 | a flagged file has between one and `|categories|` categories |
| FileCoverage.CollectCategoriesPerFile | Codigo/code_smell_study/core/code_smell_comparator.py:287-296 | the `defaultdict(set)` loop builds exactly the grouping |
| FileCoverage.SumCategoryCounts | Codigo/code_smell_study/core/code_smell_comparator.py:303 | the sum of the set sizes over all files, whatever order the keys are taken in |
| FileCoverage.MeanCategoriesBounds | Codigo/code_smell_study/core/code_smell_comparator.py:302-303 | the mean is 0 without flagged files, otherwise between 1 and the number of categories |
| FileCoverage.EntryBounds | Codigo/code_smell_study/core/code_smell_comparator.py:290-296 | every entry of the grouping holds between one and `|categories|` categories |
| FileCoverage.MeanOfBoundedEntries | Codigo/code_smell_study/core/code_smell_comparator.py:302-303 | a mean of entries that are each between 1 and `hi` lies between 1 and `hi`, and is 0 with no entries |
| FileCoverage.Question2Of | Codigo/code_smell_study/core/code_smell_comparator.py:258-310 | relevant files are the union; coverages are 0 without files and within [0, 100]; a coverage is 100 exactly when that side holds the other's files; the details map each flagged file to exactly the categories flagged in it, and the means are taken over those details |
| FileCoverage.CoverageOfUnion | Codigo/code_smell_study/core/code_smell_comparator.py:269-277 | one side is never larger than the union, and is as large exactly when it contains the other side |
| FileCoverage.MeanLlmAsWrittenIgnoresFindings | Codigo/code_smell_study/core/code_smell_comparator.py:299-306 | one model finding in one file has mean 1, yet the source reports 0 |
| CategoryAgreement.FindingEventsSpec | Codigo/code_smell_study/core/code_smell_comparator.py:357-363 | a finding places its own category, for its own detector, at each of its location keys and nowhere else |
| CategoryAgreement.EventsOfSpec | Codigo/code_smell_study/core/code_smell_comparator.py:356-372 | a placement of a list is a placement of one of its findings, and conversely |
| CategoryAgreement.ReplaySpec | Codigo/code_smell_study/core/code_smell_comparator.py:354-372 | the table has an entry for exactly the placed keys, and each side holds exactly the categories placed there by that detector |
| CategoryAgreement.ReplayStep | Codigo/code_smell_study/core/code_smell_comparator.py:359-360 | one more placement updates one entry; a new key goes to the end of the key order |
| CategoryAgreement.DetectionTableSpec | Codigo/code_smell_study/core/code_smell_comparator.py:354-372 | a side of `deteccoes[key]` holds a category exactly when a finding of that detector and category sits at that key |
| CategoryAgreement.PlacedBy | Codigo/code_smell_study/core/code_smell_comparator.py:356-372 | a detector's placements come from its own findings, never from the other detector's |
| CategoryAgreement.DetectionKeysSpec | Codigo/code_smell_study/core/code_smell_comparator.py:354 | the key order lists every key of the table once |
| CategoryAgreement.Detect | Codigo/code_smell_study/core/code_smell_comparator.py:359-360 | one `add` on the `defaultdict`, creating the entry on first use and appending a new key to the order |
| CategoryAgreement.RecordFinding | Codigo/code_smell_study/core/code_smell_comparator.py:357-363 | the table and key order after one finding's placements |
| CategoryAgreement.RecordLines | Codigo/code_smell_study/core/code_smell_comparator.py:358-360 | the inner loop places the category at `file:line` for each line in turn |
| CategoryAgreement.RecordFindings | Codigo/code_smell_study/core/code_smell_comparator.py:356-363 | one detector's loop records all its placements in order |
| CategoryAgreement.CollectDetections | Codigo/code_smell_study/core/code_smell_comparator.py:354-372 | the fill loops build exactly the detection table and its key order, model findings first |
| CategoryScoring.AgreementOf | Codigo/code_smell_study/core/code_smell_comparator.py:397-408 | the model flags the category exactly for Both or OnlyLlm, the analyser exactly for Both or OnlySonar |
| CategoryScoring.VectorsOfTable | Codigo/code_smell_study/core/code_smell_comparator.py:396-411 | entry `i` of `llm_detectou` (`sonar_detectou`) is 1 exactly when the model (analyser) placed the category at key `i`, and 0 otherwise |
| CategoryScoring.ScoreOf | Codigo/code_smell_study/core/code_smell_comparator.py:382-437 | tp, fp and fn count the keys by agreement; the exclusive counts equal fp and fn; total is the flagged keys; precision, recall and F1 are `Precision`, `Recall` and `F1` of those counts, so they lie in [0, 1] and are all 0 when there is no true positive (in particular when nothing is flagged); kappa is 0 when nothing is flagged or every key is flagged by both, and otherwise is the kappa function's value |
| CategoryScoring.AgreementTotals | Codigo/code_smell_study/core/code_smell_comparator.py:401-408 | every key falls in exactly one of the four cases |
| CategoryScoring.KappaGuard | Codigo/code_smell_study/core/code_smell_comparator.py:419 | the guard holds exactly when some key is flagged and not every key is flagged by both |
| CategoryScoring.OneInVectors | Codigo/code_smell_study/core/code_smell_comparator.py:410-411 | a 1 occurs in the vectors exactly when some key is flagged |
| CategoryScoring.ZeroInVectors | Codigo/code_smell_study/core/code_smell_comparator.py:410-411 | a 0 occurs in the vectors exactly when some key is not flagged by both |
| CategoryScoring.TotalIsFlaggedKeys | Codigo/code_smell_study/core/code_smell_comparator.py:435 | over keys without repeats, `tp + fp + fn` is the number of keys where at least one detector flags the category |
| CategoryScoring.AgreementStep | Codigo/code_smell_study/core/code_smell_comparator.py:401-411 | one more key adds one to its case's counter and one entry to each vector |
| CategoryScoring.ScoreCategory | Codigo/code_smell_study/core/code_smell_comparator.py:382-437 | the scoring of one category is exactly the scores of its agreements |
| CategoryScoring.CountAgreements | Codigo/code_smell_study/core/code_smell_comparator.py:396-411 | the counter loop yields the case counts, exclusive counts equal to fp and fn, and the two vectors |
| SmellComparator.CategoryScoreOfTable | Codigo/code_smell_study/core/code_smell_comparator.py:396-437 | the scores over the built table are the scores of the two finding lists |
| SmellComparator.CategoryTotalIsFlaggedKeys | Codigo/code_smell_study/core/code_smell_comparator.py:435 | a category's total is the number of detection keys where at least one detector placed it |
| SmellComparator.CodeSmellComparator.constructor | Codigo/code_smell_study/core/code_smell_comparator.py:15-59 | the payloads are normalised and the extracted fields agree with them |
| SmellComparator.CodeSmellComparator.ExtractSmellsAndFiles | Codigo/code_smell_study/core/code_smell_comparator.py:81-159 | the findings and file sets are those of the payloads and `all_files` is their union; payloads unchanged |
| SmellComparator.CodeSmellComparator.ExtractLlm | Codigo/code_smell_study/core/code_smell_comparator.py:83-118 | the model's findings and their non-empty files; the analyser's fields and `all_files` unchanged |
| SmellComparator.CodeSmellComparator.ExtractSonar | Codigo/code_smell_study/core/code_smell_comparator.py:120-156 | the analyser's findings and their non-empty files; the model's fields and `all_files` unchanged |
| SmellComparator.CodeSmellComparator.AnalyzeQuestion1 | Codigo/code_smell_study/core/code_smell_comparator.py:161-228 | the question 1 metrics of the finding counts and the two fingerprint sets |
| SmellComparator.CodeSmellComparator.AnalyzeQuestion2 | Codigo/code_smell_study/core/code_smell_comparator.py:252-310 | the question 2 metrics of the two finding lists, with the corrected model mean |
| SmellComparator.CodeSmellComparator.AnalyzeQuestion3 | Codigo/code_smell_study/core/code_smell_comparator.py:333-437 | one score per listed category, in order, each over the detection table of the findings |
| SmellComparator.ScoreCategories | Codigo/code_smell_study/core/code_smell_comparator.py:382-437 | the category loop scores each category over the same keys and table |
| SmellComparator.CollectLlmFindings | Codigo/code_smell_study/core/code_smell_comparator.py:87-118 | the loop over labels yields exactly the model's findings and their non-empty files |
| SmellComparator.CollectSonarFindings | Codigo/code_smell_study/core/code_smell_comparator.py:124-156 | the loop over issues yields exactly the findings of the `CODE_SMELL` issues and their non-empty files |
| SmellComparator.ExtractLlmSmell | Codigo/code_smell_study/core/code_smell_comparator.py:88-118 | the record built for one label is its finding |
| SmellComparator.SplitLocation | Codigo/code_smell_study/core/code_smell_comparator.py:93-106 | the file and lines computed step by step are the parse of the location |
| SmellComparator.SplitLineSpan | Codigo/code_smell_study/core/code_smell_comparator.py:101-106 | the `try`/`except ValueError` over `map(int, ...)` gives the span's lines |
| SmellComparator.ExtractSonarIssue | Codigo/code_smell_study/core/code_smell_comparator.py:126-156 | the record built for one issue is its finding |
| SmellComparator.MeanOf | Codigo/code_smell_study/core/code_smell_comparator.py:302-303 | the mean categories per file, 0 for an empty grouping |
| Text.StripEmptyIffBlank | Codigo/code_smell_study/core/llm_analyzer.py:27 | `s.strip()` is empty exactly when `s` is whitespace only |
| Text.Split | Codigo/code_smell_study/core/code_smell_comparator.py:103 | at least one part, none containing the separator |
| Text.JoinSplit | Codigo/code_smell_study/core/code_smell_comparator.py:103 | joining the parts with the separator gives the string back |
| Text.LastSegmentIsTextAfterLastSeparator | Codigo/code_smell_study/core/code_smell_comparator.py:134 | `s.split(c)[-1]` is the separator-free suffix after the last `c` |
| Text.ParseIntWithoutMinus | Codigo/code_smell_study/core/code_smell_comparator.py:103 | `int()` of text without a minus sign is never negative |
| Text.DigitGroupParses | Codigo/code_smell_study/core/code_smell_comparator.py:103 | `int()` accepts a digit run and gives its value |
| Text.ParseIntKeepsSeparators | Codigo/code_smell_study/core/code_smell_comparator.py:103 | `int()` rejects a number preceded by one of U+001C..U+001F, although `str.isspace()` holds for it |
| Text.ParseNatToString | Codigo/code_smell_study/core/code_smell_comparator.py:103 | `int(str(n)) == n` for a natural number |
| Text.NatToStringDigits | Codigo/code_smell_study/core/code_smell_comparator.py:185 | `str(n)` is a digit run whose value is `n` |
| Text.SplitLines | Codigo/code_smell_study/core/llm_analyzer.py:41 | `splitlines(keepends=True)` gives back the text when concatenated, and no line is empty |
| Tally.FirstOccurrences | Codigo/code_smell_study/core/code_smell_comparator.py:354 | the key order of a dict filled from the front: each value once, exactly the values that occur |
| Tally.Occurrences | Codigo/code_smell_study/core/checkstyle_analyzer.py:318-326 | a count of positions, 0 exactly when the value does not occur |
| Tally.HistogramAppend | Codigo/code_smell_study/core/checkstyle_analyzer.py:319-321 | one more value updates only its own entry, created at 1 when missing |
| Tally.HistogramCounts | Codigo/code_smell_study/core/checkstyle_analyzer.py:318-326 | an entry exists exactly for a value that occurs, and it counts that value's occurrences |
| Tally.HistogramTotal | Codigo/code_smell_study/core/checkstyle_analyzer.py:313-326 | the entries of a histogram add up to the number of values |
| CheckstyleReport.WithTagSpec | Codigo/code_smell_study/core/checkstyle_analyzer.py:288-292 | `findall` keeps exactly the elements with the tag |
| CheckstyleReport.SmellType | Codigo/code_smell_study/core/checkstyle_analyzer.py:300 | "Unknown" for an absent or empty source, otherwise the dot-free suffix after the last `.` |
| CheckstyleReport.SummaryOf | Codigo/code_smell_study/core/checkstyle_analyzer.py:313-326 | total equals the number of records; each histogram has an entry exactly for the values that occur, counting the records with that value; the entries add up to the total |
| CheckstyleReport.SmellsOfFilesAppend | Codigo/code_smell_study/core/checkstyle_analyzer.py:288-313 | the records of consecutive files come file after file: document order |
| CheckstyleReport.SmellsOfFilesSpec | Codigo/code_smell_study/core/checkstyle_analyzer.py:288-313 | every record comes from one error of one file element, and every error gives a record |
| CheckstyleReport.ParseCheckstyleOutput | Codigo/code_smell_study/core/checkstyle_analyzer.py:244-328 | absent or empty output is an error; the empty-run document gives no records and empty counts; a parse failure gives only the prefixed error; otherwise the records in document order and their summary |
| CheckstyleReport.CollectSmells | Codigo/code_smell_study/core/checkstyle_analyzer.py:288-326 | the nested loops yield exactly the document's records and their summary |
| CheckstyleReport.RecordFileErrors | Codigo/code_smell_study/core/checkstyle_analyzer.py:292-326 | one file's loop appends its records and keeps the counters in step with the records |
| CheckstyleReport.RecordSmell | Codigo/code_smell_study/core/checkstyle_analyzer.py:313-326 | one record is appended and counted in the total and in both histograms |
| ChunkSplitter.HeaderChunks | Codigo/code_smell_study/core/llm_analyzer.py:25-33 | no header gives exactly `[code]`; otherwise the lead chunk appears only when not blank, followed by each header with its body, in order |
| ChunkSplitter.HeaderBodiesConcat | Codigo/code_smell_study/core/llm_analyzer.py:29-31 | the header chunks spell the parts after the lead |
| ChunkSplitter.HeaderChunksConcat | Codigo/code_smell_study/core/llm_analyzer.py:22-33 | grouping loses no text except a blank lead |
| ChunkSplitter.GroupAtHeaders | Codigo/code_smell_study/core/llm_analyzer.py:25-33 | the first loop builds exactly the header chunks |
| ChunkSplitter.AppendHeaderBodies | Codigo/code_smell_study/core/llm_analyzer.py:29-31 | the header loop appends exactly each header joined with its body, in order, after what was already collected |
| ChunkSplitter.PackConcat | Codigo/code_smell_study/core/llm_analyzer.py:40-48 | the packed pieces spell the accumulator followed by the lines |
| ChunkSplitter.PackPieces | Codigo/code_smell_study/core/llm_analyzer.py:41-46 | every piece is the starting accumulator, a single line, or within the budget |
| ChunkSplitter.PackEmptyOnlyFirst | Codigo/code_smell_study/core/llm_analyzer.py:40-48 | an empty piece can only be the first, and only from an empty accumulator |
| ChunkSplitter.PackLines | Codigo/code_smell_study/core/llm_analyzer.py:40-48 | the greedy line loop emits exactly the packed pieces |
| ChunkSplitter.PiecesOfSpec | Codigo/code_smell_study/core/llm_analyzer.py:37-48 | a chunk's pieces spell it; a piece over the budget is empty or a single line; only the first piece can be empty |
| ChunkSplitter.PiecesOfChunksConcat | Codigo/code_smell_study/core/llm_analyzer.py:36-48 | the pieces of all chunks spell the chunks, in order |
| ChunkSplitter.PiecesOfChunksBudget | Codigo/code_smell_study/core/llm_analyzer.py:42-46 | every piece over the budget is empty or a single line of one chunk |
| ChunkSplitter.ChunksConcat | Codigo/code_smell_study/core/llm_analyzer.py:21-49 | the final pieces spell the code, without a blank lead before the first header |
| ChunkSplitter.SplitIntoChunks | Codigo/code_smell_study/core/llm_analyzer.py:21-49 | the whole function returns exactly the pieces of the header chunks |
| ChunkSplitter.PackChunks | Codigo/code_smell_study/core/llm_analyzer.py:36-48 | the loop over the header chunks emits exactly the pieces of each chunk, in chunk order |

## Left out

- **Not modelled at all:**
  - Plotting and file output: the `matplotlib` charts of the three questions, the output directory, and the report generators and their writes.
  - `analyze_with_llm`: a network call with retries and sleeps.
  - Running CheckStyle: subprocess, download and JAR checks.
  - The repository miner and command-line entry points.
- **Foreign libraries become inputs:** `json.loads`, `ET.fromstring`, `re.split`, `tiktoken` and `cohen_kappa_score` (see the table above).
  - The parse result is taken as a well-formed tree of elements.
  - `parts` must have odd length, as one capturing group gives.
- **Comparator inputs:**
  - An absent key is `None`. JSON `null` and values of the wrong type in the fields read are not modelled. In particular, an issue whose `line` is `null` is read as one without `line`; the source would give the line list `[None]`.
  - A payload whose `localizacao`, `descricao` or `confianca` is missing or not an object is outside the model. The source raises there (`KeyError`/`AttributeError`).
  - A file name of `None` from the analyser is outside the model. `component` is read as a string.
- **Numbers:**
  - Floating point is modelled as `real`, so there is no rounding.
  - `int()` accepts only ASCII digits here. The non-ASCII decimal digits Python also accepts are not modelled.
- **Python dictionary order:** the key order of `issues_by_severity` and `issues_by_type` is not modelled, because they are maps. The key order of `deteccoes` is modelled.
- **Lists made from sets:** in question 2, `arquivos` and the `detalhes_*` lists come from Python sets, so their order is arbitrary. The model keeps them as sets.
- **Exceptions:** the generic `except Exception` of `parse_checkstyle_output` is not modelled. Nothing in the modelled path raises once the tree is given.
- CategoryScoring.ScoreOf: does not state that kappa is 0 when one detector flags no key of the category and the other flags some. The source calls `cohen_kappa_score` in that case, and its value depends on the library's numerics, which are abstract here.
- SmellComparator.CodeSmellComparator.AnalyzeQuestion2: uses the corrected mean for the language model rather than the constant 0 the source reports (see Findings). The value as written is `FileCoverage.MeanLlmAsWritten`.
- FileCoverage.Question2Of: its `meanLlm` is the corrected mean, the mean size of the per-file category sets, not the constant 0 the source reports at code_smell_comparator.py:299 (see Findings). The value as written is `FileCoverage.MeanLlmAsWritten`.

## Findings

| source | as written | input that shows it | evidently intended | confidence | as-written member | corrected member |
|---|---|---|---|---|---|---|
| Codigo/code_smell_study/core/code_smell_comparator.py:299-306 | `media_categorias_llm` is set to 0 and never computed, although `categorias_por_arquivo_llm` is built | one model finding `Long Method` in `A.java`: mean categories per file is 1, reported `media_llm` is 0 | compute the model's mean like the analyser's: the mean size of the per-file category sets, 0 without files | high, not executed | FileCoverage.MeanLlmAsWrittenIgnoresFindings | FileCoverage.MeanCategoriesBounds |
