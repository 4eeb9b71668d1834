/**
 * Question 2 of the study: which approach covers more of the relevant files. The relevant
 * files are those either detector flagged; coverage is each detector's share of them, and
 * the mean number of distinct categories per flagged file measures how varied its findings are.
 */
module FileCoverage {
  import opened Wrappers
  import opened Tally
  import opened SmellFindings
  import opened SmellMetrics

  /**
   * `categorias_por_arquivo_*`: the categories of the findings with a file, grouped by
   * file, filled as a `defaultdict(set)` is by visiting the findings from the front.
   */
  function CategoriesPerFile(fs: seq<Finding>): map<string, set<string>> {
    if fs == [] then map[]
    else
      var m := CategoriesPerFile(fs[..|fs| - 1]);
      var f := fs[|fs| - 1];
      if HasFile(f) then
        m[f.file.value := (if f.file.value in m then m[f.file.value] else {}) + {f.category}]
      else m
  }

  /** The categories of the findings located in `file`. */
  function CategoriesAt(fs: seq<Finding>, file: string): set<string> {
    set i | 0 <= i < |fs| && HasFile(fs[i]) && fs[i].file.value == file :: fs[i].category
  }

  lemma CategoriesAtAppend(fs: seq<Finding>, f: Finding, file: string)
    ensures CategoriesAt(fs + [f], file) ==
      CategoriesAt(fs, file) + (if HasFile(f) && f.file.value == file then {f.category} else {})
  {
    var gs := fs + [f];
    forall c | c in CategoriesAt(gs, file)
      ensures c in CategoriesAt(fs, file) + (if HasFile(f) && f.file.value == file then {f.category} else {})
    {
      var i :| 0 <= i < |gs| && HasFile(gs[i]) && gs[i].file.value == file && gs[i].category == c;
      if i < |fs| { assert gs[i] == fs[i]; }
    }
    forall c | c in CategoriesAt(fs, file) ensures c in CategoriesAt(gs, file) {
      var i :| 0 <= i < |fs| && HasFile(fs[i]) && fs[i].file.value == file && fs[i].category == c;
      assert gs[i] == fs[i];
    }
    if HasFile(f) && f.file.value == file {
      assert gs[|fs|] == f;
    }
  }

  /**
   * The grouping has an entry for exactly the files of the findings, and the entry of a
   * file holds exactly the categories of the findings located there.
   */
  lemma {:induction false} CategoriesPerFileSpec(fs: seq<Finding>)
    ensures CategoriesPerFile(fs).Keys == FilesOf(fs)
    ensures forall file :: file in CategoriesPerFile(fs) ==>
      CategoriesPerFile(fs)[file] == CategoriesAt(fs, file)
  {
    if fs != [] {
      var init, f := fs[..|fs| - 1], fs[|fs| - 1];
      assert fs == init + [f];
      CategoriesPerFileSpec(init);
      FilesOfAppend(init, f);
      forall file | file in CategoriesPerFile(fs)
        ensures CategoriesPerFile(fs)[file] == CategoriesAt(fs, file)
      {
        CategoriesAtAppend(init, f, file);
        CategoriesAtOfFlaggedFile(init, file);
      }
    } else {
      assert FilesOf(fs) == {};
    }
  }

  /** Only a file some finding is located in has categories. */
  lemma CategoriesAtOfFlaggedFile(fs: seq<Finding>, file: string)
    ensures CategoriesAt(fs, file) != {} ==> file in FilesOf(fs)
  {
    if CategoriesAt(fs, file) != {} {
      var c :| c in CategoriesAt(fs, file);
      var i :| 0 <= i < |fs| && HasFile(fs[i]) && fs[i].file.value == file && fs[i].category == c;
    }
  }

  /** Every flagged file has at least one category, and none outside `cats` when every finding's category is in `cats`. */
  lemma CategoriesAtBounds(fs: seq<Finding>, file: string, cats: seq<string>)
    requires file in FilesOf(fs)
    requires forall i :: 0 <= i < |fs| ==> fs[i].category in cats
    ensures 1 <= |CategoriesAt(fs, file)| <= |cats|
  {
    var i :| 0 <= i < |fs| && HasFile(fs[i]) && fs[i].file.value == file;
    assert fs[i].category in CategoriesAt(fs, file);
    assert CategoriesAt(fs, file) <= set c | c in cats;
    CardOfElements(cats);
    SubsetCard(CategoriesAt(fs, file), set c | c in cats);
  }

  lemma SubsetCard<T>(a: set<T>, b: set<T>)
    requires a <= b
    ensures |a| <= |b|
  {
    assert b == a + (b - a);
  }

  /**
   * The loop that fills `categorias_por_arquivo_*`: for each finding with a file, add its
   * category to that file's set, creating the set on first use.
   */
  method CollectCategoriesPerFile(fs: seq<Finding>) returns (m: map<string, set<string>>)
    ensures m == CategoriesPerFile(fs)
  {
    m := map[];
    for i := 0 to |fs|
      invariant m == CategoriesPerFile(fs[..i])
    {
      assert fs[..i + 1][..i] == fs[..i];
      var f := fs[i];
      if HasFile(f) {
        var file := f.file.value;
        var cats := if file in m then m[file] else {};
        m := m[file := cats + {f.category}];
      }
    }
    assert fs[..|fs|] == fs;
  }

  /** The number of categories of a file's set. */
  function Size(cats: set<string>): nat {
    |cats|
  }

  /** `sum(len(cats) for cats in m.values())`, the total over all files, in any order of the keys. */
  method SumCategoryCounts(m: map<string, set<string>>) returns (total: nat)
    ensures total == SumBy(m, Size)
  {
    total := 0;
    var rest := m;
    while rest != map[]
      invariant total + SumBy(rest, Size) == SumBy(m, Size)
      decreases |rest|
    {
      var file :| file in rest;
      SumByRemove(rest, Size, file);
      total := total + |rest[file]|;
      rest := rest - {file};
    }
    assert SumBy(rest, Size) == 0 by {
      assert rest.Keys == {};
    }
  }

  /** The mean number of categories per file of a grouping, 0 for an empty one. */
  ghost function MeanCategories(m: map<string, set<string>>): real {
    if |m| > 0 then SumBy(m, Size) as real / |m| as real else 0.0
  }

  /**
   * For a detector whose findings all carry one of the categories `cats`, the mean number
   * of categories per flagged file lies between 1 and `|cats|`, and is 0 only when no
   * finding has a file.
   */
  lemma MeanCategoriesBounds(fs: seq<Finding>, cats: seq<string>)
    requires forall i :: 0 <= i < |fs| ==> fs[i].category in cats
    ensures FilesOf(fs) == {} ==> MeanCategories(CategoriesPerFile(fs)) == 0.0
    ensures FilesOf(fs) != {} ==> 1.0 <= MeanCategories(CategoriesPerFile(fs)) <= |cats| as real
  {
    var m := CategoriesPerFile(fs);
    CategoriesPerFileSpec(fs);
    assert |m| == |m.Keys| == |FilesOf(fs)|;
    EntryBounds(fs, cats);
    MeanOfBoundedEntries(m, |cats|);
  }

  /** Each entry of the grouping holds between 1 and `|cats|` categories. */
  lemma EntryBounds(fs: seq<Finding>, cats: seq<string>)
    requires forall i :: 0 <= i < |fs| ==> fs[i].category in cats
    ensures forall file :: file in CategoriesPerFile(fs) ==> 1 <= Size(CategoriesPerFile(fs)[file]) <= |cats|
  {
    var m := CategoriesPerFile(fs);
    CategoriesPerFileSpec(fs);
    forall file | file in m ensures 1 <= Size(m[file]) <= |cats| {
      CategoriesAtBounds(fs, file, cats);
    }
  }

  /** A mean of entries each between 1 and `hi` lies between 1 and `hi`. */
  lemma MeanOfBoundedEntries(m: map<string, set<string>>, hi: nat)
    requires forall file :: file in m ==> 1 <= Size(m[file]) <= hi
    ensures |m| == 0 ==> MeanCategories(m) == 0.0
    ensures |m| > 0 ==> 1.0 <= MeanCategories(m) <= hi as real
  {
    if |m| > 0 {
      SumByBounds(m, Size, 1, hi);
      var k, total := |m|, SumBy(m, Size);
      assert k <= total <= hi * k;
      ProductAsReal(hi, k);
      QuotientBetween(total as real, k as real, hi as real);
    }
  }

  /** Arithmetic steps of `MeanOfBoundedEntries`, kept apart so that its proof stays small. */
  lemma ProductAsReal(a: nat, b: nat)
    ensures (a * b) as real == a as real * b as real
  {
  }

  lemma QuotientBetween(sum: real, n: real, hi: real)
    requires n > 0.0 && n <= sum <= hi * n
    ensures 1.0 <= sum / n <= hi
  {
  }

  /** The report of question 2: M1 relevant files, M2 coverage, M3 categories per file. */
  datatype Question2 = Question2(
    totalFiles: nat, files: set<string>,
    llmFiles: nat, sonarFiles: nat, llmCoverage: real, sonarCoverage: real,
    meanLlm: real, meanSonar: real,
    llmDetails: map<string, set<string>>, sonarDetails: map<string, set<string>>)

  /**
   * The metrics of question 2 over the two detectors' findings, with the mean of both
   * detectors computed the same way (see `MeanLlmAsWritten` for the source's model side).
   */
  ghost function Question2Of(llm: seq<Finding>, sonar: seq<Finding>): (q: Question2)
    ensures q.files == FilesOf(llm) + FilesOf(sonar) && q.totalFiles == |q.files|
    ensures q.llmFiles == |FilesOf(llm)| && q.sonarFiles == |FilesOf(sonar)|
    ensures q.totalFiles == 0 ==> q.llmCoverage == 0.0 && q.sonarCoverage == 0.0
    ensures 0.0 <= q.llmCoverage <= 100.0 && 0.0 <= q.sonarCoverage <= 100.0
    ensures q.totalFiles > 0 ==> (q.llmCoverage == 100.0 <==> FilesOf(sonar) <= FilesOf(llm))
    ensures q.totalFiles > 0 ==> (q.sonarCoverage == 100.0 <==> FilesOf(llm) <= FilesOf(sonar))
    ensures q.llmDetails.Keys == FilesOf(llm) && q.sonarDetails.Keys == FilesOf(sonar)
    ensures forall f :: f in q.llmDetails ==> q.llmDetails[f] == CategoriesAt(llm, f)
    ensures forall f :: f in q.sonarDetails ==> q.sonarDetails[f] == CategoriesAt(sonar, f)
    ensures q.meanLlm == MeanCategories(q.llmDetails) && q.meanSonar == MeanCategories(q.sonarDetails)
  {
    var all, l, s := FilesOf(llm) + FilesOf(sonar), FilesOf(llm), FilesOf(sonar);
    CategoriesPerFileSpec(llm);
    CategoriesPerFileSpec(sonar);
    CoverageOfUnion(l, s);
    CoverageOfUnion(s, l);
    assert s + l == all;
    Question2(|all|, all, |l|, |s|, Percent(|l|, |all|), Percent(|s|, |all|),
              MeanCategories(CategoriesPerFile(llm)), MeanCategories(CategoriesPerFile(sonar)),
              CategoriesPerFile(llm), CategoriesPerFile(sonar))
  }

  /** One side of a union covers all of it exactly when it contains the other side. */
  lemma CoverageOfUnion(a: set<string>, b: set<string>)
    ensures |a| <= |a + b|
    ensures |a| == |a + b| <==> b <= a
  {
    SubsetCard(a, a + b);
    assert a + b == a + (b - a) && a * (b - a) == {};
    assert |a + b| == |a| + |b - a|;
    if |a| == |a + b| {
      assert b - a == {};
    }
    if b <= a {
      assert a + b == a;
    }
  }

  /** The source's mean for the language model: set to 0 and never recomputed. */
  function MeanLlmAsWritten(llmDetails: map<string, set<string>>): real {
    0.0
  }

  /**
   * One language-model finding in one file: the model flags one file with one category,
   * so its mean is 1, yet the source reports 0.
   */
  lemma MeanLlmAsWrittenIgnoresFindings()
    ensures var fs := [Finding("Long Method", "Long Method", Some("A.java"), [], LlmDetails("", "alto"))];
      MeanCategories(CategoriesPerFile(fs)) == 1.0 && MeanLlmAsWritten(CategoriesPerFile(fs)) == 0.0
  {
    var fs := [Finding("Long Method", "Long Method", Some("A.java"), [], LlmDetails("", "alto"))];
    var m := CategoriesPerFile(fs);
    assert fs[..0] == [];
    assert CategoriesPerFile(fs[..0]) == map[];
    assert m == map["A.java" := {} + {"Long Method"}];
    SumByRemove(m, Size, "A.java");
    assert m - {"A.java"} == map[];
    assert |m| == 1;
  }
}
