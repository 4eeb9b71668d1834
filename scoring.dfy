/**
 * The per-category scores of question 3, computed over the keys of the detection table:
 * true and false positives and false negatives, precision, recall and F1, Cohen's kappa
 * over the two 0/1 detection vectors, and the keys only one detector flagged.
 */
module CategoryScoring {
  import opened Tally
  import opened SmellMetrics
  import opened CategoryAgreement

  /** How the two detectors stand on one category at one key. */
  datatype Agreement = Both | OnlyLlm | OnlySonar | Neither

  function AgreementOf(d: Detection, category: string): (a: Agreement)
    ensures (a == Both || a == OnlyLlm) <==> category in d.llm
    ensures (a == Both || a == OnlySonar) <==> category in d.sonar
  {
    var llmHas, sonarHas := category in d.llm, category in d.sonar;
    if llmHas && sonarHas then Both
    else if llmHas then OnlyLlm
    else if sonarHas then OnlySonar
    else Neither
  }

  predicate KeysInTable(keys: seq<string>, table: map<string, Detection>) {
    forall k :: k in keys ==> k in table
  }

  /** The agreement on `category` at each key, in key order. */
  function Agreements(keys: seq<string>, table: map<string, Detection>, category: string): seq<Agreement>
    requires KeysInTable(keys, table)
  {
    seq(|keys|, i requires 0 <= i < |keys| => AgreementOf(table[keys[i]], category))
  }

  /** `llm_detectou`: 1 where the language model flags the category, 0 elsewhere. */
  function LlmVector(a: seq<Agreement>): seq<int> {
    seq(|a|, i requires 0 <= i < |a| => if a[i] == Both || a[i] == OnlyLlm then 1 else 0)
  }

  /** `sonar_detectou`: 1 where the analyser flags the category, 0 elsewhere. */
  function SonarVector(a: seq<Agreement>): seq<int> {
    seq(|a|, i requires 0 <= i < |a| => if a[i] == Both || a[i] == OnlySonar then 1 else 0)
  }

  /** The source's guard around `cohen_kappa_score`: some key, and the vectors hold both values. */
  predicate KappaApplies(llmVector: seq<int>, sonarVector: seq<int>) {
    |llmVector| > 0 && |set v | v in llmVector + sonarVector| > 1
  }

  /** The scores of one category (M1 precision/recall/F1, M2 kappa, M3 exclusivity). */
  datatype CategoryScore = CategoryScore(
    category: string,
    truePositives: nat, falsePositives: nat, falseNegatives: nat,
    precision: real, recall: real, f1: real,
    kappa: real,
    exclusiveLlm: nat, exclusiveSonar: nat, total: nat)

  /**
   * The scores of a category from its agreements, `kappaScore` standing for
   * `cohen_kappa_score`. The counts tally the keys by agreement; the language model's
   * exclusive keys are its false positives and the analyser's its false negatives;
   * kappa is left at 0 whenever the two vectors cannot disagree, that is when no key is
   * flagged or every key is flagged by both.
   */
  function ScoreOf(category: string, a: seq<Agreement>, kappaScore: (seq<int>, seq<int>) -> real): (s: CategoryScore)
    ensures s.category == category
    ensures s.truePositives == multiset(a)[Both]
    ensures s.falsePositives == multiset(a)[OnlyLlm]
    ensures s.falseNegatives == multiset(a)[OnlySonar]
    ensures s.exclusiveLlm == s.falsePositives && s.exclusiveSonar == s.falseNegatives
    ensures s.total == s.truePositives + s.falsePositives + s.falseNegatives == |a| - multiset(a)[Neither]
    ensures s.precision == Precision(s.truePositives, s.falsePositives)
    ensures s.recall == Recall(s.truePositives, s.falseNegatives)
    ensures s.f1 == F1(s.precision, s.recall)
    ensures 0.0 <= s.precision <= 1.0 && 0.0 <= s.recall <= 1.0 && 0.0 <= s.f1 <= 1.0
    ensures s.truePositives == 0 ==> s.precision == 0.0 && s.recall == 0.0 && s.f1 == 0.0
    ensures s.total == 0 ==> s.precision == 0.0 && s.recall == 0.0 && s.f1 == 0.0 && s.kappa == 0.0
    ensures s.truePositives == |a| ==> s.kappa == 0.0
    ensures s.total > 0 && s.truePositives < |a| ==> s.kappa == kappaScore(LlmVector(a), SonarVector(a))
  {
    var tp, fp, fn := multiset(a)[Both], multiset(a)[OnlyLlm], multiset(a)[OnlySonar];
    AgreementTotals(a);
    KappaGuard(a);
    var p, r := Precision(tp, fp), Recall(tp, fn);
    var llmVector, sonarVector := LlmVector(a), SonarVector(a);
    var kappa := if KappaApplies(llmVector, sonarVector) then kappaScore(llmVector, sonarVector) else 0.0;
    CategoryScore(category, tp, fp, fn, p, r, F1(p, r), kappa, fp, fn, tp + fp + fn)
  }

  /** Every key has exactly one agreement. */
  lemma {:induction false} AgreementTotals(a: seq<Agreement>)
    ensures multiset(a)[Both] + multiset(a)[OnlyLlm] + multiset(a)[OnlySonar] + multiset(a)[Neither] == |a|
  {
    if a != [] {
      var init := a[..|a| - 1];
      AgreementTotals(init);
      var x := a[|a| - 1];
      assert a == init + [x];
      assert multiset(a) == multiset(init) + multiset{x};
      match x
      case Both =>
      case OnlyLlm =>
      case OnlySonar =>
      case Neither =>
    }
  }

  /** The values that occur in the two detection vectors together. */
  function VectorValues(a: seq<Agreement>): set<int> {
    set x | x in LlmVector(a) + SonarVector(a)
  }

  /**
   * The kappa guard holds exactly when some key is flagged by a detector (a 1 in the
   * vectors) and some key is not flagged by both (a 0).
   */
  lemma KappaGuard(a: seq<Agreement>)
    ensures KappaApplies(LlmVector(a), SonarVector(a)) <==>
      multiset(a)[Both] + multiset(a)[OnlyLlm] + multiset(a)[OnlySonar] > 0 && multiset(a)[Both] < |a|
  {
    VectorValuesAreBits(a);
    OneInVectors(a);
    ZeroInVectors(a);
    TwoValues(VectorValues(a));
  }

  /**
   * `llm_detectou` and `sonar_detectou` over the detection table: entry `i` is 1 exactly
   * when that detector placed the category at key `i`, and 0 otherwise.
   */
  lemma VectorsOfTable(keys: seq<string>, table: map<string, Detection>, category: string, i: int)
    requires KeysInTable(keys, table) && 0 <= i < |keys|
    ensures var a := Agreements(keys, table, category);
      |LlmVector(a)| == |SonarVector(a)| == |keys|
      && (LlmVector(a)[i] == 1 <==> category in table[keys[i]].llm)
      && (LlmVector(a)[i] == 0 <==> category !in table[keys[i]].llm)
      && (SonarVector(a)[i] == 1 <==> category in table[keys[i]].sonar)
      && (SonarVector(a)[i] == 0 <==> category !in table[keys[i]].sonar)
  {
  }

  lemma VectorValuesAreBits(a: seq<Agreement>)
    ensures VectorValues(a) <= {0, 1}
  {
    var v := LlmVector(a) + SonarVector(a);
    forall x | x in v ensures x == 0 || x == 1 {
      var i :| 0 <= i < |v| && v[i] == x;
      if i >= |a| { assert v[i] == SonarVector(a)[i - |a|]; }
    }
  }

  /** A 1 occurs in the vectors exactly when some key is flagged by a detector. */
  lemma OneInVectors(a: seq<Agreement>)
    ensures 1 in VectorValues(a) <==> multiset(a)[Both] + multiset(a)[OnlyLlm] + multiset(a)[OnlySonar] > 0
  {
    var v := LlmVector(a) + SonarVector(a);
    if multiset(a)[Both] + multiset(a)[OnlyLlm] + multiset(a)[OnlySonar] > 0 {
      var i := FlaggedIndex(a);
      if a[i] == OnlySonar {
        assert v[|a| + i] == 1;
      } else {
        assert v[i] == 1;
      }
    }
    if 1 in VectorValues(a) {
      var i :| 0 <= i < |v| && v[i] == 1;
      if i < |a| { assert a[i] in multiset(a); } else { assert a[i - |a|] in multiset(a); }
    }
  }

  /** A 0 occurs in the vectors exactly when some key is not flagged by both. */
  lemma ZeroInVectors(a: seq<Agreement>)
    ensures 0 in VectorValues(a) <==> multiset(a)[Both] < |a|
  {
    var v := LlmVector(a) + SonarVector(a);
    if multiset(a)[Both] < |a| {
      var i := UnsharedIndex(a);
      if a[i] == OnlyLlm {
        assert v[|a| + i] == 0;
      } else {
        assert v[i] == 0;
      }
    }
    if 0 in VectorValues(a) {
      var i :| 0 <= i < |v| && v[i] == 0;
      if i < |a| { assert a[i] in multiset(a); } else { assert a[i - |a|] in multiset(a); }
      NotAllBoth(a);
    }
  }

  lemma FlaggedIndex(a: seq<Agreement>) returns (i: nat)
    requires multiset(a)[Both] + multiset(a)[OnlyLlm] + multiset(a)[OnlySonar] > 0
    ensures i < |a| && a[i] != Neither
  {
    var x :| x in multiset(a) && x != Neither;
    i :| 0 <= i < |a| && a[i] == x;
  }

  lemma UnsharedIndex(a: seq<Agreement>) returns (i: nat)
    requires multiset(a)[Both] < |a|
    ensures i < |a| && a[i] != Both
  {
    AgreementTotals(a);
    var x :| x in multiset(a) && x != Both;
    i :| 0 <= i < |a| && a[i] == x;
  }

  /** An agreement other than `Both` leaves fewer `Both` keys than keys. */
  lemma NotAllBoth(a: seq<Agreement>)
    ensures (exists i :: 0 <= i < |a| && a[i] != Both) ==> multiset(a)[Both] < |a|
  {
    AgreementTotals(a);
    if exists i :: 0 <= i < |a| && a[i] != Both {
      var i :| 0 <= i < |a| && a[i] != Both;
      assert a[i] in multiset(a);
    }
  }

  /** A set of 0/1 values has more than one element exactly when it holds both. */
  lemma TwoValues(values: set<int>)
    requires values <= {0, 1}
    ensures |values| > 1 <==> 0 in values && 1 in values
  {
    if 0 in values && 1 in values {
      assert values == {0, 1};
    } else if 0 in values {
      assert values == {0};
    } else if 1 in values {
      assert values == {1};
    } else {
      assert values == {};
    }
  }

  /** The keys at which at least one detector flags `category`. */
  function FlaggedKeys(keys: seq<string>, table: map<string, Detection>, category: string): set<string> {
    set k | k in keys && k in table && (category in table[k].llm || category in table[k].sonar)
  }

  lemma FlaggedKeysAppend(keys: seq<string>, k: string, table: map<string, Detection>, category: string)
    requires k in table
    ensures FlaggedKeys(keys + [k], table, category) ==
      FlaggedKeys(keys, table, category) + (if category in table[k].llm || category in table[k].sonar then {k} else {})
  {
  }

  lemma AgreementsAppend(keys: seq<string>, k: string, table: map<string, Detection>, category: string)
    requires KeysInTable(keys + [k], table)
    ensures KeysInTable(keys, table)
    ensures Agreements(keys + [k], table, category) == Agreements(keys, table, category) + [AgreementOf(table[k], category)]
  {
    assert forall x :: x in keys ==> x in keys + [k];
  }

  /**
   * Over keys without repeats, a category's `total` is the number of keys where at least
   * one detector flags it.
   */
  lemma {:induction false} TotalIsFlaggedKeys(keys: seq<string>, table: map<string, Detection>, category: string)
    requires KeysInTable(keys, table) && Distinct(keys)
    ensures var a := Agreements(keys, table, category);
      multiset(a)[Both] + multiset(a)[OnlyLlm] + multiset(a)[OnlySonar] == |FlaggedKeys(keys, table, category)|
  {
    if keys == [] {
      assert FlaggedKeys(keys, table, category) == {};
    } else {
      var init, last := keys[..|keys| - 1], keys[|keys| - 1];
      assert keys == init + [last];
      AgreementsAppend(init, last, table, category);
      DistinctInit(keys);
      TotalIsFlaggedKeys(init, table, category);
      var b := Agreements(init, table, category);
      var x := AgreementOf(table[last], category);
      CountsAppend(b, x);
      var fb := FlaggedKeys(init, table, category);
      FlaggedKeysAppend(init, last, table, category);
      if category in table[last].llm || category in table[last].sonar {
        assert x != Neither;
        assert |fb + {last}| == |fb| + 1;
      } else {
        assert x == Neither;
      }
    }
  }

  /** The counts and vectors of the first `i + 1` keys, from those of the first `i`. */
  lemma AgreementStep(a: seq<Agreement>, i: nat)
    requires i < |a|
    ensures multiset(a[..i + 1])[Both] == multiset(a[..i])[Both] + (if a[i] == Both then 1 else 0)
    ensures multiset(a[..i + 1])[OnlyLlm] == multiset(a[..i])[OnlyLlm] + (if a[i] == OnlyLlm then 1 else 0)
    ensures multiset(a[..i + 1])[OnlySonar] == multiset(a[..i])[OnlySonar] + (if a[i] == OnlySonar then 1 else 0)
    ensures LlmVector(a[..i + 1]) == LlmVector(a[..i]) + [if a[i] == Both || a[i] == OnlyLlm then 1 else 0]
    ensures SonarVector(a[..i + 1]) == SonarVector(a[..i]) + [if a[i] == Both || a[i] == OnlySonar then 1 else 0]
  {
    assert a[..i + 1] == a[..i] + [a[i]];
    CountsAppend(a[..i], a[i]);
  }

  lemma CountsAppend(b: seq<Agreement>, x: Agreement)
    ensures multiset(b + [x])[Both] == multiset(b)[Both] + (if x == Both then 1 else 0)
    ensures multiset(b + [x])[OnlyLlm] == multiset(b)[OnlyLlm] + (if x == OnlyLlm then 1 else 0)
    ensures multiset(b + [x])[OnlySonar] == multiset(b)[OnlySonar] + (if x == OnlySonar then 1 else 0)
  {
    assert multiset(b + [x]) == multiset(b) + multiset{x};
  }

  /**
   * The scoring loop of one category: visit the keys in order, classify each, count, and
   * append to the two detection vectors; then compute the rates and, when the guard
   * allows, kappa.
   */
  method ScoreCategory(category: string, keys: seq<string>, table: map<string, Detection>,
                       kappaScore: (seq<int>, seq<int>) -> real)
    returns (s: CategoryScore)
    requires KeysInTable(keys, table)
    ensures s == ScoreOf(category, Agreements(keys, table, category), kappaScore)
  {
    var tp, fp, fn, exclusiveLlm, exclusiveSonar, llmVector, sonarVector := CountAgreements(category, keys, table);
    var precision := Precision(tp, fp);
    var recall := Recall(tp, fn);
    var f1 := F1(precision, recall);
    var kappa := if KappaApplies(llmVector, sonarVector) then kappaScore(llmVector, sonarVector) else 0.0;
    s := CategoryScore(category, tp, fp, fn, precision, recall, f1, kappa,
                       exclusiveLlm, exclusiveSonar, tp + fp + fn);
  }

  /** The loop over the keys for one category: count each agreement and build the two vectors. */
  method CountAgreements(category: string, keys: seq<string>, table: map<string, Detection>)
    returns (tp: nat, fp: nat, fn: nat, exclusiveLlm: nat, exclusiveSonar: nat,
             llmVector: seq<int>, sonarVector: seq<int>)
    requires KeysInTable(keys, table)
    ensures var a := Agreements(keys, table, category);
      && tp == multiset(a)[Both]
      && fp == multiset(a)[OnlyLlm] && exclusiveLlm == fp
      && fn == multiset(a)[OnlySonar] && exclusiveSonar == fn
      && llmVector == LlmVector(a) && sonarVector == SonarVector(a)
  {
    ghost var a := Agreements(keys, table, category);
    tp, fp, fn := 0, 0, 0;
    exclusiveLlm, exclusiveSonar := 0, 0;
    llmVector, sonarVector := [], [];
    for i := 0 to |keys|
      invariant tp == multiset(a[..i])[Both]
      invariant fp == multiset(a[..i])[OnlyLlm] && exclusiveLlm == fp
      invariant fn == multiset(a[..i])[OnlySonar] && exclusiveSonar == fn
      invariant llmVector == LlmVector(a[..i]) && sonarVector == SonarVector(a[..i])
    {
      assert keys[i] in keys;
      var tools := table[keys[i]];
      var llmHas := category in tools.llm;
      var sonarHas := category in tools.sonar;
      assert a[i] == AgreementOf(tools, category);
      AgreementStep(a, i);
      if llmHas && sonarHas {
        tp := tp + 1;
      } else if llmHas && !sonarHas {
        fp := fp + 1;
        exclusiveLlm := exclusiveLlm + 1;
      } else if !llmHas && sonarHas {
        fn := fn + 1;
        exclusiveSonar := exclusiveSonar + 1;
      }
      llmVector := llmVector + [if llmHas then 1 else 0];
      sonarVector := sonarVector + [if sonarHas then 1 else 0];
    }
    assert a[..|keys|] == a;
  }
}
