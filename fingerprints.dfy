/**
 * Where a finding is and what it claims there. Questions 1 and 3 both place a finding at
 * location keys: `file:line` for each of its lines, or just `file` when it has a file but
 * no lines; a finding without a file has no location. Question 1 then compares the two
 * detectors through fingerprints, a location key followed by `:category`.
 */
module SmellFingerprints {
  import opened Text
  import opened Tally
  import opened SmellCategories
  import opened SmellFindings

  /** The location keys of a finding, in the order of its lines. */
  function LocationKeys(f: Finding): seq<string> {
    if HasFile(f) && f.lines != [] then
      var file := f.file.value;
      seq(|f.lines|, i requires 0 <= i < |f.lines| => file + ":" + IntToString(f.lines[i]))
    else if HasFile(f) then [f.file.value]
    else []
  }

  /** A location key followed by the category it is claimed for. */
  function Fingerprint(key: string, category: string): string {
    key + ":" + category
  }

  /** The fingerprints of one finding. */
  function FindingFingerprints(f: Finding): set<string> {
    set k | k in LocationKeys(f) :: Fingerprint(k, f.category)
  }

  /** The fingerprints of a list of findings, the union over its members. */
  function Fingerprints(fs: seq<Finding>): set<string> {
    UnionOf(fs, FindingFingerprints)
  }

  /** The fingerprints `file:line:category` of the given lines. */
  function LineFingerprints(file: string, lines: seq<int>, category: string): set<string> {
    ImageOf(lines, (l: int) => file + ":" + IntToString(l) + ":" + category)
  }

  lemma LineFingerprintsMembership(file: string, lines: seq<int>, category: string, x: string)
    ensures x in LineFingerprints(file, lines, category) <==>
      exists i :: 0 <= i < |lines| && x == file + ":" + IntToString(lines[i]) + ":" + category
  {
    ImageOfMembership(lines, (l: int) => file + ":" + IntToString(l) + ":" + category, x);
  }

  /** The explicit fingerprint strings, as the comparator formats them. */
  lemma FindingFingerprintForms(f: Finding)
    ensures !HasFile(f) ==> FindingFingerprints(f) == {}
    ensures HasFile(f) && f.lines == [] ==>
      FindingFingerprints(f) == {f.file.value + ":" + f.category}
    ensures HasFile(f) && f.lines != [] ==>
      FindingFingerprints(f) ==
        LineFingerprints(f.file.value, f.lines, f.category)
  {
    var keys := LocationKeys(f);
    if HasFile(f) && f.lines != [] {
      var file := f.file.value;
      var byLine := LineFingerprints(file, f.lines, f.category);
      forall x | x in FindingFingerprints(f) ensures x in byLine {
        var i :| 0 <= i < |keys| && x == Fingerprint(keys[i], f.category);
        LineFingerprintsMembership(file, f.lines, f.category, x);
      }
      forall x | x in byLine ensures x in FindingFingerprints(f) {
        LineFingerprintsMembership(file, f.lines, f.category, x);
        var i :| 0 <= i < |f.lines| && x == file + ":" + IntToString(f.lines[i]) + ":" + f.category;
        assert keys[i] in keys;
      }
    } else if HasFile(f) {
      assert keys[0] in keys;
    }
  }

  /** A fingerprint belongs to a list exactly when it belongs to one of its findings. */
  lemma FingerprintsMembership(fs: seq<Finding>, x: string)
    ensures x in Fingerprints(fs) <==> exists i :: 0 <= i < |fs| && x in FindingFingerprints(fs[i])
  {
    UnionOfMembership(fs, FindingFingerprints, x);
  }

  /**
   * A fingerprint determines its key and its category, as long as categories hold no
   * colon: the category is whatever follows the last colon.
   */
  lemma FingerprintIsUnambiguous(k1: string, c1: string, k2: string, c2: string)
    requires ':' !in c1 && ':' !in c2
    requires Fingerprint(k1, c1) == Fingerprint(k2, c2)
    ensures k1 == k2 && c1 == c2
  {
    var s := Fingerprint(k1, c1);
    if |c1| < |c2| {
      ColonFreeTail(k2, c2, |c2| - |c1| - 1);
      ColonFreeTail(k1, c1, 0 - 1);
      assert false;
    } else if |c2| < |c1| {
      ColonFreeTail(k1, c1, |c1| - |c2| - 1);
      ColonFreeTail(k2, c2, 0 - 1);
      assert false;
    }
    assert c1 == s[|s| - |c1|..] == c2;
    assert k1 == s[..|k1|] == k2;
  }

  /** In `k + ":" + c` with `c` free of colons, position `|k| + 1 + n` holds a colon only for `n == -1`. */
  lemma ColonFreeTail(k: string, c: string, n: int)
    requires ':' !in c && -1 <= n < |c|
    ensures ((k + ":" + c)[|k| + 1 + n] == ':') <==> n == -1
  {
    var s := k + ":" + c;
    if n >= 0 {
      assert s[|k| + 1 + n] == c[n];
    }
  }

  /** The finding and the location key a fingerprint of a list comes from. */
  lemma FingerprintSource(fs: seq<Finding>, x: string) returns (i: nat, k: string)
    requires x in Fingerprints(fs)
    ensures i < |fs| && k in LocationKeys(fs[i]) && x == Fingerprint(k, fs[i].category)
  {
    FingerprintsMembership(fs, x);
    i :| 0 <= i < |fs| && x in FindingFingerprints(fs[i]);
    k :| k in LocationKeys(fs[i]) && x == Fingerprint(k, fs[i].category);
  }

  /**
   * A fingerprint shared by the two detectors means each of them placed a finding of the
   * same category at the same location key. Every category is free of colons (see
   * `SmellCategories.CategoriesHaveNoColon`), so the key and the category can be read back.
   */
  lemma SharedFingerprint(llm: seq<Finding>, sonar: seq<Finding>, x: string)
    requires forall i :: 0 <= i < |llm| ==> ':' !in llm[i].category
    requires forall j :: 0 <= j < |sonar| ==> ':' !in sonar[j].category
    requires x in Fingerprints(llm) * Fingerprints(sonar)
    ensures exists i, j, k ::
      0 <= i < |llm| && 0 <= j < |sonar| && llm[i].category == sonar[j].category &&
      k in LocationKeys(llm[i]) && k in LocationKeys(sonar[j])
  {
    var i, k1 := FingerprintSource(llm, x);
    var j, k2 := FingerprintSource(sonar, x);
    var f, g := llm[i], sonar[j];
    FingerprintIsUnambiguous(k1, f.category, k2, g.category);
    assert k1 in LocationKeys(llm[i]) && k1 in LocationKeys(sonar[j]);
  }

  /**
   * The fingerprint loop of question 1, run over one detector's findings: every line of
   * a finding with a file and lines gives `file:line:category`, a finding with a file
   * only gives `file:category`, and a finding without a file gives nothing.
   */
  method CollectFingerprints(fs: seq<Finding>) returns (fps: set<string>)
    ensures fps == Fingerprints(fs)
  {
    fps := {};
    for i := 0 to |fs|
      invariant fps == Fingerprints(fs[..i])
    {
      var f := fs[i];
      assert fs[..i + 1][..i] == fs[..i];
      fps := AddFingerprints(fps, f);
    }
    assert fs[..|fs|] == fs;
  }

  /** The body of the fingerprint loop for one finding: add each of its fingerprints. */
  method AddFingerprints(fps0: set<string>, f: Finding) returns (fps: set<string>)
    ensures fps == fps0 + FindingFingerprints(f)
  {
    fps := fps0;
    FindingFingerprintForms(f);
    if HasFile(f) && f.lines != [] {
      fps := AddLineFingerprints(fps, f.file.value, f.lines, f.category);
    } else if HasFile(f) {
      fps := fps + {f.file.value + ":" + f.category};
    }
  }

  /** The inner loop over the lines of a finding. */
  method AddLineFingerprints(fps0: set<string>, file: string, lines: seq<int>, category: string)
    returns (fps: set<string>)
    ensures fps == fps0 + LineFingerprints(file, lines, category)
  {
    fps := fps0;
    for j := 0 to |lines|
      invariant fps == fps0 + LineFingerprints(file, lines[..j], category)
    {
      assert lines[..j + 1][..j] == lines[..j];
      fps := fps + {file + ":" + IntToString(lines[j]) + ":" + category};
    }
    assert lines[..|lines|] == lines;
  }
}
