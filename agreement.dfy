/**
 * Question 3 of the study: how well the two detectors agree, category by category. Every
 * location key either detector flagged gets a record of the categories each placed there
 * (`deteccoes`); each category is then scored over those keys, taking the static analyser
 * as the reference: a key where both flag the category is a true positive, one where only
 * the language model does a false positive, one where only the analyser does a false negative.
 */
module CategoryAgreement {
  import opened Text
  import opened Tally
  import opened SmellFindings
  import opened SmellFingerprints
  import opened SmellMetrics

  datatype Side = ByLlm | BySonar

  /** `deteccoes[key]`: the categories each detector placed at one location key. */
  datatype Detection = Detection(llm: set<string>, sonar: set<string>)

  /** One detector placing one category at one location key. */
  datatype Event = Event(key: string, category: string, side: Side)

  /** The placements of one finding, one per location key. */
  function FindingEvents(f: Finding, side: Side): seq<Event> {
    var keys := LocationKeys(f);
    seq(|keys|, i requires 0 <= i < |keys| => Event(keys[i], f.category, side))
  }

  /** The placements of a list of findings, finding by finding. */
  function EventsOf(fs: seq<Finding>, side: Side): seq<Event> {
    if fs == [] then []
    else EventsOf(fs[..|fs| - 1], side) + FindingEvents(fs[|fs| - 1], side)
  }

  /** A placement of a finding is its category at one of its keys. */
  lemma FindingEventsSpec(f: Finding, side: Side, e: Event)
    ensures e in FindingEvents(f, side) <==>
      e.side == side && e.category == f.category && e.key in LocationKeys(f)
  {
    var es := FindingEvents(f, side);
    if e in es {
      var j :| 0 <= j < |es| && es[j] == e;
    }
    if e.side == side && e.category == f.category && e.key in LocationKeys(f) {
      var j :| 0 <= j < |LocationKeys(f)| && LocationKeys(f)[j] == e.key;
      assert es[j] == e;
    }
  }

  /** A placement of a list is a placement of one of its findings. */
  lemma EventsOfSpec(fs: seq<Finding>, side: Side, e: Event)
    ensures e in EventsOf(fs, side) <==> exists i :: 0 <= i < |fs| && e in FindingEvents(fs[i], side)
  {
    if e in EventsOf(fs, side) {
      var i := EventSource(fs, side, e);
    }
    if exists i :: 0 <= i < |fs| && e in FindingEvents(fs[i], side) {
      var i :| 0 <= i < |fs| && e in FindingEvents(fs[i], side);
      EventOfFinding(fs, side, i, e);
    }
  }

  lemma {:induction false} EventSource(fs: seq<Finding>, side: Side, e: Event) returns (i: nat)
    requires e in EventsOf(fs, side)
    ensures i < |fs| && e in FindingEvents(fs[i], side)
  {
    var init := fs[..|fs| - 1];
    if e in EventsOf(init, side) {
      i := EventSource(init, side, e);
      assert fs[i] == init[i];
    } else {
      i := |fs| - 1;
    }
  }

  lemma {:induction false} EventOfFinding(fs: seq<Finding>, side: Side, i: nat, e: Event)
    requires i < |fs| && e in FindingEvents(fs[i], side)
    ensures e in EventsOf(fs, side)
  {
    var init := fs[..|fs| - 1];
    if i < |init| {
      assert fs[i] == init[i];
      EventOfFinding(init, side, i, e);
    }
  }

  /** `deteccoes[key][side].add(category)` on a `defaultdict` whose new entries are empty on both sides. */
  function Record(table: map<string, Detection>, e: Event): map<string, Detection> {
    var d := if e.key in table then table[e.key] else Detection({}, {});
    table[e.key := if e.side == ByLlm then d.(llm := d.llm + {e.category})
                   else d.(sonar := d.sonar + {e.category})]
  }

  /** The table after recording every placement of `es` in turn, starting from an empty one. */
  function Replay(es: seq<Event>): map<string, Detection> {
    if es == [] then map[] else Record(Replay(es[..|es| - 1]), es[|es| - 1])
  }

  function KeysOf(es: seq<Event>): (keys: seq<string>)
    ensures |keys| == |es| && forall i :: 0 <= i < |es| ==> keys[i] == es[i].key
  {
    seq(|es|, i requires 0 <= i < |es| => es[i].key)
  }

  /** The key order of the table: keys in the order they were first recorded. */
  function KeyOrder(es: seq<Event>): seq<string> {
    FirstOccurrences(KeysOf(es))
  }

  /**
   * The table has an entry for exactly the keys placed, and each side of an entry holds
   * exactly the categories that detector placed at that key.
   */
  lemma {:induction false} ReplaySpec(es: seq<Event>)
    ensures forall k :: k in Replay(es) <==> k in KeysOf(es)
    ensures forall k, c :: k in Replay(es) ==> (c in Replay(es)[k].llm <==> Event(k, c, ByLlm) in es)
    ensures forall k, c :: k in Replay(es) ==> (c in Replay(es)[k].sonar <==> Event(k, c, BySonar) in es)
  {
    if es != [] {
      var init, e := es[..|es| - 1], es[|es| - 1];
      ReplaySpec(init);
      assert es == init + [e];
      assert forall x :: x in es <==> x in init || x == e;
      assert KeysOf(es) == KeysOf(init) + [e.key];
      forall k, c | Event(k, c, ByLlm) in init || Event(k, c, BySonar) in init
        ensures k in Replay(init)
      {
        if Event(k, c, ByLlm) in init {
          EventKeyIsPlaced(init, Event(k, c, ByLlm));
        } else {
          EventKeyIsPlaced(init, Event(k, c, BySonar));
        }
      }
    }
  }

  /** The key of a placement is among the placed keys. */
  lemma EventKeyIsPlaced(es: seq<Event>, e: Event)
    requires e in es
    ensures e.key in KeysOf(es)
  {
    var i :| 0 <= i < |es| && es[i] == e;
    assert KeysOf(es)[i] == e.key;
  }

  /** The table and its key order after one more placement. */
  lemma ReplayStep(done: seq<Event>, e: Event)
    ensures Replay(done + [e]) == Record(Replay(done), e)
    ensures KeyOrder(done + [e]) ==
      if e.key in Replay(done) then KeyOrder(done) else KeyOrder(done) + [e.key]
  {
    var es := done + [e];
    assert es[..|done|] == done;
    assert KeysOf(es)[..|done|] == KeysOf(done);
    ReplaySpec(done);
  }

  /** The placements of both detectors, the language model's first, as the source visits them. */
  function DetectionEvents(llm: seq<Finding>, sonar: seq<Finding>): seq<Event> {
    EventsOf(llm, ByLlm) + EventsOf(sonar, BySonar)
  }

  function DetectionTable(llm: seq<Finding>, sonar: seq<Finding>): map<string, Detection> {
    Replay(DetectionEvents(llm, sonar))
  }

  function DetectionKeys(llm: seq<Finding>, sonar: seq<Finding>): seq<string> {
    KeyOrder(DetectionEvents(llm, sonar))
  }

  /**
   * What `deteccoes` records: the language-model side of a key holds a category exactly
   * when some model finding of that category is located at the key, and likewise for
   * the analyser; the keys are those of the findings on either side.
   */
  lemma DetectionTableSpec(llm: seq<Finding>, sonar: seq<Finding>, k: string, c: string)
    ensures k in DetectionTable(llm, sonar) ==>
      (c in DetectionTable(llm, sonar)[k].llm <==>
        exists i :: 0 <= i < |llm| && llm[i].category == c && k in LocationKeys(llm[i]))
    ensures k in DetectionTable(llm, sonar) ==>
      (c in DetectionTable(llm, sonar)[k].sonar <==>
        exists j :: 0 <= j < |sonar| && sonar[j].category == c && k in LocationKeys(sonar[j]))
  {
    var es := DetectionEvents(llm, sonar);
    ReplaySpec(es);
    PlacedBy(llm, sonar, ByLlm, k, c);
    PlacedBy(llm, sonar, BySonar, k, c);
    assert Event(k, c, ByLlm) in es <==> Event(k, c, ByLlm) in EventsOf(llm, ByLlm);
    assert Event(k, c, BySonar) in es <==> Event(k, c, BySonar) in EventsOf(sonar, BySonar);
  }

  /** A placement of one side comes from a finding of that side with that category at that key. */
  lemma PlacedBy(llm: seq<Finding>, sonar: seq<Finding>, side: Side, k: string, c: string)
    ensures var fs := if side == ByLlm then llm else sonar;
      Event(k, c, side) in EventsOf(fs, side) <==>
        exists i :: 0 <= i < |fs| && fs[i].category == c && k in LocationKeys(fs[i])
    ensures var other := if side == ByLlm then sonar else llm;
      var otherSide := if side == ByLlm then BySonar else ByLlm;
      Event(k, c, side) !in EventsOf(other, otherSide)
  {
    var fs := if side == ByLlm then llm else sonar;
    var other := if side == ByLlm then sonar else llm;
    var otherSide := if side == ByLlm then BySonar else ByLlm;
    var e := Event(k, c, side);
    EventsOfSpec(fs, side, e);
    EventsOfSpec(other, otherSide, e);
    forall i | 0 <= i < |fs| ensures e in FindingEvents(fs[i], side) <==> fs[i].category == c && k in LocationKeys(fs[i]) {
      FindingEventsSpec(fs[i], side, e);
    }
    forall i | 0 <= i < |other| ensures e !in FindingEvents(other[i], otherSide) {
      FindingEventsSpec(other[i], otherSide, e);
    }
  }

  /** The key order lists each key of the table once. */
  lemma DetectionKeysSpec(llm: seq<Finding>, sonar: seq<Finding>)
    ensures Distinct(DetectionKeys(llm, sonar))
    ensures forall k :: k in DetectionKeys(llm, sonar) <==> k in DetectionTable(llm, sonar)
  {
    var es := DetectionEvents(llm, sonar);
    ReplaySpec(es);
  }

  /** `deteccoes[key][side].add(category)` as one step of the fill loop. */
  method Detect(keys: seq<string>, table: map<string, Detection>, e: Event)
    returns (keys': seq<string>, table': map<string, Detection>)
    ensures table' == Record(table, e)
    ensures keys' == if e.key in table then keys else keys + [e.key]
  {
    keys', table' := keys, table;
    if e.key !in table' {
      keys' := keys' + [e.key];
      table' := table'[e.key := Detection({}, {})];
    }
    var d := table'[e.key];
    if e.side == ByLlm {
      table' := table'[e.key := d.(llm := d.llm + {e.category})];
    } else {
      table' := table'[e.key := d.(sonar := d.sonar + {e.category})];
    }
  }

  /**
   * The placements of one finding: every line of a finding with a file and lines places
   * its category at `file:line`, a finding with a file only at `file`.
   */
  method RecordFinding(keys0: seq<string>, table0: map<string, Detection>, f: Finding,
                       side: Side, ghost before: seq<Event>)
    returns (keys: seq<string>, table: map<string, Detection>)
    requires table0 == Replay(before) && keys0 == KeyOrder(before)
    ensures table == Replay(before + FindingEvents(f, side))
    ensures keys == KeyOrder(before + FindingEvents(f, side))
  {
    keys, table := keys0, table0;
    ghost var es := FindingEvents(f, side);
    if HasFile(f) && f.lines != [] {
      keys, table := RecordLines(keys, table, f, side, before);
    } else if HasFile(f) {
      var e := Event(f.file.value, f.category, side);
      assert es == [e];
      ReplayStep(before, e);
      keys, table := Detect(keys, table, e);
    } else {
      assert before + es == before;
    }
  }

  /** The placements of a finding with a file and lines, at `file:line` for each line in turn. */
  method RecordLines(keys0: seq<string>, table0: map<string, Detection>, f: Finding,
                     side: Side, ghost before: seq<Event>)
    returns (keys: seq<string>, table: map<string, Detection>)
    requires HasFile(f) && f.lines != []
    requires table0 == Replay(before) && keys0 == KeyOrder(before)
    ensures table == Replay(before + FindingEvents(f, side))
    ensures keys == KeyOrder(before + FindingEvents(f, side))
  {
    keys, table := keys0, table0;
    ghost var es := FindingEvents(f, side);
    assert before + es[..0] == before;
    for j := 0 to |f.lines|
      invariant table == Replay(before + es[..j]) && keys == KeyOrder(before + es[..j])
    {
      var e := Event(f.file.value + ":" + IntToString(f.lines[j]), f.category, side);
      assert es[j] == e;
      SliceSucc(es, j);
      AppendAssoc(before, es[..j], [e]);
      ReplayStep(before + es[..j], e);
      keys, table := Detect(keys, table, e);
    }
    assert es[..|f.lines|] == es;
  }

  /** One detector's half of the fill loop, finding by finding. */
  method RecordFindings(keys0: seq<string>, table0: map<string, Detection>, fs: seq<Finding>,
                        side: Side, ghost before: seq<Event>)
    returns (keys: seq<string>, table: map<string, Detection>)
    requires table0 == Replay(before) && keys0 == KeyOrder(before)
    ensures table == Replay(before + EventsOf(fs, side))
    ensures keys == KeyOrder(before + EventsOf(fs, side))
  {
    keys, table := keys0, table0;
    assert fs[..0] == [];
    assert before + EventsOf(fs[..0], side) == before;
    for i := 0 to |fs|
      invariant table == Replay(before + EventsOf(fs[..i], side))
      invariant keys == KeyOrder(before + EventsOf(fs[..i], side))
    {
      assert fs[..i + 1][..i] == fs[..i];
      assert EventsOf(fs[..i + 1], side) == EventsOf(fs[..i], side) + FindingEvents(fs[i], side);
      AppendAssoc(before, EventsOf(fs[..i], side), FindingEvents(fs[i], side));
      keys, table := RecordFinding(keys, table, fs[i], side, before + EventsOf(fs[..i], side));
    }
    assert fs[..|fs|] == fs;
  }

  /** Kept as lemmas so that the loop proofs above see only these two facts. */
  lemma SliceSucc(s: seq<Event>, j: nat)
    requires j < |s|
    ensures s[..j + 1] == s[..j] + [s[j]]
  {
  }

  lemma AppendAssoc(a: seq<Event>, b: seq<Event>, c: seq<Event>)
    ensures a + (b + c) == (a + b) + c
  {
  }

  /** The fill loops of question 3: the language model's findings first, then the analyser's. */
  method CollectDetections(llm: seq<Finding>, sonar: seq<Finding>)
    returns (keys: seq<string>, table: map<string, Detection>)
    ensures table == DetectionTable(llm, sonar)
    ensures keys == DetectionKeys(llm, sonar)
  {
    assert KeysOf([]) == [];
    keys, table := RecordFindings([], map[], llm, ByLlm, []);
    assert [] + EventsOf(llm, ByLlm) == EventsOf(llm, ByLlm);
    keys, table := RecordFindings(keys, table, sonar, BySonar, EventsOf(llm, ByLlm));
  }
}
