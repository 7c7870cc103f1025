/** Preparing named-entity training data: each sentence comes with entity
    records [text, start, end, category]; a loop fills in the character span of
    every entity, and a second loop assembles the (sentence, {'entities':
    [(start, end, category), ...]}) tuples the trainer takes. The training data
    is given either as literals or as CSV rows. */
module NerTraining {
  import opened Seqs

  /** One mutable entity list [text, start, end, category]. */
  class EntityRecord {
    var text: string
    var start: int
    var end: int
    var category: string

    /** A record as first written down: [text, 0, 0, category]. */
    constructor(text: string, category: string)
      ensures this.text == text && this.category == category && start == 0 && end == 0
    {
      this.text := text;
      this.category := category;
      start := 0;
      end := 0;
    }
  }

  /** [sentence, [entity records]]. */
  datatype Annotated = Annotated(sentence: string, entities: seq<EntityRecord>)

  /** (sentence, {'entities': [(start, end, category), ...]}). */
  datatype TrainingExample = TrainingExample(sentence: string, entities: seq<(int, int, string)>)

  /** The span the loop computes for an entity: `start` is the first
      occurrence of the text in the sentence (-1 when absent) and `end` adds
      the text's length. */
  function Span(sentence: string, text: string): (r: (int, int))
    ensures r.1 - r.0 == |text|
    ensures r.0 >= 0 ==> r.1 <= |sentence| && sentence[r.0..r.1] == text
    ensures r.0 >= 0 ==> forall i :: 0 <= i < r.0 ==> !OccursAt(sentence, text, i)
    ensures r.0 == -1 <==> forall i :: 0 <= i <= |sentence| ==> !OccursAt(sentence, text, i)
    ensures -1 <= r.0
  {
    var start := Find(sentence, text);
    (start, start + |text|)
  }

  /** Every record object appears once in the data (the literals and the CSV
      loop create a fresh list per entity). */
  ghost predicate Distinct(data: seq<Annotated>)
  {
    forall i, j, k, l ::
      (0 <= i < |data| && 0 <= j < |data[i].entities| && 0 <= k < |data| && 0 <= l < |data[k].entities|
       && (i != k || j != l)) ==> data[i].entities[j] != data[k].entities[l]
  }

  ghost function Records(data: seq<Annotated>): set<EntityRecord>
  {
    set i, j | 0 <= i < |data| && 0 <= j < |data[i].entities| :: data[i].entities[j]
  }

  /** The inner span loop, for the entities of one sentence. */
  method SetSpans(sentence: string, ents: seq<EntityRecord>)
    requires forall j, l :: 0 <= j < l < |ents| ==> ents[j] != ents[l]
    modifies set e | e in ents
    ensures forall j :: 0 <= j < |ents| ==>
      ents[j].text == old(ents[j].text) && ents[j].category == old(ents[j].category)
      && (ents[j].start, ents[j].end) == Span(sentence, ents[j].text)
  {
    for j := 0 to |ents|
      invariant forall m :: 0 <= m < j ==>
        ents[m].text == old(ents[m].text) && ents[m].category == old(ents[m].category)
        && (ents[m].start, ents[m].end) == Span(sentence, ents[m].text)
      invariant forall m :: j <= m < |ents| ==>
        ents[m].text == old(ents[m].text) && ents[m].category == old(ents[m].category)
    {
      var e := ents[j];
      var startChar := Find(sentence, e.text);
      var length := |e.text|;
      e.start := startChar;
      e.end := startChar + length;
    }
  }

  /** The span loop over all sentences: only the start and end slots change,
      each sentence's records get spans in that sentence, and the records of
      the sentences not yet visited are untouched. */
  method ComputeSpans(data: seq<Annotated>)
    requires Distinct(data)
    modifies Records(data)
    ensures forall i, j :: 0 <= i < |data| && 0 <= j < |data[i].entities| ==>
      var e := data[i].entities[j];
      e.text == old(e.text) && e.category == old(e.category) && (e.start, e.end) == Span(data[i].sentence, e.text)
  {
    for i := 0 to |data|
      invariant forall k, j :: 0 <= k < i && 0 <= j < |data[k].entities| ==>
        var e := data[k].entities[j];
        e.text == old(e.text) && e.category == old(e.category) && (e.start, e.end) == Span(data[k].sentence, e.text)
      invariant forall k, j :: i <= k < |data| && 0 <= j < |data[k].entities| ==>
        var e := data[k].entities[j];
        e.text == old(e.text) && e.category == old(e.category) && e.start == old(e.start) && e.end == old(e.end)
    {
      SetSpans(data[i].sentence, data[i].entities);
    }
  }

  /** The assembly loop: one example per sentence, in order, with the
      records' (start, end, category) in their order. */
  method BuildTrainingData(data: seq<Annotated>) returns (td: seq<TrainingExample>)
    ensures |td| == |data|
    ensures forall i :: 0 <= i < |data| ==> td[i].sentence == data[i].sentence
    ensures forall i :: 0 <= i < |data| ==> |td[i].entities| == |data[i].entities|
    ensures forall i, j :: 0 <= i < |data| && 0 <= j < |data[i].entities| ==>
      td[i].entities[j] == (data[i].entities[j].start, data[i].entities[j].end, data[i].entities[j].category)
  {
    td := [];
    for i := 0 to |data|
      invariant |td| == i
      invariant forall k :: 0 <= k < i ==> td[k].sentence == data[k].sentence
      invariant forall k :: 0 <= k < i ==> |td[k].entities| == |data[k].entities|
      invariant forall k, j :: 0 <= k < i && 0 <= j < |data[k].entities| ==>
        td[k].entities[j] == (data[k].entities[j].start, data[k].entities[j].end, data[k].entities[j].category)
    {
      var tuples: seq<(int, int, string)> := [];
      var ents := data[i].entities;
      for j := 0 to |ents|
        invariant |tuples| == j
        invariant forall m :: 0 <= m < j ==> tuples[m] == (ents[m].start, ents[m].end, ents[m].category)
      {
        tuples := tuples + [(ents[j].start, ents[j].end, ents[j].category)];
      }
      td := td + [TrainingExample(data[i].sentence, tuples)];
    }
  }

  /** Both loops in sequence: every annotation tuple is the span of the
      entity's text in its own sentence, followed by its category. */
  method PrepareTrainingData(data: seq<Annotated>) returns (td: seq<TrainingExample>)
    requires Distinct(data)
    modifies Records(data)
    ensures |td| == |data|
    ensures forall i :: 0 <= i < |data| ==>
      td[i].sentence == data[i].sentence && |td[i].entities| == |data[i].entities|
    ensures forall i, j :: 0 <= i < |data| && 0 <= j < |data[i].entities| ==>
      var e := data[i].entities[j];
      var span := Span(data[i].sentence, old(e.text));
      td[i].entities[j] == (span.0, span.1, old(e.category))
  {
    ComputeSpans(data);
    td := BuildTrainingData(data);
  }

  /** The two literal training sentences, with their entities as written. */
  method LiteralTrainingSentences() returns (data: seq<Annotated>)
    ensures |data| == 2
    ensures data[0].sentence == "PenCHORD is a fantastic team because Dan Chalk is in it."
    ensures data[1].sentence == "Mike Allen loves System Dynamics."
    ensures |data[0].entities| == 2 && |data[1].entities| == 2
    ensures data[0].entities[0].text == "PenCHORD" && data[0].entities[0].category == "ORG"
    ensures data[0].entities[1].text == "Dan Chalk" && data[0].entities[1].category == "PERSON"
    ensures data[1].entities[0].text == "Mike Allen" && data[1].entities[0].category == "PERSON"
    ensures data[1].entities[1].text == "System Dynamics" && data[1].entities[1].category == "WORK_OF_ART"
    ensures Distinct(data)
    ensures fresh(Records(data))
  {
    var a := new EntityRecord("PenCHORD", "ORG");
    var b := new EntityRecord("Dan Chalk", "PERSON");
    var c := new EntityRecord("Mike Allen", "PERSON");
    var d := new EntityRecord("System Dynamics", "WORK_OF_ART");
    data := [Annotated("PenCHORD is a fantastic team because Dan Chalk is in it.", [a, b]),
             Annotated("Mike Allen loves System Dynamics.", [c, d])];
    assert data[0].entities[0] == a && data[0].entities[1] == b;
    assert data[1].entities[0] == c && data[1].entities[1] == d;
    assert a in Records(data) && b in Records(data) && c in Records(data) && d in Records(data);
    assert Records(data) == {a, b, c, d};
  }

  // ---- CSV rows (the exercise solution) ----

  /** The row with its empty cells dropped. */
  function NonEmpty(row: seq<string>): (f: seq<string>)
    ensures |f| <= |row|
    ensures forall c :: c in f <==> c in row && c != ""
  {
    if row == [] then []
    else NonEmpty(row[..|row| - 1]) + (if row[|row| - 1] == "" then [] else [row[|row| - 1]])
  }

  /** Reading a row: the sentence is the first non-empty cell, and for
      i = 1, 3, ... below the number L of non-empty cells the entity is
      (row[i], row[i + 1]) read from the unfiltered row. IndexError when no
      cell is non-empty, or when L is even and no cell is empty (row[L]). */
  function ParseRow(row: seq<string>): (r: Result<(string, seq<(string, string)>)>)
    ensures r.Failure? <==> |NonEmpty(row)| == 0 || (|NonEmpty(row)| % 2 == 0 && |NonEmpty(row)| == |row|)
    ensures r.Failure? ==> r.error == IndexError
    ensures r.Success? ==> r.value.0 == NonEmpty(row)[0] && |r.value.1| == |NonEmpty(row)| / 2
    ensures r.Success? ==> forall k :: 0 <= k < |r.value.1| ==> r.value.1[k] == (row[2 * k + 1], row[2 * k + 2])
  {
    var f := NonEmpty(row);
    var l := |f|;
    if l % 2 == 0 && l == |row| then Failure(IndexError)
    else if l == 0 then Failure(IndexError)
    else Success((f[0], seq(l / 2, k requires 0 <= k < l / 2 => (row[2 * k + 1], row[2 * k + 2]))))
  }

  /** When the empty cells all come after the non-empty ones, the cells read
      from the unfiltered row are the filtered pairs; with an even number of
      non-empty cells the last entity's category is the first empty cell. */
  lemma {:induction false} TrailingEmptiesGivePairs(row: seq<string>)
    requires forall i, j :: 0 <= i < j < |row| && row[i] == "" ==> row[j] == ""
    requires ParseRow(row).Success?
    ensures var f, pairs := NonEmpty(row), ParseRow(row).value.1;
      (forall k :: 0 <= k < |pairs| && 2 * k + 2 < |f| ==> pairs[k] == (f[2 * k + 1], f[2 * k + 2]))
      && (|f| % 2 == 0 ==> pairs[|pairs| - 1] == (f[|f| - 1], ""))
  {
    var f := NonEmpty(row);
    PrefixIsNonEmpty(row);
    assert f == row[..|f|];
    if |f| % 2 == 0 {
      assert |f| < |row|;
      if row[|f|] != "" {
        assert row[|f|] in f;
        var m :| 0 <= m < |f| && f[m] == row[|f|];
        assert row[m] != "";
        assert |f| > m;
        NonEmptyIsPrefixed(row, |f|);
      }
    }
  }

  /** Under trailing empties, a non-empty cell at position p has p + 1 non-empty cells up to it. */
  lemma NonEmptyIsPrefixed(row: seq<string>, p: nat)
    requires forall i, j :: 0 <= i < j < |row| && row[i] == "" ==> row[j] == ""
    requires p < |row| && row[p] != ""
    ensures |NonEmpty(row)| > p
  {
    var pre := row[..p + 1];
    forall i | 0 <= i < |pre| ensures pre[i] != "" {
      assert pre[i] == row[i];
    }
    NoEmptyCells(pre);
    NonEmptyAppendLength(row[..p + 1], row[p + 1..]);
    assert row[..p + 1] + row[p + 1..] == row;
  }

  lemma {:induction false} NonEmptyAppendLength(a: seq<string>, b: seq<string>)
    ensures |NonEmpty(a + b)| >= |NonEmpty(a)|
    decreases |b|
  {
    if b == [] {
      assert a + b == a;
    } else {
      assert (a + b)[..|a + b| - 1] == a + b[..|b| - 1];
      NonEmptyAppendLength(a, b[..|b| - 1]);
    }
  }

  /** Under trailing empties, the non-empty cells are a prefix of the row. */
  lemma {:induction false} PrefixIsNonEmpty(row: seq<string>)
    requires forall i, j :: 0 <= i < j < |row| && row[i] == "" ==> row[j] == ""
    ensures NonEmpty(row) == row[..|NonEmpty(row)|]
    decreases |row|
  {
    if row != [] {
      var init := row[..|row| - 1];
      assert forall i, j :: 0 <= i < j < |init| && init[i] == "" ==> init[j] == "" by {
        forall i, j | 0 <= i < j < |init| && init[i] == "" ensures init[j] == "" {
          assert row[i] == "";
        }
      }
      PrefixIsNonEmpty(init);
      if row[|row| - 1] != "" {
        forall i | 0 <= i < |init| ensures init[i] != "" {
          assert row[i] == init[i];
        }
        NoEmptyCells(init);
        assert NonEmpty(row) == init + [row[|row| - 1]];
      }
    }
  }

  lemma {:induction false} NoEmptyCells(row: seq<string>)
    requires forall i :: 0 <= i < |row| ==> row[i] != ""
    ensures NonEmpty(row) == row
    decreases |row|
  {
    if row != [] {
      NoEmptyCells(row[..|row| - 1]);
    }
  }

  /** A row whose empty cell sits between entities reads the wrong cells: the
      row ["s", "", "A", "ORG"] yields the entity ("", "A"), not ("A", "ORG"). */
  lemma EmbeddedEmptyCellShiftsPairs()
    ensures ParseRow(["s", "", "A", "ORG"]) == Success(("s", [("", "A")]))
  {
    var row := ["s", "", "A", "ORG"];
    assert NonEmpty(row[..1]) == ["s"] by {
      assert row[..1][..0] == [];
    }
    assert NonEmpty(row[..2]) == ["s"] by {
      assert row[..2][..1] == row[..1];
    }
    assert NonEmpty(row[..3]) == ["s", "A"] by {
      assert row[..3][..2] == row[..2];
    }
    assert row[..4][..3] == row[..3];
    assert row[..4] == row;
    var f := NonEmpty(row);
    assert f == ["s", "A", "ORG"];
    var pairs := seq(1, k requires 0 <= k < 1 => (row[2 * k + 1], row[2 * k + 2]));
    assert pairs == [("", "A")];
    assert ParseRow(row) == Success(("s", pairs));
    assert NonEmpty(row) == ["s", "A", "ORG"];
  }

  /** A record as the CSV loop writes it for one (text, category) pair. */
  ghost predicate WrittenFor(e: EntityRecord, pair: (string, string))
    reads e
  {
    e.text == pair.0 && e.category == pair.1 && e.start == 0 && e.end == 0
  }

  /** The entry for one read row: its sentence, and one record per pair, in order. */
  ghost predicate EntryFor(a: Annotated, parsed: (string, seq<(string, string)>))
    reads a.entities
  {
    a.sentence == parsed.0 && |a.entities| == |parsed.1|
    && forall j :: 0 <= j < |parsed.1| ==> WrittenFor(a.entities[j], parsed.1[j])
  }

  /** The CSV loop: one [sentence, records] entry per row, in row order, each
      record [text, 0, 0, category] fresh; the first row that cannot be read
      ends the script. */
  method ReadRows(rows: seq<seq<string>>) returns (r: Result<seq<Annotated>>)
    ensures r.Failure? <==> exists i :: 0 <= i < |rows| && ParseRow(rows[i]).Failure?
    ensures r.Success? ==> |r.value| == |rows| && Distinct(r.value) && fresh(Records(r.value))
    ensures r.Success? ==> forall i :: 0 <= i < |rows| ==>
      ParseRow(rows[i]).Success? && EntryFor(r.value[i], ParseRow(rows[i]).value)
  {
    var data: seq<Annotated> := [];
    for i := 0 to |rows|
      invariant |data| == i
      invariant Distinct(data) && fresh(Records(data))
      invariant forall k :: 0 <= k < i ==> ParseRow(rows[k]).Success? && EntryFor(data[k], ParseRow(rows[k]).value)
    {
      var parsed := ParseRow(rows[i]);
      if parsed.Failure? {
        return Failure(parsed.error);
      }
      var sentence, pairs := parsed.value.0, parsed.value.1;
      var ents: seq<EntityRecord> := [];
      for j := 0 to |pairs|
        invariant |ents| == j
        invariant forall m :: 0 <= m < j ==> fresh(ents[m]) && ents[m] !in Records(data)
        invariant forall m, n :: 0 <= m < n < j ==> ents[m] != ents[n]
        invariant forall m :: 0 <= m < j ==> WrittenFor(ents[m], pairs[m])
        invariant Distinct(data) && fresh(Records(data))
        invariant forall k :: 0 <= k < i ==> ParseRow(rows[k]).Success? && EntryFor(data[k], ParseRow(rows[k]).value)
      {
        var e := new EntityRecord(pairs[j].0, pairs[j].1);
        ents := ents + [e];
      }
      DistinctAppend(data, Annotated(sentence, ents));
      data := data + [Annotated(sentence, ents)];
    }
    return Success(data);
  }

  /** Adding a sentence whose records are new and pairwise distinct keeps the data distinct. */
  lemma DistinctAppend(data: seq<Annotated>, a: Annotated)
    requires Distinct(data)
    requires forall m, n :: 0 <= m < n < |a.entities| ==> a.entities[m] != a.entities[n]
    requires forall m :: 0 <= m < |a.entities| ==> a.entities[m] !in Records(data)
    ensures Distinct(data + [a])
    ensures Records(data + [a]) == Records(data) + set e | e in a.entities
  {
    var d := data + [a];
    forall i, j, k, l |
      0 <= i < |d| && 0 <= j < |d[i].entities| && 0 <= k < |d| && 0 <= l < |d[k].entities| && (i != k || j != l)
      ensures d[i].entities[j] != d[k].entities[l]
    {
      if i < |data| && k < |data| {
        assert d[i] == data[i] && d[k] == data[k];
      } else if i < |data| {
        assert d[i].entities[j] in Records(data);
      } else if k < |data| {
        assert d[k].entities[l] in Records(data);
      }
    }
    forall e | e in Records(d) ensures e in Records(data) + set e | e in a.entities {
      var i, j :| 0 <= i < |d| && 0 <= j < |d[i].entities| && e == d[i].entities[j];
      if i < |data| {
        assert e == data[i].entities[j];
      }
    }
    forall e | e in Records(data) + set e | e in a.entities ensures e in Records(d) {
      if e in Records(data) {
        var i, j :| 0 <= i < |data| && 0 <= j < |data[i].entities| && e == data[i].entities[j];
        assert d[i] == data[i];
      } else {
        var j :| 0 <= j < |a.entities| && e == a.entities[j];
        assert d[|data|] == a;
      }
    }
  }
}
