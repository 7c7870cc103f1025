/** Rule-based relational triples (subject, relation, object) from a parsed
    sentence: the three versions of the subject/object extractor and the
    loops that assemble triples from their results. */
module Triples {
  import opened Seqs
  import opened Dependency

  datatype Role = Subject | Object

  /** The three successive versions of the extractor. */
  datatype Extractor = V1 | V2 | V3

  /** A sentence as the scripts use it: its tokens and the text of its root. */
  datatype Sentence = Sentence(tokens: seq<Token>, root: string)

  /** A relational triple, in the order it is appended to the list. */
  datatype Triple = Triple(first: string, relation: string, last: string)

  /** Which tokens feed a role. Active sentences: direct objects ("dobj") and
      labels ending in "subj". Passive sentences: objects of a preposition
      ("pobj") and passive-subject labels. */
  predicate Selects(role: Role, passive: bool, dep: string)
  {
    match role
    case Object => dep == (if passive then "pobj" else "dobj")
    case Subject => if passive then IsPassiveLabel(dep) else EndsWith(dep, "subj")
  }

  /** The candidate text of a selected token under the second and third
      versions: a proper noun joins a preceding compound, any other token
      gives way to a following appositional modifier. */
  function StandardPick(toks: seq<Token>, i: nat): (t: string)
    requires i < |toks|
    ensures t == toks[i].text
         || (i >= 1 && toks[i].pos == "PROPN" && t == toks[i - 1].text + " " + toks[i].text)
         || (i + 1 < |toks| && toks[i].pos != "PROPN" && t == toks[i + 1].text)
  {
    if toks[i].pos == "PROPN" then
      if i >= 1 && toks[i - 1].dep == "compound" then toks[i - 1].text + " " + toks[i].text
      else toks[i].text
    else if i + 1 == |toks| then toks[i].text
    else if toks[i + 1].dep == "appos" then toks[i + 1].text
    else toks[i].text
  }

  /** The third version's rule for a passive sentence's object: a common noun
      followed by a proper-noun compound takes that name (one or two proper
      nouns); tokens that are neither nouns nor proper nouns set nothing. */
  function PassiveObjectPick(toks: seq<Token>, i: nat): (t: Option<string>)
    requires i < |toks|
    ensures t.Some? <==> toks[i].pos == "PROPN" || toks[i].pos == "NOUN"
  {
    if toks[i].pos == "PROPN" then Some(StandardPick(toks, i))
    else if toks[i].pos == "NOUN" then
      if i + 1 < |toks| && toks[i + 1].pos == "PROPN" && toks[i + 1].dep == "compound" then
        if i + 2 < |toks| && toks[i + 2].pos == "PROPN" then Some(toks[i + 1].text + " " + toks[i + 2].text)
        else Some(toks[i + 1].text)
      else Some(StandardPick(toks, i))
    else None
  }

  /** What token `i` assigns to the candidate for `role`, if anything. */
  function Pick(x: Extractor, role: Role, passive: bool, toks: seq<Token>, i: nat): Option<string>
    requires i < |toks|
  {
    if !Selects(role, passive, toks[i].dep) then None
    else if x == V1 then Some(toks[i].text)
    else if x == V3 && role == Object && passive then PassiveObjectPick(toks, i)
    else Some(StandardPick(toks, i))
  }

  /** The candidate after the first `k` tokens: the last assignment wins, and
      the candidate starts as the empty string. */
  function Scan(x: Extractor, role: Role, passive: bool, toks: seq<Token>, k: nat): string
    requires k <= |toks|
  {
    if k == 0 then ""
    else match Pick(x, role, passive, toks, k - 1)
      case Some(t) => t
      case None => Scan(x, role, passive, toks, k - 1)
  }

  function ObjectOf(x: Extractor, toks: seq<Token>): string
  {
    Scan(x, Object, HasPassiveSubject(toks), toks, |toks|)
  }

  function SubjectOf(x: Extractor, toks: seq<Token>): string
  {
    Scan(x, Subject, HasPassiveSubject(toks), toks, |toks|)
  }

  /** The second version looks up the row before a selected proper noun
      without checking the index; at token 0 the pandas label lookup of -1
      raises KeyError. */
  predicate V2Faults(toks: seq<Token>)
  {
    var passive := HasPassiveSubject(toks);
    |toks| > 0 && toks[0].pos == "PROPN"
    && (Selects(Object, passive, toks[0].dep) || Selects(Subject, passive, toks[0].dep))
  }

  /** The candidate is the pick of the last token that assigns one. */
  lemma {:induction false} ScanIsLastPick(x: Extractor, role: Role, passive: bool, toks: seq<Token>, k: nat, j: nat)
    requires j < k <= |toks|
    requires Pick(x, role, passive, toks, j).Some?
    requires forall i :: j < i < k ==> Pick(x, role, passive, toks, i).None?
    ensures Scan(x, role, passive, toks, k) == Pick(x, role, passive, toks, j).value
    decreases k
  {
    if k - 1 > j {
      ScanIsLastPick(x, role, passive, toks, k - 1, j);
    }
  }

  /** With no token assigning a candidate, the candidate stays empty. */
  lemma {:induction false} ScanWithoutPick(x: Extractor, role: Role, passive: bool, toks: seq<Token>, k: nat)
    requires k <= |toks|
    requires forall i :: 0 <= i < k ==> Pick(x, role, passive, toks, i).None?
    ensures Scan(x, role, passive, toks, k) == ""
    decreases k
  {
    if k > 0 {
      ScanWithoutPick(x, role, passive, toks, k - 1);
    }
  }

  /** The third version changes only the passive-object rule: for every other
      role and voice it computes what the second version computes. */
  lemma {:induction false} V3ExtendsV2(role: Role, passive: bool, toks: seq<Token>, k: nat)
    requires k <= |toks|
    requires !(passive && role == Object)
    ensures Scan(V3, role, passive, toks, k) == Scan(V2, role, passive, toks, k)
    decreases k
  {
    if k > 0 {
      V3ExtendsV2(role, passive, toks, k - 1);
    }
  }

  /** The first version's candidate is empty or the text of a selected token. */
  lemma {:induction false} V1PicksTokenText(role: Role, passive: bool, toks: seq<Token>, k: nat)
    requires k <= |toks|
    ensures var t := Scan(V1, role, passive, toks, k);
      t == "" || exists i :: 0 <= i < k && Selects(role, passive, toks[i].dep) && t == toks[i].text
    decreases k
  {
    if k > 0 {
      V1PicksTokenText(role, passive, toks, k - 1);
    }
  }

  /** The loop body of every version for one role at token `i`: a selected
      token sets the candidate (the third version's passive object only when
      its name rule applies). */
  method UpdateCandidate(x: Extractor, role: Role, passive: bool, toks: seq<Token>, i: nat, cur: string)
      returns (next: string)
    requires i < |toks|
    requires cur == Scan(x, role, passive, toks, i)
    ensures next == Scan(x, role, passive, toks, i + 1)
  {
    next := cur;
    if Selects(role, passive, toks[i].dep) {
      if x == V1 {
        next := toks[i].text;
      } else if x == V3 && role == Object && passive {
        var pick := PassiveObjectPick(toks, i);
        if pick.Some? {
          next := pick.value;
        }
      } else {
        next := StandardPick(toks, i);
      }
    }
  }

  /** subject_object_extractor_v1: returns (object, subject). */
  method ExtractV1(toks: seq<Token>) returns (obj: string, subj: string)
    ensures obj == ObjectOf(V1, toks) && subj == SubjectOf(V1, toks)
  {
    var passive := DetectPassive(toks);
    obj, subj := "", "";
    for i := 0 to |toks|
      invariant obj == Scan(V1, Object, passive, toks, i)
      invariant subj == Scan(V1, Subject, passive, toks, i)
    {
      subj := UpdateCandidate(V1, Subject, passive, toks, i, subj);
      obj := UpdateCandidate(V1, Object, passive, toks, i, obj);
    }
  }

  /** subject_object_extractor_v2: returns (object, subject), or KeyError. */
  method ExtractV2(toks: seq<Token>) returns (r: Result<(string, string)>)
    ensures r.Failure? <==> V2Faults(toks)
    ensures r.Failure? ==> r.error == KeyError
    ensures r.Success? ==> r.value == (ObjectOf(V2, toks), SubjectOf(V2, toks))
  {
    var passive := DetectPassive(toks);
    var obj, subj := "", "";
    for i := 0 to |toks|
      invariant i > 0 ==> !V2Faults(toks)
      invariant obj == Scan(V2, Object, passive, toks, i)
      invariant subj == Scan(V2, Subject, passive, toks, i)
    {
      var sel := Selects(Object, passive, toks[i].dep) || Selects(Subject, passive, toks[i].dep);
      if i == 0 && sel && toks[i].pos == "PROPN" {
        return Failure(KeyError);
      }
      obj := UpdateCandidate(V2, Object, passive, toks, i, obj);
      subj := UpdateCandidate(V2, Subject, passive, toks, i, subj);
    }
    return Success((obj, subj));
  }

  /** subject_object_extractor_v3: returns (object, subject, passive flag). */
  method ExtractV3(toks: seq<Token>) returns (obj: string, subj: string, passive: bool)
    ensures passive <==> HasPassiveSubject(toks)
    ensures obj == ObjectOf(V3, toks) && subj == SubjectOf(V3, toks)
  {
    passive := DetectPassive(toks);
    obj, subj := "", "";
    for i := 0 to |toks|
      invariant obj == Scan(V3, Object, passive, toks, i)
      invariant subj == Scan(V3, Subject, passive, toks, i)
    {
      obj := UpdateCandidate(V3, Object, passive, toks, i, obj);
      subj := UpdateCandidate(V3, Subject, passive, toks, i, subj);
    }
  }

  /** The triple version `x` appends for sentence `s`: (subject, root,
      object), or (object, root, subject) when the order is flipped. The
      first version never flips, the second flips when `swapped`, the third
      when the sentence is passive. */
  function TripleOf(x: Extractor, s: Sentence, swapped: bool): Triple
  {
    var obj, subj := ObjectOf(x, s.tokens), SubjectOf(x, s.tokens);
    var flip := match x
      case V1 => false
      case V2 => swapped
      case V3 => HasPassiveSubject(s.tokens);
    if flip then Triple(obj, s.root, subj) else Triple(subj, s.root, obj)
  }

  /** The triples `f` builds from the first `k` sentences, in order. */
  function Built(f: Sentence -> Triple, sents: seq<Sentence>, k: nat): (ts: seq<Triple>)
    requires k <= |sents|
    ensures |ts| == k
  {
    if k == 0 then [] else Built(f, sents, k - 1) + [f(sents[k - 1])]
  }

  /** Entry `m` of the built list is the triple of sentence `m`. */
  lemma {:induction false} BuiltAt(f: Sentence -> Triple, sents: seq<Sentence>, k: nat)
    requires k <= |sents|
    ensures forall m :: 0 <= m < k ==> Built(f, sents, k)[m] == f(sents[m])
  {
    if k > 0 {
      BuiltAt(f, sents, k - 1);
    }
  }

  /** Whether one of the first `k` sentences makes the second version fault. */
  predicate FaultBefore(sents: seq<Sentence>, k: nat)
    requires k <= |sents|
  {
    k > 0 && (FaultBefore(sents, k - 1) || V2Faults(sents[k - 1].tokens))
  }

  lemma {:induction false} FaultBeforeIff(sents: seq<Sentence>, k: nat)
    requires k <= |sents|
    ensures FaultBefore(sents, k) <==> exists m :: 0 <= m < k && V2Faults(sents[m].tokens)
  {
    if k > 0 {
      FaultBeforeIff(sents, k - 1);
      if V2Faults(sents[k - 1].tokens) {
        assert exists m :: 0 <= m < k && V2Faults(sents[m].tokens) by {
          assert 0 <= k - 1 < k && V2Faults(sents[k - 1].tokens);
        }
      }
    }
  }

  /** The first version's triples: (subject, root, object) per sentence. */
  method TriplesV1(sents: seq<Sentence>) returns (ts: seq<Triple>)
    ensures |ts| == |sents|
    ensures forall k :: 0 <= k < |sents| ==>
      ts[k] == Triple(SubjectOf(V1, sents[k].tokens), sents[k].root, ObjectOf(V1, sents[k].tokens))
  {
    ghost var f := (s: Sentence) => TripleOf(V1, s, false);
    ts := [];
    for k := 0 to |sents|
      invariant ts == Built(f, sents, k)
    {
      var obj, subj := ExtractV1(sents[k].tokens);
      ts := ts + [Triple(subj, sents[k].root, obj)];
    }
    BuiltAt(f, sents, |sents|);
  }

  /** The second version's triples. The active example appends (subject, root,
      object); the passive example appends (object, root, subject) whatever the
      voice (`swapped`). The first sentence that faults ends the script. */
  method TriplesV2(sents: seq<Sentence>, swapped: bool) returns (r: Result<seq<Triple>>)
    ensures r.Failure? <==> exists k :: 0 <= k < |sents| && V2Faults(sents[k].tokens)
    ensures r.Success? ==> |r.value| == |sents|
    ensures r.Success? ==> forall k :: 0 <= k < |sents| ==> r.value[k] == TripleOf(V2, sents[k], swapped)
  {
    ghost var f := (s: Sentence) => TripleOf(V2, s, swapped);
    var ts := [];
    for k := 0 to |sents|
      invariant ts == Built(f, sents, k)
      invariant !FaultBefore(sents, k)
    {
      var res := ExtractV2(sents[k].tokens);
      if res.Failure? {
        return Failure(res.error);
      }
      var obj, subj := res.value.0, res.value.1;
      ts := ts + [if swapped then Triple(obj, sents[k].root, subj) else Triple(subj, sents[k].root, obj)];
    }
    FaultBeforeIff(sents, |sents|);
    BuiltAt(f, sents, |sents|);
    return Success(ts);
  }

  /** The third version's triples: the passive flag decides the order, so the
      subject of the action always comes first. */
  method TriplesV3(sents: seq<Sentence>) returns (ts: seq<Triple>)
    ensures |ts| == |sents|
    ensures forall k :: 0 <= k < |sents| ==>
      var obj, subj := ObjectOf(V3, sents[k].tokens), SubjectOf(V3, sents[k].tokens);
      ts[k] == (if HasPassiveSubject(sents[k].tokens) then Triple(obj, sents[k].root, subj)
                else Triple(subj, sents[k].root, obj))
  {
    ghost var f := (s: Sentence) => TripleOf(V3, s, false);
    ts := [];
    for k := 0 to |sents|
      invariant ts == Built(f, sents, k)
    {
      var obj, subj, passive := ExtractV3(sents[k].tokens);
      ts := ts + [if passive then Triple(obj, sents[k].root, subj) else Triple(subj, sents[k].root, obj)];
    }
    BuiltAt(f, sents, |sents|);
  }

  /** A dependency parse of "The sci-fi film Interstellar was directed by the
      talented director Christopher Nolan" that agrees with the outcomes the
      tutorial reports for it. */
  function PassiveExample(): seq<Token>
  {
    [Token("The", "DET", "det"), Token("sci", "NOUN", "compound"), Token("-", "PUNCT", "punct"),
     Token("fi", "NOUN", "compound"), Token("film", "NOUN", "nsubjpass"),
     Token("Interstellar", "PROPN", "appos"), Token("was", "AUX", "auxpass"),
     Token("directed", "VERB", "ROOT"), Token("by", "ADP", "agent"), Token("the", "DET", "det"),
     Token("talented", "ADJ", "amod"), Token("director", "NOUN", "pobj"),
     Token("Christopher", "PROPN", "compound"), Token("Nolan", "PROPN", "appos")]
  }

  /** On that parse the second version's object is the bare "director", while
      the third version's name rule recovers "Christopher Nolan"; both take the
      appositive "Interstellar" as the passive subject. */
  lemma PassiveExampleOutcome()
    ensures HasPassiveSubject(PassiveExample())
    ensures ObjectOf(V2, PassiveExample()) == "director"
    ensures ObjectOf(V3, PassiveExample()) == "Christopher Nolan"
    ensures SubjectOf(V2, PassiveExample()) == "Interstellar"
    ensures SubjectOf(V3, PassiveExample()) == "Interstellar"
  {
    PassiveExampleIsPassive();
    PassiveExampleObject(V2);
    PassiveExampleObject(V3);
    PassiveExampleSubject(V2);
    PassiveExampleSubject(V3);
  }

  /** The example's "nsubjpass" token makes it a passive sentence. */
  lemma PassiveExampleIsPassive()
    ensures HasPassiveSubject(PassiveExample())
  {
    var toks := PassiveExample();
    assert toks[4].dep == "nsubjpass";
    PassiveLabelExamples();
    assert IsPassiveLabel(toks[4].dep);
  }

  lemma PassiveExampleObject(x: Extractor)
    requires x != V1
    ensures Scan(x, Object, true, PassiveExample(), 14) == Pick(x, Object, true, PassiveExample(), 11).value
    ensures Pick(V2, Object, true, PassiveExample(), 11) == Some("director")
    ensures Pick(V3, Object, true, PassiveExample(), 11) == Some("Christopher Nolan")
  {
    var toks := PassiveExample();
    assert Pick(x, Object, true, toks, 13).None? by { assert toks[13].dep != "pobj"; }
    assert Pick(x, Object, true, toks, 12).None? by { assert toks[12].dep != "pobj"; }
    ScanIsLastPick(x, Object, true, toks, 14, 11);
    assert PassiveObjectPick(toks, 11) == Some(toks[12].text + " " + toks[13].text);
    assert toks[12].text + " " + toks[13].text == "Christopher Nolan";
  }

  /** A dependency parse of "Talented director Christopher Nolan directed the
      sci-fi film Interstellar" that agrees with the outcomes the tutorial
      reports for it. */
  function ActiveExample(): seq<Token>
  {
    [Token("Talented", "ADJ", "amod"), Token("director", "NOUN", "compound"),
     Token("Christopher", "PROPN", "compound"), Token("Nolan", "PROPN", "nsubj"),
     Token("directed", "VERB", "ROOT"), Token("the", "DET", "det"), Token("sci", "NOUN", "compound"),
     Token("-", "PUNCT", "punct"), Token("fi", "NOUN", "compound"), Token("film", "NOUN", "dobj"),
     Token("Interstellar", "PROPN", "appos"), Token(".", "PUNCT", "punct")]
  }

  /** On that parse the first version gives the bare subject "Nolan" and the
      object "film"; the compound rule and the appositive rule of the later
      versions turn them into "Christopher Nolan" and "Interstellar". */
  lemma ActiveExampleOutcome()
    ensures !HasPassiveSubject(ActiveExample())
    ensures SubjectOf(V1, ActiveExample()) == "Nolan"
    ensures ObjectOf(V1, ActiveExample()) == "film"
    ensures SubjectOf(V2, ActiveExample()) == "Christopher Nolan"
    ensures ObjectOf(V2, ActiveExample()) == "Interstellar"
    ensures SubjectOf(V3, ActiveExample()) == "Christopher Nolan"
    ensures ObjectOf(V3, ActiveExample()) == "Interstellar"
  {
    ActiveExampleIsActive();
    ActiveExampleSubject(V1);
    ActiveExampleSubject(V2);
    ActiveExampleSubject(V3);
    ActiveExampleObject(V1);
    ActiveExampleObject(V2);
    ActiveExampleObject(V3);
  }

  /** No label of the example is a passive-subject label. */
  lemma ActiveExampleIsActive()
    ensures !HasPassiveSubject(ActiveExample())
  {
    var toks := ActiveExample();
    forall i | 0 <= i < |toks|
      ensures !IsPassiveLabel(toks[i].dep)
    {
      NotPassiveLabel(toks[i].dep);
    }
  }

  /** The subject is picked at the "nsubj" token, the only label ending in
      "subj". */
  lemma ActiveExampleSubject(x: Extractor)
    ensures Scan(x, Subject, false, ActiveExample(), 12) == Pick(x, Subject, false, ActiveExample(), 3).value
    ensures Pick(V1, Subject, false, ActiveExample(), 3) == Some("Nolan")
    ensures x != V1 ==> Pick(x, Subject, false, ActiveExample(), 3) == Some("Christopher Nolan")
  {
    ActiveExampleNsubj(x);
    var toks := ActiveExample();
    calc {
      Scan(x, Subject, false, toks, 12);
    == { NotSubjectLabel(toks[11].dep); }
      Scan(x, Subject, false, toks, 11);
    == { NotSubjectLabel(toks[10].dep); }
      Scan(x, Subject, false, toks, 10);
    == { NotSubjectLabel(toks[9].dep); }
      Scan(x, Subject, false, toks, 9);
    == { NotSubjectLabel(toks[8].dep); }
      Scan(x, Subject, false, toks, 8);
    == { NotSubjectLabel(toks[7].dep); }
      Scan(x, Subject, false, toks, 7);
    == { NotSubjectLabel(toks[6].dep); }
      Scan(x, Subject, false, toks, 6);
    == { NotSubjectLabel(toks[5].dep); }
      Scan(x, Subject, false, toks, 5);
    == { NotSubjectLabel(toks[4].dep); }
      Scan(x, Subject, false, toks, 4);
    ==
      Pick(x, Subject, false, toks, 3).value;
    }
  }

  /** The "nsubj" token "Nolan" follows the compound "Christopher". */
  lemma ActiveExampleNsubj(x: Extractor)
    ensures Pick(x, Subject, false, ActiveExample(), 3).Some?
    ensures Pick(V1, Subject, false, ActiveExample(), 3) == Some("Nolan")
    ensures x != V1 ==> Pick(x, Subject, false, ActiveExample(), 3) == Some("Christopher Nolan")
  {
    var toks := ActiveExample();
    assert EndsWith(toks[3].dep, "subj");
    assert toks[2].text + " " + toks[3].text == "Christopher Nolan";
  }

  /** A label whose fourth character from the end is not 's' does not end
      in "subj". */
  lemma NotSubjectLabel(dep: string)
    requires |dep| < 4 || dep[|dep| - 4] != 's'
    ensures !EndsWith(dep, "subj")
  {
    if |dep| >= 4 {
      assert dep[|dep| - 4..][0] == dep[|dep| - 4];
    }
  }

  /** The object is picked at the "dobj" token. */
  lemma ActiveExampleObject(x: Extractor)
    ensures Scan(x, Object, false, ActiveExample(), 12) == Pick(x, Object, false, ActiveExample(), 9).value
    ensures Pick(V1, Object, false, ActiveExample(), 9) == Some("film")
    ensures x != V1 ==> Pick(x, Object, false, ActiveExample(), 9) == Some("Interstellar")
  {
    var toks := ActiveExample();
    assert Pick(x, Object, false, toks, 11).None? by { assert toks[11].dep != "dobj"; }
    assert Pick(x, Object, false, toks, 10).None? by { assert toks[10].dep != "dobj"; }
    ScanIsLastPick(x, Object, false, toks, 12, 9);
  }

  /** A label shorter than "nsubjpass" is not a passive-subject label. */
  lemma NotPassiveLabel(dep: string)
    requires |dep| < 9
    ensures !IsPassiveLabel(dep)
  {
  }

  lemma PassiveExampleSubject(x: Extractor)
    requires x != V1
    ensures Scan(x, Subject, true, PassiveExample(), 14) == "Interstellar"
  {
    var toks := PassiveExample();
    PassiveLabelExamples();
    calc {
      Scan(x, Subject, true, toks, 14);
    == { NotPassiveLabel(toks[13].dep); }
      Scan(x, Subject, true, toks, 13);
    == { NotPassiveLabel(toks[12].dep); }
      Scan(x, Subject, true, toks, 12);
    == { NotPassiveLabel(toks[11].dep); }
      Scan(x, Subject, true, toks, 11);
    == { NotPassiveLabel(toks[10].dep); }
      Scan(x, Subject, true, toks, 10);
    == { NotPassiveLabel(toks[9].dep); }
      Scan(x, Subject, true, toks, 9);
    == { NotPassiveLabel(toks[8].dep); }
      Scan(x, Subject, true, toks, 8);
    == { NotPassiveLabel(toks[7].dep); }
      Scan(x, Subject, true, toks, 7);
    == { NotPassiveLabel(toks[6].dep); }
      Scan(x, Subject, true, toks, 6);
    == { NotPassiveLabel(toks[5].dep); }
      Scan(x, Subject, true, toks, 5);
    ==
      StandardPick(toks, 4);
    }
  }
}
