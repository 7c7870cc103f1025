/** The parts of a spaCy token that the relation-extraction scripts read,
    and the passive-voice test every extractor starts with. */
module Dependency {
  import opened Seqs

  /** A parsed token: its text, part-of-speech tag and dependency label. */
  datatype Token = Token(text: string, pos: string, dep: string)

  /** The scripts test `dep.find("subjpass") == True`. Python compares the
      index with 1, so a label counts only when its first "subjpass" starts
      at index 1 ("nsubjpass", "csubjpass"); a bare "subjpass" does not. */
  predicate IsPassiveLabel(dep: string): (b: bool)
    ensures b <==> OccursAt(dep, "subjpass", 1) && !OccursAt(dep, "subjpass", 0)
  {
    Find(dep, "subjpass") == 1
  }

  /** A sentence is treated as passive when some token has a passive-subject label. */
  predicate HasPassiveSubject(toks: seq<Token>)
  {
    exists i :: 0 <= i < |toks| && IsPassiveLabel(toks[i].dep)
  }

  /** The opening loop of every extractor: set a flag when a passive-subject label is seen. */
  method DetectPassive(toks: seq<Token>) returns (passive: bool)
    ensures passive <==> HasPassiveSubject(toks)
  {
    passive := false;
    for i := 0 to |toks|
      invariant passive <==> exists j :: 0 <= j < i && IsPassiveLabel(toks[j].dep)
    {
      if IsPassiveLabel(toks[i].dep) {
        passive := true;
      }
    }
  }

  /** The labels spaCy gives passive subjects pass the test; a bare "subjpass"
      (found at index 0) and an active "nsubj" do not. */
  lemma PassiveLabelExamples()
    ensures IsPassiveLabel("nsubjpass")
    ensures IsPassiveLabel("csubjpass")
    ensures !IsPassiveLabel("subjpass")
    ensures !IsPassiveLabel("nsubj")
  {
    assert OccursAt("nsubjpass", "subjpass", 1);
    assert "nsubjpass"[0..8] != "subjpass" by { assert "nsubjpass"[0] == 'n'; }
    assert OccursAt("csubjpass", "subjpass", 1);
    assert "csubjpass"[0..8] != "subjpass" by { assert "csubjpass"[0] == 'c'; }
    assert OccursAt("subjpass", "subjpass", 0);
    assert !OccursAt("nsubj", "subjpass", 1);
  }
}
