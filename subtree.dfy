/** The subtree matchers of the relation-extraction tutorial: pick the
    subject and object of a sentence by dependency label alone. */
module SubtreeMatcher {
  import opened Seqs
  import opened Dependency

  /** The label tests the matchers use. */
  datatype Label = PassiveSubject | EndingIn(suffix: string)

  predicate Has(l: Label, dep: string)
  {
    match l
    case PassiveSubject => IsPassiveLabel(dep)
    case EndingIn(s) => EndsWith(dep, s)
  }

  /** Texts of the first `k` tokens whose label passes `l`, in order. */
  function TextsWith(toks: seq<Token>, l: Label, k: nat): (ts: seq<string>)
    requires k <= |toks|
    ensures |ts| <= k
  {
    if k == 0 then []
    else TextsWith(toks, l, k - 1) + (if Has(l, toks[k - 1].dep) then [toks[k - 1].text] else [])
  }

  /** (text, label) of the first `k` tokens whose label ends in "obj", in order. */
  function ObjectPairs(toks: seq<Token>, k: nat): (ps: seq<(string, string)>)
    requires k <= |toks|
    ensures |ps| <= k
  {
    if k == 0 then []
    else
      ObjectPairs(toks, k - 1)
      + (if EndsWith(toks[k - 1].dep, "obj") then [(toks[k - 1].text, toks[k - 1].dep)] else [])
  }

  /** The value a variable holds after a loop that overwrites it with the text
      of every token whose label passes `l`: the last such text, or "". */
  function LastWith(toks: seq<Token>, l: Label, k: nat): string
    requires k <= |toks|
  {
    if k == 0 then ""
    else if Has(l, toks[k - 1].dep) then toks[k - 1].text
    else LastWith(toks, l, k - 1)
  }

  function LastOr<T>(s: seq<T>, default: T): T
  {
    if s == [] then default else s[|s| - 1]
  }

  function Texts(ps: seq<(string, string)>): (ts: seq<string>)
    ensures |ts| == |ps|
    ensures forall i :: 0 <= i < |ps| ==> ts[i] == ps[i].0
  {
    if ps == [] then [] else Texts(ps[..|ps| - 1]) + [ps[|ps| - 1].0]
  }

  /** What subtree_matcher returns: (object, passive subject) for a passive
      sentence; for an active one the subject comes first and the object second. */
  function MatchSpec(toks: seq<Token>): (string, string)
  {
    var n := |toks|;
    if HasPassiveSubject(toks) then (LastWith(toks, EndingIn("obj"), n), LastWith(toks, PassiveSubject, n))
    else (LastWith(toks, EndingIn("subj"), n), LastWith(toks, EndingIn("obj"), n))
  }

  /** What subtree_matcher_listver returns: (objects with labels, subjects). */
  function ListsSpec(toks: seq<Token>): (seq<(string, string)>, seq<string>)
  {
    var n := |toks|;
    (ObjectPairs(toks, n), TextsWith(toks, if HasPassiveSubject(toks) then PassiveSubject else EndingIn("subj"), n))
  }

  /** subtree_matcher_old: the passive subject is found in the loop, but the
      object test after the loop reads the loop variable, i.e. only the last
      token; an empty document leaves that variable unbound (NameError). */
  method MatchOld(toks: seq<Token>) returns (r: Result<(string, string)>)
    ensures r.Failure? <==> toks == []
    ensures r.Failure? ==> r.error == NameError
    ensures r.Success? ==> r.value.1 == LastWith(toks, PassiveSubject, |toks|)
    ensures r.Success? ==> r.value.0 == (if EndsWith(toks[|toks| - 1].dep, "obj") then toks[|toks| - 1].text else "")
  {
    var x, y := "", "";
    for i := 0 to |toks|
      invariant y == LastWith(toks, PassiveSubject, i)
    {
      if IsPassiveLabel(toks[i].dep) {
        y := toks[i].text;
      }
    }
    if toks == [] {
      return Failure(NameError);
    }
    var tok := toks[|toks| - 1];
    if EndsWith(tok.dep, "obj") {
      x := tok.text;
    }
    return Success((x, y));
  }

  /** One pass of subtree_matcher's second loop: each variable keeps the text
      of the last token passing its test. */
  method ScanLast(toks: seq<Token>, a: Label, b: Label) returns (x: string, y: string)
    ensures x == LastWith(toks, a, |toks|)
    ensures y == LastWith(toks, b, |toks|)
  {
    x, y := "", "";
    for i := 0 to |toks|
      invariant x == LastWith(toks, a, i)
      invariant y == LastWith(toks, b, i)
    {
      var tok := toks[i];
      if Has(a, tok.dep) {
        x := tok.text;
      }
      if Has(b, tok.dep) {
        y := tok.text;
      }
    }
  }

  /** subtree_matcher. */
  method Match(toks: seq<Token>) returns (x: string, y: string)
    ensures (x, y) == MatchSpec(toks)
  {
    var passive := DetectPassive(toks);
    if passive {
      y, x := ScanLast(toks, PassiveSubject, EndingIn("obj"));
    } else {
      x, y := ScanLast(toks, EndingIn("subj"), EndingIn("obj"));
    }
  }

  /** subtree_matcher_listver. */
  method MatchLists(toks: seq<Token>) returns (objects: seq<(string, string)>, subjects: seq<string>)
    ensures (objects, subjects) == ListsSpec(toks)
  {
    var passive := DetectPassive(toks);
    var subj := if passive then PassiveSubject else EndingIn("subj");
    objects, subjects := [], [];
    for i := 0 to |toks|
      invariant objects == ObjectPairs(toks, i)
      invariant subjects == TextsWith(toks, subj, i)
    {
      var tok := toks[i];
      subjects := subjects + (if Has(subj, tok.dep) then [tok.text] else []);
      objects := objects + (if EndsWith(tok.dep, "obj") then [(tok.text, tok.dep)] else []);
    }
  }

  /** The overwritten variable ends up holding the last element of the list
      the list version collects. */
  lemma {:induction false} LastWithIsLastText(toks: seq<Token>, l: Label, k: nat)
    requires k <= |toks|
    ensures LastWith(toks, l, k) == LastOr(TextsWith(toks, l, k), "")
    decreases k
  {
    if k > 0 && !Has(l, toks[k - 1].dep) {
      LastWithIsLastText(toks, l, k - 1);
    }
  }

  /** The object list holds exactly the texts the "obj" test collects. */
  lemma {:induction false} ObjectTexts(toks: seq<Token>, k: nat)
    requires k <= |toks|
    ensures Texts(ObjectPairs(toks, k)) == TextsWith(toks, EndingIn("obj"), k)
    decreases k
  {
    if k > 0 {
      ObjectTexts(toks, k - 1);
      var ps := ObjectPairs(toks, k - 1);
      if EndsWith(toks[k - 1].dep, "obj") {
        var qs := ps + [(toks[k - 1].text, toks[k - 1].dep)];
        assert qs[..|qs| - 1] == ps;
      } else {
        assert ps + [] == ps;
      }
    }
  }

  /** The single-value matcher returns the last entries of the lists the list
      version returns (the object's text, for the object list). */
  lemma MatchIsLastOfLists(toks: seq<Token>)
    ensures var (objects, subjects) := ListsSpec(toks);
      var lastObject := LastOr(Texts(objects), "");
      MatchSpec(toks) == (if HasPassiveSubject(toks) then (lastObject, LastOr(subjects, ""))
                          else (LastOr(subjects, ""), lastObject))
  {
    var n := |toks|;
    ObjectTexts(toks, n);
    LastWithIsLastText(toks, EndingIn("obj"), n);
    LastWithIsLastText(toks, PassiveSubject, n);
    LastWithIsLastText(toks, EndingIn("subj"), n);
  }

  /** The list version's subjects are exactly the texts of the tokens passing the test. */
  lemma {:induction false} TextsWithMembers(toks: seq<Token>, l: Label, k: nat)
    requires k <= |toks|
    ensures forall t :: t in TextsWith(toks, l, k) <==> exists i :: 0 <= i < k && Has(l, toks[i].dep) && toks[i].text == t
    decreases k
  {
    if k > 0 {
      TextsWithMembers(toks, l, k - 1);
    }
  }

  /** The list version's objects are exactly the (text, label) pairs of the
      tokens whose label ends in "obj". */
  lemma {:induction false} ObjectPairsMembers(toks: seq<Token>, k: nat)
    requires k <= |toks|
    ensures forall p :: p in ObjectPairs(toks, k) <==>
      exists i :: 0 <= i < k && EndsWith(toks[i].dep, "obj") && p == (toks[i].text, toks[i].dep)
    decreases k
  {
    if k > 0 {
      ObjectPairsMembers(toks, k - 1);
    }
  }

  /** Indices among the first `k` tokens whose label ends in "obj". */
  function ObjectIndices(toks: seq<Token>, k: nat): set<nat>
    requires k <= |toks|
  {
    set i: nat | i < k && EndsWith(toks[i].dep, "obj")
  }

  /** In either voice the object list has one entry per token whose label ends in "obj". */
  lemma {:induction false} ObjectCount(toks: seq<Token>, k: nat)
    requires k <= |toks|
    ensures |ObjectPairs(toks, k)| == |ObjectIndices(toks, k)|
    decreases k
  {
    if k > 0 {
      ObjectCount(toks, k - 1);
      var before := ObjectIndices(toks, k - 1);
      assert k - 1 !in before;
      if EndsWith(toks[k - 1].dep, "obj") {
        assert ObjectIndices(toks, k) == before + {k - 1};
      } else {
        assert ObjectIndices(toks, k) == before;
      }
    } else {
      assert ObjectIndices(toks, 0) == {};
    }
  }
}
