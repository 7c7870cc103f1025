/** Statistics over the named entities recognised in an article: a frequency
    table of entity strings, the set of predicted categories, the prompt that
    asks for one of them, and the distinct entities of the chosen category. */
module EntityStats {
  import opened Seqs

  /** A recognised entity: its text and its predicted category. */
  datatype Entity = Entity(text: string, category: string)

  /** The category of every entity, in document order. */
  function Labels(ents: seq<Entity>): (ls: seq<string>)
    ensures |ls| == |ents| && forall i :: 0 <= i < |ents| ==> ls[i] == ents[i].category
  {
    seq(|ents|, i requires 0 <= i < |ents| => ents[i].category)
  }

  /** The text of every entity, in document order. */
  function Texts(ents: seq<Entity>): (ts: seq<string>)
    ensures |ts| == |ents| && forall i :: 0 <= i < |ents| ==> ts[i] == ents[i].text
  {
    seq(|ents|, i requires 0 <= i < |ents| => ents[i].text)
  }

  /** `{ne: ne_list.count(ne) for ne in ne_list}`. */
  function FreqTable(neList: seq<string>): (m: map<string, nat>)
    ensures m.Keys == set x | x in neList
    ensures forall x :: x in m ==> m[x] == Count(neList, x) >= 1
  {
    map x | x in neList :: Count(neList, x)
  }

  /** The distinct strings of a list, in order of first occurrence: the order
      Python gives the dictionary's keys. */
  function Dedup(s: seq<string>): (d: seq<string>)
    ensures forall x :: x in d <==> x in s
    ensures forall i, j :: 0 <= i < j < |d| ==> d[i] != d[j]
  {
    if s == [] then []
    else
      var d := Dedup(s[..|s| - 1]);
      assert forall x :: x in s <==> x in s[..|s| - 1] || x == s[|s| - 1];
      if s[|s| - 1] in d then d else d + [s[|s| - 1]]
  }

  /** The position of the first occurrence of `x` in `s`. */
  function FirstAt(s: seq<string>, x: string): (k: nat)
    requires x in s
    ensures k < |s| && s[k] == x && x !in s[..k]
  {
    if s[0] == x then 0 else 1 + FirstAt(s[1..], x)
  }

  /** A first occurrence before the end of `t` is not moved by appending. */
  lemma {:induction false} FirstAtAppend(t: seq<string>, y: string, x: string)
    requires x in t
    ensures FirstAt(t + [y], x) == FirstAt(t, x)
    decreases |t|
  {
    if t[0] != x {
      assert (t + [y])[1..] == t[1..] + [y];
      FirstAtAppend(t[1..], y, x);
    }
  }

  /** Dedup keeps the strings in the order of their first occurrence. */
  lemma {:induction false} DedupInFirstOccurrenceOrder(s: seq<string>)
    ensures forall i, j :: 0 <= i < j < |Dedup(s)| ==> FirstAt(s, Dedup(s)[i]) < FirstAt(s, Dedup(s)[j])
    decreases |s|
  {
    if s != [] {
      var init, y := s[..|s| - 1], s[|s| - 1];
      var d := Dedup(init);
      DedupInFirstOccurrenceOrder(init);
      assert s == init + [y];
      forall x | x in d
        ensures FirstAt(s, x) == FirstAt(init, x) < |init|
      {
        FirstAtAppend(init, y, x);
      }
      if y !in d {
        assert FirstAt(s, y) == |init|;
      }
    }
  }

  /** The frequencies over the keys `d`. */
  function SumFreq(m: map<string, nat>, d: seq<string>): nat
    requires forall x :: x in d ==> x in m
  {
    if d == [] then 0 else SumFreq(m, d[..|d| - 1]) + m[d[|d| - 1]]
  }

  /** Sum over `d` of the occurrence counts in `s`. */
  function SumCounts(s: seq<string>, d: seq<string>): nat
  {
    if d == [] then 0 else SumCounts(s, d[..|d| - 1]) + Count(s, d[|d| - 1])
  }

  /** The frequencies add up to the number of entities. */
  lemma FreqTableSum(neList: seq<string>)
    ensures SumFreq(FreqTable(neList), Dedup(neList)) == |neList|
  {
    var m, d := FreqTable(neList), Dedup(neList);
    SumFreqIsSumCounts(neList, d);
    SumCountsCoversAll(neList, d);
  }

  lemma {:induction false} SumFreqIsSumCounts(neList: seq<string>, d: seq<string>)
    requires forall x :: x in d ==> x in neList
    ensures SumFreq(FreqTable(neList), d) == SumCounts(neList, d)
    decreases |d|
  {
    if d != [] {
      SumFreqIsSumCounts(neList, d[..|d| - 1]);
    }
  }

  /** Counting over a duplicate-free `d` that holds every element of `s` counts every element once. */
  lemma {:induction false} SumCountsCoversAll(s: seq<string>, d: seq<string>)
    requires forall i, j :: 0 <= i < j < |d| ==> d[i] != d[j]
    requires forall x :: x in s ==> x in d
    ensures SumCounts(s, d) == |s|
    decreases |s|
  {
    if s == [] {
      SumCountsOfEmpty(d);
    } else {
      var init, y := s[..|s| - 1], s[|s| - 1];
      assert s == init + [y];
      SumCountsSnoc(init, y, d);
      assert forall x :: x in init ==> x in s;
      SumCountsCoversAll(init, d);
      OneHit(d, y);
    }
  }

  lemma {:induction false} SumCountsOfEmpty(d: seq<string>)
    ensures SumCounts([], d) == 0
    decreases |d|
  {
    if d != [] {
      SumCountsOfEmpty(d[..|d| - 1]);
    }
  }

  /** How many positions of `d` hold `y`. */
  function Hits(d: seq<string>, y: string): nat
  {
    if d == [] then 0 else Hits(d[..|d| - 1], y) + (if d[|d| - 1] == y then 1 else 0)
  }

  lemma {:induction false} SumCountsSnoc(s: seq<string>, y: string, d: seq<string>)
    ensures SumCounts(s + [y], d) == SumCounts(s, d) + Hits(d, y)
    decreases |d|
  {
    if d != [] {
      SumCountsSnoc(s, y, d[..|d| - 1]);
      assert (s + [y])[..|s + [y]| - 1] == s;
    }
  }

  lemma {:induction false} OneHit(d: seq<string>, y: string)
    requires forall i, j :: 0 <= i < j < |d| ==> d[i] != d[j]
    requires y in d
    ensures Hits(d, y) == 1
    decreases |d|
  {
    var init := d[..|d| - 1];
    if d[|d| - 1] == y {
      NoHit(init, y);
    } else {
      assert y in init;
      OneHit(init, y);
    }
  }

  lemma {:induction false} NoHit(d: seq<string>, y: string)
    requires y !in d
    ensures Hits(d, y) == 0
    decreases |d|
  {
    if d != [] {
      NoHit(d[..|d| - 1], y);
    }
  }

  /** `set(labels)`: exactly the predicted categories. */
  function LabelSet(ents: seq<Entity>): (s: set<string>)
    ensures forall l :: l in s <==> exists i :: 0 <= i < |ents| && ents[i].category == l
  {
    set i | 0 <= i < |ents| :: ents[i].category
  }

  /** `set(str(ne) for ne in ents if ne.label_ == selected)`. */
  function EntitiesWithLabel(ents: seq<Entity>, selected: string): (s: set<string>)
    ensures forall t :: t in s <==> exists i :: 0 <= i < |ents| && ents[i].category == selected && ents[i].text == t
    ensures s <= FreqTable(Texts(ents)).Keys
  {
    set i | 0 <= i < |ents| && ents[i].category == selected :: ents[i].text
  }

  /** The inner prompt loop: read replies until one names a known category,
      which is selected after `used` replies. When the replies run out first
      the next `input()` raises EOFError. */
  method PromptLabel(known: set<string>, replies: seq<string>) returns (selected: Result<string>, used: nat)
    ensures used <= |replies|
    ensures selected.Success? ==> (1 <= used && selected.value == replies[used - 1] && selected.value in known
      && forall k :: 0 <= k < used - 1 ==> replies[k] !in known)
    ensures selected.Failure? <==> forall k :: 0 <= k < |replies| ==> replies[k] !in known
    ensures selected.Failure? ==> selected.error == EOFError && used == |replies|
  {
    used := 0;
    while used < |replies|
      invariant used <= |replies|
      invariant forall k :: 0 <= k < used ==> replies[k] !in known
    {
      var reply := replies[used];
      used := used + 1;
      if reply in known {
        return Success(reply), used;
      }
    }
    return Failure(EOFError), used;
  }
}
