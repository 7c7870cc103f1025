/** Aspect-level sentiment reporting: reviews are read from CSV rows, each
    review's noun chunks are stored against its index, and every (chunk,
    sentence) pair where the chunk occurs in the sentence is reported with
    the sentence's sentiment band. The classifier's score is a parameter. */
module AspectSentiment {
  import opened Seqs

  datatype Band = ConfidentNegative | PossibleNegative | PossiblePositive | ConfidentPositive

  /** The if/elif chain on the sigmoid output. */
  function BandOf(score: real): (b: Band)
    ensures b == ConfidentNegative <==> score < 0.25
    ensures b == PossibleNegative <==> 0.25 <= score < 0.5
    ensures b == PossiblePositive <==> 0.5 <= score < 0.75
    ensures b == ConfidentPositive <==> 0.75 <= score
  {
    if score < 0.25 then ConfidentNegative
    else if score < 0.5 then PossibleNegative
    else if score < 0.75 then PossiblePositive
    else ConfidentPositive
  }

  function Rank(b: Band): nat
  {
    match b
    case ConfidentNegative => 0
    case PossibleNegative => 1
    case PossiblePositive => 2
    case ConfidentPositive => 3
  }

  /** A higher score never lands in a more negative band. */
  lemma BandMonotone(s: real, t: real)
    requires s <= t
    ensures Rank(BandOf(s)) <= Rank(BandOf(t))
  {
  }

  /** Only the first cell of each row is kept; an empty row raises IndexError. */
  method ReadReviews(rows: seq<seq<string>>) returns (r: Result<seq<string>>)
    ensures r.Failure? <==> exists i :: 0 <= i < |rows| && rows[i] == []
    ensures r.Failure? ==> r.error == IndexError
    ensures r.Success? ==> |r.value| == |rows| && forall i :: 0 <= i < |rows| ==> r.value[i] == rows[i][0]
  {
    var reviews: seq<string> := [];
    for i := 0 to |rows|
      invariant |reviews| == i
      invariant forall k :: 0 <= k < i ==> rows[k] != [] && reviews[k] == rows[k][0]
    {
      if rows[i] == [] {
        return Failure(IndexError);
      }
      reviews := reviews + [rows[i][0]];
    }
    return Success(reviews);
  }

  /** `dict_noun_chunks`: review number -> that review's noun chunks, with
      the number counted up by `review_index`. */
  method IndexNounChunks(chunks: seq<seq<string>>) returns (d: map<nat, seq<string>>)
    ensures forall i: nat :: i in d <==> i < |chunks|
    ensures forall i: nat :: i < |chunks| ==> d[i] == chunks[i]
  {
    d := map[];
    var reviewIndex: nat := 0;
    while reviewIndex < |chunks|
      invariant reviewIndex <= |chunks|
      invariant forall i: nat :: i in d <==> i < reviewIndex
      invariant forall i: nat :: i < reviewIndex ==> d[i] == chunks[i]
    {
      var found: seq<string> := [];
      for c := 0 to |chunks[reviewIndex]|
        invariant found == chunks[reviewIndex][..c]
      {
        found := found + [chunks[reviewIndex][c]];
      }
      d := d[reviewIndex := found];
      reviewIndex := reviewIndex + 1;
    }
  }

  /** One printed finding: review number, chunk, sentence, and the sentence's band. */
  datatype Report = Report(review: nat, chunk: string, sentence: string, band: Band)

  /** The inner loop: the chunks of review `r` that occur in `sentence`, in chunk order. */
  function SentenceReports(r: nat, sentence: string, chunks: seq<string>, score: string -> real): seq<Report>
  {
    if chunks == [] then []
    else
      SentenceReports(r, sentence, chunks[..|chunks| - 1], score)
      + (if Contains(sentence, chunks[|chunks| - 1])
         then [Report(r, chunks[|chunks| - 1], sentence, BandOf(score(sentence)))] else [])
  }

  /** The sentence loop, outside the chunk loop. */
  function ReviewReports(r: nat, sentences: seq<string>, chunks: seq<string>, score: string -> real): seq<Report>
  {
    if sentences == [] then []
    else
      ReviewReports(r, sentences[..|sentences| - 1], chunks, score)
      + SentenceReports(r, sentences[|sentences| - 1], chunks, score)
  }

  /** All reports of the first `k` reviews, review by review. */
  function AllReports(sentences: seq<seq<string>>, d: map<nat, seq<string>>, score: string -> real, k: nat): seq<Report>
    requires k <= |sentences|
    requires forall i: nat :: i < |sentences| ==> i in d
  {
    if k == 0 then []
    else AllReports(sentences, d, score, k - 1) + ReviewReports(k - 1, sentences[k - 1], d[k - 1], score)
  }

  /** The pairing loop over reviews (sentence split supplied per review). */
  method PairChunksWithSentences(sentences: seq<seq<string>>, d: map<nat, seq<string>>, score: string -> real)
    returns (reports: seq<Report>)
    requires forall i: nat :: i < |sentences| ==> i in d
    ensures reports == AllReports(sentences, d, score, |sentences|)
  {
    reports := [];
    var reviewIndex: nat := 0;
    while reviewIndex < |sentences|
      invariant reviewIndex <= |sentences|
      invariant reports == AllReports(sentences, d, score, reviewIndex)
    {
      var sents := sentences[reviewIndex];
      var chunks := d[reviewIndex];
      for s := 0 to |sents|
        invariant reports == AllReports(sentences, d, score, reviewIndex) + ReviewReports(reviewIndex, sents[..s], chunks, score)
      {
        var sentence := sents[s];
        var here: seq<Report> := [];
        for c := 0 to |chunks|
          invariant here == SentenceReports(reviewIndex, sentence, chunks[..c], score)
        {
          assert chunks[..c + 1][..c] == chunks[..c];
          if Contains(sentence, chunks[c]) {
            here := here + [Report(reviewIndex, chunks[c], sentence, BandOf(score(sentence)))];
          }
        }
        assert chunks[..|chunks|] == chunks;
        assert sents[..s + 1][..s] == sents[..s];
        reports := reports + here;
      }
      assert sents[..|sents|] == sents;
      reviewIndex := reviewIndex + 1;
    }
  }

  lemma {:induction false} SentenceReportsMembers(r: nat, sentence: string, chunks: seq<string>, score: string -> real, x: Report)
    ensures x in SentenceReports(r, sentence, chunks, score) <==>
      x.review == r && x.sentence == sentence && x.chunk in chunks && Contains(sentence, x.chunk)
      && x.band == BandOf(score(sentence))
    decreases |chunks|
  {
    if chunks != [] {
      var init := chunks[..|chunks| - 1];
      SentenceReportsMembers(r, sentence, init, score, x);
      assert forall c :: c in chunks <==> c in init || c == chunks[|chunks| - 1];
    }
  }

  lemma {:induction false} ReviewReportsMembers(r: nat, sentences: seq<string>, chunks: seq<string>, score: string -> real, x: Report)
    ensures x in ReviewReports(r, sentences, chunks, score) <==>
      x.review == r && x.sentence in sentences && x.chunk in chunks && Contains(x.sentence, x.chunk)
      && x.band == BandOf(score(x.sentence))
    decreases |sentences|
  {
    if sentences != [] {
      var init := sentences[..|sentences| - 1];
      ReviewReportsMembers(r, init, chunks, score, x);
      SentenceReportsMembers(r, sentences[|sentences| - 1], chunks, score, x);
      assert forall s :: s in sentences <==> s in init || s == sentences[|sentences| - 1];
    }
  }

  /** A (chunk, sentence) pair of a review is reported exactly when the chunk
      text occurs in the sentence, and then with that sentence's band; a chunk
      occurring in several sentences is reported for each of them. */
  lemma {:induction false} AllReportsMembers(sentences: seq<seq<string>>, d: map<nat, seq<string>>, score: string -> real, k: nat, x: Report)
    requires k <= |sentences|
    requires forall i: nat :: i < |sentences| ==> i in d
    ensures x in AllReports(sentences, d, score, k) <==>
      x.review < k && x.sentence in sentences[x.review] && x.chunk in d[x.review]
      && Contains(x.sentence, x.chunk) && x.band == BandOf(score(x.sentence))
    decreases k
  {
    if k > 0 {
      AllReportsMembers(sentences, d, score, k - 1, x);
      ReviewReportsMembers(k - 1, sentences[k - 1], d[k - 1], score, x);
    }
  }
}
