/** "Are you smarter than Dan": each round the player has ten guesses at a
    secret number, starting from 1000 points and losing 100 per wrong guess;
    the high score is kept across rounds and play goes on while the reply is
    exactly "Y". The typed lines are one input stream; `parse` is `int()` on
    a line (None where it raises ValueError), and `secret(r)` is round r's
    `randint(1, 100)`. A prompt with no line left raises EOFError. */
module GuessingGame {
  import opened Seqs

  const NumberOfGuesses := 10
  const StartScore := 1000
  const Penalty := 100

  datatype Hint = TooLow | TooHigh

  /** A round that ran to its end: the score, the guesses read, whether the
      last one was right, and the hint given for each wrong guess. */
  datatype Round = Round(score: int, guesses: seq<int>, correct: bool, hints: seq<Hint>)

  /** The guess prompt, from prompt `i` on, at which a round stops: the
      first whose line is missing, is not an integer or is the secret, or
      NumberOfGuesses when every guess is a wrong integer. */
  function StopAt(secret: int, lines: seq<string>, parse: string -> Option<int>, i: nat): (p: nat)
    requires i <= NumberOfGuesses
    ensures i <= p <= NumberOfGuesses && (p == i || p <= |lines|)
    ensures p < NumberOfGuesses ==> p >= |lines| || parse(lines[p]).None? || parse(lines[p]).value == secret
    decreases NumberOfGuesses - i
  {
    if i == NumberOfGuesses || i >= |lines| || parse(lines[i]).None? || parse(lines[i]).value == secret then i
    else StopAt(secret, lines, parse, i + 1)
  }

  /** Every prompt before the stopping one reads a wrong integer guess. */
  lemma {:induction false} StopAtSkipsWrongGuesses(secret: int, lines: seq<string>, parse: string -> Option<int>, i: nat)
    requires i <= NumberOfGuesses
    ensures forall j :: i <= j < StopAt(secret, lines, parse, i) ==>
      parse(lines[j]).Some? && parse(lines[j]).value != secret
    decreases NumberOfGuesses - i
  {
    if !(i == NumberOfGuesses || i >= |lines| || parse(lines[i]).None? || parse(lines[i]).value == secret) {
      StopAtSkipsWrongGuesses(secret, lines, parse, i + 1);
    }
  }

  /** How a round that raises nothing ends: the lines it read and its score. */
  datatype RoundEnd = RoundEnd(used: nat, score: int)

  /** What one round on the typed lines `rest` comes to: EOFError when the
      lines run out at the stopping prompt, ValueError when its line is not
      an integer, and otherwise the round's end. A round that ends reads at
      least one line, and scores a multiple of 100 between 0 and 1000. */
  function RoundOutcome(secret: int, rest: seq<string>, parse: string -> Option<int>): (o: Result<RoundEnd>)
    ensures o.Success? ==> (1 <= o.value.used <= |rest|
      && 0 <= o.value.score <= StartScore && o.value.score % Penalty == 0)
  {
    var p := StopAt(secret, rest, parse, 0);
    if p < NumberOfGuesses && p >= |rest| then Failure(EOFError)
    else if p < NumberOfGuesses && parse(rest[p]).None? then Failure(ValueError)
    else Success(RoundEnd(if p < NumberOfGuesses then p + 1 else NumberOfGuesses, StartScore - Penalty * p))
  }

  /** A wrong guess below the secret is too low, any other wrong guess too high. */
  function HintFor(guess: int, secret: int): (h: Hint)
    requires guess != secret
    ensures h == TooLow <==> guess < secret
  {
    if guess < secret then TooLow else TooHigh
  }

  /** One round on the typed lines, of which `used` are read. It raises
      EOFError or ValueError at the stopping prompt when that line is
      missing or not an integer; otherwise the round ends at the correct
      guess or after ten wrong ones, with 100 points off per wrong guess. */
  method PlayRound(secret: int, lines: seq<string>, parse: string -> Option<int>) returns (r: Result<Round>, used: nat)
    ensures used <= |lines|
    ensures r.Failure? ==> RoundOutcome(secret, lines, parse) == Failure(r.error)
    ensures r.Success? ==> RoundOutcome(secret, lines, parse) == Success(RoundEnd(used, r.value.score))
    ensures r.Success? ==> ((r.value.correct <==> StopAt(secret, lines, parse, 0) < NumberOfGuesses)
      && |r.value.hints| == StopAt(secret, lines, parse, 0)
      && (r.value.score == 0 <==> !r.value.correct))
    ensures r.Success? ==> (|r.value.guesses| == used
      && forall j :: 0 <= j < used ==> parse(lines[j]) == Some(r.value.guesses[j]))
    ensures r.Success? ==> forall j :: 0 <= j < |r.value.hints| ==>
      r.value.guesses[j] != secret && r.value.hints[j] == HintFor(r.value.guesses[j], secret)
  {
    ghost var p := StopAt(secret, lines, parse, 0);
    var score := StartScore;
    var guesses: seq<int> := [];
    var hints: seq<Hint> := [];
    var i := 0;
    while i < NumberOfGuesses
      invariant 0 <= i <= p && i <= |lines| && StopAt(secret, lines, parse, i) == p
      invariant |guesses| == i && |hints| == i
      invariant forall j :: 0 <= j < i ==> parse(lines[j]) == Some(guesses[j])
      invariant forall j :: 0 <= j < i ==> guesses[j] != secret && hints[j] == HintFor(guesses[j], secret)
      invariant score == StartScore - Penalty * i
    {
      if i >= |lines| {
        assert p == i;
        return Failure(EOFError), i;
      }
      var userGuess := parse(lines[i]);
      if userGuess.None? {
        assert p == i;
        return Failure(ValueError), i + 1;
      }
      guesses := guesses + [userGuess.value];
      if userGuess.value == secret {
        assert p == i;
        return Success(Round(score, guesses, true, hints)), i + 1;
      } else if userGuess.value < secret {
        hints := hints + [TooLow];
        score := score - Penalty;
      } else {
        hints := hints + [TooHigh];
        score := score - Penalty;
      }
      i := i + 1;
    }
    return Success(Round(score, guesses, false, hints)), i;
  }

  /** The best score so far, starting from 0. */
  function HighScore(scores: seq<int>): int
  {
    if scores == [] then 0
    else
      var h := HighScore(scores[..|scores| - 1]);
      if scores[|scores| - 1] > h then scores[|scores| - 1] else h
  }

  /** The high score is 0 or one of the scores, and no score exceeds it. */
  lemma {:induction false} HighScoreIsMax(scores: seq<int>)
    ensures forall i :: 0 <= i < |scores| ==> scores[i] <= HighScore(scores)
    ensures HighScore(scores) == 0 || HighScore(scores) in scores
    decreases |scores|
  {
    if scores != [] {
      var init := scores[..|scores| - 1];
      HighScoreIsMax(init);
      assert forall i :: 0 <= i < |init| ==> init[i] == scores[i];
      assert forall x :: x in init ==> x in scores;
    }
  }

  /** A new round never lowers the high score. */
  lemma HighScoreNeverDecreases(scores: seq<int>, s: int)
    ensures HighScore(scores) <= HighScore(scores + [s])
  {
    assert (scores + [s])[..|scores|] == scores;
  }

  /** One pass of the game loop from line `pos` in round `r`: the round
      raises; or it ends and the play-again prompt ends the game (EOFError
      with no line left, no error on a reply other than "Y"); or the reply is
      "Y" and play goes on at line `next`. */
  datatype Pass = Raised(error: PyError) | Finished(score: int, stop: Option<PyError>) | Again(score: int, next: nat)

  /** The pass at line `pos`. A pass that goes on has read the round's lines
      and a "Y", and every score is a multiple of 100 between 0 and 1000. */
  function PassAt(secret: nat -> int, lines: seq<string>, parse: string -> Option<int>, pos: nat, r: nat): (s: Pass)
    requires pos <= |lines|
    ensures s.Again? ==> pos + 2 <= s.next <= |lines| && lines[s.next - 1] == "Y"
    ensures s.Finished? ==> s.stop != Some(ValueError)
    ensures !s.Raised? ==> 0 <= s.score <= StartScore && s.score % Penalty == 0
  {
    match RoundOutcome(secret(r), lines[pos..], parse)
    case Failure(e) => Raised(e)
    case Success(RoundEnd(used, score)) =>
      if pos + used >= |lines| then Finished(score, Some(EOFError))
      else if lines[pos + used] != "Y" then Finished(score, None)
      else Again(score, pos + used + 1)
  }

  /** The game from line `pos` in round `r`: the scores of the rounds that
      ended, and the exception that stopped the game, if any. */
  function GameAt(secret: nat -> int, lines: seq<string>, parse: string -> Option<int>, pos: nat, r: nat)
    : (g: (seq<int>, Option<PyError>))
    requires pos <= |lines|
    decreases |lines| - pos
  {
    match PassAt(secret, lines, parse, pos, r)
    case Raised(e) => ([], Some(e))
    case Finished(score, stop) => ([score], stop)
    case Again(score, next) =>
      var g := GameAt(secret, lines, parse, next, r + 1);
      ([score] + g.0, g.1)
  }

  /** Every score of a game is a multiple of 100 between 0 and 1000, and a
      game reads at most one round per two lines. */
  lemma {:induction false} GameScoresBounded(secret: nat -> int, lines: seq<string>, parse: string -> Option<int>, pos: nat, r: nat)
    requires pos <= |lines|
    ensures forall s :: s in GameAt(secret, lines, parse, pos, r).0 ==> 0 <= s <= StartScore && s % Penalty == 0
    ensures 2 * (|GameAt(secret, lines, parse, pos, r).0| - 1) <= |lines| - pos
    decreases |lines| - pos
  {
    match PassAt(secret, lines, parse, pos, r)
    case Raised(_) =>
    case Finished(_, _) =>
    case Again(score, next) =>
      GameScoresBounded(secret, lines, parse, next, r + 1);
  }

  /** A play of one pass: the round, then the play-again prompt. */
  method PlayOn(secret: nat -> int, lines: seq<string>, parse: string -> Option<int>, pos: nat, r: nat)
    returns (s: Pass)
    requires pos <= |lines|
    ensures s == PassAt(secret, lines, parse, pos, r)
  {
    var round, used := PlayRound(secret(r), lines[pos..], parse);
    if round.Failure? {
      return Raised(round.error);
    }
    if pos + used >= |lines| {
      return Finished(round.value.score, Some(EOFError));
    }
    var playAgainChoice := lines[pos + used];
    if playAgainChoice != "Y" {
      return Finished(round.value.score, None);
    }
    return Again(round.value.score, pos + used + 1);
  }

  /** GameAt by the pass at `pos`. */
  lemma GameAtPass(secret: nat -> int, lines: seq<string>, parse: string -> Option<int>, pos: nat, r: nat)
    requires pos <= |lines|
    ensures PassAt(secret, lines, parse, pos, r).Raised? ==>
      GameAt(secret, lines, parse, pos, r).0 == [] && GameAt(secret, lines, parse, pos, r).1 == Some(PassAt(secret, lines, parse, pos, r).error)
    ensures PassAt(secret, lines, parse, pos, r).Finished? ==>
      GameAt(secret, lines, parse, pos, r).0 == [PassAt(secret, lines, parse, pos, r).score]
      && GameAt(secret, lines, parse, pos, r).1 == PassAt(secret, lines, parse, pos, r).stop
    ensures PassAt(secret, lines, parse, pos, r).Again? ==>
      var next := PassAt(secret, lines, parse, pos, r).next;
      GameAt(secret, lines, parse, pos, r).0 == [PassAt(secret, lines, parse, pos, r).score] + GameAt(secret, lines, parse, next, r + 1).0
      && GameAt(secret, lines, parse, pos, r).1 == GameAt(secret, lines, parse, next, r + 1).1
  {
  }

  lemma AppendAssociates(a: seq<int>, b: seq<int>, c: seq<int>)
    ensures a + (b + c) == (a + b) + c
  {
  }

  /** The game loop: rounds on the one stream of typed lines until a reply
      other than "Y", or until `int()` or `input()` raises; the high score is
      the best finished round, between 0 and 1000. */
  method Game(secret: nat -> int, lines: seq<string>, parse: string -> Option<int>)
    returns (highScore: int, scores: seq<int>, err: Option<PyError>)
    ensures (scores, err) == GameAt(secret, lines, parse, 0, 0)
    ensures highScore == HighScore(scores) && 0 <= highScore <= StartScore
  {
    highScore := 0;
    scores := [];
    err := None;
    var pos: nat := 0;
    var r: nat := 0;
    var continuePlay := true;
    ghost var whole := GameAt(secret, lines, parse, 0, 0);
    assert whole.0 == [] + whole.0;
    while continuePlay
      invariant pos <= |lines| && highScore == HighScore(scores)
      invariant continuePlay ==>
        whole.0 == scores + GameAt(secret, lines, parse, pos, r).0
        && whole.1 == GameAt(secret, lines, parse, pos, r).1
      invariant !continuePlay ==> whole.0 == scores && whole.1 == err
      decreases |lines| - pos, continuePlay
    {
      var pass := PlayOn(secret, lines, parse, pos, r);
      GameAtPass(secret, lines, parse, pos, r);
      match pass
      case Raised(e) =>
        assert scores + [] == scores;
        err := Some(e);
        continuePlay := false;
      case Finished(score, stop) =>
        assert (scores + [score])[..|scores|] == scores;
        if score > highScore {
          highScore := score;
        }
        scores := scores + [score];
        err := stop;
        continuePlay := false;
      case Again(score, next) =>
        AppendAssociates(scores, [score], GameAt(secret, lines, parse, next, r + 1).0);
        assert (scores + [score])[..|scores|] == scores;
        if score > highScore {
          highScore := score;
        }
        scores := scores + [score];
        pos, r := next, r + 1;
    }
    GameScoresBounded(secret, lines, parse, 0, 0);
    HighScoreIsMax(scores);
  }

  /** A first guess that is not an integer ends the game with ValueError. */
  lemma NonIntegerGuessRaises(secret: nat -> int, parse: string -> Option<int>)
    requires parse("fifty") == None
    ensures GameAt(secret, ["fifty"], parse, 0, 0) == ([], Some(ValueError))
  {
    assert StopAt(secret(0), ["fifty"], parse, 0) == 0;
  }

  /** A right first guess followed by "N" is one round of 1000 points and a
      clean end; with no reply to the play-again prompt it is EOFError. */
  lemma RightFirstGuess(secret: nat -> int, parse: string -> Option<int>)
    requires secret(0) == 50 && parse("50") == Some(50)
    ensures GameAt(secret, ["50", "N"], parse, 0, 0) == ([1000], None)
    ensures GameAt(secret, ["50"], parse, 0, 0) == ([1000], Some(EOFError))
  {
    assert StopAt(secret(0), ["50", "N"], parse, 0) == 0;
    assert StopAt(secret(0), ["50"], parse, 0) == 0;
  }
}
