/**
 * The counting game (NumbersGameView.swift): a question shows between 1 and
 * 10 objects in rows of five and offers four different numbers; a correct
 * answer earns one star from the shared ledger.
 */
module NumbersGame {
  import opened Wrappers
  import opened Ledger

  /** The objects a question can ask about: emoji and plural name. */
  const Objects: seq<(string, string)> := [
    ("\U{2B50}\U{FE0F}", "stars"),
    ("\U{1F388}", "balloons"),
    ("\U{1F34E}", "apples"),
    ("\U{1F338}", "flowers"),
    ("\U{1F98B}", "butterflies"),
    ("\U{1F353}", "strawberries"),
    ("\U{1F308}", "rainbows"),
    ("\U{1F381}", "presents"),
    ("\U{1F420}", "fish"),
    ("\U{1F36A}", "cookies")
  ]

  /** Number of answer buttons. */
  const OptionCount: int := 4

  datatype CountingQuestion = CountingQuestion(objectEmoji: string, objectName: string, correctAnswer: int, options: seq<int>)

  /** The numbers the random source draws from. */
  predicate InRange(n: int) {
    1 <= n <= 10
  }

  predicate Distinct(s: seq<int>) {
    forall i, j :: 0 <= i < j < |s| ==> s[i] != s[j]
  }

  function Values(s: seq<int>): set<int> {
    set x | x in s
  }

  /** A question the game can show: four different numbers in range, one of them the answer. */
  predicate WellFormed(q: CountingQuestion) {
    && InRange(q.correctAnswer)
    && |q.options| == OptionCount
    && Distinct(q.options)
    && (forall i :: 0 <= i < |q.options| ==> InRange(q.options[i]))
    && q.correctAnswer in q.options
  }

  // ---------------------------------------------------------------------
  // Building the options
  // ---------------------------------------------------------------------

  /**
   * The option list the drawing loop builds from `acc` when the random
   * source yields `draws` in turn: a drawn number is appended unless already
   * present, until there are four.
   */
  function Collect(acc: seq<int>, draws: seq<int>): seq<int>
    decreases |draws|
  {
    if |acc| >= OptionCount || draws == [] then acc
    else if draws[0] in acc then Collect(acc, draws[1..])
    else Collect(acc + [draws[0]], draws[1..])
  }

  /** The loop keeps what it has, adds only drawn numbers, never repeats one, and stops at four. */
  lemma {:induction false} CollectKeepsDistinct(acc: seq<int>, draws: seq<int>)
    requires Distinct(acc)
    ensures var r := Collect(acc, draws);
            && acc <= r
            && Distinct(r)
            && Values(r) <= Values(acc) + Values(draws)
            && (|acc| <= OptionCount ==> |r| <= OptionCount)
    decreases |draws|
  {
    if |acc| >= OptionCount || draws == [] {
    } else if draws[0] in acc {
      CollectKeepsDistinct(acc, draws[1..]);
    } else {
      var next := acc + [draws[0]];
      CollectKeepsDistinct(next, draws[1..]);
    }
  }

  /** A sequence without repeats has as many values as elements. */
  lemma {:induction false} DistinctValues(s: seq<int>)
    requires Distinct(s)
    ensures |Values(s)| == |s|
    decreases |s|
  {
    if s != [] {
      var init := s[..|s| - 1];
      assert Values(s) == Values(init) + {s[|s| - 1]};
      assert s[|s| - 1] !in Values(init);
      DistinctValues(init);
    }
  }

  /** Appending a number adds it to the values. */
  lemma ValuesAppend(s: seq<int>, x: int)
    ensures Values(s + [x]) == Values(s) + {x}
  {
    assert forall y :: y in s + [x] <==> y in s || y == x;
  }

  /** When the draws supply enough different numbers, the loop reaches four options. */
  lemma {:induction false} CollectFillsUp(acc: seq<int>, draws: seq<int>)
    requires Distinct(acc) && |acc| <= OptionCount
    requires |Values(acc) + Values(draws)| >= OptionCount
    ensures |Collect(acc, draws)| == OptionCount
    decreases |draws|
  {
    if |acc| == OptionCount {
    } else if draws == [] {
      DistinctValues(acc);
      assert false;
    } else {
      var rest := draws[1..];
      assert draws == [draws[0]] + rest;
      assert Values(draws) == {draws[0]} + Values(rest);
      if draws[0] in acc {
        assert Values(acc) + Values(rest) == Values(acc) + Values(draws);
        CollectFillsUp(acc, rest);
      } else {
        var next := acc + [draws[0]];
        ValuesAppend(acc, draws[0]);
        assert Distinct(next);
        assert Values(next) + Values(rest) == Values(acc) + Values(draws);
        CollectFillsUp(next, rest);
      }
    }
  }

  // ---------------------------------------------------------------------
  // Shuffling
  // ---------------------------------------------------------------------

  /** Swap partners for a shuffle of n elements: position i swaps with a position at or below it. */
  predicate ValidPicks(picks: seq<int>, n: int) {
    |picks| == n && forall i :: 0 <= i < n ==> 0 <= picks[i] <= i
  }

  /**
   * `s` shuffled by a Fisher-Yates pass, given the swap partner the random
   * source picked for each position.
   */
  function Shuffle(s: seq<int>, picks: seq<int>): (r: seq<int>)
    requires ValidPicks(picks, |s|)
    ensures |r| == |s|
    ensures multiset(r) == multiset(s)
    decreases |s|
  {
    if |s| <= 1 then s
    else
      var last := |s| - 1;
      var j := picks[last];
      var t := s[last := s[j]][j := s[last]];
      assert multiset(t) == multiset(s);
      assert t == t[..last] + [t[last]];
      Shuffle(t[..last], picks[..last]) + [t[last]]
  }

  /** An element occurs at most once in a sequence without repeats. */
  lemma {:induction false} DistinctOccursOnce(s: seq<int>, x: int)
    requires Distinct(s)
    ensures multiset(s)[x] <= 1
    decreases |s|
  {
    if s != [] {
      assert s == [s[0]] + s[1..];
      assert s[0] !in s[1..];
      DistinctOccursOnce(s[1..], x);
    }
  }

  /** Reordering a sequence without repeats gives one without repeats. */
  lemma PermutationKeepsDistinct(a: seq<int>, b: seq<int>)
    requires Distinct(a) && multiset(a) == multiset(b)
    ensures Distinct(b)
  {
    forall i, j | 0 <= i < j < |b| ensures b[i] != b[j] {
      if b[i] == b[j] {
        assert b == b[..j] + b[j..];
        assert b[i] in b[..j] && b[j] in b[j..];
        assert multiset(b)[b[i]] == multiset(b[..j])[b[i]] + multiset(b[j..])[b[i]];
        DistinctOccursOnce(a, b[i]);
        assert false;
      }
    }
  }

  // ---------------------------------------------------------------------
  // A random question
  // ---------------------------------------------------------------------

  /**
   * CountingQuestion.random with its random draws given as inputs: `pick`
   * chooses the object, `answer` the count, `draws` are the numbers drawn
   * for the other options in turn and `picks` drives the final shuffle.
   */
  method RandomQuestion(pick: int, answer: int, draws: seq<int>, picks: seq<int>) returns (q: CountingQuestion)
    requires 0 <= pick < |Objects|
    requires InRange(answer)
    requires forall i :: 0 <= i < |draws| ==> InRange(draws[i])
    requires |Values(draws) + {answer}| >= OptionCount
    requires ValidPicks(picks, OptionCount)
    ensures WellFormed(q)
    ensures q.correctAnswer == answer
    ensures q.objectEmoji == Objects[pick].0 && q.objectName == Objects[pick].1
    ensures multiset(q.options) == multiset(Collect([answer], draws))
  {
    var (emoji, name) := Objects[pick];
    var options := [answer];
    var k := 0;
    while |options| < OptionCount && k < |draws|
      invariant 0 <= k <= |draws|
      invariant Collect(options, draws[k..]) == Collect([answer], draws)
    {
      var randomNumber := draws[k];
      assert draws[k..][0] == randomNumber && draws[k..][1..] == draws[k + 1..];
      if randomNumber !in options {
        options := options + [randomNumber];
      }
      k := k + 1;
    }
    assert options == Collect([answer], draws);
    CollectKeepsDistinct([answer], draws);
    assert Values([answer]) + Values(draws) == Values(draws) + {answer};
    CollectFillsUp([answer], draws);
    var shuffled := Shuffle(options, picks);
    PermutationKeepsDistinct(options, shuffled);
    assert answer in multiset(options);
    forall i | 0 <= i < |shuffled| ensures InRange(shuffled[i]) {
      assert shuffled[i] in multiset(shuffled);
      assert shuffled[i] in Values(options);
    }
    q := CountingQuestion(emoji, name, answer, shuffled);
  }

  // ---------------------------------------------------------------------
  // The grid of objects
  // ---------------------------------------------------------------------

  /** Swift's `/` on Int, which truncates toward zero. */
  function TruncDiv(a: int, b: int): int
    requires b > 0
  {
    if a >= 0 then a / b else -((-a) / b)
  }

  function Min(a: int, b: int): int {
    if a <= b then a else b
  }

  /** The number of rows drawn for `n` objects, at most five to a row. */
  function Rows(n: int): (rows: int)
    ensures n >= 0 ==> 5 * rows - 5 < n <= 5 * rows
  {
    TruncDiv(n + 4, 5)
  }

  /** The number of objects in row `row`. */
  function ItemsInRow(n: int, row: int): (items: int)
    ensures items <= 5
    ensures n >= 0 && 0 <= row < Rows(n) ==> 1 <= items
  {
    Min(n - row * 5, 5)
  }

  /** The objects drawn in the first k rows. */
  function RowTotal(n: int, k: nat): int {
    if k == 0 then 0 else RowTotal(n, k - 1) + ItemsInRow(n, k - 1)
  }

  /** The first k rows are full rows of five, until the last one holds what remains. */
  lemma {:induction false} RowTotalSoFar(n: int, k: nat)
    requires n >= 0 && k <= Rows(n)
    ensures RowTotal(n, k) == Min(n, 5 * k)
  {
    if k > 0 {
      RowTotalSoFar(n, k - 1);
    }
  }

  /** The grid shows exactly n objects in rows of one to five. */
  lemma GridShowsCount(n: int)
    requires InRange(n)
    ensures 1 <= Rows(n) <= 2
    ensures forall r :: 0 <= r < Rows(n) ==> 1 <= ItemsInRow(n, r) <= 5
    ensures RowTotal(n, Rows(n)) == n
  {
    RowTotalSoFar(n, Rows(n));
  }

  // ---------------------------------------------------------------------
  // Answering
  // ---------------------------------------------------------------------

  /** The state the answer logic reads and writes, with the ledger balance. */
  datatype Round = Round(correctAnswer: int, selectedAnswer: Option<int>, isCorrect: bool,
                         showNextButton: bool, questionsAnswered: int, stars: int)

  /** Something that happens to a round. */
  datatype Event =
    | Answer(answer: int)     // an answer is chosen
    | RevealNext              // the timer after a correct answer shows Next
    | ClearSelection          // the timer after a wrong answer allows another try
    | Next(newAnswer: int)    // Next is tapped and a new question drawn

  /** handleAnswer: ignored while an answer is selected; a correct one earns a star. */
  function ApplyAnswer(r: Round, answer: int): (r': Round)
    ensures r.selectedAnswer.Some? ==> r' == r
    ensures r.selectedAnswer.None? ==>
              r'.selectedAnswer == Some(answer) && (r'.isCorrect <==> answer == r.correctAnswer)
    ensures r'.correctAnswer == r.correctAnswer && r'.showNextButton == r.showNextButton
    ensures r'.stars == r.stars + (if r'.isCorrect && r.selectedAnswer.None? then 1 else 0)
    ensures r'.questionsAnswered - r.questionsAnswered == r'.stars - r.stars
  {
    if r.selectedAnswer.Some? then r
    else
      var correct := answer == r.correctAnswer;
      var chosen := r.(selectedAnswer := Some(answer), isCorrect := correct);
      if correct then chosen.(stars := r.stars + 1, questionsAnswered := r.questionsAnswered + 1)
      else chosen
  }

  function Step(r: Round, e: Event): Round {
    match e
    case Answer(a) => ApplyAnswer(r, a)
    case RevealNext => r.(showNextButton := true)
    case ClearSelection => r.(selectedAnswer := None)
    case Next(c) => r.(correctAnswer := c, selectedAnswer := None, isCorrect := false, showNextButton := false)
  }

  function Play(r: Round, events: seq<Event>): Round
    decreases |events|
  {
    if events == [] then r else Play(Step(r, events[0]), events[1..])
  }

  /** Once a correct answer is chosen, more answers earn nothing until the selection is cleared. */
  lemma CorrectAnswerLocksRound(r: Round, first: int, later: int)
    requires r.selectedAnswer.None? && first == r.correctAnswer
    ensures ApplyAnswer(ApplyAnswer(r, first), later) == ApplyAnswer(r, first)
    ensures ApplyAnswer(r, first).stars == r.stars + 1
  {
  }

  /** Over any play, the stars the game awards equal the questions it counts as answered. */
  lemma {:induction false} StarsMatchAnswered(r: Round, events: seq<Event>)
    ensures Play(r, events).stars - r.stars == Play(r, events).questionsAnswered - r.questionsAnswered
    decreases |events|
  {
    if events != [] {
      StarsMatchAnswered(Step(r, events[0]), events[1..]);
    }
  }

  /** Play never lowers the balance. */
  lemma {:induction false} PlayNeverSpends(r: Round, events: seq<Event>)
    ensures Play(r, events).stars >= r.stars
    decreases |events|
  {
    if events != [] {
      PlayNeverSpends(Step(r, events[0]), events[1..]);
    }
  }

  /** The counting game screen. */
  class NumbersGameView {
    var currentQuestion: CountingQuestion
    var selectedAnswer: Option<int>
    var isCorrect: bool
    var showNextButton: bool
    var questionsAnswered: int
    const starBank: StarBank

    ghost predicate Valid()
      reads this
    {
      WellFormed(currentQuestion)
    }

    ghost function Snapshot(): Round
      reads this, starBank
    {
      Round(currentQuestion.correctAnswer, selectedAnswer, isCorrect, showNextButton, questionsAnswered, starBank.stars)
    }

    /** The screen opens on a fresh random question. */
    constructor (starBank: StarBank, pick: int, answer: int, draws: seq<int>, picks: seq<int>)
      requires 0 <= pick < |Objects|
      requires InRange(answer)
      requires forall i :: 0 <= i < |draws| ==> InRange(draws[i])
      requires |Values(draws) + {answer}| >= OptionCount
      requires ValidPicks(picks, OptionCount)
      ensures Valid() && this.starBank == starBank
      ensures currentQuestion.correctAnswer == answer
      ensures selectedAnswer == None && !isCorrect && !showNextButton && questionsAnswered == 0
    {
      var q := RandomQuestion(pick, answer, draws, picks);
      this.starBank := starBank;
      currentQuestion := q;
      selectedAnswer := None;
      isCorrect := false;
      showNextButton := false;
      questionsAnswered := 0;
    }

    method HandleAnswer(answer: int)
      requires Valid()
      modifies this, starBank, starBank.store
      ensures Valid() && currentQuestion == old(currentQuestion)
      ensures Snapshot() == ApplyAnswer(old(Snapshot()), answer)
      ensures starBank.stars == old(starBank.stars) ==> unchanged(starBank.store)
      ensures starBank.stars != old(starBank.stars) ==>
                starBank.store.data == old(starBank.store.data).SetInteger(StarsKey, starBank.stars)
    {
      if selectedAnswer != None {
        return;
      }
      selectedAnswer := Some(answer);
      isCorrect := answer == currentQuestion.correctAnswer;
      if isCorrect {
        starBank.AddStars(1);
        questionsAnswered := questionsAnswered + 1;
      }
    }

    /** An answer button: it only acts when it is not the selected one. */
    method TapAnswer(option: int)
      requires Valid()
      modifies this, starBank, starBank.store
      ensures Valid() && currentQuestion == old(currentQuestion)
      ensures Snapshot() == ApplyAnswer(old(Snapshot()), option)
      ensures starBank.stars == old(starBank.stars) ==> unchanged(starBank.store)
      ensures starBank.stars != old(starBank.stars) ==>
                starBank.store.data == old(starBank.store.data).SetInteger(StarsKey, starBank.stars)
    {
      var isSelected := selectedAnswer == Some(option);
      if !isSelected {
        HandleAnswer(option);
      }
    }

    /** The delayed step after a correct answer: the Next button appears. */
    method RevealNext()
      modifies this
      ensures Valid() == old(Valid()) && currentQuestion == old(currentQuestion)
      ensures Snapshot() == Step(old(Snapshot()), Event.RevealNext)
    {
      showNextButton := true;
    }

    /** The delayed step after a wrong answer: the selection is cleared for another try. */
    method ClearSelection()
      modifies this
      ensures Valid() == old(Valid()) && currentQuestion == old(currentQuestion)
      ensures Snapshot() == Step(old(Snapshot()), Event.ClearSelection)
    {
      selectedAnswer := None;
    }

    /** The Next button: reset the answer state and draw a new question. */
    method NextQuestion(pick: int, answer: int, draws: seq<int>, picks: seq<int>)
      requires 0 <= pick < |Objects|
      requires InRange(answer)
      requires forall i :: 0 <= i < |draws| ==> InRange(draws[i])
      requires |Values(draws) + {answer}| >= OptionCount
      requires ValidPicks(picks, OptionCount)
      modifies this
      ensures Valid() && currentQuestion.correctAnswer == answer
      ensures selectedAnswer == None && !isCorrect && !showNextButton
      ensures Snapshot() == Step(old(Snapshot()), Next(answer))
    {
      var q := RandomQuestion(pick, answer, draws, picks);
      selectedAnswer := None;
      isCorrect := false;
      showNextButton := false;
      currentQuestion := q;
    }
  }
}
