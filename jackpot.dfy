/**
 * The jackpot screen: a quiz of `JACKPOT_QUESTION_COUNT` survey questions,
 * one pick (or a timeout) each, then a reveal phase in which every tap
 * uncovers the next recorded answer on a board with a running total, and
 * finally the store's verdict. The store's jackpot functions and constants
 * are not part of this model: calls are logged as `JackpotCall` events,
 * replies arrive as parameters and the constants are fields.
 */
module Jackpot {
  import opened Common
  import opened Shuffle

  datatype SurveyOption = SurveyOption(text: string, isCorrect: bool, points: int)
  datatype SurveyQuestion = SurveyQuestion(questionText: string, options: seq<SurveyOption>)

  /** An answer as the store keeps it for the board. */
  datatype JackpotAnswer = JackpotAnswer(questionText: string, answerText: string, points: int)

  /** The answer grid has four rows of two buttons. */
  const GRID_SIZE: int := 8
  /** Pause after a pick or a timeout before the next question, and after the last reveal. */
  const ADVANCE_DELAY_MS: int := 300
  const FINISH_DELAY_MS: int := 500

  /**
   * `getRandomQuestions(count)`: the first `count` questions of the pool in
   * the order a randomised sort left them (`order`, a rearrangement of the pool).
   */
  function GetRandomQuestions(pool: seq<SurveyQuestion>, order: seq<SurveyQuestion>, count: int): (r: seq<SurveyQuestion>)
    requires multiset(order) == multiset(pool)
    ensures |r| == JsSliceEnd(|pool|, count)
    ensures 0 <= count ==> |r| == Min(count, |pool|)
    ensures multiset(r) <= multiset(pool)
  {
    var end := JsSliceEnd(|order|, count);
    assert order == order[..end] + order[end..];
    assert |order| == |pool| by {
      assert |multiset(order)| == |multiset(pool)|;
    }
    order[..end]
  }

  /** The points recorded for a pick: the option's points if it is correct, else 0. */
  function RecordedPoints(option: SurveyOption): (points: int)
    ensures option.isCorrect ==> points == option.points
    ensures !option.isCorrect ==> points == 0
  {
    if option.isCorrect then option.points else 0
  }

  // ---------------------------------------------------------------------
  // The answers board
  // ---------------------------------------------------------------------

  /** The points of a list of answers (`reduce((sum, answer) => sum + answer.points, 0)`). */
  function SumPoints(answers: seq<JackpotAnswer>): int
  {
    if answers == [] then 0 else SumPoints(answers[..|answers| - 1]) + answers[|answers| - 1].points
  }

  /** `progressiveTotal`: the points of the first `revealedCount` answers. */
  function ProgressiveTotal(answers: seq<JackpotAnswer>, revealedCount: int): int
  {
    SumPoints(answers[..JsSliceEnd(|answers|, revealedCount)])
  }

  /** Row `index` of the board shows its answer once it is among the first `revealedCount`. */
  predicate RowShown(index: nat, revealedCount: int)
  {
    index < revealedCount
  }

  /** The points the board shows, row by row, for the rows below `n`. */
  function ShownPoints(answers: seq<JackpotAnswer>, revealedCount: int, n: nat): int
    requires n <= |answers|
  {
    if n == 0 then 0
    else ShownPoints(answers, revealedCount, n - 1) + (if RowShown(n - 1, revealedCount) then answers[n - 1].points else 0)
  }

  lemma {:induction false} ShownPointsPrefix(answers: seq<JackpotAnswer>, revealedCount: int, n: nat)
    requires n <= |answers|
    ensures ShownPoints(answers, revealedCount, n) == SumPoints(answers[..Clamp(revealedCount, n)])
  {
    if n > 0 {
      ShownPointsPrefix(answers, revealedCount, n - 1);
      if n - 1 < revealedCount {
        assert answers[..n][..n - 1] == answers[..n - 1];
      }
    }
  }

  /** `revealedCount` clamped to `[0, n]`. */
  function Clamp(c: int, n: nat): (r: nat)
    ensures r <= n
  {
    if c < 0 then 0 else if c > n then n else c
  }

  /**
   * The running total is the sum of the points the board shows: the two
   * views of "revealed" (the slice and the per-row test) agree.
   */
  lemma ProgressiveTotalIsShownPoints(answers: seq<JackpotAnswer>, revealedCount: int)
    requires revealedCount >= 0
    ensures ProgressiveTotal(answers, revealedCount) == ShownPoints(answers, revealedCount, |answers|)
  {
    ShownPointsPrefix(answers, revealedCount, |answers|);
    assert answers[..|answers|] == answers;
  }

  /** Each reveal adds exactly the newly shown answer's points to the running total. */
  lemma ProgressiveTotalStep(answers: seq<JackpotAnswer>, revealedCount: nat)
    requires revealedCount < |answers|
    ensures ProgressiveTotal(answers, revealedCount + 1) == ProgressiveTotal(answers, revealedCount) + answers[revealedCount].points
  {
    assert answers[..revealedCount + 1][..revealedCount] == answers[..revealedCount];
  }

  // ---------------------------------------------------------------------
  // The round
  // ---------------------------------------------------------------------

  datatype GamePhase = Quiz | Reveal | Result

  /** The store's verdict from `finishJackpotRound`. */
  datatype JackpotResult = JackpotResult(coinsEarned: int, isWinner: bool)

  /** Calls the screen makes into the store's jackpot functions. */
  datatype JackpotCall =
    | StartJackpotRound
    | RecordJackpotAnswer(questionText: string, answerText: string, points: int)
    | AdvanceJackpotQuestion(questionText: string)
    | StartJackpotReveal
    | RevealNextJackpotAnswer
    | FinishJackpotRound

  /** The drawn question `i` has an option with this text whose recorded points are `points`. */
  ghost predicate PickFrom(questions: seq<SurveyQuestion>, i: int, answerText: string, points: int)
  {
    && 0 <= i < |questions|
    && exists o :: o in questions[i].options && o.text == answerText && points == RecordedPoints(o)
  }

  /**
   * A logged call names a drawn question, and a recorded answer is one of
   * that question's options with the points `handleOptionSelect` gives it.
   */
  ghost predicate Backed(c: JackpotCall, questions: seq<SurveyQuestion>)
  {
    && (c.RecordJackpotAnswer? ==>
      exists i :: PickFrom(questions, i, c.answerText, c.points) && questions[i].questionText == c.questionText)
    && (c.AdvanceJackpotQuestion? ==>
      exists i :: 0 <= i < |questions| && questions[i].questionText == c.questionText)
  }

  /** Everything a jackpot screen holds besides its constants. */
  datatype JackpotView = JackpotView(
    gamePhase: GamePhase, isGameStarted: bool, currentQuestionIndex: nat, shuffledOptions: seq<SurveyOption>,
    timeRemaining: int, isAnswering: bool, coinsEarned: int, isWinner: bool,
    advancePending: Option<nat>, pendingFinishTimers: nat, storeCalls: seq<JackpotCall>)

  class JackpotRound {
    /** `JACKPOT_QUESTION_COUNT` and `JACKPOT_TIME_PER_QUESTION`. */
    const questionCount: int
    const timePerQuestion: int
    const questions: seq<SurveyQuestion>
    var gamePhase: GamePhase
    var isGameStarted: bool
    var currentQuestionIndex: nat
    var shuffledOptions: seq<SurveyOption>
    var timeRemaining: int
    var isAnswering: bool
    var coinsEarned: int
    var isWinner: bool
    /** The 300 ms timer after a pick or a timeout, with the question index it captured. */
    var advancePending: Option<nat>
    /** The 500 ms timers after the last reveal, not yet fired. */
    var pendingFinishTimers: nat
    var storeCalls: seq<JackpotCall>

    ghost predicate Valid()
      reads this
    {
      && isGameStarted
      && (advancePending.Some? ==> isAnswering && advancePending.value == currentQuestionIndex && gamePhase == Quiz)
      && (gamePhase != Quiz ==> isAnswering && advancePending.None?)
      && (gamePhase == Quiz ==> pendingFinishTimers == 0)
      && |storeCalls| >= 1 && storeCalls[0] == StartJackpotRound
      && (gamePhase == Quiz && currentQuestionIndex < |questions| ==>
        multiset(shuffledOptions) == multiset(questions[currentQuestionIndex].options))
      && (forall k :: 0 <= k < |storeCalls| ==> Backed(storeCalls[k], questions))
    }

    ghost function View(): JackpotView
      reads this
    {
      JackpotView(gamePhase, isGameStarted, currentQuestionIndex, shuffledOptions, timeRemaining, isAnswering,
        coinsEarned, isWinner, advancePending, pendingFinishTimers, storeCalls)
    }

    /**
     * A logged answer scores only when it was a correct option of the
     * question it names, and then it scores that option's points.
     */
    lemma LoggedAnswerScores(k: int)
      requires Valid() && 0 <= k < |storeCalls| && storeCalls[k].RecordJackpotAnswer?
      ensures var c := storeCalls[k];
        c.points != 0 ==>
          exists i, o :: 0 <= i < |questions| && questions[i].questionText == c.questionText
            && o in questions[i].options && o.isCorrect && o.text == c.answerText && o.points == c.points
    {
      var c := storeCalls[k];
      assert Backed(c, questions);
      var i :| PickFrom(questions, i, c.answerText, c.points) && questions[i].questionText == c.questionText;
      var o :| o in questions[i].options && o.text == c.answerText && c.points == RecordedPoints(o);
      if c.points != 0 {
        assert o.isCorrect;
      }
    }

    /** The current question, if the index is inside the drawn questions (`questions[currentQuestionIndex]`). */
    function CurrentQuestion(): (q: Option<SurveyQuestion>)
      reads this
      ensures q.Some? <==> currentQuestionIndex < |questions|
    {
      if currentQuestionIndex < |questions| then Some(questions[currentQuestionIndex]) else None
    }

    /** Mounting: start the store's round and show the first question's options, shuffled. */
    constructor (questionCount: int, timePerQuestion: int, pool: seq<SurveyQuestion>, order: seq<SurveyQuestion>, draws: seq<real>)
      requires multiset(order) == multiset(pool)
      requires ValidDraws(draws) && (forall q :: q in pool ==> |q.options| <= |draws| + 1)
      ensures Valid()
      ensures this.questionCount == questionCount && this.timePerQuestion == timePerQuestion
      ensures questions == GetRandomQuestions(pool, order, questionCount)
      ensures gamePhase == Quiz && isGameStarted && currentQuestionIndex == 0
      ensures storeCalls == [StartJackpotRound] && advancePending == None && pendingFinishTimers == 0
      ensures timeRemaining == timePerQuestion && !isAnswering && coinsEarned == 0 && !isWinner
      ensures |questions| > 0 ==> multiset(shuffledOptions) == multiset(questions[0].options)
      ensures |questions| == 0 ==> shuffledOptions == []
    {
      var drawn := GetRandomQuestions(pool, order, questionCount);
      var first: seq<SurveyOption> := [];
      if |drawn| > 0 {
        assert drawn[0] in multiset(pool);
        first := ShuffleArray(drawn[0].options, draws);
      }
      this.questionCount := questionCount;
      this.timePerQuestion := timePerQuestion;
      questions := drawn;
      gamePhase := Quiz;
      currentQuestionIndex := 0;
      shuffledOptions := first;
      timeRemaining := timePerQuestion;
      isAnswering := false;
      coinsEarned := 0;
      isWinner := false;
      advancePending := None;
      pendingFinishTimers := 0;
      storeCalls := [StartJackpotRound];
      isGameStarted := true;
    }

    /** `handleOptionSelect` for the button at `index` of the grid: record the pick and schedule the advance. */
    method HandleOptionSelect(index: int)
      requires Valid()
      modifies this
      ensures Valid()
      ensures var accepted := !old(isAnswering) && old(CurrentQuestion()).Some? &&
          0 <= index < GRID_SIZE && index < |old(shuffledOptions)|;
        && (!accepted ==> unchanged(this))
        && (accepted ==>
          var option := old(shuffledOptions)[index];
          View() == old(View()).(isAnswering := true, advancePending := Some(old(currentQuestionIndex)),
            storeCalls := old(storeCalls) +
              [RecordJackpotAnswer(old(CurrentQuestion()).value.questionText, option.text, RecordedPoints(option))]))
    {
      if isAnswering || currentQuestionIndex >= |questions| {
        return;
      }
      if !(0 <= index < GRID_SIZE && index < |shuffledOptions|) {
        return;
      }
      var option := shuffledOptions[index];
      assert option in multiset(questions[currentQuestionIndex].options);
      assert PickFrom(questions, currentQuestionIndex, option.text, RecordedPoints(option));
      isAnswering := true;
      var points := if option.isCorrect then option.points else 0;
      storeCalls := storeCalls + [RecordJackpotAnswer(questions[currentQuestionIndex].questionText, option.text, points)];
      advancePending := Some(currentQuestionIndex);
    }

    /** `handleTimeout`: record a 0-point answer through `advanceJackpotQuestion` and schedule the advance. */
    method HandleTimeout()
      requires Valid()
      modifies this
      ensures Valid()
      ensures (old(isAnswering) || old(CurrentQuestion()).None?) ==> unchanged(this)
      ensures !old(isAnswering) && old(CurrentQuestion()).Some? ==>
        View() == old(View()).(isAnswering := true, advancePending := Some(old(currentQuestionIndex)),
          storeCalls := old(storeCalls) + [AdvanceJackpotQuestion(old(CurrentQuestion()).value.questionText)])
    {
      if currentQuestionIndex >= |questions| || isAnswering {
        return;
      }
      isAnswering := true;
      storeCalls := storeCalls + [AdvanceJackpotQuestion(questions[currentQuestionIndex].questionText)];
      advancePending := Some(currentQuestionIndex);
    }

    /** One tick of the quiz countdown; it only runs while a question is open. */
    method TimerTick()
      requires Valid()
      modifies this
      ensures Valid()
      ensures (!old(isGameStarted) || old(gamePhase) != Quiz || old(isAnswering)) ==> unchanged(this)
      ensures old(isGameStarted) && old(gamePhase) == Quiz && !old(isAnswering) && old(timeRemaining) > 1 ==>
        View() == old(View()).(timeRemaining := old(timeRemaining) - 1)
      ensures old(isGameStarted) && old(gamePhase) == Quiz && !old(isAnswering) && old(timeRemaining) <= 1 ==>
        && (old(CurrentQuestion()).Some? ==>
          View() == old(View()).(timeRemaining := 0, isAnswering := true,
            advancePending := Some(old(currentQuestionIndex)),
            storeCalls := old(storeCalls) + [AdvanceJackpotQuestion(old(CurrentQuestion()).value.questionText)]))
        && (old(CurrentQuestion()).None? ==> View() == old(View()).(timeRemaining := 0))
    {
      if !isGameStarted || gamePhase != Quiz || isAnswering {
        return;
      }
      if timeRemaining <= 1 {
        timeRemaining := 0;
        HandleTimeout();
      } else {
        timeRemaining := timeRemaining - 1;
      }
    }

    /**
     * The 300 ms timer fires: after the last question start the reveal,
     * otherwise move to the next question, whose options are shuffled
     * afresh with a full clock.
     */
    method AdvanceTimeout(draws: seq<real>)
      requires Valid()
      requires ValidDraws(draws)
      requires currentQuestionIndex + 1 < |questions| ==> |questions[currentQuestionIndex + 1].options| <= |draws| + 1
      modifies this
      ensures Valid()
      ensures old(advancePending).None? ==> unchanged(this)
      ensures old(advancePending).Some? && old(advancePending).value >= questionCount - 1 ==>
        View() == old(View()).(gamePhase := Reveal, advancePending := None,
          storeCalls := old(storeCalls) + [StartJackpotReveal])
      ensures old(advancePending).Some? && old(advancePending).value < questionCount - 1 ==>
        && gamePhase == Quiz
        && (old(currentQuestionIndex) + 1 < |questions| ==>
          && View() == old(View()).(currentQuestionIndex := old(currentQuestionIndex) + 1, advancePending := None,
               shuffledOptions := shuffledOptions, timeRemaining := timePerQuestion, isAnswering := false)
          && multiset(shuffledOptions) == multiset(questions[currentQuestionIndex].options))
        && (old(currentQuestionIndex) + 1 >= |questions| ==>
          && View() == old(View()).(currentQuestionIndex := old(currentQuestionIndex) + 1, advancePending := None)
          && isAnswering)
    {
      if advancePending.None? {
        return;
      }
      var capturedIndex := advancePending.value;
      advancePending := None;
      if capturedIndex >= questionCount - 1 {
        storeCalls := storeCalls + [StartJackpotReveal];
        gamePhase := Reveal;
      } else {
        currentQuestionIndex := currentQuestionIndex + 1;
        if currentQuestionIndex < |questions| {
          shuffledOptions := ShuffleArray(questions[currentQuestionIndex].options, draws);
          timeRemaining := timePerQuestion;
          isAnswering := false;
        }
      }
    }

    /** `handleRevealTap`: uncover the next answer; once `revealed` reaches the count, schedule the finish. */
    method HandleRevealTap(revealed: int)
      requires Valid()
      modifies this
      ensures Valid()
      ensures old(gamePhase) != Reveal ==> unchanged(this)
      ensures old(gamePhase) == Reveal ==>
        View() == old(View()).(storeCalls := old(storeCalls) + [RevealNextJackpotAnswer],
          pendingFinishTimers := old(pendingFinishTimers) + (if revealed >= questionCount then 1 else 0))
    {
      if gamePhase != Reveal {
        return;
      }
      storeCalls := storeCalls + [RevealNextJackpotAnswer];
      if revealed >= questionCount {
        pendingFinishTimers := pendingFinishTimers + 1;
      }
    }

    /** The 500 ms timer after the last reveal: show the store's verdict. */
    method FinishTimeout(result: JackpotResult)
      requires Valid()
      modifies this
      ensures Valid()
      ensures old(pendingFinishTimers) == 0 ==> unchanged(this)
      ensures old(pendingFinishTimers) > 0 ==>
        View() == old(View()).(pendingFinishTimers := old(pendingFinishTimers) - 1, gamePhase := Result,
          coinsEarned := result.coinsEarned, isWinner := result.isWinner,
          storeCalls := old(storeCalls) + [FinishJackpotRound])
    {
      if pendingFinishTimers > 0 {
        pendingFinishTimers := pendingFinishTimers - 1;
        storeCalls := storeCalls + [FinishJackpotRound];
        coinsEarned := result.coinsEarned;
        isWinner := result.isWinner;
        gamePhase := Result;
      }
    }

    /**
     * A tap on the board (`handleScreenTap`): on the result it goes home,
     * while answers are still hidden it reveals the next one.
     */
    method ScreenTap(revealedCount: int, revealed: int) returns (goHome: bool)
      requires Valid() && gamePhase != Quiz
      modifies this
      ensures Valid()
      ensures goHome <==> old(gamePhase) == Result
      ensures (old(gamePhase) == Result || revealedCount >= questionCount) ==> unchanged(this)
      ensures old(gamePhase) == Reveal && revealedCount < questionCount ==>
        View() == old(View()).(storeCalls := old(storeCalls) + [RevealNextJackpotAnswer],
          pendingFinishTimers := old(pendingFinishTimers) + (if revealed >= questionCount then 1 else 0))
    {
      goHome := gamePhase == Result;
      if !goHome && revealedCount < questionCount {
        HandleRevealTap(revealed);
      }
    }

    /** The hardware back button is swallowed until the result shows. */
    method BackPressed() returns (blocked: bool)
      ensures blocked <==> gamePhase != Result
    {
      blocked := gamePhase != Result;
    }
  }
}
