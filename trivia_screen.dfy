/**
 * The trivia screen: five questions drawn from the pool, a shared
 * 60-second countdown, one answer per question recorded in the store,
 * and a single end of game that finishes the round through the store.
 */
module TriviaScreen {
  import opened Common
  import opened GameStore
  import opened Shuffle

  datatype TriviaQuestion = TriviaQuestion(question: string, options: seq<string>, correctIndex: int)

  const TOTAL_QUESTIONS: nat := 5
  const TOTAL_TIME_SECONDS: int := 60

  /** `getRandomQuestions`: shuffle the pool and keep the first five. */
  method GetRandomQuestions(pool: seq<TriviaQuestion>, draws: seq<real>) returns (questions: seq<TriviaQuestion>)
    requires ValidDraws(draws) && |pool| <= |draws| + 1
    ensures |questions| == Min(TOTAL_QUESTIONS, |pool|)
    ensures multiset(questions) <= multiset(pool)
  {
    var shuffled := ShuffleArray(pool, draws);
    var n := Min(TOTAL_QUESTIONS, |shuffled|);
    questions := shuffled[..n];
    assert shuffled == questions + shuffled[n..];
  }

  /** Each recorded answer says whether the pick for that question was its correct option. */
  ghost predicate Agrees(answers: seq<bool>, picks: seq<int>, questions: seq<TriviaQuestion>)
    requires |answers| == |picks| <= |questions|
  {
    forall k :: 0 <= k < |picks| ==> answers[k] == (picks[k] == questions[k].correctIndex)
  }

  lemma AgreesAppend(answers: seq<bool>, picks: seq<int>, questions: seq<TriviaQuestion>, pick: int)
    requires |answers| == |picks| < |questions| && Agrees(answers, picks, questions)
    ensures Agrees(answers + [pick == questions[|picks|].correctIndex], picks + [pick], questions)
  {
  }

  /** Everything the trivia screen holds besides the store, for stating what a step leaves alone. */
  datatype TriviaView = TriviaView(
    questions: seq<TriviaQuestion>, currentQuestionIndex: nat, timeRemaining: int,
    selectedAnswer: Option<int>, showResult: bool, isGameOver: bool,
    finalScore: int, coinsEarned: int, feedbackPending: bool, picks: seq<int>)

  /**
   * One mounted trivia screen. `picks` is the answer index chosen for each
   * recorded question; the store's recorded answers are exactly whether
   * each pick was the question's `correct_index`.
   */
  class TriviaRound {
    const store: Store
    var questions: seq<TriviaQuestion>
    var currentQuestionIndex: nat
    var timeRemaining: int
    var selectedAnswer: Option<int>
    var showResult: bool
    var isGameOver: bool
    var finalScore: int
    var coinsEarned: int
    /** The 800 ms feedback timer started by an answer has not fired yet. */
    var feedbackPending: bool
    ghost var picks: seq<int>

    ghost predicate Valid()
      reads this, store
    {
      && store.Valid()
      && currentQuestionIndex < TOTAL_QUESTIONS
      && |picks| == currentQuestionIndex + (if selectedAnswer.Some? then 1 else 0)
      && |picks| <= |questions|
      && |store.triviaAnswers| == |picks|
      && Agrees(store.triviaAnswers, picks, questions)
      && (feedbackPending ==> selectedAnswer.Some?)
    }

    ghost function View(): TriviaView
      reads this
    {
      TriviaView(questions, currentQuestionIndex, timeRemaining, selectedAnswer, showResult, isGameOver,
        finalScore, coinsEarned, feedbackPending, picks)
    }

    /** Mounting the screen draws the questions and starts the store's trivia round. */
    constructor (store: Store, pool: seq<TriviaQuestion>, draws: seq<real>)
      requires store.Valid()
      requires ValidDraws(draws) && |pool| <= |draws| + 1
      modifies store
      ensures Valid() && this.store == store
      ensures |questions| == Min(TOTAL_QUESTIONS, |pool|) && multiset(questions) <= multiset(pool)
      ensures currentQuestionIndex == 0 && timeRemaining == TOTAL_TIME_SECONDS
      ensures selectedAnswer == None && !showResult && !isGameOver && !feedbackPending
      ensures store.State() == old(store.State()).(triviaScore := 0, triviaQuestionsAnswered := 0)
    {
      this.store := store;
      var qs := GetRandomQuestions(pool, draws);
      questions := qs;
      currentQuestionIndex := 0;
      timeRemaining := TOTAL_TIME_SECONDS;
      selectedAnswer := None;
      showResult := false;
      isGameOver := false;
      finalScore := 0;
      coinsEarned := 0;
      feedbackPending := false;
      picks := [];
      new;
      store.StartTriviaRound();
    }

    /** `endGame`: reads the score, finishes the round in the store, shows the result. */
    method EndGame()
      requires Valid()
      modifies this, store
      ensures Valid()
      ensures View() == old(View()).(isGameOver := true, finalScore := old(store.triviaScore),
        coinsEarned := ZeroRewardFloor(old(store.triviaScore)))
      ensures store.State() == old(store.State()).(playerBalance := old(store.playerBalance) + coinsEarned)
      ensures store.triviaAnswers == old(store.triviaAnswers)
    {
      var currentState := store.GetGameState();
      var score := currentState.triviaScore;
      var earned := store.FinishTriviaRound();
      finalScore := score;
      coinsEarned := earned;
      isGameOver := true;
    }

    /** One tick of the one-second countdown (the interval is cleared once the game is over). */
    method TimerTick()
      requires Valid()
      modifies this, store
      ensures Valid()
      ensures old(isGameOver) ==> unchanged(this) && unchanged(store)
      ensures !old(isGameOver) && old(timeRemaining) > 1 ==>
        View() == old(View()).(timeRemaining := old(timeRemaining) - 1) && unchanged(store)
      ensures !old(isGameOver) && old(timeRemaining) <= 1 ==>
        && View() == old(View()).(timeRemaining := 0, isGameOver := true, finalScore := old(store.triviaScore),
             coinsEarned := ZeroRewardFloor(old(store.triviaScore)))
        && store.State() == old(store.State()).(playerBalance := old(store.playerBalance) + coinsEarned)
        && store.triviaAnswers == old(store.triviaAnswers)
    {
      if isGameOver {
        return;
      }
      if timeRemaining <= 1 {
        timeRemaining := 0;
        EndGame();
      } else {
        timeRemaining := timeRemaining - 1;
      }
    }

    /** The hardware back button ends a game that is still running. */
    method BackPressed()
      requires Valid()
      modifies this, store
      ensures Valid() && isGameOver
      ensures old(isGameOver) ==> unchanged(this) && unchanged(store)
      ensures !old(isGameOver) ==>
        && View() == old(View()).(isGameOver := true, finalScore := old(store.triviaScore),
             coinsEarned := ZeroRewardFloor(old(store.triviaScore)))
        && store.State() == old(store.State()).(playerBalance := old(store.playerBalance) + coinsEarned)
        && store.triviaAnswers == old(store.triviaAnswers)
    {
      if !isGameOver {
        EndGame();
      }
    }

    /** Tapping option `answerIndex` of the current question. */
    method HandleAnswerSelect(answerIndex: int)
      requires Valid()
      modifies this, store
      ensures Valid()
      ensures var accepted := old(selectedAnswer).None? && !old(isGameOver) && old(currentQuestionIndex) < |old(questions)|;
        && (!accepted ==> unchanged(this) && unchanged(store))
        && (accepted ==>
          var isCorrect := answerIndex == old(questions)[old(currentQuestionIndex)].correctIndex;
          && View() == old(View()).(selectedAnswer := Some(answerIndex), showResult := true,
               feedbackPending := true, picks := old(picks) + [answerIndex])
          && store.triviaAnswers == old(store.triviaAnswers) + [isCorrect]
          && store.State() == old(store.State()).(
               triviaScore := old(store.triviaScore) + (if isCorrect then 10 else -5),
               triviaQuestionsAnswered := old(store.triviaQuestionsAnswered) + 1))
    {
      if selectedAnswer.Some? || isGameOver {
        return;
      }
      if currentQuestionIndex >= |questions| {
        return;
      }
      RecordPick(answerIndex);
    }

    /** The accepted branch of `HandleAnswerSelect`: show the pick and record it in the store. */
    method RecordPick(answerIndex: int)
      requires Valid() && selectedAnswer.None? && !isGameOver && currentQuestionIndex < |questions|
      modifies this, store
      ensures Valid()
      ensures var isCorrect := answerIndex == old(questions)[old(currentQuestionIndex)].correctIndex;
        && View() == old(View()).(selectedAnswer := Some(answerIndex), showResult := true,
             feedbackPending := true, picks := old(picks) + [answerIndex])
        && store.triviaAnswers == old(store.triviaAnswers) + [isCorrect]
        && store.State() == old(store.State()).(
             triviaScore := old(store.triviaScore) + (if isCorrect then 10 else -5),
             triviaQuestionsAnswered := old(store.triviaQuestionsAnswered) + 1)
    {
      var currentQuestion := questions[currentQuestionIndex];
      var isCorrect := answerIndex == currentQuestion.correctIndex;
      selectedAnswer := Some(answerIndex);
      showResult := true;
      AgreesAppend(store.triviaAnswers, picks, questions, answerIndex);
      picks := picks + [answerIndex];
      store.RecordTriviaAnswer(isCorrect);
      feedbackPending := true;
    }

    /**
     * The 800 ms feedback timer as written: advance to the next question,
     * or end the game after the fifth one, without looking at `isGameOver`.
     */
    method FeedbackTimeout()
      requires Valid()
      modifies this, store
      ensures Valid() && !feedbackPending
      ensures !old(feedbackPending) ==> unchanged(this) && unchanged(store)
      ensures old(feedbackPending) && old(currentQuestionIndex) < TOTAL_QUESTIONS - 1 ==>
        && View() == old(View()).(feedbackPending := false, currentQuestionIndex := old(currentQuestionIndex) + 1,
             selectedAnswer := None, showResult := false)
        && unchanged(store)
      ensures old(feedbackPending) && old(currentQuestionIndex) == TOTAL_QUESTIONS - 1 ==>
        && View() == old(View()).(feedbackPending := false, isGameOver := true, finalScore := old(store.triviaScore),
             coinsEarned := ZeroRewardFloor(old(store.triviaScore)))
        && store.State() == old(store.State()).(playerBalance := old(store.playerBalance) + coinsEarned)
        && store.triviaAnswers == old(store.triviaAnswers)
    {
      if !feedbackPending {
        return;
      }
      feedbackPending := false;
      if currentQuestionIndex < TOTAL_QUESTIONS - 1 {
        currentQuestionIndex := currentQuestionIndex + 1;
        selectedAnswer := None;
        showResult := false;
      } else {
        EndGame();
      }
    }

    /** The same timer with the guard the screen evidently needs: a finished game is not finished again. */
    method FeedbackTimeoutGuarded()
      requires Valid()
      modifies this, store
      ensures Valid() && !feedbackPending
      ensures old(isGameOver) ==> store.State() == old(store.State()) && isGameOver
      ensures !old(feedbackPending) ==> unchanged(this) && unchanged(store)
      ensures old(feedbackPending) && old(isGameOver) ==>
        View() == old(View()).(feedbackPending := false) && unchanged(store)
      ensures old(feedbackPending) && !old(isGameOver) && old(currentQuestionIndex) < TOTAL_QUESTIONS - 1 ==>
        && View() == old(View()).(feedbackPending := false, currentQuestionIndex := old(currentQuestionIndex) + 1,
             selectedAnswer := None, showResult := false)
        && unchanged(store)
      ensures old(feedbackPending) && !old(isGameOver) && old(currentQuestionIndex) == TOTAL_QUESTIONS - 1 ==>
        && View() == old(View()).(feedbackPending := false, isGameOver := true, finalScore := old(store.triviaScore),
             coinsEarned := ZeroRewardFloor(old(store.triviaScore)))
        && store.State() == old(store.State()).(playerBalance := old(store.playerBalance) + coinsEarned)
        && store.triviaAnswers == old(store.triviaAnswers)
    {
      if !feedbackPending {
        return;
      }
      feedbackPending := false;
      if isGameOver {
        return;
      }
      if currentQuestionIndex < TOTAL_QUESTIONS - 1 {
        currentQuestionIndex := currentQuestionIndex + 1;
        selectedAnswer := None;
        showResult := false;
      } else {
        EndGame();
      }
    }
  }

  /** The store's score after a round is 10 per correct pick and -5 per wrong one. */
  lemma RoundScore(store: Store, round: TriviaRound)
    requires round.store == store && round.Valid()
    ensures store.triviaQuestionsAnswered <= TOTAL_QUESTIONS
    ensures store.triviaScore ==
      10 * CountCorrect(store.triviaAnswers) - 5 * (store.triviaQuestionsAnswered - CountCorrect(store.triviaAnswers))
  {
    TriviaScoreClosedForm(store.triviaAnswers);
  }

  /**
   * The last answer has been given and its feedback pause is running when
   * the back button is pressed. With the timer as written the round is
   * finished twice: a positive score is credited twice over.
   */
  method BackDuringLastFeedbackAsWritten(round: TriviaRound) returns (credited: int)
    requires round.Valid()
    requires round.feedbackPending && !round.isGameOver
    requires round.currentQuestionIndex == TOTAL_QUESTIONS - 1
    requires round.store.triviaScore > 0
    modifies round, round.store
    ensures credited == round.store.playerBalance - old(round.store.playerBalance)
    ensures credited == 2 * old(round.store.triviaScore)
  {
    var before := round.store.playerBalance;
    round.BackPressed();
    round.FeedbackTimeout();
    credited := round.store.playerBalance - before;
  }

  /** The same play with the guarded timer credits the score once. */
  method BackDuringLastFeedbackGuarded(round: TriviaRound) returns (credited: int)
    requires round.Valid()
    requires round.feedbackPending && !round.isGameOver
    requires round.currentQuestionIndex == TOTAL_QUESTIONS - 1
    modifies round, round.store
    ensures credited == round.store.playerBalance - old(round.store.playerBalance)
    ensures credited == ZeroRewardFloor(old(round.store.triviaScore))
  {
    var before := round.store.playerBalance;
    round.BackPressed();
    round.FeedbackTimeoutGuarded();
    credited := round.store.playerBalance - before;
  }
}
