/**
 * The "survey steal" screen: some answers of a survey board are already
 * filled in by a rival; the player must find the rest among six buttons
 * (the remaining answers plus distractors). One wrong pick, the timer or
 * the back button loses the round with 0 coins; filling the board wins
 * what the store's `finishStealRound` pays. The store's steal functions
 * are not part of this model: the screen's calls to them are logged as
 * `StealCall` events and their replies arrive as parameters.
 */
module SurveySteal {
  import opened Common
  import opened Shuffle

  datatype StealAnswer = StealAnswer(text: string, points: int)

  datatype StealQuestion = StealQuestion(
    question: string,
    allAnswers: seq<StealAnswer>,
    preFilledIndices: seq<int>,
    distractors: seq<string>)

  datatype OptionButton = OptionButton(text: string, isCorrect: bool, answerIndex: int, points: int)

  /** Number of option buttons the screen aims for. */
  const OPTION_COUNT: int := 6
  /** Number of answer slots on the board. */
  const BOARD_SIZE: int := 5

  // ---------------------------------------------------------------------
  // Building the board and the buttons
  // ---------------------------------------------------------------------

  /** `all_answers[idx]?.points || 0`: a missing answer counts as 0. */
  function PointsAt(answers: seq<StealAnswer>, idx: int): int
  {
    if 0 <= idx < |answers| then answers[idx].points else 0
  }

  /** The sum of `PointsAt` over a list of indices, in list order. */
  function SumAt(answers: seq<StealAnswer>, indices: seq<int>): int
  {
    if indices == [] then 0
    else SumAt(answers, indices[..|indices| - 1]) + PointsAt(answers, indices[|indices| - 1])
  }

  /** `preFilledPoints`: the points of the pre-filled answers. */
  function PreFilledPoints(q: StealQuestion): int
  {
    SumAt(q.allAnswers, q.preFilledIndices)
  }

  /** Summing over a concatenation adds the two sums. */
  lemma {:induction false} SumAtAppend(answers: seq<StealAnswer>, xs: seq<int>, ys: seq<int>)
    ensures SumAt(answers, xs + ys) == SumAt(answers, xs) + SumAt(answers, ys)
    decreases |ys|
  {
    if ys == [] {
      assert xs + ys == xs;
    } else {
      var init := ys[..|ys| - 1];
      assert (xs + ys)[..|xs + ys| - 1] == xs + init;
      assert (xs + ys)[|xs + ys| - 1] == ys[|ys| - 1];
      SumAtAppend(answers, xs, init);
    }
  }

  /** `all_answers.map((_, idx) => idx).filter(idx => !pre_filled_indices.includes(idx))`, for the first `n` answers. */
  function RemainingIndices(n: nat, preFilled: seq<int>): (r: seq<int>)
    ensures |r| <= n
  {
    if n == 0 then []
    else RemainingIndices(n - 1, preFilled) + (if n - 1 in preFilled then [] else [n - 1])
  }

  /** Only answers that are not pre-filled are offered, each once and in board order. */
  lemma {:induction false} RemainingIndicesSound(n: nat, preFilled: seq<int>)
    ensures forall k :: 0 <= k < |RemainingIndices(n, preFilled)| ==>
      0 <= RemainingIndices(n, preFilled)[k] < n && RemainingIndices(n, preFilled)[k] !in preFilled
    ensures forall i, j :: 0 <= i < j < |RemainingIndices(n, preFilled)| ==>
      RemainingIndices(n, preFilled)[i] < RemainingIndices(n, preFilled)[j]
  {
    if n > 0 {
      RemainingIndicesSound(n - 1, preFilled);
    }
  }

  /** Every answer that is not pre-filled is offered. */
  lemma {:induction false} RemainingIndicesComplete(n: nat, preFilled: seq<int>, idx: int)
    requires 0 <= idx < n && idx !in preFilled
    ensures idx in RemainingIndices(n, preFilled)
  {
    if idx < n - 1 {
      RemainingIndicesComplete(n - 1, preFilled, idx);
    }
  }

  /** The correct-answer button for each index of `indices`. */
  function ButtonsFor(answers: seq<StealAnswer>, indices: seq<int>): (buttons: seq<OptionButton>)
    requires forall k :: 0 <= k < |indices| ==> 0 <= indices[k] < |answers|
    ensures |buttons| == |indices|
  {
    seq(|indices|, k requires 0 <= k < |indices| =>
      OptionButton(answers[indices[k]].text, true, indices[k], answers[indices[k]].points))
  }

  /** The buttons for the answers still to be found, each carrying its own index and points. */
  function CorrectButtons(q: StealQuestion): (buttons: seq<OptionButton>)
    ensures |buttons| == |RemainingIndices(|q.allAnswers|, q.preFilledIndices)|
    ensures forall k :: 0 <= k < |buttons| ==>
      var idx := buttons[k].answerIndex;
      && 0 <= idx < |q.allAnswers| && idx !in q.preFilledIndices
      && buttons[k] == OptionButton(q.allAnswers[idx].text, true, idx, q.allAnswers[idx].points)
  {
    RemainingIndicesSound(|q.allAnswers|, q.preFilledIndices);
    ButtonsFor(q.allAnswers, RemainingIndices(|q.allAnswers|, q.preFilledIndices))
  }

  /** Every answer that is not pre-filled has a button. */
  lemma CorrectButtonsComplete(q: StealQuestion, idx: int)
    requires 0 <= idx < |q.allAnswers| && idx !in q.preFilledIndices
    ensures exists k :: 0 <= k < |CorrectButtons(q)| && CorrectButtons(q)[k].answerIndex == idx
  {
    var remaining := RemainingIndices(|q.allAnswers|, q.preFilledIndices);
    RemainingIndicesComplete(|q.allAnswers|, q.preFilledIndices, idx);
    var k :| 0 <= k < |remaining| && remaining[k] == idx;
    assert CorrectButtons(q)[k].answerIndex == idx;
  }

  // ---------------------------------------------------------------------
  // Points on the board
  // ---------------------------------------------------------------------

  /** The points of all the answers of a board. */
  function AllPoints(answers: seq<StealAnswer>): int
  {
    if answers == [] then 0 else AllPoints(answers[..|answers| - 1]) + answers[|answers| - 1].points
  }

  /** The points carried by a list of buttons. */
  function ButtonPoints(buttons: seq<OptionButton>): int
  {
    if buttons == [] then 0 else ButtonPoints(buttons[..|buttons| - 1]) + buttons[|buttons| - 1].points
  }

  /** The indices `0 .. n-1` in order. */
  function Range(n: nat): (r: seq<int>)
    ensures |r| == n && forall k :: 0 <= k < n ==> r[k] == k
  {
    if n == 0 then [] else Range(n - 1) + [n - 1]
  }

  lemma {:induction false} SumAtRange(answers: seq<StealAnswer>, n: nat)
    requires n <= |answers|
    ensures SumAt(answers, Range(n)) == AllPoints(answers[..n])
  {
    if n > 0 {
      SumAtRange(answers, n - 1);
      assert Range(n)[..n - 1] == Range(n - 1);
      assert answers[..n][..n - 1] == answers[..n - 1];
    }
  }

  lemma {:induction false} ButtonsForPoints(answers: seq<StealAnswer>, indices: seq<int>)
    requires forall k :: 0 <= k < |indices| ==> 0 <= indices[k] < |answers|
    ensures ButtonPoints(ButtonsFor(answers, indices)) == SumAt(answers, indices)
  {
    if indices != [] {
      var init := indices[..|indices| - 1];
      ButtonsForPoints(answers, init);
      assert ButtonsFor(answers, indices)[..|indices| - 1] == ButtonsFor(answers, init);
    }
  }

  /** Taking out the element at position `i` takes its points out of the sum. */
  lemma SumAtRemove(answers: seq<StealAnswer>, xs: seq<int>, i: nat)
    requires i < |xs|
    ensures SumAt(answers, xs) == SumAt(answers, xs[..i] + xs[i + 1..]) + PointsAt(answers, xs[i])
  {
    assert xs == (xs[..i] + [xs[i]]) + xs[i + 1..];
    SumAtAppend(answers, xs[..i] + [xs[i]], xs[i + 1..]);
    SumAtAppend(answers, xs[..i], xs[i + 1..]);
    assert (xs[..i] + [xs[i]])[..i] == xs[..i];
  }

  /** `RemainingIndices(m, _)` only looks at the values below `m`. */
  lemma {:induction false} RemainingIndicesBelow(m: nat, p: seq<int>, p': seq<int>)
    requires forall v :: 0 <= v < m ==> (v in p <==> v in p')
    ensures RemainingIndices(m, p) == RemainingIndices(m, p')
  {
    if m > 0 {
      RemainingIndicesBelow(m - 1, p, p');
    }
  }

  /** Removing the one occurrence of `n - 1` from distinct indices below `n` leaves distinct indices below `n - 1` and the same remaining answers. */
  lemma RemoveAtKeepsOthers(p: seq<int>, i: nat, n: nat) returns (rest: seq<int>)
    requires Distinct(p) && i < |p| && p[i] == n - 1
    requires forall k :: 0 <= k < |p| ==> 0 <= p[k] < n
    ensures rest == p[..i] + p[i + 1..]
    ensures Distinct(rest)
    ensures forall k :: 0 <= k < |rest| ==> 0 <= rest[k] < n - 1
    ensures RemainingIndices(n - 1, rest) == RemainingIndices(n - 1, p)
  {
    rest := p[..i] + p[i + 1..];
    assert forall k :: 0 <= k < |rest| ==> rest[k] == (if k < i then p[k] else p[k + 1]);
    forall v | 0 <= v < n - 1 && v in p
      ensures v in rest
    {
      var j :| 0 <= j < |p| && p[j] == v;
      assert rest[if j < i then j else j - 1] == v;
    }
    RemainingIndicesBelow(n - 1, p, rest);
  }

  /** The pre-filled points plus the points of the answers below `n` left to find are the points of all answers below `n`. */
  ghost predicate Splits(answers: seq<StealAnswer>, preFilled: seq<int>, n: nat)
  {
    SumAt(answers, preFilled) + SumAt(answers, RemainingIndices(n, preFilled)) == SumAt(answers, Range(n))
  }

  /** The step of `BoardSplitUpTo` when `n - 1` was pre-filled, given the split for the other indices `rest`. */
  lemma SplitStepPreFilled(answers: seq<StealAnswer>, preFilled: seq<int>, rest: seq<int>, n: nat)
    requires n > 0 && n - 1 in preFilled
    requires RemainingIndices(n - 1, rest) == RemainingIndices(n - 1, preFilled)
    requires SumAt(answers, preFilled) == SumAt(answers, rest) + PointsAt(answers, n - 1)
    requires Splits(answers, rest, n - 1)
    ensures Splits(answers, preFilled, n)
  {
    assert RemainingIndices(n, preFilled) == RemainingIndices(n - 1, preFilled);
    RangeStep(answers, n);
  }

  lemma RangeStep(answers: seq<StealAnswer>, n: nat)
    requires n > 0
    ensures SumAt(answers, Range(n)) == SumAt(answers, Range(n - 1)) + PointsAt(answers, n - 1)
  {
    assert Range(n)[..n - 1] == Range(n - 1);
  }

  /** The step of `BoardSplitUpTo` when `n - 1` is still to be found. */
  lemma SplitStepRemaining(answers: seq<StealAnswer>, preFilled: seq<int>, n: nat)
    requires n > 0 && n - 1 !in preFilled
    requires Splits(answers, preFilled, n - 1)
    ensures Splits(answers, preFilled, n)
  {
    var r := RemainingIndices(n, preFilled);
    assert r == RemainingIndices(n - 1, preFilled) + [n - 1];
    assert r[..|r| - 1] == RemainingIndices(n - 1, preFilled);
    RangeStep(answers, n);
  }

  /** Distinct indices, all below `n`. */
  ghost predicate DistinctBelow(p: seq<int>, n: int)
  {
    Distinct(p) && forall k :: 0 <= k < |p| ==> 0 <= p[k] < n
  }

  lemma {:induction false} BoardSplitUpTo(answers: seq<StealAnswer>, preFilled: seq<int>, n: nat)
    requires Distinct(preFilled)
    requires forall k :: 0 <= k < |preFilled| ==> 0 <= preFilled[k] < n
    ensures Splits(answers, preFilled, n)
    decreases n, 1
  {
    if n == 0 {
      DistinctIndicesBounded(preFilled, 0);
      assert preFilled == [];
    } else if n - 1 in preFilled {
      BoardSplitPreFilled(answers, preFilled, n);
    } else {
      BoardSplitUpTo(answers, preFilled, n - 1);
      SplitStepRemaining(answers, preFilled, n);
    }
  }

  /** `BoardSplitUpTo` when the last answer `n - 1` was pre-filled. */
  lemma {:induction false} BoardSplitPreFilled(answers: seq<StealAnswer>, preFilled: seq<int>, n: nat)
    requires n > 0 && n - 1 in preFilled && DistinctBelow(preFilled, n)
    ensures Splits(answers, preFilled, n)
    decreases n, 0
  {
    var rest := TakeOutLast(answers, preFilled, n);
    BoardSplitUpTo(answers, rest, n - 1);
    SplitStepPreFilled(answers, preFilled, rest, n);
  }

  /** The first position of `v` in `s`. */
  function IndexOf(s: seq<int>, v: int): (i: nat)
    requires v in s
    ensures i < |s| && s[i] == v
  {
    if s[0] == v then 0 else 1 + IndexOf(s[1..], v)
  }

  /** Taking the pre-filled index `n - 1` out of `p`: what is left, and what that does to the sums. */
  lemma TakeOutLast(answers: seq<StealAnswer>, p: seq<int>, n: nat) returns (rest: seq<int>)
    requires n > 0 && n - 1 in p && DistinctBelow(p, n)
    ensures DistinctBelow(rest, n - 1)
    ensures RemainingIndices(n - 1, rest) == RemainingIndices(n - 1, p)
    ensures SumAt(answers, p) == SumAt(answers, rest) + PointsAt(answers, n - 1)
  {
    var i := IndexOf(p, n - 1);
    rest := RemoveAtKeepsOthers(p, i, n);
    SumAtRemove(answers, p, i);
  }

  /**
   * When the pre-filled indices are distinct answers of the board, the
   * pre-filled points plus the points on the correct buttons are all the
   * board's points: what the rival did not find is exactly what can be stolen.
   */
  lemma BoardSplit(q: StealQuestion)
    requires Distinct(q.preFilledIndices)
    requires forall k :: 0 <= k < |q.preFilledIndices| ==> 0 <= q.preFilledIndices[k] < |q.allAnswers|
    ensures PreFilledPoints(q) + ButtonPoints(CorrectButtons(q)) == AllPoints(q.allAnswers)
  {
    var n := |q.allAnswers|;
    RemainingIndicesSound(n, q.preFilledIndices);
    BoardSplitUpTo(q.allAnswers, q.preFilledIndices, n);
    ButtonsForPoints(q.allAnswers, RemainingIndices(n, q.preFilledIndices));
    SumAtRange(q.allAnswers, n);
    assert q.allAnswers[..n] == q.allAnswers;
  }

  /** Distractor buttons: wrong, index -1, no points. */
  function DistractorButtons(texts: seq<string>): (buttons: seq<OptionButton>)
    ensures |buttons| == |texts|
    ensures forall k :: 0 <= k < |buttons| ==> buttons[k] == OptionButton(texts[k], false, -1, 0)
  {
    seq(|texts|, k requires 0 <= k < |texts| => OptionButton(texts[k], false, -1, 0))
  }

  /**
   * The initialisation effect's button building: the remaining answers plus
   * `6 - |correct|` shuffled distractors (JavaScript `slice` semantics, so a
   * negative count drops distractors from the back), all shuffled together.
   */
  method BuildOptions(q: StealQuestion, distractorDraws: seq<real>, optionDraws: seq<real>)
    returns (options: seq<OptionButton>, selectedDistractors: seq<string>)
    requires ValidDraws(distractorDraws) && |q.distractors| <= |distractorDraws| + 1
    requires ValidDraws(optionDraws) && |q.allAnswers| + |q.distractors| <= |optionDraws| + 1
    ensures var correct := CorrectButtons(q);
      && |selectedDistractors| == JsSliceEnd(|q.distractors|, OPTION_COUNT - |correct|)
      && multiset(selectedDistractors) <= multiset(q.distractors)
      && multiset(options) == multiset(correct + DistractorButtons(selectedDistractors))
      && |options| == |correct| + |selectedDistractors|
  {
    var correct := CorrectButtons(q);
    var numDistractorsNeeded := OPTION_COUNT - |correct|;
    var shuffledDistractors := ShuffleArray(q.distractors, distractorDraws);
    var end := JsSliceEnd(|shuffledDistractors|, numDistractorsNeeded);
    selectedDistractors := shuffledDistractors[..end];
    assert shuffledDistractors == selectedDistractors + shuffledDistractors[end..];
    var all := correct + DistractorButtons(selectedDistractors);
    options := ShuffleArray(all, optionDraws);
  }

  /** With at most six answers left and enough distractors there are exactly six buttons. */
  lemma SixButtons(q: StealQuestion)
    requires |CorrectButtons(q)| <= OPTION_COUNT
    requires |CorrectButtons(q)| + |q.distractors| >= OPTION_COUNT
    ensures |CorrectButtons(q)| + JsSliceEnd(|q.distractors|, OPTION_COUNT - |CorrectButtons(q)|) == OPTION_COUNT
  {
  }

  /** `getAnswerForSlot`: a slot shows its answer only once the store has revealed it. */
  function GetAnswerForSlot(revealedIndices: seq<int>, answers: seq<StealAnswer>, index: int): (r: Option<StealAnswer>)
    ensures r.Some? <==> index in revealedIndices && 0 <= index < |answers|
    ensures r.Some? ==> r.value == answers[index]
  {
    if index !in revealedIndices then None
    else if 0 <= index < |answers| then Some(answers[index])
    else None
  }

  // ---------------------------------------------------------------------
  // The round
  // ---------------------------------------------------------------------

  /** Calls the screen makes into the store's steal functions. */
  datatype StealCall =
    | StartStealRound(preFilledIndices: seq<int>, preFilledPoints: int)
    | RecordStealAnswer(isCorrect: bool, points: int, answerIndex: int)
    | FinishStealRound

  /** Everything a survey-steal screen holds besides its constants. */
  datatype StealView = StealView(
    shuffledOptions: seq<OptionButton>, timeRemaining: int, isGameOver: bool, isGameStarted: bool,
    coinsEarned: int, disabledOptions: set<int>, flashingOption: Option<int>, showFailure: bool,
    isWin: bool, failurePending: bool, pendingWinTimers: nat, storeCalls: seq<StealCall>, picked: seq<int>)

  /** The picks are distinct buttons, exactly the disabled ones, and all but the last were correct. */
  ghost predicate PicksOk(picked: seq<int>, disabled: set<int>, options: seq<OptionButton>)
  {
    && Distinct(picked)
    && (forall k :: 0 <= k < |picked| ==> 0 <= picked[k] < |options|)
    && disabled == Elements(picked)
    && (forall k :: 0 <= k < |picked| - 1 ==> options[picked[k]].isCorrect)
  }

  /** A fresh button may be picked after a correct one (or as the first pick). */
  lemma PicksOkAppend(picked: seq<int>, disabled: set<int>, options: seq<OptionButton>, i: int)
    requires PicksOk(picked, disabled, options)
    requires 0 <= i < |options| && i !in disabled
    requires |picked| > 0 ==> options[picked[|picked| - 1]].isCorrect
    ensures PicksOk(picked + [i], disabled + {i}, options)
  {
    var p := picked + [i];
    assert forall k :: 0 <= k < |picked| ==> p[k] == picked[k];
    ElementsAppend(picked, i);
  }

  class SurveyStealRound {
    const question: StealQuestion
    /** The distractor texts the constructor drew for the buttons. */
    ghost const shownDistractors: seq<string>
    var shuffledOptions: seq<OptionButton>
    var timeRemaining: int
    var isGameOver: bool
    var isGameStarted: bool
    var coinsEarned: int
    var disabledOptions: set<int>
    var flashingOption: Option<int>
    var showFailure: bool
    var isWin: bool
    /** The 400 ms timer after a wrong pick, which clears the flash and fails the round. */
    var failurePending: bool
    /** The 300 ms timers scheduled by the "board full" effect, not yet fired. */
    var pendingWinTimers: nat
    var storeCalls: seq<StealCall>
    ghost var picked: seq<int>

    ghost predicate PicksValid()
      reads this`picked, this`shuffledOptions, this`disabledOptions
    {
      PicksOk(picked, disabledOptions, shuffledOptions)
    }

    ghost predicate Valid()
      reads this
    {
      && PicksValid()
      && |storeCalls| >= 1
      && storeCalls[0] == StartStealRound(question.preFilledIndices, PreFilledPoints(question))
      && (showFailure ==> isGameOver)
      && (failurePending ==> flashingOption.Some?)
      && (|picked| > 0 && !shuffledOptions[picked[|picked| - 1]].isCorrect ==> flashingOption.Some? || isGameOver)
    }

    ghost function View(): StealView
      reads this
    {
      StealView(shuffledOptions, timeRemaining, isGameOver, isGameStarted, coinsEarned, disabledOptions,
        flashingOption, showFailure, isWin, failurePending, pendingWinTimers, storeCalls, picked)
    }

    /** Mounting: start the store's round with the pre-filled points and build the buttons. */
    constructor (question: StealQuestion, timeSeconds: int, distractorDraws: seq<real>, optionDraws: seq<real>)
      requires ValidDraws(distractorDraws) && |question.distractors| <= |distractorDraws| + 1
      requires ValidDraws(optionDraws) && |question.allAnswers| + |question.distractors| <= |optionDraws| + 1
      ensures Valid() && this.question == question
      ensures storeCalls == [StartStealRound(question.preFilledIndices, PreFilledPoints(question))]
      ensures |shownDistractors| == JsSliceEnd(|question.distractors|, OPTION_COUNT - |CorrectButtons(question)|)
      ensures multiset(shownDistractors) <= multiset(question.distractors)
      ensures multiset(shuffledOptions) == multiset(CorrectButtons(question) + DistractorButtons(shownDistractors))
      ensures |shuffledOptions| == |CorrectButtons(question)| + |shownDistractors|
      ensures isGameStarted && !isGameOver && !isWin && !showFailure && coinsEarned == 0
      ensures timeRemaining == timeSeconds && disabledOptions == {} && flashingOption == None
      ensures !failurePending && pendingWinTimers == 0 && picked == []
    {
      var options, selected := BuildOptions(question, distractorDraws, optionDraws);
      this.question := question;
      shownDistractors := selected;
      storeCalls := [StartStealRound(question.preFilledIndices, PreFilledPoints(question))];
      timeRemaining := timeSeconds;
      isGameOver := false;
      isGameStarted := false;
      coinsEarned := 0;
      disabledOptions := {};
      flashingOption := None;
      showFailure := false;
      isWin := false;
      failurePending := false;
      pendingWinTimers := 0;
      picked := [];
      shuffledOptions := options;
      isGameStarted := true;
    }

    /** Tapping option button `optionIndex`: a correct pick fills its slot, a wrong one flashes and fails. */
    method HandleOptionSelect(optionIndex: int)
      requires Valid()
      modifies this
      ensures Valid()
      ensures (old(isGameOver) || optionIndex in old(disabledOptions) || old(flashingOption).Some? ||
        !(0 <= optionIndex < |old(shuffledOptions)|)) ==> unchanged(this)
      ensures var accepted := !old(isGameOver) && optionIndex !in old(disabledOptions) &&
          old(flashingOption).None? && 0 <= optionIndex < |old(shuffledOptions)|;
        && (accepted && old(shuffledOptions)[optionIndex].isCorrect ==>
          View() == old(View()).(
            disabledOptions := old(disabledOptions) + {optionIndex},
            picked := old(picked) + [optionIndex],
            storeCalls := old(storeCalls) + [RecordStealAnswer(true,
              old(shuffledOptions)[optionIndex].points, old(shuffledOptions)[optionIndex].answerIndex)]))
        && (accepted && !old(shuffledOptions)[optionIndex].isCorrect ==>
          View() == old(View()).(
            disabledOptions := old(disabledOptions) + {optionIndex},
            picked := old(picked) + [optionIndex],
            storeCalls := old(storeCalls) + [RecordStealAnswer(false, 0, -1)],
            flashingOption := Some(optionIndex), failurePending := true))
    {
      if isGameOver || optionIndex in disabledOptions || flashingOption.Some? {
        return;
      }
      if !(0 <= optionIndex < |shuffledOptions|) {
        return;
      }
      if shuffledOptions[optionIndex].isCorrect {
        AcceptCorrect(optionIndex);
      } else {
        AcceptWrong(optionIndex);
      }
    }

    /** A correct pick: disable the button and reveal its slot through the store. */
    method AcceptCorrect(optionIndex: int)
      requires Valid() && !isGameOver && optionIndex !in disabledOptions && flashingOption.None?
      requires 0 <= optionIndex < |shuffledOptions| && shuffledOptions[optionIndex].isCorrect
      modifies this
      ensures Valid()
      ensures View() == old(View()).(
        disabledOptions := old(disabledOptions) + {optionIndex},
        picked := old(picked) + [optionIndex],
        storeCalls := old(storeCalls) + [RecordStealAnswer(true,
          old(shuffledOptions)[optionIndex].points, old(shuffledOptions)[optionIndex].answerIndex)])
    {
      var selectedOption := shuffledOptions[optionIndex];
      PicksOkAppend(picked, disabledOptions, shuffledOptions, optionIndex);
      disabledOptions := disabledOptions + {optionIndex};
      picked := picked + [optionIndex];
      storeCalls := storeCalls + [RecordStealAnswer(true, selectedOption.points, selectedOption.answerIndex)];
    }

    /** A wrong pick: disable the button, flash it, record the miss and start the failure timer. */
    method AcceptWrong(optionIndex: int)
      requires Valid() && !isGameOver && optionIndex !in disabledOptions && flashingOption.None?
      requires 0 <= optionIndex < |shuffledOptions| && !shuffledOptions[optionIndex].isCorrect
      modifies this
      ensures Valid()
      ensures View() == old(View()).(
        disabledOptions := old(disabledOptions) + {optionIndex},
        picked := old(picked) + [optionIndex],
        storeCalls := old(storeCalls) + [RecordStealAnswer(false, 0, -1)],
        flashingOption := Some(optionIndex), failurePending := true)
    {
      PicksOkAppend(picked, disabledOptions, shuffledOptions, optionIndex);
      disabledOptions := disabledOptions + {optionIndex};
      picked := picked + [optionIndex];
      flashingOption := Some(optionIndex);
      storeCalls := storeCalls + [RecordStealAnswer(false, 0, -1)];
      failurePending := true;
    }

    /** `handleFailure`: lose with 0 coins, without calling `finishStealRound`. */
    method HandleFailure()
      requires Valid()
      modifies this
      ensures Valid()
      ensures View() == old(View()).(showFailure := true, isGameOver := true, coinsEarned := 0)
    {
      showFailure := true;
      isGameOver := true;
      coinsEarned := 0;
    }

    /**
     * The timer after a wrong pick fires: clear the flash and fail. Both
     * updates land in the same render, so the flash is cleared after the loss.
     */
    method FailureTimeout()
      requires Valid()
      modifies this
      ensures Valid() && !failurePending
      ensures !old(failurePending) ==> unchanged(this)
      ensures old(failurePending) ==>
        View() == old(View()).(flashingOption := None, failurePending := false,
          showFailure := true, isGameOver := true, coinsEarned := 0)
    {
      if failurePending {
        failurePending := false;
        HandleFailure();
        flashingOption := None;
      }
    }

    /** One tick of the countdown; running out of time is `handleTimeUp`, a loss with 0 coins. */
    method TimerTick()
      requires Valid()
      modifies this
      ensures Valid()
      ensures (!old(isGameStarted) || old(isGameOver)) ==> unchanged(this)
      ensures old(isGameStarted) && !old(isGameOver) && old(timeRemaining) > 1 ==>
        View() == old(View()).(timeRemaining := old(timeRemaining) - 1)
      ensures old(isGameStarted) && !old(isGameOver) && old(timeRemaining) <= 1 ==>
        View() == old(View()).(timeRemaining := 0, showFailure := true, isGameOver := true, coinsEarned := 0)
    {
      if !isGameStarted || isGameOver {
        return;
      }
      if timeRemaining <= 1 {
        timeRemaining := 0;
        HandleFailure();
      } else {
        timeRemaining := timeRemaining - 1;
      }
    }

    /** The hardware back button loses a running round. */
    method BackPressed()
      requires Valid()
      modifies this
      ensures Valid() && isGameOver
      ensures old(isGameOver) ==> unchanged(this)
      ensures !old(isGameOver) ==> View() == old(View()).(showFailure := true, isGameOver := true, coinsEarned := 0)
    {
      if !isGameOver {
        HandleFailure();
      }
    }

    /** The "board full" effect: with five revealed slots in a running round, schedule the win. */
    method StoreChanged(revealedIndices: seq<int>)
      requires Valid()
      modifies this
      ensures Valid()
      ensures View() == old(View()).(pendingWinTimers := old(pendingWinTimers) +
        (if old(isGameStarted) && |revealedIndices| == BOARD_SIZE && !old(isGameOver) then 1 else 0))
    {
      if isGameStarted && |revealedIndices| == BOARD_SIZE && !isGameOver {
        pendingWinTimers := pendingWinTimers + 1;
      }
    }

    /** A scheduled win fires: `handleWin` pays what `finishStealRound` returns (`earned`). */
    method WinTimeout(earned: int)
      requires Valid()
      modifies this
      ensures Valid()
      ensures old(pendingWinTimers) == 0 ==> unchanged(this)
      ensures old(pendingWinTimers) > 0 ==>
        View() == old(View()).(pendingWinTimers := old(pendingWinTimers) - 1,
          storeCalls := old(storeCalls) + [FinishStealRound], coinsEarned := earned, isWin := true, isGameOver := true)
    {
      if pendingWinTimers > 0 {
        pendingWinTimers := pendingWinTimers - 1;
        storeCalls := storeCalls + [FinishStealRound];
        coinsEarned := earned;
        isWin := true;
        isGameOver := true;
      }
    }

    /**
     * Accepted picks never outnumber the buttons, and every pick but the
     * last was correct: a wrong pick flashes until the round is lost, and
     * nothing is accepted while an option flashes or after the round ends.
     */
    lemma PicksBounded()
      requires Valid()
      ensures |picked| <= |shuffledOptions|
      ensures forall k :: 0 <= k < |picked| - 1 ==> shuffledOptions[picked[k]].isCorrect
    {
      DistinctIndicesBounded(picked, |shuffledOptions|);
    }
  }
}
