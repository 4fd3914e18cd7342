/**
 * The destroy screen: a two-answer trivia gate, then a choice of one of three
 * face-down cards hiding a room's objects, paid with a random reward between
 * the store's bounds. A wrong gate answer pays the consolation prize instead.
 * The store's `finishDestroyRound` is not part of this model: its calls are
 * logged and its reply is a parameter; the three destroy constants are
 * fields of the round.
 */
module Destroy {
  import opened Common
  import opened Shuffle

  datatype PoolOption = PoolOption(text: string, isCorrect: bool, points: int)
  datatype PoolQuestion = PoolQuestion(questionText: string, options: seq<PoolOption>)
  datatype RoomObject = RoomObject(name: string, emoji: string)
  datatype Room = Room(id: int, ownerName: string, objects: seq<RoomObject>)

  /** The gate's question with one correct and one wrong answer text. */
  datatype TriviaGate = TriviaGate(question: string, correctAnswer: string, wrongAnswer: string)

  /** A gate button: its text and whether it is the correct one. */
  datatype GateAnswer = GateAnswer(text: string, isCorrect: bool)

  /** Three face-down cards are offered. */
  const CARD_COUNT: int := 3
  const REVEAL_DELAY_MS: int := 500

  /** A draw of `Math.random()`. */
  predicate IsDraw(u: real)
  {
    0.0 <= u < 1.0
  }

  /** `Math.floor(u * n)`: a uniform index below `n`. */
  function DrawIndex(u: real, n: nat): (i: int)
    requires IsDraw(u)
    ensures n > 0 ==> 0 <= i < n
    ensures n == 0 ==> i == 0
  {
    FloorBelow(u, n);
    (u * n as real).Floor
  }

  lemma FloorBelow(u: real, n: nat)
    requires IsDraw(u)
    ensures n > 0 ==> 0 <= (u * n as real).Floor < n
    ensures n == 0 ==> (u * n as real).Floor == 0
  {
    if n > 0 {
      assert 0.0 <= u * n as real < n as real;
    }
  }

  // ---------------------------------------------------------------------
  // The trivia gate
  // ---------------------------------------------------------------------

  /** `options.filter((o) => o.is_correct)`. */
  function CorrectOptions(options: seq<PoolOption>): (r: seq<PoolOption>)
    ensures |r| <= |options|
  {
    if options == [] then []
    else (if options[0].isCorrect then [options[0]] else []) + CorrectOptions(options[1..])
  }

  /** `options.filter((o) => !o.is_correct)`. */
  function WrongOptions(options: seq<PoolOption>): (r: seq<PoolOption>)
    ensures |r| <= |options|
  {
    if options == [] then []
    else (if options[0].isCorrect then [] else [options[0]]) + WrongOptions(options[1..])
  }

  /** The filters keep exactly the options of their kind. */
  lemma {:induction false} FiltersExact(options: seq<PoolOption>, o: PoolOption)
    ensures o in CorrectOptions(options) <==> o in options && o.isCorrect
    ensures o in WrongOptions(options) <==> o in options && !o.isCorrect
  {
    if options != [] {
      FiltersExact(options[1..], o);
      assert options == [options[0]] + options[1..];
    }
  }

  /** `candidates[Math.floor(u * candidates.length)]?.text || fallback`. */
  function PickText(candidates: seq<PoolOption>, u: real, fallback: string): (text: string)
    requires IsDraw(u)
  {
    var i := DrawIndex(u, |candidates|);
    if i < |candidates| && candidates[i].text != "" then candidates[i].text else fallback
  }

  /**
   * The pick is the text of one of the candidates, or the fallback exactly
   * when there is no candidate or the drawn one has an empty text.
   */
  lemma PickTextChoice(candidates: seq<PoolOption>, u: real, fallback: string)
    requires IsDraw(u)
    ensures var text := PickText(candidates, u, fallback);
      (exists o :: o in candidates && o.text == text && text != "") ||
      (text == fallback && (candidates == [] || candidates[DrawIndex(u, |candidates|)].text == ""))
  {
    var i := DrawIndex(u, |candidates|);
    if i < |candidates| && candidates[i].text != "" {
      assert candidates[i] in candidates;
    }
  }

  /**
   * `getRandomTriviaQuestion`: a random pool question, a random correct and a
   * random wrong option's text, with "Yes" and "No" standing in for a
   * missing or empty text. The pool must not be empty (an empty pool has no
   * question to read).
   */
  function GetRandomTriviaQuestion(pool: seq<PoolQuestion>, uQuestion: real, uCorrect: real, uWrong: real): (gate: TriviaGate)
    requires |pool| > 0 && IsDraw(uQuestion) && IsDraw(uCorrect) && IsDraw(uWrong)
    ensures gate.correctAnswer != "" && gate.wrongAnswer != ""
    ensures exists q :: q in pool && q.questionText == gate.question
  {
    var question := pool[DrawIndex(uQuestion, |pool|)];
    TriviaGate(question.questionText,
      PickText(CorrectOptions(question.options), uCorrect, "Yes"),
      PickText(WrongOptions(question.options), uWrong, "No"))
  }

  /**
   * The gate's correct answer is the text of a correct option of the drawn
   * question, or "Yes"; its wrong answer the text of a wrong option, or "No".
   */
  lemma GateAnswersFromQuestion(pool: seq<PoolQuestion>, uQuestion: real, uCorrect: real, uWrong: real)
    requires |pool| > 0 && IsDraw(uQuestion) && IsDraw(uCorrect) && IsDraw(uWrong)
    ensures var gate := GetRandomTriviaQuestion(pool, uQuestion, uCorrect, uWrong);
      var question := pool[DrawIndex(uQuestion, |pool|)];
      && gate.question == question.questionText
      && (gate.correctAnswer == "Yes" || exists o :: o in question.options && o.isCorrect && o.text == gate.correctAnswer)
      && (gate.wrongAnswer == "No" || exists o :: o in question.options && !o.isCorrect && o.text == gate.wrongAnswer)
  {
    var question := pool[DrawIndex(uQuestion, |pool|)];
    var correct := CorrectOptions(question.options);
    var wrong := WrongOptions(question.options);
    PickTextChoice(correct, uCorrect, "Yes");
    PickTextChoice(wrong, uWrong, "No");
    var gate := GetRandomTriviaQuestion(pool, uQuestion, uCorrect, uWrong);
    if gate.correctAnswer != "Yes" {
      var o :| o in correct && o.text == gate.correctAnswer;
      FiltersExact(question.options, o);
    }
    if gate.wrongAnswer != "No" {
      var o :| o in wrong && o.text == gate.wrongAnswer;
      FiltersExact(question.options, o);
    }
  }

  /** The two gate buttons, shuffled: one correct, one wrong. */
  method ShuffleGateAnswers(gate: TriviaGate, draw: real) returns (answers: seq<GateAnswer>)
    requires IsDraw(draw)
    ensures multiset(answers) == multiset{GateAnswer(gate.correctAnswer, true), GateAnswer(gate.wrongAnswer, false)}
    ensures |answers| == 2 && answers[0].isCorrect != answers[1].isCorrect
  {
    answers := ShuffleArray([GateAnswer(gate.correctAnswer, true), GateAnswer(gate.wrongAnswer, false)], [draw]);
    assert answers[0] in multiset(answers) && answers[1] in multiset(answers);
    assert answers == [answers[0], answers[1]];
  }

  // ---------------------------------------------------------------------
  // The reward
  // ---------------------------------------------------------------------

  /** `Math.floor(Math.random() * (max - min + 1)) + min`. */
  function RandomReward(u: real, minReward: int, maxReward: int): int
    requires IsDraw(u)
  {
    (u * (maxReward - minReward + 1) as real).Floor + minReward
  }

  /** The reward lies between the bounds, both included. */
  lemma RewardInRange(u: real, minReward: int, maxReward: int)
    requires IsDraw(u) && minReward <= maxReward
    ensures minReward <= RandomReward(u, minReward, maxReward) <= maxReward
  {
    FloorBelow(u, maxReward - minReward + 1);
  }

  /** Every amount between the bounds is paid for some draw. */
  lemma EveryRewardReachable(minReward: int, maxReward: int, k: int)
    requires minReward <= k <= maxReward
    ensures var u := (k - minReward) as real / (maxReward - minReward + 1) as real;
      IsDraw(u) && RandomReward(u, minReward, maxReward) == k
  {
    var width := (maxReward - minReward + 1) as real;
    var u := (k - minReward) as real / width;
    assert u * width == (k - minReward) as real;
  }

  // ---------------------------------------------------------------------
  // The round
  // ---------------------------------------------------------------------

  datatype Phase = TriviaPhase | Blocked | Cards | Revealed

  /** The order the phases go in: the gate, then blocked or the cards, then the reveal. */
  function PhaseRank(p: Phase): nat
  {
    match p
    case TriviaPhase => 0
    case Cards => 1
    case Blocked => 2
    case Revealed => 2
  }

  /** A call of the store's `finishDestroyRound` with the amount offered. */
  datatype DestroyCall = StartDestroyRound | FinishDestroyRound(amount: int)

  class DestroyRound {
    /** `DESTROY_CONSOLATION_PRIZE`, `DESTROY_MIN_REWARD` and `DESTROY_MAX_REWARD`. */
    const consolationPrize: int
    const minReward: int
    const maxReward: int
    const gate: TriviaGate
    const shuffledAnswers: seq<GateAnswer>
    const room: Room
    var phase: Phase
    var selectedCardIndex: Option<nat>
    var revealedObject: Option<RoomObject>
    var coinsEarned: int
    /** The 500 ms timer after a card is picked, not yet fired. */
    var revealPending: bool
    var storeCalls: seq<DestroyCall>

    ghost predicate Valid()
      reads this
    {
      && |shuffledAnswers| == 2 && shuffledAnswers[0].isCorrect != shuffledAnswers[1].isCorrect
      && |storeCalls| >= 1 && storeCalls[0] == StartDestroyRound
      && (phase == TriviaPhase ==> storeCalls == [StartDestroyRound] && selectedCardIndex.None?)
      && (phase == Blocked ==> storeCalls == [StartDestroyRound, FinishDestroyRound(consolationPrize)])
      && (phase == Cards && selectedCardIndex.None? ==> storeCalls == [StartDestroyRound])
      && (selectedCardIndex.Some? ==>
        && selectedCardIndex.value < CARD_COUNT
        && |storeCalls| == 2 && storeCalls[1].FinishDestroyRound?
        && minReward <= storeCalls[1].amount <= maxReward)
      && (revealPending ==> phase == Cards && selectedCardIndex.Some?)
      && (phase == Revealed ==> selectedCardIndex.Some?)
      && (phase == Cards ==> (revealPending <==> selectedCardIndex.Some?))
    }

    /** Mounting: draw the gate and the room and start the store's round. */
    constructor (consolationPrize: int, minReward: int, maxReward: int,
                 pool: seq<PoolQuestion>, rooms: seq<Room>,
                 uQuestion: real, uCorrect: real, uWrong: real, uShuffle: real, uRoom: real)
      requires |pool| > 0 && |rooms| > 0
      requires IsDraw(uQuestion) && IsDraw(uCorrect) && IsDraw(uWrong) && IsDraw(uShuffle) && IsDraw(uRoom)
      ensures Valid()
      ensures this.consolationPrize == consolationPrize && this.minReward == minReward && this.maxReward == maxReward
      ensures gate == GetRandomTriviaQuestion(pool, uQuestion, uCorrect, uWrong)
      ensures multiset(shuffledAnswers) == multiset{GateAnswer(gate.correctAnswer, true), GateAnswer(gate.wrongAnswer, false)}
      ensures room == rooms[DrawIndex(uRoom, |rooms|)]
      ensures phase == TriviaPhase && selectedCardIndex == None && revealedObject == None
      ensures coinsEarned == 0 && !revealPending && storeCalls == [StartDestroyRound]
    {
      var g := GetRandomTriviaQuestion(pool, uQuestion, uCorrect, uWrong);
      var answers := ShuffleGateAnswers(g, uShuffle);
      this.consolationPrize := consolationPrize;
      this.minReward := minReward;
      this.maxReward := maxReward;
      gate := g;
      shuffledAnswers := answers;
      room := rooms[DrawIndex(uRoom, |rooms|)];
      phase := TriviaPhase;
      selectedCardIndex := None;
      revealedObject := None;
      coinsEarned := 0;
      revealPending := false;
      storeCalls := [StartDestroyRound];
    }

    /**
     * `handleTriviaAnswer` for gate button `index`: the correct answer opens
     * the cards; the wrong one pays the consolation prize and blocks.
     */
    method HandleTriviaAnswer(index: int, consolation: int)
      requires Valid() && phase == TriviaPhase && 0 <= index < 2
      modifies this
      ensures Valid()
      ensures shuffledAnswers[index].isCorrect ==> phase == Cards && storeCalls == old(storeCalls) && coinsEarned == old(coinsEarned)
      ensures !shuffledAnswers[index].isCorrect ==>
        && phase == Blocked && coinsEarned == consolation
        && storeCalls == old(storeCalls) + [FinishDestroyRound(consolationPrize)]
      ensures selectedCardIndex == old(selectedCardIndex) && revealedObject == old(revealedObject)
      ensures revealPending == old(revealPending)
      ensures PhaseRank(old(phase)) < PhaseRank(phase)
    {
      if shuffledAnswers[index].isCorrect {
        phase := Cards;
      } else {
        storeCalls := storeCalls + [FinishDestroyRound(consolationPrize)];
        coinsEarned := consolation;
        phase := Blocked;
      }
    }

    /**
     * `handleCardSelect`: the first card picked reveals the room's object at
     * that position (if any), pays a random reward and schedules the reveal.
     * `earned` is the store's reply to `finishDestroyRound`.
     */
    method HandleCardSelect(cardIndex: int, u: real, earned: int)
      requires Valid() && phase == Cards && 0 <= cardIndex < CARD_COUNT && IsDraw(u) && minReward <= maxReward
      modifies this
      ensures Valid()
      ensures old(selectedCardIndex).Some? ==> unchanged(this)
      ensures old(selectedCardIndex).None? ==>
        && selectedCardIndex == Some(cardIndex)
        && revealedObject == (if cardIndex < |room.objects| then Some(room.objects[cardIndex]) else None)
        && storeCalls == old(storeCalls) + [FinishDestroyRound(RandomReward(u, minReward, maxReward))]
        && coinsEarned == earned && revealPending && phase == Cards
    {
      if selectedCardIndex.Some? {
        return;
      }
      selectedCardIndex := Some(cardIndex);
      revealedObject := if cardIndex < |room.objects| then Some(room.objects[cardIndex]) else None;
      var reward := (u * (maxReward - minReward + 1) as real).Floor + minReward;
      RewardInRange(u, minReward, maxReward);
      storeCalls := storeCalls + [FinishDestroyRound(reward)];
      coinsEarned := earned;
      revealPending := true;
    }

    /** The 500 ms timer after the pick: show the revealed card. */
    method RevealTimeout()
      requires Valid()
      modifies this
      ensures Valid()
      ensures !old(revealPending) ==> unchanged(this)
      ensures old(revealPending) ==>
        && phase == Revealed && !revealPending && storeCalls == old(storeCalls)
        && selectedCardIndex == old(selectedCardIndex) && coinsEarned == old(coinsEarned)
        && revealedObject == old(revealedObject)
      ensures PhaseRank(old(phase)) <= PhaseRank(phase)
    {
      if revealPending {
        revealPending := false;
        phase := Revealed;
      }
    }

    /** The hardware back button is swallowed on the gate and while the cards show. */
    method BackPressed() returns (blocked: bool)
      ensures blocked <==> phase == TriviaPhase || phase == Cards
    {
      blocked := phase == TriviaPhase || phase == Cards;
    }

    /**
     * Whatever happens, the store's round is finished at most once, with the
     * consolation prize when blocked and with an amount between the bounds
     * when a card was picked.
     */
    lemma FinishedAtMostOnce()
      requires Valid()
      ensures |storeCalls| <= 2
      ensures phase == Blocked ==> storeCalls[1] == FinishDestroyRound(consolationPrize)
      ensures phase == Revealed ==> storeCalls[1].FinishDestroyRound? && minReward <= storeCalls[1].amount <= maxReward
    {
    }
  }
}
