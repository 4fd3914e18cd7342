/**
 * The "survey says" screen: the correct answers ranked by points, the
 * option buttons, and the handler that reports each pick to the store.
 * The store's survey functions are not part of this model; the screen's
 * calls to them are logged as `SurveyCall` events and their replies
 * (whether a bonus was granted, the coins earned, the store's revealed
 * ranks and strikes) arrive as parameters.
 */
module SurveySays {
  import opened Common
  import opened Shuffle

  datatype SurveyOption = SurveyOption(text: string, isCorrect: bool, points: int)
  datatype RankedOption = RankedOption(option: SurveyOption, rank: int)

  // ---------------------------------------------------------------------
  // Ranking the correct answers
  // ---------------------------------------------------------------------

  /** `options.filter(opt => opt.is_correct)`. */
  function CorrectOptions(options: seq<SurveyOption>): (r: seq<SurveyOption>)
    ensures forall k :: 0 <= k < |r| ==> r[k].isCorrect
  {
    if options == [] then []
    else
      var last := options[|options| - 1];
      CorrectOptions(options[..|options| - 1]) + (if last.isCorrect then [last] else [])
  }

  /** The filter keeps every correct option as often as it occurs, and nothing else. */
  lemma {:induction false} CorrectOptionsCount(options: seq<SurveyOption>, o: SurveyOption)
    ensures multiset(CorrectOptions(options))[o] == if o.isCorrect then multiset(options)[o] else 0
  {
    if options != [] {
      var init := options[..|options| - 1];
      var last := options[|options| - 1];
      assert options == init + [last];
      CorrectOptionsCount(init, o);
    }
  }

  ghost predicate NonIncreasingPoints(s: seq<SurveyOption>)
  {
    forall i, j :: 0 <= i < j < |s| ==> s[i].points >= s[j].points
  }

  /** Insert `x` after every item with at least as many points (so equal items keep their order). */
  function InsertByPoints(x: SurveyOption, s: seq<SurveyOption>): (r: seq<SurveyOption>)
    ensures multiset(r) == multiset(s) + multiset{x}
  {
    if s == [] then [x]
    else if s[0].points >= x.points then
      assert s == [s[0]] + s[1..];
      [s[0]] + InsertByPoints(x, s[1..])
    else [x] + s
  }

  /** Inserting an item no heavier than `b` into items no heavier than `b` keeps them all at most `b`. */
  lemma {:induction false} InsertBounded(x: SurveyOption, s: seq<SurveyOption>, b: int)
    requires x.points <= b
    requires forall k :: 0 <= k < |s| ==> s[k].points <= b
    ensures forall k :: 0 <= k < |InsertByPoints(x, s)| ==> InsertByPoints(x, s)[k].points <= b
  {
    if s != [] && s[0].points >= x.points {
      InsertBounded(x, s[1..], b);
    }
  }

  lemma {:induction false} InsertKeepsOrder(x: SurveyOption, s: seq<SurveyOption>)
    requires NonIncreasingPoints(s)
    ensures NonIncreasingPoints(InsertByPoints(x, s))
  {
    if s != [] && s[0].points >= x.points {
      var tail := s[1..];
      InsertKeepsOrder(x, tail);
      InsertBounded(x, tail, s[0].points);
      assert InsertByPoints(x, s) == [s[0]] + InsertByPoints(x, tail);
    }
  }

  /** `.sort((a, b) => b.points - a.points)`, a stable sort by points, highest first. */
  function SortByPoints(s: seq<SurveyOption>): (r: seq<SurveyOption>)
    ensures multiset(r) == multiset(s)
  {
    if s == [] then []
    else
      assert s == s[..|s| - 1] + [s[|s| - 1]];
      InsertByPoints(s[|s| - 1], SortByPoints(s[..|s| - 1]))
  }

  lemma {:induction false} SortIsOrdered(s: seq<SurveyOption>)
    ensures NonIncreasingPoints(SortByPoints(s))
  {
    if s != [] {
      SortIsOrdered(s[..|s| - 1]);
      InsertKeepsOrder(s[|s| - 1], SortByPoints(s[..|s| - 1]));
    }
  }

  /** A permutation of correct options holds only correct options. */
  lemma AllCorrectAfterPermutation(s: seq<SurveyOption>, t: seq<SurveyOption>)
    requires multiset(s) == multiset(t)
    requires forall k :: 0 <= k < |t| ==> t[k].isCorrect
    ensures forall k :: 0 <= k < |s| ==> s[k].isCorrect
  {
    forall k | 0 <= k < |s|
      ensures s[k].isCorrect
    {
      assert s[k] in multiset(t);
      var m :| 0 <= m < |t| && t[m] == s[k];
    }
  }

  /** The options of a ranked list, in rank order. */
  function OptionsOf(ranked: seq<RankedOption>): (r: seq<SurveyOption>)
    ensures |r| == |ranked| && forall k :: 0 <= k < |r| ==> r[k] == ranked[k].option
  {
    seq(|ranked|, k requires 0 <= k < |ranked| => ranked[k].option)
  }

  /**
   * `rankedCorrectOptions`: exactly the correct options, highest points
   * first, with rank = position + 1.
   */
  function RankedCorrectOptions(options: seq<SurveyOption>): (ranked: seq<RankedOption>)
    ensures multiset(OptionsOf(ranked)) == multiset(CorrectOptions(options))
    ensures NonIncreasingPoints(OptionsOf(ranked))
    ensures forall k :: 0 <= k < |ranked| ==> ranked[k].rank == k + 1 && ranked[k].option.isCorrect
  {
    var correct := CorrectOptions(options);
    var sorted := SortByPoints(correct);
    SortIsOrdered(correct);
    AllCorrectAfterPermutation(sorted, correct);
    var ranked := seq(|sorted|, k requires 0 <= k < |sorted| => RankedOption(sorted[k], k + 1));
    assert OptionsOf(ranked) == sorted;
    assert multiset(OptionsOf(ranked)) == multiset(correct);
    assert NonIncreasingPoints(OptionsOf(ranked));
    ranked
  }

  /** Ranks are the positions 1..n, as `RankedCorrectOptions` produces them. */
  ghost predicate RanksArePositions(ranked: seq<RankedOption>)
  {
    forall k :: 0 <= k < |ranked| ==> ranked[k].rank == k + 1
  }

  /** The rank a correct pick reports: `rankedCorrectOptions.find(opt => opt.text === text)?.rank || 1`. */
  function RankForPick(ranked: seq<RankedOption>, text: string): (rank: int)
    ensures (forall k :: 0 <= k < |ranked| ==> ranked[k].option.text != text) ==> rank == 1
    ensures forall k :: (0 <= k < |ranked| && ranked[k].option.text == text && ranked[k].rank != 0 &&
      (forall m :: 0 <= m < k ==> ranked[m].option.text != text)) ==> rank == ranked[k].rank
    ensures RanksArePositions(ranked) ==> 1 <= rank <= Max1(|ranked|)
  {
    match FirstIndex(ranked, (o: RankedOption) => o.option.text == text)
    case None => 1
    case Some(i) => if ranked[i].rank != 0 then ranked[i].rank else 1
  }

  function Max1(n: nat): nat
  {
    if n == 0 then 1 else n
  }

  /** `getRevealedAnswer`: the answer of a rank, shown only once the store has revealed that rank. */
  function GetRevealedAnswer(revealedRanks: seq<int>, ranked: seq<RankedOption>, rank: int): (r: Option<SurveyOption>)
    ensures r.Some? ==> rank in revealedRanks
    ensures r.Some? ==> exists k :: 0 <= k < |ranked| && ranked[k].rank == rank && r.value == ranked[k].option
    ensures RanksArePositions(ranked) && rank in revealedRanks && 1 <= rank <= |ranked| ==>
      r == Some(ranked[rank - 1].option)
  {
    if rank !in revealedRanks then None
    else match FirstIndex(ranked, (o: RankedOption) => o.rank == rank)
      case None => None
      case Some(i) => Some(ranked[i].option)
  }

  // ---------------------------------------------------------------------
  // The round
  // ---------------------------------------------------------------------

  /** Calls the screen makes into the store's survey functions. */
  datatype SurveyCall =
    | StartSurveyRound
    | RecordSurveyAnswer(isCorrect: bool, points: int, rank: int, isFirstTryBonusEligible: bool)
    | FinishSurveyRound

  /** The number of ranks on the board. */
  const BOARD_SIZE: int := 5

  /** Everything a survey-says screen holds besides its constants. */
  datatype SaysView = SaysView(
    shuffledOptions: seq<SurveyOption>, timeRemaining: int, isGameOver: bool, coinsEarned: int,
    disabledOptions: set<int>, flashingOption: Option<int>, showBonus: bool,
    storeCalls: seq<SurveyCall>, pendingEndTimers: nat, picked: seq<int>)

  class SurveySaysRound {
    /** `SURVEY_MAX_STRIKES`, whose value is not part of this model. */
    const maxStrikes: int
    const ranked: seq<RankedOption>
    var shuffledOptions: seq<SurveyOption>
    var timeRemaining: int
    var isGameOver: bool
    var coinsEarned: int
    var disabledOptions: set<int>
    var flashingOption: Option<int>
    var showBonus: bool
    var storeCalls: seq<SurveyCall>
    /** The 500 ms end-of-game timers scheduled by the store-watching effects, not yet fired. */
    var pendingEndTimers: nat
    /** The option indices accepted so far, in order. */
    ghost var picked: seq<int>

    ghost predicate Valid()
      reads this
    {
      && Distinct(picked)
      && (forall k :: 0 <= k < |picked| ==> 0 <= picked[k] < |shuffledOptions|)
      && disabledOptions == Elements(picked)
      && |storeCalls| >= 1 && storeCalls[0] == StartSurveyRound
    }

    ghost function View(): SaysView
      reads this
    {
      SaysView(shuffledOptions, timeRemaining, isGameOver, coinsEarned, disabledOptions, flashingOption,
        showBonus, storeCalls, pendingEndTimers, picked)
    }

    /** Mounting: pick the ranking, start the store's round, shuffle the options for display. */
    constructor (options: seq<SurveyOption>, timeSeconds: int, maxStrikes: int, draws: seq<real>)
      requires ValidDraws(draws) && |options| <= |draws| + 1
      ensures Valid()
      ensures this.maxStrikes == maxStrikes && ranked == RankedCorrectOptions(options)
      ensures multiset(shuffledOptions) == multiset(options)
      ensures timeRemaining == timeSeconds && !isGameOver && disabledOptions == {} && flashingOption == None
      ensures !showBonus && storeCalls == [StartSurveyRound] && picked == [] && pendingEndTimers == 0
    {
      this.maxStrikes := maxStrikes;
      ranked := RankedCorrectOptions(options);
      timeRemaining := timeSeconds;
      isGameOver := false;
      coinsEarned := 0;
      disabledOptions := {};
      flashingOption := None;
      showBonus := false;
      storeCalls := [StartSurveyRound];
      pendingEndTimers := 0;
      picked := [];
      shuffledOptions := [];
      new;
      var shuffled := ShuffleArray(options, draws);
      shuffledOptions := shuffled;
    }

    /** The accepted picks never outnumber the option buttons, so no option is reported twice. */
    lemma PicksBounded()
      requires Valid()
      ensures |picked| <= |shuffledOptions|
    {
      DistinctIndicesBounded(picked, |shuffledOptions|);
    }

    /**
     * Tapping option button `optionIndex`. `firstClickMade` is the store's
     * `surveyFirstClickMade`; `gotBonus` is what `recordSurveyAnswer` replies.
     */
    method HandleOptionSelect(optionIndex: int, firstClickMade: bool, gotBonus: bool)
      requires Valid()
      modifies this
      ensures Valid()
      ensures (old(isGameOver) || optionIndex in old(disabledOptions) || old(flashingOption).Some? ||
        !(0 <= optionIndex < |old(shuffledOptions)|)) ==> unchanged(this)
      ensures var accepted := !old(isGameOver) && optionIndex !in old(disabledOptions) &&
          old(flashingOption).None? && 0 <= optionIndex < |old(shuffledOptions)|;
        accepted ==>
          var option := old(shuffledOptions)[optionIndex];
          && disabledOptions == old(disabledOptions) + {optionIndex}
          && picked == old(picked) + [optionIndex]
          && (option.isCorrect ==>
            && storeCalls == old(storeCalls) +
                 [RecordSurveyAnswer(true, option.points, RankForPick(ranked, option.text), !firstClickMade)]
            && flashingOption == None && showBonus == (old(showBonus) || gotBonus))
          && (!option.isCorrect ==>
            && storeCalls == old(storeCalls) + [RecordSurveyAnswer(false, 0, 0, false)]
            && flashingOption == Some(optionIndex) && showBonus == old(showBonus))
          && isGameOver == old(isGameOver) && shuffledOptions == old(shuffledOptions)
          && timeRemaining == old(timeRemaining) && coinsEarned == old(coinsEarned)
          && pendingEndTimers == old(pendingEndTimers)
    {
      if isGameOver || optionIndex in disabledOptions || flashingOption.Some? {
        return;
      }
      if !(0 <= optionIndex < |shuffledOptions|) {
        return;
      }
      var selectedOption := shuffledOptions[optionIndex];
      ElementsAppend(picked, optionIndex);
      assert Distinct(picked + [optionIndex]) by {
        assert forall k :: 0 <= k < |picked| ==> (picked + [optionIndex])[k] == picked[k];
      }
      disabledOptions := disabledOptions + {optionIndex};
      picked := picked + [optionIndex];
      if selectedOption.isCorrect {
        var rank := RankForPick(ranked, selectedOption.text);
        var isFirstTryBonusEligible := !firstClickMade;
        storeCalls := storeCalls + [RecordSurveyAnswer(true, selectedOption.points, rank, isFirstTryBonusEligible)];
        if gotBonus {
          showBonus := true;
        }
      } else {
        flashingOption := Some(optionIndex);
        storeCalls := storeCalls + [RecordSurveyAnswer(false, 0, 0, false)];
      }
    }

    /** The 300 ms red flash ends. */
    method FlashTimeout()
      requires Valid()
      modifies this
      ensures Valid() && View() == old(View()).(flashingOption := None)
    {
      flashingOption := None;
    }

    /** The 1.5 s bonus banner ends. */
    method BonusTimeout()
      requires Valid()
      modifies this
      ensures Valid() && View() == old(View()).(showBonus := false)
    {
      showBonus := false;
    }

    /** `endGame`: finish the store's round; `earned` is what `finishSurveyRound` returns. */
    method EndGame(earned: int)
      requires Valid()
      modifies this
      ensures Valid()
      ensures View() == old(View()).(isGameOver := true, coinsEarned := earned,
        storeCalls := old(storeCalls) + [FinishSurveyRound])
    {
      storeCalls := storeCalls + [FinishSurveyRound];
      coinsEarned := earned;
      isGameOver := true;
    }

    /** One tick of the countdown (the interval is cleared once the game is over). */
    method TimerTick(earned: int)
      requires Valid()
      modifies this
      ensures Valid()
      ensures old(isGameOver) ==> unchanged(this)
      ensures !old(isGameOver) && old(timeRemaining) > 1 ==>
        View() == old(View()).(timeRemaining := old(timeRemaining) - 1)
      ensures !old(isGameOver) && old(timeRemaining) <= 1 ==>
        View() == old(View()).(timeRemaining := 0, isGameOver := true, coinsEarned := earned,
          storeCalls := old(storeCalls) + [FinishSurveyRound])
    {
      if isGameOver {
        return;
      }
      if timeRemaining <= 1 {
        timeRemaining := 0;
        EndGame(earned);
      } else {
        timeRemaining := timeRemaining - 1;
      }
    }

    /** The hardware back button ends a running game through the same `endGame`. */
    method BackPressed(earned: int)
      requires Valid()
      modifies this
      ensures Valid() && isGameOver
      ensures old(isGameOver) ==> unchanged(this)
      ensures !old(isGameOver) ==>
        View() == old(View()).(isGameOver := true, coinsEarned := earned,
          storeCalls := old(storeCalls) + [FinishSurveyRound])
    {
      if !isGameOver {
        EndGame(earned);
      }
    }

    /**
     * The two store-watching effects run: all five ranks revealed, or the
     * strikes at `SURVEY_MAX_STRIKES`, each schedule `endGame` 500 ms later
     * while the game is running.
     */
    method StoreChanged(revealedRanks: seq<int>, strikes: int)
      requires Valid()
      modifies this
      ensures Valid()
      ensures View() == old(View()).(pendingEndTimers := old(pendingEndTimers)
        + (if |revealedRanks| == BOARD_SIZE && !old(isGameOver) then 1 else 0)
        + (if strikes >= maxStrikes && !old(isGameOver) then 1 else 0))
    {
      if |revealedRanks| == BOARD_SIZE && !isGameOver {
        pendingEndTimers := pendingEndTimers + 1;
      }
      if strikes >= maxStrikes && !isGameOver {
        pendingEndTimers := pendingEndTimers + 1;
      }
    }

    /**
     * A scheduled `endGame` fires. It does not look at `isGameOver`, so a
     * game already ended by the back button or the clock in the meantime is
     * finished in the store a second time.
     */
    method EndTimeout(earned: int)
      requires Valid()
      modifies this
      ensures Valid()
      ensures old(pendingEndTimers) == 0 ==> unchanged(this)
      ensures old(pendingEndTimers) > 0 ==>
        View() == old(View()).(pendingEndTimers := old(pendingEndTimers) - 1, isGameOver := true,
          coinsEarned := earned, storeCalls := old(storeCalls) + [FinishSurveyRound])
    {
      if pendingEndTimers > 0 {
        pendingEndTimers := pendingEndTimers - 1;
        EndGame(earned);
      }
    }
  }

  /** A finished survey round is finished once more by an end timer scheduled before the back press. */
  method BackDuringEndDelay(round: SurveySaysRound, earnedOnBack: int, earnedOnTimer: int)
    requires round.Valid() && !round.isGameOver && |round.storeCalls| == 1
    modifies round
    ensures round.isGameOver && round.coinsEarned == earnedOnTimer
    ensures round.storeCalls == [StartSurveyRound, FinishSurveyRound, FinishSurveyRound]
  {
    round.StoreChanged([1, 2, 3, 4, 5], 0);
    round.BackPressed(earnedOnBack);
    round.EndTimeout(earnedOnTimer);
  }
}
