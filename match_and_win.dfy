/**
 * The "match and win" screen: twelve face-down cards (3 crowns, 5 bags,
 * 4 coins) in shuffled order. The player flips cards one at a time; the
 * store's `recordMatchFlip` (not part of this model; its reply is a
 * parameter) says when a symbol has won. Then the screen shows the winning
 * cards, reveals the rest one after another and, a second after the last
 * card, completes the round with what `finishMatchRound` pays.
 */
module MatchAndWin {
  import opened Common
  import opened Shuffle

  datatype Symbol = Crown | Bag | Coin

  /** `Array(n).fill(s)`. */
  function Repeat(s: Symbol, n: nat): (r: seq<Symbol>)
    ensures |r| == n
  {
    if n == 0 then [] else Repeat(s, n - 1) + [s]
  }

  lemma {:induction false} RepeatCount(s: Symbol, n: nat, t: Symbol)
    ensures multiset(Repeat(s, n))[t] == if s == t then n else 0
  {
    if n > 0 {
      RepeatCount(s, n - 1, t);
    }
  }

  /** `DECK_COMPOSITION`: three crowns, then five bags, then four coins. */
  const DECK_COMPOSITION: seq<Symbol> := Repeat(Crown, 3) + Repeat(Bag, 5) + Repeat(Coin, 4)

  /** How many cards of each symbol the deck holds. */
  function SymbolCount(s: Symbol): nat
  {
    match s
    case Crown => 3
    case Bag => 5
    case Coin => 4
  }

  /** Stagger between two auto-revealed cards, and the flip animation, in milliseconds. */
  const REVEAL_STAGGER_MS: int := 100
  const FLIP_MS: int := 400
  /** Pause between the end of the reveal and the result screen. */
  const COMPLETE_PAUSE_MS: int := 1000

  /** The deck has twelve cards in the stated proportions. */
  lemma DeckComposition()
    ensures |DECK_COMPOSITION| == 12
    ensures forall s: Symbol :: multiset(DECK_COMPOSITION)[s] == SymbolCount(s)
  {
    forall s: Symbol
      ensures multiset(DECK_COMPOSITION)[s] == SymbolCount(s)
    {
      RepeatCount(Crown, 3, s);
      RepeatCount(Bag, 5, s);
      RepeatCount(Coin, 4, s);
    }
  }

  /** `shuffleDeck([...DECK_COMPOSITION])`: any order of the same twelve cards. */
  method ShuffleDeck(draws: seq<real>) returns (deck: seq<Symbol>)
    requires ValidDraws(draws) && |draws| >= 11
    ensures |deck| == 12
    ensures forall s: Symbol :: multiset(deck)[s] == SymbolCount(s)
  {
    deck := ShuffleArray(DECK_COMPOSITION, draws);
    DeckComposition();
  }

  // ---------------------------------------------------------------------
  // Positions
  // ---------------------------------------------------------------------

  /** The positions below `n` holding `s`, ascending (`deck.map((s, i) => s === symbol ? i : -1).filter(i => i !== -1)`). */
  function SymbolPositions(deck: seq<Symbol>, s: Symbol, n: nat): seq<nat>
    requires n <= |deck|
  {
    if n == 0 then []
    else SymbolPositions(deck, s, n - 1) + (if deck[n - 1] == s then [n - 1] else [])
  }

  /** `getSymbolIndices`: the positions holding `s`. */
  function GetSymbolIndices(deck: seq<Symbol>, s: Symbol): seq<nat>
  {
    SymbolPositions(deck, s, |deck|)
  }

  /** The positions below `n` not in `revealed`, ascending. */
  function UnrevealedBelow(revealed: set<int>, n: nat): seq<nat>
  {
    if n == 0 then []
    else UnrevealedBelow(revealed, n - 1) + (if n - 1 !in revealed then [n - 1] else [])
  }

  /** The positions not yet revealed (the handler's `unrevealed` and the `unrevealedIndices` memo). */
  function Unrevealed(deck: seq<Symbol>, revealed: set<int>): seq<nat>
  {
    UnrevealedBelow(revealed, |deck|)
  }

  /** The positions listed hold `s` and lie below `n`. */
  lemma {:induction false} SymbolPositionsSound(deck: seq<Symbol>, s: Symbol, n: nat)
    requires n <= |deck|
    ensures forall k :: 0 <= k < |SymbolPositions(deck, s, n)| ==>
      SymbolPositions(deck, s, n)[k] < n && deck[SymbolPositions(deck, s, n)[k]] == s
  {
    if n > 0 {
      SymbolPositionsSound(deck, s, n - 1);
      var prev := SymbolPositions(deck, s, n - 1);
      assert SymbolPositions(deck, s, n) == prev + (if deck[n - 1] == s then [n - 1] else []);
    }
  }

  /** The positions listed ascend. */
  lemma {:induction false} SymbolPositionsAscending(deck: seq<Symbol>, s: Symbol, n: nat)
    requires n <= |deck|
    ensures forall i, j :: 0 <= i < j < |SymbolPositions(deck, s, n)| ==>
      SymbolPositions(deck, s, n)[i] < SymbolPositions(deck, s, n)[j]
  {
    if n > 0 {
      SymbolPositionsAscending(deck, s, n - 1);
      SymbolPositionsSound(deck, s, n - 1);
      var prev := SymbolPositions(deck, s, n - 1);
      assert SymbolPositions(deck, s, n) == prev + (if deck[n - 1] == s then [n - 1] else []);
    }
  }

  /** Every position below `n` holding `s` is listed. */
  lemma {:induction false} SymbolPositionsComplete(deck: seq<Symbol>, s: Symbol, n: nat)
    requires n <= |deck|
    ensures forall p: nat :: p < n && deck[p] == s ==> p in SymbolPositions(deck, s, n)
  {
    if n > 0 {
      SymbolPositionsComplete(deck, s, n - 1);
      var prev := SymbolPositions(deck, s, n - 1);
      assert SymbolPositions(deck, s, n) == prev + (if deck[n - 1] == s then [n - 1] else []);
    }
  }

  lemma SymbolPositionsExact(deck: seq<Symbol>, s: Symbol, n: nat)
    requires n <= |deck|
    ensures forall k :: 0 <= k < |SymbolPositions(deck, s, n)| ==>
      SymbolPositions(deck, s, n)[k] < n && deck[SymbolPositions(deck, s, n)[k]] == s
    ensures forall i, j :: 0 <= i < j < |SymbolPositions(deck, s, n)| ==>
      SymbolPositions(deck, s, n)[i] < SymbolPositions(deck, s, n)[j]
    ensures forall p: nat :: p < n && deck[p] == s ==> p in SymbolPositions(deck, s, n)
  {
    SymbolPositionsSound(deck, s, n);
    SymbolPositionsAscending(deck, s, n);
    SymbolPositionsComplete(deck, s, n);
  }

  /** The positions listed lie below `n` and are not revealed. */
  lemma {:induction false} UnrevealedBelowSound(revealed: set<int>, n: nat)
    ensures forall k :: 0 <= k < |UnrevealedBelow(revealed, n)| ==>
      UnrevealedBelow(revealed, n)[k] < n && UnrevealedBelow(revealed, n)[k] !in revealed
  {
    if n > 0 {
      UnrevealedBelowSound(revealed, n - 1);
      var prev := UnrevealedBelow(revealed, n - 1);
      assert UnrevealedBelow(revealed, n) == prev + (if n - 1 !in revealed then [n - 1] else []);
    }
  }

  /** The positions listed ascend. */
  lemma {:induction false} UnrevealedBelowAscending(revealed: set<int>, n: nat)
    ensures forall i, j :: 0 <= i < j < |UnrevealedBelow(revealed, n)| ==>
      UnrevealedBelow(revealed, n)[i] < UnrevealedBelow(revealed, n)[j]
  {
    if n > 0 {
      UnrevealedBelowAscending(revealed, n - 1);
      UnrevealedBelowSound(revealed, n - 1);
      var prev := UnrevealedBelow(revealed, n - 1);
      assert UnrevealedBelow(revealed, n) == prev + (if n - 1 !in revealed then [n - 1] else []);
    }
  }

  /** Every unrevealed position below `n` is listed. */
  lemma {:induction false} UnrevealedBelowComplete(revealed: set<int>, n: nat)
    ensures forall p: nat :: p < n && p !in revealed ==> p in UnrevealedBelow(revealed, n)
  {
    if n > 0 {
      UnrevealedBelowComplete(revealed, n - 1);
      var prev := UnrevealedBelow(revealed, n - 1);
      assert UnrevealedBelow(revealed, n) == prev + (if n - 1 !in revealed then [n - 1] else []);
    }
  }

  lemma UnrevealedBelowExact(revealed: set<int>, n: nat)
    ensures forall k :: 0 <= k < |UnrevealedBelow(revealed, n)| ==>
      UnrevealedBelow(revealed, n)[k] < n && UnrevealedBelow(revealed, n)[k] !in revealed
    ensures forall i, j :: 0 <= i < j < |UnrevealedBelow(revealed, n)| ==>
      UnrevealedBelow(revealed, n)[i] < UnrevealedBelow(revealed, n)[j]
    ensures forall p: nat :: p < n && p !in revealed ==> p in UnrevealedBelow(revealed, n)
  {
    UnrevealedBelowSound(revealed, n);
    UnrevealedBelowAscending(revealed, n);
    UnrevealedBelowComplete(revealed, n);
  }

  /** `allSymbolIndices.filter(i => newRevealedIndices.has(i))`. */
  function KeepRevealed(positions: seq<nat>, revealed: set<int>): (r: seq<nat>)
    ensures |r| <= |positions|
  {
    if positions == [] then []
    else
      var last := positions[|positions| - 1];
      KeepRevealed(positions[..|positions| - 1], revealed) + (if last in revealed then [last] else [])
  }

  /** `KeepRevealed` keeps exactly the revealed positions of the list. */
  lemma {:induction false} KeepRevealedExact(positions: seq<nat>, revealed: set<int>)
    ensures forall p :: p in KeepRevealed(positions, revealed) <==> p in positions && p in revealed
  {
    if positions != [] {
      KeepRevealedExact(positions[..|positions| - 1], revealed);
      assert positions == positions[..|positions| - 1] + [positions[|positions| - 1]];
    }
  }

  /** The winning cards: revealed positions holding the winning symbol. */
  function WinningIndices(deck: seq<Symbol>, s: Symbol, revealed: set<int>): seq<nat>
  {
    KeepRevealed(GetSymbolIndices(deck, s), revealed)
  }

  /** `getSymbolIndices` returns exactly the positions of `s`, in ascending order. */
  lemma SymbolIndicesExact(deck: seq<Symbol>, s: Symbol)
    ensures forall k :: 0 <= k < |GetSymbolIndices(deck, s)| ==>
      GetSymbolIndices(deck, s)[k] < |deck| && deck[GetSymbolIndices(deck, s)[k]] == s
    ensures forall i, j :: 0 <= i < j < |GetSymbolIndices(deck, s)| ==>
      GetSymbolIndices(deck, s)[i] < GetSymbolIndices(deck, s)[j]
    ensures forall p: nat :: p < |deck| && deck[p] == s ==> p in GetSymbolIndices(deck, s)
  {
    SymbolPositionsExact(deck, s, |deck|);
  }

  /** The winning cards are exactly the revealed cards of the winning symbol. */
  lemma WinningIndicesExact(deck: seq<Symbol>, s: Symbol, revealed: set<int>)
    ensures forall p: nat :: p in WinningIndices(deck, s, revealed) <==>
      p < |deck| && deck[p] == s && p in revealed
  {
    SymbolIndicesExact(deck, s);
    KeepRevealedExact(GetSymbolIndices(deck, s), revealed);
  }

  /** The unrevealed list is the complement of the revealed set, ascending. */
  lemma UnrevealedExact(deck: seq<Symbol>, revealed: set<int>)
    ensures forall p: nat :: p in Unrevealed(deck, revealed) <==> p < |deck| && p !in revealed
    ensures forall i, j :: 0 <= i < j < |Unrevealed(deck, revealed)| ==>
      Unrevealed(deck, revealed)[i] < Unrevealed(deck, revealed)[j]
  {
    UnrevealedBelowExact(revealed, |deck|);
  }

  /** `totalRevealTime`: 100 ms per unrevealed card plus one flip. */
  function TotalRevealTime(unrevealed: seq<nat>): int
  {
    |unrevealed| * REVEAL_STAGGER_MS + FLIP_MS
  }

  /** A card's reveal delay: 100 ms times its place in the unrevealed list, 0 if it is not there. */
  function RevealDelay(unrevealed: seq<nat>, index: nat): (delay: int)
    ensures delay >= 0
  {
    match FirstIndex(unrevealed, p => p == index)
    case None => 0
    case Some(position) => position * REVEAL_STAGGER_MS
  }

  /**
   * Every auto-revealed card finishes flipping by `totalRevealTime`, and the
   * cards flip in board order, each 100 ms after the one before.
   */
  lemma RevealSchedule(unrevealed: seq<nat>, a: nat, b: nat)
    requires forall i, j :: 0 <= i < j < |unrevealed| ==> unrevealed[i] < unrevealed[j]
    requires a in unrevealed && b in unrevealed && a < b
    ensures RevealDelay(unrevealed, a) + FLIP_MS <= TotalRevealTime(unrevealed)
    ensures RevealDelay(unrevealed, b) + FLIP_MS <= TotalRevealTime(unrevealed)
    ensures RevealDelay(unrevealed, a) + REVEAL_STAGGER_MS <= RevealDelay(unrevealed, b)
  {
    var fa := FirstIndex(unrevealed, p => p == a);
    var fb := FirstIndex(unrevealed, p => p == b);
    var i :| 0 <= i < |unrevealed| && unrevealed[i] == a;
    var j :| 0 <= j < |unrevealed| && unrevealed[j] == b;
    assert fa == Some(i) && fb == Some(j);
  }

  // ---------------------------------------------------------------------
  // The round
  // ---------------------------------------------------------------------

  datatype Phase = Playing | Revealing | Complete

  /** The store's reply to `recordMatchFlip`. */
  datatype FlipResult = FlipResult(isWinner: bool, winningSymbol: Option<Symbol>)

  /** Calls the screen makes into the store's match functions. */
  datatype MatchCall =
    | StartMatchRound
    | RecordMatchFlip(cardIndex: nat, symbol: Symbol)
    | FinishMatchRound

  /** The number of revealed cards among the first `n` positions that hold `s`. */
  function CountRevealedUpTo(deck: seq<Symbol>, revealed: set<int>, s: Symbol, n: nat): nat
    requires n <= |deck|
  {
    if n == 0 then 0
    else CountRevealedUpTo(deck, revealed, s, n - 1) + (if n - 1 in revealed && deck[n - 1] == s then 1 else 0)
  }

  /** The number of revealed cards holding `s`. */
  function CountRevealed(deck: seq<Symbol>, revealed: set<int>, s: Symbol): nat
  {
    CountRevealedUpTo(deck, revealed, s, |deck|)
  }

  /** Nothing revealed, nothing counted. */
  lemma {:induction false} CountNoneRevealed(deck: seq<Symbol>, s: Symbol, n: nat)
    requires n <= |deck|
    ensures CountRevealedUpTo(deck, {}, s, n) == 0
  {
    if n > 0 {
      CountNoneRevealed(deck, s, n - 1);
    }
  }

  /** Revealing one more card adds one to its own symbol's count and nothing to the others. */
  lemma {:induction false} CountAfterFlip(deck: seq<Symbol>, revealed: set<int>, c: nat, s: Symbol, n: nat)
    requires n <= |deck| && c < |deck| && c !in revealed
    ensures CountRevealedUpTo(deck, revealed + {c}, s, n) ==
      CountRevealedUpTo(deck, revealed, s, n) + (if c < n && deck[c] == s then 1 else 0)
  {
    if n > 0 {
      CountAfterFlip(deck, revealed, c, s, n - 1);
    }
  }

  /** The revealed positions below `n`. */
  function RevealedBelow(revealed: set<int>, n: nat): set<int>
  {
    set p | p in revealed && 0 <= p < n
  }

  /** The three counts below `n` add up to the revealed positions below `n`. */
  lemma {:induction false} CountsPartition(deck: seq<Symbol>, revealed: set<int>, n: nat)
    requires n <= |deck|
    ensures CountRevealedUpTo(deck, revealed, Crown, n) + CountRevealedUpTo(deck, revealed, Bag, n) +
      CountRevealedUpTo(deck, revealed, Coin, n) == |RevealedBelow(revealed, n)|
  {
    if n == 0 {
      assert RevealedBelow(revealed, n) == {};
    } else {
      CountsPartition(deck, revealed, n - 1);
      if n - 1 in revealed {
        assert RevealedBelow(revealed, n) == RevealedBelow(revealed, n - 1) + {n - 1};
      } else {
        assert RevealedBelow(revealed, n) == RevealedBelow(revealed, n - 1);
      }
    }
  }

  /** The `matchCounts` record: one count per symbol. */
  datatype SymbolCounts = SymbolCounts(crown: int, bag: int, coin: int)
  {
    function Get(s: Symbol): int
    {
      match s
      case Crown => crown
      case Bag => bag
      case Coin => coin
    }

    /** `newCounts[symbol] = newCounts[symbol] + 1`. */
    function Increment(s: Symbol): (r: SymbolCounts)
      ensures r.Get(s) == Get(s) + 1
      ensures forall t: Symbol :: t != s ==> r.Get(t) == Get(t)
    {
      match s
      case Crown => this.(crown := crown + 1)
      case Bag => this.(bag := bag + 1)
      case Coin => this.(coin := coin + 1)
    }
  }

  const NO_COUNTS: SymbolCounts := SymbolCounts(0, 0, 0)

  /** The counts the revealed cards call for. */
  function CountsOf(deck: seq<Symbol>, revealed: set<int>): SymbolCounts
  {
    SymbolCounts(CountRevealed(deck, revealed, Crown), CountRevealed(deck, revealed, Bag),
      CountRevealed(deck, revealed, Coin))
  }

  /** Incrementing the flipped card's symbol keeps the counts in step with the revealed cards. */
  lemma FlipUpdatesCounts(deck: seq<Symbol>, revealed: set<int>, c: nat)
    requires c < |deck| && c !in revealed
    ensures CountsOf(deck, revealed + {c}) == CountsOf(deck, revealed).Increment(deck[c])
  {
    CountAfterFlip(deck, revealed, c, Crown, |deck|);
    CountAfterFlip(deck, revealed, c, Bag, |deck|);
    CountAfterFlip(deck, revealed, c, Coin, |deck|);
  }

  /** The positions of a deck of `n` cards. */
  function Positions(n: nat): set<int>
  {
    if n == 0 then {} else Positions(n - 1) + {n - 1}
  }

  lemma {:induction false} PositionsExact(n: nat)
    ensures forall p :: p in Positions(n) <==> 0 <= p < n
  {
    if n > 0 {
      PositionsExact(n - 1);
    }
  }

  lemma PositionsAdd(n: nat, revealed: set<int>, c: int)
    requires revealed <= Positions(n) && 0 <= c < n
    ensures revealed + {c} <= Positions(n)
  {
    PositionsExact(n);
  }

  /** Everything a match-and-win screen holds besides its deck. */
  datatype MatchView = MatchView(
    phase: Phase, revealedIndices: set<int>, matchCounts: SymbolCounts, winningSymbol: Option<Symbol>,
    winningIndices: seq<nat>, totalRevealTime: int, completePending: bool, pointsEarned: int,
    storeCalls: seq<MatchCall>)

  class MatchRound {
    const deck: seq<Symbol>
    var phase: Phase
    var revealedIndices: set<int>
    var matchCounts: SymbolCounts
    var winningSymbol: Option<Symbol>
    var winningIndices: seq<nat>
    /** `totalRevealTime` of the win, and whether the completion timer is still to fire. */
    var totalRevealTime: int
    var completePending: bool
    var pointsEarned: int
    var storeCalls: seq<MatchCall>

    ghost predicate Valid()
      reads this
    {
      && |deck| == 12
      && revealedIndices <= Positions(|deck|)
      && matchCounts == CountsOf(deck, revealedIndices)
      && (completePending <==> phase == Revealing)
      && (phase != Playing ==>
        && winningSymbol.Some?
        && winningIndices == WinningIndices(deck, winningSymbol.value, revealedIndices)
        && totalRevealTime == TotalRevealTime(Unrevealed(deck, revealedIndices)))
      && |storeCalls| >= 1 && storeCalls[0] == StartMatchRound
      && (FinishMatchRound in storeCalls <==> phase == Complete)
    }

    ghost function View(): MatchView
      reads this
    {
      MatchView(phase, revealedIndices, matchCounts, winningSymbol, winningIndices, totalRevealTime,
        completePending, pointsEarned, storeCalls)
    }

    /** Mounting: shuffle the deck and start the store's round. */
    constructor (draws: seq<real>)
      requires ValidDraws(draws) && |draws| >= 11
      ensures Valid()
      ensures forall s: Symbol :: multiset(deck)[s] == SymbolCount(s)
      ensures phase == Playing && revealedIndices == {} && winningSymbol == None && winningIndices == []
      ensures matchCounts == NO_COUNTS
      ensures storeCalls == [StartMatchRound] && pointsEarned == 0
    {
      var shuffled := ShuffleDeck(draws);
      deck := shuffled;
      phase := Playing;
      revealedIndices := {};
      matchCounts := NO_COUNTS;
      winningSymbol := None;
      winningIndices := [];
      totalRevealTime := 0;
      completePending := false;
      pointsEarned := 0;
      storeCalls := [StartMatchRound];
      new;
      CountNoneRevealed(deck, Crown, |deck|);
      CountNoneRevealed(deck, Bag, |deck|);
      CountNoneRevealed(deck, Coin, |deck|);
    }

    /** The first half of `handleCardFlip`: reveal the card, count its symbol and record the flip. */
    method RevealCard(cardIndex: nat)
      requires Valid() && phase == Playing && cardIndex < |deck| && cardIndex !in revealedIndices
      modifies this
      ensures Valid()
      ensures View() == old(View()).(revealedIndices := old(revealedIndices) + {cardIndex},
        matchCounts := old(matchCounts).Increment(deck[cardIndex]),
        storeCalls := old(storeCalls) + [RecordMatchFlip(cardIndex, deck[cardIndex])])
    {
      var symbol := deck[cardIndex];
      FlipUpdatesCounts(deck, revealedIndices, cardIndex);
      PositionsAdd(|deck|, revealedIndices, cardIndex);
      revealedIndices := revealedIndices + {cardIndex};
      matchCounts := matchCounts.Increment(symbol);
      storeCalls := storeCalls + [RecordMatchFlip(cardIndex, symbol)];
    }

    /**
     * `handleCardFlip`: while playing, an unrevealed card is revealed, its
     * symbol counted and the flip recorded; a winning reply starts the reveal.
     */
    method HandleCardFlip(cardIndex: nat, result: FlipResult)
      requires Valid() && cardIndex < |deck|
      modifies this
      ensures Valid()
      ensures (old(phase) != Playing || cardIndex in old(revealedIndices)) ==> unchanged(this)
      ensures old(phase) == Playing && cardIndex !in old(revealedIndices) ==>
        var flipped := old(View()).(revealedIndices := old(revealedIndices) + {cardIndex},
          matchCounts := old(matchCounts).Increment(deck[cardIndex]),
          storeCalls := old(storeCalls) + [RecordMatchFlip(cardIndex, deck[cardIndex])]);
        && (result.isWinner && result.winningSymbol.Some? ==>
          View() == flipped.(phase := Revealing, winningSymbol := result.winningSymbol,
            winningIndices := WinningIndices(deck, result.winningSymbol.value, revealedIndices),
            totalRevealTime := TotalRevealTime(Unrevealed(deck, revealedIndices)), completePending := true))
        && (!(result.isWinner && result.winningSymbol.Some?) ==> View() == flipped)
    {
      if phase == Playing && cardIndex !in revealedIndices {
        RevealCard(cardIndex);
        if result.isWinner && result.winningSymbol.Some? {
          winningSymbol := result.winningSymbol;
          winningIndices := WinningIndices(deck, result.winningSymbol.value, revealedIndices);
          phase := Revealing;
          totalRevealTime := TotalRevealTime(Unrevealed(deck, revealedIndices));
          completePending := true;
        }
      }
    }

    /** The delay of the completion timer the win schedules: `totalRevealTime + 1000` ms. */
    function CompletionDelay(): int
      reads this
    {
      totalRevealTime + COMPLETE_PAUSE_MS
    }

    /** `CompletionDelay()` ms after the win: complete with what `finishMatchRound` pays. */
    method CompleteTimeout(points: int)
      requires Valid()
      modifies this
      ensures Valid()
      ensures !old(completePending) ==> unchanged(this)
      ensures old(completePending) ==>
        View() == old(View()).(phase := Complete, completePending := false, pointsEarned := points,
          storeCalls := old(storeCalls) + [FinishMatchRound])
    {
      if completePending {
        completePending := false;
        phase := Complete;
        storeCalls := storeCalls + [FinishMatchRound];
        pointsEarned := points;
      }
    }

    /** The `unrevealedIndices` memo: empty while playing, the unrevealed positions afterwards. */
    function UnrevealedIndices(): (r: seq<nat>)
      reads this
      ensures phase == Playing ==> r == []
    {
      if phase != Revealing && phase != Complete then [] else Unrevealed(deck, revealedIndices)
    }

    /** The delay the grid gives card `index`: staggered only for cards revealed automatically. */
    function CardRevealDelay(index: nat): (delay: int)
      reads this
      ensures delay >= 0
      ensures phase != Revealing || index in revealedIndices ==> delay == 0
    {
      if phase == Revealing && index !in revealedIndices then RevealDelay(UnrevealedIndices(), index) else 0
    }

    /**
     * The grid's staggered flips agree with the handler's timer: every
     * auto-revealed card has finished flipping after `totalRevealTime`, and
     * a later card flips at least 100 ms after an earlier one, so the last
     * flip ends at least `COMPLETE_PAUSE_MS` before the round completes.
     */
    lemma RevealFitsTimer(a: nat, b: nat)
      requires Valid() && phase == Revealing
      requires a < b < |deck| && a !in revealedIndices && b !in revealedIndices
      ensures CardRevealDelay(a) + FLIP_MS <= totalRevealTime
      ensures CardRevealDelay(b) + FLIP_MS <= totalRevealTime
      ensures CardRevealDelay(a) + REVEAL_STAGGER_MS <= CardRevealDelay(b)
      ensures CardRevealDelay(b) + FLIP_MS + COMPLETE_PAUSE_MS <= CompletionDelay()
    {
      UnrevealedExact(deck, revealedIndices);
      RevealSchedule(Unrevealed(deck, revealedIndices), a, b);
    }

    /** The hardware back button is swallowed while playing or revealing. */
    method BackPressed() returns (blocked: bool)
      requires Valid()
      ensures blocked <==> phase != Complete
    {
      blocked := phase == Playing || phase == Revealing;
    }

    /** Every revealed card is counted under its own symbol: the counts add up to the revealed cards. */
    lemma CountsAddUp()
      requires Valid()
      ensures matchCounts.crown + matchCounts.bag + matchCounts.coin == |revealedIndices|
    {
      CountsPartition(deck, revealedIndices, |deck|);
      PositionsExact(|deck|);
      assert RevealedBelow(revealedIndices, |deck|) == revealedIndices;
    }
  }
}
