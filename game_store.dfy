/**
 * The in-memory game store: the fixed 12-wedge wheel table, the
 * rotation-to-wedge lookup, and the single state record that the
 * mutators reassign (balance, wheel rotation, spinning flag, last wedge,
 * trivia score and answer count).
 */
module GameStore {
  import opened Common

  datatype WedgeType = Trivia | Coin

  /** One wedge of the wheel; display colours are left out. */
  datatype WedgeConfig = WedgeConfig(id: int, kind: WedgeType, value: int, displayLabel: string)

  const WEDGE_CONFIG: seq<WedgeConfig> := [
    WedgeConfig(0, Coin, 10, "10"),
    WedgeConfig(1, Coin, 25, "25"),
    WedgeConfig(2, Trivia, 0, "TRIVIA"),
    WedgeConfig(3, Coin, 50, "50"),
    WedgeConfig(4, Coin, 10, "10"),
    WedgeConfig(5, Trivia, 0, "TRIVIA"),
    WedgeConfig(6, Coin, 100, "100"),
    WedgeConfig(7, Coin, 25, "25"),
    WedgeConfig(8, Trivia, 0, "TRIVIA"),
    WedgeConfig(9, Coin, 50, "50"),
    WedgeConfig(10, Coin, 10, "10"),
    WedgeConfig(11, Trivia, 0, "TRIVIA")
  ]

  const WEDGE_COUNT: int := 12
  const WEDGE_ANGLE: int := 30

  /** The table is well formed: ids are positions, trivia wedges pay nothing, coin wedges pay something. */
  ghost predicate WellFormedTable(table: seq<WedgeConfig>)
  {
    forall i :: 0 <= i < |table| ==>
      table[i].id == i &&
      (table[i].kind == Trivia ==> table[i].value == 0) &&
      (table[i].kind == Coin ==> table[i].value > 0)
  }

  lemma WedgeTableShape()
    ensures |WEDGE_CONFIG| == WEDGE_COUNT
    ensures WEDGE_COUNT * WEDGE_ANGLE == 360
    ensures WellFormedTable(WEDGE_CONFIG)
  {
  }

  // ---------------------------------------------------------------------
  // Angle arithmetic
  // ---------------------------------------------------------------------

  /** JavaScript's `Math.trunc`: rounds toward zero. */
  function Trunc(x: real): (t: int)
    ensures 0.0 <= x ==> t as real <= x < t as real + 1.0
    ensures x < 0.0 ==> t as real - 1.0 < x <= t as real
  {
    if x >= 0.0 then x.Floor else -((-x).Floor)
  }

  /** `x` and `y` differ by a whole number of turns. */
  ghost predicate WholeTurnsApart(x: real, y: real)
  {
    (x - y) / 360.0 == ((x - y) / 360.0).Floor as real
  }

  /** JavaScript's `x % 360` on numbers: the remainder takes the sign of `x`. */
  function JsMod360(x: real): (m: real)
    ensures 0.0 <= x ==> 0.0 <= m < 360.0
    ensures x < 0.0 ==> -360.0 < m <= 0.0
    ensures WholeTurnsApart(x, m)
  {
    var t := Trunc(x / 360.0);
    assert x == (x - 360.0 * t as real) + 360.0 * t as real;
    x - 360.0 * t as real
  }

  /** `((rotation % 360) + 360) % 360`, the store's normalisation into [0, 360). */
  function Normalize(rotation: real): real
  {
    JsMod360(JsMod360(rotation) + 360.0)
  }

  /** The mathematical residue of `x` modulo 360, written with a floor. */
  function Residue360(x: real): (m: real)
    ensures 0.0 <= m < 360.0
  {
    x - 360.0 * (x / 360.0).Floor as real
  }

  /** A value in [0, 360) that differs from `x` by whole turns is its residue. */
  lemma ResidueUnique(x: real, m: real, k: int)
    requires 0.0 <= m < 360.0
    requires x == m + 360.0 * k as real
    ensures m == Residue360(x)
  {
    assert x / 360.0 == m / 360.0 + k as real;
    assert 0.0 <= m / 360.0 < 1.0;
    assert (x / 360.0).Floor == k;
  }

  /** The double modulus lands in [0, 360) and keeps the angle modulo whole turns. */
  lemma NormalizeIsResidue(rotation: real)
    ensures Normalize(rotation) == Residue360(rotation)
    ensures 0.0 <= Normalize(rotation) < 360.0
  {
    var a := JsMod360(rotation);
    var k1 := ((rotation - a) / 360.0).Floor;
    var b := Normalize(rotation);
    var k2 := ((a + 360.0 - b) / 360.0).Floor;
    assert rotation == b + 360.0 * (k1 + k2 - 1) as real;
    ResidueUnique(rotation, b, k1 + k2 - 1);
  }

  /** Adding whole turns does not change the residue. */
  lemma ResiduePeriodic(x: real, k: int)
    ensures Residue360(x + 360.0 * k as real) == Residue360(x)
  {
    var m := Residue360(x);
    var q := (x / 360.0).Floor;
    assert x + 360.0 * k as real == m + 360.0 * (q + k) as real;
    ResidueUnique(x + 360.0 * k as real, m, q + k);
  }

  // ---------------------------------------------------------------------
  // Rotation to wedge
  // ---------------------------------------------------------------------

  /** `Math.floor((360 - normalizedRotation) / WEDGE_ANGLE) % 12`. */
  function WedgeIndexFromRotation(rotation: real): int
  {
    var normalized := Normalize(rotation);
    ((360.0 - normalized) / WEDGE_ANGLE as real).Floor % 12
  }

  lemma {:induction false} WedgeIndexInRange(rotation: real)
    ensures 0 <= WedgeIndexFromRotation(rotation) < |WEDGE_CONFIG|
  {
    NormalizeIsResidue(rotation);
  }

  /** `getWedgeFromRotation`: the table entry at the computed index. */
  function GetWedgeFromRotation(rotation: real): (w: WedgeConfig)
    ensures w in WEDGE_CONFIG
    ensures w == WEDGE_CONFIG[WedgeIndexFromRotation(rotation)]
  {
    WedgeIndexInRange(rotation);
    WEDGE_CONFIG[WedgeIndexFromRotation(rotation)]
  }

  /** The wheel-frame angle that sits under the top pointer after a clockwise turn of `rotation` degrees. */
  function PointerAngle(rotation: real): (theta: real)
    ensures 0.0 <= theta < 360.0
  {
    Residue360(-rotation)
  }

  /**
   * The index the lookup returns is the wedge whose 30-degree window holds
   * the angle under the pointer: 30*i <= (360 - n) mod 360 < 30*(i+1).
   */
  lemma WedgeWindow(rotation: real)
    ensures var i := WedgeIndexFromRotation(rotation);
      (i * WEDGE_ANGLE) as real <= PointerAngle(rotation) < ((i + 1) * WEDGE_ANGLE) as real
  {
    NormalizeIsResidue(rotation);
    var n := Normalize(rotation);
    var q := (rotation / 360.0).Floor;
    assert rotation == n + 360.0 * q as real;
    if n == 0.0 {
      assert -rotation == 0.0 + 360.0 * (-q) as real;
      ResidueUnique(-rotation, 0.0, -q);
      assert ((360.0 - n) / 30.0).Floor == 12;
    } else {
      assert -rotation == (360.0 - n) + 360.0 * (-q - 1) as real;
      ResidueUnique(-rotation, 360.0 - n, -q - 1);
      var f := ((360.0 - n) / 30.0).Floor;
      assert 0 <= f < 12;
      assert f % 12 == f;
    }
  }

  /** An unrotated wheel (or any whole number of turns) shows wedge 0. */
  lemma WholeTurnsGiveWedgeZero(k: int)
    ensures WedgeIndexFromRotation(360.0 * k as real) == 0
  {
    NormalizeIsResidue(360.0 * k as real);
    ResidueUnique(360.0 * k as real, 0.0, k);
  }

  /** The lookup is periodic in whole turns, for negative turns too. */
  lemma WedgePeriodic(rotation: real, k: int)
    ensures GetWedgeFromRotation(rotation + 360.0 * k as real) == GetWedgeFromRotation(rotation)
  {
    var shifted := rotation + 360.0 * k as real;
    NormalizeIsResidue(rotation);
    NormalizeIsResidue(shifted);
    ResiduePeriodic(rotation, k);
    assert Normalize(shifted) == Normalize(rotation);
    assert WedgeIndexFromRotation(shifted) == WedgeIndexFromRotation(rotation);
  }

  /** Looking up a stored (normalised) rotation gives the same wedge as the raw rotation. */
  lemma LookupAfterNormalize(rotation: real)
    ensures GetWedgeFromRotation(Normalize(rotation)) == GetWedgeFromRotation(rotation)
  {
    var n := Normalize(rotation);
    NormalizeIsResidue(rotation);
    NormalizeIsResidue(n);
    ResidueUnique(n, n, 0);
    assert Normalize(n) == n;
    assert WedgeIndexFromRotation(n) == WedgeIndexFromRotation(rotation);
  }

  // ---------------------------------------------------------------------
  // Trivia scoring
  // ---------------------------------------------------------------------

  const CORRECT_POINTS: int := 10
  const INCORRECT_POINTS: int := -5

  /** The running trivia score after the given answers (true = correct), one `recordTriviaAnswer` each. */
  function TriviaScore(answers: seq<bool>): int
  {
    if answers == [] then 0
    else TriviaScore(answers[..|answers| - 1]) + (if answers[|answers| - 1] then CORRECT_POINTS else INCORRECT_POINTS)
  }

  function CountCorrect(answers: seq<bool>): (c: nat)
    ensures c <= |answers|
  {
    if answers == [] then 0
    else CountCorrect(answers[..|answers| - 1]) + (if answers[|answers| - 1] then 1 else 0)
  }

  /** After k answers of which c are correct the score is 10c - 5(k - c). */
  lemma {:induction false} TriviaScoreClosedForm(answers: seq<bool>)
    ensures TriviaScore(answers) == 10 * CountCorrect(answers) - 5 * (|answers| - CountCorrect(answers))
  {
    if answers != [] {
      TriviaScoreClosedForm(answers[..|answers| - 1]);
    }
  }

  /** The zero-reward floor `Math.max(0, score)`. */
  function ZeroRewardFloor(score: int): (coins: int)
    ensures coins >= 0 && coins >= score
    ensures coins == 0 || coins == score
  {
    if score > 0 then score else 0
  }

  // ---------------------------------------------------------------------
  // The state record
  // ---------------------------------------------------------------------

  datatype GameState = GameState(
    playerBalance: int,
    currentWheelRotation: real,
    isSpinning: bool,
    lastWedgeResult: Option<WedgeConfig>,
    triviaScore: int,
    triviaQuestionsAnswered: int)

  const INITIAL_STATE: GameState := GameState(0, 0.0, false, None, 0, 0)

  /** The module-level `gameState`, as an object whose fields the mutators reassign. */
  class Store {
    var playerBalance: int
    var currentWheelRotation: real
    var isSpinning: bool
    var lastWedgeResult: Option<WedgeConfig>
    var triviaScore: int
    var triviaQuestionsAnswered: int
    /** The answers recorded since the last start of a trivia round (or reset). */
    ghost var triviaAnswers: seq<bool>

    ghost predicate Valid()
      reads this
    {
      && triviaScore == TriviaScore(triviaAnswers)
      && triviaQuestionsAnswered == |triviaAnswers|
    }

    function State(): GameState
      reads this
    {
      GameState(playerBalance, currentWheelRotation, isSpinning, lastWedgeResult, triviaScore, triviaQuestionsAnswered)
    }

    constructor ()
      ensures Valid() && State() == INITIAL_STATE && triviaAnswers == []
    {
      playerBalance := 0;
      currentWheelRotation := 0.0;
      isSpinning := false;
      lastWedgeResult := None;
      triviaScore := 0;
      triviaQuestionsAnswered := 0;
      triviaAnswers := [];
    }

    /** `getGameState`: a copy of the record. */
    method GetGameState() returns (s: GameState)
      ensures s == State()
    {
      s := GameState(playerBalance, currentWheelRotation, isSpinning, lastWedgeResult, triviaScore, triviaQuestionsAnswered);
    }

    method AddCoins(amount: int)
      requires Valid()
      modifies this
      ensures Valid() && triviaAnswers == old(triviaAnswers)
      ensures State() == old(State()).(playerBalance := old(playerBalance) + amount)
    {
      playerBalance := playerBalance + amount;
    }

    method SetWheelRotation(rotation: real)
      requires Valid()
      modifies this
      ensures Valid() && triviaAnswers == old(triviaAnswers)
      ensures State() == old(State()).(currentWheelRotation := Normalize(rotation))
      ensures 0.0 <= currentWheelRotation < 360.0 && currentWheelRotation == Residue360(rotation)
    {
      NormalizeIsResidue(rotation);
      currentWheelRotation := JsMod360(JsMod360(rotation) + 360.0);
    }

    method SetSpinning(spinning: bool)
      requires Valid()
      modifies this
      ensures Valid() && triviaAnswers == old(triviaAnswers)
      ensures State() == old(State()).(isSpinning := spinning)
    {
      isSpinning := spinning;
    }

    method SetLastWedgeResult(wedge: Option<WedgeConfig>)
      requires Valid()
      modifies this
      ensures Valid() && triviaAnswers == old(triviaAnswers)
      ensures State() == old(State()).(lastWedgeResult := wedge)
    {
      lastWedgeResult := wedge;
    }

    method StartTriviaRound()
      requires Valid()
      modifies this
      ensures Valid() && triviaAnswers == []
      ensures State() == old(State()).(triviaScore := 0, triviaQuestionsAnswered := 0)
    {
      triviaScore := 0;
      triviaQuestionsAnswered := 0;
      triviaAnswers := [];
    }

    method RecordTriviaAnswer(isCorrect: bool)
      requires Valid()
      modifies this
      ensures Valid() && triviaAnswers == old(triviaAnswers) + [isCorrect]
      ensures State() == old(State()).(
        triviaScore := old(triviaScore) + (if isCorrect then 10 else -5),
        triviaQuestionsAnswered := old(triviaQuestionsAnswered) + 1)
    {
      var pointChange := if isCorrect then CORRECT_POINTS else INCORRECT_POINTS;
      triviaScore := triviaScore + pointChange;
      triviaQuestionsAnswered := triviaQuestionsAnswered + 1;
      triviaAnswers := triviaAnswers + [isCorrect];
      assert triviaAnswers[..|triviaAnswers| - 1] == old(triviaAnswers);
    }

    /** Credits `max(0, triviaScore)`; the score itself is left as it was. */
    method FinishTriviaRound() returns (coinsEarned: int)
      requires Valid()
      modifies this
      ensures Valid() && triviaAnswers == old(triviaAnswers)
      ensures coinsEarned == ZeroRewardFloor(old(triviaScore))
      ensures State() == old(State()).(playerBalance := old(playerBalance) + coinsEarned)
      ensures playerBalance >= old(playerBalance)
    {
      coinsEarned := if 0 >= triviaScore then 0 else triviaScore;
      if coinsEarned > 0 {
        AddCoins(coinsEarned);
      }
    }

    method ResetGameState()
      modifies this
      ensures Valid() && triviaAnswers == []
      ensures State() == INITIAL_STATE
    {
      playerBalance := 0;
      currentWheelRotation := 0.0;
      isSpinning := false;
      lastWedgeResult := None;
      triviaScore := 0;
      triviaQuestionsAnswered := 0;
      triviaAnswers := [];
    }
  }
}
