/**
 * The home screen: it owns the local spinning flag and, when a spin
 * ends, stores the final rotation, resolves the wedge and either credits
 * coins or schedules the move to the trivia screen.
 */
module HomeScreen {
  import opened GameStore

  /** Coins a landed wedge credits on the home screen. */
  function SpinCredit(wedge: WedgeConfig): int
  {
    if wedge.kind == Trivia then 0 else wedge.value
  }

  /** A spin never lowers the balance; it credits nothing exactly when it lands on trivia. */
  lemma SpinCreditSign(rotation: real)
    ensures SpinCredit(GetWedgeFromRotation(rotation)) >= 0
    ensures SpinCredit(GetWedgeFromRotation(rotation)) == 0 <==> GetWedgeFromRotation(rotation).kind == Trivia
  {
    WedgeTableShape();
    WedgeIndexInRange(rotation);
  }

  class Home {
    const store: Store
    var isSpinning: bool
    /** Set once `router.push("/trivia")` has been scheduled. */
    var triviaNavigationScheduled: bool

    constructor (store: Store)
      ensures this.store == store && !isSpinning && !triviaNavigationScheduled
    {
      this.store := store;
      isSpinning := false;
      triviaNavigationScheduled := false;
    }

    method HandleSpinStart()
      modifies this
      ensures isSpinning && triviaNavigationScheduled == old(triviaNavigationScheduled)
    {
      isSpinning := true;
    }

    method HandleSpinComplete(finalRotation: real) returns (wedge: WedgeConfig)
      requires store.Valid()
      modifies this, store
      ensures store.Valid() && store.triviaAnswers == old(store.triviaAnswers)
      ensures !isSpinning
      ensures wedge == GetWedgeFromRotation(finalRotation)
      ensures wedge == GetWedgeFromRotation(store.currentWheelRotation)
      ensures store.State() == old(store.State()).(
        currentWheelRotation := Normalize(finalRotation),
        playerBalance := old(store.playerBalance) + SpinCredit(wedge))
      ensures store.playerBalance >= old(store.playerBalance)
      ensures triviaNavigationScheduled == (old(triviaNavigationScheduled) || wedge.kind == Trivia)
    {
      store.SetWheelRotation(finalRotation);
      isSpinning := false;
      wedge := GetWedgeFromRotation(finalRotation);
      LookupAfterNormalize(finalRotation);
      SpinCreditSign(finalRotation);
      if wedge.kind == Trivia {
        triviaNavigationScheduled := true;
      } else {
        store.AddCoins(wedge.value);
      }
    }
  }
}
