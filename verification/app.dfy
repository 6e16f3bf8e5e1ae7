/** The application entry point: it creates the one GameState and handles
    the deep link by which the external checkout returns to the app. */
module App {
  import opened GameModel

  const CheckoutScheme := "testcheckout"
  const CheckoutHost := "checkout-complete"
  const CreditsPerPurchase := 500
  const PurchaseToast := "+500 credits added!"

  /** The only check made on an incoming URL: its scheme and host. Any URL
      of this shape is trusted. A URL lacking a scheme or a host is given
      here as any string other than the expected one. */
  predicate IsCheckoutComplete(scheme: string, host: string) {
    scheme == CheckoutScheme && host == CheckoutHost
  }

  /** The effect of opening a URL on the game state. */
  function OpenURLStep(s: Snapshot, scheme: string, host: string): (r: Snapshot)
    ensures IsCheckoutComplete(scheme, host) ==>
              r.credits == s.credits + CreditsPerPurchase && r.toastMessage == Some(PurchaseToast)
    ensures !IsCheckoutComplete(scheme, host) ==> r == s
    ensures r.score == s.score && r.showBuyModal == s.showBuyModal && r.starPosition == s.starPosition
    ensures r.credits != s.credits <==> IsCheckoutComplete(scheme, host)
  {
    if IsCheckoutComplete(scheme, host) then
      s.(credits := s.credits + CreditsPerPurchase, toastMessage := Some(PurchaseToast))
    else
      s
  }

  /** The state object the app creates once, at launch. */
  method Launch() returns (gameState: GameState)
    ensures fresh(gameState) && gameState.Valid()
    ensures gameState.Snap() == Initial && gameState.purchases == 0
  {
    gameState := new GameState();
  }

  /** The URL handler, applied to the shared state. */
  method OnOpenURL(gameState: GameState, scheme: string, host: string)
    requires gameState.Valid()
    modifies gameState
    ensures gameState.Valid()
    ensures gameState.Snap() == OpenURLStep(old(gameState.Snap()), scheme, host)
    ensures gameState.purchases ==
              old(gameState.purchases) + (if IsCheckoutComplete(scheme, host) then 1 else 0)
  {
    if scheme == CheckoutScheme && host == CheckoutHost {
      gameState.credits := gameState.credits + CreditsPerPurchase;
      gameState.toastMessage := Some(PurchaseToast);
      gameState.purchases := gameState.purchases + 1;
    }
  }
}
