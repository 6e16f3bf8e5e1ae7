/** A play session as a sequence of user and system events applied to the
    game state, and what holds of every state such a session reaches. */
module Session {
  import opened GameModel
  import opened App

  datatype Event =
    | StarTapped(width: real, height: real, at: Point)  // the star gesture ends
    | BuyCoinsPressed                                    // "Buy Coins" button
    | BuyConfirmed                                       // "Buy 500 Coins" on the sheet
    | BuyCancelled                                       // "Cancel" on the sheet
    | SheetDismissed                                     // sheet swiped away
    | URLOpened(scheme: string, host: string)            // deep link into the app
    | ToastExpired                                       // the toast's delayed clearing

  /** Whether the screen offers the event in state s: the star is drawn only
      while credits remain, the "Buy Coins" button only when none remain, the
      sheet's buttons only while the sheet is shown. */
  predicate Enabled(s: Snapshot, e: Event) {
    match e
    case StarTapped(width, height, p) => s.credits > 0 && InStarBounds(width, height, p)
    case BuyCoinsPressed => s.credits == 0
    case BuyConfirmed => s.showBuyModal
    case BuyCancelled => s.showBuyModal
    case SheetDismissed => s.showBuyModal
    case URLOpened(_, _) => true
    case ToastExpired => true
  }

  function Step(s: Snapshot, e: Event): Snapshot
    requires Enabled(s, e)
  {
    match e
    case StarTapped(width, height, p) => TapStep(s, width, height, p)
    case BuyCoinsPressed => ShowBuyModalStep(s)
    case BuyConfirmed => HideBuyModalStep(s)
    case BuyCancelled => HideBuyModalStep(s)
    case SheetDismissed => HideBuyModalStep(s)
    case URLOpened(scheme, host) => OpenURLStep(s, scheme, host)
    case ToastExpired => ExpireToastStep(s)
  }

  /** The state after the events, or None if one of them is not offered in
      the state it arrives in. */
  function Run(s: Snapshot, es: seq<Event>): Option<Snapshot>
    decreases |es|
  {
    if es == [] then Some(s)
    else if !Enabled(s, es[0]) then None
    else Run(Step(s, es[0]), es[1..])
  }

  predicate IsPurchase(e: Event) {
    e.URLOpened? && IsCheckoutComplete(e.scheme, e.host)
  }

  /** The number of accepted checkout completions among the events. */
  function Purchases(es: seq<Event>): nat {
    if es == [] then 0 else (if IsPurchase(es[0]) then 1 else 0) + Purchases(es[1..])
  }

  /** The number of star taps among the events. */
  function Taps(es: seq<Event>): nat {
    if es == [] then 0 else (if es[0].StarTapped? then 1 else 0) + Taps(es[1..])
  }

  /** n copies of the event e. */
  function Repeat(e: Event, n: nat): (es: seq<Event>)
    ensures |es| == n
    ensures forall i :: 0 <= i < n ==> es[i] == e
  {
    if n == 0 then [] else [e] + Repeat(e, n - 1)
  }

  /** One enabled event keeps the score-and-credits balance, counting a
      purchase as 500 credits and a tap as one point. */
  lemma StepBalance(s: Snapshot, e: Event)
    requires Enabled(s, e)
    ensures Step(s, e).score == s.score + (if e.StarTapped? then 1 else 0)
    ensures Step(s, e).score + Step(s, e).credits
            == s.score + s.credits + (if IsPurchase(e) then CreditsPerPurchase else 0)
    ensures s.credits >= 0 ==> Step(s, e).credits >= 0
  {
  }

  /** Over any session, the score grows by the number of taps, score plus
      credits grows by 500 per accepted checkout completion, and credits that
      start non-negative stay non-negative. */
  lemma {:induction false} RunBalance(s: Snapshot, es: seq<Event>, t: Snapshot)
    requires Run(s, es) == Some(t)
    ensures t.score == s.score + Taps(es)
    ensures t.score + t.credits == s.score + s.credits + CreditsPerPurchase * Purchases(es)
    ensures s.credits >= 0 ==> t.credits >= 0
    decreases |es|
  {
    if es != [] {
      StepBalance(s, es[0]);
      RunBalance(Step(s, es[0]), es[1..], t);
    }
  }

  /** Every state reached from a new GameState satisfies
      score + credits == 3 + 500 * purchases, with credits never negative
      and the score equal to the number of taps. */
  lemma Reachable(es: seq<Event>, t: Snapshot)
    requires Run(Initial, es) == Some(t)
    ensures Consistent(t, Purchases(es))
    ensures t.score == Taps(es)
  {
    RunBalance(Initial, es, t);
  }

  /** Checkout completions are not deduplicated: n of them in a row add
      500 * n credits and change nothing else but the toast. */
  lemma {:induction false} RepeatedCheckout(s: Snapshot, n: nat)
    ensures Run(s, Repeat(URLOpened(CheckoutScheme, CheckoutHost), n)) ==
            Some(s.(credits := s.credits + CreditsPerPurchase * n,
                    toastMessage := if n == 0 then s.toastMessage else Some(PurchaseToast)))
    decreases n
  {
    var e := URLOpened(CheckoutScheme, CheckoutHost);
    if n > 0 {
      var es := Repeat(e, n);
      assert es[0] == e && es[1..] == Repeat(e, n - 1);
      RepeatedCheckout(Step(s, e), n - 1);
    }
  }

  /** Three taps from a new game exhaust the credits and raise the buy sheet;
      a checkout completion then makes the star playable again. */
  lemma ThreeTapsThenCheckout(width: real, height: real, p1: Point, p2: Point, p3: Point)
    requires InStarBounds(width, height, p1) && InStarBounds(width, height, p2)
    requires InStarBounds(width, height, p3)
    ensures var tapped := Run(Initial, [StarTapped(width, height, p1),
                                        StarTapped(width, height, p2),
                                        StarTapped(width, height, p3)]);
            tapped.Some? && tapped.value.credits == 0 && tapped.value.score == 3 &&
            tapped.value.showBuyModal &&
            !Enabled(tapped.value, StarTapped(width, height, p1)) &&
            Enabled(tapped.value, BuyCoinsPressed) &&
            var paid := OpenURLStep(tapped.value, CheckoutScheme, CheckoutHost);
            paid.credits == 500 && paid.score == 3 && paid.toastMessage == Some(PurchaseToast) &&
            Enabled(paid, StarTapped(width, height, p1))
  {
    var t1, t2, t3 := StarTapped(width, height, p1), StarTapped(width, height, p2), StarTapped(width, height, p3);
    var s1 := TapStep(Initial, width, height, p1);
    var s2 := TapStep(s1, width, height, p2);
    var s3 := TapStep(s2, width, height, p3);
    assert [t1, t2, t3][1..] == [t2, t3];
    assert [t2, t3][1..] == [t3];
    assert Run(s3, []) == Some(s3);
    assert Run(s2, [t3]) == Some(s3);
    assert Run(s1, [t2, t3]) == Some(s3);
  }
}
