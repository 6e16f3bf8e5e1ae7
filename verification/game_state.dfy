/** The session state of the "tap the star" screen: the GameState object that
    the star gesture and the buttons of the screen update in place.

    The value-level functions (TapStep, ShowBuyModalStep, HideBuyModalStep,
    ExpireToastStep) specify each transition on a Snapshot of the fields;
    the methods of class GameState perform the transition on the object and
    are proved to agree with them. */
module GameModel {

  datatype Option<T> = None | Some(value: T)

  /** A star position, in the points of the drawing area (a CGPoint). */
  datatype Point = Point(x: real, y: real)

  /** The observable fields of GameState, as one value. */
  datatype Snapshot = Snapshot(
    credits: int,
    score: int,
    starPosition: Point,
    showBuyModal: bool,
    toastMessage: Option<string>)

  const InitialCredits := 3
  const StarStart := Point(150.0, 300.0)

  /** The state of a freshly created GameState. */
  const Initial := Snapshot(InitialCredits, 0, StarStart, false, None)

  /** The ranges the new star position is drawn from: x in 60...(width - 60)
      and y in 120...(height - 60). A closed range whose lower bound exceeds
      its upper bound traps, so a position exists only when the drawing area
      is at least 120 wide and 180 high. */
  predicate InStarBounds(width: real, height: real, p: Point) {
    60.0 <= p.x <= width - 60.0 && 120.0 <= p.y <= height - 60.0
  }

  /** A star position can be drawn only in an area at least 120 wide and
      180 high. */
  lemma StarAreaLargeEnough(width: real, height: real, p: Point)
    requires InStarBounds(width, height, p)
    ensures width >= 120.0 && height >= 180.0
  {
  }

  /** What the game promises of every state it reaches: credits are never
      negative, and every point of score was paid with one credit, the
      credits coming from the three initial ones and 500 per purchase. */
  predicate Consistent(s: Snapshot, purchases: nat) {
    s.credits >= 0 && s.score >= 0 &&
    s.score + s.credits == InitialCredits + 500 * purchases
  }

  /** The end of a tap on the star: the star moves to p, one credit becomes
      one point of score, and running out of credits opens the buy sheet.
      The star is drawn only while credits are positive, hence the requires. */
  function TapStep(s: Snapshot, width: real, height: real, p: Point): (r: Snapshot)
    requires s.credits > 0 && InStarBounds(width, height, p)
    ensures r.score == s.score + 1 && r.credits == s.credits - 1
    ensures r.credits >= 0 && r.score + r.credits == s.score + s.credits
    ensures r.starPosition == p && InStarBounds(width, height, r.starPosition)
    ensures r.credits == 0 ==> r.showBuyModal
    ensures r.credits > 0 ==> r.showBuyModal == s.showBuyModal
    ensures r.toastMessage == s.toastMessage
  {
    var left := s.credits - 1;
    Snapshot(left, s.score + 1, p, if left == 0 then true else s.showBuyModal, s.toastMessage)
  }

  /** The "Buy Coins" button, shown only when credits are exhausted: it
      raises the buy sheet and touches nothing else. */
  function ShowBuyModalStep(s: Snapshot): (r: Snapshot)
    requires s.credits == 0
    ensures r.showBuyModal
    ensures r.(showBuyModal := s.showBuyModal) == s
  {
    s.(showBuyModal := true)
  }

  /** The sheet's "Buy 500 Coins" and "Cancel" buttons, and dismissing the
      sheet by hand: the sheet goes away and nothing else changes. */
  function HideBuyModalStep(s: Snapshot): (r: Snapshot)
    ensures !r.showBuyModal
    ensures r.(showBuyModal := s.showBuyModal) == s
  {
    s.(showBuyModal := false)
  }

  /** The delayed clearing of the toast scheduled whenever a toast is set.
      Timing is not modelled: the clearing may happen in any state. */
  function ExpireToastStep(s: Snapshot): (r: Snapshot)
    ensures r.toastMessage == None
    ensures r.(toastMessage := s.toastMessage) == s
  {
    s.(toastMessage := None)
  }

  /** The shared, observable game state. `purchases` counts the checkout
      completions received so far; it exists only for the invariant. */
  class GameState {
    var credits: int
    var score: int
    var starPosition: Point
    var showBuyModal: bool
    var toastMessage: Option<string>
    ghost var purchases: nat

    function Snap(): Snapshot
      reads this
    {
      Snapshot(credits, score, starPosition, showBuyModal, toastMessage)
    }

    ghost predicate Valid()
      reads this
    {
      Consistent(Snap(), purchases)
    }

    constructor ()
      ensures Valid() && Snap() == Initial && purchases == 0
    {
      credits := InitialCredits;
      score := 0;
      starPosition := StarStart;
      showBuyModal := false;
      toastMessage := None;
      purchases := 0;
    }

    /** The star gesture ends at (newX, newY), drawn from the ranges of a
        width x height drawing area. */
    method Tap(width: real, height: real, newX: real, newY: real)
      requires Valid()
      requires credits > 0 && InStarBounds(width, height, Point(newX, newY))
      modifies this
      ensures Valid() && purchases == old(purchases)
      ensures Snap() == TapStep(old(Snap()), width, height, Point(newX, newY))
    {
      starPosition := Point(newX, newY);
      score := score + 1;
      credits := credits - 1;
      if credits == 0 {
        showBuyModal := true;
      }
    }

    method BuyCoins()
      requires Valid() && credits == 0
      modifies this
      ensures Valid() && purchases == old(purchases)
      ensures Snap() == ShowBuyModalStep(old(Snap()))
    {
      showBuyModal := true;
    }

    /** "Buy 500 Coins" on the sheet. Fetching and opening the checkout link
        that follows is not part of this model. */
    method ConfirmPurchase()
      requires Valid() && showBuyModal
      modifies this
      ensures Valid() && purchases == old(purchases)
      ensures Snap() == HideBuyModalStep(old(Snap()))
    {
      showBuyModal := false;
    }

    method CancelPurchase()
      requires Valid() && showBuyModal
      modifies this
      ensures Valid() && purchases == old(purchases)
      ensures Snap() == HideBuyModalStep(old(Snap()))
    {
      showBuyModal := false;
    }

    /** The sheet is swiped away; its binding writes the flag back. */
    method DismissSheet()
      requires Valid() && showBuyModal
      modifies this
      ensures Valid() && purchases == old(purchases)
      ensures Snap() == HideBuyModalStep(old(Snap()))
    {
      showBuyModal := false;
    }

    method ExpireToast()
      requires Valid()
      modifies this
      ensures Valid() && purchases == old(purchases)
      ensures Snap() == ExpireToastStep(old(Snap()))
    {
      toastMessage := None;
    }
  }
}
