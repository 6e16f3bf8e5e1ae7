# Tap the Star: session state model

This project models the session logic of the "Tap the Star" iOS mini-game.
The player taps a star. Each tap costs one credit and scores one point.
When the credits run out, a buy sheet offers 500 more coins. The external
checkout then re-opens the app through the deep link
`testcheckout://checkout-complete`, and the app adds 500 credits and shows
a toast.

The shared `GameState` object is the Dafny class `GameModel.GameState`. It
keeps the same fields (`credits`, `score`, `starPosition`, `showBuyModal`,
`toastMessage`) and the same initial values (3, 0, (150, 300), false, none).
It has a ghost counter `purchases` of accepted checkout completions. Its
invariant `Valid()` states `credits >= 0`, `score >= 0` and
`score + credits == 3 + 500 * purchases`. Every closure of the screen that
changes a modelled field is a method of that class:

- `Tap`: the end of the star gesture.
- `BuyCoins`: the "Buy Coins" button.
- `ConfirmPurchase` and `CancelPurchase`: the sheet's "Buy 500 Coins" and "Cancel" buttons.
- `DismissSheet`: the sheet binding's write-back when the sheet is swiped away.
- `ExpireToast`: the delayed toast clearing.

The deep-link handler of the app is `App.OnOpenURL`. Each method is proved
to agree with a function on a `Snapshot` of the fields (`TapStep`,
`OpenURLStep`, ...). Those functions state the properties of one
transition. Module `Session` composes them over event sequences and proves
what holds of every reachable state.

A button or gesture that the screen shows only in some states becomes a
precondition:

- The star is drawn only while `credits > 0`.
- The "Buy Coins" button is drawn only while `credits == 0`.
- The sheet's buttons exist only while the sheet is shown.

The random star position is an input. It must lie in the ranges the gesture
handler draws from, x in 60...(width − 60) and y in 120...(height − 60).
The URL's scheme and host are string inputs.

Notes on the code:

- The toast timer (tapthestar/ContentView.swift:181) cannot be cancelled.
  Nothing in the model claims that replacing a toast restarts its
  two-second window.
- The tap handler (tapthestar/ContentView.swift:78-91) does not check
  credits. Only the render guard at tapthestar/ContentView.swift:59
  prevents a tap at 0 credits.
- The callback scheme is the constant `testcheckout`
  (tapthestar/tapthestarApp.swift:26, tapthestar/ContentView.swift:228).

## Model

| member | source | states |
|---|---|---|
| GameModel.TapStep | tapthestar/ContentView.swift:78-91 | a tap moves the star to the chosen in-bounds point and adds exactly 1 to score. It removes exactly 1 credit, keeps score + credits and leaves credits ≥ 0. It opens the buy sheet exactly when credits reach 0 and otherwise leaves the sheet flag and the toast as they were. |
| GameModel.StarAreaLargeEnough | tapthestar/ContentView.swift:83-84 | a star position in the drawing ranges exists only if the area is at least 120 wide and 180 high |
| GameModel.ShowBuyModalStep | tapthestar/ContentView.swift:103-105 | the "Buy Coins" button, offered only at 0 credits, raises the sheet and changes nothing else |
| GameModel.HideBuyModalStep | tapthestar/ContentView.swift:140-174 | "Buy 500 Coins", "Cancel" and a dismissal all lower the sheet flag and touch neither credits, score, star nor toast |
| GameModel.ExpireToastStep | tapthestar/ContentView.swift:179-186 | the delayed clearing removes the toast and nothing else |
| GameModel.GameState.constructor | tapthestar/ContentView.swift:3-10 | a new game has 3 credits, score 0, star at (150, 300), sheet hidden, no toast, and satisfies the invariant with 0 purchases |
| GameModel.GameState.Tap | tapthestar/ContentView.swift:59-91 | requires the star to be drawn (credits > 0) and an in-range position. The object's new fields are TapStep of the old ones. The invariant is kept |
| GameModel.GameState.BuyCoins | tapthestar/ContentView.swift:103-105 | requires credits == 0. The new fields are ShowBuyModalStep of the old ones. The invariant is kept |
| GameModel.GameState.ConfirmPurchase | tapthestar/ContentView.swift:149-151 | the new fields are HideBuyModalStep of the old ones. The invariant is kept |
| GameModel.GameState.CancelPurchase | tapthestar/ContentView.swift:172-174 | the new fields are HideBuyModalStep of the old ones. The invariant is kept |
| GameModel.GameState.DismissSheet | tapthestar/ContentView.swift:140 | the sheet binding's write-back: the new fields are HideBuyModalStep of the old ones |
| GameModel.GameState.ExpireToast | tapthestar/ContentView.swift:181-185 | the new fields are ExpireToastStep of the old ones. The invariant is kept |
| App.OpenURLStep | tapthestar/tapthestarApp.swift:24-29 | a URL with scheme "testcheckout" and host "checkout-complete" adds exactly 500 credits and sets the toast "+500 credits added!". Any other URL leaves the whole state unchanged. Credits change if and only if the URL matches. Score, sheet flag and star never change |
| App.OnOpenURL | tapthestar/tapthestarApp.swift:26-28 | the shared object's new fields are OpenURLStep of the old ones. The purchase counter grows by one exactly for a matching URL. The invariant is kept |
| App.Launch | tapthestar/tapthestarApp.swift:6 | the app creates one fresh GameState in the initial state |
| Session.StepBalance | tapthestar/ContentView.swift:86-87 | one enabled event adds 1 to score if it is a tap. It adds 500 to score + credits if it is an accepted checkout completion. It never makes credits negative |
| Session.RunBalance | tapthestar/tapthestarApp.swift:24-29 | over any sequence of enabled events, score grows by the number of taps and score + credits grows by 500 per accepted checkout completion. Credits stay non-negative |
| Session.Reachable | tapthestar/tapthestarApp.swift:6 | every state reached from a new GameState has score + credits == 3 + 500 · accepted completions, credits ≥ 0 and score == number of taps |
| Session.RepeatedCheckout | tapthestar/tapthestarApp.swift:26-28 | there is no deduplication: n matching deep links in a row add exactly 500 · n credits and change nothing but the toast |
| Session.ThreeTapsThenCheckout | tapthestar/ContentView.swift:78-105 | three taps from a new game leave 0 credits, score 3 and the sheet raised. The star is no longer offered and "Buy Coins" is. A checkout completion then gives 500 credits, the toast and a playable star |

## Left out

- Layout, colours, animation, `ToastView` and the `isStarPressed` pressed-look flag: presentation only.
- Randomness of the star position: the chosen point is an input constrained to the drawing ranges. CGFloat arithmetic is modelled with exact reals.
- The two-second timing of the toast clearing: `ExpireToast` is an event that may occur in any state. So the model neither claims nor excludes that an older timer clears a newer toast.
- `getOwnIPAddress`: it walks the C interface list through foreign calls.
- `getCheckoutURLFromDummyServer`: an HTTP POST with JSON encoding and decoding, waited on with a semaphore. This is network and concurrency.
- The `onChanged` closure of the star gesture (tapthestar/ContentView.swift:75-77): it sets only `isStarPressed`, which is not modelled.
- `goToCheckoutPage`: it opens the link. It also crashes by force-unwrapping `URL(string: "")` when the request failed. `ConfirmPurchase` models only the flag change of that button.
- Parsing the incoming URL: the scheme and host arrive as strings. A missing scheme or host (nil in the source) is represented by any string other than the expected one.
- The SwiftData model container and the unused `Item` model: persistence stubs with no logic.
- GameModel.TapStep: requires non-empty ranges for the new position. In a drawing area under 120 wide or 180 high the source traps when it builds `60...(width - 60)` or `120...(height - 60)`. The area is pinned to 400 high (tapthestar/ContentView.swift:96) and is as wide as the screen, so the model requires the ranges to be non-empty instead of modelling the trap.
- GameModel.TapStep: the model uses unbounded integers. Swift's `Int` traps when `score += 1` overflows, which would take about 2^63 taps.
- App.OpenURLStep: the model uses unbounded integers. Swift's `Int` traps when `credits += 500` overflows, which would take about 2^63 / 500 deep links.
