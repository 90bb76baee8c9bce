# JellyMath star economy in Dafny

JellyMath is a children's counting app. Its only rules, as opposed to its
layout and animations, are in the star economy. This project models that
economy:

- **The star ledger** (`Ledger`, from `StarBank.swift`): one shared integer
  balance. `addStars` credits it, `spendStars` debits it only when the balance
  covers the amount, `canAfford` tests the balance, and `resetStars` sets it.
  A `didSet` observer writes every assignment to the settings store under
  `jellyMathStars`. At launch the initializer loads the saved balance. On a
  first launch (saved balance 0 and flag `hasLaunchedBefore` unset) it grants
  128 stars and sets the flag. The store is its own object (`Defaults`, holding
  a `Settings` value). So the model can show a relaunch: a second `StarBank`
  built on the same store.
- **The backpack shop** (`Backpack`, from `BackpackView.swift`): six items with
  costs. Ownership lives only in the screen's state, while the stars spent
  are saved by the ledger. `handleBuy` ignores an index outside the list and
  an item already owned. Otherwise it debits the cost and marks the item owned, or, when the
  debit is refused, makes that item's card shake. Each card's "affordable"
  flag asks the ledger.
- **The level map** (`LevelMap`, from `MapView.swift`): six levels. The last
  three are locked until the balance reaches their threshold. The lock icon,
  whether a card can be entered, and the "+5" test reward are modelled.
- **The counting game** (`NumbersGame`, from `NumbersGameView.swift`):
  - A random question has an answer in 1..10 and four different options that
    include it. They are built by a drawing loop, then shuffled.
  - The objects are laid out in rows of at most five.
  - The answer logic awards one star per correct answer.

Each operation that changes screen or ledger state is a method: on a class
(`StarBank`, `BackpackView` or `NumbersGameView`), or, for the map's test
reward, a module-level method that takes the `StarBank`. Each method's
postcondition ties the new
state to a pure function of the old one (`Apply`, `Buy`, `ApplyAnswer`,
`Step`). Lemmas about sequences of calls are proved over those functions
(`Replay`, `BuyAll`, `Play`).

Random draws are inputs to the model:
- the object picked;
- the answer;
- the sequence of numbers drawn for the other options;
- the swap partners of the Fisher-Yates shuffle.

The `UUID`s of the items are numbers given to the `BackpackView` constructor.
Each delayed `DispatchQueue.main.asyncAfter` closure is its own method, and
the caller runs it as a separate step:
- `ShakeTimeout`;
- `RevealNext`;
- `ClearSelection`.

Where the ledger's documented design and the code differ, the model follows
the code:
- The grant depends on both a saved balance of 0 and the unset flag, not on
  the flag alone.
- Negative amounts are accepted. Nothing raises an error for them: a negative
  credit lowers the balance, and a negative debit raises it.
- The initializer does not write the balance to the store (see Findings).

## Model

| member | source | states |
|---|---|---|
| `Ledger.Launch` | JellyMath/StarBank.swift:23-32 | Launching never writes the balance to the store. The flag is set afterwards iff it was set before or this was a first launch. The balance is 128 on a first launch (saved balance 0 and flag unset) and the saved balance otherwise. Once launched, the saved balance is loaded and the store left unchanged. |
| `Ledger.FreshInstallGetsGrant` | JellyMath/StarBank.swift:27-31 | A fresh install starts with 128 stars and the flag set. |
| `Ledger.GrantAtMostOnce` | JellyMath/StarBank.swift:28-30 | Once a launch has granted (or the flag was already set), no store reached by writing balances triggers the grant again, even at balance 0. |
| `Ledger.WriteAllKeepsFlag` | JellyMath/StarBank.swift:61-63 | Saving balances never touches the launched flag, and the store ends up holding the last balance written. |
| `Ledger.RelaunchLosesGrant` | JellyMath/StarBank.swift:23-32 | As written: launch a fresh install (128 stars), then launch again with nothing changed. The second launch loads 0. |
| `Ledger.LaunchSaving` | JellyMath/StarBank.swift:23-32 | Corrected launch: the store holds the balance that is in memory. The balance is 128 on a first launch and otherwise the saved one. The flag rule is unchanged. |
| `Ledger.RelaunchKeepsBalance` | JellyMath/StarBank.swift:23-32 | With the corrected launch, launching again reloads exactly the same balance and store. |
| `Ledger.Apply` | JellyMath/StarBank.swift:35-58 | The balance after one add, spend or reset call. The `StarBank` methods' postconditions equal it; `ReplayStaysNonNegative`, `ReplayConcat`, `ResetForgetsHistory` and `CreditThenDebitRestores` state its properties. |
| `Ledger.ReplayStaysNonNegative` | JellyMath/StarBank.swift:35-58 | Start from a non-negative balance and make any sequence of add, spend and reset calls with non-negative amounts. The balance never goes below 0. |
| `Ledger.ReplayConcat` | JellyMath/StarBank.swift:35-58 | Calls compose: replaying two runs equals replaying the first and then the second. |
| `Ledger.ResetForgetsHistory` | JellyMath/StarBank.swift:56-58 | After any history, a final `resetStars(to: a)` leaves the balance at `a`. |
| `Ledger.CreditThenDebitRestores` | JellyMath/StarBank.swift:35-47 | From a non-negative balance, `addStars(n)` then `spendStars(n)` passes the guard and restores the original balance. |
| `Ledger.StarBank.constructor` | JellyMath/StarBank.swift:23-32 | The new ledger's balance and the store after init are those `Launch` gives for the store before it. |
| `Ledger.StarBank.Saving` | JellyMath/StarBank.swift:23-32 | The corrected initializer: balance and store as `LaunchSaving` gives them, and the store holds the balance. |
| `Ledger.StarBank.SaveStars` | JellyMath/StarBank.swift:14-19 | The observer writes the current balance under `jellyMathStars` and changes nothing else in the store. |
| `Ledger.StarBank.AddStars` | JellyMath/StarBank.swift:35-37 | The balance becomes exactly old + amount. The store then holds the new balance, and nothing else in it changes. |
| `Ledger.StarBank.SpendStars` | JellyMath/StarBank.swift:42-48 | Returns `canAfford(amount)` as it was before the call. When true, the balance drops by exactly `amount` and is saved. When false, neither the balance nor the store changes. A saved balance stays saved. |
| `Ledger.StarBank.CanAfford` | JellyMath/StarBank.swift:51-53 | True exactly when the balance covers the amount. This is the same test as the debit guard, and `SpendStars` returns its value. Being a function, it changes nothing. |
| `Ledger.StarBank.ResetStars` | JellyMath/StarBank.swift:56-58 | The balance becomes the given amount (default 0), whatever it was, and is saved. |
| `Backpack.Catalog` | JellyMath/BackpackView.swift:15-22 | Six items with the given ids and positive costs, none owned. |
| `Backpack.NothingOwnedCostsNothing` | JellyMath/BackpackView.swift:15-22 | A list with nothing owned has an owned total of 0. |
| `Backpack.MarkOwnedAddsCost` | JellyMath/BackpackView.swift:147-150 | Marking one unowned item owned raises the owned total by exactly its cost. |
| `Backpack.Buy` | JellyMath/BackpackView.swift:143-159 | Only `items[index]` can change, and ownership is never taken away. Balance plus owned total is preserved, so what is spent is what is bought. The items change only for an in-range, unowned, affordable item, which becomes owned. The shaking card changes only when that item's debit is refused. It then becomes that item's id, and balance and items stay unchanged. |
| `Backpack.BuyAllConserves` | JellyMath/BackpackView.swift:143-159 | Over any sequence of taps, balance plus owned total stays constant. |
| `Backpack.SpentEqualsOwnedCost` | JellyMath/BackpackView.swift:143-150 | Start from the unowned list and make any taps. The stars spent equal the total cost of the owned items. |
| `Backpack.BuyAllKeepsOwnership` | JellyMath/BackpackView.swift:143-150 | An owned item stays owned over any sequence of taps, so each item is paid for at most once while the screen lives (ownership is not saved; see Left out). |
| `Backpack.CardPredictsPurchase` | JellyMath/BackpackView.swift:56 | For an unowned item, the card's "affordable" flag is true iff tapping it buys the item. |
| `Backpack.RefusedPurchaseShakesOneCard` | JellyMath/BackpackView.swift:57 | After a refused purchase, exactly that item's card shakes, given distinct item ids. |
| `Backpack.BackpackView.Grid` | JellyMath/BackpackView.swift:53-59 | One card per item, and each card's flag equals the ledger's `CanAfford(items[i].cost)`. |
| `Backpack.BackpackView.constructor` | JellyMath/BackpackView.swift:15-23 | The screen starts with the catalog, nothing owned and no card shaking. |
| `Backpack.BackpackView.HandleBuy` | JellyMath/BackpackView.swift:143-159 | Balance, items and shaking card move as `Buy` says. A purchase lowers the balance by exactly the item's cost and saves it. Otherwise the store is untouched. Item ids stay distinct. |
| `Backpack.BackpackView.ShakeTimeout` | JellyMath/BackpackView.swift:155-157 | The delayed reset clears the shaking card only if it is still the same item. |
| `LevelMap.CanUnlock` | JellyMath/MapView.swift:128 | The flag the map passes each card: the balance reaches the threshold. Its monotonicity is `AccessibleMonotone`. |
| `LevelMap.IsAccessible` | JellyMath/MapView.swift:233-235 | A card can be entered when not locked or unlockable; `OpenLevelAlwaysAccessible`, `AccessibleMonotone` and `AccessibleLevelsFormPrefix` state its properties. |
| `LevelMap.ShowsLock` | JellyMath/MapView.swift:295 | The lock-icon condition; `LockShownIffInaccessible` proves it is the negation of `IsAccessible`. |
| `LevelMap.LockShownIffInaccessible` | JellyMath/MapView.swift:295 | The lock icon is drawn exactly on the cards that are not accessible. |
| `LevelMap.OpenLevelAlwaysAccessible` | JellyMath/MapView.swift:233-235 | A level not flagged locked is accessible at every balance. |
| `LevelMap.AccessibleMonotone` | JellyMath/MapView.swift:128 | Raising the balance never makes a level inaccessible. |
| `LevelMap.LevelsInOrder` | JellyMath/MapView.swift:28-35 | Six levels, `id == number == position + 1`. Thresholds and locked flags never decrease along the list. |
| `LevelMap.AccessibleLevelsFormPrefix` | JellyMath/MapView.swift:28-35 | At any balance, the accessible levels are a prefix of the list. |
| `LevelMap.StartingGrantOpensEveryLevel` | JellyMath/MapView.swift:28-35 | At 128 stars every level is accessible. At 0 stars exactly the first three are. |
| `LevelMap.Tap` | JellyMath/MapView.swift:238-247 | A tap changes the card's pressed state iff the card is accessible. An inaccessible card ignores it. |
| `LevelMap.TestReward` | JellyMath/MapView.swift:133-136 | The test button raises the balance by exactly 5 and saves it. |
| `NumbersGame.RandomQuestion` | JellyMath/NumbersGameView.swift:18-50 | The question is well formed: the answer is the one drawn, in 1..10, and there are exactly four pairwise different options in 1..10 that include it. The object is the one picked. The options are a permutation (same multiset) of the list the drawing loop builds. |
| `NumbersGame.Collect` | JellyMath/NumbersGameView.swift:36-42 | The list the drawing loop builds. `RandomQuestion`'s loop invariant ties the loop to it; `CollectKeepsDistinct` and `CollectFillsUp` state its properties. |
| `NumbersGame.CollectKeepsDistinct` | JellyMath/NumbersGameView.swift:36-42 | The drawing loop keeps the answer first, adds only drawn numbers, never repeats one and stops at four. |
| `NumbersGame.CollectFillsUp` | JellyMath/NumbersGameView.swift:37-42 | The loop ends with four options when the draws supply enough different numbers. |
| `NumbersGame.Shuffle` | JellyMath/NumbersGameView.swift:48 | The shuffle keeps the length and the multiset of the options. |
| `NumbersGame.PermutationKeepsDistinct` | JellyMath/NumbersGameView.swift:48 | Reordering a list without repeats leaves it without repeats. |
| `NumbersGame.Rows` | JellyMath/NumbersGameView.swift:236 | For n >= 0 there are just enough rows of five: `5*rows - 5 < n <= 5*rows`. |
| `NumbersGame.ItemsInRow` | JellyMath/NumbersGameView.swift:257-260 | A row never holds more than 5 objects, and every row drawn (below `Rows(n)`) holds at least 1. |
| `NumbersGame.RowTotalSoFar` | JellyMath/NumbersGameView.swift:257-260 | The first k rows hold `min(n, 5k)` objects. |
| `NumbersGame.GridShowsCount` | JellyMath/NumbersGameView.swift:236-260 | For an answer n in 1..10: `(n+4)/5` is 1 or 2 rows, each row holds 1 to 5 objects, and together they hold exactly n. |
| `NumbersGame.ApplyAnswer` | JellyMath/NumbersGameView.swift:264-303 | While an answer is selected, a new one changes nothing. Otherwise the answer is selected and `isCorrect` says whether it is right. Only a right answer adds exactly 1 star and 1 answered question, and a wrong one adds neither. The question and the Next button are untouched. |
| `NumbersGame.Step` | JellyMath/NumbersGameView.swift:287-313 | One event of the round: an answer (as `ApplyAnswer`), the Next button appearing, the selection clearing, or a new question resetting selection and flags. The view's methods equal it; `StarsMatchAnswered` and `PlayNeverSpends` state its properties over sequences. |
| `NumbersGame.CorrectAnswerLocksRound` | JellyMath/NumbersGameView.swift:264-284 | After a correct answer, further answers earn nothing until the selection is reset. |
| `NumbersGame.StarsMatchAnswered` | JellyMath/NumbersGameView.swift:264-313 | Over any sequence of answers, timers and Next taps, the stars awarded equal the growth of `questionsAnswered`. |
| `NumbersGame.PlayNeverSpends` | JellyMath/NumbersGameView.swift:264-313 | The game never lowers the balance. |
| `NumbersGame.NumbersGameView.constructor` | JellyMath/NumbersGameView.swift:59-64 | The screen opens on a well-formed random question with nothing selected and 0 questions answered. |
| `NumbersGame.NumbersGameView.HandleAnswer` | JellyMath/NumbersGameView.swift:264-303 | Screen state and balance move as `ApplyAnswer` says. A star awarded is saved, and otherwise the store is untouched. |
| `NumbersGame.NumbersGameView.TapAnswer` | JellyMath/NumbersGameView.swift:338-342 | The button's own guard (only when it is not the selected one) adds nothing. A tap moves screen state and balance as `ApplyAnswer` says, saves an awarded star, and otherwise leaves the store untouched, exactly as `handleAnswer`. |
| `NumbersGame.NumbersGameView.RevealNext` | JellyMath/NumbersGameView.swift:287-291 | The delayed step after a correct answer shows the Next button and changes nothing else. |
| `NumbersGame.NumbersGameView.ClearSelection` | JellyMath/NumbersGameView.swift:298-301 | The delayed step after a wrong answer clears the selection and changes nothing else. |
| `NumbersGame.NumbersGameView.NextQuestion` | JellyMath/NumbersGameView.swift:305-313 | The selection is cleared, `isCorrect` and `showNextButton` become false, a new well-formed question is drawn, and the balance and count are kept. |

## Findings

| source | as written | input that shows it | evidently intended | confidence | as-written member | corrected member |
|---|---|---|---|---|---|---|
| JellyMath/StarBank.swift:23-32 | The 128-star grant is assigned inside the initializer. Swift runs no `didSet` there, so the store keeps no balance while `hasLaunchedBefore` is set. | A fresh install is launched (balance 128) and then relaunched before any star is earned or spent. The relaunch loads 0. | The grant is saved with the flag, so a relaunch reloads 128. The comment at line 27 and the `didSet` auto-save both intend this. | medium (it depends on Swift's rule that observers do not run in the declaring type's initializer); not executed | `Ledger.RelaunchLosesGrant` | `Ledger.RelaunchKeepsBalance` |

## Left out

- `StarBank.formattedStars` (StarBank.swift:66-70): number formatting depends on `NumberFormatter` and the locale.
- `StarBank.preview`, `@Published` change notification and `@MainActor` confinement are left out. They are a preview helper and UI plumbing, and there is no concurrency to model.
- `UserDefaults` is modelled only as a two-map value store for the two keys. Persistence failures are not modelled.
- Ledger.StarBank.AddStars: does not model Swift's trap on 64-bit `Int` overflow; the balance is an unbounded integer.
- Ledger.StarBank.SpendStars: does not model the 64-bit overflow trap of `stars -= amount` for a very negative amount; the balance is an unbounded integer.
- Timing of the delayed closures (0.6 s, 1.5 s, 0.2 s) is not modelled. The model allows them in any order relative to other steps.
- `NumbersGame.RandomQuestion` requires the drawn numbers, together with the answer, to cover at least four different values. Otherwise the loop at NumbersGameView.swift:37-42 keeps drawing forever, and it terminates only with probability one. The shuffle is modelled as a Fisher-Yates pass driven by given swap partners, because the standard library's `shuffled()` is not part of this model.
- Backpack.BuyAllKeepsOwnership: "paid for at most once" holds only while one `BackpackView` lives. `isOwned` is `@State` (BackpackView.swift:9, 15) and is never saved, while the debit is saved by the ledger; after a relaunch the list shows nothing owned and the same item can be bought and paid for again. The model has no store for ownership.
- Item `UUID`s are numbers passed to the `BackpackView` constructor, which requires them to be distinct.
- The answer grid's visibility is not modelled: buttons exist only while `showNextButton` is false, one per option (NumbersGameView.swift:169-183). `TapAnswer` accepts any number.
- The unused `columns` value at NumbersGameView.swift:237 is left out.
- Animations and view state are left out: `celebrationScale`, `isPressed` resets, `ShakeEffect` (uses `sin` on `CGFloat`) and `cardAccent` (uses the per-process `hashValue`). Navigation to a level is a TODO in the code.
- The rest of the app is left out:
  - the calculator (ContentView.swift) works on `Double`;
  - NumbersView.swift mixes the same one-star rule with speech and timers;
  - GameManager.swift wraps speech synthesis;
  - the remaining screens are layout only.
