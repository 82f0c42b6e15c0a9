# Pop Cat clicker: a verified model of the upgrade economy and the input loop

The game shows a cat. The player taps the cat to earn points and spends them in a
shop of nine upgrades laid out as a 3 by 3 grid. A "Pts Mult" upgrade raises the
points earned per tap. An "Auto Click" upgrade raises a passive rate; the program
tracks that rate but never pays it out. Each purchase raises the cost of the
upgrade by half, truncated. A purchase may also append a randomly generated
upgrade to the catalog. This project models the state those rules act on and the
event loop that drives them in `POP.py`. It proves what they guarantee.

Modules, leaves first:

- `Wrappers` (`wrappers.dfy`): `Option`, `Min`, `Max`.
- `Shop` (`shop.dfy`): offers, the nine seed offers, the cost increase, offer
  names, and the random offer generator. The generator's draws are an explicit
  `OfferDraws` value restricted to the ranges the random source guarantees.
- `Sounds` (`sounds.dfy`): the list of sounds a counted tap may play, the choice
  among them, and the two-entry history of recently played sounds.
- `Geometry` (`geometry.dfy`): the cat image's rectangle, the shop cells, an
  independent point-to-cell function `CellAt` that the cells are checked against,
  and the per-frame scroll clamp.
- `GameState` (`game_state.dfy`): the program's globals as one `State` value, the
  invariant `Inv` that every reachable state satisfies, and one function per
  input event, per frame and for the whole loop. These functions are the
  specification for the loop. They require only `Bounded`: a sound history of at
  most two entries, which the random choice of sound needs. They preserve `Inv`
  whenever it holds before.
- `Runs` (`runs.dfy`): consequences over several events, such as spaced taps all
  counting, the cooldown ignoring a second tap, the sound history over a run of
  taps, a quit ending the loop, and the worked example of the first upgrade.
- `MainLoop` (`main_loop.dfy`): class `Game`, whose fields are the program's
  globals. Its handlers update them step by step, the shop loop is a `for` loop
  over the nine cells, and a frame is a `for` loop over its events. The main loop
  is a `while` loop that runs until a quit event. Each method is proved to have
  exactly the effect of the matching `GameState` function.

Inputs that the program reads from the environment become parameters:

- The clock reading of a pointer-down is the event's `now`. It stands for both
  `get_ticks()` calls on lines 102 and 115.
- The random choice of sound is an arbitrary natural number `soundPick`, reduced
  modulo the number of candidates. Every candidate can be chosen
  (`Sounds.ChooseSoundCoversCandidates`).
- The 50% draw for a new offer, together with the generator's three draws, is the
  event's `extra: Option<OfferDraws>`. `None` means no offer is appended. One
  draw per pointer-down is enough, because a point lies in at most one cell
  (`Geometry.CellsDisjoint`). So a pointer-down buys at most one offer
  (`GameState.ShopScanBuysAtMostOne`).

Behaviour of the code worth noting:

- Pointer-move scrolls the shop only while `dragging`. No handler ever sets
  `dragging` to true, so scrolling is inert. The model keeps the branch:
  `GameState.Step` describes it, and `GameState.Play` proves that a run that
  starts without dragging never drags.
- The clamp's upper bound (9 // 3)·80 − (800 − 100) is −460, so
  max(0, min(scroll_y, −460)) is 0 for every scroll offset
  (`Geometry.ClampedScroll`).
- `auto_clicker_rate` is only ever increased by purchases. It is never paid into
  the score, and the model does the same.
- The catalog can grow past nine entries, but only the first nine are
  hit-tested. Appended offers therefore can never be bought, and their cost never
  changes (`GameState.Grown`, `Runs.AppendedOffersNeverChange`).

## Model

| member | source | states |
|---|---|---|
| `Shop.SeedCatalog` | POP.py:35-45 | The start-up catalog has nine offers. Offer i costs 50·(i+1) and has a value of at least 1. The even positions hold multipliers and the odd ones hold auto-clickers. |
| `Shop.Raised` | POP.py:129 | The new cost r is ⌊1.5·cost⌋, stated as 2r ≤ 3·cost < 2r + 2. It is never below the old cost. |
| `Shop.DecimalRoundTrip` | POP.py:64 | The decimal numeral used in a generated name reads back as the number it was made from. |
| `Shop.LevelName` | POP.py:64 | A generated name is the kind's label, then " Lv", then decimal digits that read back as the value. |
| `Shop.LevelNameInjective` | POP.py:64 | A generated name "Pts Mult Lv<v>" or "Auto Click Lv<v>" determines both the kind and the value. |
| `Shop.GenerateOffer` | POP.py:60-65 | A generated offer costs between 200 and 500. A multiplier's value is between 1 and 3 and an auto-clicker's is between 1 and 5. Its name matches its kind and value. Cost, kind and value are the draws. |
| `Shop.GenerateOfferOnto` | POP.py:61-63 | Every offer within those bounds, with the matching name, is produced by some draws. |
| `Sounds.Candidates` | POP.py:106-108 | The candidate list holds exactly the indices below n that are not in the history (both directions), in strictly increasing order. |
| `Sounds.CandidatesNonEmpty` | POP.py:106-108 | With three sounds and a history of at most two entries, the candidate list is never empty, so the random choice always has something to pick. |
| `Sounds.ChooseSound` | POP.py:106-108 | The chosen sound is a valid index and is not in the history as it stood before the tap. |
| `Sounds.ChooseSoundCoversCandidates` | POP.py:106-108 | Every index that is not in the history can be the chosen one. |
| `Sounds.PushHistory` | POP.py:111-113 | The new history has min(old length + 1, 2) entries. It ends with the played sound, and every entry is the played sound or came from the old history. It stays distinct and in range when the played sound was new. It is exactly the old history with the played sound appended, with the oldest entry dropped when that would make three: the suffix of the newest entries. |
| `Geometry.ImageRect` | POP.py:30 | The cat image covers x in [20, 460) and y in [46, 486). |
| `Geometry.CellRect` | POP.py:119-121 | Cell idx is 140 by 60, in column idx % 3 at x = 20 + 160·column and row idx / 3 at y = 550 + 80·row − scroll. It lies within the window's width, and with no scroll each of the nine cells lies below y = 550 and within the window's height. |
| `Geometry.CellAtExact` | POP.py:118-122 | A point lies in cell idx (for idx < 9) exactly when the independent grid function `CellAt` returns idx. |
| `Geometry.CellsDisjoint` | POP.py:118-122 | No point lies in two of the nine cells. |
| `Geometry.ImageMissesCells` | POP.py:100-122 | With the shop unscrolled, no point is on both the cat and a shop cell. |
| `Geometry.ScrollLimit` | POP.py:144 | The clamp's upper bound, (9 / 3)·80 − (800 − 100), is −460. |
| `Geometry.ClampedScroll` | POP.py:144 | The clamp returns 0 for every scroll offset. |
| `GameState.Initial` | POP.py:29-56 | The start-up state has score 0, 1 point per tap, rate 0, last tap time 0, drag offset 0, an empty history, the seed catalog, scroll 0, no dragging, and the loop running. It satisfies the invariant. |
| `GameState.Click` | POP.py:100-115 | Within the cooldown (now − last ≤ 100), nothing changes. Otherwise the score grows by exactly the points per tap and `lastClickTime` becomes now. The played sound was not in the old history, and the new history is `PushHistory` of the old one and that sound. Nothing else changes. The history stays within two entries, and the invariant is preserved. |
| `GameState.Purchase` | POP.py:123-132 | An unaffordable offer changes nothing. A bought offer: the score drops by its cost and stays ≥ 0. A multiplier adds exactly its value to points per tap, and an auto-clicker adds exactly its value to the rate; the other field is unchanged. The cost becomes `Raised(cost)` and other entries are unchanged. The generated offer is appended when drawn. The cooldown time, history and loop fields are untouched. |
| `GameState.CellPress` | POP.py:119-122 | Hit-testing one cell keeps the invariant, only grows the catalog, and leaves the clock, history and loop fields untouched. |
| `GameState.ShopScan` | POP.py:118-132 | The same holds for the loop over the first k cells. |
| `GameState.ShopPress` | POP.py:118-132 | The shop's reaction to a pointer-down is one purchase of the visible cell under the point, or no change when no visible cell is there. It keeps the invariant, only grows the catalog, and leaves the scroll, drag and loop fields untouched. |
| `GameState.VisibleCount` | POP.py:118 | The shop looks at min(catalog length, 9) entries, and that is 9 in every reachable state. |
| `GameState.ShopScanBuysAtMostOne` | POP.py:118-132 | The shop loop has the same effect as one purchase of the cell under the point (if it is among the first k cells), or no effect. |
| `GameState.MouseDownStep` | POP.py:99-132 | A pointer-down keeps the invariant. When it misses the cat or comes within the cooldown, it is just the shop's reaction: purchases are not gated by the cooldown. |
| `GameState.Step` | POP.py:94-141 | Every event keeps the invariant and only grows the catalog. Only pointer-up clears `dragging`, and nothing sets it. Pointer-move changes nothing while not dragging, and other events never change the scroll. Quit only stops the loop. |
| `GameState.Steps` | POP.py:94-141 | A frame's events keep the invariant and only grow the catalog. Without dragging, the scroll is unchanged and dragging stays off. A quit among the events stops the loop; without one, the loop flag is unchanged. |
| `GameState.Frame` | POP.py:94-144 | After a frame's clamp, the scroll offset is 0. The invariant holds and the catalog has only grown. A quit among the frame's events stops the loop; without one, the loop flag is unchanged. |
| `GameState.Play` | POP.py:90-144 | Over any sequence of frames from a state satisfying the invariant, the invariant is preserved, so the score never goes negative. Catalog entries keep their positions, and entries past the ninth never change. Dragging never starts. Once a frame has run, the scroll is 0. A stopped loop runs no frame, and a loop still running at the end saw no quit in any frame. |
| `Runs.CatPressIsClick` | POP.py:99-122 | A pointer-down on the cat that misses the shop is exactly a tap registration. |
| `Runs.SpacedClicksAllCount` | POP.py:100-115 | n taps on the cat, each more than 100 ms after the previous one, add exactly n times the points per tap. They leave the catalog, the points per tap and the scroll unchanged. |
| `Runs.ShopCellPressIsPurchase` | POP.py:117-132 | A pointer-down on shop cell idx, away from the cat, is exactly an attempt to buy offer idx. |
| `Runs.PressWithinCooldownIgnored` | POP.py:102 | A pointer-down within the cooldown that misses the shop changes nothing. |
| `Runs.CooldownIgnoresSecondClick` | POP.py:102-115 | Of two taps on the cat at most 100 ms apart, only the first counts. |
| `Runs.BuyFirstSeedOffer` | POP.py:36 | With 50 points the seed multiplier is bought, which leaves 0 points, 2 points per tap and a new cost of 75. |
| `Runs.FirstUpgradeExample` | POP.py:100-132 | From start-up: one tap gives 1 point. Trying the 50-point multiplier then changes nothing. After 49 more spaced taps the score is 50, and the purchase leaves score 0, 2 points per tap and cost 75. |
| `Runs.QuitEndsLoop` | POP.py:90-96 | A frame containing a quit event is the last frame the running loop executes: the rest of the frames have no effect. |
| `Runs.SpacedClicksSoundHistory` | POP.py:106-113 | Over spaced taps on the cat, the history is exactly the last two sounds of the old history followed by the sounds played, and every tap plays a sound outside the history as it stood before that tap. |
| `Runs.SpacedClicksNoRepeat` | POP.py:106-113 | Over spaced taps on the cat, no two taps at most two apart play the same sound. |
| `Runs.AppendedOffersNeverChange` | POP.py:118-132 | An offer past the ninth position stays exactly as it was appended, whatever input follows. |
| `MainLoop.Game.constructor` | POP.py:29-56 | The fields start as the start-up state. |
| `MainLoop.Game.RegisterClick` | POP.py:100-115 | The new fields are `Click` of the old ones. Outside the cooldown the score grows by the points per tap and the time is recorded; inside it nothing changes. |
| `MainLoop.Game.TryPurchase` | POP.py:123-132 | The new fields are `Purchase` of the old ones. The result says whether the score covered the cost. |
| `MainLoop.Game.PressShop` | POP.py:118-132 | The loop over the visible cells has the effect of `ShopPress`. |
| `MainLoop.Game.HandleMouseDown` | POP.py:99-132 | The effect is `MouseDownStep`. |
| `MainLoop.Game.HandleMotion` | POP.py:134-137 | The effect is `Step` on a pointer-move. |
| `MainLoop.Game.HandleMouseUp` | POP.py:139-141 | The effect is `Step` on a pointer-up. |
| `MainLoop.Game.HandleEvent` | POP.py:94-141 | The effect is `Step` on the event. |
| `MainLoop.Game.ClampScroll` | POP.py:144 | The scroll offset becomes 0 and nothing else changes. |
| `MainLoop.Game.RunFrame` | POP.py:94-144 | The effect is `Frame` on the frame's events. |
| `MainLoop.Game.Run` | POP.py:90-144 | The effect is `Play`, so the loop stops after the frame in which a quit event was handled (`Runs.QuitEndsLoop`). |

## Left out

- Start-up of the graphics library: creating the window, loading and scaling the
  images, and loading the sounds (POP.py:6-27). This is I/O. The model keeps only
  the resulting sizes: the cat rectangle and the count of three sounds.
- All drawing: `draw_rounded_button`, hover highlighting, the score box, the shop
  border, frame presentation and the 60 fps wait (POP.py:69-83, 146-181). These
  have no effect on the state.
- Playing the chosen sound (POP.py:109). The sound's index is kept as the last
  entry of the history.
- The pressed/idle image flag `current_image` (POP.py:103, 141), `pygame.quit`
  and `sys.exit` (POP.py:184-185). These are visual state and process exit.
- The random module and the clock. They are inputs: `soundPick`, `extra` and
  `now` (see above). The model does not claim that the draws are uniform.
- Floating point in `int(cost * 1.5)`. `Shop.Raised` uses the integer
  `cost * 3 / 2`, which equals the float result for the small costs the game
  reaches.
- Unused globals: `last_sound_index`, `last_auto_click_time` and `max_abilities`
  beyond its use as the grid size (POP.py:48-49, 53).
- Periodic auto-click payout. It does not exist in the code.
- Offer records are mutable dictionaries in the program. The shop loop iterates
  over the slice `abilities[:max_abilities]`, a new list holding the same
  dictionaries as the catalog's first nine entries, so `ability["cost"] = …`
  (POP.py:129) changes the catalog entry through that shared reference. Here the
  offers are values, and a purchase replaces the entry at its position in
  `abilities`, which has the same effect. The model does not represent the
  shared references themselves. Because the slice is taken before the loop,
  an offer appended during the loop is not visited; the model's scan over the
  first nine positions agrees.
