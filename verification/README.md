# Cruise Line Tycoon: the game economy

A model of the economy of Cruise Line Tycoon, a browser idle game in which
the player buys, upgrades and advertises cruise ships and earns money from a
passive-income tick. The whole game lives in one mutable record: money
(starting at 1000), the passenger total shown on screen, reputation (starting
at 50), the list of ships in purchase order and the last ship id handed out.
Three priced actions change it: buying a ship (500), upgrading a random ship
(300) and advertising (200). Each is rejected, changing nothing, when money
is short, and the upgrade is also rejected when there is no ship. Once a
second, the tick adds Σ passengers × level to money and recomputes the
passenger total.

The project has three modules:

- `Fleet` (fleet.dfy): the ship record and the random draws that create and
  grow ships, written the way the game computes them
  (`Math.floor(Math.random() * n) + c`). It also holds the two sums the tick
  computes with `reduce`, as recursive functions, and lemmas about them:
  appending a ship, replacing a ship, growth never lowering either sum, and
  advertising adding 1 to 5 passengers per ship.
- `Economy` (economy.dfy): the game state as a value, the enable predicates
  of the three buttons, and one function per action. `Step` applies one
  action and `Run` applies a sequence of them. The invariant `Valid` says
  money ≥ 0, passenger total ≥ 0, reputation in [0, 100], ids strictly increasing and positive,
  no id above the counter, and levels ≥ 1. `Evolves` says a later state of
  the same session keeps every ship with its id, position and colour, and
  loses no level or passenger. The lemmas prove that every step keeps both,
  so they hold after any interleaving of actions and ticks from the start
  of a session. They also prove the worked examples: a tick over ships
  (5, 1) and (8, 2), and the buy / upgrade / advertise scenario ending at
  money 0 and reputation 57.
- `Tycoon` (tycoon.dfy): the class `GameState`, whose fields the methods
  update in place as the game does. Advertising walks the ship list with a
  loop. Each method's postcondition says its result and new state are those
  of the matching `Economy` function, and every method keeps `Valid`.

Every use of `Math.random()` is a parameter of type `Unit`, a real in
[0, 1). The advertising campaign takes one draw per ship index.

## Model

| member | source | states |
|---|---|---|
| Fleet.Draw | script.js:200 | `Math.floor(r * n)` for `r` in [0, 1) is a valid index below `n`, and is the floor of `r * n` |
| Fleet.NewPassengers | script.js:187 | a new ship's passengers, and the passengers an upgrade adds, are in [5, 14] |
| Fleet.AdPassengers | script.js:221 | advertising adds between 1 and 5 passengers to a ship |
| Fleet.Hue | script.js:188 | the hue of a new ship's colour is in [0, 360) |
| Fleet.Upgraded | script.js:203-204 | an upgraded ship keeps its id, position and colour, gains exactly one level and gains 5 to 14 passengers |
| Fleet.Advertised | script.js:220-222 | an advertised ship keeps its id, position, colour and level and gains 1 to 5 passengers |
| Fleet.AllAdvertisedAt | script.js:220-222 | advertising every ship keeps the ship count, and ship k gets exactly its own draw |
| Fleet.SumsAppend | script.js:59-61 | appending a ship adds its passengers × level to the income sum and its passengers to the passenger sum |
| Fleet.SumsUpdate | script.js:59-61 | replacing one ship changes each sum by exactly the difference between the new and the old ship |
| Fleet.SumsMonotone | script.js:59-61 | when no ship is removed and none loses a level or passengers, neither sum goes down |
| Fleet.AllAdvertisedPassengers | script.js:220-222 | advertising raises the passenger sum by at least one and at most five per ship |
| Fleet.IdsDistinct | script.js:180-183 | strictly increasing ship ids are pairwise distinct |
| Fleet.IncomeExample | script.js:59-61 | ships (5 passengers, level 1) and (8, level 2) earn 21 per tick and carry 13 passengers |
| Economy.RaiseReputation | script.js:207 | `Math.min(100, r + delta)` is at most 100 and at most `r + delta`, never below `r` when `r` ≤ 100, and is either `r + delta` or 100, so it is exactly the smaller of the two |
| Economy.AddShip | script.js:176-194 | succeeds exactly when the buy button is enabled (money ≥ 500), and when rejected changes nothing; on success money drops by exactly 500, the counter rises by one, existing ships are untouched and one ship is appended with the new counter as id, level 1, 5 to 14 passengers and the given position |
| Economy.UpgradeRandomShip | script.js:196-211 | succeeds exactly when the upgrade button is enabled (money ≥ 300 and a ship exists), and when rejected changes nothing; on success money drops by exactly 300, the ship at the drawn index is upgraded, every other ship is unchanged, and reputation becomes min(100, r + 2) |
| Economy.Advertise | script.js:213-226 | succeeds exactly when the advertise button is enabled (money ≥ 200), and when rejected changes nothing; on success money drops by exactly 200, reputation becomes min(100, r + 5), ship count, ids and levels stay, and every ship gains 1 to 5 passengers |
| Economy.IncomeTick | script.js:58-62 | a tick adds exactly Σ passengers × level to money (so money never falls), sets the passenger total to Σ passengers and leaves ships and reputation alone |
| Economy.InitialValid | script.js:2-11 | a session starts with 1000 money, reputation 50, no ships, in a state that satisfies the invariant |
| Economy.StepValid | script.js:176-226 | every action and every tick keeps money ≥ 0, reputation in [0, 100], ids increasing and at most the counter, and levels ≥ 1 |
| Economy.AddShipValid | script.js:176-194 | a purchase keeps the invariant: the new id is above every existing one and at most the counter, and money stays ≥ 0 because the guard rejects money below 500 |
| Economy.UpgradeValid | script.js:196-211 | an upgrade keeps the invariant: ids are untouched, levels only rise, money stays ≥ 0 and reputation stays ≤ 100 |
| Economy.AdvertiseValid | script.js:213-226 | advertising keeps the invariant: ids and levels are untouched, money stays ≥ 0 and reputation stays ≤ 100 |
| Economy.StepEvolves | script.js:176-226 | no action or tick removes a ship, changes a ship's id, position or colour, lowers a level or a passenger count, or lowers the id counter |
| Economy.RunValid | script.js:58-63 | any interleaving of actions and ticks from a valid state ends in a valid state that evolves from it |
| Economy.SessionSafe | script.js:3-7 | from the start of a session, under any interleaving, money is never negative, reputation stays in [0, 100], and ship ids strictly increase in list order (hence are distinct) and are never above the counter |
| Economy.IncomeNeverFalls | script.js:59-61 | the income per tick and the passenger sum never fall over any run of actions and ticks |
| Economy.AddShipFreshId | script.js:180-183 | a bought ship's id is above every id already in the list |
| Economy.AddShipSums | script.js:182-191 | a purchase raises the next tick's income and passenger sum by the new ship's passengers |
| Economy.UpgradeSums | script.js:203-204 | an upgrade changes the income by the upgraded ship's yield difference and raises the passenger sum by 5 to 14 |
| Economy.AdvertiseSums | script.js:220-222 | advertising raises the passenger sum by 1 to 5 per ship and never lowers the income |
| Economy.TickExample | script.js:59-61 | a tick over ships (5, 1) and (8, 2) adds 21 to money and sets the passenger total to 13 |
| Economy.Scenario | script.js:176-226 | from the start, buy then upgrade then advertise ends with money 0, reputation 57 and one ship of level 2 with id 1 |
| Tycoon.ButtonPlacement | script.js:247-248 | the buy button places a ship in [20%, 80%] of the canvas width and [70%, 90%] of its height |
| Tycoon.Scaled | script.js:247-248 | `Math.random() * w` lies in [0, w] for a non-negative span `w` |
| Tycoon.GameState.constructor | script.js:2-11 | a new game object holds the initial state and satisfies the invariant |
| Tycoon.GameState.AddShip | script.js:176-194 | buying in place returns and leaves exactly what `Economy.AddShip` gives, and keeps the invariant |
| Tycoon.GameState.BuyButton | script.js:245-250 | the buy button buys a ship at the placed position, as `Economy.AddShip` does there |
| Tycoon.GameState.UpgradeRandomShip | script.js:196-211 | upgrading in place returns and leaves exactly what `Economy.UpgradeRandomShip` gives, and keeps the invariant |
| Tycoon.GameState.Advertise | script.js:213-226 | the loop over the ships leaves exactly what `Economy.Advertise` gives, and keeps the invariant |
| Tycoon.GameState.IncomeTick | script.js:58-62 | the tick in place leaves exactly what `Economy.IncomeTick` gives, and keeps the invariant |

## Left out

- Rendering (`gameLoop`, `drawOcean`, `drawShip`, script.js:69-174): canvas draw calls over floating-point trigonometry, with no state change. `gameTime` and `waveOffset` are written only by rendering, so they are not in the state.
- Scheduling: `setInterval` and `requestAnimationFrame` (script.js:58, 66, 86) are not modelled, and neither is `passiveIncomeInterval`. The tick is an operation that may come between any two actions, and `Run` covers every such interleaving.
- The DOM: screen navigation, `resizeCanvas`, the text shown and the button labels in `updateUI` (script.js:14-53, 228-241). Only the three disabled predicates are kept, as `Economy.BuyDisabled`, `Economy.UpgradeDisabled` and `Economy.AdvertiseDisabled`. Refreshing the display changes no game state.
- The canvas click (script.js:256-264): turning the mouse position into canvas coordinates and the `y > height * 0.6` gate are event plumbing. The purchase it makes is `AddShip` at the clicked point.
- `Math.random()`: every draw is a parameter in [0, 1). Reals stand in for JavaScript doubles, so the rounding of `r * n` in floating point is not modelled.
- The colour string `hsl(h, 70%, 70%)`: only the hue `h` is kept. The fixed saturation and lightness and the string format are display only.
- Aliasing: ships are values in a sequence. In the game they are objects held only by the `ships` array, so updating a record in place and replacing it in the sequence have the same effect.
- Numbers are unbounded integers. JavaScript numbers lose integer precision above 2^53, and money could in principle grow that far; the model does not capture this.
