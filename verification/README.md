# Gilded Rose inventory update, in Dafny

This project models the nightly inventory update of the Gilded Rose inn
(`TypeScript/app/gilded-rose.ts`). Every item has a name, a `sellIn` count of
days left to sell it, and a `quality` score. `GildedRose.updateQuality` walks
the shop's items in order. It sends each item to exactly one of five rules,
chosen by its name:

- **Aged Brie** gains quality.
- **Backstage passes** gain quality in tiers, then drop to nothing on the concert day.
- **Sulfuras** never changes.
- **Conjured** items (any name starting with "Conjured") lose quality twice as fast as normal ones.
- **Normal** items (every other name) lose quality.

Modules:

- `Items` (`items.dfy`): the `Item` record, the `Category` of rules, the dispatch `Classify`.
- `Rules` (`rules.dfy`): one pure function per rule and the per-item update `UpdateItem`.
- `Shop` (`shop.dfy`): the update of a whole inventory, both as a function over a
  sequence and as an in-place loop over an array. It also defines the state after
  any number of nights (`Simulate`, `Age`).
- `Trajectories` (`trajectories.dfy`): closed forms of each category's course over
  any number of nights, and the bounds the update keeps.
- `Scenarios` (`scenarios.dfy`): the scenarios of `TypeScript/test/vitest/gilded-rose.spec.ts`,
  stated as lemmas.

The model follows the code as written. Several places differ from the usual
description of the shop's rules, which says every item except Sulfuras keeps
`0 <= quality <= 50` and `sellIn >= 0` after every update:

- Normal and Conjured items never clamp quality at 50. A non-negative quality
  never rises (a negative one is lifted to 0), so a quality above 50 just decays
  from where it is.
- Aged Brie's `sellIn` falls below zero with no floor (`SellInStaysNonNegative`).
- Normal and Conjured items test for `sellIn === 0` exactly. A `sellIn` that starts
  negative is never clamped, keeps falling, and only ever costs one point (two
  for Conjured) a day, floored at 0 (`NormalTrajectory`, `ConjuredTrajectory`).
- A backstage pass with a negative `sellIn` misses the concert-day test. It takes
  the +3 tier, and only then is `sellIn` reset to 0 (`BackstagePastConcert`).

What does hold is the invariant `InRange`: an item that starts with quality in
[0, 50] stays there under every rule (`SimulateKeepsInRange`).

## Model

| member | source | states |
|---|---|---|
| Items.ConjuredNameMatchesPattern | TypeScript/app/gilded-rose.ts:77 | The conjured name test `IsConjuredName` holds exactly when the name's first eight characters are "Conjured" |
| Items.Classify | TypeScript/app/gilded-rose.ts:69-81 | Each rule is picked exactly when its own name condition holds, so every name gets exactly one rule. The three exact names go to their own rules, a "Conjured" prefix goes to the conjured rule, and every other name is normal |
| Items.ExactNamesAreNotConjured | TypeScript/app/gilded-rose.ts:70-77 | None of the three exact names starts with "Conjured", so testing the prefix after them shadows nothing |
| Rules.UpdateNormal | TypeScript/app/gilded-rose.ts:22-30 | Quality never goes below 0, and a non-negative quality never rises. Quality falls by exactly 2 when `sellIn` is 0 and by 1 otherwise, unless that would go below 0, in which case it is 0 (a negative quality is lifted to 0). `sellIn` stays at 0, or else falls by 1. The name is kept |
| Rules.UpdateAgedBrie | TypeScript/app/gilded-rose.ts:33-37 | Quality rises by 1 below 50 and is otherwise 50, never more. `sellIn` always falls by 1, with no floor |
| Rules.BackstageGain | TypeScript/app/gilded-rose.ts:46-52 | The daily gain before the concert is 1 to 3. It is 1 exactly when more than 10 days are left, and 3 exactly when at most 5 are |
| Rules.UpdateBackstagePasses | TypeScript/app/gilded-rose.ts:43-56 | Quality is never above 50 and `sellIn` never below 0. On the concert day (`sellIn` 0) the pass drops to (0, 0). On any other day a pass of non-negative quality stays worth something and gains its tier, capped at 50. A negative `sellIn` is reset to 0 |
| Rules.UpdateConjured | TypeScript/app/gilded-rose.ts:58-66 | Quality never goes below 0, and a non-negative quality never rises. Quality falls by exactly 4 when `sellIn` is 0 and by 2 otherwise, unless that would go below 0, in which case it is 0 (a negative quality is lifted to 0). `sellIn` moves exactly as a normal item's does |
| Rules.Max | TypeScript/app/gilded-rose.ts:29 | `Math.max`: the result is one of the two arguments and at least both; used for the floors at lines 29, 54 and 65 |
| Rules.Min | TypeScript/app/gilded-rose.ts:36 | `Math.min`: the result is one of the two arguments and at most both; used for the caps at lines 36 and 55 |
| Rules.UpdateItem | TypeScript/app/gilded-rose.ts:68-81 | The update never changes a name, and it leaves Sulfuras exactly as it was |
| Rules.ConjuredIsDoubleNormal | TypeScript/app/gilded-rose.ts:58-66 | A conjured day is a normal day with the normal quality loss applied twice on the same morning's `sellIn` |
| Rules.OneDayBounds | TypeScript/app/gilded-rose.ts:22-66 | After one update, normal and conjured quality is at least 0, and Aged Brie and backstage quality is at most 50. A backstage `sellIn` is at least 0, and a normal or conjured `sellIn` of at least 0 stays so |
| Rules.ZeroIsFixedPoint | TypeScript/app/gilded-rose.ts:22-66 | Normal, conjured and backstage items at (0, 0) are left unchanged |
| Shop.UpdateQuality | TypeScript/app/gilded-rose.ts:68-85 | The update keeps the inventory's length, order and names, and each item's new state is its own rule applied to its own old state |
| Shop.UpdateQualityInPlace | TypeScript/app/gilded-rose.ts:68-85 | Updating the held array in place, item by item, leaves it equal to the functional update of its old contents, and the same array is handed back |
| Shop.Simulate | TypeScript/test/vitest/gilded-rose.spec.ts:40-42 | Any number of nightly updates keeps the inventory's length and every item's name |
| Shop.Age | TypeScript/test/vitest/gilded-rose.spec.ts:73-75 | Any number of updates of one item keeps its name |
| Shop.AgeLastDay | TypeScript/app/gilded-rose.ts:68-85 | Aging one more night is one more update applied to the aged item |
| Shop.SimulateIsPointwise | TypeScript/app/gilded-rose.ts:68-85 | After any number of nights, each item of the inventory is where it would be if it were alone in the shop |
| Trajectories.TotalGain | TypeScript/app/gilded-rose.ts:46-52 | Over n days before the concert, a pass gains between n and 3n in total |
| Trajectories.TotalGainLastDay | TypeScript/app/gilded-rose.ts:46-52 | The total gain over one more day is the gain so far plus the tier of the day that starts with that many fewer days left |
| Trajectories.NormalTrajectory | TypeScript/app/gilded-rose.ts:22-30 | Over n nights a normal item loses 1 a night until `sellIn` is 0 and 2 a night after that, floored at 0. A `sellIn` that starts negative keeps falling and costs 1 a night. This holds for every starting quality once at least one night has passed |
| Trajectories.ConjuredTrajectory | TypeScript/app/gilded-rose.ts:58-66 | Over n nights a conjured item follows the normal course with every loss doubled, floored at 0, for every starting quality once at least one night has passed |
| Trajectories.AgedBrieTrajectory | TypeScript/app/gilded-rose.ts:33-37 | Over n nights Aged Brie's `sellIn` falls by n and its quality is min(50, q + n) |
| Trajectories.PassAgesByItsRule | TypeScript/app/gilded-rose.ts:72-73 | Over any number of nights a backstage pass is moved by the backstage rule and no other |
| Trajectories.PassRising | TypeScript/app/gilded-rose.ts:43-56 | Applied n times to a pass with at least n days left, the backstage rule counts `sellIn` down by n and adds the sum of the daily tiers to quality, capped at 50, for any starting quality |
| Trajectories.BackstageRising | TypeScript/app/gilded-rose.ts:43-56 | For n nights up to its `sellIn`, a pass counts down and gains the sum of its daily tiers, capped at 50 |
| Trajectories.FixedPointStays | TypeScript/app/gilded-rose.ts:68-85 | A state one update leaves unchanged stays unchanged for any number of nights |
| Trajectories.BackstageCollapse | TypeScript/app/gilded-rose.ts:44-45 | From a non-negative `sellIn` s, a pass is at (0, 0) after every night past the s-th, for ever |
| Trajectories.BackstagePastConcert | TypeScript/app/gilded-rose.ts:44-54 | A pass with a negative `sellIn` gains 3 (capped at 50) on the first night with `sellIn` reset to 0, and is at (0, 0) from the second night on |
| Trajectories.LegendaryNeverChanges | TypeScript/app/gilded-rose.ts:74-76 | Sulfuras is unchanged after any number of nights |
| Trajectories.UpdateKeepsInRange | TypeScript/app/gilded-rose.ts:22-81 | One update keeps a quality in [0, 50] in that range, for every category |
| Trajectories.UpdateQualityKeepsInRange | TypeScript/app/gilded-rose.ts:68-85 | One nightly update of a whole inventory keeps every item's quality in [0, 50] (Sulfuras excepted) |
| Trajectories.SimulateKeepsInRange | TypeScript/app/gilded-rose.ts:68-85 | If every item starts with quality in [0, 50] (Sulfuras excepted), every item stays in range after any number of nights |
| Trajectories.SellInStaysNonNegative | TypeScript/app/gilded-rose.ts:35 | From a non-negative `sellIn`, every category except Aged Brie keeps `sellIn` non-negative for ever. Aged Brie's `sellIn` is negative exactly after more nights than it started with |
| Scenarios.NormalItemsOneNight | TypeScript/test/vitest/gilded-rose.spec.ts:8-26 | The vest (10, 20) and the elixir (5, 7) become (9, 19) and (4, 6) after one night |
| Scenarios.NormalItemsTenNights | TypeScript/test/vitest/gilded-rose.spec.ts:31-51 | After ten nights the vest is at (0, 10) and the elixir at (0, 0) |
| Scenarios.VestEleventhNight | TypeScript/app/gilded-rose.ts:23-24 | On an eleventh night the vest, now at `sellIn` 0, falls from 10 to 8 |
| Scenarios.AgedBrieScenario | TypeScript/test/vitest/gilded-rose.spec.ts:54-79 | Aged Brie from (2, 0) has quality 1 after one night, and quality exactly 50 with `sellIn` -98 after a hundred |
| Scenarios.SulfurasScenario | TypeScript/test/vitest/gilded-rose.spec.ts:82-95 | Sulfuras at (0, 80) is unchanged after every number of nights |
| Scenarios.BackstagePassesScenario | TypeScript/test/vitest/gilded-rose.spec.ts:101-127 | Passes from (15, 20) gain 1 a night for five nights, 2 for five and 3 for five, reaching exactly 50, then are worth 0 every night after |
| Scenarios.PassesGain | TypeScript/test/vitest/gilded-rose.spec.ts:113-119 | The tiered gains summed from fifteen days out give the test's expected deltas: 1, then 2, then 3 per night |
| Scenarios.ConjuredScenario | TypeScript/test/vitest/gilded-rose.spec.ts:130-143 | The mana cake (3, 6) becomes (2, 4) after one night, and loses 4 on a night that starts at `sellIn` 0 |
| Scenarios.EmptyShop | TypeScript/app/gilded-rose.ts:68-85 | An empty inventory stays empty after one night and after any number |

## Left out

- The log line written for Sulfuras (`console.info` of a randomly chosen message) has no effect on any item. It is modelled as doing nothing.
- JavaScript `number` semantics are not modelled: fractional values, NaN, infinities and loss of precision for very large values. `sellIn` and `quality` are unbounded integers.
- The regular expression engine is not modelled. The test `^Conjured.*` is modelled as a string-prefix check, which is what it matches.
- The `Item` and `GildedRose` constructors only store their arguments. They are the `Item` datatype constructor and the sequence or array passed to the update.
- The `GildedRose` object that holds the array is not modelled as a class. `Shop.UpdateQualityInPlace` works on the array itself. Its contract relates the array to its own old contents. `Shop.UpdateQuality` makes the same promise as a pure function over a sequence.
- Shop.UpdateQuality: items are values, not shared objects. In the source, `updateQuality` changes `Item` objects through references, so an array holding the same object twice updates it twice a night and both positions show the result. The model updates each position once, from its own value; an inventory that holds one object in two places is not modelled.
- The test harness (`describe`, `it`, `expect`) is not modelled. Its scenarios are the lemmas of `Scenarios`.
