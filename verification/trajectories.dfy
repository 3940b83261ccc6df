/**
 What repeated nightly updates do to one item: a closed form of each category's
 trajectory over any number of days, and the bounds the update keeps.
 */
module Trajectories {
  import opened Items
  import opened Rules
  import opened Shop

  /** Where `sellIn` stands after `days` updates of a normal or conjured item:
      a count-down that stops at zero, except that a `sellIn` that starts below
      zero never meets the zero test and keeps falling. */
  function CountDown(sellIn: int, days: nat): int
  {
    if sellIn < 0 then sellIn - days else Max(0, sellIn - days)
  }

  /** The quality a normal item loses over `days` updates before the floor at
      zero is applied: one point per day while `sellIn` is above zero, two per
      day once it sits at zero. */
  function NormalLoss(sellIn: int, days: nat): nat
  {
    if sellIn < 0 || days <= sellIn then days else sellIn + 2 * (days - sellIn)
  }

  /** The quality a backstage pass gains over `days` updates starting `sellIn`
      days before the concert, before the cap at 50 is applied. */
  function TotalGain(sellIn: int, days: nat): (g: nat)
    ensures days <= g <= 3 * days
    decreases days
  {
    if days == 0 then 0 else BackstageGain(sellIn) + TotalGain(sellIn - 1, days - 1)
  }

  /** The gain over one day more is the gain so far plus that day's tier. */
  lemma {:induction false} TotalGainLastDay(sellIn: int, days: nat)
    ensures TotalGain(sellIn, days + 1) == TotalGain(sellIn, days) + BackstageGain(sellIn - days)
    decreases days
  {
    if days > 0 {
      TotalGainLastDay(sellIn - 1, days - 1);
    }
  }

  /** A normal item loses one point a day until `sellIn` reaches zero and two
      points a day from then on, never going below zero quality. */
  lemma {:induction false} NormalTrajectory(it: Item, days: nat)
    requires Classify(it.name) == Normal
    ensures Age(it, days) ==
      it.(sellIn := CountDown(it.sellIn, days),
          quality := if days == 0 then it.quality else Max(0, it.quality - NormalLoss(it.sellIn, days)))
    decreases days
  {
    if days > 0 {
      NormalTrajectory(UpdateItem(it), days - 1);
    }
  }

  /** A conjured item's trajectory is a normal item's with every loss doubled. */
  lemma {:induction false} ConjuredTrajectory(it: Item, days: nat)
    requires Classify(it.name) == Conjured
    ensures Age(it, days) ==
      it.(sellIn := CountDown(it.sellIn, days),
          quality := if days == 0 then it.quality else Max(0, it.quality - 2 * NormalLoss(it.sellIn, days)))
    decreases days
  {
    if days > 0 {
      ConjuredTrajectory(UpdateItem(it), days - 1);
    }
  }

  /** Aged Brie gains a point a day until it reaches 50, while its `sellIn`
      falls by one a day without limit. */
  lemma {:induction false} AgedBrieTrajectory(it: Item, days: nat)
    requires Classify(it.name) == AgedBrie
    ensures Age(it, days) ==
      it.(sellIn := it.sellIn - days, quality := if days == 0 then it.quality else Min(50, it.quality + days))
    decreases days
  {
    if days > 0 {
      AgedBrieTrajectory(UpdateItem(it), days - 1);
    }
  }

  /** `days` applications of the backstage rule alone: `Age` with the dispatch
      already resolved for a pass (`PassAgesByItsRule`), so that proofs about
      passes need not unfold every other rule. */
  function PassAge(it: Item, days: nat): Item
    decreases days
  {
    if days == 0 then it else PassAge(UpdateBackstagePasses(it), days - 1)
  }

  /** A backstage pass ages by its own rule and nothing else. */
  lemma {:induction false} PassAgesByItsRule(it: Item, days: nat)
    requires Classify(it.name) == BackstagePasses
    ensures Age(it, days) == PassAge(it, days)
    decreases days
  {
    if days > 0 {
      PassAgesByItsRule(UpdateBackstagePasses(it), days - 1);
    }
  }

  /** The backstage rule alone, for days before the concert day: the pass
      counts down and gains its daily tiers, capped at 50. */
  lemma {:induction false} PassRising(it: Item, days: nat)
    requires days <= it.sellIn
    ensures PassAge(it, days).sellIn == it.sellIn - days
    ensures PassAge(it, days).quality ==
      if days == 0 then it.quality else Min(50, it.quality + TotalGain(it.sellIn, days))
    decreases days
  {
    if days > 0 {
      var next := UpdateBackstagePasses(it);
      PassRising(next, days - 1);
      if days > 1 {
        CapAbsorbsGain(it.quality + BackstageGain(it.sellIn), TotalGain(it.sellIn - 1, days - 1));
      }
    }
  }

  /** Before the concert day a backstage pass gains its tiered amount every
      day, capped at 50. */
  lemma BackstageRising(it: Item, days: nat)
    requires Classify(it.name) == BackstagePasses
    requires days <= it.sellIn
    ensures Age(it, days) ==
      it.(sellIn := it.sellIn - days,
          quality := if days == 0 then it.quality else Min(50, it.quality + TotalGain(it.sellIn, days)))
  {
    PassAgesByItsRule(it, days);
    PassRising(it, days);
  }

  /** Capping at 50 before adding a gain and capping again is capping once. */
  lemma CapAbsorbsGain(q: int, gain: nat)
    ensures Min(50, Min(50, q) + gain) == Min(50, q + gain)
  {
  }

  /** A state that one update leaves as it is stays that way for any number of
      days. */
  lemma {:induction false} FixedPointStays(it: Item, days: nat)
    requires UpdateItem(it) == it
    ensures Age(it, days) == it
    decreases days
  {
    if days > 0 {
      FixedPointStays(UpdateItem(it), days - 1);
    }
  }

  /** From the concert day on, a backstage pass is worth nothing for ever. */
  lemma {:induction false} BackstageCollapse(it: Item, days: nat)
    requires Classify(it.name) == BackstagePasses
    requires 0 <= it.sellIn < days
    ensures Age(it, days) == it.(sellIn := 0, quality := 0)
    decreases days
  {
    if it.sellIn == 0 {
      FixedPointStays(UpdateItem(it), days - 1);
    } else {
      BackstageCollapse(UpdateItem(it), days - 1);
    }
  }

  /** A backstage pass whose `sellIn` is already below zero is not caught by the
      concert-day test: its first update takes the three-point tier and resets
      `sellIn` to zero, and the second update is the collapse. */
  lemma BackstagePastConcert(it: Item, days: nat)
    requires Classify(it.name) == BackstagePasses
    requires it.sellIn < 0 && days >= 1
    ensures Age(it, days) ==
      it.(sellIn := 0, quality := if days == 1 then Min(50, it.quality + 3) else 0)
  {
    if days > 1 {
      BackstageCollapse(UpdateItem(it), days - 1);
    }
  }

  /** Sulfuras never changes, however many days pass. */
  lemma {:induction false} LegendaryNeverChanges(it: Item, days: nat)
    requires Classify(it.name) == Legendary
    ensures Age(it, days) == it
  {
    FixedPointStays(it, days);
  }

  /** The state every item of the shop is meant to be in: quality between 0
      and 50, except for Sulfuras, whose quality is never looked at. */
  predicate InRange(it: Item)
  {
    Classify(it.name) == Legendary || 0 <= it.quality <= 50
  }

  /** One update keeps an item in range. */
  lemma UpdateKeepsInRange(it: Item)
    requires InRange(it)
    ensures InRange(UpdateItem(it))
  {
  }

  /** One nightly update keeps every item of the inventory in range. */
  lemma UpdateQualityKeepsInRange(items: seq<Item>)
    requires forall i :: 0 <= i < |items| ==> InRange(items[i])
    ensures forall i :: 0 <= i < |items| ==> InRange(UpdateQuality(items)[i])
  {
    var next := UpdateQuality(items);
    forall i | 0 <= i < |items|
      ensures InRange(next[i])
    {
      UpdateKeepsInRange(items[i]);
    }
  }

  /** Any number of updates keep every item of the inventory in range. */
  lemma {:induction false} SimulateKeepsInRange(items: seq<Item>, days: nat)
    requires forall i :: 0 <= i < |items| ==> InRange(items[i])
    ensures forall i :: 0 <= i < |items| ==> InRange(Simulate(items, days)[i])
    decreases days
  {
    if days > 0 {
      UpdateQualityKeepsInRange(items);
      SimulateKeepsInRange(UpdateQuality(items), days - 1);
    }
  }

  /** Every category but Aged Brie keeps a `sellIn` that is not negative from
      going negative, over any number of days; Aged Brie's `sellIn` goes below
      zero on the day after it reaches zero. */
  lemma {:induction false} SellInStaysNonNegative(it: Item, days: nat)
    requires it.sellIn >= 0
    ensures Classify(it.name) != AgedBrie ==> Age(it, days).sellIn >= 0
    ensures Classify(it.name) == AgedBrie ==> (Age(it, days).sellIn < 0 <==> days > it.sellIn)
    decreases days
  {
    if Classify(it.name) == AgedBrie {
      AgedBrieTrajectory(it, days);
    } else if days > 0 {
      SellInStaysNonNegative(UpdateItem(it), days - 1);
    }
  }
}
