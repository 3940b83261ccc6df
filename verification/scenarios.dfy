/**
 The shop's own usage scenarios, stated as facts about the model.
 */
module Scenarios {
  import opened Items
  import opened Rules
  import opened Shop
  import opened Trajectories

  const Vest: Item := Item("+5 Dexterity Vest", 10, 20)
  const Elixir: Item := Item("Elixir of the Mongoose", 5, 7)
  const Brie: Item := Item(AgedBrieName, 2, 0)
  const Sulfuras: Item := Item(SulfurasName, 0, 80)
  const Passes: Item := Item(BackstagePassesName, 15, 20)
  const ManaCake: Item := Item("Conjured Mana Cake", 3, 6)

  /** Neither test item's name starts with "Conjured", so both are normal. */
  lemma TestItemsAreNormal()
    ensures Classify(Vest.name) == Normal && Classify(Elixir.name) == Normal
  {
    assert Vest.name[0] != ConjuredPrefix[0] && Elixir.name[0] != ConjuredPrefix[0];
  }

  /** Two normal items after one night: each loses a day and a point. */
  lemma NormalItemsOneNight()
    ensures UpdateQuality([Vest, Elixir]) == [Vest.(sellIn := 9, quality := 19), Elixir.(sellIn := 4, quality := 6)]
  {
    TestItemsAreNormal();
  }

  /** The same two items after ten nights: both reach `sellIn` zero, the vest
      with quality 10 and the elixir floored at 0. */
  lemma NormalItemsTenNights()
    ensures Simulate([Vest, Elixir], 10) == [Vest.(sellIn := 0, quality := 10), Elixir.(sellIn := 0, quality := 0)]
  {
    TestItemsAreNormal();
    SimulateIsPointwise([Vest, Elixir], 10);
    NormalTrajectory(Vest, 10);
    NormalTrajectory(Elixir, 10);
  }

  /** On the eleventh night the vest, now at `sellIn` zero, loses two points. */
  lemma VestEleventhNight()
    ensures Age(Vest, 11) == Vest.(sellIn := 0, quality := 8)
  {
    TestItemsAreNormal();
    NormalTrajectory(Vest, 11);
  }

  /** Aged Brie gains a point on the first night and sits at exactly 50 after a
      hundred nights, its `sellIn` far below zero. */
  lemma AgedBrieScenario()
    ensures Age(Brie, 1).quality == 1
    ensures Age(Brie, 100) == Brie.(sellIn := -98, quality := 50)
  {
    AgedBrieTrajectory(Brie, 1);
    AgedBrieTrajectory(Brie, 100);
  }

  /** Sulfuras is unchanged after every one of ten nights, and after any
      number. */
  lemma SulfurasScenario(days: nat)
    ensures Age(Sulfuras, days) == Sulfuras
  {
    LegendaryNeverChanges(Sulfuras, days);
  }

  /** The quality of the backstage passes night by night: up by one for the
      first five nights, by two for the next five, by three for the five after
      that (reaching exactly 50 on the fifteenth), then nothing for ever. */
  lemma BackstagePassesScenario(days: nat)
    requires days >= 1
    ensures days <= 5 ==> Age(Passes, days).quality == 20 + days
    ensures 5 < days <= 10 ==> Age(Passes, days).quality == 25 + 2 * (days - 5)
    ensures 10 < days <= 15 ==> Age(Passes, days).quality == 35 + 3 * (days - 10)
    ensures days == 15 ==> Age(Passes, days).quality == 50
    ensures days > 15 ==> Age(Passes, days).quality == 0
  {
    if days <= 15 {
      BackstageRising(Passes, days);
      PassesGain(days);
    } else {
      BackstageCollapse(Passes, days);
    }
  }

  /** The tiered gains of the passes, summed from fifteen days out. */
  lemma {:induction false} PassesGain(days: nat)
    requires days <= 15
    ensures TotalGain(15, days) ==
      if days <= 5 then days else if days <= 10 then 5 + 2 * (days - 5) else 15 + 3 * (days - 10)
  {
    if days > 0 {
      PassesGain(days - 1);
      TotalGainLastDay(15, days - 1);
      assert BackstageGain(15 - (days - 1)) == if days <= 5 then 1 else if days <= 10 then 2 else 3;
    }
  }

  /** A conjured item loses two points a night before its sell-by day, and four
      on a night that starts at `sellIn` zero. */
  lemma ConjuredScenario()
    ensures UpdateQuality([ManaCake]) == [ManaCake.(sellIn := 2, quality := 4)]
    ensures UpdateItem(ManaCake.(sellIn := 0)) == ManaCake.(sellIn := 0, quality := 2)
  {
  }

  /** An empty shop stays empty. */
  lemma EmptyShop(days: nat)
    ensures UpdateQuality([]) == []
    ensures Simulate([], days) == []
  {
  }
}
