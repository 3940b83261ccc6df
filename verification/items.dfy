/**
 The stock of the Gilded Rose inn: an item is a name, a count of days left to
 sell it (`sellIn`) and a value score (`quality`). The name alone decides which
 of five daily rules applies to the item.
 */
module Items {

  /** One line of stock. Numbers are unbounded integers; the shop's numbers are
      JavaScript `number`s, whose fractional and overflow behaviour is not modelled. */
  datatype Item = Item(name: string, sellIn: int, quality: int)

  /** The five daily rules, one per kind of item. */
  datatype Category = AgedBrie | BackstagePasses | Legendary | Conjured | Normal

  const AgedBrieName: string := "Aged Brie"
  const BackstagePassesName: string := "Backstage passes to a TAFKAL80ETC concert"
  const SulfurasName: string := "Sulfuras, Hand of Ragnaros"
  const ConjuredPrefix: string := "Conjured"

  // The name test is the regular expression ^Conjured.* with no flags: the
  // caret anchors at the start of the string and the trailing .* may match
  // nothing, so a name matches exactly when it begins with "Conjured".
  predicate IsConjuredName(name: string)
  {
    ConjuredPrefix <= name
  }

  /** The prefix test spelled out: a name matches exactly when its first eight
      characters are "Conjured". */
  lemma ConjuredNameMatchesPattern(name: string)
    ensures IsConjuredName(name) <==> |name| >= 8 && name[..8] == "Conjured"
  {
  }

  /** The dispatch of the daily update: three exact names first, in this order,
      then the "Conjured" prefix, and every other name falls through to the
      normal rule. Each rule is picked exactly when its own name condition
      holds, so every name gets exactly one rule. */
  function Classify(name: string): (c: Category)
    ensures c == AgedBrie <==> name == AgedBrieName
    ensures c == BackstagePasses <==> name == BackstagePassesName
    ensures c == Legendary <==> name == SulfurasName
    ensures c == Conjured <==> IsConjuredName(name)
    ensures c == Normal <==>
      name != AgedBrieName && name != BackstagePassesName && name != SulfurasName
      && !IsConjuredName(name)
  {
    ExactNamesAreNotConjured();
    if name == AgedBrieName then AgedBrie
    else if name == BackstagePassesName then BackstagePasses
    else if name == SulfurasName then Legendary
    else if IsConjuredName(name) then Conjured
    else Normal
  }

  /** None of the three exact names starts with "Conjured", so the order in
      which the prefix test comes after them never shadows anything. */
  lemma ExactNamesAreNotConjured()
    ensures !IsConjuredName(AgedBrieName)
    ensures !IsConjuredName(BackstagePassesName)
    ensures !IsConjuredName(SulfurasName)
  {
    assert AgedBrieName[0] != ConjuredPrefix[0];
    assert BackstagePassesName[0] != ConjuredPrefix[0];
    assert SulfurasName[0] != ConjuredPrefix[0];
  }
}
