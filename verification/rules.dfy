/**
 The one-day update rules, one per category, and the dispatch that sends an
 item to its rule. Each rule only touches `sellIn` and `quality`; the name is
 carried through unchanged.
 */
module Rules {
  import opened Items

  /** `Math.max` on integers. */
  function Max(a: int, b: int): (m: int)
    ensures m >= a && m >= b
    ensures m == a || m == b
  {
    if a >= b then a else b
  }

  /** `Math.min` on integers. */
  function Min(a: int, b: int): (m: int)
    ensures m <= a && m <= b
    ensures m == a || m == b
  {
    if a <= b then a else b
  }

  /** A normal item loses one point of quality a day, two once `sellIn` has
      reached exactly zero, and never drops below zero. `sellIn` counts down to
      zero and stays there; a `sellIn` that starts negative is never clamped and
      keeps counting down, with the one-point loss. */
  function UpdateNormal(it: Item): (r: Item)
    ensures r.name == it.name
    ensures r.quality >= 0
    ensures it.quality >= 0 ==> r.quality <= it.quality
    ensures r.quality == 0 || it.quality - r.quality == (if it.sellIn == 0 then 2 else 1)
    ensures r.quality == 0 ==> it.quality <= (if it.sellIn == 0 then 2 else 1)
    ensures it.sellIn == 0 ==> r.sellIn == 0
    ensures it.sellIn != 0 ==> r.sellIn == it.sellIn - 1
  {
    if it.sellIn == 0 then
      it.(quality := Max(0, it.quality - 2))
    else
      it.(quality := Max(0, it.quality - 1), sellIn := it.sellIn - 1)
  }

  /** Aged Brie gains one point of quality a day up to 50 (a higher starting
      value is cut down to 50), and its `sellIn` counts down without a floor. */
  function UpdateAgedBrie(it: Item): (r: Item)
    ensures r.name == it.name
    ensures r.quality <= 50
    ensures it.quality < 50 ==> r.quality == it.quality + 1
    ensures it.quality >= 50 ==> r.quality == 50
    ensures r.sellIn == it.sellIn - 1
  {
    it.(quality := Min(50, it.quality + 1), sellIn := it.sellIn - 1)
  }

  /** The extra quality a backstage pass earns on a day that starts with
      `sellIn` days to the concert, when that is not the concert day itself. */
  function BackstageGain(sellIn: int): (g: int)
    ensures 1 <= g <= 3
    ensures sellIn > 10 <==> g == 1
    ensures g == 3 <==> sellIn <= 5
  {
    if sellIn <= 5 then 3 else if sellIn <= 10 then 2 else 1
  }

  /** A backstage pass is worth nothing once the concert day (`sellIn` exactly
      zero) has come; before that it gains 1, 2 or 3 a day as the concert gets
      near, up to 50. The tier is chosen on the `sellIn` of the morning, which
      then counts down and is clamped at zero. */
  function UpdateBackstagePasses(it: Item): (r: Item)
    ensures r.name == it.name
    ensures r.quality <= 50
    ensures r.sellIn >= 0
    ensures it.sellIn == 0 ==> r.quality == 0 && r.sellIn == 0
    ensures it.sellIn != 0 && it.quality >= 0 ==> r.quality > 0
    ensures it.sellIn != 0 ==> r.quality == Min(50, it.quality + BackstageGain(it.sellIn))
    ensures it.sellIn > 0 ==> r.sellIn == it.sellIn - 1
    ensures it.sellIn <= 0 ==> r.sellIn == 0
  {
    var q := if it.sellIn == 0 then 0
             else if it.sellIn <= 5 then it.quality + 3
             else if it.sellIn <= 10 then it.quality + 2
             else it.quality + 1;
    it.(quality := Min(50, q), sellIn := Max(0, it.sellIn - 1))
  }

  /** A conjured item loses quality twice as fast as a normal one: four points
      once `sellIn` is exactly zero, two otherwise, never below zero. Its
      `sellIn` moves exactly as a normal item's does. */
  function UpdateConjured(it: Item): (r: Item)
    ensures r.name == it.name
    ensures r.quality >= 0
    ensures it.quality >= 0 ==> r.quality <= it.quality
    ensures r.quality == 0 || it.quality - r.quality == (if it.sellIn == 0 then 4 else 2)
    ensures r.quality == 0 ==> it.quality <= (if it.sellIn == 0 then 4 else 2)
    ensures r.sellIn == UpdateNormal(it).sellIn
  {
    if it.sellIn == 0 then
      it.(quality := Max(0, it.quality - 4))
    else
      it.(quality := Max(0, it.quality - 2), sellIn := it.sellIn - 1)
  }

  /** The daily update of one item: the rule of its category. Sulfuras is
      left exactly as it was (the shop only writes a random log line for it,
      which has no effect on any item). */
  function UpdateItem(it: Item): (r: Item)
    ensures r.name == it.name
    ensures Classify(it.name) == Legendary ==> r == it
  {
    match Classify(it.name)
    case AgedBrie => UpdateAgedBrie(it)
    case BackstagePasses => UpdateBackstagePasses(it)
    case Legendary => it
    case Conjured => UpdateConjured(it)
    case Normal => UpdateNormal(it)
  }

  /** A conjured item's day is a normal item's day with the quality loss
      applied twice on the same morning's `sellIn`. */
  lemma ConjuredIsDoubleNormal(it: Item)
    ensures UpdateConjured(it) ==
      UpdateNormal(it).(quality := UpdateNormal(it.(quality := UpdateNormal(it).quality)).quality)
  {
  }

  /** The bounds one update establishes, whatever the item's starting state. */
  lemma OneDayBounds(it: Item)
    ensures Classify(it.name) in {Normal, Conjured} ==> UpdateItem(it).quality >= 0
    ensures Classify(it.name) in {AgedBrie, BackstagePasses} ==> UpdateItem(it).quality <= 50
    ensures Classify(it.name) == BackstagePasses ==> UpdateItem(it).sellIn >= 0
    ensures Classify(it.name) in {Normal, Conjured} && it.sellIn >= 0 ==> UpdateItem(it).sellIn >= 0
  {
  }

  /** The exhausted states are fixed points: a normal or conjured item, or a
      backstage pass, at `sellIn` zero and quality zero stays there. */
  lemma ZeroIsFixedPoint(it: Item)
    requires it.sellIn == 0 && it.quality == 0
    requires Classify(it.name) in {Normal, Conjured, BackstagePasses}
    ensures UpdateItem(it) == it
  {
  }
}
