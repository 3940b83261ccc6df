/**
 The shop's inventory and its nightly update: every item is sent, in order,
 through the rule of its category. Items are updated independently of each
 other.
 */
module Shop {
  import opened Items
  import opened Rules

  /** The nightly update of a whole inventory, item by item from the front. The
      result has the same items in the same order under the same names, and
      each item's new state depends only on its own old state (items are
      values here, so no two positions can share one item). */
  function UpdateQuality(items: seq<Item>): (r: seq<Item>)
    ensures |r| == |items|
    ensures forall i :: 0 <= i < |items| ==> r[i] == UpdateItem(items[i])
    ensures forall i :: 0 <= i < |items| ==> r[i].name == items[i].name
  {
    if items == [] then []
    else [UpdateItem(items[0])] + UpdateQuality(items[1..])
  }

  /** The same nightly update done the way the shop does it: in place, over the
      array of items the shop holds, handing that same array back. */
  method UpdateQualityInPlace(items: array<Item>) returns (r: array<Item>)
    modifies items
    ensures r == items
    ensures items[..] == UpdateQuality(old(items[..]))
  {
    ghost var before := items[..];
    var i := 0;
    while i < items.Length
      invariant 0 <= i <= items.Length
      invariant forall j :: 0 <= j < i ==> items[j] == UpdateItem(before[j])
      invariant forall j :: i <= j < items.Length ==> items[j] == before[j]
    {
      items[i] := UpdateItem(items[i]);
      i := i + 1;
    }
    r := items;
  }

  /** The inventory after `days` nightly updates. */
  function Simulate(items: seq<Item>, days: nat): (r: seq<Item>)
    ensures |r| == |items|
    ensures forall i :: 0 <= i < |items| ==> r[i].name == items[i].name
    decreases days
  {
    if days == 0 then items else Simulate(UpdateQuality(items), days - 1)
  }

  /** One item's state after `days` nightly updates. */
  function Age(it: Item, days: nat): (r: Item)
    ensures r.name == it.name
    decreases days
  {
    if days == 0 then it else Age(UpdateItem(it), days - 1)
  }

  /** Aging one day more is one more update at the end. */
  lemma {:induction false} AgeLastDay(it: Item, days: nat)
    ensures Age(it, days + 1) == UpdateItem(Age(it, days))
    decreases days
  {
    if days > 0 {
      AgeLastDay(UpdateItem(it), days - 1);
    }
  }

  /** Over any number of days, each item of the inventory follows its own
      trajectory, as if it were alone in the shop. */
  lemma {:induction false} SimulateIsPointwise(items: seq<Item>, days: nat)
    ensures forall i :: 0 <= i < |items| ==> Simulate(items, days)[i] == Age(items[i], days)
    decreases days
  {
    if days > 0 {
      SimulateIsPointwise(UpdateQuality(items), days - 1);
    }
  }
}
