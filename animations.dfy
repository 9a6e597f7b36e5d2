/** The staggered-animation hook: each item of a list gets an animation delay
    that grows with its position. */
module Animations {

  /** The values an item's fields can hold. */
  datatype JsValue = JsNumber(n: int) | JsString(s: string) | JsBool(b: bool) | JsNull

  /** A plain object: its own enumerable fields by name. */
  type Item = map<string, JsValue>

  const AnimationDelayKey: string := "animationDelay"

  /** The delay given to the item at `index`. */
  function DelayAt(index: int, baseDelay: int, staggerAmount: int): int {
    baseDelay + index * staggerAmount
  }

  /** `{ ...item, animationDelay: delay }`. */
  function WithDelay(item: Item, delay: int): Item {
    item[AnimationDelayKey := JsNumber(delay)]
  }

  /** `useStaggeredAnimation(items, baseDelay, staggerAmount)`. */
  function StaggeredAnimation(items: seq<Item>, baseDelay: int := 100, staggerAmount: int := 50): (r: seq<Item>)
    ensures |r| == |items|
    // item i carries the delay baseDelay + i * staggerAmount
    ensures forall i :: 0 <= i < |r| ==>
      AnimationDelayKey in r[i] && r[i][AnimationDelayKey] == JsNumber(DelayAt(i, baseDelay, staggerAmount))
    // every other field is copied unchanged, and no field is dropped or invented
    ensures forall i :: 0 <= i < |r| ==> r[i].Keys == items[i].Keys + {AnimationDelayKey}
    ensures forall i, key :: 0 <= i < |r| && key in items[i] && key != AnimationDelayKey ==> r[i][key] == items[i][key]
  {
    if items == [] then []
    else
      var n := |items| - 1;
      StaggeredAnimation(items[..n], baseDelay, staggerAmount) + [WithDelay(items[n], DelayAt(n, baseDelay, staggerAmount))]
  }

  function DelayOf(item: Item): int
    requires AnimationDelayKey in item && item[AnimationDelayKey].JsNumber?
  {
    item[AnimationDelayKey].n
  }

  /** With the default arguments the first delay is 100 and each next one is 50 later. */
  lemma DefaultDelays(items: seq<Item>)
    ensures var r := StaggeredAnimation(items);
      && (|r| > 0 ==> DelayOf(r[0]) == 100)
      && forall i :: 0 < i < |r| ==> DelayOf(r[i]) == DelayOf(r[i - 1]) + 50
  {
  }

  /** With a non-negative stagger, delays never decrease along the list. */
  lemma DelaysNondecreasing(items: seq<Item>, baseDelay: int, staggerAmount: int, i: int, j: int)
    requires staggerAmount >= 0
    requires 0 <= i <= j < |items|
    ensures var r := StaggeredAnimation(items, baseDelay, staggerAmount);
      DelayOf(r[i]) <= DelayOf(r[j])
  {
  }
}
