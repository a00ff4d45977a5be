/** Client side of the stock-news app: the ordered list of stock categories
    that the screen shows as one switch each, and the view model that rewrites
    that list when a switch changes and then asks for a topic subscription or
    unsubscription. */
module Subscription {

  /** One row of the screen: its display name, the messaging topic behind it,
      and whether the device is subscribed to that topic. */
  datatype StockCategory = StockCategory(categoryName: string, topicName: string, isSubscribed: bool)

  /** The state the view model exposes to the screen. */
  datatype UiState = UiState(stockCategories: seq<StockCategory>)

  /** The side-effecting call the view model makes after a toggle. */
  datatype Hook = Subscribe(topic: string) | Unsubscribe(topic: string)

  /** `after` lists the same categories as `before`, in the same order: only
      subscription flags may differ. */
  predicate SameCategories(before: seq<StockCategory>, after: seq<StockCategory>)
  {
    |before| == |after| &&
    forall i :: 0 <= i < |before| ==>
      before[i].categoryName == after[i].categoryName && before[i].topicName == after[i].topicName
  }

  /** Every entry whose topic is `topicName` carries the flag `flag`. */
  predicate AllFlagged(cats: seq<StockCategory>, topicName: string, flag: bool)
  {
    forall i :: 0 <= i < |cats| && cats[i].topicName == topicName ==> cats[i].isSubscribed == flag
  }

  /** The list rewrite of a toggle: each entry whose topic is `topicName` is
      copied with the new flag, every other entry is kept as it is. */
  function MapToggle(cats: seq<StockCategory>, topicName: string, isSubscribed: bool): (r: seq<StockCategory>)
    ensures SameCategories(cats, r)
    ensures AllFlagged(r, topicName, isSubscribed)
    ensures forall i :: 0 <= i < |r| && cats[i].topicName != topicName ==> r[i] == cats[i]
  {
    if cats == [] then []
    else
      var head := if cats[0].topicName == topicName then cats[0].(isSubscribed := isSubscribed) else cats[0];
      [head] + MapToggle(cats[1..], topicName, isSubscribed)
  }

  /** A toggle leaves the list as it was exactly when every entry of that
      topic already had the requested flag; in particular when no entry has
      that topic. */
  lemma MapToggleUnchangedIff(cats: seq<StockCategory>, topicName: string, isSubscribed: bool)
    ensures MapToggle(cats, topicName, isSubscribed) == cats <==> AllFlagged(cats, topicName, isSubscribed)
  {
  }

  /** No entry has the topic: the toggle changes nothing. */
  lemma MapToggleNoMatch(cats: seq<StockCategory>, topicName: string, isSubscribed: bool)
    requires forall i :: 0 <= i < |cats| ==> cats[i].topicName != topicName
    ensures MapToggle(cats, topicName, isSubscribed) == cats
  {
  }

  /** For one topic the last toggle wins: the earlier one leaves no trace. */
  lemma MapToggleLastWriteWins(cats: seq<StockCategory>, topicName: string, first: bool, second: bool)
    ensures MapToggle(MapToggle(cats, topicName, first), topicName, second) == MapToggle(cats, topicName, second)
  {
  }

  /** Repeating a toggle changes nothing more. */
  lemma MapToggleIdempotent(cats: seq<StockCategory>, topicName: string, isSubscribed: bool)
    ensures MapToggle(MapToggle(cats, topicName, isSubscribed), topicName, isSubscribed)
         == MapToggle(cats, topicName, isSubscribed)
  {
  }

  /** Toggling back to the flag every entry of that topic had before restores
      the original list. */
  lemma MapToggleUndo(cats: seq<StockCategory>, topicName: string, original: bool, isSubscribed: bool)
    requires AllFlagged(cats, topicName, original)
    ensures MapToggle(MapToggle(cats, topicName, isSubscribed), topicName, original) == cats
  {
  }

  /** Toggles of two different topics touch disjoint entries, so their order
      does not matter. */
  lemma MapToggleCommutes(cats: seq<StockCategory>, t1: string, b1: bool, t2: string, b2: bool)
    requires t1 != t2
    ensures MapToggle(MapToggle(cats, t1, b1), t2, b2) == MapToggle(MapToggle(cats, t2, b2), t1, b1)
  {
  }

  /** The view model behind the screen. `uiState` is the current value of its
      state flow; `hookCalls` records every subscribe or unsubscribe call it
      has made, oldest first. */
  class MainViewModel {
    var uiState: UiState
    var hookCalls: seq<Hook>
    /** The category list the view model started from. */
    ghost const defaults: seq<StockCategory>

    /** Toggles only ever change flags: the categories and their order stay
        those of the default list. */
    ghost predicate Valid()
      reads this
    {
      SameCategories(defaults, uiState.stockCategories)
    }

    /** A fresh view model holds the default category list and has made no
        hook call. */
    constructor (stockCategories: seq<StockCategory>)
      ensures Valid()
      ensures defaults == stockCategories
      ensures uiState == UiState(stockCategories)
      ensures hookCalls == []
    {
      defaults := stockCategories;
      uiState := UiState(stockCategories);
      hookCalls := [];
    }

    /** Sets the flag of every category of `topicName` to `isSubscribed`, then
        makes exactly one hook call for that topic: subscribe when the flag is
        set, unsubscribe otherwise. */
    method ToggleSubscribed(topicName: string, isSubscribed: bool) returns (hook: Hook)
      requires Valid()
      modifies this
      ensures Valid()
      ensures uiState.stockCategories == MapToggle(old(uiState.stockCategories), topicName, isSubscribed)
      ensures hook.topic == topicName
      ensures hook.Subscribe? <==> isSubscribed
      ensures hookCalls == old(hookCalls) + [hook]
    {
      var stockCategories := MapToggle(uiState.stockCategories, topicName, isSubscribed);
      uiState := uiState.(stockCategories := stockCategories);
      if isSubscribed {
        hook := Subscribe(topicName);
      } else {
        hook := Unsubscribe(topicName);
      }
      hookCalls := hookCalls + [hook];
    }
  }
}
