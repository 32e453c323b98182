/**
  The emotion sorting gallery: eight emoji dragged into a positive or a
  negative bin against a 30-second countdown. A correct drop scores and
  removes the item; emptying the pool wins, running out of time loses, and
  a lost game can be restarted.
 */
module EmotionSortingGallery {
  import opened Types
  import opened Constants
  import opened Lists

  datatype GameState = Playing | Won | Lost

  /** `GAME_DURATION`, in one-second ticks. */
  const GameDuration: int := 30

  predicate DistinctIds(items: seq<SortItem>)
  {
    forall i, j :: 0 <= i < j < |items| ==> items[i].id != items[j].id
  }

  /** `items.filter(item => item.id !== id)`: the items without that id, in their order. */
  function WithoutItem(items: seq<SortItem>, id: int): (r: seq<SortItem>)
    ensures |r| <= |items|
    ensures forall x :: x in r <==> x in items && x.id != id
    ensures DistinctIds(items) ==> DistinctIds(r)
  {
    if items == [] then []
    else if items[0].id == id then WithoutItem(items[1..], id)
    else
      var rest := WithoutItem(items[1..], id);
      assert forall x :: x in rest ==> x in items[1..];
      [items[0]] + rest
  }

  /** With distinct ids, filtering out a present id removes exactly one item. */
  lemma {:induction false} WithoutPresentItem(items: seq<SortItem>, x: SortItem)
    requires DistinctIds(items) && x in items
    ensures |WithoutItem(items, x.id)| == |items| - 1
  {
    if items[0] == x {
      assert forall y :: y in items[1..] ==> y.id != x.id;
      WithoutAbsentId(items[1..], x.id);
    } else {
      assert x in items[1..];
      WithoutPresentItem(items[1..], x);
    }
  }

  /** Filtering out an id no item carries changes nothing. */
  lemma {:induction false} WithoutAbsentId(items: seq<SortItem>, id: int)
    requires forall y :: y in items ==> y.id != id
    ensures WithoutItem(items, id) == items
  {
    if items != [] {
      WithoutAbsentId(items[1..], id);
    }
  }

  /** Every shuffle of the gallery's items keeps their ids distinct. */
  lemma ShuffledIdsDistinct(perm: seq<nat>)
    requires IsPermutation(perm, |EmotionSortingItems()|)
    ensures DistinctIds(Permute(EmotionSortingItems(), perm))
  {
  }

  class Gallery {
    var items: seq<SortItem>
    var timer: int
    var score: int
    var state: GameState
    var dragged: Option<SortItem>

    /**
      The pool holds distinct items of the table and every item is either
      scored or still in the pool; a dragged item is in the pool; a running
      game has time and items left, a won game has no items, a lost game no
      time.
     */
    ghost predicate Valid()
      reads this
    {
      && DistinctIds(items)
      && (forall x :: x in items ==> x in EmotionSortingItems())
      && 0 <= score && score + |items| == |EmotionSortingItems()|
      && (dragged.Some? ==> dragged.value in items)
      && 0 <= timer <= GameDuration
      && (state == Playing ==> timer > 0 && items != [])
      && (state == Won ==> items == [] && dragged == None)
      && (state == Lost ==> timer == 0 && items != [])
    }

    /** A game of the table's items in the order `perm`, with the full time and no score. */
    constructor (perm: seq<nat>)
      requires IsPermutation(perm, |EmotionSortingItems()|)
      ensures Valid()
      ensures items == Permute(EmotionSortingItems(), perm)
      ensures timer == GameDuration && score == 0 && state == Playing && dragged == None
    {
      ShuffledIdsDistinct(perm);
      items := Permute(EmotionSortingItems(), perm);
      timer := GameDuration;
      score := 0;
      state := Playing;
      dragged := None;
    }

    /** `handleDragStart` on one of the pool's items. */
    method DragStart(item: SortItem)
      requires Valid() && state == Playing && item in items
      modifies this`dragged
      ensures Valid()
      ensures dragged == Some(item)
    {
      dragged := Some(item);
    }

    /**
      `handleDrop` into bin `category`, followed by the win check. Without a
      dragged item nothing happens. A drop into the item's own bin scores
      one and removes it from the pool; a wrong bin changes neither. The
      dragged item is cleared, and an emptied pool wins the game and
      signals completion.
     */
    method Drop(category: Category) returns (complete: bool)
      requires Valid() && state == Playing
      modifies this
      ensures Valid()
      ensures old(dragged).None? ==> unchanged(this) && !complete
      ensures old(dragged).Some? && old(dragged).value.category == category ==>
                score == old(score) + 1 && items == WithoutItem(old(items), old(dragged).value.id)
      ensures old(dragged).Some? && old(dragged).value.category != category ==>
                score == old(score) && items == old(items)
      ensures dragged == None && timer == old(timer)
      ensures complete <==> items == []
      ensures state == (if items == [] then Won else Playing)
    {
      if dragged.None? {
        return false;
      }
      var item := dragged.value;
      if item.category == category {
        WithoutPresentItem(items, item);
        score := score + 1;
        items := WithoutItem(items, item.id);
      }
      dragged := None;
      complete := items == [];
      if complete {
        state := Won;
      }
    }

    /** One second of the countdown, followed by the time-out check. */
    method Tick()
      requires Valid() && state == Playing
      modifies this`timer, this`state
      ensures Valid()
      ensures timer == old(timer) - 1
      ensures state == (if timer <= 0 then Lost else Playing)
    {
      timer := timer - 1;
      if timer <= 0 {
        state := Lost;
      }
    }

    /**
      `resetGame` from the lost screen: the full table in the order `perm`,
      the full time, no score, playing again. The dragged item is kept, as
      the handler leaves it.
     */
    method Reset(perm: seq<nat>)
      requires Valid() && state == Lost && IsPermutation(perm, |EmotionSortingItems()|)
      modifies this`items, this`timer, this`score, this`state
      ensures Valid()
      ensures items == Permute(EmotionSortingItems(), perm)
      ensures timer == GameDuration && score == 0 && state == Playing
    {
      ShuffledIdsDistinct(perm);
      items := Permute(EmotionSortingItems(), perm);
      timer := GameDuration;
      score := 0;
      state := Playing;
    }
  }
}
