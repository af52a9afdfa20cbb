/** `DataPointSelector`: tapping a data point toggles its detail card. Open cards
    are kept twice, as a dictionary from point to card and as a list in the
    order the points were selected; the list is laid out as a centred row. */
module DataPointSelection {
  import opened Common
  import opened AircraftData
  import opened DataPoints

  /** The distance between the centres of neighbouring cards, in metres. */
  const Spacing: real := 0.45

  /** The horizontal offset of card `i` in a row of `n`: the row is centred on
      the camera's forward axis. */
  function RowOffset(i: int, n: int): real
  {
    -(Spacing * (n - 1) as real) * 0.5 + Spacing * i as real
  }

  /** The row is symmetric: card `i` and card `n - 1 - i` sit on opposite sides at the same distance. */
  lemma RowOffsetSymmetric(i: int, n: int)
    ensures RowOffset(n - 1 - i, n) == -RowOffset(i, n)
  {
  }

  /** Neighbouring cards are exactly `Spacing` apart. */
  lemma RowOffsetStep(i: int, n: int)
    ensures RowOffset(i + 1, n) - RowOffset(i, n) == Spacing
  {
  }

  /** `List.Remove`: the list without the first occurrence of `x`. */
  function RemoveFirst<T(==)>(s: seq<T>, x: T): (r: seq<T>)
    ensures x !in s ==> r == s
    ensures x in s ==> |r| == |s| - 1
    ensures forall y :: y in r ==> y in s
  {
    if s == [] then []
    else if s[0] == x then s[1..]
    else [s[0]] + RemoveFirst(s[1..], x)
  }

  /** Removing an element just appended, that was not there before, gives back the original list. */
  lemma {:induction false} RemoveFirstUndoesAppend<T>(s: seq<T>, x: T)
    requires x !in s
    ensures RemoveFirst(s + [x], x) == s
  {
    if s != [] {
      assert (s + [x])[1..] == s[1..] + [x];
      RemoveFirstUndoesAppend(s[1..], x);
    }
  }

  /** Adding a new key and removing it again gives back the original map. */
  lemma MapUpdateThenRemove<K, V>(m: map<K, V>, k: K, v: V)
    requires k !in m
    ensures m[k := v] - {k} == m
  {
    assert (m[k := v] - {k}).Keys == m.Keys;
  }

  /** When `x` first occurs at index `k`, removing it closes the gap at `k`. */
  lemma {:induction false} RemoveFirstAt<T>(s: seq<T>, x: T, k: int)
    requires 0 <= k < |s| && s[k] == x && x !in s[..k]
    ensures RemoveFirst(s, x) == s[..k] + s[k + 1..]
  {
    if k > 0 {
      assert s[0] != x by { assert s[0] in s[..k]; }
      assert s[1..][..k - 1] == s[1..k];
      RemoveFirstAt(s[1..], x, k - 1);
      assert s[..k] == [s[0]] + s[1..][..k - 1];
      assert s[1..][k..] == s[k + 1..];
    }
  }

  /** The elements of a sequence, as a set. */
  function Elements<T>(s: seq<T>): set<T>
  {
    set i | 0 <= i < |s| :: s[i]
  }

  /** Removing index `k` from a sequence without repeats removes exactly `s[k]` from its elements. */
  lemma ElementsRemoveAt<T>(s: seq<T>, k: int)
    requires 0 <= k < |s|
    requires forall i, j :: 0 <= i < j < |s| ==> s[i] != s[j]
    ensures Elements(s[..k] + s[k + 1..]) == Elements(s) - {s[k]}
  {
    var r := s[..k] + s[k + 1..];
    forall x | x in Elements(s) - {s[k]}
      ensures x in Elements(r)
    {
      var i :| 0 <= i < |s| && s[i] == x;
      if i < k { assert r[i] == x; } else { assert r[i - 1] == x; }
    }
    forall x | x in Elements(r)
      ensures x in Elements(s) - {s[k]}
    {
      var i :| 0 <= i < |r| && r[i] == x;
      if i < k { assert s[i] == x; } else { assert s[i + 1] == x; }
    }
  }

  /** Adding one element to the end adds it to the elements. */
  lemma ElementsAppend<T>(s: seq<T>, x: T)
    ensures Elements(s + [x]) == Elements(s) + {x}
  {
    var r := s + [x];
    assert r[|s|] == x;
    forall y | y in Elements(s)
      ensures y in Elements(r)
    {
      var i :| 0 <= i < |s| && s[i] == y;
      assert r[i] == y;
    }
  }

  /** Without repeats on either side, `cards[i]` is the card of `order[i]` and
      the map holds exactly the points of `order`. */
  ghost predicate Paired<P, C>(order: seq<P>, cards: seq<C>, m: map<P, C>)
  {
    && |order| == |cards|
    && (forall i, j :: 0 <= i < j < |order| ==> order[i] != order[j])
    && (forall i, j :: 0 <= i < j < |cards| ==> cards[i] != cards[j])
    && m.Keys == Elements(order)
    && (forall i :: 0 <= i < |order| ==> order[i] in m && m[order[i]] == cards[i])
  }

  /** Closing the card at position `k` keeps the pairing. */
  lemma PairedRemove<P, C>(order: seq<P>, cards: seq<C>, m: map<P, C>, k: int)
    requires Paired(order, cards, m) && 0 <= k < |order|
    ensures Paired(order[..k] + order[k + 1..], cards[..k] + cards[k + 1..], m - {order[k]})
  {
    ElementsRemoveAt(order, k);
    var o := order[..k] + order[k + 1..];
    var c := cards[..k] + cards[k + 1..];
    forall i | 0 <= i < |o|
      ensures o[i] in m - {order[k]} && (m - {order[k]})[o[i]] == c[i]
    {
      if i < k {
        assert o[i] == order[i] && c[i] == cards[i];
      } else {
        assert o[i] == order[i + 1] && c[i] == cards[i + 1];
      }
    }
  }

  /** The card of the point at position `k` first occurs at `k`, so `List.Remove` takes out position `k`. */
  lemma PairedRemoveFirst<P, C>(order: seq<P>, cards: seq<C>, m: map<P, C>, k: int)
    requires Paired(order, cards, m) && 0 <= k < |order|
    ensures RemoveFirst(cards, m[order[k]]) == cards[..k] + cards[k + 1..]
    ensures Paired(order[..k] + order[k + 1..], RemoveFirst(cards, m[order[k]]), m - {order[k]})
  {
    assert cards[k] !in cards[..k];
    RemoveFirstAt(cards, cards[k], k);
    PairedRemove(order, cards, m, k);
  }

  /** Opening a card for a new point at the end keeps the pairing. */
  lemma PairedAppend<P, C>(order: seq<P>, cards: seq<C>, m: map<P, C>, p: P, c: C)
    requires Paired(order, cards, m) && p !in m && c !in cards
    ensures Paired(order + [p], cards + [c], m[p := c])
  {
    ElementsAppend(order, p);
  }

  /** `AircraftDetailCard`: a card showing one record, at some horizontal offset in the row. */
  class AircraftDetailCard {
    const record: Option<AircraftRecord>
    var offset: real

    /** `Instantiate` of the card prefab followed by `Setup` with the point's record. */
    constructor (record: Option<AircraftRecord>)
      ensures this.record == record && offset == 0.0
    {
      this.record := record;
      offset := 0.0;
    }
  }

  class DataPointSelector {
    var openCards: map<AircraftDataPoint, AircraftDetailCard>
    var cardList: seq<AircraftDetailCard>
    /** The points of `openCards`, in the order their cards were opened. */
    ghost var order: seq<AircraftDataPoint>
    var selectionEnabled: bool
    /** `detailCardPrefab != null`. */
    const hasCardPrefab: bool
    /** The card prefab carries an `AircraftDetailCard` component. */
    const prefabHasCardComponent: bool

    /** `_cardList` holds exactly the cards of `_openCards`, one per point, in
        selection order; every point with a card is highlighted, and the cards
        sit at their row offsets. */
    ghost predicate Valid()
      reads this, openCards.Keys, cardList
    {
      && Paired(order, cardList, openCards)
      && (forall p :: p in openCards ==> p.isHighlighted)
      && (forall i :: 0 <= i < |cardList| ==> cardList[i].offset == RowOffset(i, |cardList|))
    }

    /** A selector with no open cards that ignores input until `EnableSelection`. */
    constructor (hasCardPrefab: bool, prefabHasCardComponent: bool)
      ensures Valid() && openCards == map[] && cardList == [] && !selectionEnabled
      ensures this.hasCardPrefab == hasCardPrefab && this.prefabHasCardComponent == prefabHasCardComponent
    {
      openCards := map[];
      cardList := [];
      order := [];
      selectionEnabled := false;
      this.hasCardPrefab := hasCardPrefab;
      this.prefabHasCardComponent := prefabHasCardComponent;
    }

    /** `EnableSelection`. */
    method EnableSelection()
      modifies this`selectionEnabled
      ensures selectionEnabled
    {
      selectionEnabled := true;
    }

    /** `Update`, one frame. `pressBegan` is a mouse press or a first touch in
        phase Began, `overUI` says it started on UI, and `hit` is the data point
        the physics ray found, if any. */
    method Update(pressBegan: bool, overUI: bool, hit: AircraftDataPoint?)
      requires Valid()
      modifies this, hit, cardList
      ensures Valid() && selectionEnabled == old(selectionEnabled)
      ensures hit != null ==> hit.record == old(hit.record) && hit.baseScale == old(hit.baseScale)
      ensures !(old(selectionEnabled) && pressBegan && !overUI && hit != null && hit.record.Some?) ==>
                openCards == old(openCards) && cardList == old(cardList)
                && (hit != null ==> hit.isHighlighted == old(hit.isHighlighted) && hit.localScale == old(hit.localScale))
      ensures old(selectionEnabled) && pressBegan && !overUI && hit != null && hit.record.Some? ==>
                && hit.isHighlighted == (hit !in old(openCards))
                && (hit in old(openCards) ==> hit.localScale == hit.baseScale)
                && (hit !in old(openCards) ==> hit.localScale == old(hit.localScale))
                && (hit in old(openCards) ==>
                      openCards == old(openCards) - {hit}
                      && cardList == RemoveFirst(old(cardList), old(openCards)[hit]))
                && (hit !in old(openCards) && !(hasCardPrefab && prefabHasCardComponent) ==>
                      openCards == old(openCards) && cardList == old(cardList))
                && (hit !in old(openCards) && hasCardPrefab && prefabHasCardComponent ==>
                      |cardList| == |old(cardList)| + 1 && cardList[..|old(cardList)|] == old(cardList)
                      && fresh(cardList[|old(cardList)|]) && cardList[|old(cardList)|].record == hit.record
                      && openCards == old(openCards)[hit := cardList[|old(cardList)|]])
    {
      if !selectionEnabled {
        return;
      }
      if !pressBegan {
        return;
      }
      if overUI {
        return;
      }
      HandleRay(hit);
    }

    /** `HandleRay`: toggles the point that was hit, if it has a record. */
    method HandleRay(hit: AircraftDataPoint?)
      requires Valid()
      modifies this, hit, cardList
      ensures Valid() && selectionEnabled == old(selectionEnabled)
      ensures hit != null ==> hit.record == old(hit.record) && hit.baseScale == old(hit.baseScale)
      ensures !(hit != null && hit.record.Some?) ==>
                openCards == old(openCards) && cardList == old(cardList)
                && (hit != null ==> hit.isHighlighted == old(hit.isHighlighted) && hit.localScale == old(hit.localScale))
      ensures hit != null && hit.record.Some? ==>
                && hit.isHighlighted == (hit !in old(openCards))
                && (hit in old(openCards) ==> hit.localScale == hit.baseScale)
                && (hit !in old(openCards) ==> hit.localScale == old(hit.localScale))
                && (hit in old(openCards) ==>
                      openCards == old(openCards) - {hit}
                      && cardList == RemoveFirst(old(cardList), old(openCards)[hit]))
                && (hit !in old(openCards) && !(hasCardPrefab && prefabHasCardComponent) ==>
                      openCards == old(openCards) && cardList == old(cardList))
                && (hit !in old(openCards) && hasCardPrefab && prefabHasCardComponent ==>
                      |cardList| == |old(cardList)| + 1 && cardList[..|old(cardList)|] == old(cardList)
                      && fresh(cardList[|old(cardList)|]) && cardList[|old(cardList)|].record == hit.record
                      && openCards == old(openCards)[hit := cardList[|old(cardList)|]])
    {
      if hit != null && hit.record.Some? {
        ToggleSelection(hit);
      }
    }

    /** `ToggleSelection`: a point with a card loses its highlight and its card;
        any other point is highlighted and, if a card can be made, gets one at the
        end of the row. Either way the row is laid out again. */
    method ToggleSelection(point: AircraftDataPoint)
      requires Valid()
      modifies this, point`isHighlighted, point`localScale, cardList
      ensures Valid() && selectionEnabled == old(selectionEnabled)
      ensures point.isHighlighted == (point !in old(openCards))
      ensures point in old(openCards) ==> point.localScale == point.baseScale
      ensures point !in old(openCards) ==> point.localScale == old(point.localScale)
      ensures point in old(openCards) ==>
                openCards == old(openCards) - {point}
                && cardList == RemoveFirst(old(cardList), old(openCards)[point])
      ensures point !in old(openCards) && !(hasCardPrefab && prefabHasCardComponent) ==>
                openCards == old(openCards) && cardList == old(cardList)
      ensures point !in old(openCards) && hasCardPrefab && prefabHasCardComponent ==>
                |cardList| == |old(cardList)| + 1 && cardList[..|old(cardList)|] == old(cardList)
                && fresh(cardList[|old(cardList)|]) && cardList[|old(cardList)|].record == point.record
                && openCards == old(openCards)[point := cardList[|old(cardList)|]]
    {
      if point in openCards {
        CloseCard(point);
        return;
      }
      OpenCard(point);
    }

    /** The branch of `ToggleSelection` for a point that has a card. */
    method CloseCard(point: AircraftDataPoint)
      requires Valid() && point in openCards
      modifies this, point`isHighlighted, point`localScale, cardList
      ensures Valid() && selectionEnabled == old(selectionEnabled) && !point.isHighlighted
      ensures point.localScale == point.baseScale
      ensures openCards == old(openCards) - {point}
      ensures cardList == RemoveFirst(old(cardList), old(openCards)[point])
    {
      var existingCard := openCards[point];
      point.SetHighlighted(false);
      Forget(point, existingCard);
      RepositionCards();
    }

    /** `_openCards.Remove(point); _cardList.Remove(existingCard)`: the point's
        entry and its card leave both collections, the others stay paired. */
    method Forget(point: AircraftDataPoint, card: AircraftDetailCard)
      requires Paired(order, cardList, openCards) && point in openCards && card == openCards[point]
      modifies this`openCards, this`cardList, this`order
      ensures Paired(order, cardList, openCards)
      ensures openCards == old(openCards) - {point}
      ensures cardList == RemoveFirst(old(cardList), card)
    {
      ghost var k :| 0 <= k < |order| && order[k] == point;
      PairedRemoveFirst(order, cardList, openCards, k);
      openCards := openCards - {point};
      cardList := RemoveFirst(cardList, card);
      order := order[..k] + order[k + 1..];
    }

    /** The branch of `ToggleSelection` for a point without a card. */
    method OpenCard(point: AircraftDataPoint)
      requires Valid() && point !in openCards
      modifies this, point`isHighlighted, point`localScale, cardList
      ensures Valid() && selectionEnabled == old(selectionEnabled) && point.isHighlighted
      ensures point.localScale == old(point.localScale)
      ensures !(hasCardPrefab && prefabHasCardComponent) ==>
                openCards == old(openCards) && cardList == old(cardList)
      ensures hasCardPrefab && prefabHasCardComponent ==>
                |cardList| == |old(cardList)| + 1 && cardList[..|old(cardList)|] == old(cardList)
                && fresh(cardList[|old(cardList)|]) && cardList[|old(cardList)|].record == point.record
                && openCards == old(openCards)[point := cardList[|old(cardList)|]]
    {
      point.SetHighlighted(true);
      AddCard(point);
    }

    /** The rest of that branch, once the point is highlighted: a new card, when
        one can be made, joins the row, which is laid out again. */
    method AddCard(point: AircraftDataPoint)
      requires Valid() && point !in openCards && point.isHighlighted
      modifies this`openCards, this`cardList, this`order, cardList
      ensures Valid()
      ensures !(hasCardPrefab && prefabHasCardComponent) ==>
                openCards == old(openCards) && cardList == old(cardList)
      ensures hasCardPrefab && prefabHasCardComponent ==>
                |cardList| == |old(cardList)| + 1 && cardList[..|old(cardList)|] == old(cardList)
                && fresh(cardList[|old(cardList)|]) && cardList[|old(cardList)|].record == point.record
                && openCards == old(openCards)[point := cardList[|old(cardList)|]]
    {
      var newCard := CreateCard(point);
      if newCard != null {
        Remember(point, newCard);
        RepositionCards();
      }
    }

    /** `_openCards[point] = newCard; _cardList.Add(newCard)`: a new point and its
        new card join both collections, at the end of the row. */
    method Remember(point: AircraftDataPoint, card: AircraftDetailCard)
      requires Paired(order, cardList, openCards) && point !in openCards && card !in cardList
      modifies this`openCards, this`cardList, this`order
      ensures Paired(order, cardList, openCards)
      ensures openCards == old(openCards)[point := card]
      ensures cardList == old(cardList) + [card]
    {
      PairedAppend(order, cardList, openCards, point, card);
      openCards := openCards[point := card];
      cardList := cardList + [card];
      order := order + [point];
    }

    /** `CreateCard`: `null` without a prefab or when the prefab lacks the card
        component; otherwise a new card set up with the point's record. */
    method CreateCard(point: AircraftDataPoint) returns (card: AircraftDetailCard?)
      ensures card == null <==> !(hasCardPrefab && prefabHasCardComponent)
      ensures card != null ==> fresh(card) && card.record == point.record
    {
      if !hasCardPrefab {
        return null;
      }
      if !prefabHasCardComponent {
        return null;
      }
      card := new AircraftDetailCard(point.record);
    }

    /** `RepositionCards`: card `i` of `n` goes to `RowOffset(i, n)`. */
    method RepositionCards()
      requires forall i, j :: 0 <= i < j < |cardList| ==> cardList[i] != cardList[j]
      modifies cardList
      ensures forall i :: 0 <= i < |cardList| ==> cardList[i].offset == RowOffset(i, |cardList|)
    {
      if |cardList| == 0 {
        return;
      }
      var totalWidth := Spacing * (|cardList| - 1) as real;
      var startOffset := -totalWidth * 0.5;
      for i := 0 to |cardList|
        invariant forall j :: 0 <= j < i ==> cardList[j].offset == RowOffset(j, |cardList|)
      {
        var card := cardList[i];
        card.offset := startOffset + Spacing * i as real;
      }
    }

    /** `OnDisable`: every point with a card loses its highlight, and both collections are emptied. */
    method OnDisable()
      requires Valid()
      modifies this, openCards.Keys
      ensures Valid() && openCards == map[] && cardList == []
      ensures selectionEnabled == old(selectionEnabled)
      ensures forall p :: p in old(openCards) ==> !p.isHighlighted && p.localScale == p.baseScale
      ensures forall p :: p in old(openCards) ==> p.baseScale == old(p.baseScale) && p.record == old(p.record)
    {
      var pending := openCards.Keys;
      while pending != {}
        invariant pending <= old(openCards).Keys && openCards == old(openCards)
        invariant selectionEnabled == old(selectionEnabled)
        invariant forall p :: p in old(openCards) && p !in pending ==> !p.isHighlighted && p.localScale == p.baseScale
        invariant forall p :: p in old(openCards) ==> p.baseScale == old(p.baseScale) && p.record == old(p.record)
        decreases pending
      {
        var point :| point in pending;
        point.SetHighlighted(false);
        pending := pending - {point};
      }
      openCards := map[];
      cardList := [];
      order := [];
    }

    /** Selecting a point and then deselecting it closes the card just opened
        and leaves the selection as it was. */
    method ToggleTwice(point: AircraftDataPoint)
      requires Valid() && point !in openCards && hasCardPrefab && prefabHasCardComponent
      modifies this, point`isHighlighted, point`localScale, cardList
      ensures Valid() && openCards == old(openCards) && cardList == old(cardList)
      ensures !point.isHighlighted && point.localScale == point.baseScale
    {
      ghost var cards0, map0 := cardList, openCards;
      ToggleSelection(point);
      var card := cardList[|cardList| - 1];
      assert cardList == cards0 + [card] && card !in cards0;
      assert openCards == map0[point := card];
      ToggleSelection(point);
      MapUpdateThenRemove(map0, point, card);
      RemoveFirstUndoesAppend(cards0, card);
    }
  }
}
