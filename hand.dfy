/**
 * A participant's hand: the cards held, a running value and the number of
 * Aces still counted as 11 ("soft" aces).
 */
module Hands {
  import opened Cards

  /** The fields of a hand, as a value. */
  datatype HandState = HandState(cards: seq<Card>, value: int, aces: int)

  const EMPTY_HAND := HandState([], 0, 0)

  /** The sum of the cards' own values (every Ace as 11). */
  function Total(cards: seq<Card>): int
  {
    if cards == [] then 0 else Total(cards[..|cards| - 1]) + cards[|cards| - 1].value
  }

  /** The number of Aces among the cards. */
  function AceCount(cards: seq<Card>): nat
  {
    if cards == [] then 0
    else AceCount(cards[..|cards| - 1]) + (if cards[|cards| - 1].rank == Ace then 1 else 0)
  }

  /**
   * The hand invariant: every card carries its rank's value, at most as many
   * soft aces as there are Aces, and the running value is the sum of the cards
   * with each hard Ace counted as 1 instead of 11.
   */
  predicate Consistent(h: HandState) {
    && (forall k :: 0 <= k < |h.cards| ==> WellFormed(h.cards[k]))
    && 0 <= h.aces <= AceCount(h.cards)
    && h.value == Total(h.cards) - 10 * (AceCount(h.cards) - h.aces)
  }

  /** The hand after `add_card(c)`: the card is appended and counted at its own value. */
  function WithCard(h: HandState, c: Card): (r: HandState)
    ensures Consistent(h) && WellFormed(c) ==> Consistent(r)
  {
    var cards := h.cards + [c];
    assert cards[..|cards| - 1] == h.cards;
    HandState(cards, h.value + c.value, h.aces + if c.rank == Ace then 1 else 0)
  }

  /** The hand after `adjust_for_aces()`: one soft Ace turned hard if the hand is over 21. */
  function AceAdjusted(h: HandState): (r: HandState)
    ensures Consistent(h) ==> Consistent(r)
    ensures r.cards == h.cards
    ensures h.aces - 1 <= r.aces <= h.aces
    ensures r.value == h.value - 10 * (h.aces - r.aces)
    ensures r != h <==> h.value > 21 && h.aces > 0
  {
    if h.value > 21 && h.aces > 0 then h.(value := h.value - 10, aces := h.aces - 1) else h
  }

  /** The hand after a hit with card `c`: the card is added, then aces are adjusted once. */
  function AfterHit(h: HandState, c: Card): (r: HandState)
    ensures Consistent(h) && WellFormed(c) ==> Consistent(r)
  {
    AceAdjusted(WithCard(h, c))
  }

  /** Counting every Ace as 1, each card is worth at least 1. */
  lemma {:induction false} HardTotalAtLeastCount(cards: seq<Card>)
    requires forall k :: 0 <= k < |cards| ==> WellFormed(cards[k])
    ensures Total(cards) - 10 * AceCount(cards) >= |cards|
  {
    if cards != [] {
      HardTotalAtLeastCount(cards[..|cards| - 1]);
    }
  }

  /** A consistent hand is worth at least as much as it has cards. */
  lemma ValueAtLeastCardCount(h: HandState)
    requires Consistent(h)
    ensures h.value >= |h.cards|
  {
    HardTotalAtLeastCount(h.cards);
  }

  /**
   * Ace adjustment happens at most once per hit: two Aces and then a hit of a
   * King is 22 with one soft Ace left, not 12; only a second adjustment reaches 12.
   */
  lemma TwoAcesThenKing(s1: Suit, s2: Suit, s3: Suit)
    ensures var h := WithCard(WithCard(EMPTY_HAND, MakeCard(s1, Ace)), MakeCard(s2, Ace));
            && h.value == 22 && h.aces == 2
            && AfterHit(h, MakeCard(s3, King)).value == 22
            && AfterHit(h, MakeCard(s3, King)).aces == 1
            && AceAdjusted(AfterHit(h, MakeCard(s3, King))).value == 12
  {
  }

  class Hand {
    var cards: seq<Card>
    var value: int
    var aces: int

    /** An empty hand. */
    constructor ()
      ensures State() == EMPTY_HAND
    {
      cards, value, aces := [], 0, 0;
    }

    function State(): HandState
      reads this
    {
      HandState(cards, value, aces)
    }

    ghost predicate Valid()
      reads this
    {
      Consistent(State())
    }

    /** Appends the card, adds its value, and counts it as a soft ace if it is an Ace. */
    method AddCard(card: Card)
      modifies this
      ensures cards == old(cards) + [card]
      ensures value == old(value) + card.value
      ensures aces == old(aces) + if card.rank == Ace then 1 else 0
      ensures State() == WithCard(old(State()), card)
      ensures old(Valid()) && WellFormed(card) ==> Valid()
    {
      cards := cards + [card];
      value := value + card.value;
      if card.rank == Ace {
        aces := aces + 1;
      }
    }

    /** Turns one soft ace hard if the hand is over 21; otherwise leaves the hand alone. */
    method AdjustForAces()
      modifies this
      ensures cards == old(cards)
      ensures if old(value) > 21 && old(aces) > 0
              then value == old(value) - 10 && aces == old(aces) - 1
              else value == old(value) && aces == old(aces)
      ensures State() == AceAdjusted(old(State()))
      ensures old(Valid()) ==> Valid()
    {
      if value > 21 && aces > 0 {
        value := value - 10;
        aces := aces - 1;
      }
    }
  }
}
