/**
 * The deck: a fresh 52-card deck built suit by suit, a shuffle whose
 * permutation is supplied from outside, and dealing from the end.
 */
module Decks {
  import opened Cards

  /** The cards of suit `s` for the given ranks, in rank order. */
  function SuitRow(s: Suit, ranks: seq<Rank>): (row: seq<Card>)
    ensures |row| == |ranks|
  {
    if ranks == [] then []
    else SuitRow(s, ranks[..|ranks| - 1]) + [MakeCard(s, ranks[|ranks| - 1])]
  }

  /** One full row of ranks for each of the given suits, suit after suit. */
  function SuitRows(suits: seq<Suit>): (rows: seq<Card>)
    ensures |rows| == 13 * |suits|
  {
    if suits == [] then []
    else SuitRows(suits[..|suits| - 1]) + SuitRow(suits[|suits| - 1], ALL_RANKS)
  }

  /** The cards a fresh deck holds, in the order they are added. */
  function FullDeck(): (deck: seq<Card>)
    ensures |deck| == 52
  {
    SuitRows(ALL_SUITS)
  }

  /** Every card of a deck carries its rank's value. */
  predicate DeckWellFormed(deck: seq<Card>) {
    forall k :: 0 <= k < |deck| ==> WellFormed(deck[k])
  }

  /** The m-th card of a row is the card of the m-th rank. */
  lemma {:induction false} SuitRowAt(s: Suit, ranks: seq<Rank>, m: nat)
    requires m < |ranks|
    ensures SuitRow(s, ranks)[m] == MakeCard(s, ranks[m])
  {
    var init := ranks[..|ranks| - 1];
    if m < |init| {
      SuitRowAt(s, init, m);
    }
  }

  /** Suit-major order: the card at 13 * a + m has the a-th suit and the m-th rank. */
  lemma {:induction false} SuitRowsAt(suits: seq<Suit>, a: nat, m: nat)
    requires a < |suits| && m < 13
    ensures SuitRows(suits)[13 * a + m] == MakeCard(suits[a], ALL_RANKS[m])
  {
    var init := suits[..|suits| - 1];
    if a < |init| {
      SuitRowsAt(init, a, m);
    } else {
      SuitRowAt(suits[|suits| - 1], ALL_RANKS, m);
    }
  }

  /** A row one rank longer is the shorter row followed by that rank's card. */
  lemma SuitRowStep(s: Suit, ranks: seq<Rank>, j: nat)
    requires j < |ranks|
    ensures SuitRow(s, ranks[..j + 1]) == SuitRow(s, ranks[..j]) + [MakeCard(s, ranks[j])]
  {
    assert ranks[..j + 1][..j] == ranks[..j];
  }

  /** Rows for one suit more are the shorter rows followed by that suit's row. */
  lemma SuitRowsStep(suits: seq<Suit>, i: nat)
    requires i < |suits|
    ensures SuitRows(suits[..i + 1]) == SuitRows(suits[..i]) + SuitRow(suits[i], ALL_RANKS)
  {
    assert suits[..i + 1][..i] == suits[..i];
  }

  /** The number of occurrences of a card in a deck without repeats. */
  lemma {:induction false} DistinctCount(deck: seq<Card>, c: Card)
    requires forall i, j :: 0 <= i < j < |deck| ==> deck[i] != deck[j]
    ensures multiset(deck)[c] == if c in deck then 1 else 0
  {
    if deck != [] {
      var rest := deck[..|deck| - 1];
      assert deck == rest + [deck[|deck| - 1]];
      DistinctCount(rest, c);
      assert deck[|deck| - 1] !in rest;
    }
  }

  /** The card at position j of a fresh deck is well formed and has deck position j. */
  lemma FullDeckAt(j: nat)
    requires j < 52
    ensures WellFormed(FullDeck()[j]) && CardIndex(FullDeck()[j]) == j
  {
    var a, m := j / 13, j % 13;
    SuitRowsAt(ALL_SUITS, a, m);
    assert SuitIndex(ALL_SUITS[a]) == a;
    assert RankIndex(ALL_RANKS[m]) == m;
  }

  /** A fresh deck has 52 cards, and the card at position j has deck position j (suit-major order). */
  lemma FullDeckOrder()
    ensures |FullDeck()| == 52
    ensures forall j :: 0 <= j < 52 ==> WellFormed(FullDeck()[j]) && CardIndex(FullDeck()[j]) == j
  {
    forall j | 0 <= j < 52
      ensures WellFormed(FullDeck()[j]) && CardIndex(FullDeck()[j]) == j
    {
      FullDeckAt(j);
    }
  }

  /** Every well-formed card sits at its deck position in a fresh deck. */
  lemma FullDeckPositions()
    ensures forall c :: WellFormed(c) ==> FullDeck()[CardIndex(c)] == c
  {
    FullDeckOrder();
    forall c | WellFormed(c)
      ensures FullDeck()[CardIndex(c)] == c
    {
      CardIndexInjective(FullDeck()[CardIndex(c)], c);
    }
  }

  /** No card occurs twice in a fresh deck. */
  lemma FullDeckDistinct()
    ensures forall i, j :: 0 <= i < j < |FullDeck()| ==> FullDeck()[i] != FullDeck()[j]
  {
    FullDeckOrder();
  }

  /** A fresh deck holds exactly the well-formed cards. */
  lemma FullDeckMembers()
    ensures forall c :: c in FullDeck() <==> WellFormed(c)
  {
    FullDeckOrder();
    FullDeckPositions();
    forall c | c in FullDeck()
      ensures WellFormed(c)
    {
      var j :| 0 <= j < |FullDeck()| && FullDeck()[j] == c;
    }
  }

  /** A fresh deck holds each well-formed card once and nothing else. */
  lemma FullDeckCounts()
    ensures forall c :: multiset(FullDeck())[c] == if WellFormed(c) then 1 else 0
  {
    FullDeckDistinct();
    FullDeckMembers();
    forall c
      ensures multiset(FullDeck())[c] == if WellFormed(c) then 1 else 0
    {
      DistinctCount(FullDeck(), c);
    }
  }

  /**
   * A fresh deck holds exactly the well-formed cards, one per (suit, rank)
   * pair: the card of suit s and rank r sits at 13 * SuitIndex(s) + RankIndex(r),
   * and no card occurs twice.
   */
  lemma FullDeckFacts()
    ensures |FullDeck()| == 52
    ensures forall c :: WellFormed(c) ==> FullDeck()[CardIndex(c)] == c
    ensures forall c :: c in FullDeck() <==> WellFormed(c)
    ensures forall i, j :: 0 <= i < j < 52 ==> FullDeck()[i] != FullDeck()[j]
    ensures forall c :: multiset(FullDeck())[c] == if WellFormed(c) then 1 else 0
  {
    FullDeckPositions();
    FullDeckMembers();
    FullDeckDistinct();
    FullDeckCounts();
  }

  /** A deck in any order of the fresh deck's cards holds 52 well-formed cards. */
  lemma ArrangementFacts(arrangement: seq<Card>)
    requires multiset(arrangement) == multiset(FullDeck())
    ensures |arrangement| == 52
    ensures DeckWellFormed(arrangement)
  {
    FullDeckFacts();
    assert |arrangement| == |multiset(arrangement)| == |multiset(FullDeck())| == |FullDeck()|;
    forall k | 0 <= k < |arrangement|
      ensures WellFormed(arrangement[k])
    {
      assert arrangement[k] in multiset(arrangement);
      assert arrangement[k] in multiset(FullDeck());
    }
  }

  /** The cards that `n` deals from `deck` return, in the order they are dealt: from the end. */
  function Drawn(deck: seq<Card>, n: nat): seq<Card>
    requires n <= |deck|
  {
    seq(n, i requires 0 <= i < n => deck[|deck| - 1 - i])
  }

  /** Dealing a + b cards is dealing a cards and then b more from what is left. */
  lemma DrawnSplit(deck: seq<Card>, a: nat, b: nat)
    requires a + b <= |deck|
    ensures Drawn(deck, a + b) == Drawn(deck, a) + Drawn(deck[..|deck| - a], b)
  {
    var left := deck[..|deck| - a];
    var whole, first, second := Drawn(deck, a + b), Drawn(deck, a), Drawn(left, b);
    forall i | 0 <= i < a + b
      ensures whole[i] == (first + second)[i]
    {
      if i >= a {
        assert second[i - a] == left[|left| - 1 - (i - a)];
      }
    }
    assert whole == first + second;
  }

  class Deck {
    var cards: seq<Card>

    /** An empty deck. */
    constructor ()
      ensures cards == []
    {
      cards := [];
    }

    /** Adds one card per (suit, rank) pair to the deck, suit by suit. */
    method NewDeck()
      modifies this
      ensures cards == old(cards) + FullDeck()
    {
      for i := 0 to |ALL_SUITS|
        invariant cards == old(cards) + SuitRows(ALL_SUITS[..i])
      {
        AddRow(ALL_SUITS[i]);
        SuitRowsStep(ALL_SUITS, i);
      }
      assert ALL_SUITS[..4] == ALL_SUITS;
    }

    /** The inner loop of NewDeck: one card of suit `s` for each rank, in rank order. */
    method AddRow(s: Suit)
      modifies this
      ensures cards == old(cards) + SuitRow(s, ALL_RANKS)
    {
      for j := 0 to |ALL_RANKS|
        invariant cards == old(cards) + SuitRow(s, ALL_RANKS[..j])
      {
        var card := MakeCard(s, ALL_RANKS[j]);
        cards := cards + [card];
        SuitRowStep(s, ALL_RANKS, j);
      }
      assert ALL_RANKS[..13] == ALL_RANKS;
    }

    /**
     * Puts the cards into the order `arrangement`, a permutation of them
     * chosen by the randomness source.
     */
    method Shuffle(arrangement: seq<Card>)
      requires multiset(arrangement) == multiset(cards)
      modifies this
      ensures cards == arrangement
      ensures multiset(cards) == multiset(old(cards)) && |cards| == |old(cards)|
    {
      cards := arrangement;
      assert |multiset(cards)| == |multiset(old(cards))|;
    }

    /** Removes and returns the last card; an empty deck is a panic, so it is excluded. */
    method Deal() returns (c: Card)
      requires cards != []
      modifies this
      ensures c == old(cards)[|old(cards)| - 1]
      ensures cards == old(cards)[..|old(cards)| - 1]
      ensures old(cards) == cards + [c]
    {
      c := cards[|cards| - 1];
      cards := cards[..|cards| - 1];
    }
  }
}
