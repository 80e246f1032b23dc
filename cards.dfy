/**
 * Playing cards: the four suits, the thirteen ranks and the blackjack value
 * that a card is given from its rank when it is created.
 */
module Cards {

  datatype Suit = Hearts | Diamonds | Spades | Clubs

  datatype Rank = Two | Three | Four | Five | Six | Seven | Eight | Nine | Ten
                | Jack | Queen | King | Ace

  /** A card. `value` is filled in from the rank when the card is made (see MakeCard). */
  datatype Card = Card(suit: Suit, rank: Rank, value: int)

  /** The suits and the ranks in declaration order, which is the order they are iterated in. */
  const ALL_SUITS: seq<Suit> := [Hearts, Diamonds, Spades, Clubs]
  const ALL_RANKS: seq<Rank> := [Two, Three, Four, Five, Six, Seven, Eight, Nine, Ten,
                                 Jack, Queen, King, Ace]

  /** The value a card of rank `r` is given; an Ace counts high (11) on the card itself. */
  function RankValue(r: Rank): (v: int)
    ensures 2 <= v <= 11
    ensures v == 11 <==> r == Ace
    ensures v == 10 <==> r in {Ten, Jack, Queen, King}
  {
    match r
    case Two => 2
    case Three => 3
    case Four => 4
    case Five => 5
    case Six => 6
    case Seven => 7
    case Eight => 8
    case Nine => 9
    case Ten => 10
    case Jack => 10
    case Queen => 10
    case King => 10
    case Ace => 11
  }

  /** The whole rank-to-value table: the numeric ranks are worth their number, the court cards 10. */
  lemma RankValueTable()
    ensures forall i :: 0 <= i < 9 ==> RankValue(ALL_RANKS[i]) == i + 2
    ensures RankValue(Jack) == RankValue(Queen) == RankValue(King) == 10
    ensures RankValue(Ace) == 11
  {
  }

  /** A card whose value is the one its rank gives it. */
  predicate WellFormed(c: Card) {
    c.value == RankValue(c.rank)
  }

  /** Creating a card: the suit and rank are given, the value is set from the rank. */
  function MakeCard(s: Suit, r: Rank): (c: Card)
    ensures c.suit == s && c.rank == r
    ensures WellFormed(c)
  {
    Card(s, r, RankValue(r))
  }

  /** The position of a suit in ALL_SUITS. */
  function SuitIndex(s: Suit): (i: nat)
    ensures i < |ALL_SUITS| && ALL_SUITS[i] == s
  {
    match s
    case Hearts => 0
    case Diamonds => 1
    case Spades => 2
    case Clubs => 3
  }

  /** The position of a rank in ALL_RANKS. */
  function RankIndex(r: Rank): (i: nat)
    ensures i < |ALL_RANKS| && ALL_RANKS[i] == r
  {
    match r
    case Two => 0
    case Three => 1
    case Four => 2
    case Five => 3
    case Six => 4
    case Seven => 5
    case Eight => 6
    case Nine => 7
    case Ten => 8
    case Jack => 9
    case Queen => 10
    case King => 11
    case Ace => 12
  }

  /** The position of a card in a fresh deck: suit-major, then rank. */
  function CardIndex(c: Card): (i: nat)
    ensures i < 52
  {
    13 * SuitIndex(c.suit) + RankIndex(c.rank)
  }

  /** Two well-formed cards at the same deck position are the same card. */
  lemma CardIndexInjective(c1: Card, c2: Card)
    requires WellFormed(c1) && WellFormed(c2)
    requires CardIndex(c1) == CardIndex(c2)
    ensures c1 == c2
  {
    var s1, s2 := SuitIndex(c1.suit), SuitIndex(c2.suit);
    var r1, r2 := RankIndex(c1.rank), RankIndex(c2.rank);
    assert c1.suit == ALL_SUITS[s1] && c2.suit == ALL_SUITS[s2];
    assert c1.rank == ALL_RANKS[r1] && c2.rank == ALL_RANKS[r2];
  }
}
