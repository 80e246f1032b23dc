/**
 * One round of the game: four opening deals, the bet, the player's hits and
 * stands, the dealer's draw-to-17 policy and the settlement of the bet.
 *
 * The pure functions PlayerTurn, DealerTurn and RoundSpec say what a round
 * computes; the methods Hit, HitOrStand and PlayRound do it step by step on
 * Deck, Hand and Chips objects and are proved to compute the same thing.
 */
module Game {
  import opened Wrappers
  import opened Cards
  import opened Decks
  import opened Hands
  import opened Ledger

  /** One line of player input at the hit-or-stand prompt. */
  datatype Choice = ChooseHit | ChooseStand | Unrecognized

  /** How the player's turn ended. */
  datatype TurnEnd = Stood | Busted | OutOfChoices

  datatype PlayerResult = PlayerResult(hand: HandState, deck: seq<Card>, end: TurnEnd)

  datatype DealerResult = DealerResult(hand: HandState, deck: seq<Card>)

  /** The settlement branch a round ends in. */
  datatype Outcome = PlayerBust | DealerBust | DealerHigher | PlayerHigher | Push

  /**
   * Why a round stops without a result: the input ran out at the bet prompt
   * or at the hit-or-stand prompt, or the 32-bit chip arithmetic overflowed.
   */
  datatype RoundError = NoAcceptableBet | ChoicesExhausted | ChipOverflow

  /** The final state of a round: both hands, the undealt cards, the bet and the chip total. */
  datatype RoundReport = RoundReport(player: HandState, dealer: HandState, deck: seq<Card>,
                                     bet: int, outcome: Outcome, total: int)

  /** Every round starts the player with this many chips. */
  const STARTING_CHIPS: int := 100

  // ---------------------------------------------------------------------------
  // Settlement

  /** The settlement comparison made once the dealer has played. */
  function Settle(player: int, dealer: int): (o: Outcome)
    ensures o != PlayerBust
  {
    if dealer > 21 then DealerBust
    else if dealer > player then DealerHigher
    else if dealer < player then PlayerHigher
    else Push
  }

  /** How an outcome changes the chip total. */
  function Delta(o: Outcome, bet: int): (d: int)
    ensures d == bet || d == -bet || (d == 0 && o == Push)
  {
    match o
    case DealerBust => bet
    case PlayerHigher => bet
    case PlayerBust => -bet
    case DealerHigher => -bet
    case Push => 0
  }

  /** A hand's standing for comparison: a bust counts as 0. */
  function Score(value: int): int {
    if value > 21 then 0 else value
  }

  /**
   * For a player who did not bust, settlement compares scores with a dealer
   * bust counting as 0: the player wins the bet exactly when their score is
   * higher, loses it exactly when it is lower, and a tie is a push.
   */
  lemma SettleByScore(player: int, dealer: int, bet: int)
    requires 0 < player <= 21
    ensures Delta(Settle(player, dealer), bet) == bet <== Score(player) > Score(dealer)
    ensures Delta(Settle(player, dealer), bet) == -bet <== Score(player) < Score(dealer)
    ensures Settle(player, dealer) == Push <==> Score(player) == Score(dealer)
    ensures Settle(player, dealer) in {DealerBust, PlayerHigher} <==> Score(player) > Score(dealer)
    ensures Settle(player, dealer) == DealerHigher <==> Score(player) < Score(dealer)
  {
  }

  // ---------------------------------------------------------------------------
  // The player's turn

  /**
   * The position of the next recognised choice at or after `from`; the
   * unrecognised lines before it are the ones re-prompted for.
   */
  function NextDecision(choices: seq<Choice>, from: nat): (k: Option<nat>)
    requires from <= |choices|
    decreases |choices| - from
    ensures k.Some? ==> from <= k.value < |choices| && choices[k.value] != Unrecognized
    ensures k.Some? ==> forall j :: from <= j < k.value ==> choices[j] == Unrecognized
    ensures k.None? <==> forall j :: from <= j < |choices| ==> choices[j] == Unrecognized
  {
    if from == |choices| then None
    else if choices[from] != Unrecognized then Some(from)
    else NextDecision(choices, from + 1)
  }

  /** The next recognised choice is a hit. */
  predicate HitsNext(choices: seq<Choice>, from: nat)
    requires from <= |choices|
  {
    match NextDecision(choices, from)
    case Some(k) => choices[k] == ChooseHit
    case None => false
  }

  /**
   * The state in which the player's loop is entered: a consistent hand that
   * is not over 21 (except the two opening cards, which are not adjusted)
   * and enough cards left for every hit the player can still take.
   */
  predicate CanPlay(h: HandState, deck: seq<Card>) {
    && Consistent(h)
    && (h.value <= 21 || |h.cards| == 2)
    && DeckWellFormed(deck)
    && |deck| + |h.cards| >= 22
  }

  /**
   * The player's turn from input position `from`: for each recognised choice,
   * a hit draws the last card and adjusts aces once, and a stand ends the turn;
   * a hand over 21 after the choice ends the turn as a bust.
   */
  function PlayerTurn(h: HandState, deck: seq<Card>, choices: seq<Choice>, from: nat): (t: PlayerResult)
    requires from <= |choices|
    requires CanPlay(h, deck)
    decreases |choices| - from
    ensures Consistent(t.hand) && DeckWellFormed(t.deck)
    ensures |t.deck| + |t.hand.cards| == |deck| + |h.cards|
    ensures |h.cards| <= |t.hand.cards| <= 22
    ensures t.end == Stood ==> t.hand.value <= 21
    ensures t.end == Busted ==> t.hand.value > 21
  {
    ValueAtLeastCardCount(h);
    match NextDecision(choices, from)
    case None => PlayerResult(h, deck, OutOfChoices)
    case Some(k) =>
      if choices[k] == ChooseStand then
        PlayerResult(h, deck, if h.value > 21 then Busted else Stood)
      else
        HitStep(h, deck);
        var next := AfterHit(h, deck[|deck| - 1]);
        if next.value > 21 then PlayerResult(next, deck[..|deck| - 1], Busted)
        else PlayerTurn(next, deck[..|deck| - 1], choices, k + 1)
  }

  /** What one hit does to a hand and the deck it is dealt from. */
  lemma HitStep(h: HandState, deck: seq<Card>)
    requires Consistent(h) && DeckWellFormed(deck)
    requires h.value <= 21 || |h.cards| == 2
    requires |deck| + |h.cards| >= 22
    ensures deck != []
    ensures Consistent(AfterHit(h, deck[|deck| - 1])) && DeckWellFormed(deck[..|deck| - 1])
    ensures AfterHit(h, deck[|deck| - 1]).cards == h.cards + [deck[|deck| - 1]]
    ensures |h.cards| <= 21
  {
    ValueAtLeastCardCount(h);
  }

  /**
   * `cards` is `start` followed by cards dealt one at a time from the end of
   * `deck`, and `left` is what remains of the deck.
   */
  predicate DealtFrom(start: seq<Card>, deck: seq<Card>, cards: seq<Card>, left: seq<Card>) {
    && |left| <= |deck| && left == deck[..|left|]
    && cards == start + Drawn(deck, |deck| - |left|)
  }

  /** Nothing dealt. */
  lemma DealtNone(start: seq<Card>, deck: seq<Card>)
    ensures DealtFrom(start, deck, start, deck)
  {
    assert deck[..|deck|] == deck;
    assert Drawn(deck, 0) == [];
  }

  /** One card dealt from the end. */
  lemma DealtOne(start: seq<Card>, deck: seq<Card>)
    requires deck != []
    ensures DealtFrom(start, deck, start + [deck[|deck| - 1]], deck[..|deck| - 1])
  {
    assert Drawn(deck, 1) == [deck[|deck| - 1]];
  }

  /**
   * One card dealt from the end, then more from what is left: together they
   * are dealt from the end of the whole deck.
   */
  lemma DealtFromEnd(start: seq<Card>, deck: seq<Card>, cards: seq<Card>, left: seq<Card>)
    requires deck != []
    requires DealtFrom(start + [deck[|deck| - 1]], deck[..|deck| - 1], cards, left)
    ensures DealtFrom(start, deck, cards, left)
  {
    DrawnSplit(deck, 1, |deck| - 1 - |left|);
  }

  /**
   * The player's cards are the opening cards followed by the cards dealt
   * from the end of the deck, and what is left is a prefix of the deck.
   */
  lemma {:induction false} PlayerTurnDeals(h: HandState, deck: seq<Card>, choices: seq<Choice>, from: nat)
    requires from <= |choices|
    requires CanPlay(h, deck)
    decreases |choices| - from, 2
    ensures DealtFrom(h.cards, deck, PlayerTurn(h, deck, choices, from).hand.cards,
                      PlayerTurn(h, deck, choices, from).deck)
  {
    if HitsNext(choices, from) {
      PlayerHitDeals(h, deck, choices, from);
    } else {
      PlayerTurnNoHit(h, deck, choices, from);
      DealtNone(h.cards, deck);
    }
  }

  /** PlayerTurnDeals for a turn whose next recognised choice is a hit. */
  lemma {:induction false} PlayerHitDeals(h: HandState, deck: seq<Card>, choices: seq<Choice>, from: nat)
    requires from <= |choices|
    requires CanPlay(h, deck)
    requires HitsNext(choices, from)
    decreases |choices| - from, 1
    ensures DealtFrom(h.cards, deck, PlayerTurn(h, deck, choices, from).hand.cards,
                      PlayerTurn(h, deck, choices, from).deck)
  {
    HitStep(h, deck);
    if AfterHit(h, deck[|deck| - 1]).value <= 21 {
      PlayerHitContinueDeals(h, deck, choices, from);
    } else {
      PlayerHitBusts(h, deck, choices, from);
      DealtOne(h.cards, deck);
    }
  }

  /** PlayerHitDeals for a hit that leaves the hand at 21 or less. */
  lemma {:induction false} PlayerHitContinueDeals(h: HandState, deck: seq<Card>, choices: seq<Choice>,
                                                  from: nat)
    requires from <= |choices|
    requires CanPlay(h, deck)
    requires HitsNext(choices, from)
    requires deck != [] && AfterHit(h, deck[|deck| - 1]).value <= 21
    decreases |choices| - from, 0
    ensures DealtFrom(h.cards, deck, PlayerTurn(h, deck, choices, from).hand.cards,
                      PlayerTurn(h, deck, choices, from).deck)
  {
    var k := NextDecision(choices, from).value + 1;
    PlayerHitContinues(h, deck, choices, from);
    HitStep(h, deck);
    PlayerTurnDeals(AfterHit(h, deck[|deck| - 1]), deck[..|deck| - 1], choices, k);
    DealtAfterHit(h, deck, PlayerTurn(h, deck, choices, from),
                  PlayerTurn(AfterHit(h, deck[|deck| - 1]), deck[..|deck| - 1], choices, k));
  }

  /** The cards of a turn that continues after a hit are dealt from the end of the deck. */
  lemma DealtAfterHit(h: HandState, deck: seq<Card>, turn: PlayerResult, rest: PlayerResult)
    requires deck != [] && turn == rest
    requires AfterHit(h, deck[|deck| - 1]).cards == h.cards + [deck[|deck| - 1]]
    requires DealtFrom(AfterHit(h, deck[|deck| - 1]).cards, deck[..|deck| - 1], rest.hand.cards, rest.deck)
    ensures DealtFrom(h.cards, deck, turn.hand.cards, turn.deck)
  {
    DealtFromEnd(h.cards, deck, turn.hand.cards, turn.deck);
  }

  /** A hit that takes the hand over 21 ends the turn as a bust. */
  lemma PlayerHitBusts(h: HandState, deck: seq<Card>, choices: seq<Choice>, from: nat)
    requires from <= |choices|
    requires CanPlay(h, deck)
    requires HitsNext(choices, from)
    requires deck != [] && AfterHit(h, deck[|deck| - 1]).value > 21
    ensures PlayerTurn(h, deck, choices, from)
            == PlayerResult(AfterHit(h, deck[|deck| - 1]), deck[..|deck| - 1], Busted)
  {
  }

  /** A hit that leaves the hand at 21 or less continues the turn after the hit. */
  lemma PlayerHitContinues(h: HandState, deck: seq<Card>, choices: seq<Choice>, from: nat)
    requires from <= |choices|
    requires CanPlay(h, deck)
    requires HitsNext(choices, from)
    requires deck != [] && AfterHit(h, deck[|deck| - 1]).value <= 21
    ensures CanPlay(AfterHit(h, deck[|deck| - 1]), deck[..|deck| - 1])
    ensures PlayerTurn(h, deck, choices, from)
            == PlayerTurn(AfterHit(h, deck[|deck| - 1]), deck[..|deck| - 1], choices,
                          NextDecision(choices, from).value + 1)
  {
    HitStep(h, deck);
  }

  /** A turn whose next recognised choice is not a hit deals nothing. */
  lemma PlayerTurnNoHit(h: HandState, deck: seq<Card>, choices: seq<Choice>, from: nat)
    requires from <= |choices|
    requires CanPlay(h, deck)
    requires !HitsNext(choices, from)
    ensures PlayerTurn(h, deck, choices, from)
            == PlayerResult(h, deck, if NextDecision(choices, from).None? then OutOfChoices
                                     else if h.value > 21 then Busted else Stood)
  {
  }

  /** The dealer's fixed policy: hit while the hand is below 17. */
  function DealerTurn(h: HandState, deck: seq<Card>): (t: DealerResult)
    requires Consistent(h) && DeckWellFormed(deck) && |deck| + |h.cards| >= 17
    decreases |deck|
    ensures Consistent(t.hand) && DeckWellFormed(t.deck)
    ensures t.hand.value >= 17
    ensures |t.deck| + |t.hand.cards| == |deck| + |h.cards| && |h.cards| <= |t.hand.cards|
    ensures |t.hand.cards| <= 17 || t.hand == h
    ensures h.value >= 17 ==> t == DealerResult(h, deck)
  {
    if h.value < 17 then
      DealerHitStep(h, deck);
      DealerTurn(AfterHit(h, deck[|deck| - 1]), deck[..|deck| - 1])
    else
      DealerResult(h, deck)
  }

  /** What one dealer hit below 17 does to the hand and the deck. */
  lemma DealerHitStep(h: HandState, deck: seq<Card>)
    requires Consistent(h) && DeckWellFormed(deck) && |deck| + |h.cards| >= 17
    requires h.value < 17
    ensures deck != [] && |h.cards| < 17
    ensures Consistent(AfterHit(h, deck[|deck| - 1])) && DeckWellFormed(deck[..|deck| - 1])
    ensures AfterHit(h, deck[|deck| - 1]).cards == h.cards + [deck[|deck| - 1]]
  {
    ValueAtLeastCardCount(h);
  }

  /** The dealer's hits are dealt from the end of the deck, as for the player. */
  lemma {:induction false} DealerTurnDeals(h: HandState, deck: seq<Card>)
    requires Consistent(h) && DeckWellFormed(deck) && |deck| + |h.cards| >= 17
    decreases |deck|
    ensures DealtFrom(h.cards, deck, DealerTurn(h, deck).hand.cards, DealerTurn(h, deck).deck)
  {
    if h.value < 17 {
      DealerHitStep(h, deck);
      DealerTurnDeals(AfterHit(h, deck[|deck| - 1]), deck[..|deck| - 1]);
      DealtFromEnd(h.cards, deck, DealerTurn(h, deck).hand.cards, DealerTurn(h, deck).deck);
    } else {
      DealtNone(h.cards, deck);
    }
  }

  // ---------------------------------------------------------------------------
  // The round

  /** The table after the opening deals: both hands and the cards left. */
  datatype Table = Table(player: HandState, dealer: HandState, deck: seq<Card>)

  /** A hand after `add_card` of two cards, as the opening deals do (no ace adjustment). */
  function OpeningHand(first: Card, second: Card): HandState {
    WithCard(WithCard(EMPTY_HAND, first), second)
  }

  /**
   * The four opening deals, each from the end of the deck: two cards to the
   * player, then two to the dealer.
   */
  function OpeningDeal(deck: seq<Card>): (t: Table)
    requires |deck| >= 4
    ensures t.deck == deck[..|deck| - 4]
    ensures t.player.cards + t.dealer.cards == Drawn(deck, 4)
  {
    var n := |deck|;
    OpeningCardsDrawn(deck);
    Table(OpeningHand(deck[n - 1], deck[n - 2]), OpeningHand(deck[n - 3], deck[n - 4]), deck[..n - 4])
  }

  /** The four opening cards are the last four of the deck, last first. */
  lemma OpeningCardsDrawn(deck: seq<Card>)
    requires |deck| >= 4
    ensures OpeningHand(deck[|deck| - 1], deck[|deck| - 2]).cards
            + OpeningHand(deck[|deck| - 3], deck[|deck| - 4]).cards == Drawn(deck, 4)
  {
    DrawnFour(deck);
    OpeningHandCards(deck[|deck| - 1], deck[|deck| - 2]);
    OpeningHandCards(deck[|deck| - 3], deck[|deck| - 4]);
  }

  lemma DrawnFour(deck: seq<Card>)
    requires |deck| >= 4
    ensures Drawn(deck, 4) == [deck[|deck| - 1], deck[|deck| - 2], deck[|deck| - 3], deck[|deck| - 4]]
  {
    var n := |deck|;
    var d := Drawn(deck, 4);
    assert d[0] == deck[n - 1] && d[1] == deck[n - 2] && d[2] == deck[n - 3] && d[3] == deck[n - 4];
  }

  /** The opening hand holds the two cards in the order dealt and their full values. */
  lemma OpeningHandCards(first: Card, second: Card)
    ensures OpeningHand(first, second).cards == [first, second]
    ensures OpeningHand(first, second).value == first.value + second.value
  {
  }

  /** The table the player's turn starts from: two consistent hands of two cards and 48 cards left. */
  predicate Ready(t: Table) {
    && CanPlay(t.player, t.deck) && Consistent(t.dealer)
    && |t.player.cards| == 2 && |t.dealer.cards| == 2 && |t.deck| == 48
  }

  /** Dealing from a shuffled full deck gives a table the round can be played on. */
  lemma OpeningReady(arrangement: seq<Card>)
    requires |arrangement| == 52 && DeckWellFormed(arrangement)
    ensures Ready(OpeningDeal(arrangement))
  {
    var n := |arrangement|;
    OpeningHandConsistent(arrangement[n - 1], arrangement[n - 2]);
    OpeningHandConsistent(arrangement[n - 3], arrangement[n - 4]);
    OpeningHandCards(arrangement[n - 1], arrangement[n - 2]);
    OpeningHandCards(arrangement[n - 3], arrangement[n - 4]);
    PrefixWellFormed(arrangement, n - 4);
  }

  /** Two well-formed cards make a consistent opening hand. */
  lemma OpeningHandConsistent(first: Card, second: Card)
    requires WellFormed(first) && WellFormed(second)
    ensures Consistent(OpeningHand(first, second))
  {
    assert Consistent(WithCard(EMPTY_HAND, first));
  }

  /** What is left of a well-formed deck after dealing is well formed. */
  lemma PrefixWellFormed(deck: seq<Card>, n: nat)
    requires DeckWellFormed(deck) && n <= |deck|
    ensures DeckWellFormed(deck[..n])
  {
    forall k | 0 <= k < n
      ensures WellFormed(deck[..n][k])
    {
      assert deck[..n][k] == deck[k];
    }
  }

  /** Applies the outcome to the fresh chip total, or reports the 32-bit overflow. */
  function Settlement(player: HandState, dealer: HandState, deck: seq<Card>, bet: int, o: Outcome)
    : Result<RoundReport, RoundError>
  {
    var total := STARTING_CHIPS + Delta(o, bet);
    if IsI32(total) then Ok(RoundReport(player, dealer, deck, bet, o, total)) else Err(ChipOverflow)
  }

  /** The dealer's draw to 17 followed by the four-way settlement. */
  function DealerPhase(player: HandState, dealer: HandState, deck: seq<Card>, bet: int)
    : Result<RoundReport, RoundError>
    requires Consistent(dealer) && DeckWellFormed(deck) && |deck| + |dealer.cards| >= 17
  {
    var d := DealerTurn(dealer, deck);
    Settlement(player, d.hand, d.deck, bet, Settle(player.value, d.hand.value))
  }

  /** The round once the cards are dealt and the bet is placed. */
  function PlayTable(table: Table, bet: int, choices: seq<Choice>): Result<RoundReport, RoundError>
    requires Ready(table)
  {
    var t := PlayerTurn(table.player, table.deck, choices, 0);
    if t.end == OutOfChoices then Err(ChoicesExhausted)
    else if t.end == Busted then Settlement(t.hand, table.dealer, t.deck, bet, PlayerBust)
    else DealerPhase(t.hand, table.dealer, t.deck, bet)
  }

  /**
   * The result of one round on the shuffled deck `arrangement`, the bet
   * attempts `bets` and the hit-or-stand input `choices`.
   */
  function RoundSpec(arrangement: seq<Card>, bets: seq<I32>, choices: seq<Choice>)
    : Result<RoundReport, RoundError>
    requires multiset(arrangement) == multiset(FullDeck())
  {
    ArrangementFacts(arrangement);
    OpeningReady(arrangement);
    match FirstAffordable(bets, STARTING_CHIPS)
    case None => Err(NoAcceptableBet)
    case Some(i) => PlayTable(OpeningDeal(arrangement), bets[i], choices)
  }

  /** A player bust ends the round at once: the dealer keeps the opening hand and the bet is lost. */
  lemma TableBust(table: Table, bet: int, choices: seq<Choice>)
    requires Ready(table)
    ensures var r := PlayTable(table, bet, choices);
            r.Ok? && r.value.outcome == PlayerBust ==>
              && r.value.player.value > 21
              && r.value.dealer == table.dealer
              && r.value.total == STARTING_CHIPS - bet
  {
  }

  /**
   * Otherwise the dealer plays: the player is at most 21, the dealer stops at
   * 17 or more, and the four-way comparison decides the outcome.
   */
  lemma TableDealerPlays(table: Table, bet: int, choices: seq<Choice>)
    requires Ready(table)
    ensures var r := PlayTable(table, bet, choices);
            r.Ok? && r.value.outcome != PlayerBust ==>
              && r.value.player.value <= 21
              && r.value.dealer.value >= 17
              && r.value.outcome == Settle(r.value.player.value, r.value.dealer.value)
  {
    var t := PlayerTurn(table.player, table.deck, choices, 0);
    if t.end == Stood {
      var d := DealerTurn(table.dealer, t.deck);
      assert d.hand.value >= 17;
    }
  }

  /**
   * The chip total is the fresh 100 moved by the bet as the outcome says; a
   * bet the prompt accepts overflows only when it is below 100 - I32_MAX
   * (TableOverflow says exactly when).
   */
  lemma TableLedger(table: Table, bet: int, choices: seq<Choice>)
    requires Ready(table)
    requires IsI32(bet) && bet <= STARTING_CHIPS
    ensures var r := PlayTable(table, bet, choices);
            && !(r.Err? && r.error == NoAcceptableBet)
            && (r.Ok? ==> r.value.bet == bet && r.value.total == STARTING_CHIPS + Delta(r.value.outcome, bet))
            && (r == Err(ChipOverflow) ==> bet < STARTING_CHIPS - I32_MAX)
  {
  }

  /** The round reaches a branch that calls `lose_bet`: a player bust, or a dealer scoring higher. */
  predicate LosesBet(table: Table, choices: seq<Choice>)
    requires Ready(table)
  {
    var t := PlayerTurn(table.player, table.deck, choices, 0);
    || t.end == Busted
    || (t.end == Stood && Settle(t.hand.value, DealerTurn(table.dealer, t.deck).hand.value) == DealerHigher)
  }

  /**
   * The chips overflow exactly when the bet is lost and is below
   * 100 - I32_MAX: a won bet of at most 100 added to 100 always fits.
   */
  lemma TableOverflow(table: Table, bet: int, choices: seq<Choice>)
    requires Ready(table)
    requires IsI32(bet) && bet <= STARTING_CHIPS
    ensures PlayTable(table, bet, choices) == Err(ChipOverflow)
            <==> bet < STARTING_CHIPS - I32_MAX && LosesBet(table, choices)
  {
    PlayTableCases(table, bet, choices);
    var t := PlayerTurn(table.player, table.deck, choices, 0);
    if t.end == Stood {
      var d := DealerTurn(table.dealer, t.deck);
      assert PlayTable(table, bet, choices)
             == Settlement(t.hand, d.hand, d.deck, bet, Settle(t.hand.value, d.hand.value));
    }
  }

  /**
   * The cards `p` and `d` of the hands and the deck `rest` that end a round
   * played on `table`: each hand is
   * its opening cards followed by cards dealt from the end of the table's
   * deck, the player's hits first, and at least 13 cards are never dealt.
   */
  predicate DealtAfter(table: Table, p: seq<Card>, d: seq<Card>, rest: seq<Card>) {
    && |p| >= 2 && |d| >= 2 && 13 <= |rest| <= |table.deck|
    && p[..2] == table.player.cards && d[..2] == table.dealer.cards
    && rest == table.deck[..|rest|]
    && p[2..] + d[2..] == Drawn(table.deck, |table.deck| - |rest|)
  }

  /** The player's hits and then the dealer's are dealt from the end of the deck after the opening. */
  lemma TableDealing(table: Table, bet: int, choices: seq<Choice>)
    requires Ready(table)
    ensures var r := PlayTable(table, bet, choices);
            r.Ok? ==> DealtAfter(table, r.value.player.cards, r.value.dealer.cards, r.value.deck)
  {
    var t := PlayerTurn(table.player, table.deck, choices, 0);
    PlayTableCases(table, bet, choices);
    PlayerTurnDeals(table.player, table.deck, choices, 0);
    if t.end == Stood {
      var dt := DealerTurn(table.dealer, t.deck);
      DealerTurnDeals(table.dealer, t.deck);
      PlayerThenDealer(table, t.deck, t.hand.cards, dt.hand.cards, dt.deck);
    } else if t.end == Busted {
      DealtNone(table.dealer.cards, t.deck);
      PlayerThenDealer(table, t.deck, t.hand.cards, table.dealer.cards, t.deck);
    }
  }

  /**
   * The player's hits dealt from the end of the table's deck, then the
   * dealer's from the end of what is left, are together dealt from its end.
   */
  lemma PlayerThenDealer(table: Table, mid: seq<Card>, p: seq<Card>, d: seq<Card>, rest: seq<Card>)
    requires |table.player.cards| == 2 && |table.dealer.cards| == 2 && |rest| >= 13
    requires DealtFrom(table.player.cards, table.deck, p, mid)
    requires DealtFrom(table.dealer.cards, mid, d, rest)
    ensures DealtAfter(table, p, d, rest)
  {
    var deck := table.deck;
    DrawnSplit(deck, |deck| - |mid|, |mid| - |rest|);
    assert p[2..] == Drawn(deck, |deck| - |mid|);
    assert d[2..] == Drawn(mid, |mid| - |rest|);
  }

  /** Both final hands keep the hand invariant. */
  lemma TableHandsConsistent(table: Table, bet: int, choices: seq<Choice>)
    requires Ready(table)
    ensures var r := PlayTable(table, bet, choices);
            r.Ok? ==> Consistent(r.value.player) && Consistent(r.value.dealer)
  {
  }

  /**
   * The bet is the first attempt that does not exceed the fresh total of 100;
   * a round has no bet exactly when every attempt exceeds it.
   */
  lemma RoundBet(arrangement: seq<Card>, bets: seq<I32>, choices: seq<Choice>)
    requires multiset(arrangement) == multiset(FullDeck())
    ensures var r := RoundSpec(arrangement, bets, choices);
            && (r == Err(NoAcceptableBet) <==> forall j :: 0 <= j < |bets| ==> bets[j] > STARTING_CHIPS)
            && (r.Ok? ==> FirstAffordable(bets, STARTING_CHIPS).Some?
                          && r.value.bet == bets[FirstAffordable(bets, STARTING_CHIPS).value])
  {
    ArrangementFacts(arrangement);
    OpeningReady(arrangement);
    match FirstAffordable(bets, STARTING_CHIPS)
    case None =>
    case Some(i) => TableLedger(OpeningDeal(arrangement), bets[i], choices);
  }

  /**
   * The settlement of a round: a bust loses the bet and leaves the dealer
   * with the two opening cards; otherwise the dealer stands at 17 or more and
   * the four-way comparison moves the fresh 100 chips by the bet.
   */
  lemma RoundSettlement(arrangement: seq<Card>, bets: seq<I32>, choices: seq<Choice>)
    requires multiset(arrangement) == multiset(FullDeck())
    ensures (ArrangementFacts(arrangement);
            var r := RoundSpec(arrangement, bets, choices);
            && (r.Ok? ==> r.value.bet <= STARTING_CHIPS
                          && r.value.total == STARTING_CHIPS + Delta(r.value.outcome, r.value.bet))
            && (r.Ok? && r.value.outcome == PlayerBust ==>
                  && r.value.player.value > 21
                  && r.value.dealer == OpeningHand(arrangement[49], arrangement[48]))
            && (r.Ok? && r.value.outcome != PlayerBust ==>
                  && r.value.player.value <= 21
                  && r.value.dealer.value >= 17
                  && r.value.outcome == Settle(r.value.player.value, r.value.dealer.value))
            && (r == Err(ChipOverflow) ==>
                  && FirstAffordable(bets, STARTING_CHIPS).Some?
                  && bets[FirstAffordable(bets, STARTING_CHIPS).value] < STARTING_CHIPS - I32_MAX))
  {
    ArrangementFacts(arrangement);
    OpeningReady(arrangement);
    match FirstAffordable(bets, STARTING_CHIPS)
    case None =>
    case Some(i) =>
      var table := OpeningDeal(arrangement);
      TableBust(table, bets[i], choices);
      TableDealerPlays(table, bets[i], choices);
      TableLedger(table, bets[i], choices);
  }

  /**
   * The hands and deck `x` that end a round dealt from `arrangement`: two
   * cards to the player, two to the dealer, then the player's hits, then the
   * dealer's, all from the end; the undealt rest is a prefix of at least 13.
   */
  predicate DealtInRoundOrder(arrangement: seq<Card>, x: RoundReport) {
    var p, d, rest := x.player.cards, x.dealer.cards, x.deck;
    && |p| >= 2 && |d| >= 2 && |rest| + |p| + |d| == |arrangement|
    && |rest| >= 13
    && rest == arrangement[..|rest|]
    && p[..2] + d[..2] + p[2..] + d[2..] == Drawn(arrangement, |arrangement| - |rest|)
  }

  /**
   * Cards are dealt from the end of the shuffled deck: two to the player, two
   * to the dealer, then the player's hits, then the dealer's. The deck is
   * never exhausted: at least 13 cards are left.
   */
  lemma RoundDealingOrder(arrangement: seq<Card>, bets: seq<I32>, choices: seq<Choice>)
    requires multiset(arrangement) == multiset(FullDeck())
    ensures RoundSpec(arrangement, bets, choices).Ok? ==>
              DealtInRoundOrder(arrangement, RoundSpec(arrangement, bets, choices).value)
  {
    ArrangementFacts(arrangement);
    OpeningReady(arrangement);
    match FirstAffordable(bets, STARTING_CHIPS)
    case None =>
    case Some(i) => OpeningDealing(arrangement, bets[i], choices);
  }

  /** RoundDealingOrder for the round played on the opening deal from `arrangement`. */
  lemma OpeningDealing(arrangement: seq<Card>, bet: int, choices: seq<Choice>)
    requires |arrangement| == 52 && DeckWellFormed(arrangement)
    ensures Ready(OpeningDeal(arrangement))
    ensures PlayTable(OpeningDeal(arrangement), bet, choices).Ok? ==>
              DealtInRoundOrder(arrangement, PlayTable(OpeningDeal(arrangement), bet, choices).value)
  {
    OpeningReady(arrangement);
    var table := OpeningDeal(arrangement);
    var r := PlayTable(table, bet, choices);
    TableDealing(table, bet, choices);
    if r.Ok? {
      DealtInOrder(arrangement, table, r.value);
    }
  }

  /** The opening cards followed by the later deals are the cards dealt from the end. */
  lemma DealtInOrder(arrangement: seq<Card>, table: Table, x: RoundReport)
    requires |arrangement| == 52 && table.deck == arrangement[..48]
    requires |table.player.cards| == 2 && |table.dealer.cards| == 2
    requires table.player.cards + table.dealer.cards == Drawn(arrangement, 4)
    requires DealtAfter(table, x.player.cards, x.dealer.cards, x.deck)
    ensures DealtInRoundOrder(arrangement, x)
  {
    var p, d, rest := x.player.cards, x.dealer.cards, x.deck;
    DrawnSplit(arrangement, 4, 48 - |rest|);
    assert p[..2] + d[..2] + p[2..] + d[2..] == (table.player.cards + table.dealer.cards) + (p[2..] + d[2..]);
  }

  /** Both final hands keep the hand invariant. */
  lemma RoundHandsConsistent(arrangement: seq<Card>, bets: seq<I32>, choices: seq<Choice>)
    requires multiset(arrangement) == multiset(FullDeck())
    ensures var r := RoundSpec(arrangement, bets, choices);
            r.Ok? ==> Consistent(r.value.player) && Consistent(r.value.dealer)
  {
    ArrangementFacts(arrangement);
    OpeningReady(arrangement);
    match FirstAffordable(bets, STARTING_CHIPS)
    case None =>
    case Some(i) => TableHandsConsistent(OpeningDeal(arrangement), bets[i], choices);
  }

  /** A player whose opening hand is over 21 and who stands busts with that hand. */
  lemma TableStandOver21(table: Table, bet: int, choices: seq<Choice>)
    requires Ready(table) && table.player.value > 21
    requires NextDecision(choices, 0).Some? && choices[NextDecision(choices, 0).value] == ChooseStand
    ensures var r := PlayTable(table, bet, choices);
            r.Ok? ==> r.value.outcome == PlayerBust && r.value.player == table.player
  {
  }

  /** A dealer whose opening hand is over 21 draws nothing and busts unless the player did. */
  lemma TableDealerOver21(table: Table, bet: int, choices: seq<Choice>)
    requires Ready(table) && table.dealer.value > 21
    ensures var r := PlayTable(table, bet, choices);
            r.Ok? && r.value.outcome != PlayerBust ==>
              r.value.outcome == DealerBust && r.value.dealer == table.dealer
  {
    var t := PlayerTurn(table.player, table.deck, choices, 0);
    if t.end == Stood {
      assert DealerTurn(table.dealer, t.deck).hand == table.dealer;
    }
  }

  /**
   * The opening deals do not adjust aces, so a player dealt two Aces holds 22
   * and loses on standing at once, without a hit.
   */
  lemma RoundOpeningAcesStand(arrangement: seq<Card>, bets: seq<I32>, choices: seq<Choice>)
    requires multiset(arrangement) == multiset(FullDeck())
    requires |arrangement| == 52 && arrangement[51].rank == Ace && arrangement[50].rank == Ace
    requires NextDecision(choices, 0).Some? && choices[NextDecision(choices, 0).value] == ChooseStand
    ensures var r := RoundSpec(arrangement, bets, choices);
            r.Ok? ==> r.value.outcome == PlayerBust && r.value.player.value == 22
                      && |r.value.player.cards| == 2
  {
    ArrangementFacts(arrangement);
    OpeningReady(arrangement);
    OpeningHandCards(arrangement[51], arrangement[50]);
    match FirstAffordable(bets, STARTING_CHIPS)
    case None =>
    case Some(i) => TableStandOver21(OpeningDeal(arrangement), bets[i], choices);
  }

  /**
   * Likewise a dealer dealt two Aces holds 22, draws nothing, and busts when
   * the player stands at 21 or less.
   */
  lemma RoundDealerOpeningAces(arrangement: seq<Card>, bets: seq<I32>, choices: seq<Choice>)
    requires multiset(arrangement) == multiset(FullDeck())
    requires |arrangement| == 52 && arrangement[49].rank == Ace && arrangement[48].rank == Ace
    ensures var r := RoundSpec(arrangement, bets, choices);
            r.Ok? && r.value.outcome != PlayerBust ==>
              r.value.outcome == DealerBust && r.value.dealer.value == 22
              && |r.value.dealer.cards| == 2
  {
    ArrangementFacts(arrangement);
    OpeningReady(arrangement);
    OpeningHandCards(arrangement[49], arrangement[48]);
    match FirstAffordable(bets, STARTING_CHIPS)
    case None =>
    case Some(i) => TableDealerOver21(OpeningDeal(arrangement), bets[i], choices);
  }

  // ---------------------------------------------------------------------------
  // The round, step by step

  /** Deals the deck's last card to the hand and adjusts its aces once. */
  method Hit(deck: Deck, hand: Hand)
    requires deck.cards != []
    modifies deck, hand
    ensures hand.State() == AfterHit(old(hand.State()), old(deck.cards)[|old(deck.cards)| - 1])
    ensures deck.cards == old(deck.cards)[..|old(deck.cards)| - 1]
    ensures old(hand.Valid()) && WellFormed(old(deck.cards)[|old(deck.cards)| - 1]) ==> hand.Valid()
  {
    var card := deck.Deal();
    hand.AddCard(card);
    hand.AdjustForAces();
  }

  /**
   * The hit-or-stand prompt, reading `choices` from position `from`:
   * unrecognised lines are skipped, a hit is carried out, and the choice
   * acted on is returned with the position after it; None when the input
   * runs out first.
   */
  method HitOrStand(deck: Deck, hand: Hand, choices: seq<Choice>, from: nat)
      returns (next: nat, decision: Option<Choice>)
    requires from <= |choices|
    requires HitsNext(choices, from) ==> deck.cards != []
    modifies deck, hand
    ensures next <= |choices|
    ensures decision.None? <==> NextDecision(choices, from).None?
    ensures decision.Some? ==> next == NextDecision(choices, from).value + 1
                               && decision.value == choices[next - 1]
    ensures decision == Some(ChooseHit) ==>
              && hand.State() == AfterHit(old(hand.State()), old(deck.cards)[|old(deck.cards)| - 1])
              && deck.cards == old(deck.cards)[..|old(deck.cards)| - 1]
    ensures decision != Some(ChooseHit) ==>
              hand.State() == old(hand.State()) && deck.cards == old(deck.cards)
  {
    next := from;
    while next < |choices|
      invariant from <= next <= |choices|
      invariant NextDecision(choices, next) == NextDecision(choices, from)
      invariant hand.State() == old(hand.State()) && deck.cards == old(deck.cards)
    {
      if choices[next] == ChooseHit {
        Hit(deck, hand);
        return next + 1, Some(ChooseHit);
      } else if choices[next] == ChooseStand {
        return next + 1, Some(ChooseStand);
      }
      // "Please try again."
      next := next + 1;
    }
    return next, None;
  }

  /** The player busts: the bet is lost. `ok` is false on a 32-bit overflow. */
  method PlayerBusts(chips: Chips) returns (ok: bool)
    modifies chips
    ensures ok == IsI32(old(chips.total) - old(chips.bet))
    ensures chips.total == if ok then old(chips.total) - old(chips.bet) else old(chips.total)
    ensures chips.bet == old(chips.bet)
  {
    ok := chips.LoseBet();
  }

  /** The player beats the dealer: the bet is won. */
  method PlayerWins(chips: Chips) returns (ok: bool)
    modifies chips
    ensures ok == IsI32(old(chips.total) + old(chips.bet))
    ensures chips.total == if ok then old(chips.total) + old(chips.bet) else old(chips.total)
    ensures chips.bet == old(chips.bet)
  {
    ok := chips.WinBet();
  }

  /** The dealer busts: the bet is won. */
  method DealerBusts(chips: Chips) returns (ok: bool)
    modifies chips
    ensures ok == IsI32(old(chips.total) + old(chips.bet))
    ensures chips.total == if ok then old(chips.total) + old(chips.bet) else old(chips.total)
    ensures chips.bet == old(chips.bet)
  {
    ok := chips.WinBet();
  }

  /** The dealer beats the player: the bet is lost. */
  method DealerWins(chips: Chips) returns (ok: bool)
    modifies chips
    ensures ok == IsI32(old(chips.total) - old(chips.bet))
    ensures chips.total == if ok then old(chips.total) - old(chips.bet) else old(chips.total)
    ensures chips.bet == old(chips.bet)
  {
    ok := chips.LoseBet();
  }

  /**
   * The player's loop: hit-or-stand prompts while the player is still
   * playing, stopping after a stand, at a hand over 21, or when the input
   * runs out.
   */
  method PlayerPlays(deck: Deck, hand: Hand, choices: seq<Choice>) returns (end: TurnEnd)
    requires CanPlay(hand.State(), deck.cards)
    modifies deck, hand
    ensures PlayerResult(hand.State(), deck.cards, end)
            == PlayerTurn(old(hand.State()), old(deck.cards), choices, 0)
  {
    ghost var turn := PlayerTurn(hand.State(), deck.cards, choices, 0);
    var playing := true;
    var next := 0;
    while playing
      invariant next <= |choices|
      invariant playing ==> CanPlay(hand.State(), deck.cards)
                            && PlayerTurn(hand.State(), deck.cards, choices, next) == turn
      invariant !playing ==> turn == PlayerResult(hand.State(), deck.cards, Stood)
      decreases |choices| - next, playing
    {
      var decision;
      next, decision := PlayerPrompt(deck, hand, choices, next);
      if decision.None? {
        return OutOfChoices;
      }
      if decision == Some(ChooseStand) {
        playing := false;
      }
      if hand.value > 21 {
        return Busted;
      }
    }
    return Stood;
  }

  /**
   * One pass of the player's loop body before the bust check: HitOrStand from
   * position `from`, stated against PlayerTurn.
   */
  method PlayerPrompt(deck: Deck, hand: Hand, choices: seq<Choice>, from: nat)
      returns (next: nat, decision: Option<Choice>)
    requires from <= |choices|
    requires CanPlay(hand.State(), deck.cards)
    modifies deck, hand
    ensures next <= |choices|
    ensures decision.Some? ==> from < next && decision.value in {ChooseHit, ChooseStand}
    ensures decision.None? ==>
              PlayerTurn(old(hand.State()), old(deck.cards), choices, from)
              == PlayerResult(hand.State(), deck.cards, OutOfChoices)
    ensures decision.Some? && hand.value > 21 ==>
              PlayerTurn(old(hand.State()), old(deck.cards), choices, from)
              == PlayerResult(hand.State(), deck.cards, Busted)
    ensures decision == Some(ChooseStand) && hand.value <= 21 ==>
              PlayerTurn(old(hand.State()), old(deck.cards), choices, from)
              == PlayerResult(hand.State(), deck.cards, Stood)
    ensures decision == Some(ChooseHit) && hand.value <= 21 ==>
              && CanPlay(hand.State(), deck.cards)
              && PlayerTurn(old(hand.State()), old(deck.cards), choices, from)
                 == PlayerTurn(hand.State(), deck.cards, choices, next)
  {
    ghost var h, cards := hand.State(), deck.cards;
    HitStep(h, cards);
    next, decision := HitOrStand(deck, hand, choices, from);
    PlayerStep(h, cards, choices, from, decision, next, hand.State(), deck.cards);
  }

  /**
   * One pass of the player's loop, as HitOrStand reports it, against
   * PlayerTurn: `h2` and `deck2` are the hand and deck after the pass.
   */
  lemma PlayerStep(h: HandState, deck: seq<Card>, choices: seq<Choice>, from: nat,
                   decision: Option<Choice>, next: nat, h2: HandState, deck2: seq<Card>)
    requires from <= |choices| && CanPlay(h, deck) && next <= |choices|
    requires decision.None? <==> NextDecision(choices, from).None?
    requires decision.Some? ==> next == NextDecision(choices, from).value + 1
                                && decision.value == choices[next - 1]
    requires decision == Some(ChooseHit) ==>
               deck != [] && h2 == AfterHit(h, deck[|deck| - 1]) && deck2 == deck[..|deck| - 1]
    requires decision != Some(ChooseHit) ==> h2 == h && deck2 == deck
    ensures decision.Some? ==> from < next && decision.value in {ChooseHit, ChooseStand}
    ensures decision.None? ==> PlayerTurn(h, deck, choices, from) == PlayerResult(h2, deck2, OutOfChoices)
    ensures decision.Some? && h2.value > 21 ==>
              PlayerTurn(h, deck, choices, from) == PlayerResult(h2, deck2, Busted)
    ensures decision == Some(ChooseStand) && h2.value <= 21 ==>
              PlayerTurn(h, deck, choices, from) == PlayerResult(h2, deck2, Stood)
    ensures decision == Some(ChooseHit) && h2.value <= 21 ==>
              CanPlay(h2, deck2) && PlayerTurn(h, deck, choices, from) == PlayerTurn(h2, deck2, choices, next)
  {
    if decision != Some(ChooseHit) {
      PlayerTurnNoHit(h, deck, choices, from);
    } else if h2.value > 21 {
      PlayerHitBusts(h, deck, choices, from);
    } else {
      PlayerHitContinues(h, deck, choices, from);
    }
  }

  /** The dealer's loop: hit while the hand is below 17. */
  method DealerPlays(deck: Deck, hand: Hand)
    requires Consistent(hand.State()) && DeckWellFormed(deck.cards)
    requires |deck.cards| + |hand.cards| >= 17
    modifies deck, hand
    ensures DealerResult(hand.State(), deck.cards) == DealerTurn(old(hand.State()), old(deck.cards))
  {
    ghost var turn := DealerTurn(hand.State(), deck.cards);
    while hand.value < 17
      invariant Consistent(hand.State()) && DeckWellFormed(deck.cards)
      invariant |deck.cards| + |hand.cards| >= 17
      invariant DealerTurn(hand.State(), deck.cards) == turn
      decreases |deck.cards|
    {
      DealerHitStep(hand.State(), deck.cards);
      Hit(deck, hand);
    }
  }

  /** A new deck of the 52 cards, put in the order `arrangement` by the shuffle. */
  method ShuffledDeck(arrangement: seq<Card>) returns (deck: Deck)
    requires multiset(arrangement) == multiset(FullDeck())
    ensures fresh(deck) && deck.cards == arrangement
  {
    deck := new Deck();
    deck.NewDeck();
    deck.Shuffle(arrangement);
  }

  /** One opening deal, `hand.add_card(deck.deal())`: the deck's last card joins the hand, with no ace adjustment. */
  method DealTo(deck: Deck, hand: Hand)
    requires deck.cards != []
    modifies deck, hand
    ensures hand.State() == WithCard(old(hand.State()), old(deck.cards)[|old(deck.cards)| - 1])
    ensures deck.cards == old(deck.cards)[..|old(deck.cards)| - 1]
  {
    var card := deck.Deal();
    hand.AddCard(card);
  }

  /** Two deals from the end of the deck into `hand`, as each opening hand is given. */
  method DealTwo(deck: Deck, hand: Hand)
    requires |deck.cards| >= 2
    modifies deck, hand
    ensures hand.State() == WithCard(WithCard(old(hand.State()), old(deck.cards)[|old(deck.cards)| - 1]),
                                     old(deck.cards)[|old(deck.cards)| - 2])
    ensures deck.cards == old(deck.cards)[..|old(deck.cards)| - 2]
  {
    DealTo(deck, hand);
    DealTo(deck, hand);
  }

  /** A new hand given two cards from the end of the deck, as each opening hand is. */
  method DealHand(deck: Deck) returns (hand: Hand)
    requires |deck.cards| >= 2
    modifies deck
    ensures fresh(hand)
    ensures hand.State() == OpeningHand(old(deck.cards)[|old(deck.cards)| - 1],
                                        old(deck.cards)[|old(deck.cards)| - 2])
    ensures deck.cards == old(deck.cards)[..|old(deck.cards)| - 2]
  {
    hand := new Hand();
    DealTwo(deck, hand);
  }

  /** The opening deals: two cards to the player, then two to the dealer. */
  method DealOpening(deck: Deck) returns (player: Hand, dealer: Hand)
    requires |deck.cards| >= 4
    modifies deck
    ensures fresh(player) && fresh(dealer) && player != dealer
    ensures Table(player.State(), dealer.State(), deck.cards) == OpeningDeal(old(deck.cards))
  {
    ghost var cards := deck.cards;
    player := DealHand(deck);
    ghost var afterPlayer := deck.cards;
    dealer := DealHand(deck);
    OpeningDealFrom(cards, afterPlayer, player.State(), dealer.State(), deck.cards);
  }

  /** The table after two hands are dealt from the end of `cards`, one after the other. */
  lemma OpeningDealFrom(cards: seq<Card>, mid: seq<Card>, player: HandState, dealer: HandState,
                        rest: seq<Card>)
    requires |cards| >= 4 && mid == cards[..|cards| - 2]
    requires player == OpeningHand(cards[|cards| - 1], cards[|cards| - 2])
    requires dealer == OpeningHand(mid[|mid| - 1], mid[|mid| - 2]) && rest == mid[..|mid| - 2]
    ensures Table(player, dealer, rest) == OpeningDeal(cards)
  {
    var n := |cards|;
    assert rest == cards[..n - 4] by {
      assert |rest| == n - 4;
      forall i | 0 <= i < n - 4 ensures rest[i] == cards[i] { }
    }
    assert dealer == OpeningHand(cards[n - 3], cards[n - 4]) by {
      assert mid[|mid| - 1] == cards[n - 3] && mid[|mid| - 2] == cards[n - 4];
    }
  }

  /**
   * The dealer's loop and the four-way settlement, for a player who has not
   * busted: the dealer busting or scoring lower wins the bet, scoring higher
   * loses it, and a tie is a push.
   */
  method DealerRound(deck: Deck, player: Hand, dealer: Hand, chips: Chips)
      returns (r: Result<RoundReport, RoundError>)
    requires player != dealer
    requires Consistent(dealer.State()) && DeckWellFormed(deck.cards)
    requires |deck.cards| + |dealer.cards| >= 17
    requires chips.total == STARTING_CHIPS
    modifies deck, dealer, chips
    ensures r == DealerPhase(player.State(), old(dealer.State()), old(deck.cards), old(chips.bet))
  {
    ghost var d := DealerTurn(dealer.State(), deck.cards);
    DealerPlays(deck, dealer);
    assert dealer.State() == d.hand && deck.cards == d.deck;
    var outcome, ok := Showdown(player, dealer, chips);
    if !ok {
      return Err(ChipOverflow);
    }
    return Ok(RoundReport(player.State(), dealer.State(), deck.cards, chips.bet, outcome, chips.total));
  }

  /**
   * The four-way settlement after the dealer's loop, in the order the round
   * tests it: a dealer over 21, a higher dealer, a higher player, a push.
   */
  method Showdown(player: Hand, dealer: Hand, chips: Chips) returns (outcome: Outcome, ok: bool)
    requires IsI32(chips.total)
    modifies chips
    ensures outcome == Settle(player.value, dealer.value)
    ensures ok == IsI32(old(chips.total) + Delta(outcome, old(chips.bet)))
    ensures chips.total == if ok then old(chips.total) + Delta(outcome, old(chips.bet)) else old(chips.total)
    ensures chips.bet == old(chips.bet)
  {
    ok := true;
    if dealer.value > 21 {
      ok := DealerBusts(chips);
      outcome := DealerBust;
    } else if dealer.value > player.value {
      ok := DealerWins(chips);
      outcome := DealerHigher;
    } else if dealer.value < player.value {
      ok := PlayerWins(chips);
      outcome := PlayerHigher;
    } else {
      // push(): nothing changes hands
      outcome := Push;
    }
  }

  /**
   * The round once the cards are dealt and the bet is placed: the player's
   * loop, the loss of the bet on a bust, and otherwise the dealer's round.
   */
  method PlayHands(deck: Deck, player: Hand, dealer: Hand, chips: Chips, choices: seq<Choice>)
      returns (r: Result<RoundReport, RoundError>)
    requires player != dealer
    requires Ready(Table(player.State(), dealer.State(), deck.cards))
    requires chips.total == STARTING_CHIPS
    modifies deck, player, dealer, chips
    ensures r == PlayTable(old(Table(player.State(), dealer.State(), deck.cards)), old(chips.bet), choices)
  {
    ghost var table := Table(player.State(), dealer.State(), deck.cards);
    ghost var t := PlayerTurn(table.player, table.deck, choices, 0);
    PlayTableCases(table, chips.bet, choices);
    var end := PlayerPlays(deck, player, choices);
    assert player.State() == t.hand && deck.cards == t.deck && end == t.end;
    if end == OutOfChoices {
      return Err(ChoicesExhausted);
    }
    if end == Busted {
      var ok := PlayerBusts(chips);
      if !ok {
        return Err(ChipOverflow);
      }
    }
    if player.value <= 21 {
      r := DealerRound(deck, player, dealer, chips);
      return;
    }
    return Ok(RoundReport(player.State(), dealer.State(), deck.cards, chips.bet, PlayerBust, chips.total));
  }

  /**
   * One round: the opening deals, a fresh ledger of 100 chips and the bet,
   * then the player's and the dealer's play and the settlement. Every deal
   * happens on a non-empty deck.
   */
  method PlayRound(arrangement: seq<Card>, bets: seq<I32>, choices: seq<Choice>)
      returns (r: Result<RoundReport, RoundError>)
    requires multiset(arrangement) == multiset(FullDeck())
    ensures r == RoundSpec(arrangement, bets, choices)
  {
    ArrangementFacts(arrangement);
    OpeningReady(arrangement);
    var deck := ShuffledDeck(arrangement);
    var player, dealer := DealOpening(deck);

    // The chips are created afresh for every round, after the cards are dealt.
    var chips := new Chips(STARTING_CHIPS, 0);
    var accepted := TakeBet(chips, bets);
    if !accepted {
      return Err(NoAcceptableBet);
    }
    r := PlayHands(deck, player, dealer, chips, choices);
  }

  /** PlayTable unfolded by how the player's turn ends, as PlayHands follows it. */
  lemma PlayTableCases(table: Table, bet: int, choices: seq<Choice>)
    requires Ready(table)
    ensures var t := PlayerTurn(table.player, table.deck, choices, 0);
            && |t.deck| + |table.dealer.cards| >= 17
            && (t.end == OutOfChoices ==> PlayTable(table, bet, choices) == Err(ChoicesExhausted))
            && (t.end == Busted ==>
                  PlayTable(table, bet, choices) == Settlement(t.hand, table.dealer, t.deck, bet, PlayerBust))
            && (t.end == Stood ==>
                  t.hand.value <= 21 && PlayTable(table, bet, choices) == DealerPhase(t.hand, table.dealer, t.deck, bet))
  {
  }
}
