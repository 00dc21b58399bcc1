/** One round of Blackjack as the game plays it: a fixed bet of 10 chips, two
    cards each from an endless supply of random draws (with replacement), a
    check for a player natural, the player's hits, and the dealer's
    stand-on-17 play with the settlement that follows.

    The game keeps its state in separate UI flags; here it is one record, and
    every action is a function from the old record to the new one. Each
    random draw is an explicit table position. */
module Round {
  import opened Cards
  import opened Scoring

  const StartingChips := 500
  const DefaultBet := 10

  /** The dealer draws while below this score, soft or hard. */
  const DealerStandsAt := 17

  datatype ResultKind = NoResult | ErrorResult | PlayerWin | DealerWin | Push

  datatype GameResult = GameResult(kind: ResultKind, message: string)

  const NoMessage := GameResult(NoResult, "")
  const NotEnoughChips := GameResult(ErrorResult, "Not enough chips to bet! Please buy more chips.")
  const BothBlackjack := GameResult(Push, "Both have Blackjack! Push (bet returned).")
  const PlayerBlackjack := GameResult(PlayerWin, "Blackjack! Player wins!")
  const PlayerBusts := GameResult(DealerWin, "Player busts! Dealer wins.")
  const DealerBusts := GameResult(PlayerWin, "Dealer busts! Player wins!")
  const DealerWins := GameResult(DealerWin, "Dealer wins!")
  const PlayerWins := GameResult(PlayerWin, "Player wins!")
  const Tie := GameResult(Push, "Push! It's a tie.")

  datatype Game = Game(
    chips: int,
    currentBet: int,
    playerHand: Hand,
    dealerHand: Hand,
    gameOver: bool,
    result: GameResult,
    isBetting: bool)

  const NewGame := Game(StartingChips, 0, [], [], false, NoMessage, true)

  /** The four random draws of a deal, in the order the game makes them. */
  datatype Deal = Deal(player1: DeckIndex, player2: DeckIndex, dealer1: DeckIndex, dealer2: DeckIndex)

  /** An endless source of random draws: the n-th draw of the dealer's turn. */
  type Draws = nat -> DeckIndex

  /** Chips on the table plus chips at stake. */
  function Wealth(g: Game): int {
    g.chips + g.currentBet
  }

  /** What a result means for the player's wealth, against the stake `bet`:
      a win gains it, a push keeps it, anything else forfeits it. */
  function NetGain(kind: ResultKind, bet: int): int {
    if kind == PlayerWin then bet else if kind == Push then 0 else -bet
  }

  /** The chips credited when a round ends: twice the bet for a player win
      (a natural included), the bet back for a push, nothing otherwise. */
  function Payout(kind: ResultKind, bet: int): int {
    if kind == PlayerWin then bet * 2 else if kind == Push then bet else 0
  }

  /** Settlement: credit the payout on `bet`, clear the stake, record the
      result and end the round. The hands are left as they are. */
  function HandleGameOver(g: Game, r: GameResult, bet: int): (g': Game)
    ensures g'.gameOver && !g'.isBetting && g'.currentBet == 0 && g'.result == r
    ensures g'.playerHand == g.playerHand && g'.dealerHand == g.dealerHand
    ensures r.kind == PlayerWin ==> g'.chips == g.chips + 2 * bet
    ensures r.kind == Push ==> g'.chips == g.chips + bet
    ensures r.kind !in {PlayerWin, Push} ==> g'.chips == g.chips
    ensures bet == g.currentBet ==> Wealth(g') == Wealth(g) + NetGain(r.kind, bet)
  {
    g.(chips := g.chips + Payout(r.kind, bet), currentBet := 0, result := r,
       gameOver := true, isBetting := false)
  }

  /** Place the bet and deal. `naturalBet` is the stake a player natural is
      settled on; see `StartHand` and `StartHandAsWritten`. */
  function DealRound(g: Game, deal: Deal, naturalBet: int): Game {
    if g.chips < DefaultBet then g.(result := NotEnoughChips)
    else
      var player := [DrawCard(deal.player1), DrawCard(deal.player2)];
      var dealer := [DrawCard(deal.dealer1), DrawCard(deal.dealer2)];
      var dealt := g.(chips := g.chips - DefaultBet, currentBet := DefaultBet, isBetting := false,
                      playerHand := player, dealerHand := dealer, gameOver := false,
                      result := NoMessage);
      if HandValue(player) != Limit then dealt
      else if HandValue(dealer) == Limit then HandleGameOver(dealt, BothBlackjack, naturalBet)
      else HandleGameOver(dealt, PlayerBlackjack, naturalBet)
  }

  /** Place the 10-chip bet and deal, settling a player natural on that bet.
      With fewer than 10 chips only the error result changes. Otherwise 10
      chips are staked, each side gets two cards, and the round ends at once
      exactly when the player's two cards make 21: a push if the dealer's
      two also make 21, a player win (paid like any win) if not. A dealer
      natural alone does not end the round. */
  function StartHand(g: Game, deal: Deal): (g': Game)
    ensures g.chips < DefaultBet ==> g' == g.(result := NotEnoughChips)
    ensures g.chips >= DefaultBet ==>
      && g'.playerHand == [DrawCard(deal.player1), DrawCard(deal.player2)]
      && g'.dealerHand == [DrawCard(deal.dealer1), DrawCard(deal.dealer2)]
      && !g'.isBetting
      && (g'.gameOver <==> HandValue(g'.playerHand) == Limit)
      && (!g'.gameOver ==>
            g'.chips == g.chips - DefaultBet && g'.currentBet == DefaultBet && g'.result == NoMessage)
      && (g'.gameOver && HandValue(g'.dealerHand) == Limit ==>
            g'.result == BothBlackjack && g'.chips == g.chips && g'.currentBet == 0)
      && (g'.gameOver && HandValue(g'.dealerHand) != Limit ==>
            g'.result == PlayerBlackjack && g'.chips == g.chips + DefaultBet && g'.currentBet == 0)
    ensures g.chips >= 0 ==> g'.chips >= 0
  {
    DealRound(g, deal, DefaultBet)
  }

  /** The deal as the game's code runs it: everything as in `StartHand`,
      except that a natural is settled on the stake read before the bet was
      placed, `g.currentBet`, not on the 10 chips just staked. From any
      betting state that stake is 0, so the natural pays nothing back (see
      `NaturalAsWrittenForfeitsBet`). */
  function StartHandAsWritten(g: Game, deal: Deal): (g': Game)
    ensures g.chips < DefaultBet ==> g' == g.(result := NotEnoughChips)
    ensures g.chips >= DefaultBet ==>
      && g'.playerHand == [DrawCard(deal.player1), DrawCard(deal.player2)]
      && g'.dealerHand == [DrawCard(deal.dealer1), DrawCard(deal.dealer2)]
      && !g'.isBetting
      && (g'.gameOver <==> HandValue(g'.playerHand) == Limit)
      && (!g'.gameOver ==>
            g'.chips == g.chips - DefaultBet && g'.currentBet == DefaultBet && g'.result == NoMessage)
      && (g'.gameOver && HandValue(g'.dealerHand) == Limit ==>
            g'.result == BothBlackjack && g'.chips == g.chips - DefaultBet + g.currentBet
            && g'.currentBet == 0)
      && (g'.gameOver && HandValue(g'.dealerHand) != Limit ==>
            g'.result == PlayerBlackjack && g'.chips == g.chips - DefaultBet + 2 * g.currentBet
            && g'.currentBet == 0)
  {
    DealRound(g, deal, g.currentBet)
  }

  /** Hit: ignored once the round is over or while betting. Otherwise one
      drawn card is appended to the player's hand, and when that takes the
      player over 21 the round ends as a dealer win with the stake lost; the
      dealer's hand and the chips are never touched. */
  function Hit(g: Game, draw: DeckIndex): (g': Game)
    ensures g.gameOver || g.isBetting ==> g' == g
    ensures !g.gameOver && !g.isBetting ==>
      && g'.playerHand == g.playerHand + [DrawCard(draw)]
      && g'.dealerHand == g.dealerHand
      && g'.chips == g.chips
      && (g'.gameOver <==> HandValue(g'.playerHand) > Limit)
      && (g'.gameOver ==> g'.result == PlayerBusts && g'.currentBet == 0 && !g'.isBetting)
      && (!g'.gameOver ==> g' == g.(playerHand := g'.playerHand))
  {
    if g.gameOver || g.isBetting then g
    else
      var hand := g.playerHand + [DrawCard(draw)];
      var next := g.(playerHand := hand);
      if HandValue(hand) > Limit then HandleGameOver(next, PlayerBusts, g.currentBet) else next
  }

  /** The dealer's loop from the `n`-th draw on: draw while the score is
      below 17. It ends because every card raises the hard total (Aces as 1)
      by at least 1 and the score is never below the hard total. The result
      scores 17 or more and keeps the cards it started from. */
  function DealerDraws(hand: Hand, draws: Draws, n: nat): (final: Hand)
    ensures HandValue(final) >= DealerStandsAt
    decreases DealerStandsAt - HardTotal(hand)
  {
    if HandValue(hand) >= DealerStandsAt then hand
    else
      var c := DrawCard(draws(n));
      DrawRaisesHardTotal(hand, c);
      DealerDraws(hand + [c], draws, n + 1)
  }

  /** One turn of the dealer's loop below 17: draw the `n`-th card, go on. */
  lemma DealerStep(hand: Hand, draws: Draws, n: nat)
    requires HandValue(hand) < DealerStandsAt
    ensures HardTotal(hand) < DealerStandsAt
    ensures HardTotal(hand + [DrawCard(draws(n))]) > HardTotal(hand)
    ensures DealerDraws(hand, draws, n) == DealerDraws(hand + [DrawCard(draws(n))], draws, n + 1)
  {
    DrawRaisesHardTotal(hand, DrawCard(draws(n)));
  }

  /** The dealer keeps the cards it started with. */
  lemma {:induction false} DealerKeepsHand(hand: Hand, draws: Draws, n: nat)
    ensures hand <= DealerDraws(hand, draws, n)
    decreases DealerStandsAt - HardTotal(hand)
  {
    if HandValue(hand) < DealerStandsAt {
      var c := DrawCard(draws(n));
      DealerStep(hand, draws, n);
      DealerKeepsHand(hand + [c], draws, n + 1);
    }
  }

  /** The dealer's new cards are the draws from the `n`-th on, in order. */
  lemma {:induction false} DealerDrawsInOrder(hand: Hand, draws: Draws, n: nat, j: nat)
    requires |hand| <= j < |DealerDraws(hand, draws, n)|
    ensures DealerDraws(hand, draws, n)[j] == DrawCard(draws(n + j - |hand|))
    decreases DealerStandsAt - HardTotal(hand)
  {
    var c := DrawCard(draws(n));
    DealerStep(hand, draws, n);
    var final := DealerDraws(hand + [c], draws, n + 1);
    if j == |hand| {
      DealerKeepsHand(hand + [c], draws, n + 1);
      assert final[j] == (hand + [c])[j];
    } else {
      DealerDrawsInOrder(hand + [c], draws, n + 1, j);
    }
  }

  /** The dealer stops at the first 17: every hand the loop passed through on
      the way to its result scored below 17. */
  lemma {:induction false} DealerStopsAtFirstSeventeen(hand: Hand, draws: Draws, n: nat)
    ensures var final := DealerDraws(hand, draws, n);
            forall j :: |hand| <= j < |final| ==> HandValue(final[..j]) < DealerStandsAt
    decreases DealerStandsAt - HardTotal(hand)
  {
    if HandValue(hand) < DealerStandsAt {
      var c := DrawCard(draws(n));
      DealerStep(hand, draws, n);
      DealerStopsAtFirstSeventeen(hand + [c], draws, n + 1);
      DealerKeepsHand(hand + [c], draws, n + 1);
      var final := DealerDraws(hand + [c], draws, n + 1);
      assert final[..|hand|] == hand by {
        assert (hand + [c])[..|hand|] == hand;
      }
    }
  }

  /** The termination measure of the dealer's loop: below 17 the hard total is
      below 17 too, and each card raises it. */
  lemma DrawRaisesHardTotal(hand: Hand, c: Card)
    requires HandValue(hand) < DealerStandsAt
    ensures HardTotal(hand) < DealerStandsAt
    ensures HardTotal(hand + [c]) > HardTotal(hand)
  {
    HandValueBounds(hand);
    AppendCard(hand, c);
  }

  /** The dealer's turn from the first draw. */
  function DealerPlay(hand: Hand, draws: Draws): Hand {
    DealerDraws(hand, draws, 0)
  }

  /** The comparison after the dealer's turn, first match wins: dealer over
      21, the dealer ahead, the player ahead, else a tie. */
  function StandOutcome(playerValue: int, dealerValue: int): (r: GameResult)
    ensures r.kind == PlayerWin <==> dealerValue > Limit || playerValue > dealerValue
    ensures r.kind == DealerWin <==> dealerValue <= Limit && dealerValue > playerValue
    ensures r.kind == Push <==> dealerValue <= Limit && dealerValue == playerValue
  {
    if dealerValue > Limit then DealerBusts
    else if dealerValue > playerValue then DealerWins
    else if playerValue > dealerValue then PlayerWins
    else Tie
  }

  /** Stand: ignored once the round is over or while betting. Otherwise the
      dealer plays out the hand and the round is settled on the comparison
      of the two scores; the player's hand is untouched. */
  function Stand(g: Game, draws: Draws): (g': Game)
    ensures g.gameOver || g.isBetting ==> g' == g
    ensures !g.gameOver && !g.isBetting ==>
      && g'.gameOver && !g'.isBetting && g'.currentBet == 0
      && g'.playerHand == g.playerHand
      && g'.dealerHand == DealerPlay(g.dealerHand, draws)
      && g.dealerHand <= g'.dealerHand
      && HandValue(g'.dealerHand) >= DealerStandsAt
      && g'.result == StandOutcome(HandValue(g.playerHand), HandValue(g'.dealerHand))
      && Wealth(g') == Wealth(g) + NetGain(g'.result.kind, g.currentBet)
  {
    if g.gameOver || g.isBetting then g
    else
      var final := DealerPlay(g.dealerHand, draws);
      DealerKeepsHand(g.dealerHand, draws, 0);
      var outcome := StandOutcome(HandValue(g.playerHand), HandValue(final));
      HandleGameOver(g.(gameOver := true, dealerHand := final), outcome, g.currentBet)
  }

  /** New game: back to betting with empty hands and no stake; the chips stay. */
  function ResetGame(g: Game): (g': Game)
    ensures g'.chips == g.chips && Wealth(g') == g.chips
    ensures g'.isBetting && !g'.gameOver && g'.result == NoMessage
    ensures g'.playerHand == [] && g'.dealerHand == []
  {
    g.(playerHand := [], dealerHand := [], gameOver := false, result := NoMessage,
       isBetting := true, currentBet := 0)
  }

  /** The states the game can reach. While betting nothing is on the table;
      while a round is in play the stake is 10, the dealer holds two cards and
      the player at least two, scoring at most 21; once over, nothing is at
      stake. Chips are never negative. */
  predicate Consistent(g: Game) {
    && g.chips >= 0
    && !(g.isBetting && g.gameOver)
    && (g.isBetting ==> g.currentBet == 0 && g.playerHand == [] && g.dealerHand == [])
    && (!g.isBetting && !g.gameOver ==>
          && g.currentBet == DefaultBet
          && |g.playerHand| >= 2 && |g.dealerHand| == 2
          && HandValue(g.playerHand) <= Limit)
    && (g.gameOver ==> g.currentBet == 0)
  }

  lemma NewGameConsistent()
    ensures Consistent(NewGame)
  {
  }

  /** Two cards never score over 21. */
  lemma TwoCardsNeverBust(a: Card, b: Card)
    ensures HandValue([a, b]) <= Limit
  {
    AppendCard([], a);
    AppendCard([a], b);
    assert [a] + [b] == [a, b];
    HandValueBounds([a, b]);
    if AceCount([a, b]) > 0 {
      HandValueIsBest([a, b], AceCount([a, b]));
    }
  }

  lemma StartHandConsistent(g: Game, deal: Deal)
    requires Consistent(g)
    ensures Consistent(StartHand(g, deal))
  {
    TwoCardsNeverBust(DrawCard(deal.player1), DrawCard(deal.player2));
  }

  /** The deal as the code runs it keeps the invariant too: the stale stake
      it settles a natural on is the betting state's stake, 0, so the chips
      stay non-negative. */
  lemma StartHandAsWrittenConsistent(g: Game, deal: Deal)
    requires Consistent(g)
    ensures Consistent(StartHandAsWritten(g, deal))
  {
    TwoCardsNeverBust(DrawCard(deal.player1), DrawCard(deal.player2));
  }

  lemma HitConsistent(g: Game, draw: DeckIndex)
    requires Consistent(g)
    ensures Consistent(Hit(g, draw))
  {
  }

  lemma StandConsistent(g: Game, draws: Draws)
    requires Consistent(g)
    ensures Consistent(Stand(g, draws))
  {
  }

  lemma ResetConsistent(g: Game)
    requires Consistent(g)
    ensures Consistent(ResetGame(g))
  {
  }

  /** Across a whole round the player's wealth moves by exactly the net gain
      of the result on the 10-chip stake: +10 for a win, 0 for a push, -10
      for a loss; a hand still in play has only moved chips to the stake. */
  lemma RoundNetGain(g: Game, deal: Deal)
    requires Consistent(g) && g.isBetting && g.chips >= DefaultBet
    ensures var g' := StartHand(g, deal);
            && (g'.gameOver ==> Wealth(g') == Wealth(g) + NetGain(g'.result.kind, DefaultBet))
            && (!g'.gameOver ==> Wealth(g') == Wealth(g) && g'.currentBet == DefaultBet)
  {
  }

  /** The stand-on-17 rule: a dealer hand already at 17 or more draws nothing,
      a soft 17 (Ace and Six) included. */
  lemma DealerStandsOnSeventeen(hand: Hand, draws: Draws)
    requires HandValue(hand) >= DealerStandsAt
    ensures DealerPlay(hand, draws) == hand
  {
  }

  lemma SoftSeventeenStands(s1: Suit, s2: Suit, draws: Draws)
    ensures var soft17 := [Card(s1, Ace), Card(s2, Six)];
            HandValue(soft17) == 17 && AceCount(soft17) == 1
            && DealerPlay(soft17, draws) == soft17
  {
    var a, six := Card(s1, Ace), Card(s2, Six);
    AppendCard([], a);
    AppendCard([a], six);
    assert [a] + [six] == [a, six];
  }

  /** The deal `NaturalWinExample` uses: the player gets the ace and king of
      spades, the dealer the two and three of spades. */
  const NaturalDeal := Deal(12, 11, 0, 1)

  lemma NaturalDealCards()
    ensures [DrawCard(NaturalDeal.player1), DrawCard(NaturalDeal.player2)]
            == [Card(Spades, Ace), Card(Spades, King)]
    ensures HandValue([Card(Spades, Ace), Card(Spades, King)]) == Limit
    ensures HandValue([DrawCard(NaturalDeal.dealer1), DrawCard(NaturalDeal.dealer2)]) != Limit
  {
    NaturalDealPlayer();
    NaturalDealDealer();
  }

  lemma NaturalDealPlayer()
    ensures DrawCard(12) == Card(Spades, Ace) && DrawCard(11) == Card(Spades, King)
    ensures HandValue([Card(Spades, Ace), Card(Spades, King)]) == Limit
  {
    CrossProductAt(Suits, Ranks, 0, 12);
    CrossProductAt(Suits, Ranks, 0, 11);
    var a, k := Card(Spades, Ace), Card(Spades, King);
    AppendCard([], a);
    AppendCard([a], k);
    assert [a] + [k] == [a, k];
  }

  lemma NaturalDealDealer()
    ensures DrawCard(0) == Card(Spades, Two) && DrawCard(1) == Card(Spades, Three)
    ensures HandValue([Card(Spades, Two), Card(Spades, Three)]) == 5
  {
    CrossProductAt(Suits, Ranks, 0, 0);
    CrossProductAt(Suits, Ranks, 0, 1);
    var two, three := Card(Spades, Two), Card(Spades, Three);
    AppendCard([], two);
    AppendCard([two], three);
    assert [two] + [three] == [two, three];
  }

  /** As written, a natural is settled on the stake read before the bet was
      placed, which in any betting state is 0: the 10 chips just staked are
      not returned, so a natural win leaves the player 10 chips down and a
      double natural too. */
  lemma NaturalAsWrittenForfeitsBet(g: Game, deal: Deal)
    requires Consistent(g) && g.isBetting && g.chips >= DefaultBet
    requires HandValue([DrawCard(deal.player1), DrawCard(deal.player2)]) == Limit
    ensures var g' := StartHandAsWritten(g, deal);
            g'.gameOver && g'.result.kind in {PlayerWin, Push} && g'.chips == g.chips - DefaultBet
  {
  }

  /** From a new game the deal `NaturalDeal` shows it: the as-written deal ends
      with a player win and 490 chips, the corrected one with 510. */
  lemma NaturalWinExample()
    ensures StartHandAsWritten(NewGame, NaturalDeal).result == PlayerBlackjack
    ensures StartHandAsWritten(NewGame, NaturalDeal).chips == StartingChips - DefaultBet
    ensures StartHand(NewGame, NaturalDeal).result == PlayerBlackjack
    ensures StartHand(NewGame, NaturalDeal).chips == StartingChips + DefaultBet
  {
    NaturalDealCards();
  }
}
