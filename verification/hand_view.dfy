/** What the table shows of each hand: the total next to the hand's title,
    and one card face per card, the dealer's second card face down while a
    round is in play. */
module HandView {
  import opened Cards
  import opened Scoring
  import opened Round

  /** The total shown beside a hand: a number, or "?" while it is secret. */
  datatype Shown = Secret | Total(value: int)

  /** One rendered card: its position (also its key), the card, and whether
      it is drawn face down. */
  datatype CardView = CardView(key: nat, card: Card, hidden: bool)

  /** The dealer's total is shown as "?" while the round is not over and the
      dealer holds more than one card; otherwise the given total is shown. */
  function DisplayValue(handValue: int, cardCount: nat, isDealer: bool, gameOver: bool): (shown: Shown)
    ensures shown == Secret <==> isDealer && !gameOver && cardCount > 1
    ensures !isDealer || gameOver ==> shown == Total(handValue)
    ensures shown.Total? ==> shown.value == handValue
  {
    if isDealer && !gameOver && cardCount > 1 then Secret else Total(handValue)
  }

  /** The face-down rule for the card at `index`. */
  function IsHidden(isDealer: bool, index: int, gameOver: bool): bool {
    isDealer && index == 1 && !gameOver
  }

  /** Every card of the hand, in order, one view each. */
  function RenderCards(cards: seq<Card>, isDealer: bool, gameOver: bool): (views: seq<CardView>)
    ensures |views| == |cards|
    ensures forall i :: 0 <= i < |views| ==> views[i].key == i && views[i].card == cards[i]
    ensures forall i :: 0 <= i < |views| ==> views[i].hidden == IsHidden(isDealer, i, gameOver)
  {
    seq(|cards|, i requires 0 <= i < |cards| => CardView(i, cards[i], IsHidden(isDealer, i, gameOver)))
  }

  /** The rendered cards give back exactly the hand. */
  lemma RenderKeepsCards(cards: seq<Card>, isDealer: bool, gameOver: bool)
    ensures var views := RenderCards(cards, isDealer, gameOver);
            seq(|views|, i requires 0 <= i < |views| => views[i].card) == cards
  {
  }

  /** At most one card is ever face down, and only the second; a player's
      hand, or any hand once the round is over, shows every card. */
  lemma AtMostOneHidden(cards: seq<Card>, isDealer: bool, gameOver: bool, i: int, j: int)
    requires 0 <= i < |cards| && 0 <= j < |cards|
    requires RenderCards(cards, isDealer, gameOver)[i].hidden
    requires RenderCards(cards, isDealer, gameOver)[j].hidden
    ensures i == j == 1 && isDealer && !gameOver
  {
  }

  /** The table: the dealer's hand with its secret total, the player's hand.
      The game passes the dealer's score only once the round is over, and 0
      before. */
  datatype TableView = TableView(dealerShown: Shown, dealerCards: seq<CardView>,
                                 playerShown: Shown, playerCards: seq<CardView>)

  function ViewOf(g: Game): TableView {
    var playerValue := HandValue(g.playerHand);
    var dealerValue := if g.gameOver then HandValue(g.dealerHand) else 0;
    TableView(DisplayValue(dealerValue, |g.dealerHand|, true, g.gameOver),
              RenderCards(g.dealerHand, true, g.gameOver),
              DisplayValue(playerValue, |g.playerHand|, false, false),
              RenderCards(g.playerHand, false, false))
  }

  /** While a round is in play the dealer's total is "?" and exactly the
      second of the dealer's two cards is face down. Once the round is over
      the dealer's true total and every card are shown. The player's total
      and cards are always shown, and no dealer score other than 0 is shown
      before the round is over. */
  lemma TableHidesOnlyTheHoleCard(g: Game)
    requires Consistent(g)
    ensures var v := ViewOf(g);
      && (!g.isBetting && !g.gameOver ==>
            && v.dealerShown == Secret
            && |v.dealerCards| == 2 && v.dealerCards[1].hidden && !v.dealerCards[0].hidden)
      && (g.gameOver ==>
            v.dealerShown == Total(HandValue(g.dealerHand))
            && forall i :: 0 <= i < |v.dealerCards| ==> !v.dealerCards[i].hidden)
      && (!g.gameOver ==> v.dealerShown in {Secret, Total(0)})
      && v.playerShown == Total(HandValue(g.playerHand))
      && (forall i :: 0 <= i < |v.playerCards| ==> !v.playerCards[i].hidden)
  {
  }
}
