/** Hand scoring: every Ace first counts 11 and J, Q, K count 10; then, while
    the total is over 21 and an Ace still counts 11, one Ace at a time drops
    to 1. */
module Scoring {
  import opened Numbers
  import opened Cards

  type Hand = seq<Card>

  /** The total a hand must not exceed. */
  const Limit := 21

  predicate IsFaceLabel(tag: string) {
    tag == "J" || tag == "Q" || tag == "K"
  }

  /** What one card adds to the running total before any Ace is demoted:
      the conventional value of its rank, Ace high and J, Q, K as 10. The
      game decides this on the rank's label (see `AddCard`, which is shown
      to agree). */
  function CardPoints(c: Card): nat {
    match c.rank
    case Two => 2
    case Three => 3
    case Four => 4
    case Five => 5
    case Six => 6
    case Seven => 7
    case Eight => 8
    case Nine => 9
    case Ten => 10
    case Jack => 10
    case Queen => 10
    case King => 10
    case Ace => 11
  }

  /** A numeral's label reads, through `parseInt`, as its own number. */
  lemma NumeralLabel(c: Card)
    requires !IsFaceLabel(Label(c.rank)) && Label(c.rank) != "A"
    ensures ParseInt(Label(c.rank)) == Some(CardPoints(c))
    ensures 2 <= CardPoints(c) <= 10
  {
    var n := CardPoints(c);
    assert Label(c.rank) == DecimalString(n) by {
      if c.rank == Ten {
        assert DecimalString(10) == DecimalString(1) + [DigitChar(0)];
      } else {
        assert n < 10 && DecimalString(n) == [DigitChar(n)];
      }
    }
    ParseDecimal(n);
  }

  /** The three branches the game scores a card by, one per kind of label,
      cover every rank and give each its value: J, Q and K are exactly the
      labels worth 10 apart from "10", only the Ace has label "A", and every
      other label reads back through `parseInt` as its own number. */
  lemma LabelBranches(c: Card)
    ensures IsFaceLabel(Label(c.rank)) <==> c.rank in {Jack, Queen, King}
    ensures IsFaceLabel(Label(c.rank)) ==> CardPoints(c) == 10
    ensures Label(c.rank) == "A" <==> c.rank == Ace
    ensures Label(c.rank) == "A" ==> CardPoints(c) == 11
    ensures !IsFaceLabel(Label(c.rank)) && Label(c.rank) != "A" ==>
              ParseInt(Label(c.rank)) == Some(CardPoints(c)) && 2 <= CardPoints(c) <= 10
  {
    if !IsFaceLabel(Label(c.rank)) && Label(c.rank) != "A" {
      NumeralLabel(c);
    }
  }

  /** What a card is worth when an Ace counts 1. */
  function HardPoints(c: Card): int {
    if c.rank == Ace then 1 else CardPoints(c)
  }

  /** The running total of the scoring loop: every Ace counted as 11. */
  function SoftTotal(h: Hand): int {
    if |h| == 0 then 0 else SoftTotal(h[..|h| - 1]) + CardPoints(h[|h| - 1])
  }

  /** The number of Aces in the hand. */
  function AceCount(h: Hand): nat {
    if |h| == 0 then 0 else AceCount(h[..|h| - 1]) + (if h[|h| - 1].rank == Ace then 1 else 0)
  }

  /** The total with every Ace counted as 1. */
  function HardTotal(h: Hand): int {
    if |h| == 0 then 0 else HardTotal(h[..|h| - 1]) + HardPoints(h[|h| - 1])
  }

  /** The demotion loop: subtract 10 per Ace while the total is over 21. */
  function Demote(total: int, aces: nat): int
    decreases aces
  {
    if total > Limit && aces > 0 then Demote(total - 10, aces - 1) else total
  }

  /** The score of a hand. */
  function HandValue(h: Hand): int {
    Demote(SoftTotal(h), AceCount(h))
  }

  /** `m` demoted Aces is the fewest that brings `total` to 21 or less, or
      all `aces` of them when even that is not enough. */
  predicate IsLeastDemotion(total: int, aces: nat, m: nat) {
    && m <= aces
    && (total - 10 * m <= Limit || m == aces)
    && (m == 0 || total - 10 * (m - 1) > Limit)
  }

  /** The least demotion count, in closed form. */
  function LeastDemotions(total: int, aces: nat): (m: nat)
    ensures IsLeastDemotion(total, aces, m)
  {
    if total <= Limit then 0
    else if aces <= (total - 12) / 10 then aces
    else (total - 12) / 10
  }

  /** At most one demotion count is the least. */
  lemma LeastDemotionUnique(total: int, aces: nat, m1: nat, m2: nat)
    requires IsLeastDemotion(total, aces, m1) && IsLeastDemotion(total, aces, m2)
    ensures m1 == m2
  {
  }

  lemma {:induction false} DemoteIsLeast(total: int, aces: nat)
    ensures Demote(total, aces) == total - 10 * LeastDemotions(total, aces)
    decreases aces
  {
    if total > Limit && aces > 0 {
      DemoteIsLeast(total - 10, aces - 1);
      var m := LeastDemotions(total - 10, aces - 1);
      LeastDemotionUnique(total, aces, m + 1, LeastDemotions(total, aces));
    }
  }

  lemma {:induction false} SoftIsHardPlusAces(h: Hand)
    ensures SoftTotal(h) == HardTotal(h) + 10 * AceCount(h)
  {
    if |h| > 0 {
      SoftIsHardPlusAces(h[..|h| - 1]);
    }
  }

  /** The score is the all-Aces-11 total less 10 for each of the fewest Ace
      demotions that bring it to 21 or less (all of them if none does). */
  lemma HandValueDemotions(h: Hand)
    ensures HandValue(h) == SoftTotal(h) - 10 * LeastDemotions(SoftTotal(h), AceCount(h))
    ensures IsLeastDemotion(SoftTotal(h), AceCount(h), LeastDemotions(SoftTotal(h), AceCount(h)))
  {
    DemoteIsLeast(SoftTotal(h), AceCount(h));
  }

  /** The score lies between the hard and the soft total; it is over 21 only
      when every Ace already counts 1, so a hand busts exactly when its hard
      total is over 21. An empty hand scores 0 and a hand without Aces scores
      the plain sum of its cards. */
  lemma HandValueBounds(h: Hand)
    ensures HardTotal(h) <= HandValue(h) <= SoftTotal(h)
    ensures HandValue(h) > Limit ==> HandValue(h) == HardTotal(h)
    ensures HandValue(h) > Limit <==> HardTotal(h) > Limit
    ensures |h| == 0 ==> HandValue(h) == 0
    ensures AceCount(h) == 0 ==> HandValue(h) == SoftTotal(h) == HardTotal(h)
  {
    HandValueDemotions(h);
    SoftIsHardPlusAces(h);
  }

  /** The score is the best Blackjack total: no choice of Aces counted 1 gives
      a larger total that is still 21 or less. */
  lemma HandValueIsBest(h: Hand, k: nat)
    requires k <= AceCount(h) && SoftTotal(h) - 10 * k <= Limit
    ensures SoftTotal(h) - 10 * k <= HandValue(h) <= Limit
  {
    HandValueDemotions(h);
    var t, m := SoftTotal(h), LeastDemotions(SoftTotal(h), AceCount(h));
    assert m <= k;
  }

  /** Appending a card adds its points to each running total. */
  lemma AppendCard(h: Hand, c: Card)
    ensures SoftTotal(h + [c]) == SoftTotal(h) + CardPoints(c)
    ensures HardTotal(h + [c]) == HardTotal(h) + HardPoints(c)
    ensures AceCount(h + [c]) == AceCount(h) + (if c.rank == Ace then 1 else 0)
  {
    assert (h + [c])[..|h|] == h;
  }

  /** Every card scores between 2 and 11 on its own: 11 for an Ace, 10 for
      ten-valued cards, its numeral otherwise. */
  lemma SingleCardValue(c: Card)
    ensures 2 <= HandValue([c]) <= 11
    ensures HandValue([c]) == 11 <==> c.rank == Ace
    ensures HandValue([c]) == 10 <==> c.rank in {Ten, Jack, Queen, King}
  {
    AppendCard([], c);
  }

  /** One step of the summing pass: the card's points are added to `value`,
      and an Ace also bumps the Ace count. */
  method AddCard(value: int, aceCount: nat, card: Card) returns (value': int, aceCount': nat)
    ensures value' == value + CardPoints(card)
    ensures aceCount' == aceCount + (if card.rank == Ace then 1 else 0)
  {
    var tag := Label(card.rank);
    LabelBranches(card);
    value', aceCount' := value, aceCount;
    if IsFaceLabel(tag) {
      value' := value' + 10;
    } else if tag == "A" {
      aceCount' := aceCount' + 1;
      value' := value' + 11;
    } else {
      value' := value' + ParseInt(tag).value;
    }
  }

  /** The summing pass: every card's points, Aces as 11, and the Ace count. */
  method SumCards(hand: Hand) returns (value: int, aceCount: nat)
    ensures value == SoftTotal(hand) && aceCount == AceCount(hand)
    ensures value == HardTotal(hand) + 10 * aceCount
  {
    value, aceCount := 0, 0;
    var i := 0;
    while i < |hand|
      invariant 0 <= i <= |hand|
      invariant value == SoftTotal(hand[..i])
      invariant aceCount == AceCount(hand[..i])
    {
      AppendCard(hand[..i], hand[i]);
      assert hand[..i + 1] == hand[..i] + [hand[i]];
      value, aceCount := AddCard(value, aceCount, hand[i]);
      i := i + 1;
    }
    assert hand[..i] == hand;
    SoftIsHardPlusAces(hand);
  }

  /** The demotion pass: 10 off per Ace while the total is over 21. */
  method DemoteAces(total: int, aces: nat) returns (value: int)
    ensures value == total - 10 * LeastDemotions(total, aces)
  {
    value := total;
    var aceCount := aces;
    DemoteIsLeast(total, aces);
    while value > Limit && aceCount > 0
      invariant Demote(value, aceCount) == Demote(total, aces)
      decreases aceCount
    {
      value := value - 10;
      aceCount := aceCount - 1;
    }
  }

  /** The scoring routine, written as it runs: the summing pass, then the
      demotion pass. */
  method CalculateHandValue(hand: Hand) returns (value: int)
    ensures value == HandValue(hand)
  {
    var total, aceCount := SumCards(hand);
    value := DemoteAces(total, aceCount);
    DemoteIsLeast(total, aceCount);
  }
}
