/** The card table the game draws from: every rank of every suit, built as the
    cross product of a suit list and a rank list, suit-major. */
module Cards {

  datatype Suit = Spades | Hearts | Diamonds | Clubs

  datatype Rank = Two | Three | Four | Five | Six | Seven | Eight | Nine | Ten
                | Jack | Queen | King | Ace

  datatype Card = Card(suit: Suit, rank: Rank)

  /** The text a rank carries in the card table; scoring inspects this text. */
  function Label(r: Rank): string {
    match r
    case Two => "2"
    case Three => "3"
    case Four => "4"
    case Five => "5"
    case Six => "6"
    case Seven => "7"
    case Eight => "8"
    case Nine => "9"
    case Ten => "10"
    case Jack => "J"
    case Queen => "Q"
    case King => "K"
    case Ace => "A"
  }

  /** The suit list, in table order (spades, hearts, diamonds, clubs). */
  const Suits: seq<Suit> := [Spades, Hearts, Diamonds, Clubs]

  /** The rank list, in table order: numerals 2 to 10, then J, Q, K, A. */
  const Ranks: seq<Rank> := [Two, Three, Four, Five, Six, Seven, Eight, Nine, Ten,
                             Jack, Queen, King, Ace]

  predicate Distinct<T(==)>(s: seq<T>) {
    forall p, q :: 0 <= p < q < |s| ==> s[p] != s[q]
  }

  /** One suit paired with every rank, in rank order. */
  function Row(s: Suit, ranks: seq<Rank>): (row: seq<Card>)
    ensures |row| == |ranks|
    ensures forall j :: 0 <= j < |ranks| ==> row[j] == Card(s, ranks[j])
  {
    seq(|ranks|, j requires 0 <= j < |ranks| => Card(s, ranks[j]))
  }

  /** Every suit paired with every rank: one row per suit, suits in order. */
  function CrossProduct(suits: seq<Suit>, ranks: seq<Rank>): (cards: seq<Card>)
    ensures |cards| == |suits| * |ranks|
  {
    if |suits| == 0 then []
    else
      var rest := CrossProduct(suits[1..], ranks);
      assert |suits| * |ranks| == |ranks| + (|suits| - 1) * |ranks|;
      Row(suits[0], ranks) + rest
  }

  /** The card table. */
  const Deck: seq<Card> := CrossProduct(Suits, Ranks)

  /** A position in the card table, as `Math.floor(Math.random() * 52)` yields. */
  type DeckIndex = i: int | 0 <= i < 52

  /** The card at a table position: one random draw of the game. */
  function DrawCard(i: DeckIndex): Card {
    Deck[i]
  }

  lemma {:induction false} CrossProductAt(suits: seq<Suit>, ranks: seq<Rank>, i: int, j: int)
    requires 0 <= i < |suits| && 0 <= j < |ranks|
    ensures 0 <= i * |ranks| + j < |CrossProduct(suits, ranks)|
    ensures CrossProduct(suits, ranks)[i * |ranks| + j] == Card(suits[i], ranks[j])
  {
    var n := |ranks|;
    assert i * n + j < (i + 1) * n <= |suits| * n by {
      assert (i + 1) * n == i * n + n;
      assert (i + 1) * n <= |suits| * n by { MulMonotone(i + 1, |suits|, n); }
    }
    if i > 0 {
      CrossProductAt(suits[1..], ranks, i - 1, j);
      assert i * n + j == n + ((i - 1) * n + j) by { assert i * n == n + (i - 1) * n; }
    }
  }

  lemma MulMonotone(a: int, b: int, n: nat)
    requires a <= b
    ensures a * n <= b * n
  {
  }

  lemma {:induction false} CrossProductMembers(suits: seq<Suit>, ranks: seq<Rank>, c: Card)
    ensures c in CrossProduct(suits, ranks) <==> c.suit in suits && c.rank in ranks
  {
    if |suits| > 0 {
      CrossProductMembers(suits[1..], ranks, c);
      assert suits == [suits[0]] + suits[1..];
      assert c in Row(suits[0], ranks) <==> c.suit == suits[0] && c.rank in ranks by {
        if c.suit == suits[0] && c.rank in ranks {
          var j :| 0 <= j < |ranks| && ranks[j] == c.rank;
          assert Row(suits[0], ranks)[j] == c;
        }
      }
    }
  }

  lemma {:induction false} CrossProductDistinct(suits: seq<Suit>, ranks: seq<Rank>)
    requires Distinct(suits) && Distinct(ranks)
    ensures Distinct(CrossProduct(suits, ranks))
  {
    if |suits| > 0 {
      var row := Row(suits[0], ranks);
      var rest := CrossProduct(suits[1..], ranks);
      CrossProductDistinct(suits[1..], ranks);
      forall p, q | 0 <= p < q < |row + rest|
        ensures (row + rest)[p] != (row + rest)[q]
      {
        if p < |row| <= q {
          var c := rest[q - |row|];
          CrossProductMembers(suits[1..], ranks, c);
          var k :| 0 <= k < |suits[1..]| && suits[1..][k] == c.suit;
          assert suits[k + 1] == c.suit;
        }
      }
    }
  }

  /** The table holds 52 cards, 4 suits times 13 ranks, listed suit-major:
      entry 13*i + j pairs the i-th suit with the j-th rank. */
  lemma DeckLayout()
    ensures |Suits| == 4 && |Ranks| == 13 && |Deck| == 52
    ensures forall i, j :: 0 <= i < 4 && 0 <= j < 13 ==> Deck[13 * i + j] == Card(Suits[i], Ranks[j])
  {
    forall i, j | 0 <= i < 4 && 0 <= j < 13
      ensures Deck[13 * i + j] == Card(Suits[i], Ranks[j])
    {
      CrossProductAt(Suits, Ranks, i, j);
    }
  }

  /** No (suit, rank) pair is listed twice, and every pair is listed. */
  lemma DeckIsComplete()
    ensures Distinct(Deck)
    ensures forall c: Card :: c in Deck
  {
    CrossProductDistinct(Suits, Ranks);
    forall c: Card
      ensures c in Deck
    {
      CrossProductMembers(Suits, Ranks, c);
      assert c.suit in Suits by { assert c.suit == Suits[SuitIndex(c.suit)]; }
      assert c.rank in Ranks by { assert c.rank == Ranks[RankIndex(c.rank)]; }
    }
  }

  /** The table position of a card: every card can come up on a draw. */
  function CardIndex(c: Card): (i: DeckIndex)
    ensures DrawCard(i) == c
  {
    DeckLayout();
    13 * SuitIndex(c.suit) + RankIndex(c.rank)
  }

  function SuitIndex(s: Suit): (i: nat)
    ensures i < |Suits| && Suits[i] == s
  {
    match s
    case Spades => 0
    case Hearts => 1
    case Diamonds => 2
    case Clubs => 3
  }

  function RankIndex(r: Rank): (j: nat)
    ensures j < |Ranks| && Ranks[j] == r
  {
    match r
    case Two => 0
    case Three => 1
    case Four => 2
    case Five => 3
    case Six => 4
    case Seven => 5
    case Eight => 6
    case Nine => 7
    case Ten => 8
    case Jack => 9
    case Queen => 10
    case King => 11
    case Ace => 12
  }
}
