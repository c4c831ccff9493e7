/**
 * Card primitives of common/src/cards.ts: the card type (a rank text followed
 * by a one-letter suit), the unshuffled 52-card deck, its construction and
 * shuffle, and drawing from the front of a deck.
 */
module Cards {
  import opened Wrappers

  /** The ranks in deck order: 2..10, J, Q, K, A. */
  const RANKS: seq<string> := ["2", "3", "4", "5", "6", "7", "8", "9", "10", "J", "Q", "K", "A"]

  /** The suits in deck order: hearts, diamonds, clubs, spades. */
  const SUITS: seq<char> := ['H', 'D', 'C', 'S']

  /** A rank written with one character: 2..9, J, Q, K or A. */
  predicate IsRankChar(ch: char) {
    '2' <= ch <= '9' || ch == 'J' || ch == 'Q' || ch == 'K' || ch == 'A'
  }

  predicate IsSuitChar(ch: char) {
    ch == 'H' || ch == 'D' || ch == 'C' || ch == 'S'
  }

  /** The template-literal type `${Rank}${Suit}`, checked character by character. */
  predicate IsCard(c: string) {
    (|c| == 2 && IsRankChar(c[0]) && IsSuitChar(c[1]))
    || (|c| == 3 && c[0] == '1' && c[1] == '0' && IsSuitChar(c[2]))
  }

  /** Every entry of RANKS is a one-character rank, except "10" at position 8. */
  lemma RankShape(r: nat)
    requires r < |RANKS|
    ensures r != 8 ==> |RANKS[r]| == 1 && IsRankChar(RANKS[r][0])
    ensures r == 8 ==> RANKS[r] == "10"
  {
    if r == 0 {} else if r == 1 {} else if r == 2 {} else if r == 3 {} else if r == 4 {}
    else if r == 5 {} else if r == 6 {} else if r == 7 {} else if r == 8 {} else if r == 9 {}
    else if r == 10 {} else if r == 11 {} else {}
  }

  /** The one-character ranks are exactly the one-character entries of RANKS. */
  lemma RankCharListed(ch: char)
    ensures IsRankChar(ch) <==> [ch] in RANKS
  {
    if IsRankChar(ch) {
      var i := if ch == 'J' then 9 else if ch == 'Q' then 10 else if ch == 'K' then 11
        else if ch == 'A' then 12 else ch as int - '2' as int;
      assert RANKS[i] == [ch];
    }
    if [ch] in RANKS {
      var i :| 0 <= i < |RANKS| && RANKS[i] == [ch];
      RankShape(i);
      assert RANKS[i][0] == ch;
    }
  }

  /** A card is a listed rank text followed by a listed suit letter. */
  lemma IsCardIsRankThenSuit(c: string)
    ensures IsCard(c) <==> |c| >= 2 && c[..|c| - 1] in RANKS && c[|c| - 1] in SUITS
  {
    if |c| >= 2 {
      var rank := c[..|c| - 1];
      assert IsSuitChar(c[|c| - 1]) <==> c[|c| - 1] in SUITS;
      if |c| == 2 {
        assert rank == [c[0]];
        RankCharListed(c[0]);
      } else {
        if rank in RANKS {
          var i :| 0 <= i < |RANKS| && RANKS[i] == rank;
          RankShape(i);
          assert i == 8 && |c| == 3;
          assert c[0] == rank[0] && c[1] == rank[1];
        }
        if IsCard(c) {
          assert rank == RANKS[8];
        }
      }
    }
  }

  type Card = c: string | IsCard(c) witness "2" + "H"

  function MakeCard(r: nat, s: nat): (c: Card)
    requires r < |RANKS| && s < |SUITS|
    ensures |c| == |RANKS[r]| + 1 && c[..|c| - 1] == RANKS[r] && c[|c| - 1] == SUITS[s]
  {
    RankShape(r);
    assert (RANKS[r] + [SUITS[s]])[..|RANKS[r]|] == RANKS[r];
    RANKS[r] + [SUITS[s]]
  }

  /** The deck `createStandardDeck(false)` builds: suit-major, ranks ascending. */
  function StandardDeck(): (d: seq<Card>)
    ensures |d| == |SUITS| * |RANKS| == 52
  {
    seq(52, i requires 0 <= i < 52 => MakeCard(i % 13, i / 13))
  }

  lemma RanksDistinct()
    ensures forall a, b :: 0 <= a < b < |RANKS| ==> RANKS[a] != RANKS[b]
  {
  }

  /** All 52 cards of the unshuffled deck are different. */
  lemma {:induction false} StandardDeckDistinct()
    ensures forall i, j :: 0 <= i < j < |StandardDeck()| ==> StandardDeck()[i] != StandardDeck()[j]
  {
    var d := StandardDeck();
    RanksDistinct();
    forall i, j | 0 <= i < j < |d| ensures d[i] != d[j] {
      var ci, cj := d[i], d[j];
      if i / 13 == j / 13 {
        assert i % 13 < j % 13;
        assert ci[..|ci| - 1] == RANKS[i % 13] && cj[..|cj| - 1] == RANKS[j % 13];
      } else {
        assert ci[|ci| - 1] == SUITS[i / 13] && cj[|cj| - 1] == SUITS[j / 13];
      }
    }
  }

  /**
   * A JavaScript array of cards. The deck is an object whose contents the
   * functions below change in place (push, swap, splice), so it is a class
   * with one sequence field.
   */
  class Deck {
    var cards: seq<Card>

    constructor (cards: seq<Card>)
      ensures this.cards == cards
    {
      this.cards := cards;
    }
  }

  /**
   * createStandardDeck: pushes every rank of every suit, then, when asked to,
   * shuffles in place by Fisher-Yates.
   */
  method CreateStandardDeck(shuffle: bool) returns (deck: Deck)
    ensures fresh(deck)
    ensures !shuffle ==> deck.cards == StandardDeck()
    ensures multiset(deck.cards) == multiset(StandardDeck())
  {
    deck := new Deck([]);
    for s := 0 to |SUITS|
      invariant deck.cards == StandardDeck()[..13 * s]
    {
      PushSuit(deck, s);
    }
    assert deck.cards == StandardDeck();
    if shuffle {
      Shuffle(deck);
    }
  }

  /** The inner loop of createStandardDeck: pushes the 13 ranks of one suit. */
  method PushSuit(deck: Deck, s: nat)
    requires s < |SUITS| && deck.cards == StandardDeck()[..13 * s]
    modifies deck
    ensures deck.cards == StandardDeck()[..13 * s + 13]
  {
    for r := 0 to |RANKS|
      invariant deck.cards == StandardDeck()[..13 * s + r]
    {
      deck.cards := deck.cards + [MakeCard(r, s)];
    }
  }

  /**
   * The shuffle of createStandardDeck: for i from the last index down to 1,
   * swaps cell i with a cell j in 0..i. Math.random's pick of j is a
   * nondeterministic choice.
   */
  method Shuffle(deck: Deck)
    modifies deck
    ensures multiset(deck.cards) == multiset(old(deck.cards))
  {
    if |deck.cards| == 0 {
      return;
    }
    var i := |deck.cards| - 1;
    while i > 0
      invariant 0 <= i < |deck.cards|
      invariant multiset(deck.cards) == multiset(old(deck.cards))
    {
      var j :| 0 <= j <= i;
      deck.cards := deck.cards[i := deck.cards[j]][j := deck.cards[i]];
      i := i - 1;
    }
  }

  /**
   * drawCards: throws when more cards are asked for than the deck holds;
   * otherwise removes the first `count` cards from the deck (splice) and
   * returns them in order.
   */
  method DrawCards(deck: Deck, count: nat) returns (r: Result<seq<Card>, string>)
    modifies deck
    ensures count > |old(deck.cards)| ==>
      r == Failure("Not enough cards in the deck to draw.") && deck.cards == old(deck.cards)
    ensures count <= |old(deck.cards)| ==>
      r == Success(old(deck.cards)[..count]) && deck.cards == old(deck.cards)[count..]
  {
    if count > |deck.cards| {
      return Failure("Not enough cards in the deck to draw.");
    }
    r := Success(deck.cards[..count]);
    deck.cards := deck.cards[count..];
  }
}
