/**
 * The trick rules of common/src/logic.ts: the trump suit, the suit and rank
 * value of a card, and `beats`. callbreak-engine/src/logic.ts repeats these
 * definitions word for word (its lines 3-51), so they are modelled once, here.
 */
module CommonLogic {
  import opened Cards

  const TRUMP_SUIT: char := 'S'

  const RANK_VALUES: map<string, int> := map[
    "2" := 2, "3" := 3, "4" := 4, "5" := 5, "6" := 6, "7" := 7, "8" := 8,
    "9" := 9, "10" := 10, "J" := 11, "Q" := 12, "K" := 13, "A" := 14]

  /** getSuit: the last character of the card. */
  function GetSuit(card: Card): char {
    card[|card| - 1]
  }

  /** The rank text getRankValue looks up: two characters for a 3-character card, else one. */
  function RankText(card: Card): string {
    if |card| == 3 then card[..2] else card[..1]
  }

  /** RANK_VALUES of a one-character rank. */
  function RankCharValue(ch: char): int {
    if ch == 'J' then 11 else if ch == 'Q' then 12 else if ch == 'K' then 13
    else if ch == 'A' then 14 else ch as int - '0' as int
  }

  /**
   * getRankValue: 10 for the 3-character cards, whose rank is "10", else the
   * value of the one-character rank; RankValueIsTableLookup shows it is the
   * entry RANK_VALUES gives the rank text.
   */
  function RankValue(card: Card): (v: int)
    ensures 2 <= v <= 14
    ensures v == 10 <==> |card| == 3
  {
    if |card| == 3 then 10 else RankCharValue(card[0])
  }

  /** getRankValue reads the rank text (two characters of a 3-character card, else one) from RANK_VALUES. */
  lemma RankValueIsTableLookup(card: Card)
    ensures RankText(card) == card[..|card| - 1]
    ensures RankText(card) in RANK_VALUES && RANK_VALUES[RankText(card)] == RankValue(card)
  {
    var t := RankText(card);
    if |card| == 3 {
      assert t == "10";
    } else {
      var ch := card[0];
      assert t == [ch];
      if ch == '2' { assert t == "2"; } else if ch == '3' { assert t == "3"; }
      else if ch == '4' { assert t == "4"; } else if ch == '5' { assert t == "5"; }
      else if ch == '6' { assert t == "6"; } else if ch == '7' { assert t == "7"; }
      else if ch == '8' { assert t == "8"; } else if ch == '9' { assert t == "9"; }
      else if ch == 'J' { assert t == "J"; } else if ch == 'Q' { assert t == "Q"; }
      else if ch == 'K' { assert t == "K"; } else { assert t == "A"; }
    }
  }

  /** A card is fixed by its suit and its rank value. */
  lemma CardFromSuitAndRank(a: Card, b: Card)
    requires GetSuit(a) == GetSuit(b) && RankValue(a) == RankValue(b)
    ensures a == b
  {
    if |a| == 2 {
      assert a == [a[0], a[1]] && b == [b[0], b[1]];
    } else {
      assert a == [a[0], a[1], a[2]] && b == [b[0], b[1], b[2]];
    }
  }

  /** The card built from rank index r and suit index s has suit SUITS[s] and rank value r + 2. */
  lemma MakeCardParts(r: nat, s: nat)
    requires r < |RANKS| && s < |SUITS|
    ensures GetSuit(MakeCard(r, s)) == SUITS[s] && RankValue(MakeCard(r, s)) == r + 2
  {
    var c := MakeCard(r, s);
    RankShape(r);
    if r != 8 {
      assert c[0] == RANKS[r][0];
      if r == 0 {} else if r == 1 {} else if r == 2 {} else if r == 3 {} else if r == 4 {}
      else if r == 5 {} else if r == 6 {} else if r == 7 {} else if r == 9 {}
      else if r == 10 {} else if r == 11 {} else {}
    }
  }

  /** getRankValue of the deck's cards: rank index r has value r + 2, and getSuit is the suit letter. */
  lemma {:induction false} StandardDeckOrder()
    ensures forall i :: 0 <= i < 52 ==>
      GetSuit(StandardDeck()[i]) == SUITS[i / 13] && RankValue(StandardDeck()[i]) == i % 13 + 2
  {
    forall i | 0 <= i < 52
      ensures GetSuit(StandardDeck()[i]) == SUITS[i / 13] && RankValue(StandardDeck()[i]) == i % 13 + 2
    {
      MakeCardParts(i % 13, i / 13);
    }
  }

  /**
   * beats: does cardA win over cardB in a trick led with leadingSuit?
   * A trump wins over a non-trump, cards of one suit compare by rank, and of
   * two other suits only a card of the leading suit wins.
   */
  function Beats(cardA: Card, cardB: Card, leadingSuit: char): bool {
    var suitA := GetSuit(cardA);
    var suitB := GetSuit(cardB);
    var rankA := RankValue(cardA);
    var rankB := RankValue(cardB);
    if suitA == TRUMP_SUIT && suitB != TRUMP_SUIT then true
    else if suitB == TRUMP_SUIT && suitA != TRUMP_SUIT then false
    else if suitA == suitB then rankA > rankB
    else if suitB != leadingSuit then suitA == leadingSuit
    else false
  }

  /** A trump always beats a non-trump, and a non-trump never beats a trump. */
  lemma TrumpDecides(a: Card, b: Card, leadingSuit: char)
    requires GetSuit(a) == TRUMP_SUIT && GetSuit(b) != TRUMP_SUIT
    ensures Beats(a, b, leadingSuit) && !Beats(b, a, leadingSuit)
  {
  }

  /** Between two cards of one suit, beats is strict comparison of rank values. */
  lemma SameSuitByRank(a: Card, b: Card, leadingSuit: char)
    requires GetSuit(a) == GetSuit(b)
    ensures Beats(a, b, leadingSuit) <==> RankValue(a) > RankValue(b)
  {
  }

  /** Between two non-trumps of different suits, only a leading-suit card beats a non-leading one. */
  lemma OffSuitByLead(a: Card, b: Card, leadingSuit: char)
    requires GetSuit(a) != GetSuit(b) && GetSuit(a) != TRUMP_SUIT && GetSuit(b) != TRUMP_SUIT
    ensures Beats(a, b, leadingSuit) <==> GetSuit(a) == leadingSuit && GetSuit(b) != leadingSuit
  {
  }

  /** beats is irreflexive: a card never beats itself. */
  lemma BeatsIrreflexive(c: Card, leadingSuit: char)
    ensures !Beats(c, c, leadingSuit)
  {
  }

  /** beats is asymmetric: of two cards at most one beats the other. */
  lemma BeatsAsymmetric(a: Card, b: Card, leadingSuit: char)
    ensures !(Beats(a, b, leadingSuit) && Beats(b, a, leadingSuit))
  {
  }

  /** beats is transitive, so a scan that keeps the beating card keeps the best one. */
  lemma BeatsTransitive(a: Card, b: Card, c: Card, leadingSuit: char)
    requires Beats(a, b, leadingSuit) && Beats(b, c, leadingSuit)
    ensures Beats(a, c, leadingSuit)
  {
  }

  /** Two distinct cards of which one follows the lead, one is trump, or both share a suit are ordered by beats. */
  lemma {:induction false} BeatsTotalInTrick(a: Card, b: Card, leadingSuit: char)
    requires a != b
    requires GetSuit(a) == GetSuit(b) || GetSuit(a) in {leadingSuit, TRUMP_SUIT} || GetSuit(b) in {leadingSuit, TRUMP_SUIT}
    ensures Beats(a, b, leadingSuit) || Beats(b, a, leadingSuit)
  {
    if GetSuit(a) == GetSuit(b) && RankValue(a) == RankValue(b) {
      CardFromSuitAndRank(a, b);
    }
  }
}
