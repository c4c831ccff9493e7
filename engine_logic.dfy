/**
 * The legality rules of callbreak-engine/src/logic.ts (`computeValidCards`)
 * and the server-side check `isValidPlay` of callbreak-engine/src/state.ts,
 * both as pure functions over the hand and the cards on the table.
 */
module EngineLogic {
  import opened Cards
  import opened CommonLogic

  /** Some card of the list is of `suit`. */
  predicate HasSuit(cards: seq<Card>, suit: char) {
    cards != [] && (GetSuit(cards[0]) == suit || HasSuit(cards[1..], suit))
  }

  /** The cards of `suit`, in list order. */
  function OfSuit(cards: seq<Card>, suit: char): (r: seq<Card>)
    ensures forall c :: c in r <==> c in cards && GetSuit(c) == suit
    ensures |r| <= |cards|
    ensures |r| > 0 <==> HasSuit(cards, suit)
  {
    if cards == [] then []
    else (if GetSuit(cards[0]) == suit then [cards[0]] else []) + OfSuit(cards[1..], suit)
  }

  /** The cards that beat `best` under the lead suit, in list order. */
  function Beating(cards: seq<Card>, best: Card, leadingSuit: char): (r: seq<Card>)
    ensures forall c :: c in r <==> c in cards && Beats(c, best, leadingSuit)
  {
    if cards == [] then []
    else (if Beats(cards[0], best, leadingSuit) then [cards[0]] else []) + Beating(cards[1..], best, leadingSuit)
  }

  /** The trumps whose rank value exceeds `value`, in list order. */
  function TrumpsAbove(cards: seq<Card>, value: int): (r: seq<Card>)
    ensures forall c :: c in r <==> c in cards && GetSuit(c) == TRUMP_SUIT && RankValue(c) > value
  {
    if cards == [] then []
    else
      var keep := GetSuit(cards[0]) == TRUMP_SUIT && RankValue(cards[0]) > value;
      (if keep then [cards[0]] else []) + TrumpsAbove(cards[1..], value)
  }

  /** Scanning from `acc`, the card of highest rank value; on a tie the earlier card is kept. */
  function HighestByRank(acc: Card, cards: seq<Card>): (m: Card)
    ensures m == acc || m in cards
    ensures RankValue(acc) <= RankValue(m)
    ensures forall c :: c in cards ==> RankValue(c) <= RankValue(m)
    decreases |cards|
  {
    if cards == [] then acc
    else HighestByRank(if RankValue(cards[0]) > RankValue(acc) then cards[0] else acc, cards[1..])
  }

  /** The largest of `acc` and the cards' rank values. */
  function HighestRankValue(acc: int, cards: seq<Card>): (v: int)
    ensures acc <= v
    ensures forall c :: c in cards ==> RankValue(c) <= v
    ensures v == acc || exists c :: c in cards && RankValue(c) == v
    decreases |cards|
  {
    if cards == [] then acc
    else HighestRankValue(if RankValue(cards[0]) > acc then RankValue(cards[0]) else acc, cards[1..])
  }

  /** computeValidCards when the hand holds the leading suit (logic.ts:60-66). */
  function FollowLeadCards(hand: seq<Card>, played: seq<Card>): (r: seq<Card>)
    requires played != []
    ensures forall c :: c in r ==> c in hand && GetSuit(c) == GetSuit(played[0])
  {
    var leadingSuit := GetSuit(played[0]);
    var leadingCards := OfSuit(hand, leadingSuit);
    var highestCardInTrick := HighestByRank(played[0], OfSuit(played, leadingSuit));
    var higherCards := Beating(leadingCards, highestCardInTrick, leadingSuit);
    if |higherCards| > 0 then higherCards else leadingCards
  }

  /** computeValidCards when the hand lacks the leading suit (logic.ts:69-82). */
  function OverTrumpCards(hand: seq<Card>, played: seq<Card>): (r: seq<Card>)
    ensures forall c :: c in r ==> c in hand
    ensures |hand| > 0 ==> |r| > 0
  {
    var highestTrumpInTrick := HighestRankValue(0, OfSuit(played, TRUMP_SUIT));
    var higherTrumps := TrumpsAbove(hand, highestTrumpInTrick);
    if |higherTrumps| > 0 then higherTrumps
    else
      var trumpCards := OfSuit(hand, TRUMP_SUIT);
      if |trumpCards| > 0 then trumpCards else hand
  }

  /** computeValidCards: the cards of the hand the player may put on the table. */
  function ComputeValidCards(hand: seq<Card>, played: seq<Card>): (r: seq<Card>)
    ensures forall c :: c in r ==> c in hand
    ensures |hand| == 0 ==> r == []
    ensures |hand| > 0 ==> |r| > 0
    ensures |hand| > 0 && |played| == 0 ==> r == hand
  {
    if |hand| == 0 then []
    else if |played| == 0 then hand
    else if HasSuit(hand, GetSuit(played[0])) then FollowLeadCards(hand, played)
    else if HasSuit(hand, TRUMP_SUIT) then OverTrumpCards(hand, played)
    else hand
  }

  /** c has a higher rank than every card of the given suit on the table. */
  predicate TopsSuit(c: Card, played: seq<Card>, suit: char) {
    forall p :: p in played && GetSuit(p) == suit ==> RankValue(c) > RankValue(p)
  }

  /** Some card of the hand of the given suit tops that suit on the table. */
  predicate CanTop(hand: seq<Card>, played: seq<Card>, suit: char) {
    exists d :: d in hand && GetSuit(d) == suit && TopsSuit(d, played, suit)
  }

  /**
   * The follow-suit / over-trump rule stated directly: follow the leading
   * suit if you can, beating the table in it if you can; failing that, play
   * a trump, over-trumping the table if you can; failing that, play anything.
   */
  predicate RuleAllows(hand: seq<Card>, played: seq<Card>, c: Card)
    requires played != []
  {
    var lead := GetSuit(played[0]);
    if HasSuit(hand, lead) then
      GetSuit(c) == lead && (CanTop(hand, played, lead) ==> TopsSuit(c, played, lead))
    else if HasSuit(hand, TRUMP_SUIT) then
      GetSuit(c) == TRUMP_SUIT && (CanTop(hand, played, TRUMP_SUIT) ==> TopsSuit(c, played, TRUMP_SUIT))
    else true
  }

  /** The highest leading-suit card on the table is topped exactly by what tops the whole suit. */
  lemma {:induction false} HighestLeadTops(played: seq<Card>, c: Card)
    requires played != [] && GetSuit(c) == GetSuit(played[0])
    ensures var lead := GetSuit(played[0]);
      Beats(c, HighestByRank(played[0], OfSuit(played, lead)), lead) <==> TopsSuit(c, played, lead)
  {
    var lead := GetSuit(played[0]);
    var h := HighestByRank(played[0], OfSuit(played, lead));
    assert GetSuit(h) == lead;
    SameSuitByRank(c, h, lead);
    if TopsSuit(c, played, lead) {
      assert h in played;
    }
  }

  /** Topping the highest trump value on the table (counted from 0) is topping every trump there. */
  lemma {:induction false} HighestTrumpTops(played: seq<Card>, c: Card)
    ensures RankValue(c) > HighestRankValue(0, OfSuit(played, TRUMP_SUIT)) <==> TopsSuit(c, played, TRUMP_SUIT)
  {
    var v := HighestRankValue(0, OfSuit(played, TRUMP_SUIT));
    if TopsSuit(c, played, TRUMP_SUIT) && v != 0 {
      var p :| p in OfSuit(played, TRUMP_SUIT) && RankValue(p) == v;
    }
  }

  /** The leading-suit cards of the hand that beat the table's best are those that top the suit. */
  lemma {:induction false} LeadBeatersTop(hand: seq<Card>, played: seq<Card>)
    requires played != []
    ensures var lead := GetSuit(played[0]);
      var higher := Beating(OfSuit(hand, lead), HighestByRank(played[0], OfSuit(played, lead)), lead);
      (forall d :: d in higher <==> d in hand && GetSuit(d) == lead && TopsSuit(d, played, lead))
      && (|higher| > 0 <==> CanTop(hand, played, lead))
  {
    var lead := GetSuit(played[0]);
    var higher := Beating(OfSuit(hand, lead), HighestByRank(played[0], OfSuit(played, lead)), lead);
    forall d | d in hand && GetSuit(d) == lead
      ensures d in higher <==> TopsSuit(d, played, lead)
    {
      HighestLeadTops(played, d);
    }
    if CanTop(hand, played, lead) {
      var d :| d in hand && GetSuit(d) == lead && TopsSuit(d, played, lead);
      assert d in higher;
    }
    if |higher| > 0 {
      assert higher[0] in higher;
    }
  }

  /** The trumps of the hand above the table's highest trump value are those that top the trumps. */
  lemma {:induction false} TrumpsAboveTop(hand: seq<Card>, played: seq<Card>)
    ensures var higher := TrumpsAbove(hand, HighestRankValue(0, OfSuit(played, TRUMP_SUIT)));
      (forall d :: d in higher <==> d in hand && GetSuit(d) == TRUMP_SUIT && TopsSuit(d, played, TRUMP_SUIT))
      && (|higher| > 0 <==> CanTop(hand, played, TRUMP_SUIT))
  {
    var v := HighestRankValue(0, OfSuit(played, TRUMP_SUIT));
    var higher := TrumpsAbove(hand, v);
    forall d | d in hand && GetSuit(d) == TRUMP_SUIT
      ensures d in higher <==> TopsSuit(d, played, TRUMP_SUIT)
    {
      HighestTrumpTops(played, d);
    }
    if CanTop(hand, played, TRUMP_SUIT) {
      var d :| d in hand && GetSuit(d) == TRUMP_SUIT && TopsSuit(d, played, TRUMP_SUIT);
      assert d in higher;
    }
    if |higher| > 0 {
      assert higher[0] in higher;
    }
  }

  /** When the hand holds the leading suit, computeValidCards applies the follow-suit half of the rule. */
  lemma {:induction false} ValidCardsFollowLead(hand: seq<Card>, played: seq<Card>, c: Card)
    requires played != [] && HasSuit(hand, GetSuit(played[0]))
    ensures c in FollowLeadCards(hand, played) <==> c in hand && RuleAllows(hand, played, c)
  {
    LeadBeatersTop(hand, played);
  }

  /** When the hand lacks the leading suit but holds a trump, computeValidCards applies the over-trump half. */
  lemma {:induction false} ValidCardsOverTrump(hand: seq<Card>, played: seq<Card>, c: Card)
    requires played != [] && !HasSuit(hand, GetSuit(played[0])) && HasSuit(hand, TRUMP_SUIT)
    ensures c in OverTrumpCards(hand, played) <==> c in hand && RuleAllows(hand, played, c)
  {
    TrumpsAboveTop(hand, played);
  }

  /** computeValidCards returns exactly the cards of the hand the rule allows. */
  lemma {:induction false} ValidCardsFollowRule(hand: seq<Card>, played: seq<Card>, c: Card)
    requires played != []
    ensures c in ComputeValidCards(hand, played) <==> c in hand && RuleAllows(hand, played, c)
  {
    if HasSuit(hand, GetSuit(played[0])) {
      ValidCardsFollowLead(hand, played, c);
    } else if HasSuit(hand, TRUMP_SUIT) {
      ValidCardsOverTrump(hand, played, c);
    }
  }

  /**
   * isValidPlay (state.ts): any card on an empty table; a leading-suit card
   * when the hand has one; otherwise a trump when the hand has one, and then
   * one above the table's trumps unless the hand holds none that is.
   */
  function IsValidPlay(hand: seq<Card>, played: seq<Card>, cardToPlay: Card): (ok: bool)
    ensures played == [] ==> ok
    ensures played != [] && HasSuit(hand, GetSuit(played[0])) ==> (ok <==> GetSuit(cardToPlay) == GetSuit(played[0]))
    ensures played != [] && !HasSuit(hand, GetSuit(played[0])) && !HasSuit(hand, TRUMP_SUIT) ==> ok
  {
    if |played| == 0 then true
    else
      var leadingSuit := GetSuit(played[0]);
      if HasSuit(hand, leadingSuit) then GetSuit(cardToPlay) == leadingSuit
      else if HasSuit(hand, TRUMP_SUIT) then
        if GetSuit(cardToPlay) != TRUMP_SUIT then false
        else
          var highestTrumpInTrickValue := HighestRankValue(0, OfSuit(played, TRUMP_SUIT));
          if RankValue(cardToPlay) > highestTrumpInTrickValue then true
          else |TrumpsAbove(hand, highestTrumpInTrickValue)| == 0
      else true
  }

  /** Without the leading suit but with a trump, isValidPlay is the over-trump rule. */
  lemma {:induction false} IsValidPlayOverTrumps(hand: seq<Card>, played: seq<Card>, c: Card)
    requires played != [] && !HasSuit(hand, GetSuit(played[0])) && HasSuit(hand, TRUMP_SUIT)
    ensures IsValidPlay(hand, played, c) <==>
      GetSuit(c) == TRUMP_SUIT && (CanTop(hand, played, TRUMP_SUIT) ==> TopsSuit(c, played, TRUMP_SUIT))
  {
    HighestTrumpTops(played, c);
    TrumpsAboveTop(hand, played);
  }

  /** Every card computeValidCards offers passes isValidPlay, so an auto-played card is never rejected as illegal. */
  lemma {:induction false} ValidCardsArePlayable(hand: seq<Card>, played: seq<Card>, c: Card)
    requires c in ComputeValidCards(hand, played)
    ensures c in hand && IsValidPlay(hand, played, c)
  {
    if played != [] {
      ValidCardsFollowRule(hand, played, c);
      if !HasSuit(hand, GetSuit(played[0])) && HasSuit(hand, TRUMP_SUIT) {
        IsValidPlayOverTrumps(hand, played, c);
      }
    }
  }

  /**
   * The converse fails: holding 2H (MakeCard(0, 0)) and AH (MakeCard(12, 0))
   * with KH (MakeCard(11, 0)) led, isValidPlay accepts 2H although
   * computeValidCards only offers AH.
   */
  lemma IsValidPlayLaxerThanValidCards()
    ensures var two, ace, king := MakeCard(0, 0), MakeCard(12, 0), MakeCard(11, 0);
      IsValidPlay([two, ace], [king], two) && two !in ComputeValidCards([two, ace], [king])
  {
    var two, ace, king := MakeCard(0, 0), MakeCard(12, 0), MakeCard(11, 0);
    MakeCardParts(0, 0);
    MakeCardParts(12, 0);
    MakeCardParts(11, 0);
    assert HasSuit([two, ace], 'H');
    assert OfSuit([king], 'H') == [king];
    assert HighestByRank(king, [king]) == king;
    assert ace in Beating(OfSuit([two, ace], 'H'), king, 'H');
  }
}
