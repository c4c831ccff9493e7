/**
 * The value-level rules behind CallbreakState (callbreak-engine/src/state.ts):
 * player-list validation, the order a dealt hand is sorted in, the winner of
 * a trick, the points of a round, and the flattening of Maps into JSON objects.
 */
module StateRules {
  import opened Wrappers
  import opened Cards
  import opened CommonLogic

  const TOTAL_ROUNDS: int := 1
  const HAND_SIZE: nat := 13

  const ERR_PLAYER_COUNT := "Callbreak requires exactly 4 players."
  const ERR_PLAYER_ID := "Each player must have a valid ID."
  const ERR_PLAYER_UNIQUE := "Player IDs must be unique."

  datatype Phase = Bidding | Playing | RoundOver | GameOver

  /** One card on the table, with the id of the player who put it there. */
  datatype Play = Play(player: string, card: Card)

  /** The cards on the table, in the order they were played. */
  function TableCards(plays: seq<Play>): (cards: seq<Card>)
    ensures |cards| == |plays|
    ensures forall i :: 0 <= i < |plays| ==> cards[i] == plays[i].card
  {
    if plays == [] then [] else TableCards(plays[..|plays| - 1]) + [plays[|plays| - 1].card]
  }

  /** All the cards of a list of tricks, trick after trick. */
  function Flatten(tricks: seq<seq<Play>>): seq<Card> {
    if tricks == [] then [] else Flatten(tricks[..|tricks| - 1]) + TableCards(tricks[|tricks| - 1])
  }

  function IdSet(ids: seq<string>): set<string> {
    set i | 0 <= i < |ids| :: ids[i]
  }

  predicate Distinct(ids: seq<string>) {
    forall i, j :: 0 <= i < j < |ids| ==> ids[i] != ids[j]
  }

  /** The set of ids is as large as the list exactly when no id repeats. */
  lemma {:induction false} DistinctIffSetSize(ids: seq<string>)
    ensures Distinct(ids) <==> |IdSet(ids)| == |ids|
  {
    if ids != [] {
      var init := ids[..|ids| - 1];
      var last := ids[|ids| - 1];
      DistinctIffSetSize(init);
      assert IdSet(ids) == IdSet(init) + {last};
      assert |IdSet(init)| <= |init| by { SetSizeBound(init); }
      if last in IdSet(init) {
        var k :| 0 <= k < |init| && init[k] == last;
        assert ids[k] == ids[|ids| - 1];
      } else {
        assert Distinct(ids) <==> Distinct(init);
      }
    }
  }

  lemma {:induction false} SetSizeBound(ids: seq<string>)
    ensures |IdSet(ids)| <= |ids|
  {
    if ids != [] {
      var init := ids[..|ids| - 1];
      SetSizeBound(init);
      assert IdSet(ids) == IdSet(init) + {ids[|ids| - 1]};
    }
  }

  /**
   * The checks of the CallbreakState constructor, in the order it makes them:
   * None when the ids are acceptable, else the message it throws.
   */
  function ValidatePlayers(ids: seq<string>): (err: Option<string>)
    ensures err == None <==> |ids| == 4 && (forall i :: 0 <= i < |ids| ==> ids[i] != "") && Distinct(ids)
    ensures |ids| != 4 ==> err == Some(ERR_PLAYER_COUNT)
    ensures |ids| == 4 && (exists i :: 0 <= i < |ids| && ids[i] == "") ==> err == Some(ERR_PLAYER_ID)
    ensures |ids| == 4 && (forall i :: 0 <= i < |ids| ==> ids[i] != "") && !Distinct(ids) ==> err == Some(ERR_PLAYER_UNIQUE)
  {
    DistinctIffSetSize(ids);
    if |ids| != 4 then Some(ERR_PLAYER_COUNT)
    else if exists i :: 0 <= i < |ids| && ids[i] == "" then Some(ERR_PLAYER_ID)
    else if |IdSet(ids)| != |ids| then Some(ERR_PLAYER_UNIQUE)
    else None
  }

  // ---- hand order -------------------------------------------------------

  /** The comparator of newRound's sort says a may stay before b: lower suit letter, or same suit and not lower rank. */
  predicate HandBefore(a: Card, b: Card) {
    if GetSuit(a) == GetSuit(b) then RankValue(b) - RankValue(a) <= 0
    else GetSuit(a) < GetSuit(b)
  }

  predicate SortedHand(h: seq<Card>) {
    forall i, j :: 0 <= i < j < |h| ==> HandBefore(h[i], h[j])
  }

  lemma HandBeforeTotal(a: Card, b: Card)
    ensures HandBefore(a, b) || HandBefore(b, a)
  {
  }

  lemma HandBeforeTransitive(a: Card, b: Card, c: Card)
    requires HandBefore(a, b) && HandBefore(b, c)
    ensures HandBefore(a, c)
  {
  }

  function InsertCard(c: Card, h: seq<Card>): (r: seq<Card>)
    requires SortedHand(h)
    ensures SortedHand(r)
    ensures multiset(r) == multiset(h) + multiset{c}
  {
    if h == [] then [c]
    else if HandBefore(c, h[0]) then [c] + h
    else
      var rest := InsertCard(c, h[1..]);
      assert multiset(h) == multiset{h[0]} + multiset(h[1..]) by { assert h == [h[0]] + h[1..]; }
      assert forall x :: x in multiset(rest) ==> HandBefore(h[0], x) by {
        HandBeforeTotal(c, h[0]);
        forall x | x in multiset(rest) ensures HandBefore(h[0], x) {
          if x != c {
            assert x in h[1..];
          }
        }
      }
      [h[0]] + rest
  }

  /** Sorting a hand with the comparator: the same cards, in hand order. */
  function SortHand(h: seq<Card>): (r: seq<Card>)
    ensures SortedHand(r)
    ensures multiset(r) == multiset(h)
  {
    if h == [] then []
    else
      assert h == [h[0]] + h[1..];
      InsertCard(h[0], SortHand(h[1..]))
  }

  // ---- trick winner -----------------------------------------------------

  /** The position resolveTrick's scan settles on among the first n cards: a later card takes over only if it beats the current best. */
  function WinnerPos(cards: seq<Card>, n: nat): (w: nat)
    requires 1 <= n <= |cards|
    ensures w < n
  {
    if n == 1 then 0
    else
      var w := WinnerPos(cards, n - 1);
      if Beats(cards[n - 1], cards[w], GetSuit(cards[0])) then n - 1 else w
  }

  /** No card among the first n beats the one the scan settles on. */
  lemma {:induction false} WinnerUnbeaten(cards: seq<Card>, n: nat)
    requires 1 <= n <= |cards|
    ensures Unbeaten(cards, n, WinnerPos(cards, n))
  {
    var lead := GetSuit(cards[0]);
    if n == 1 {
      BeatsIrreflexive(cards[0], lead);
    } else {
      WinnerUnbeaten(cards, n - 1);
      var w := WinnerPos(cards, n - 1);
      if Beats(cards[n - 1], cards[w], lead) {
        UnbeatenNewBest(cards, n, w);
      } else {
        UnbeatenKeep(cards, n, w);
      }
    }
  }

  /** No card among the first n beats cards[w]. */
  predicate Unbeaten(cards: seq<Card>, n: nat, w: nat)
    requires 1 <= n <= |cards| && w < |cards|
  {
    forall j :: 0 <= j < n ==> !Beats(cards[j], cards[w], GetSuit(cards[0]))
  }

  lemma UnbeatenKeep(cards: seq<Card>, n: nat, w: nat)
    requires 2 <= n <= |cards| && w < n - 1
    requires Unbeaten(cards, n - 1, w) && !Beats(cards[n - 1], cards[w], GetSuit(cards[0]))
    ensures Unbeaten(cards, n, w)
  {
  }

  lemma UnbeatenNewBest(cards: seq<Card>, n: nat, w: nat)
    requires 2 <= n <= |cards| && w < n - 1
    requires Unbeaten(cards, n - 1, w) && Beats(cards[n - 1], cards[w], GetSuit(cards[0]))
    ensures Unbeaten(cards, n, n - 1)
  {
    var lead := GetSuit(cards[0]);
    forall j | 0 <= j < n
      ensures !Beats(cards[j], cards[n - 1], lead)
    {
      if j == n - 1 {
        BeatsIrreflexive(cards[j], lead);
      } else {
        NotBeatsStep(cards[j], cards[n - 1], cards[w], lead);
      }
    }
  }

  lemma NotBeatsStep(a: Card, b: Card, c: Card, lead: char)
    requires Beats(b, c, lead) && !Beats(a, c, lead)
    ensures !Beats(a, b, lead)
  {
    if Beats(a, b, lead) {
      BeatsTransitive(a, b, c, lead);
    }
  }

  /** A card that beats the best so far is beaten by none of the earlier cards nor by itself. */
  lemma {:induction false} NewBestUnbeaten(earlier: seq<Card>, best: Card, c: Card, lead: char)
    requires Beats(c, best, lead)
    requires forall x :: x in earlier ==> !Beats(x, best, lead)
    ensures forall x :: x in earlier + [c] ==> !Beats(x, c, lead)
  {
    forall x | x in earlier + [c]
      ensures !Beats(x, c, lead)
    {
      if x == c {
        BeatsIrreflexive(c, lead);
      } else if Beats(x, c, lead) {
        BeatsTransitive(x, c, best, lead);
      }
    }
  }

  /** The scan settles on a card of the leading suit or a trump. */
  lemma {:induction false} WinnerFollowsOrTrumps(cards: seq<Card>, n: nat)
    requires 1 <= n <= |cards|
    ensures var s := GetSuit(cards[WinnerPos(cards, n)]); s == GetSuit(cards[0]) || s == TRUMP_SUIT
  {
    if n > 1 {
      WinnerFollowsOrTrumps(cards, n - 1);
      var w := WinnerPos(cards, n - 1);
      if Beats(cards[n - 1], cards[w], GetSuit(cards[0])) {
        BeaterFollowsOrTrumps(cards[n - 1], cards[w], GetSuit(cards[0]));
      }
    }
  }

  /** Only a leading-suit card or a trump beats a leading-suit card or a trump. */
  lemma BeaterFollowsOrTrumps(a: Card, b: Card, lead: char)
    requires Beats(a, b, lead) && (GetSuit(b) == lead || GetSuit(b) == TRUMP_SUIT)
    ensures GetSuit(a) == lead || GetSuit(a) == TRUMP_SUIT
  {
  }

  /** With distinct cards on the table, the card the scan settles on beats every other one. */
  lemma {:induction false} WinnerBeatsAll(cards: seq<Card>)
    requires |cards| >= 1
    requires forall i, j :: 0 <= i < j < |cards| ==> cards[i] != cards[j]
    ensures var w := WinnerPos(cards, |cards|);
      forall j :: 0 <= j < |cards| && j != w ==> Beats(cards[w], cards[j], GetSuit(cards[0]))
  {
    var w := WinnerPos(cards, |cards|);
    var lead := GetSuit(cards[0]);
    WinnerUnbeaten(cards, |cards|);
    assert forall j :: 0 <= j < |cards| ==> !Beats(cards[j], cards[w], lead);
    WinnerFollowsOrTrumps(cards, |cards|);
    forall j | 0 <= j < |cards| && j != w
      ensures Beats(cards[w], cards[j], lead)
    {
      BeatsTotalInTrick(cards[w], cards[j], lead);
    }
  }

  // ---- points -----------------------------------------------------------

  /**
   * The change updatePoints makes to a player's score, in tenths of a point:
   * the bid is lost when fewer tricks were won, else the bid is gained plus a
   * tenth per extra trick.
   */
  function RoundDelta(bid: int, tricks: int): (d: int)
    ensures tricks < bid ==> d == -10 * bid
    ensures tricks >= bid ==> d == 10 * bid + (tricks - bid)
  {
    if tricks < bid then -10 * bid else 10 * bid + (tricks - bid)
  }

  /** Making the bid exactly scores the bid; each extra trick adds a tenth; missing it costs the bid. */
  lemma RoundDeltaExamples()
    ensures RoundDelta(3, 3) == 30 && RoundDelta(3, 5) == 32 && RoundDelta(4, 3) == -40
  {
  }

  /** Over the bid, more tricks never score less; under it, the score does not depend on the tricks. */
  lemma RoundDeltaMonotone(bid: int, t1: int, t2: int)
    requires bid >= 1 && t1 <= t2
    ensures t1 >= bid ==> RoundDelta(bid, t1) <= RoundDelta(bid, t2)
    ensures t2 < bid ==> RoundDelta(bid, t1) == RoundDelta(bid, t2)
    ensures t1 < bid <= t2 ==> RoundDelta(bid, t1) < RoundDelta(bid, t2)
  {
  }

  /** The listed players each with a tally of 0, as the constructor sets points and newRound sets tricks won. */
  function ZeroMap(ids: seq<string>): (m: map<string, int>)
    ensures forall k :: k in m ==> k in ids && m[k] == 0
    ensures forall i :: 0 <= i < |ids| ==> ids[i] in m
  {
    if ids == [] then map[]
    else
      var init := ids[..|ids| - 1];
      assert forall k :: k in init ==> k in ids;
      ZeroMap(init)[ids[|ids| - 1] := 0]
  }

  /** The points after updatePoints has gone through the listed players: each gains the RoundDelta of their bid and tricks. */
  function ScoredPoints(points: map<string, int>, bids: map<string, int>, won: map<string, int>, ids: seq<string>): (r: map<string, int>)
    requires forall i :: 0 <= i < |ids| ==> ids[i] in points && ids[i] in bids && ids[i] in won
    ensures r.Keys == points.Keys
  {
    if ids == [] then points
    else
      var init := ids[..|ids| - 1];
      var p := ids[|ids| - 1];
      var before := ScoredPoints(points, bids, won, init);
      before[p := before[p] + RoundDelta(bids[p], won[p])]
  }

  /** One more player scored: the next player's entry gains their delta. */
  lemma ScoredPointsStep(points: map<string, int>, bids: map<string, int>, won: map<string, int>, ids: seq<string>, i: nat)
    requires i < |ids|
    requires forall j :: 0 <= j < |ids| ==> ids[j] in points && ids[j] in bids && ids[j] in won
    ensures var before := ScoredPoints(points, bids, won, ids[..i]);
      ids[i] in before
      && ScoredPoints(points, bids, won, ids[..i + 1]) == before[ids[i] := before[ids[i]] + RoundDelta(bids[ids[i]], won[ids[i]])]
  {
    assert ids[..i + 1][..i] == ids[..i];
  }

  /** With the players listed once, each listed player's new score is the old one plus the round's delta, and nobody else's changes. */
  lemma {:induction false} ScoredPointsValues(points: map<string, int>, bids: map<string, int>, won: map<string, int>, ids: seq<string>)
    requires forall i :: 0 <= i < |ids| ==> ids[i] in points && ids[i] in bids && ids[i] in won
    requires Distinct(ids)
    ensures forall i :: 0 <= i < |ids| ==>
      ScoredPoints(points, bids, won, ids)[ids[i]] == points[ids[i]] + RoundDelta(bids[ids[i]], won[ids[i]])
    ensures forall k :: k in points && k !in ids ==> ScoredPoints(points, bids, won, ids)[k] == points[k]
  {
    if ids != [] {
      var init := ids[..|ids| - 1];
      var p := ids[|ids| - 1];
      assert Distinct(init);
      assert forall k :: k in init ==> k in ids;
      assert p !in init;
      ScoredPointsValues(points, bids, won, init);
    }
  }

  // ---- seats, hands and scores --------------------------------------------

  /** The seat i places after lead, going round the table of four. */
  function Seat(lead: int, i: int): (s: int)
    ensures 0 <= s < 4
    ensures s == (lead + i) % 4
  {
    var t := lead + i;
    if 0 <= t < 4 then t else if 4 <= t < 8 then t - 4 else t % 4
  }

  /** The checks of the constructor passed, spelt out for the four seats: a non-empty id at each, no id twice. */
  predicate Seated(ids: seq<string>) {
    |ids| == 4 && ids[0] != "" && ids[1] != "" && ids[2] != "" && ids[3] != ""
    && ids[0] != ids[1] && ids[0] != ids[2] && ids[0] != ids[3]
    && ids[1] != ids[2] && ids[1] != ids[3] && ids[2] != ids[3]
  }

  /** The constructor accepts exactly the seated player lists. */
  lemma SeatedIffAccepted(ids: seq<string>)
    ensures ValidatePlayers(ids) == None <==> Seated(ids)
  {
    if |ids| == 4 && Seated(ids) {
      assert forall i :: 0 <= i < 4 ==> ids[i] != "" by {
        forall i | 0 <= i < 4 ensures ids[i] != "" {
          assert i == 0 || i == 1 || i == 2 || i == 3;
        }
      }
      assert Distinct(ids) by {
        forall i, j | 0 <= i < j < 4 ensures ids[i] != ids[j] {
          assert i == 0 || i == 1 || i == 2;
        }
      }
    }
    if ValidatePlayers(ids) == None {
      assert ids[0] != ids[1] && ids[0] != ids[2] && ids[0] != ids[3];
      assert ids[1] != ids[2] && ids[1] != ids[3] && ids[2] != ids[3];
      assert ids[0] != "" && ids[1] != "" && ids[2] != "" && ids[3] != "";
    }
  }

  /** Seated players are distinct. */
  lemma SeatedDistinct(ids: seq<string>)
    requires Seated(ids)
    ensures Distinct(ids)
  {
    forall i, j | 0 <= i < j < 4 ensures ids[i] != ids[j] {
      assert i == 0 || i == 1 || i == 2;
    }
  }

  /** Each of the four players has an entry in m. */
  ghost predicate Keyed<V>(ids: seq<string>, m: map<string, V>) {
    |ids| == 4 && ids[0] in m && ids[1] in m && ids[2] in m && ids[3] in m
  }

  /** Keyed, quantified over the seats. */
  lemma KeyedAll<V>(ids: seq<string>, m: map<string, V>)
    requires Keyed(ids, m)
    ensures forall i :: 0 <= i < |ids| ==> ids[i] in m
  {
    forall i | 0 <= i < |ids| ensures ids[i] in m {
      assert i == 0 || i == 1 || i == 2 || i == 3;
    }
  }

  /** Going round from any lead, different steps land on different seats. */
  lemma SeatInjective(lead: int, i: int, j: int)
    requires 0 <= lead < 4 && 0 <= i < 4 && 0 <= j < 4 && i != j
    ensures Seat(lead, i) != Seat(lead, j)
  {
  }

  /** Zero and four places after the lead are both the lead's own seat. */
  lemma SeatFullCircle(lead: int)
    requires 0 <= lead < 4
    ensures Seat(lead, 4) == lead && Seat(lead, 0) == lead
  {
  }

  /** Going round from any lead reaches every seat within four steps. */
  lemma SeatReaches(lead: int, s: int)
    requires 0 <= lead < 4 && 0 <= s < 4
    ensures Seat(lead, (s - lead + 4) % 4) == s
  {
  }

  /** The seat after seat i from the lead is the next seat round the table. */
  lemma SeatNext(lead: int, i: int)
    requires 0 <= lead < 4 && 0 <= i < 4
    ensures Seat(lead, i + 1) == (Seat(lead, i) + 1) % 4
  {
  }

  /** Exactly the first |bids| seats from the lead have bid. */
  ghost predicate BidSeats(ids: seq<string>, lead: int, bids: map<string, int>)
    requires |ids| == 4
  {
    (ids[Seat(lead, 0)] in bids <==> 0 < |bids|) && (ids[Seat(lead, 1)] in bids <==> 1 < |bids|)
    && (ids[Seat(lead, 2)] in bids <==> 2 < |bids|) && (ids[Seat(lead, 3)] in bids <==> 3 < |bids|)
  }

  /** The seat |bids| places after the lead has not bid yet. */
  lemma NextBidderFresh(ids: seq<string>, lead: int, bids: map<string, int>)
    requires |ids| == 4 && 0 <= lead < 4 && |bids| < 4 && BidSeats(ids, lead, bids)
    ensures ids[Seat(lead, |bids|)] !in bids
  {
    var n := |bids|;
    assert n == 0 || n == 1 || n == 2 || n == 3;
  }

  /** A bid by the seat |bids| places after the lead makes it the next bidder in order. */
  lemma {:induction false} BidSeatsNext(ids: seq<string>, lead: int, bids: map<string, int>, bid: int)
    requires Seated(ids) && 0 <= lead < 4 && |bids| < 4 && BidSeats(ids, lead, bids)
    ensures var next := bids[ids[Seat(lead, |bids|)] := bid];
      |next| == |bids| + 1 && BidSeats(ids, lead, next)
  {
    var n := |bids|;
    var p := ids[Seat(lead, n)];
    NextBidderFresh(ids, lead, bids);
    var next := bids[p := bid];
    assert |next| == n + 1;
    forall j | 0 <= j < 4 && j != n
      ensures ids[Seat(lead, j)] != p
    {
      SeatInjective(lead, j, n);
    }
  }

  /** Once the four seats from the lead have bid, every player has. */
  lemma {:induction false} AllSeatsBid(ids: seq<string>, lead: int, bids: map<string, int>)
    requires |ids| == 4 && 0 <= lead < 4 && |bids| == 4 && BidSeats(ids, lead, bids)
    ensures Keyed(ids, bids)
  {
    SeatReaches(lead, 0);
    SeatReaches(lead, 1);
    SeatReaches(lead, 2);
    SeatReaches(lead, 3);
    forall s | 0 <= s < 4 ensures ids[s] in bids {
      var j := (s - lead + 4) % 4;
      assert j == 0 || j == 1 || j == 2 || j == 3;
    }
  }

  /** The cards in the listed players' hands, counted with multiplicity. */
  function HandsMultiset(hands: map<string, seq<Card>>, ids: seq<string>): multiset<Card> {
    if ids == [] then multiset{}
    else
      var last := ids[|ids| - 1];
      HandsMultiset(hands, ids[..|ids| - 1]) + (if last in hands then multiset(hands[last]) else multiset{})
  }

  /** Changing the hand of a player not listed does not change the listed players' cards. */
  lemma {:induction false} HandsFrame(hands: map<string, seq<Card>>, ids: seq<string>, p: string, h: seq<Card>)
    requires p !in ids
    ensures HandsMultiset(hands[p := h], ids) == HandsMultiset(hands, ids)
  {
    if ids != [] {
      HandsFrame(hands, ids[..|ids| - 1], p, h);
    }
  }

  /** Replacing the hand of a player listed once replaces that hand's cards in the count. */
  lemma {:induction false} HandsUpdate(hands: map<string, seq<Card>>, ids: seq<string>, p: string, h: seq<Card>)
    requires Distinct(ids) && p in ids && p in hands
    ensures HandsMultiset(hands[p := h], ids) + multiset(hands[p]) == HandsMultiset(hands, ids) + multiset(h)
  {
    var init := ids[..|ids| - 1];
    var last := ids[|ids| - 1];
    assert Distinct(init);
    assert HandsMultiset(hands[p := h], ids) ==
      HandsMultiset(hands[p := h], init) + (if last in hands[p := h] then multiset(hands[p := h][last]) else multiset{});
    if last == p {
      assert p !in init;
      HandsFrame(hands, init, p, h);
    } else {
      assert p in init;
      HandsUpdate(hands, init, p, h);
      var rest := if last in hands then multiset(hands[last]) else multiset{};
      assert HandsMultiset(hands[p := h], ids) == HandsMultiset(hands[p := h], init) + rest;
      assert HandsMultiset(hands, ids) == HandsMultiset(hands, init) + rest;
      var a, b := HandsMultiset(hands[p := h], init), HandsMultiset(hands, init);
      assert a + multiset(hands[p]) == b + multiset(h);
      assert (a + rest) + multiset(hands[p]) == (a + multiset(hands[p])) + rest;
      assert (b + rest) + multiset(h) == (b + multiset(h)) + rest;
    }
  }

  /** A listed player's hand is part of the count. */
  lemma {:induction false} HandInHands(hands: map<string, seq<Card>>, ids: seq<string>, p: string)
    requires p in ids && p in hands
    ensures multiset(hands[p]) <= HandsMultiset(hands, ids)
  {
    var init := ids[..|ids| - 1];
    if ids[|ids| - 1] != p {
      assert p in init;
      HandInHands(hands, init, p);
    }
  }

  /** Two listed players' hands are both part of the count. */
  lemma {:induction false} TwoHandsInHands(hands: map<string, seq<Card>>, ids: seq<string>, p: string, q: string)
    requires Distinct(ids) && p in ids && q in ids && p != q && p in hands && q in hands
    ensures multiset(hands[p]) + multiset(hands[q]) <= HandsMultiset(hands, ids)
  {
    var init := ids[..|ids| - 1];
    var last := ids[|ids| - 1];
    assert Distinct(init);
    if last == p {
      assert q in init;
      HandInHands(hands, init, q);
    } else if last == q {
      assert p in init;
      HandInHands(hands, init, p);
    } else {
      assert p in init && q in init;
      TwoHandsInHands(hands, init, p, q);
    }
  }

  /** A sequence without repeats holds each card at most once. */
  lemma {:induction false} DistinctMultiplicity(s: seq<Card>)
    requires forall i, j :: 0 <= i < j < |s| ==> s[i] != s[j]
    ensures forall c :: multiset(s)[c] <= 1
  {
    if s != [] {
      var init := s[..|s| - 1];
      DistinctMultiplicity(init);
      assert s == init + [s[|s| - 1]];
      assert s[|s| - 1] !in init;
    }
  }

  /** The hand without any copy of `card`, in hand order. */
  function Without(hand: seq<Card>, card: Card): seq<Card> {
    if hand == [] then []
    else (if hand[0] != card then [hand[0]] else []) + Without(hand[1..], card)
  }

  /** Filtering a card out keeps every other card, each as often as before, and drops every copy of that card. */
  lemma {:induction false} WithoutCounts(hand: seq<Card>, card: Card)
    ensures multiset(Without(hand, card)) == multiset(hand)[card := 0]
  {
    if hand != [] {
      WithoutCounts(hand[1..], card);
      assert hand == [hand[0]] + hand[1..];
    }
  }

  /** The seat determineGameWinner settles on: a later score takes over only when strictly greater. */
  function FirstBest(scores: seq<int>): (k: nat)
    requires |scores| > 0
    ensures k < |scores|
    ensures forall j :: 0 <= j < |scores| ==> scores[j] <= scores[k]
    ensures forall j :: 0 <= j < k ==> scores[j] < scores[k]
  {
    if |scores| == 1 then 0
    else
      var b := FirstBest(scores[..|scores| - 1]);
      if scores[|scores| - 1] > scores[b] then |scores| - 1 else b
  }

  /** Being maximal and strictly above every earlier score singles out FirstBest. */
  lemma {:induction false} FirstBestUnique(scores: seq<int>, k: nat)
    requires k < |scores|
    requires forall j :: 0 <= j < |scores| ==> scores[j] <= scores[k]
    requires forall j :: 0 <= j < k ==> scores[j] < scores[k]
    ensures FirstBest(scores) == k
  {
    var b := FirstBest(scores);
    assert !(b < k) && !(k < b);
  }

  /** The listed players' scores, seat by seat. */
  function ScoresOf(points: map<string, int>, ids: seq<string>): (scores: seq<int>)
    requires forall i :: 0 <= i < |ids| ==> ids[i] in points
    ensures |scores| == |ids| && forall i :: 0 <= i < |ids| ==> scores[i] == points[ids[i]]
  {
    seq(|ids|, i requires 0 <= i < |ids| => points[ids[i]])
  }

  /** The bidding order newRound records: the four players from seat start on. */
  function BiddingOrder(ids: seq<string>, start: int, n: nat): (order: seq<string>)
    requires |ids| == 4 && n <= 4
    ensures |order| == n && forall k :: 0 <= k < n ==> order[k] == ids[Seat(start, k)]
  {
    if n == 0 then [] else BiddingOrder(ids, start, n - 1) + [ids[Seat(start, n - 1)]]
  }

  /** Giving the next listed player a hand adds exactly that hand's cards to the count. */
  lemma DealStep(hands: map<string, seq<Card>>, ids: seq<string>, i: nat, h: seq<Card>)
    requires i < |ids| && Distinct(ids)
    ensures HandsMultiset(hands[ids[i] := h], ids[..i + 1]) == HandsMultiset(hands, ids[..i]) + multiset(h)
  {
    assert ids[i] !in ids[..i];
    HandsFrame(hands, ids[..i], ids[i], h);
    assert ids[..i + 1][..i] == ids[..i];
  }

  /** One step of the deal keeps every dealt hand a sorted hand of 13 cards. */
  lemma DealShapeStep(hands: map<string, seq<Card>>, ids: seq<string>, i: nat, hand: seq<Card>)
    requires i < |ids| && Distinct(ids)
    requires forall k :: 0 <= k < i ==> ids[k] in hands && |hands[ids[k]]| == HAND_SIZE && SortedHand(hands[ids[k]])
    requires |hand| == HAND_SIZE && SortedHand(hand)
    ensures forall k :: 0 <= k < i + 1 ==>
      ids[k] in hands[ids[i] := hand] && |hands[ids[i] := hand][ids[k]]| == HAND_SIZE
      && SortedHand(hands[ids[i] := hand][ids[k]])
  {
  }
}
