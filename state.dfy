/**
 * The class CallbreakState of callbreak-engine/src/state.ts: the four-phase
 * state machine of one game, holding the hands, bids, tricks, points and
 * history, updated in place by its methods.
 */
module EngineState {
  import opened Wrappers
  import opened Cards
  import opened CommonLogic
  import opened EngineLogic
  import opened StateRules

  const ERR_BID_PHASE := "Cannot submit a bid outside of the bidding phase."
  const ERR_BID_TURN := "It's not your turn to bid."
  const ERR_BID_RANGE := "Bid must be between 1 and 8."
  const ERR_PLAY_PHASE := "Cannot play cards outside of the playing phase."
  const ERR_PLAY_TURN := "It's not your turn to play."
  /** The TypeError of reading `includes` of the hand of a player who was never dealt one. */
  const ERR_NO_HAND := "Cannot read properties of undefined (reading 'includes')"
  const ERR_NOT_HELD := "You do not have this card."
  const ERR_INVALID_PLAY := "Invalid card played. You must follow the game rules."
  /** The TypeError of reading `card` of the first play of an empty trick. */
  const ERR_EMPTY_TRICK := "Cannot read properties of undefined (reading 'card')"

  /** A finished round as archiveRoundHistory records it. */
  datatype RoundHistory = RoundHistory(
    roundNumber: int,
    bids: map<string, int>,
    tricksWon: map<string, int>,
    playedTricks: seq<seq<Play>>,
    biddingOrder: seq<string>)

  /**
   * What toJSON returns. Maps become plain objects, modelled as Dafny maps
   * as well; the object keeps every entry of the Map it was made from.
   */
  datatype StateJson = StateJson(
    players: seq<string>,
    playerCards: map<string, seq<Card>>,
    turn: int,
    winner: Option<string>,
    roundNumber: int,
    bids: map<string, int>,
    points: map<string, int>,
    tricksWon: map<string, int>,
    phase: Phase,
    cardsHistory: seq<seq<Play>>,
    playedCards: seq<Play>,
    trickLeadPlayerIndex: int,
    roundHistory: seq<RoundHistory>,
    currentBiddingOrder: seq<string>)

  // ---- the invariant, on values ------------------------------------------

  /** The hands, the table and the tricks of the round together hold the 52 cards of the deck. */
  ghost predicate Conserved(ids: seq<string>, hands: map<string, seq<Card>>, played: seq<Play>, history: seq<seq<Play>>) {
    HandsMultiset(hands, ids) + multiset(TableCards(played)) + multiset(Flatten(history)) == multiset(StandardDeck())
  }

  /**
   * Either nothing is dealt and nothing played, or every player holds a hand
   * and has a trick count, and the counts add up to the tricks resolved.
   */
  ghost predicate CardsKeyed(ids: seq<string>, hands: map<string, seq<Card>>, played: seq<Play>,
                             history: seq<seq<Play>>, won: map<string, int>) {
    (hands == map[] && played == [])
    || (Keyed(ids, hands) && Keyed(ids, won) && WonTotal(ids, won) == |history|)
  }

  /** The tricks won by the four players together. */
  function WonTotal(ids: seq<string>, won: map<string, int>): int
    requires Keyed(ids, won)
  {
    won[ids[0]] + won[ids[1]] + won[ids[2]] + won[ids[3]]
  }

  /** A player's trick count, 0 when the map has no entry. */
  function TallyOf(won: map<string, int>, id: string): int {
    if id in won then won[id] else 0
  }

  /** The seat resolveTrick credits: the winning card's position in the trick, counted round the table from the lead. */
  function TrickWinner(lead: int, played: seq<Play>): (s: int)
    requires played != []
    ensures 0 <= s < 4
  {
    Seat(lead, WinnerPos(TableCards(played), |played|))
  }

  /** The i-th card on the table was put there by the seat i places after the lead (the fourth and any later one by the seat three after it). */
  ghost predicate TrickSeats(ids: seq<string>, lead: int, played: seq<Play>)
    requires |ids| == 4
  {
    forall i :: 0 <= i < |played| ==> played[i].player == ids[Seat(lead, Min(i, 3))]
  }

  /**
   * Whose turn it is: while bidding, the seat as many places after the lead
   * as bids are in, the bidders so far being the seats before it; while
   * playing, the seat as many places after the lead as cards are on the
   * table (at most three). Cards reach the table only after all four bids.
   */
  ghost predicate TurnOrder(ids: seq<string>, turn: int, lead: int, phase: Phase, bids: map<string, int>, played: seq<Play>) {
    |ids| == 4 && 0 <= turn < 4 && 0 <= lead < 4
    && (phase == Bidding ==> played == [] && |bids| < 4 && BidSeats(ids, lead, bids) && turn == Seat(lead, |bids|))
    && (phase == Playing ==> Keyed(ids, bids) && turn == Seat(lead, Min(|played|, 3)))
    && (played != [] ==> Keyed(ids, bids))
    && TrickSeats(ids, lead, played)
  }

  function Min(a: int, b: int): int {
    if a < b then a else b
  }

  /** Every hand has been played out. */
  predicate AllHandsEmpty(hands: map<string, seq<Card>>) {
    forall k :: k in hands ==> hands[k] == []
  }

  // ---- the invariant kept by each step, on values -------------------------

  /** A valid bid by the player whose turn it is keeps the turn order: the next seat bids, or after the fourth bid the lead plays. */
  lemma BidTurnOrder(ids: seq<string>, turn: int, lead: int, bids: map<string, int>, bid: int)
    requires Seated(ids) && TurnOrder(ids, turn, lead, Bidding, bids, [])
    ensures |bids[ids[turn] := bid]| == |bids| + 1
    ensures |bids| + 1 < 4 ==> TurnOrder(ids, (turn + 1) % 4, lead, Bidding, bids[ids[turn] := bid], [])
    ensures |bids| + 1 == 4 ==> TurnOrder(ids, lead, lead, Playing, bids[ids[turn] := bid], [])
  {
    BidSeatsNext(ids, lead, bids, bid);
    SeatNext(lead, |bids|);
    if |bids| + 1 == 4 {
      AllSeatsBid(ids, lead, bids[ids[turn] := bid]);
      assert Seat(lead, Min(0, 3)) == lead;
    }
  }

  /** Playing a card from the hand of the player whose turn it is puts it at the right seat of the trick and passes the turn on while fewer than four cards are down. */
  lemma PlayTurnOrder(ids: seq<string>, turn: int, lead: int, bids: map<string, int>, played: seq<Play>, c: Card)
    requires TurnOrder(ids, turn, lead, Playing, bids, played)
    ensures TurnOrder(ids, if |played| + 1 < 4 then (turn + 1) % 4 else turn, lead, Playing, bids, played + [Play(ids[turn], c)])
  {
    var next := played + [Play(ids[turn], c)];
    if |played| + 1 < 4 {
      SeatNext(lead, |played|);
    }
    forall i | 0 <= i < |next| ensures next[i].player == ids[Seat(lead, Min(i, 3))] {
      if i < |played| {
        assert next[i] == played[i];
      }
    }
  }

  /** The cards of the deck are distinct, so a card occurs at most once among them. */
  lemma DeckOnce()
    ensures forall c :: multiset(StandardDeck())[c] <= 1
  {
    StandardDeckDistinct();
    DistinctMultiplicity(StandardDeck());
  }

  /** Once dealt, a card a player holds is held once: the deck has no repeats. */
  lemma {:induction false} HeldOnce(ids: seq<string>, hands: map<string, seq<Card>>, played: seq<Play>,
                                    history: seq<seq<Play>>, p: string, c: Card)
    requires p in ids && p in hands && c in hands[p]
    requires Conserved(ids, hands, played, history)
    ensures multiset(hands[p])[c] == 1
  {
    HandInHands(hands, ids, p);
    DeckOnce();
    assert HandsMultiset(hands, ids)[c] <= multiset(StandardDeck())[c];
  }

  /** Taking a card held once out of one hand takes exactly that card out of all the hands. */
  lemma {:induction false} TakeFromHands(ids: seq<string>, hands: map<string, seq<Card>>, p: string, c: Card)
    requires Distinct(ids) && p in ids && p in hands && multiset(hands[p])[c] == 1
    ensures HandsMultiset(hands[p := Without(hands[p], c)], ids) + multiset{c} == HandsMultiset(hands, ids)
  {
    var h := hands[p];
    var rest := Without(h, c);
    WithoutCounts(h, c);
    HandsUpdate(hands, ids, p, rest);
    var before, after := HandsMultiset(hands, ids), HandsMultiset(hands[p := rest], ids);
    forall x ensures (after + multiset{c})[x] == before[x] {
      assert (after + multiset(h))[x] == (before + multiset(rest))[x];
    }
  }

  /** A play added to the trick adds its card to the cards on the table. */
  lemma TableCardsPush(played: seq<Play>, p: Play)
    ensures TableCards(played + [p]) == TableCards(played) + [p.card]
  {
    assert (played + [p])[..|played|] == played;
  }

  /** Moving a held card from a player's hand to the table keeps every card accounted for. */
  lemma {:induction false} TakeConserves(ids: seq<string>, hands: map<string, seq<Card>>, played: seq<Play>,
                                         history: seq<seq<Play>>, p: string, c: Card)
    requires Distinct(ids) && p in ids && p in hands && c in hands[p]
    requires Conserved(ids, hands, played, history)
    ensures Conserved(ids, hands[p := Without(hands[p], c)], played + [Play(p, c)], history)
  {
    HeldOnce(ids, hands, played, history, p, c);
    TakeFromHands(ids, hands, p, c);
    TableCardsPush(played, Play(p, c));
  }

  /** Moving the cards of the table onto the list of finished tricks keeps every card accounted for. */
  lemma CollectConserves(ids: seq<string>, hands: map<string, seq<Card>>, played: seq<Play>, history: seq<seq<Play>>)
    requires Conserved(ids, hands, played, history)
    ensures Conserved(ids, hands, [], history + [played])
  {
    assert (history + [played])[..|history|] == history;
  }

  /** A fresh deal, with nothing on the table or in the tricks, accounts for every card. */
  lemma DealConserves(ids: seq<string>, hands: map<string, seq<Card>>)
    requires FullDeal(hands, ids)
    ensures Conserved(ids, hands, [], [])
  {
    assert TableCards([]) == [] && Flatten([]) == [];
  }

  /** While the cards are accounted for, no card is in two players' hands. */
  lemma {:induction false} HandsDisjoint(ids: seq<string>, hands: map<string, seq<Card>>, played: seq<Play>,
                                         history: seq<seq<Play>>, p: string, q: string, c: Card)
    requires Distinct(ids) && p in ids && q in ids && p != q && p in hands && q in hands
    requires Conserved(ids, hands, played, history)
    ensures c in hands[p] ==> c !in hands[q]
  {
    if c in hands[p] {
      TwoHandsInHands(hands, ids, p, q);
      DeckOnce();
      assert (multiset(hands[p]) + multiset(hands[q]))[c] <= multiset(StandardDeck())[c];
    }
  }

  /** Crediting one more trick to a seated player adds one to the total. */
  lemma CreditTotal(ids: seq<string>, won: map<string, int>, t: int)
    requires Seated(ids) && Keyed(ids, won) && 0 <= t < 4
    ensures Keyed(ids, won[ids[t] := TallyOf(won, ids[t]) + 1])
    ensures WonTotal(ids, won[ids[t] := TallyOf(won, ids[t]) + 1]) == WonTotal(ids, won) + 1
  {
    assert t == 0 || t == 1 || t == 2 || t == 3;
  }

  /** In a trick of at most four cards, the seat credited is the seat that played the winning card. */
  lemma TrickWinnerPlayed(ids: seq<string>, lead: int, played: seq<Play>)
    requires |ids| == 4 && 0 <= lead < 4 && 1 <= |played| <= 4 && TrickSeats(ids, lead, played)
    ensures ids[TrickWinner(lead, played)] == played[WinnerPos(TableCards(played), |played|)].player
  {
    var w := WinnerPos(TableCards(played), |played|);
    assert Min(w, 3) == w;
  }

  /**
   * A fifth card on the table comes from the seat three after the lead
   * playing again; when it wins the trick, the credit goes to the lead, who
   * did not play it.
   */
  lemma FifthCardMiscredited(ids: seq<string>, lead: int, played: seq<Play>)
    requires Seated(ids) && 0 <= lead < 4 && |played| == 5 && TrickSeats(ids, lead, played)
    requires WinnerPos(TableCards(played), 5) == 4
    ensures ids[TrickWinner(lead, played)] == ids[lead] != played[4].player
  {
    assert TrickWinner(lead, played) == lead by {
      assert TrickWinner(lead, played) == Seat(lead, 4);
      SeatFullCircle(lead);
    }
    assert played[4].player != ids[lead] by {
      assert played[4].player == ids[Seat(lead, Min(4, 3))];
      SeatFullCircle(lead);
      SeatInjective(lead, 0, 3);
    }
  }

  /** Such a trick: four hearts, then a spade (the trump) from the fourth seat, which wins. */
  lemma FifthCardCanWin()
    ensures var played := [Play("north", "2H"), Play("east", "3H"), Play("south", "4H"), Play("west", "5H"), Play("west", "AS")];
            TrickSeats(["north", "east", "south", "west"], 0, played) && WinnerPos(TableCards(played), 5) == 4
  {
    var ids := ["north", "east", "south", "west"];
    var played := [Play("north", "2H"), Play("east", "3H"), Play("south", "4H"), Play("west", "5H"), Play("west", "AS")];
    forall i | 0 <= i < |played| ensures played[i].player == ids[Seat(0, Min(i, 3))] {
      assert i == 0 || i == 1 || i == 2 || i == 3 || i == 4;
    }
    var cards := TableCards(played);
    assert cards == ["2H", "3H", "4H", "5H", "AS"];
    assert WinnerPos(cards, 4) == 3 by {
      assert Beats(cards[1], cards[0], 'H');
      assert Beats(cards[2], cards[1], 'H');
      assert Beats(cards[3], cards[2], 'H');
    }
    assert Beats(cards[4], cards[3], 'H');
  }

  // ---- the class ----------------------------------------------------------

  class CallbreakState {
    const players: seq<string>
    var playerCards: map<string, seq<Card>>
    var turn: int
    var winner: Option<string>
    var roundNumber: int
    var bids: map<string, int>
    /** Points in tenths: a score of 3.2 is held as 32. */
    var points: map<string, int>
    var tricksWon: map<string, int>
    var phase: Phase
    var cardsHistory: seq<seq<Play>>
    var playedCards: seq<Play>
    var trickLeadPlayerIndex: int
    var roundHistory: seq<RoundHistory>
    var currentBiddingOrder: seq<string>

    /** Four distinct non-empty ids, each with a score. */
    ghost predicate ValidRoster()
      reads this`points
    {
      Seated(players) && Keyed(players, points)
    }

    /** Cards are dealt to all players or to none, and none is played before the deal; every resolved trick is credited to one player. */
    ghost predicate ValidCards()
      reads this`playerCards, this`playedCards, this`cardsHistory, this`tricksWon
    {
      CardsKeyed(players, playerCards, playedCards, cardsHistory, tricksWon)
    }

    /** Whose turn it is follows from the lead and the bids or cards so far. */
    ghost predicate ValidTurn()
      reads this`turn, this`trickLeadPlayerIndex, this`phase, this`bids, this`playedCards
    {
      TurnOrder(players, turn, trickLeadPlayerIndex, phase, bids, playedCards)
    }

    ghost predicate Valid()
      reads this
    {
      ValidRoster() && ValidCards() && ValidTurn()
    }

    /** The state the constructor leaves: no hands, no bids, everyone on 0 points, bidding from seat 0. */
    ghost predicate Initial(ids: seq<string>)
      reads this
    {
      players == ids && playerCards == map[] && turn == 0 && winner == None && roundNumber == 0
      && bids == map[] && points == ZeroMap(ids) && tricksWon == map[] && phase == Bidding
      && cardsHistory == [] && playedCards == [] && trickLeadPlayerIndex == 0
      && roundHistory == [] && currentBiddingOrder == []
    }

    /** The constructor, for a player list it accepts. */
    constructor (ids: seq<string>)
      requires ValidatePlayers(ids) == None
      ensures Initial(ids) && Valid()
    {
      SeatedIffAccepted(ids);
      var scores := ZeroTally(ids);
      players := ids;
      playerCards := map[];
      turn := 0;
      winner := None;
      roundNumber := 0;
      bids := map[];
      points := scores;
      tricksWon := map[];
      phase := Bidding;
      cardsHistory := [];
      playedCards := [];
      trickLeadPlayerIndex := 0;
      roundHistory := [];
      currentBiddingOrder := [];
    }

    /** new CallbreakState(players): throws the first failed check's message, else the initial state. */
    static method Create(ids: seq<string>) returns (r: Result<CallbreakState, string>)
      ensures ValidatePlayers(ids).Some? ==> r == Failure(ValidatePlayers(ids).value)
      ensures ValidatePlayers(ids).None? ==> r.Success? && fresh(r.value) && r.value.Initial(ids) && r.value.Valid()
    {
      var err := ValidatePlayers(ids);
      if err.Some? {
        return Failure(err.value);
      }
      var s := new CallbreakState(ids);
      return Success(s);
    }

    // ---- newRound ----

    /**
     * newRound: past the last round only moves to game_over; otherwise deals
     * 13 sorted cards of a shuffled deck to each player, resets bids, tricks
     * and table, fixes the lead and the bidding order, and opens bidding.
     */
    method NewRound()
      requires Valid()
      modifies this`roundNumber, this`phase, this`playerCards, this`bids, this`tricksWon, this`cardsHistory
      modifies this`playedCards, this`turn, this`trickLeadPlayerIndex, this`currentBiddingOrder
      ensures Valid()
      ensures old(roundNumber) >= TOTAL_ROUNDS ==>
        phase == GameOver && playerCards == old(playerCards) && turn == old(turn)
        && roundNumber == old(roundNumber) && bids == old(bids)
        && tricksWon == old(tricksWon) && cardsHistory == old(cardsHistory) && playedCards == old(playedCards)
        && trickLeadPlayerIndex == old(trickLeadPlayerIndex) && currentBiddingOrder == old(currentBiddingOrder)
      ensures old(roundNumber) < TOTAL_ROUNDS ==>
        roundNumber == old(roundNumber) + 1 && turn == (if old(roundNumber) == 0 then 1 else old(turn))
        && phase == Bidding && playedCards == [] && FreshRound()
    {
      if roundNumber >= TOTAL_ROUNDS {
        EndGame();
        return;
      }
      var isFirstRound := roundNumber == 0;
      roundNumber := roundNumber + 1;
      StartRound(isFirstRound);
      FreshRoundValid();
    }

    /** What newRound leaves behind when it deals: every player holds 13 sorted cards of a full deck, nothing is bid, won or played, and bidding opens at the lead. */
    ghost predicate FreshRound()
      reads this
    {
      FreshHands() && FreshTallies() && FreshBidding()
    }

    /** Every player holds 13 sorted cards and together they hold the whole deck. */
    ghost predicate FreshHands()
      reads this`playerCards
    {
      FullDeal(playerCards, players)
    }

    /** Nothing is bid, won or played yet. */
    ghost predicate FreshTallies()
      reads this`bids, this`tricksWon, this`cardsHistory, this`playedCards
    {
      bids == map[] && tricksWon == ZeroMap(players) && cardsHistory == [] && playedCards == []
    }

    /** Bidding is open and the turn is at the lead, with the bidding order running from there. */
    ghost predicate FreshBidding()
      reads this`turn, this`trickLeadPlayerIndex, this`currentBiddingOrder, this`phase
    {
      trickLeadPlayerIndex == turn && phase == Bidding
      && |players| == 4 && currentBiddingOrder == BiddingOrder(players, turn, 4)
    }

    /** newRound once every round is played: the game is over and nothing else changes. */
    method EndGame()
      requires ValidTurn()
      modifies this`phase
      ensures ValidTurn() && phase == GameOver
    {
      phase := GameOver;
    }

    /** The body of newRound after the round counter moves on: deal, reset, choose the lead, record the bidding order. */
    method StartRound(isFirstRound: bool)
      requires Seated(players) && 0 <= turn < 4
      requires isFirstRound ==> roundNumber == 1
      modifies this`playerCards, this`bids, this`tricksWon, this`cardsHistory, this`playedCards
      modifies this`turn, this`trickLeadPlayerIndex, this`currentBiddingOrder, this`phase
      ensures FreshRound()
      ensures turn == (if isFirstRound then 1 else old(turn))
    {
      DealRound();
      ClearRound();
      OpenBidding(isFirstRound);
    }

    /** newRound's deal: every player receives a sorted 13-card hand from a freshly shuffled deck. */
    method DealRound()
      requires Seated(players)
      modifies this`playerCards
      ensures FreshHands()
    {
      playerCards := DealHands(players, playerCards);
    }

    /** newRound's reset of bids, tricks won and the table. */
    method ClearRound()
      modifies this`bids, this`tricksWon, this`cardsHistory, this`playedCards
      ensures FreshTallies()
    {
      bids := map[];
      tricksWon := ZeroTally(players);
      cardsHistory := [];
      playedCards := [];
    }

    /** newRound's choice of the lead (dealer rotation in the first round, else the last trick's winner) and the bidding order from it. */
    method OpenBidding(isFirstRound: bool)
      requires |players| == 4 && 0 <= turn < 4
      requires isFirstRound ==> roundNumber == 1
      modifies this`turn, this`trickLeadPlayerIndex, this`currentBiddingOrder, this`phase
      ensures turn == (if isFirstRound then 1 else old(turn)) && FreshBidding()
    {
      if isFirstRound {
        // players.length is 4 here
        var dealerIndex := (roundNumber - 1) % 4;
        turn := (dealerIndex + 1) % 4;
        trickLeadPlayerIndex := turn;
      } else {
        trickLeadPlayerIndex := turn;
      }
      currentBiddingOrder := BiddingOrderFrom(players, turn);
      phase := Bidding;
    }

    /** A freshly dealt round is a valid state. */
    lemma FreshRoundValid()
      requires ValidRoster() && 0 <= turn < 4
      requires FreshRound()
      ensures Valid()
    {
      assert Seat(turn, 0) == turn;
    }

    // ---- submitBid ----

    /**
     * submitBid: rejects a bid outside the bidding phase, out of turn or
     * outside 1..8, changing nothing; otherwise records it and passes the
     * turn on, or after the fourth bid opens play at the trick lead.
     */
    method SubmitBid(playerId: string, bid: int) returns (r: Outcome<string>)
      requires Valid()
      modifies this`bids, this`turn, this`phase
      ensures Valid()
      ensures old(phase) != Bidding ==> r == Fail(ERR_BID_PHASE)
      ensures old(phase) == Bidding && players[old(turn)] != playerId ==> r == Fail(ERR_BID_TURN)
      ensures old(phase) == Bidding && players[old(turn)] == playerId && !(1 <= bid <= 8) ==> r == Fail(ERR_BID_RANGE)
      ensures old(phase) == Bidding && players[old(turn)] == playerId && 1 <= bid <= 8 ==> r == Pass
      ensures r.Fail? ==> bids == old(bids) && turn == old(turn) && phase == old(phase)
      ensures r.Pass? ==> BidTaken(playerId, bid)
    {
      if phase != Bidding {
        return Fail(ERR_BID_PHASE);
      }
      if players[turn] != playerId {
        return Fail(ERR_BID_TURN);
      }
      if bid < 1 || bid > 8 {
        return Fail(ERR_BID_RANGE);
      }
      RecordBid(bid);
      return Pass;
    }

    /**
     * The state after playerId's bid: the bid is recorded, a new entry, and
     * the turn moves on, or after the fourth bid play opens at the lead;
     * nothing else changes.
     */
    twostate predicate BidTaken(playerId: string, bid: int)
      reads this
    {
      bids == old(bids)[playerId := bid] && |bids| == |old(bids)| + 1
      && (|bids| < 4 ==> phase == Bidding && turn == (old(turn) + 1) % 4)
      && (|bids| == 4 ==> phase == Playing && turn == trickLeadPlayerIndex)
      && unchanged(this`playerCards, this`winner, this`roundNumber, this`points, this`tricksWon, this`cardsHistory)
      && unchanged(this`playedCards, this`trickLeadPlayerIndex, this`roundHistory, this`currentBiddingOrder)
    }

    /** The effect of an accepted bid: the bidder's entry is set and the turn moves on, or play opens at the lead. */
    method RecordBid(bid: int)
      requires Seated(players) && phase == Bidding && ValidTurn()
      modifies this`bids, this`turn, this`phase
      ensures ValidTurn()
      ensures bids == old(bids)[players[old(turn)] := bid] && |bids| == |old(bids)| + 1
      ensures |bids| < 4 ==> phase == Bidding && turn == (old(turn) + 1) % 4
      ensures |bids| == 4 ==> phase == Playing && turn == trickLeadPlayerIndex
    {
      BidTurnOrder(players, turn, trickLeadPlayerIndex, bids, bid);
      bids := bids[players[turn] := bid];
      turn := (turn + 1) % 4;
      if |bids| == 4 {
        phase := Playing;
        turn := trickLeadPlayerIndex;
      }
    }

    /** While bidding, the player whose turn it is has not bid yet, so each player bids once a round. */
    lemma TurnNotYetBid()
      requires Valid() && phase == Bidding
      ensures players[turn] !in bids
    {
      NextBidderFresh(players, trickLeadPlayerIndex, bids);
    }

    // ---- playCard ----

    /**
     * playCard: rejects a play outside the playing phase, out of turn, by a
     * player with no hand (a TypeError), of a card not held, or one
     * isValidPlay refuses, changing nothing; otherwise moves the card from
     * the hand to the table and passes the turn on while fewer than four
     * cards are down.
     */
    method PlayCard(playerId: string, card: Card) returns (r: Outcome<string>)
      requires Valid()
      modifies this`playerCards, this`playedCards, this`turn
      ensures Valid()
      ensures r == PlayCheck(old(playerCards), old(playedCards), old(turn), playerId, card)
      ensures r.Fail? ==> playerCards == old(playerCards) && playedCards == old(playedCards) && turn == old(turn)
      ensures r.Pass? ==> old(playerId in playerCards) && CardTaken(playerId, card)
    {
      r := PlayCheck(playerCards, playedCards, turn, playerId, card);
      if r.Pass? {
        PlayTurnOrder(players, turn, trickLeadPlayerIndex, bids, playedCards, card);
        TakeCard(card);
      }
    }

    /**
     * A play playCard accepts keeps the deck's cards accounted for: the hands,
     * the table and the finished tricks still hold the 52 cards.
     */
    twostate lemma PlayConserves(playerId: string, card: Card)
      requires Seated(players) && old(0 <= turn < 4)
      requires old(PlayCheck(playerCards, playedCards, turn, playerId, card)).Pass? && CardTaken(playerId, card)
      ensures old(Conserved(players, playerCards, playedCards, cardsHistory)) ==> Conserved(players, playerCards, playedCards, cardsHistory)
    {
      if old(Conserved(players, playerCards, playedCards, cardsHistory)) {
        TakeConserves(players, old(playerCards), old(playedCards), cardsHistory, playerId, card);
      }
    }

    /**
     * The state after playerId plays card: it leaves their hand for the
     * table, and the turn moves on while fewer than four cards are down;
     * nothing else changes.
     */
    twostate predicate CardTaken(playerId: string, card: Card)
      requires old(playerId in playerCards)
      reads this
    {
      playedCards == old(playedCards) + [Play(playerId, card)]
      && playerCards == old(playerCards)[playerId := Without(old(playerCards)[playerId], card)]
      && turn == (if |playedCards| < 4 then (old(turn) + 1) % 4 else old(turn))
      && unchanged(this`winner, this`roundNumber, this`bids, this`points, this`tricksWon, this`phase, this`cardsHistory)
      && unchanged(this`trickLeadPlayerIndex, this`roundHistory, this`currentBiddingOrder)
    }

    /** The checks of playCard in the order it makes them: the message of the first that fails, or Pass. */
    function PlayCheck(hands: map<string, seq<Card>>, played: seq<Play>, seat: int, playerId: string, card: Card): (r: Outcome<string>)
      requires 0 <= seat < |players|
      reads this`phase
      ensures r.Pass? ==> phase == Playing && players[seat] == playerId && playerId in hands && card in hands[playerId]
      ensures r.Pass? <==> phase == Playing && players[seat] == playerId && playerId in hands && card in hands[playerId]
                           && IsValidPlay(hands[playerId], TableCards(played), card)
    {
      if phase != Playing then Fail(ERR_PLAY_PHASE)
      else if players[seat] != playerId then Fail(ERR_PLAY_TURN)
      else if playerId !in hands then Fail(ERR_NO_HAND)
      else if card !in hands[playerId] then Fail(ERR_NOT_HELD)
      else if !IsValidPlay(hands[playerId], TableCards(played), card) then Fail(ERR_INVALID_PLAY)
      else Pass
    }

    /** The effect of an accepted play: the card leaves the player's hand for the table, and the turn moves on while the trick is short of four. */
    method TakeCard(card: Card)
      requires 0 <= turn < |players| && players[turn] in playerCards
      modifies this`playerCards, this`playedCards, this`turn
      ensures playedCards == old(playedCards) + [Play(players[old(turn)], card)]
      ensures playerCards == old(playerCards)[players[old(turn)] := Without(old(playerCards)[players[old(turn)]], card)]
      ensures turn == (if |playedCards| < 4 then (old(turn) + 1) % 4 else old(turn))
    {
      var p := players[turn];
      playedCards := playedCards + [Play(p, card)];
      playerCards := playerCards[p := Without(playerCards[p], card)];
      if |playedCards| < 4 {
        turn := (turn + 1) % 4;
      }
    }

    // ---- resolveTrick ----

    /**
     * resolveTrick: with no card on the table it fails on reading the first
     * play (a TypeError) and changes nothing. Otherwise it credits the trick
     * to the seat of its winning card counted from the lead, files the trick,
     * clears the table and hands the lead and the turn to that seat; when
     * every hand is then empty it scores the round, archives it and ends the
     * round, or after the last round the game with its winner.
     */
    method ResolveTrick() returns (r: Result<string, string>)
      requires Valid()
      modifies this`tricksWon, this`cardsHistory, this`playedCards, this`turn, this`trickLeadPlayerIndex
      modifies this`points, this`roundHistory, this`phase, this`winner
      ensures Valid()
      ensures old(playedCards) == [] ==> r == Failure(ERR_EMPTY_TRICK) && unchanged(this)
      ensures old(playedCards) != [] ==>
        r == Success(players[TrickWinner(old(trickLeadPlayerIndex), old(playedCards))])
        && TrickCollected(old(tricksWon), old(cardsHistory), old(playedCards), old(trickLeadPlayerIndex))
      ensures old(playedCards) != [] && !AllHandsEmpty(playerCards) ==>
        points == old(points) && roundHistory == old(roundHistory) && phase == old(phase) && winner == old(winner)
      ensures old(playedCards) != [] && AllHandsEmpty(playerCards) ==> RoundEnded(old(points), old(roundHistory), old(winner))
    {
      if playedCards == [] {
        r := Failure(ERR_EMPTY_TRICK);
      } else {
        var winnerId := CollectTrick();
        FinishTrick();
        r := Success(winnerId);
      }
    }

    /** After the trick is filed: the round ends if every hand is empty, otherwise nothing more happens. */
    method FinishTrick()
      requires Valid() && playedCards == [] && Keyed(players, bids) && Keyed(players, tricksWon)
      modifies this`points, this`roundHistory, this`phase, this`winner
      ensures Valid()
      ensures !AllHandsEmpty(playerCards) ==>
        points == old(points) && roundHistory == old(roundHistory) && phase == old(phase) && winner == old(winner)
      ensures AllHandsEmpty(playerCards) ==> RoundEnded(old(points), old(roundHistory), old(winner))
    {
      if AllHandsEmpty(playerCards) {
        EndRound();
      }
    }

    /**
     * The state after the trick played0, led from seat lead0, is collected:
     * the winner's count goes up by one, the trick joins the history, the
     * table is empty and the winner has the lead and the turn.
     */
    ghost predicate TrickCollected(won0: map<string, int>, history0: seq<seq<Play>>, played0: seq<Play>, lead0: int)
      requires played0 != [] && |players| == 4
      reads this`tricksWon, this`cardsHistory, this`playedCards, this`turn, this`trickLeadPlayerIndex
    {
      var w := TrickWinner(lead0, played0);
      tricksWon == won0[players[w] := TallyOf(won0, players[w]) + 1]
      && cardsHistory == history0 + [played0] && playedCards == [] && turn == w && trickLeadPlayerIndex == w
    }

    /**
     * Collecting a trick keeps the deck's cards accounted for: the table's
     * cards join the finished tricks and no hand changes.
     */
    twostate lemma TrickConserves()
      requires old(playedCards) != [] && |players| == 4 && playerCards == old(playerCards)
      requires TrickCollected(old(tricksWon), old(cardsHistory), old(playedCards), old(trickLeadPlayerIndex))
      ensures old(Conserved(players, playerCards, playedCards, cardsHistory)) ==> Conserved(players, playerCards, playedCards, cardsHistory)
    {
      if old(Conserved(players, playerCards, playedCards, cardsHistory)) {
        CollectConserves(players, playerCards, old(playedCards), old(cardsHistory));
      }
    }

    /** The part of resolveTrick that every trick goes through: find the winner, credit and file the trick, pass the lead. */
    method CollectTrick() returns (winnerId: string)
      requires Valid() && playedCards != []
      modifies this`tricksWon, this`cardsHistory, this`playedCards, this`turn, this`trickLeadPlayerIndex
      ensures Valid() && Keyed(players, bids) && Keyed(players, tricksWon)
      ensures winnerId == players[TrickWinner(old(trickLeadPlayerIndex), old(playedCards))]
      ensures TrickCollected(old(tricksWon), old(cardsHistory), old(playedCards), old(trickLeadPlayerIndex))
    {
      var winnerIndex := ScanWinner();
      CreditTotal(players, tricksWon, winnerIndex);
      CreditTrick(winnerIndex);
      winnerId := players[winnerIndex];
    }

    /** The winner's count goes up by one, the trick is filed and the table cleared, and the winner leads. */
    method CreditTrick(winnerIndex: int)
      requires 0 <= winnerIndex < |players|
      modifies this`tricksWon, this`cardsHistory, this`playedCards, this`turn, this`trickLeadPlayerIndex
      ensures tricksWon == old(tricksWon)[players[winnerIndex] := TallyOf(old(tricksWon), players[winnerIndex]) + 1]
      ensures cardsHistory == old(cardsHistory) + [old(playedCards)] && playedCards == []
      ensures turn == winnerIndex && trickLeadPlayerIndex == winnerIndex
    {
      var winnerId := players[winnerIndex];
      tricksWon := tricksWon[winnerId := TallyOf(tricksWon, winnerId) + 1];
      cardsHistory := cardsHistory + [playedCards];
      playedCards := [];
      turn := winnerIndex;
      trickLeadPlayerIndex := winnerIndex;
    }

    /**
     * How the round ends: every player's score moves by the round's delta, the
     * round goes into the history, and the phase is round_over, or game_over
     * with the winner chosen once the last round is played.
     */
    ghost predicate RoundEnded(points0: map<string, int>, history0: seq<RoundHistory>, winner0: Option<string>)
      requires Keyed(players, points0) && Keyed(players, bids) && Keyed(players, tricksWon)
      reads this
    {
      points == ScoredPoints(points0, bids, tricksWon, players)
      && roundHistory == history0 + [RoundHistory(roundNumber, bids, tricksWon, cardsHistory, currentBiddingOrder)]
      && (roundNumber < TOTAL_ROUNDS ==> phase == RoundOver && winner == winner0)
      && (roundNumber >= TOTAL_ROUNDS ==> phase == GameOver && winner == Some(players[FirstBest(ScoresOf(points, players))]))
    }

    /** The scan of resolveTrick: the seat of the card no later card beats, counted round the table from the lead. */
    method ScanWinner() returns (winnerIndex: int)
      requires playedCards != [] && 0 <= trickLeadPlayerIndex < 4 && |players| == 4
      ensures winnerIndex == TrickWinner(trickLeadPlayerIndex, playedCards)
    {
      ghost var cards := TableCards(playedCards);
      var winningPlay := playedCards[0];
      winnerIndex := trickLeadPlayerIndex;
      var leadingSuit := GetSuit(playedCards[0].card);
      ghost var w := 0;
      for i := 1 to |playedCards|
        invariant w == WinnerPos(cards, i) && winningPlay == playedCards[w]
        invariant winnerIndex == Seat(trickLeadPlayerIndex, w)
      {
        var currentPlay := playedCards[i];
        if Beats(currentPlay.card, winningPlay.card, leadingSuit) {
          winningPlay := currentPlay;
          winnerIndex := (trickLeadPlayerIndex + i) % |players|;
          w := i;
        }
      }
    }

    /** The end of a round once every hand is empty: score, archive, and close the round or the game. */
    method EndRound()
      requires ValidRoster() && ValidTurn() && playedCards == [] && Keyed(players, bids) && Keyed(players, tricksWon)
      modifies this`points, this`roundHistory, this`phase, this`winner
      ensures ValidRoster() && ValidTurn()
      ensures RoundEnded(old(points), old(roundHistory), old(winner))
    {
      UpdatePoints();
      ArchiveRoundHistory();
      CloseRound();
    }

    /** The phase after the last trick of a round: round_over, or game_over with its winner after the last round. */
    method CloseRound()
      requires ValidRoster() && ValidTurn() && playedCards == []
      modifies this`phase, this`winner
      ensures ValidTurn()
      ensures roundNumber < TOTAL_ROUNDS ==> phase == RoundOver && winner == old(winner)
      ensures roundNumber >= TOTAL_ROUNDS ==> phase == GameOver && winner == Some(players[FirstBest(ScoresOf(points, players))])
    {
      phase := RoundOver;
      if roundNumber >= TOTAL_ROUNDS {
        phase := GameOver;
        DetermineGameWinner();
      }
    }

    /** updatePoints: each player in seat order gains RoundDelta of their bid and tricks won (a loss of the bid when short). */
    method UpdatePoints()
      requires ValidRoster() && Keyed(players, bids) && Keyed(players, tricksWon)
      modifies this`points
      ensures ValidRoster()
      ensures points == ScoredPoints(old(points), bids, tricksWon, players)
    {
      KeyedAll(players, points);
      KeyedAll(players, bids);
      KeyedAll(players, tricksWon);
      points := ScoreRound(players, points, bids, tricksWon);
    }

    /** archiveRoundHistory: the round's number, bids, tricks won, tricks played and bidding order, appended to the history. */
    method ArchiveRoundHistory()
      modifies this`roundHistory
      ensures roundHistory == old(roundHistory) + [RoundHistory(roundNumber, bids, tricksWon, cardsHistory, currentBiddingOrder)]
    {
      var historyEntry := RoundHistory(roundNumber, bids, tricksWon, cardsHistory, currentBiddingOrder);
      roundHistory := roundHistory + [historyEntry];
    }

    /**
     * determineGameWinner: the first player in seat order with the highest
     * score (a later player takes over only with strictly more points; the
     * first always beats the starting -Infinity, modelled as None).
     */
    method DetermineGameWinner()
      requires Seated(players) && Keyed(players, points)
      modifies this`winner
      ensures winner == Some(players[FirstBest(ScoresOf(points, players))])
    {
      KeyedAll(players, points);
      var maxPoints: Option<int> := None;
      var gameWinner: Option<string> := None;
      ghost var best := 0;
      for i := 0 to |players|
        invariant best < |players| && (i == 0 ==> maxPoints == None && gameWinner == None)
        invariant i > 0 ==> best < i && maxPoints == Some(points[players[best]]) && gameWinner == Some(players[best])
        invariant forall j :: 0 <= j < i ==> points[players[j]] <= points[players[best]]
        invariant forall j :: 0 <= j < best ==> points[players[j]] < points[players[best]]
      {
        var playerPoints := points[players[i]];
        if maxPoints == None || playerPoints > maxPoints.value {
          maxPoints := Some(playerPoints);
          gameWinner := Some(players[i]);
          best := i;
        }
      }
      FirstBestUnique(ScoresOf(points, players), best);
      winner := gameWinner;
    }
    // ---- toJSON / fromJSON ----

    /** toJSON: every field, the Maps as plain objects with the same entries. */
    function ToJson(): StateJson
      reads this
    {
      StateJson(players, playerCards, turn, winner, roundNumber, bids, points, tricksWon, phase,
                cardsHistory, playedCards, trickLeadPlayerIndex, roundHistory, currentBiddingOrder)
    }

    /**
     * fromJSON: builds a state through the constructor, which throws on a bad
     * player list, and then overwrites every field from the data, unchecked.
     */
    static method FromJson(data: StateJson) returns (r: Result<CallbreakState, string>)
      ensures ValidatePlayers(data.players).Some? ==> r == Failure(ValidatePlayers(data.players).value)
      ensures ValidatePlayers(data.players).None? ==> r.Success? && fresh(r.value) && r.value.ToJson() == data
    {
      var created := Create(data.players);
      if created.Failure? {
        return Failure(created.error);
      }
      var state := created.value;
      state.Overwrite(data);
      return Success(state);
    }

    /** fromJSON's assignments: every field but the players takes the value in the data. */
    method Overwrite(data: StateJson)
      requires data.players == players
      modifies this
      ensures ToJson() == data
    {
      OverwriteRound(data);
      OverwriteTally(data);
    }

    /** fromJSON's assignments of the cards on hand and on the table, and of the turn. */
    method OverwriteRound(data: StateJson)
      modifies this`playerCards, this`turn, this`playedCards, this`trickLeadPlayerIndex, this`cardsHistory, this`phase
      ensures playerCards == data.playerCards && turn == data.turn && playedCards == data.playedCards
      ensures trickLeadPlayerIndex == data.trickLeadPlayerIndex && cardsHistory == data.cardsHistory && phase == data.phase
    {
      playerCards := data.playerCards;
      turn := data.turn;
      phase := data.phase;
      cardsHistory := data.cardsHistory;
      playedCards := data.playedCards;
      trickLeadPlayerIndex := data.trickLeadPlayerIndex;
    }

    /** fromJSON's assignments of the winner, the round, the bids, the scores and the history. */
    method OverwriteTally(data: StateJson)
      modifies this`winner, this`roundNumber, this`bids, this`points, this`tricksWon, this`roundHistory, this`currentBiddingOrder
      ensures winner == data.winner && roundNumber == data.roundNumber && bids == data.bids && points == data.points
      ensures tricksWon == data.tricksWon && roundHistory == data.roundHistory && currentBiddingOrder == data.currentBiddingOrder
    {
      winner := data.winner;
      roundNumber := data.roundNumber;
      bids := data.bids;
      points := data.points;
      tricksWon := data.tricksWon;
      roundHistory := data.roundHistory;
      currentBiddingOrder := data.currentBiddingOrder;
    }

    /** A valid state's snapshot passes the constructor's checks, so fromJSON(toJSON()) rebuilds it field for field. */
    lemma SnapshotReloads()
      requires Valid()
      ensures ValidatePlayers(ToJson().players) == None
    {
      SeatedIffAccepted(players);
    }
  }

  /** The loop of updatePoints over the players in seat order, on the points map it rewrites entry by entry. */
  method ScoreRound(ids: seq<string>, start: map<string, int>, bids: map<string, int>, won: map<string, int>)
    returns (points: map<string, int>)
    requires forall i :: 0 <= i < |ids| ==> ids[i] in start && ids[i] in bids && ids[i] in won
    ensures points == ScoredPoints(start, bids, won, ids)
  {
    points := start;
    for i := 0 to |ids|
      invariant points == ScoredPoints(start, bids, won, ids[..i])
    {
      ScoredPointsStep(start, bids, won, ids, i);
      var playerId := ids[i];
      var bid := bids[playerId];
      var tricks := won[playerId];
      var currentPoints := points[playerId];
      if tricks < bid {
        currentPoints := currentPoints - 10 * bid;
      } else {
        var extraTricks := tricks - bid;
        currentPoints := currentPoints + 10 * bid + extraTricks;
      }
      assert currentPoints == points[playerId] + RoundDelta(bid, tricks);
      points := points[playerId := currentPoints];
    }
    assert ids[..|ids|] == ids;

  }

  // ---- dealing ------------------------------------------------------------

  /** One player's share of the deal: the first 13 cards of the deck, sorted into hand order. */
  method DrawHand(deck: Deck) returns (hand: seq<Card>)
    requires |deck.cards| >= HAND_SIZE
    modifies deck
    ensures |hand| == HAND_SIZE && SortedHand(hand)
    ensures multiset(hand) == multiset(old(deck.cards)[..HAND_SIZE]) && deck.cards == old(deck.cards)[HAND_SIZE..]
  {
    var drawn := DrawCards(deck, HAND_SIZE);
    hand := SortHand(drawn.value);
    assert |multiset(hand)| == |multiset(drawn.value)|;
  }

  /** The hands a deal hands out: each listed player holds a sorted hand of 13, and together they hold the full deck. */
  ghost predicate FullDeal(hands: map<string, seq<Card>>, ids: seq<string>) {
    Keyed(ids, hands) && HandsMultiset(hands, ids) == multiset(StandardDeck())
    && forall k :: 0 <= k < |ids| ==> |hands[ids[k]]| == HAND_SIZE && SortedHand(hands[ids[k]])
  }

  /** Sets every listed player's tally to 0, as the constructor does for points and newRound for tricks won. */
  method ZeroTally(ids: seq<string>) returns (m: map<string, int>)
    ensures m == ZeroMap(ids)
  {
    m := map[];
    for i := 0 to |ids|
      invariant m == ZeroMap(ids[..i])
    {
      assert ids[..i + 1][..i] == ids[..i];
      m := m[ids[i] := 0];
    }
    assert ids[..|ids|] == ids;
  }

  /** The bidding-order loop of newRound: the players from seat start on, around the table. */
  method BiddingOrderFrom(ids: seq<string>, start: int) returns (order: seq<string>)
    requires |ids| == 4
    ensures order == BiddingOrder(ids, start, 4)
  {
    order := [];
    for i := 0 to |ids|
      invariant order == BiddingOrder(ids, start, i)
    {
      var playerIndex := Seat(start, i);
      order := order + [ids[playerIndex]];
    }
  }

  /** One pass of the deal loop: the next listed player draws a sorted hand of 13 from the top of the deck. */
  method DealNext(deck: Deck, hands: map<string, seq<Card>>, ids: seq<string>, i: nat)
    returns (next: map<string, seq<Card>>)
    requires i < |ids| && Distinct(ids) && |deck.cards| >= HAND_SIZE
    requires forall k :: 0 <= k < i ==> ids[k] in hands && |hands[ids[k]]| == HAND_SIZE && SortedHand(hands[ids[k]])
    modifies deck
    ensures deck.cards == old(deck.cards)[HAND_SIZE..]
    ensures forall k :: 0 <= k < i + 1 ==> ids[k] in next && |next[ids[k]]| == HAND_SIZE && SortedHand(next[ids[k]])
    ensures HandsMultiset(next, ids[..i + 1]) + multiset(deck.cards)
      == HandsMultiset(hands, ids[..i]) + multiset(old(deck.cards))
  {
    ghost var before := deck.cards;
    var hand := DrawHand(deck);
    assert before == before[..HAND_SIZE] + deck.cards;
    DealShapeStep(hands, ids, i, hand);
    DealStep(hands, ids, i, hand);
    next := hands[ids[i] := hand];
  }

  /**
   * The dealing loop of newRound: each player in turn draws 13 cards from a
   * fresh shuffled deck and sorts them into hand order; the hand is stored
   * over whatever the player held before.
   */
  method DealHands(ids: seq<string>, start: map<string, seq<Card>>) returns (hands: map<string, seq<Card>>)
    requires Seated(ids)
    ensures FullDeal(hands, ids)
  {
    SeatedIffAccepted(ids);
    var deck := CreateStandardDeck(true);
    ghost var shuffled := deck.cards;
    assert |shuffled| == 52 by {
      assert |multiset(shuffled)| == |multiset(StandardDeck())|;
    }
    hands := start;
    for i := 0 to |ids|
      invariant |deck.cards| + 13 * i == 52
      invariant forall k :: 0 <= k < i ==> ids[k] in hands && |hands[ids[k]]| == HAND_SIZE && SortedHand(hands[ids[k]])
      invariant HandsMultiset(hands, ids[..i]) + multiset(deck.cards) == multiset(shuffled)
    {
      hands := DealNext(deck, hands, ids, i);
    }
    assert ids[..4] == ids;
  }
}
