# Callbreak, modelled in Dafny

This project models the core of the Callbreak repository, a four-player trick-taking card game with bots, in Dafny.

- **Cards and rules.** The card strings and the standard deck (`common/src/cards.ts`), and the comparison of two cards in a trick (`logic.ts`). `common/src/logic.ts:1-51` is textually the same as `callbreak-engine/src/logic.ts:1-51` and is modelled once. Also the engine's list of the cards a player may play (`computeValidCards`).
- **Engine state.** `callbreak-engine/src/state.ts`: dealing, bidding, playing a card, resolving a trick, scoring, choosing the winner, and the JSON snapshot.
- **Game driver.** `callbreak-engine/src/game.ts`: phase and turn checks, the events the game emits, the turn timer and its timeout, disconnects and reconnects, and save/restore.
- **The three rooms that host a game.**
  - The room service's `Room`, with bot backfill (`room-service/src/room.ts`).
  - The plain lobby `Room` (`room-service/src/lobby.ts`).
  - The browser's `LocalRoom` (`callbreak-ui/lib/LocalRoomService.ts`).
- **The client.** The event backlog of `callbreak-ui/lib/room.ts`, the room reducer of `callbreak-ui/contexts/RoomContext.tsx`, and `parseCard` of `Card.tsx` and `Hand.tsx`.
- **The Solana escrow program.** `betting-contract/programs/betting-contract/src/lib.rs`: create, join, leave, start, settle (payout or refund) and close a match.

## How the model is written

Code that changes objects in place is modelled as Dafny classes whose methods carry `modifies` clauses. This covers `CallbreakState`, `CallbreakGame`, the rooms, the client backlog and the match account. Code that only computes is modelled as functions with lemmas: the card rules, `computeValidCards`, the reducer and `parseCard`.

- **Emitted events.** An `emit` of the source is an element of the event list a method returns.
- **Calls into a game from a room.** These are `Call`/`CallOn` events.
- **Events a game hands back to a room.** A room receives these as the argument of `Forward`, `Relay` or `OnGameEvent`.
- **Players Map.** The insertion-ordered `Map<string, Player>` is a list of players with `Put`/`Remove`/`Find`.
- **Points.** Bids are whole numbers, and points are integer tenths: a made bid of 3 with 5 tricks is 32.
- **Lamports.** Balances are a `map<Pubkey, nat>`, and every instruction conserves their total. A failing instruction changes nothing, as a failed Solana transaction does.

## Model

| member | source | states |
|---|---|---|
| Cards.IsCardIsRankThenSuit | common/src/cards.ts:1-18 | A card string is exactly one of the 13 rank texts followed by one of the four suit letters. |
| Cards.MakeCard | common/src/cards.ts:43 | The card built from a rank and a suit is the rank text followed by the suit letter. |
| Cards.StandardDeckDistinct | common/src/cards.ts:40-45 | The 52 cards of the unshuffled deck are pairwise distinct. |
| Cards.CreateStandardDeck | common/src/cards.ts:22-54 | Without shuffle the deck is the 13 ranks of H, then D, C and S, in order; with shuffle it is a permutation of that deck. |
| Cards.PushSuit | common/src/cards.ts:42-44 | The inner loop appends the 13 cards of one suit to the deck built so far. |
| Cards.Shuffle | common/src/cards.ts:46-52 | The Fisher-Yates loop leaves a permutation of the deck, whatever indices the random picks choose. |
| Cards.DrawCards | common/src/cards.ts:56-61 | Asking for more cards than the deck holds is an error and leaves the deck as it was; otherwise the first `count` cards are returned and the deck keeps the rest. |
| CommonLogic.RankValue | callbreak-engine/src/logic.ts:25-28 | A card's rank value lies between 2 and 14, and it is 10 exactly for the three-character cards. |
| CommonLogic.RankValueIsTableLookup | callbreak-engine/src/logic.ts:3-28 | The rank text is the card without its suit letter, and the value is RANK_VALUES of that text. |
| CommonLogic.CardFromSuitAndRank | common/src/logic.ts:21-28 | Two cards with the same suit and the same rank value are the same card. |
| CommonLogic.MakeCardParts | common/src/cards.ts:41-45 | getSuit and getRankValue give back the suit and the rank (index + 2) that built a deck card. |
| CommonLogic.StandardDeckOrder | common/src/cards.ts:41-45 | The i-th card of the unshuffled deck has suit SUITS[i / 13] and rank value i % 13 + 2. |
| CommonLogic.TrumpDecides | callbreak-engine/src/logic.ts:36-41 | A spade beats any non-spade, and never loses to one, whatever suit was led. |
| CommonLogic.SameSuitByRank | callbreak-engine/src/logic.ts:43-45 | Between two cards of the same suit, the higher rank value beats the other. |
| CommonLogic.OffSuitByLead | callbreak-engine/src/logic.ts:47-50 | Between two non-trump cards of different suits, one beats the other exactly when it follows the lead and the other does not. |
| CommonLogic.BeatsIrreflexive | callbreak-engine/src/logic.ts:30-51 | No card beats itself. |
| CommonLogic.BeatsAsymmetric | callbreak-engine/src/logic.ts:30-51 | Two cards never beat each other. |
| CommonLogic.BeatsTransitive | callbreak-engine/src/logic.ts:30-51 | beats is transitive under a fixed lead suit. |
| CommonLogic.BeatsTotalInTrick | callbreak-engine/src/logic.ts:30-51 | Two distinct cards are ordered by beats if they share a suit, or if either is a trump or of the lead suit. |
| EngineLogic.OfSuit | callbreak-engine/src/logic.ts:58-60 | The filter by suit keeps exactly the cards of that suit, and it is non-empty exactly when the hand has that suit (`hand.some`). |
| EngineLogic.Beating | callbreak-engine/src/logic.ts:64 | Exactly the cards of the list that beat the given card. |
| EngineLogic.TrumpsAbove | callbreak-engine/src/logic.ts:74-76 | Exactly the trumps of the hand whose rank value exceeds the given value. |
| EngineLogic.HighestByRank | callbreak-engine/src/logic.ts:61-63 | The reduce returns its seed or a listed card, and no listed card or seed has a higher rank value. |
| EngineLogic.HighestRankValue | callbreak-engine/src/logic.ts:71-73 | The Math.max reduce returns the largest of the seed and the cards' rank values. |
| EngineLogic.FollowLeadCards | callbreak-engine/src/logic.ts:57-66 | With the lead suit in hand, only cards of the lead suit from the hand are offered. |
| EngineLogic.OverTrumpCards | callbreak-engine/src/logic.ts:69-82 | Without the lead suit, the cards offered come from the hand and are never none for a non-empty hand. |
| EngineLogic.ComputeValidCards | callbreak-engine/src/logic.ts:53-83 | The result lies within the hand. It is empty only for an empty hand. It is the whole hand on the lead. |
| EngineLogic.HighestLeadTops | callbreak-engine/src/logic.ts:61-64 | A lead-suit card beats the reduce's highest card exactly when it beats every lead-suit card on the table. |
| EngineLogic.HighestTrumpTops | callbreak-engine/src/logic.ts:71-75 | A card's rank is above the highest trump value exactly when it tops every trump on the table. |
| EngineLogic.LeadBeatersTop | callbreak-engine/src/logic.ts:59-66 | The higher-cards filter keeps exactly the lead-suit cards that top the lead suit on the table. |
| EngineLogic.TrumpsAboveTop | callbreak-engine/src/logic.ts:69-79 | The higher-trumps filter keeps exactly the trumps that top every trump on the table. |
| EngineLogic.ValidCardsFollowLead | callbreak-engine/src/logic.ts:59-66 | With the lead suit in hand, a card is offered iff the follow-suit rule (an independent definition, RuleAllows) allows it. |
| EngineLogic.ValidCardsOverTrump | callbreak-engine/src/logic.ts:69-80 | Void in the lead suit but holding trumps, a card is offered iff the over-trump rule allows it. |
| EngineLogic.ValidCardsFollowRule | callbreak-engine/src/logic.ts:53-83 | Once a trick is led, a card is offered iff it is in hand and the rule allows it. |
| EngineLogic.IsValidPlay | callbreak-engine/src/state.ts:165-188 | A card is always playable on the lead. With the lead suit in hand, a play is valid iff it follows suit. Void in both lead and trumps, any card is valid. |
| EngineLogic.IsValidPlayOverTrumps | callbreak-engine/src/state.ts:173-186 | Void in the lead suit but holding trumps, only a trump is valid. It must top the table's trumps whenever the hand has a trump that does. |
| EngineLogic.ValidCardsArePlayable | callbreak-engine/src/state.ts:142-188 | Every card computeValidCards offers is in hand and accepted by isValidPlay. |
| EngineLogic.IsValidPlayLaxerThanValidCards | callbreak-engine/src/state.ts:172 | isValidPlay accepts a low card of the lead suit that computeValidCards withholds when a higher one is held, so the converse fails. |
| StateRules.DistinctIffSetSize | callbreak-engine/src/state.ts:68-71 | `new Set(ids).size === ids.length` holds exactly when no id repeats. |
| StateRules.ValidatePlayers | callbreak-engine/src/state.ts:60-71 | The constructor's checks, in order: the player count, an empty id, then a repeated id. There is no error iff there are four non-empty distinct ids. |
| StateRules.SeatedIffAccepted | callbreak-engine/src/state.ts:60-71 | The constructor accepts exactly the rosters of four non-empty, pairwise distinct ids. |
| StateRules.HandBeforeTotal | callbreak-engine/src/state.ts:92-97 | The hand-sorting comparator orders any two cards one way or the other. |
| StateRules.HandBeforeTransitive | callbreak-engine/src/state.ts:92-97 | The hand-sorting comparator is transitive: by suit letter, then by descending rank. |
| StateRules.InsertCard | callbreak-engine/src/state.ts:92-97 | Inserting a card into a sorted hand keeps it sorted and adds exactly that card. |
| StateRules.SortHand | callbreak-engine/src/state.ts:92-97 | The sorted hand is ordered by the comparator and is a permutation of the drawn cards. |
| StateRules.WinnerUnbeaten | callbreak-engine/src/state.ts:191-201 | No card of the trick beats the card resolveTrick's scan settles on. |
| StateRules.WinnerFollowsOrTrumps | callbreak-engine/src/state.ts:191-201 | The winning card follows the lead suit or is a trump. |
| StateRules.WinnerBeatsAll | callbreak-engine/src/state.ts:191-201 | In a trick of distinct cards, the winning card beats every other card. |
| StateRules.RoundDelta | callbreak-engine/src/state.ts:230-235 | In tenths: a missed bid costs 10 * bid, and a made bid earns 10 * bid plus one per extra trick. |
| StateRules.RoundDeltaExamples | callbreak-engine/src/state.ts:230-235 | Bid 3 with 3 tricks gives 3.0, bid 3 with 5 gives 3.2, and bid 4 with 3 gives -4.0. |
| StateRules.RoundDeltaMonotone | callbreak-engine/src/state.ts:230-235 | More tricks never score less. Every miss scores the same, and any make beats any miss. |
| StateRules.ZeroMap | callbreak-engine/src/state.ts:75 | Every listed player is set to 0 and no one else is. |
| StateRules.ScoredPointsValues | callbreak-engine/src/state.ts:224-238 | updatePoints adds each seated player's round delta to their points and leaves every other key as it was. |
| StateRules.AllSeatsBid | callbreak-engine/src/state.ts:133-139 | Once four bids are in, in seat order from the lead, every seated player has bid. |
| StateRules.BidSeatsNext | callbreak-engine/src/state.ts:133-134 | The next bid comes from a seat that has not bid, so the bid count grows by one and the bids stay in seat order. |
| StateRules.WithoutCounts | callbreak-engine/src/state.ts:154-156 | The filter removes every copy of the played card and keeps every other card as often as before. |
| StateRules.FirstBest | callbreak-engine/src/state.ts:240-251 | The index with the most points, and with strict `>` the first such index. |
| StateRules.FirstBestUnique | callbreak-engine/src/state.ts:240-251 | Any first index of a maximum is the one determineGameWinner picks. |
| StateRules.BiddingOrder | callbreak-engine/src/state.ts:117-121 | The k-th bidder sits k seats after the starting turn. |
| EngineState.BidTurnOrder | callbreak-engine/src/state.ts:133-139 | A bid passes the turn to the next seat. After the fourth bid, play opens with the lead seat. |
| EngineState.PlayTurnOrder | callbreak-engine/src/state.ts:153-162 | A play passes the turn to the next seat while fewer than four cards are down, and keeps each card attributed to its seat. |
| EngineState.TakeConserves | callbreak-engine/src/state.ts:153-156 | Playing a held card moves exactly that card from the hand to the table: hands, table and history still make up the deck. |
| EngineState.CollectConserves | callbreak-engine/src/state.ts:206-207 | Moving the trick into the history keeps the deck's cards. |
| EngineState.DealConserves | callbreak-engine/src/state.ts:89-98 | A full deal puts the whole deck into the four hands. |
| EngineState.HeldOnce | callbreak-engine/src/state.ts:147 | While the deck is conserved, a held card is held exactly once. |
| EngineState.HandsDisjoint | callbreak-engine/src/state.ts:89-98 | While the deck is conserved, no card is in two players' hands. |
| EngineState.CreditTotal | callbreak-engine/src/state.ts:203-204 | Crediting a seat raises the trick total by one and keeps every player keyed. |
| EngineState.TrickWinnerPlayed | callbreak-engine/src/state.ts:190-203 | For a trick of at most four cards, the seat credited is the player who laid the winning card. |
| EngineState.FifthCardMiscredited | callbreak-engine/src/state.ts:195-203 | When a fifth card wins a trick, resolveTrick credits the lead seat, not the player who laid that card. |
| EngineState.FifthCardCanWin | callbreak-engine/src/state.ts:195-203 | A five-card trick whose fifth card wins is reachable (concrete trick). |
| EngineState.CallbreakState.constructor | callbreak-engine/src/state.ts:60-78 | A valid roster starts at round 0, turn 0, everyone on 0 points and no winner. |
| EngineState.CallbreakState.Create | callbreak-engine/src/state.ts:60-78 | The constructor throws exactly ValidatePlayers' message, and otherwise builds the initial state. |
| EngineState.CallbreakState.NewRound | callbreak-engine/src/state.ts:80-124 | Past the last round the phase is game_over and nothing else changes. Otherwise it is the next round: fresh deal, cleared bids and tricks, the turn set by the dealer rotation or kept, and bidding order from the turn. |
| EngineState.DealHands | callbreak-engine/src/state.ts:89-98 | Each of the four players gets 13 sorted cards, and together they hold the deck. |
| EngineState.DrawHand | callbreak-engine/src/state.ts:91-97 | A hand is the deck's next 13 cards, sorted, and the deck keeps the rest. |
| EngineState.BiddingOrderFrom | callbreak-engine/src/state.ts:117-121 | The loop builds the four ids in seat order from the turn. |
| EngineState.CallbreakState.SubmitBid | callbreak-engine/src/state.ts:126-140 | Errors, in order: wrong phase, not the bidder's turn, bid outside 1..8. A failed bid changes nothing. A good bid is recorded and passes the turn, or opens play at the lead after the fourth bid. |
| EngineState.CallbreakState.RecordBid | callbreak-engine/src/state.ts:133-139 | The bid is stored for the player on turn. The turn advances, or play opens at the lead after four bids. |
| EngineState.CallbreakState.TurnNotYetBid | callbreak-engine/src/state.ts:129-133 | While bidding, the player on turn has not bid yet. |
| EngineState.CallbreakState.PlayCard | callbreak-engine/src/state.ts:142-163 | Fails exactly as the phase, turn, possession and isValidPlay checks say, and then changes nothing. Otherwise the card moves from hand to table and the turn advances below four cards. |
| EngineState.CallbreakState.PlayConserves | callbreak-engine/src/state.ts:142-163 | A play that playCard accepts keeps the deck's 52 cards split between the hands, the table and the finished tricks. |
| EngineState.CallbreakState.PlayCheck | callbreak-engine/src/state.ts:143-151 | A play passes iff it is the playing phase, the player's turn, the card is held and isValidPlay accepts it. |
| EngineState.CallbreakState.TakeCard | callbreak-engine/src/state.ts:153-162 | The card is pushed to the table with its player and filtered out of the hand. The turn advances while fewer than four cards are down. |
| EngineState.CallbreakState.ResolveTrick | callbreak-engine/src/state.ts:190-222 | An empty table is refused (this is the source's crash on playedCards[0]). Otherwise the winning seat is credited and returned, and the trick goes to history with the winner leading. Once all hands are empty, points are scored, the round is archived and the game-over winner is chosen. |
| EngineState.CallbreakState.ScanWinner | callbreak-engine/src/state.ts:191-201 | The loop finds the seat of the winning card. |
| EngineState.CallbreakState.TrickConserves | callbreak-engine/src/state.ts:203-209 | Collecting a trick keeps the deck's 52 cards split between the hands, the table and the finished tricks. |
| EngineState.CallbreakState.CollectTrick | callbreak-engine/src/state.ts:203-209 | The winner is the player of the winning card's seat, and the trick is collected. |
| EngineState.CallbreakState.CreditTrick | callbreak-engine/src/state.ts:203-209 | The winner's count goes up by one, the table moves to history, and the winner leads. |
| EngineState.CallbreakState.FinishTrick | callbreak-engine/src/state.ts:211-220 | While cards remain, nothing is scored. When every hand is empty, the round ends. |
| EngineState.CallbreakState.EndRound | callbreak-engine/src/state.ts:211-220 | Points are updated, the round is archived, and the phase is round_over or game_over with the winner. |
| EngineState.CallbreakState.CloseRound | callbreak-engine/src/state.ts:214-219 | Before the last round the phase is round_over. After it, game_over with the first player holding the most points. |
| EngineState.CallbreakState.UpdatePoints | callbreak-engine/src/state.ts:224-238 | Points become ScoredPoints of the bids and tricks won. |
| EngineState.ScoreRound | callbreak-engine/src/state.ts:224-238 | The forEach loop computes ScoredPoints. |
| EngineState.CallbreakState.ArchiveRoundHistory | callbreak-engine/src/state.ts:257-267 | One entry with this round's number, bids, tricks, plays and bidding order is appended. |
| EngineState.CallbreakState.DetermineGameWinner | callbreak-engine/src/state.ts:240-251 | The winner is the first seated player with the most points. |
| EngineState.CallbreakState.EndGame | callbreak-engine/src/state.ts:81-83 | The phase becomes game_over. |
| EngineState.CallbreakState.FromJson | callbreak-engine/src/state.ts:292-312 | A snapshot whose roster the constructor accepts reloads into a state whose toJSON is that snapshot. Any other roster fails with the constructor's message. |
| EngineState.CallbreakState.Overwrite | callbreak-engine/src/state.ts:294-310 | Every field is taken from the snapshot. |
| EngineState.CallbreakState.SnapshotReloads | callbreak-engine/src/state.ts:269-312 | The snapshot of any valid state reloads without error. |
| EngineGame.SetAdd | callbreak-engine/src/game.ts:146 | Set.add: the members are the old ones plus the id, and there are still no repeats. |
| EngineGame.SetDelete | callbreak-engine/src/game.ts:29 | Set.delete: the members are the old ones minus the id. |
| EngineGame.Dedup | callbreak-engine/src/game.ts:320 | new Set(list): the same members, each once. |
| EngineGame.DedupDistinct | callbreak-engine/src/game.ts:309-320 | A list without repeats round-trips through the Set unchanged. |
| EngineGame.PlayableFor | callbreak-engine/src/game.ts:163-169 | The cards offered come from the player's hand, and none are offered exactly when the hand is missing or empty. |
| EngineGame.SnapshotOf | callbreak-engine/src/game.ts:159-189 | The snapshot shows the player's own hand. It offers cards only to the player on turn while playing, and exactly computeValidCards of their hand. |
| EngineGame.OfferedCardsPlayable | callbreak-engine/src/game.ts:159-169 | Any card a snapshot offers passes every check of a playCard message. |
| EngineGame.SnapshotHidesOtherHands | callbreak-engine/src/game.ts:159-189 | A player's snapshot does not depend on the other players' hands. |
| EngineGame.StateSendsSnoc | callbreak-engine/src/game.ts:299-304 | sendGameState sends one snapshot to each player, in roster order. |
| EngineGame.TurnNotice | callbreak-engine/src/game.ts:195-203 | One getBid/getCard goes to the player on turn while bidding or playing, and nothing otherwise. |
| EngineGame.BidError | callbreak-engine/src/game.ts:72-79 | A bid message is refused unless it is the bidding phase, the sender's turn and a bid in 1..8. |
| EngineGame.PlayError | callbreak-engine/src/game.ts:89-96 | A playCard message is refused unless it is the playing phase, the sender's turn, a held card and a valid play. |
| EngineGame.EndEvents | callbreak-engine/src/game.ts:111-115 | A game end is a gameEnded broadcast followed by an 'ended' event with the same reason. |
| EngineGame.CallbreakGame.constructor | callbreak-engine/src/game.ts:23-26 | The timer is disabled exactly when the option is `timer: false`. |
| EngineGame.CallbreakGame.AllowStart | callbreak-engine/src/game.ts:40-45 | "4 players required." unless exactly four players are in. |
| EngineGame.CallbreakGame.RemainingTimeMs | callbreak-engine/src/game.ts:283-286 | -1 with the timer off. Otherwise the time to the deadline, never below 0. |
| EngineGame.CallbreakGame.Start | callbreak-engine/src/game.ts:47-59 | A roster the state rejects yields that error and no events. Otherwise round 1 is dealt with seat 1 to bid, every player gets the state, the bidder is prompted and the timer started. |
| EngineGame.CallbreakGame.OnMessage | callbreak-engine/src/game.ts:61-143 | requestGameState resyncs the sender, bid and playCard are handled, any other type is ignored. |
| EngineGame.CallbreakGame.HandleBid | callbreak-engine/src/game.ts:72-88 | A bid out of phase or out of turn gets an error and a resync. Otherwise the bid is accepted. |
| EngineGame.CallbreakGame.AcceptBid | callbreak-engine/src/game.ts:79-87 | An out-of-range bid is refused with no change. A good bid is recorded, broadcast, every player gets the state, and the next player is prompted with a new timer. |
| EngineGame.CallbreakGame.HandlePlay | callbreak-engine/src/game.ts:89-133 | A play out of phase or turn, or rejected by the state, gets an error and a resync. Otherwise the card is played and the trick followed up. |
| EngineGame.CallbreakGame.TryPlay | callbreak-engine/src/game.ts:96-131 | As HandlePlay, in the playing phase on the sender's turn. |
| EngineGame.CallbreakGame.ShowPlay | callbreak-engine/src/game.ts:97-104 | The play is broadcast with the new state. Below four cards the next player is prompted; at four the trick is closed. |
| EngineGame.CallbreakGame.CloseTrick | callbreak-engine/src/game.ts:105-131 | The fourth card resolves the trick, the winner is broadcast, and the game ends, starts a new round, or prompts the trick winner. |
| EngineGame.CallbreakGame.Resolve | callbreak-engine/src/game.ts:106-107 | trickWon names the player of the winning card, and the state collects the trick. |
| EngineGame.CallbreakGame.FollowTrick | callbreak-engine/src/game.ts:109-130 | game_over ends the game with the winner, round_over deals the next round, and otherwise the trick winner is prompted. |
| EngineGame.CallbreakGame.NextRound | callbreak-engine/src/game.ts:119-124 | The next round opens for bidding, all players get the state, and the bidder is prompted with a new timer. |
| EngineGame.CallbreakGame.EndGame | callbreak-engine/src/game.ts:110-116 | The timer is cleared and the end events are emitted. |
| EngineGame.CallbreakGame.OnDisconnect | callbreak-engine/src/game.ts:145-156 | The player is added to the disconnected set. During bidding the game is cancelled (timer cleared, gameEnded and ended); otherwise nothing else happens. |
| EngineGame.CallbreakGame.OnReconnect | callbreak-engine/src/game.ts:28-31 | The player leaves the disconnected set and gets the state and the remaining time. |
| EngineGame.CallbreakGame.CandidatesPlayable | callbreak-engine/src/game.ts:273-280 | Any card pickRandomValidCard can pick passes the state's play checks. |
| EngineGame.CallbreakGame.OnTurnTimeout | callbreak-engine/src/game.ts:230-271 | As written: the bidder auto-bids 1. The player on turn auto-plays a valid card, and no candidate means stalled. The trick is not resolved, so after a fourth card the same player stays on turn with the trick still on the table. round_over and game_over are finished as written. |
| EngineGame.CallbreakGame.AutoBid | callbreak-engine/src/game.ts:233-238 | A bid of 1 is recorded, broadcast, and every player gets the state. |
| EngineGame.CallbreakGame.AutoPlay | callbreak-engine/src/game.ts:239-246 | With no candidate the game ends as stalled with no change. Otherwise the picked valid card is played, broadcast, and every player gets the state. |
| EngineGame.CallbreakGame.FinishTimeout | callbreak-engine/src/game.ts:248-262 | After the auto action, round_over deals anew and game_over ends the game with its winner. |
| EngineGame.CallbreakGame.NewRoundTimeout | callbreak-engine/src/game.ts:248-251 | A round_over state deals the next round, or reaches game_over after the last round. |
| EngineGame.CallbreakGame.LastRoundTimeout | callbreak-engine/src/game.ts:248-261 | Past the last round, newRound only sets game_over, and the game ends with the state sent twice. |
| EngineGame.CallbreakGame.EndTimeout | callbreak-engine/src/game.ts:252-261 | The timer is cleared, the state sent, and gameEnded and ended emitted with the winner. |
| EngineGame.CallbreakGame.OnTurnTimeoutResolving | callbreak-engine/src/game.ts:230-271 | Corrected: an auto-played card is handled as a played card. The fourth card resolves the trick, so the table never holds a fifth card. |
| EngineGame.CallbreakGame.ToJson | callbreak-engine/src/game.ts:306-312 | The state's snapshot, the disconnected set and the timer flag. |
| EngineGame.CallbreakGame.FromJson | callbreak-engine/src/game.ts:314-322 | It fails exactly when the saved roster is rejected. Otherwise it restores state and disconnected set (deduplicated), and a save without repeats round-trips through toJSON. |
| EngineGame.CallbreakGame.Announce | callbreak-engine/src/game.ts:54-58 | Every player gets the state, the player on turn is prompted and the timer started. |
| EngineGame.CallbreakGame.ResyncPlayer | callbreak-engine/src/game.ts:33-38 | The player gets a snapshot and the remaining time. |
| EngineGame.CallbreakGame.SendGameState | callbreak-engine/src/game.ts:299-304 | One snapshot per player. |
| EngineGame.CallbreakGame.NotifyTurn | callbreak-engine/src/game.ts:195-203 | The turn prompt of the current state. |
| EngineGame.CallbreakGame.StartTurnTimer | callbreak-engine/src/game.ts:205-228 | With the timer off it broadcasts -1 and arms nothing. Otherwise it arms a timeout 30 s ahead and broadcasts the player and the time. |
| EngineGame.CallbreakGame.ClearTimers | callbreak-engine/src/game.ts:288-293 | No timeout is pending. |
| Roster.ToBots | room-service/src/room.ts:142 | The same payload once to each bot, in seating order. |
| Roster.Find | room-service/src/room.ts:28 | Map.get: a player with that id from the roster, found iff the id is listed. |
| Roster.Put | room-service/src/room.ts:79 | Map.set: the id is listed once, maps to the new player, and every other id is unchanged. |
| Roster.Remove | room-service/src/room.ts:111 | Map.delete: the id is gone and every other id is unchanged. |
| Roster.PutAppends | room-service/src/room.ts:79 | A new id is appended at the end (insertion order). |
| Roster.RemoveShrinks | room-service/src/room.ts:111 | Deleting a listed id shrinks the roster by one. |
| Roster.RemoveAbsent | room-service/src/room.ts:103-105 | Deleting an unlisted id changes nothing. |
| Roster.FindExtends | callbreak-ui/lib/LocalRoomService.ts:100-117 | Players seated later do not change what an earlier id finds. |
| Roster.BackfillStallsOnTakenId | room-service/src/room.ts:92-98 | As written: a first player whose id is "bot-2" is overwritten by the first bot. The roster then never grows, so the while loop never ends. |
| Roster.FreshBotId | room-service/src/room.ts:93 | Corrected: the bot id is `bot-{size+1}` when that is free, and otherwise an id no player holds. |
| RoomService.Room.constructor | room-service/src/room.ts:18-25 | An empty room with no host, no game and no bots. |
| RoomService.Room.HandleMessage | room-service/src/room.ts:27-35 | Strangers and other scopes are ignored. Game messages go to a running game. startGame/playAgain go to the lobby handling; other room types are ignored. |
| RoomService.Room.HandleLobbyMessage | room-service/src/room.ts:37-65 | startGame and playAgain both amount to the host's start request; anything else is ignored. |
| RoomService.Room.StartGame | room-service/src/room.ts:38-60 | Only the host may start. A running game gets a close. An allowStart error is sent back. Otherwise the game starts and gameStarted is broadcast. |
| RoomService.Room.Join | room-service/src/room.ts:67-101 | During a game a known id reconnects and a new one is closed. Otherwise the player is announced, seated and welcomed (host if none). A person's join fills the room with bots to four. |
| RoomService.Room.Seat | room-service/src/room.ts:76-88 | playerJoined, Map.set, the host if unset, and a welcome with the full roster. |
| RoomService.Room.Backfill | room-service/src/room.ts:90-100 | Bots are appended until four are in, with the seated players kept in front and the host unchanged. |
| RoomService.Room.Leave | room-service/src/room.ts:103-129 | An unknown id is ignored. Otherwise the player is removed and playerLeft broadcast. An empty or all-bot room is emptied, and a departing host is replaced by the first remaining player. |
| Roster.LeaveNotices | room-service/src/room.ts:107-112 | The game hears of the disconnect only while a game is active, then playerLeft is broadcast; lobby.ts:86-91 leaves the same way. |
| RoomService.Room.Forward | room-service/src/room.ts:140-152 | A broadcast goes to the transport and every bot. A send reaches only its bot, or the transport. An error goes to its player. 'ended' has no listener. |
| RoomService.Room.OnGameEnded | room-service/src/room.ts:154-162 | The game is dropped and gameEnded is told to the transport and every bot. |
| Lobby.Room.constructor | room-service/src/lobby.ts:17-19 | An empty room with no host and no game. |
| Lobby.Room.HandleMessage | room-service/src/lobby.ts:22-33 | Routing as in the room service. |
| Lobby.Room.HandleLobbyMessage | room-service/src/lobby.ts:35-59 | startGame and playAgain are the host's start request. |
| Lobby.Room.StartGame | room-service/src/lobby.ts:36-54 | Only the host. A running game gets an error. A tryStart(false) error is sent back. Otherwise the room is active and gameStarted is broadcast. |
| Lobby.Room.Join | room-service/src/lobby.ts:61-80 | During a game the joiner gets an error. Otherwise the player is announced, seated (host if none) and welcomed. |
| Lobby.Room.Leave | room-service/src/lobby.ts:82-102 | Removal and playerLeft, onEmpty when empty, and a new host when the host leaves. |
| Lobby.Room.Forward | room-service/src/lobby.ts:104-128 | A broadcast or send is passed on in game scope and an error goes to its player. 'ended' has no listener. |
| Lobby.Room.OnGameEnded | room-service/src/lobby.ts:117-124 | The room is inactive without a game and gameEnded is broadcast. |
| LocalRoomService.WinnerIdOf | callbreak-ui/lib/LocalRoomService.ts:180-187 | The ended event's winnerId is present only when the game supplied one. |
| LocalRoomService.LocalRoom.constructor | callbreak-ui/lib/LocalRoomService.ts:14-28 | Disconnected, with no players, game, bots, local player or room. |
| LocalRoomService.LocalRoom.Connect | callbreak-ui/lib/LocalRoomService.ts:30-37 | Ignored while connecting or connected. Otherwise the status is connecting, with the local id and the room recorded. |
| LocalRoomService.LocalRoom.FinishConnect | callbreak-ui/lib/LocalRoomService.ts:38-67 | The local player hosts and is seated. A restorable save resumes the game. The status becomes connected, and the last events are the status change and 'open'. |
| LocalRoomService.LocalRoom.Resume | callbreak-ui/lib/LocalRoomService.ts:47-54 | gameStarted, then every player is reconnected to the restored game, in roster order. |
| LocalRoomService.LocalRoom.Disconnect | callbreak-ui/lib/LocalRoomService.ts:70-83 | Players, bots and game are cleared and the status is disconnected. |
| LocalRoomService.LocalRoom.Send | callbreak-ui/lib/LocalRoomService.ts:85-89 | Without a local player id nothing happens. Otherwise the message is handled as the local player's: a stranger's is ignored, a game message goes to a running game, a room startGame to the start handling, and any other message changes nothing. |
| LocalRoomService.LocalRoom.Join | callbreak-ui/lib/LocalRoomService.ts:91-119 | During a game a known id reconnects and others are ignored. Otherwise the player is seated and announced. While no bots exist, bots fill the room to four. |
| LocalRoomService.LocalRoom.Seat | callbreak-ui/lib/LocalRoomService.ts:99-108 | playerJoined and Map.set. Only the local player gets the welcome. |
| LocalRoomService.LocalRoom.Backfill | callbreak-ui/lib/LocalRoomService.ts:110-118 | Bots are appended until four are in, with the seated players kept in front. |
| LocalRoomService.LocalRoom.HandleMessage | callbreak-ui/lib/LocalRoomService.ts:121-130 | Strangers are ignored. Game messages go to a running game, and a room startGame goes to the start handling. |
| LocalRoomService.LocalRoom.StartGame | callbreak-ui/lib/LocalRoomService.ts:132-153 | Only the host with no game running. A timer-off CallbreakGame's allowStart error is shown only to the local player. Otherwise the game starts. |
| LocalRoomService.LocalRoom.OnGameEvent | callbreak-ui/lib/LocalRoomService.ts:180-188 | 'ended' ends the room's game and reports the reason and winner. Other events are relayed. |
| LocalRoomService.LocalRoom.Relay | callbreak-ui/lib/LocalRoomService.ts:164-194 | A broadcast goes to the UI and every bot. A send reaches its bot, or the UI if it is for the local player, else no one. An error is shown only for the local player. |
| ClientRoom.DeliveryOf | callbreak-ui/lib/room.ts:63-67 | The listener gets the event's type and payload, and the ack for its id. |
| ClientRoom.DropId | callbreak-ui/lib/room.ts:65 | The filter keeps exactly the events with another id. |
| ClientRoom.DropIdKeepsOrder | callbreak-ui/lib/room.ts:65 | The events left after an ack are still in emission order. |
| ClientRoom.DropIdCount | callbreak-ui/lib/room.ts:65 | An ack removes one event when its id is backlogged, and none otherwise. |
| ClientRoom.PushAscending | callbreak-ui/lib/room.ts:69-74 | Pushing an event with a newer id keeps the backlog in order. |
| ClientRoom.Room.constructor | callbreak-ui/lib/room.ts:33-36 | An empty backlog, counter 0 and no listener. |
| ClientRoom.Room.Emit | callbreak-ui/lib/room.ts:38-50 | The event takes an id above every earlier one and is stored. It is delivered only with a listener. |
| ClientRoom.Room.Store | callbreak-ui/lib/room.ts:69-74 | Push, and shift the oldest once past 100. The backlog stays ordered and at most 100. |
| ClientRoom.Room.Subscribe | callbreak-ui/lib/room.ts:52-61 | The listener is set and gets every backlogged event, oldest first. |
| ClientRoom.Room.Unsubscribe | callbreak-ui/lib/room.ts:58-60 | The listener is cleared. |
| ClientRoom.Room.Ack | callbreak-ui/lib/room.ts:63-67 | The acked event leaves the backlog and the rest stay in order. |
| ClientRoom.Room.GetBacklog | callbreak-ui/lib/room.ts:76-78 | A copy of the backlog: ordered and at most 100 long. |
| ClientRoom.Room.Disconnect | callbreak-ui/lib/room.ts:143-154 | The status is disconnected and a status event is emitted. |
| RoomContext.InitialState | callbreak-ui/contexts/RoomContext.tsx:17-26 | No players, disconnected, no error and not manually disconnected. |
| RoomContext.WithoutId | callbreak-ui/contexts/RoomContext.tsx:42-46 | The filter keeps exactly the players with another id. |
| RoomContext.WithoutIdSplits | callbreak-ui/contexts/RoomContext.tsx:45 | Filtering distributes over concatenation (order kept). |
| RoomContext.WithoutAbsentId | callbreak-ui/contexts/RoomContext.tsx:45 | The filter leaves a list without the id unchanged. |
| RoomContext.Reduce | callbreak-ui/contexts/RoomContext.tsx:28-54 | The new state for each action. SET_ROOM and MANUAL_DISCONNECT start from the initial state. PLAYER_JOINED appends. PLAYER_LEFT keeps exactly the others. An unknown action returns the state unchanged. |
| RoomContext.LeftTwiceIsLeftOnce | callbreak-ui/contexts/RoomContext.tsx:42-46 | PLAYER_LEFT is idempotent. |
| RoomContext.JoinThenLeave | callbreak-ui/contexts/RoomContext.tsx:40-46 | A new player joining and leaving restores the state. |
| RoomContext.LeaveKeepsOrder | callbreak-ui/contexts/RoomContext.tsx:42-46 | A leave keeps the other players in join order. |
| RoomContext.ResetsForget | callbreak-ui/contexts/RoomContext.tsx:28-54 | SET_ROOM, MANUAL_DISCONNECT and RESET forget the earlier state entirely. |
| CardView.SuitSymbol | callbreak-ui/components/ui/Card.tsx:11-18 | H, D and C have their own symbols, and every other letter shows as a spade. |
| CardView.ParseCard | callbreak-ui/components/ui/Card.tsx:5-20 | A falsy code is unknown. Otherwise the rank followed by the one-letter suit gives back the code, and the symbol is that letter's. |
| CardView.ParseCardInjective | callbreak-ui/components/game_screen/Hand.tsx:13-28 | Distinct non-empty codes parse differently. |
| CardView.TenOfHearts | callbreak-ui/components/ui/Card.tsx:9-10 | "10H" keeps its two-character rank. |
| CardView.UnknownOnlyWhenFalsy | callbreak-ui/components/ui/Card.tsx:6-8 | The unknown parse comes only from a missing or empty code. |
| Escrow.Credit | betting-contract/programs/betting-contract/src/lib.rs:122 | One balance rises by the amount and the others are unchanged. |
| Escrow.Utf8Len | betting-contract/programs/betting-contract/src/lib.rs:21 | String::len counts UTF-8 bytes: between one and four per character, and one per character exactly for ASCII. |
| Escrow.Utf8LenNonAscii | betting-contract/programs/betting-contract/src/lib.rs:21 | Non-ASCII characters take at least two bytes each, so 17 of them already exceed the 32-byte bound. |
| Escrow.Debit | betting-contract/programs/betting-contract/src/lib.rs:117 | One balance falls by the amount and the others are unchanged. |
| Escrow.Transfer | betting-contract/programs/betting-contract/src/lib.rs:69-79 | The payer loses and the payee gains the amount. The others are unchanged. |
| Escrow.TransferConserves | betting-contract/programs/betting-contract/src/lib.rs:69-79 | A transfer keeps the total of all lamports. |
| Escrow.RefundCheck | betting-contract/programs/betting-contract/src/lib.rs:203-209 | The refund accounts pass iff they are a prefix of the players, in order. Otherwise the error is an index error or a mismatch. |
| Escrow.RefundsPay | betting-contract/programs/betting-contract/src/lib.rs:203-221 | The refund loop keeps the total. The match loses the refunded deposits, and each refunded account gains its own deposit. |
| Escrow.PayoutLedger | betting-contract/programs/betting-contract/src/lib.rs:175-187 | The total is kept. The match pays rake plus payout, the host gets the rake, and the winner gets the payout (the host both when it won). |
| Escrow.Position | betting-contract/programs/betting-contract/src/lib.rs:107-111 | The first index holding the key. |
| Escrow.RemoveAt | betting-contract/programs/betting-contract/src/lib.rs:126-127 | Vec::remove: the element at the index is gone and the others keep their order. |
| Escrow.LeaveKeepsListed | betting-contract/programs/betting-contract/src/lib.rs:114-127 | Removing one player and its deposit keeps the vectors matched and unique, and shrinks the pot by that deposit. |
| Escrow.JoinKeepsListed | betting-contract/programs/betting-contract/src/lib.rs:81-86 | Pushing a new player and its fee keeps the vectors matched, and grows the pot by the fee. |
| Escrow.MatchEscrow.constructor | betting-contract/programs/betting-contract/src/lib.rs:27-34 | An open match with the given parameters and empty vectors. |
| Escrow.MatchEscrow.CreateMatch | betting-contract/programs/betting-contract/src/lib.rs:14-37 | The rent transfer can fail first. Then an id over 32 UTF-8 bytes, a zero fee, and a player count outside 2..4 fail, in that order. With all checks met it succeeds, and the match is live, open and empty, and stores the given id, host, fee, rake and player count. |
| Escrow.MatchEscrow.JoinCheck | betting-contract/programs/betting-contract/src/lib.rs:48-67 | A join passes only on an open match with room (under the `<=` bound), a new player, and enough lamports for the fee and rent. |
| Escrow.MatchEscrow.JoinMatch | betting-contract/programs/betting-contract/src/lib.rs:39-94 | On success the fee moves to the match and player and deposit are pushed. On failure nothing changes. The total is kept. |
| Escrow.MatchEscrow.JoinAdmitsOnePastFull | betting-contract/programs/betting-contract/src/lib.rs:52-56 | The `<=` bound lets one player join a full match (below the account's room for four). |
| Escrow.MatchEscrow.LeaveMatch | betting-contract/programs/betting-contract/src/lib.rs:96-132 | A leave passes on an open match for a listed player. That player's deposit is returned, and player and deposit are removed at its index. |
| Escrow.MatchEscrow.LeaveCheck | betting-contract/programs/betting-contract/src/lib.rs:101-111 | A leave passes iff the match is open and the signer is a player. |
| Escrow.MatchEscrow.StartMatch | betting-contract/programs/betting-contract/src/lib.rs:134-146 | The host starts an open, full match, which becomes active. Otherwise nothing changes. |
| Escrow.MatchEscrow.StartCheck | betting-contract/programs/betting-contract/src/lib.rs:134-146 | A start passes iff the account is live, the signer is the host, the match is open, and exactly max_players have joined. A closed account fails to load before the host is compared. |
| Escrow.MatchEscrow.OverfullNeverStarts | betting-contract/programs/betting-contract/src/lib.rs:140-143 | A match with one player past max_players can never start. |
| Escrow.MatchEscrow.ActivePot | betting-contract/programs/betting-contract/src/lib.rs:134-146 | An active match holds exactly max_players fees. |
| Escrow.MatchEscrow.PayoutCheck | betting-contract/programs/betting-contract/src/lib.rs:155-177 | A payout passes iff the account is live, the host signs, the winner index is in range, the match is active, the account matches the winner, and the pot covers the rake. |
| Escrow.MatchEscrow.RefundStartCheck | betting-contract/programs/betting-contract/src/lib.rs:196-201 | A refund may start iff the account is live, the host signs, and the match is neither settled nor refunded. A closed account fails to load before the host is compared. |
| Escrow.MatchEscrow.SettleMatch | betting-contract/programs/betting-contract/src/lib.rs:148-227 | A winner index of 0 or more pays out; a negative one refunds. Each side has its own checks and ledger, and the total is kept. |
| Escrow.MatchEscrow.Payout | betting-contract/programs/betting-contract/src/lib.rs:155-194 | The rake goes to the host and the rest of the pot to the winner, and the match is settled. |
| Escrow.MatchEscrow.Refund | betting-contract/programs/betting-contract/src/lib.rs:195-226 | Each listed account gets its deposit back and the match is refunded. Any mismatch changes nothing. |
| Escrow.MatchEscrow.RefundLoop | betting-contract/programs/betting-contract/src/lib.rs:203-221 | The loop's outcome is RefundCheck's, and its ledger is Refunds of the listed accounts. |
| Escrow.MatchEscrow.CloseMatch | betting-contract/programs/betting-contract/src/lib.rs:229-237 | Only once, only the host, and only when settled or refunded, checked in that order. The account's lamports go to the host. |

## Left out

- Network I/O: WebSockets, the transport of the room service, and the server are not modelled. Emitted events are returned as lists instead.
- Timers and the clock: `setTimeout` is a flag for a pending timeout, and `Date.now()` is a `now` parameter.
  - The 100 ms delay of `LocalRoom.connect` is the split into Connect and FinishConnect.
  - The `await delay(...)` pauses of `onMessage` are dropped, so other messages cannot interleave with them.
- Randomness: the shuffle's `Math.random` is a nondeterministic pick. `pickRandomValidCard`'s index is a `pick` parameter taken modulo the candidate count.
- localStorage: it is the `saved` parameter of FinishConnect; JSON text is not modelled. Saving after every event is not modelled.
- Floating point: points are integer tenths, so `toFixed(2)` rounding is exact and not modelled.
- EngineState.CallbreakState.SubmitBid: bids are modelled as whole numbers. submitBid checks only `bid < 1 || bid > 8` on a JavaScript number, so a fractional bid such as 2.5 is accepted and then scores points that are not whole tenths. Neither is modelled.
- EngineGame.BidError: takes the bid as a whole number, for the same reason.
- Bots: their behaviour (`bot.ts`) is not part of this model. Messages to bots are ToBot events, and the actions a bot sends back are not wired.
- The game hosted by the room service and the lobby: it is abstract. Its allowStart/tryStart is a function of the roster, and its calls are logged.
- The players Map shared by reference between a room and its game is modelled as a fixed copy.
- Listener re-entrancy: an ack handed out by the client backlog is modelled as the separate Ack call.
- u64 arithmetic: overflow is not modelled, since balances are unbounded naturals. `checked_sub` is the rake check.
- Rent and PDA derivation: rent is a parameter and the match key is given. Because of the seed length, IdTooLong is in practice preceded by a seed failure; that failure is not modelled.
- `msg!` logging, and Anchor's account deserialisation beyond the errors named in the model, are not modelled.
- EngineGame.CallbreakGame.OnMessage: `console.log` is not modelled.
- LocalRoomService.LocalRoom.FinishConnect: states the status, the host, the seating of the local player, the restored game and the last two events. It does not spell out the events of the inner join or of the startGame request.
- RoomService.Room.Join: states the first two events (playerJoined and welcome) and the seating. It does not list the events of each bot's own join.
- RoomService.Room.Backfill and LocalRoomService.LocalRoom.Backfill: use the corrected bot id; the as-written loop is BackfillStallsOnTakenId.
- LocalRoomService.LocalRoom.Backfill: marks each bot's seated player with `isBot`. In the browser room the flag is set on the `Bot` object (`game-logic/src/bot.ts:19`), not on `bot.player`, so the seated player does not carry it. The local room never reads the flag, and its snapshots leave it out.
- Cards.Shuffle: states only that the result is a permutation; the uniform distribution of Fisher-Yates is not modelled.
- Escrow.MatchEscrow.CreateMatch: requires that the match key differs from the host, which the PDA derivation guarantees.

## Findings

| source | as written | input that shows it | evidently intended | confidence | as-written member | corrected member |
|---|---|---|---|---|---|---|
| callbreak-engine/src/game.ts:239-264 | An auto-played card goes through `playCard` but the trick is never resolved. After a timed-out fourth card the same player stays on turn, and the next timeout puts a fifth card on the table. `resolveTrick` then credits seat (lead + 4) % 4, the lead, for it. | West plays 5H as the fourth card of a heart trick by timeout. On the next timeout West auto-plays AS as a fifth card, which wins. North, the lead, is credited with it. | The fourth card, auto-played or not, resolves the trick as in `onMessage`. | not executed | EngineGame.CallbreakGame.OnTurnTimeout, EngineState.FifthCardMiscredited, EngineState.FifthCardCanWin | EngineGame.CallbreakGame.OnTurnTimeoutResolving |
| room-service/src/room.ts:92-98 | The bot id is `bot-${players.size + 1}`, which can be an id already seated. Map.set then overwrites that player, the size does not grow, and the while loop never ends. The same loop is at callbreak-ui/lib/LocalRoomService.ts:111-117. | A person with the id "bot-2" joins an empty room. | Each bot takes an id no seated player holds. | not executed | Roster.BackfillStallsOnTakenId | Roster.FreshBotId |
