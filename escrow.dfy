/**
 * The betting escrow of betting-contract/programs/betting-contract/src/lib.rs:
 * one match account (a program-derived address holding the players'
 * deposits) moving Open -> Active -> Settled, or to Refunded, and the
 * lamports of every account the instructions touch, kept as a ledger from
 * account key to balance. A Solana instruction that fails is rolled back,
 * so every instruction here either succeeds or changes nothing.
 */
module Escrow {
  import opened Wrappers

  const MAX_ID_LENGTH: nat := 32
  const MAX_PLAYERS: nat := 4

  type Pubkey = string

  /** The bytes one character takes in UTF-8, the encoding of a Rust String. */
  function Utf8Width(c: char): (n: nat)
    ensures 1 <= n <= 4 && (n == 1 <==> c as int < 0x80)
  {
    if c as int < 0x80 then 1
    else if c as int < 0x800 then 2
    else if c as int < 0x1_0000 then 3
    else 4
  }

  /** String::len: the length of the string in UTF-8 bytes, not in characters. */
  function Utf8Len(s: string): (n: nat)
    ensures |s| <= n <= 4 * |s|
    ensures n == |s| <==> forall i :: 0 <= i < |s| ==> s[i] as int < 0x80
  {
    if s == [] then 0 else Utf8Width(s[0]) + Utf8Len(s[1..])
  }

  /**
   * An id of characters outside ASCII takes at least two bytes for each, so
   * 17 such characters already exceed the 32-byte bound of create_match.
   */
  lemma {:induction false} Utf8LenNonAscii(s: string)
    requires forall i :: 0 <= i < |s| ==> s[i] as int >= 0x80
    ensures Utf8Len(s) >= 2 * |s|
    ensures |s| > MAX_ID_LENGTH / 2 ==> Utf8Len(s) > MAX_ID_LENGTH
  {
    if s != [] {
      Utf8LenNonAscii(s[1..]);
    }
  }
  newtype u8 = x: int | 0 <= x < 256
  newtype i8 = x: int | -128 <= x < 128

  datatype MatchStatus = Open | Active | Settled | Refunded | Cancelled

  /** The program's ErrorCode, and the failures the runtime raises around it. */
  datatype ErrorCode =
    | InvalidPlayers | IdTooLong | MatchNotOpen | NotAPlayer | AlreadyFunded | InvalidAmount
    | NotAllFunded | MatchNotActive | InvalidWinner | WinnerMismatch | NothingToPayout
    | CannotRefund | PlayerMismatchForRefund | InsufficientFunds | MatchNotSettledOrRefunded
    /** The signer is not the host the match account names (has_one = host). */
    | HasOneViolated
    /** The match account has been closed. */
    | AccountNotInitialized
    /** The account data no longer fits the space allocated at creation. */
    | AccountDidNotSerialize
    /** An index past the end of a vector or of the remaining accounts: the program panics. */
    | IndexOutOfBounds
    /** The system program's transfer failed for lack of lamports. */
    | TransferFailed

  // ---- the lamport ledger ----------------------------------------------------

  /** The lamports of an account; one the ledger does not list holds none. */
  function Balance(m: map<Pubkey, nat>, k: Pubkey): nat {
    if k in m then m[k] else 0
  }

  function Credit(m: map<Pubkey, nat>, k: Pubkey, a: nat): (r: map<Pubkey, nat>)
    ensures Balance(r, k) == Balance(m, k) + a
    ensures forall j :: j != k ==> Balance(r, j) == Balance(m, j)
  {
    if a == 0 then m else m[k := Balance(m, k) + a]
  }

  function Debit(m: map<Pubkey, nat>, k: Pubkey, a: nat): (r: map<Pubkey, nat>)
    requires Balance(m, k) >= a
    ensures Balance(r, k) == Balance(m, k) - a
    ensures forall j :: j != k ==> Balance(r, j) == Balance(m, j)
  {
    if a == 0 then m else m[k := Balance(m, k) - a]
  }

  /** `from -= a; to += a` on the lamports of two accounts. */
  function Transfer(m: map<Pubkey, nat>, from: Pubkey, to: Pubkey, a: nat): (r: map<Pubkey, nat>)
    requires Balance(m, from) >= a
    ensures from != to ==> Balance(r, from) == Balance(m, from) - a && Balance(r, to) == Balance(m, to) + a
    ensures forall j :: j != from && j != to ==> Balance(r, j) == Balance(m, j)
  {
    Credit(Debit(m, from, a), to, a)
  }

  ghost function PickKey(m: map<Pubkey, nat>): (k: Pubkey)
    requires m != map[]
    ensures k in m
  {
    var k :| k in m; k
  }

  /** All the lamports the ledger holds. */
  ghost function Total(m: map<Pubkey, nat>): nat
    decreases |m|
  {
    if m == map[] then 0 else var k := PickKey(m); m[k] + Total(m - {k})
  }

  /** Any one account's lamports and the rest make up the total, whichever account is taken first. */
  lemma {:induction false} TotalRemove(m: map<Pubkey, nat>, k: Pubkey)
    requires k in m
    ensures Total(m) == m[k] + Total(m - {k})
    decreases |m|
  {
    var j := PickKey(m);
    if j != k {
      TotalRemove(m - {j}, k);
      TotalRemove(m - {k}, j);
      assert m - {j} - {k} == m - {k} - {j};
    }
  }

  /** Setting one balance changes the total by exactly the change of that balance. */
  lemma TotalUpdate(m: map<Pubkey, nat>, k: Pubkey, v: nat)
    ensures Total(m[k := v]) == Total(m) - Balance(m, k) + v
  {
    TotalRemove(m[k := v], k);
    assert m[k := v] - {k} == m - {k};
    if k in m {
      TotalRemove(m, k);
    } else {
      assert m - {k} == m;
    }
  }

  /** A transfer moves lamports and creates or destroys none. */
  lemma TransferConserves(m: map<Pubkey, nat>, from: Pubkey, to: Pubkey, a: nat)
    requires Balance(m, from) >= a
    ensures Total(Transfer(m, from, to, a)) == Total(m)
  {
    var d := Debit(m, from, a);
    if a != 0 {
      TotalUpdate(m, from, Balance(m, from) - a);
      TotalUpdate(d, to, Balance(d, to) + a);
    }
  }

  // ---- deposits --------------------------------------------------------------

  /** The sum of the deposits. */
  function Sum(s: seq<nat>): nat {
    if s == [] then 0 else s[0] + Sum(s[1..])
  }

  lemma {:induction false} SumSplit(s: seq<nat>, i: nat)
    requires i <= |s|
    ensures Sum(s) == Sum(s[..i]) + Sum(s[i..])
  {
    if i > 0 {
      SumSplit(s[1..], i - 1);
      assert s[1..][..i - 1] == s[..i][1..];
      assert s[1..][i - 1..] == s[i..];
    } else {
      assert s[..0] == [] && s[0..] == s;
    }
  }

  /** Removing one deposit takes exactly that deposit off the pot. */
  lemma SumRemoveAt(s: seq<nat>, i: nat)
    requires i < |s|
    ensures Sum(s[..i] + s[i + 1..]) == Sum(s) - s[i]
  {
    SumSplit(s, i);
    SumSplit(s[..i] + s[i + 1..], i);
    assert (s[..i] + s[i + 1..])[..i] == s[..i];
    assert (s[..i] + s[i + 1..])[i..] == s[i + 1..];
    assert s[i..][1..] == s[i + 1..];
  }

  /** n deposits of the same fee make a pot of n times the fee. */
  lemma {:induction false} SumOfEqual(s: seq<nat>, fee: nat)
    requires forall i :: 0 <= i < |s| ==> s[i] == fee
    ensures Sum(s) == |s| * fee
  {
    if s != [] {
      SumOfEqual(s[1..], fee);
    }
  }

  /** The refund loop's outcome by the accounts it is given: Pass exactly when they are, in order, the first listed players. */
  function RefundCheck(players: seq<Pubkey>, accounts: seq<Pubkey>): (r: Outcome<ErrorCode>)
    ensures r.Pass? <==> |accounts| <= |players| && accounts == players[..|accounts|]
    ensures r.Fail? ==> r.error in {IndexOutOfBounds, PlayerMismatchForRefund}
  {
    if accounts == [] then Pass
    else if players == [] then Fail(IndexOutOfBounds)
    else if accounts[0] != players[0] then Fail(PlayerMismatchForRefund)
    else RefundCheck(players[1..], accounts[1..])
  }

  /** The refund loop's transfers: amts[i] from the match account to tos[i], in order. */
  function Refunds(m: map<Pubkey, nat>, from: Pubkey, tos: seq<Pubkey>, amts: seq<nat>): map<Pubkey, nat>
    requires |tos| == |amts| && from !in tos && Balance(m, from) >= Sum(amts)
    decreases |tos|
  {
    if tos == [] then m
    else Refunds(Transfer(m, from, tos[0], amts[0]), from, tos[1..], amts[1..])
  }

  /**
   * The refund loop after i accounts: they matched the first i players, the
   * rest of the check is the check of the remaining lists, and the ledger
   * holds the first i refunds.
   */
  ghost predicate RefundsSoFar(lamports: map<Pubkey, nat>, key: Pubkey, players: seq<Pubkey>, deposits: seq<nat>,
                               accounts: seq<Pubkey>, i: int, ledger: map<Pubkey, nat>)
    requires |players| == |deposits| && key !in players && Sum(deposits) <= Balance(lamports, key)
  {
    0 <= i <= |accounts| && i <= |players|
    && accounts[..i] == players[..i] && key !in accounts[..i]
    && RefundCheck(players, accounts) == RefundCheck(players[i..], accounts[i..])
    && Sum(deposits[..i]) <= Sum(deposits)
    && ledger == Refunds(lamports, key, accounts[..i], deposits[..i])
    && Balance(ledger, key) == Balance(lamports, key) - Sum(deposits[..i])
  }

  /** One pass of the refund loop, for an account that matches its player, keeps RefundsSoFar. */
  lemma RefundsSoFarStep(lamports: map<Pubkey, nat>, key: Pubkey, players: seq<Pubkey>, deposits: seq<nat>,
                         accounts: seq<Pubkey>, i: int, ledger: map<Pubkey, nat>)
    requires |players| == |deposits| && key !in players && Sum(deposits) <= Balance(lamports, key)
    requires RefundsSoFar(lamports, key, players, deposits, accounts, i, ledger)
    requires i < |accounts| && i < |players| && accounts[i] == players[i]
    ensures Balance(ledger, key) >= deposits[i]
    ensures RefundsSoFar(lamports, key, players, deposits, accounts, i + 1, Transfer(ledger, key, accounts[i], deposits[i]))
  {
    SumSplit(deposits, i + 1);
    assert deposits[..i + 1] == deposits[..i] + [deposits[i]];
    assert accounts[..i + 1] == accounts[..i] + [accounts[i]];
    assert players[..i + 1] == players[..i] + [players[i]];
    assert players[i + 1..] == players[i..][1..] && accounts[i + 1..] == accounts[i..][1..];
    assert players[i] in players;
    RefundsSnoc(lamports, key, accounts[..i], deposits[..i], accounts[i], deposits[i]);
  }

  /** One more refund at the end of the loop is one more transfer after the others. */
  lemma {:induction false} RefundsSnoc(m: map<Pubkey, nat>, from: Pubkey, tos: seq<Pubkey>, amts: seq<nat>, to: Pubkey, a: nat)
    requires |tos| == |amts| && from !in tos + [to] && Balance(m, from) >= Sum(amts + [a])
    ensures Sum(amts + [a]) == Sum(amts) + a
    ensures Balance(Refunds(m, from, tos, amts), from) == Balance(m, from) - Sum(amts)
    ensures Refunds(m, from, tos + [to], amts + [a]) == Transfer(Refunds(m, from, tos, amts), from, to, a)
    decreases |tos|
  {
    SumSplit(amts + [a], |amts|);
    assert (amts + [a])[..|amts|] == amts;
    assert (amts + [a])[|amts|..] == [a];
    if tos != [] {
      var m1 := Transfer(m, from, tos[0], amts[0]);
      assert (tos + [to])[1..] == tos[1..] + [to];
      assert (amts + [a])[1..] == amts[1..] + [a];
      RefundsSnoc(m1, from, tos[1..], amts[1..], to, a);
    }
  }

  /** The refunds conserve lamports, and each listed player gets its deposit back out of the match account. */
  lemma {:induction false} RefundsPay(m: map<Pubkey, nat>, from: Pubkey, tos: seq<Pubkey>, amts: seq<nat>)
    requires |tos| == |amts| && from !in tos && Balance(m, from) >= Sum(amts)
    requires forall i, k :: 0 <= i < k < |tos| ==> tos[i] != tos[k]
    ensures Total(Refunds(m, from, tos, amts)) == Total(m)
    ensures Balance(Refunds(m, from, tos, amts), from) == Balance(m, from) - Sum(amts)
    ensures forall i :: 0 <= i < |tos| ==> Balance(Refunds(m, from, tos, amts), tos[i]) == Balance(m, tos[i]) + amts[i]
    ensures forall j :: j != from && j !in tos ==> Balance(Refunds(m, from, tos, amts), j) == Balance(m, j)
    decreases |tos|
  {
    if tos != [] {
      var m1 := Transfer(m, from, tos[0], amts[0]);
      TransferConserves(m, from, tos[0], amts[0]);
      RefundsPay(m1, from, tos[1..], amts[1..]);
      var r := Refunds(m, from, tos, amts);
      forall i | 0 <= i < |tos| ensures Balance(r, tos[i]) == Balance(m, tos[i]) + amts[i] {
        if i > 0 {
          assert tos[i] == tos[1..][i - 1] && amts[i] == amts[1..][i - 1];
          assert tos[i] != tos[0];
        } else {
          assert tos[0] !in tos[1..] by {
            forall k | 0 <= k < |tos[1..]| ensures tos[1..][k] != tos[0] {
              assert tos[1..][k] == tos[k + 1];
            }
          }
        }
      }
    }
  }

  /** The winner branch's two transfers: the rake from the match account to the host, then the payout to the winner. */
  function PayoutLedger(m: map<Pubkey, nat>, from: Pubkey, host: Pubkey, winner: Pubkey, rake: nat, payout: nat): (r: map<Pubkey, nat>)
    requires from != host && from != winner && Balance(m, from) >= rake + payout
    ensures Total(r) == Total(m)
    ensures Balance(r, from) == Balance(m, from) - rake - payout
    ensures Balance(r, host) == Balance(m, host) + rake + (if winner == host then payout else 0)
    ensures winner != host ==> Balance(r, winner) == Balance(m, winner) + payout
    ensures forall j :: j != from && j != host && j != winner ==> Balance(r, j) == Balance(m, j)
  {
    var m1 := Transfer(m, from, host, rake);
    TransferConserves(m, from, host, rake);
    TransferConserves(m1, from, winner, payout);
    Transfer(m1, from, winner, payout)
  }

  predicate Unique(s: seq<Pubkey>) {
    forall i, k :: 0 <= i < k < |s| ==> s[i] != s[k]
  }

  /** The first index holding the key, as Vec's position search finds it. */
  function Position(s: seq<Pubkey>, key: Pubkey): (i: nat)
    requires key in s
    ensures i < |s| && s[i] == key && key !in s[..i]
  {
    if s[0] == key then 0 else 1 + Position(s[1..], key)
  }

  /** Removing one key from a list without repeats leaves a list without repeats, without that key, and without any key it lacked. */
  lemma RemoveAtKeeps(s: seq<Pubkey>, i: nat, k: Pubkey)
    requires i < |s| && Unique(s)
    ensures Unique(RemoveAt(s, i)) && s[i] !in RemoveAt(s, i)
    ensures k !in s ==> k !in RemoveAt(s, i)
  {
    var r := RemoveAt(s, i);
    forall a, b | 0 <= a < b < |r| ensures r[a] != r[b] {
      assert r[a] == s[if a < i then a else a + 1] && r[b] == s[if b < i then b else b + 1];
    }
    forall a | 0 <= a < |r| ensures r[a] != s[i] && r[a] in s {
      assert r[a] == s[if a < i then a else a + 1];
    }
  }

  /**
   * The match's two vectors: parallel, within the space for four players,
   * no player twice and never the match account itself, each deposit the fee.
   */
  predicate Listed(players: seq<Pubkey>, deposits: seq<nat>, fee: nat, key: Pubkey) {
    |players| == |deposits| && |players| <= MAX_PLAYERS
    && Unique(players) && key !in players
    && (forall i :: 0 <= i < |deposits| ==> deposits[i] == fee)
  }

  /** A player removed at its index from both vectors leaves them well formed, without that player, and the pot short by its deposit. */
  lemma LeaveKeepsListed(players: seq<Pubkey>, deposits: seq<nat>, fee: nat, key: Pubkey, i: nat)
    requires Listed(players, deposits, fee, key) && i < |players|
    ensures Listed(RemoveAt(players, i), RemoveAt(deposits, i), fee, key)
    ensures players[i] !in RemoveAt(players, i)
    ensures Sum(RemoveAt(deposits, i)) == Sum(deposits) - deposits[i]
  {
    RemoveAtKeeps(players, i, key);
    SumRemoveAt(deposits, i);
  }

  /** A new player appended to both vectors with the fee leaves them well formed when there is room, and adds the fee to the pot. */
  lemma JoinKeepsListed(players: seq<Pubkey>, deposits: seq<nat>, fee: nat, key: Pubkey, player: Pubkey)
    requires Listed(players, deposits, fee, key) && player !in players && player != key && |players| < MAX_PLAYERS
    ensures Listed(players + [player], deposits + [fee], fee, key)
    ensures Sum(deposits + [fee]) == Sum(deposits) + fee
  {
    SumSplit(deposits + [fee], |deposits|);
    assert (deposits + [fee])[..|deposits|] == deposits;
    assert (deposits + [fee])[|deposits|..] == [fee];
  }

  /** Vec::remove: the element at i goes, the others close up in order. */
  function RemoveAt<T>(s: seq<T>, i: nat): (r: seq<T>)
    requires i < |s|
    ensures |r| == |s| - 1
    ensures forall k :: 0 <= k < |r| ==> r[k] == if k < i then s[k] else s[k + 1]
  {
    s[..i] + s[i + 1..]
  }

  // ---- the match account -----------------------------------------------------

  class MatchEscrow {
    /** The match account's own address. */
    const key: Pubkey
    var host: Pubkey
    var id: string
    var roomFee: nat
    var rake: nat
    var players: seq<Pubkey>
    var deposits: seq<nat>
    var status: MatchStatus
    var maxPlayers: nat
    /** Whether close_match has closed the account. */
    var closed: bool
    /** The lamports of every account, the match account's own among them. */
    var lamports: map<Pubkey, nat>

    /**
     * The vectors stay parallel and within the space the account was
     * created with; each deposit is the room fee; an active match is full;
     * and until it is settled or refunded the match account holds the pot.
     */
    ghost predicate Valid()
      reads this
    {
      Utf8Len(id) <= MAX_ID_LENGTH && roomFee > 0 && 2 <= maxPlayers <= MAX_PLAYERS && host != key
      && Listed(players, deposits, roomFee, key)
      && (status == Active ==> |players| == maxPlayers)
      && (status != Settled && status != Refunded ==> Balance(lamports, key) >= Sum(deposits))
    }

    constructor (matchKey: Pubkey, hostKey: Pubkey, matchId: string, fee: nat, matchRake: nat, numPlayers: nat, ledger: map<Pubkey, nat>)
      ensures key == matchKey && host == hostKey && id == matchId && roomFee == fee && rake == matchRake
      ensures maxPlayers == numPlayers && players == [] && deposits == [] && status == Open && !closed && lamports == ledger
    {
      key := matchKey;
      host := hostKey;
      id := matchId;
      roomFee := fee;
      rake := matchRake;
      maxPlayers := numPlayers;
      players := [];
      deposits := [];
      status := Open;
      closed := false;
      lamports := ledger;
    }

    /**
     * create_match: the host pays the new account's rent, then the id, fee
     * and player count are checked; the match opens with no players.
     */
    static method CreateMatch(matchKey: Pubkey, host: Pubkey, id: string, fee: nat, rake: nat, numPlayers: u8,
                              rent: nat, ledger: map<Pubkey, nat>)
      returns (r: Result<MatchEscrow, ErrorCode>)
      requires host != matchKey
      ensures Balance(ledger, host) < rent ==> r == Failure(TransferFailed)
      ensures Balance(ledger, host) >= rent ==>
        if Utf8Len(id) > MAX_ID_LENGTH then r == Failure(IdTooLong)
        else if fee == 0 then r == Failure(InvalidAmount)
        else if !(2 <= numPlayers as nat <= MAX_PLAYERS) then r == Failure(InvalidPlayers)
        else r.Success?
      ensures r.Success? ==>
        fresh(r.value) && r.value.Valid() && r.value.status == Open && r.value.players == [] && r.value.deposits == []
        && r.value.key == matchKey && r.value.host == host && r.value.id == id && !r.value.closed
        && r.value.roomFee == fee && r.value.rake == rake
        && r.value.maxPlayers == numPlayers as nat
        && r.value.lamports == Transfer(ledger, host, matchKey, rent) && Total(r.value.lamports) == Total(ledger)
    {
      if Balance(ledger, host) < rent {
        return Failure(TransferFailed);
      }
      if Utf8Len(id) > MAX_ID_LENGTH {
        return Failure(IdTooLong);
      }
      if fee == 0 {
        return Failure(InvalidAmount);
      }
      if !(2 <= numPlayers as nat <= MAX_PLAYERS) {
        return Failure(InvalidPlayers);
      }
      TransferConserves(ledger, host, matchKey, rent);
      var m := new MatchEscrow(matchKey, host, id, fee, rake, numPlayers as nat, Transfer(ledger, host, matchKey, rent));
      r := Success(m);
    }

    /**
     * The checks of join_match, in order: open, the player bound (with
     * `<=`, so one player past maxPlayers gets in), not listed yet, funds
     * for the fee over the player's rent minimum, and the account space.
     */
    function JoinCheck(player: Pubkey, minimumBalance: nat): (r: Outcome<ErrorCode>)
      reads this
      ensures r.Pass? ==> !closed && status == Open && |players| <= maxPlayers && |players| < MAX_PLAYERS
      ensures r.Pass? ==> player !in players && Balance(lamports, player) >= roomFee + minimumBalance
    {
      if closed then Fail(AccountNotInitialized)
      else if status != Open then Fail(MatchNotOpen)
      else if !(|players| <= maxPlayers) then Fail(InvalidPlayers)
      else if player in players then Fail(AlreadyFunded)
      else if Balance(lamports, player) < roomFee + minimumBalance then Fail(InsufficientFunds)
      else if |players| + 1 > MAX_PLAYERS then Fail(AccountDidNotSerialize)
      else Pass
    }

    /** join_match: the player pays the room fee into the match account and is listed with that deposit. */
    method JoinMatch(player: Pubkey, minimumBalance: nat) returns (r: Outcome<ErrorCode>)
      requires Valid() && player != key
      modifies this`players, this`deposits, this`lamports
      ensures Valid() && r == old(JoinCheck(player, minimumBalance))
      ensures r.Fail? ==> unchanged(this`players, this`deposits, this`lamports)
      ensures r.Pass? ==>
        players == old(players) + [player] && deposits == old(deposits) + [roomFee]
        && lamports == Transfer(old(lamports), player, key, roomFee)
      ensures Total(lamports) == Total(old(lamports))
    {
      r := JoinCheck(player, minimumBalance);
      if r.Fail? {
        return;
      }
      TransferConserves(lamports, player, key, roomFee);
      lamports := Transfer(lamports, player, key, roomFee);
      JoinKeepsListed(players, deposits, roomFee, key, player);
      players := players + [player];
      deposits := deposits + [roomFee];
    }

    /** The `<=` bound of join_match lets an open match that is already full take one more player, up to the space for four. */
    lemma JoinAdmitsOnePastFull(player: Pubkey, minimumBalance: nat)
      requires Valid() && !closed && status == Open && |players| == maxPlayers && maxPlayers < MAX_PLAYERS
      requires player !in players && Balance(lamports, player) >= roomFee + minimumBalance
      ensures JoinCheck(player, minimumBalance) == Pass
    {
    }

    /** leave_match: an open match's player gets the deposit back and leaves both vectors at its index. */
    method LeaveMatch(player: Pubkey) returns (r: Outcome<ErrorCode>)
      requires Valid() && player != key
      modifies this`players, this`deposits, this`lamports
      ensures Valid() && r == old(LeaveCheck(player))
      ensures r.Fail? ==> unchanged(this`players, this`deposits, this`lamports)
      ensures r.Pass? ==>
        var i := Position(old(players), player);
        players == RemoveAt(old(players), i) && deposits == RemoveAt(old(deposits), i)
        && player !in players && old(deposits)[i] <= Balance(old(lamports), key)
        && lamports == Transfer(old(lamports), key, player, old(deposits)[i])
      ensures Total(lamports) == Total(old(lamports))
    {
      r := LeaveCheck(player);
      if r.Pass? {
        var i := Position(players, player);
        var amount := deposits[i];
        LeaveKeepsListed(players, deposits, roomFee, key, i);
        TransferConserves(lamports, key, player, amount);
        lamports := Transfer(lamports, key, player, amount);
        players := RemoveAt(players, i);
        deposits := RemoveAt(deposits, i);
      }
    }

    /** The checks of leave_match, in order. */
    function LeaveCheck(player: Pubkey): (r: Outcome<ErrorCode>)
      reads this
      ensures r.Pass? <==> !closed && status == Open && player in players
    {
      if closed then Fail(AccountNotInitialized)
      else if status != Open then Fail(MatchNotOpen)
      else if player !in players then Fail(NotAPlayer)
      else Pass
    }

    /** start_match: the host starts an open match once exactly maxPlayers are in. */
    method StartMatch(signer: Pubkey) returns (r: Outcome<ErrorCode>)
      requires Valid()
      modifies this`status
      ensures Valid()
      ensures r == old(StartCheck(signer))
      ensures r.Fail? ==> status == old(status)
      ensures r.Pass? ==> status == Active
    {
      r := StartCheck(signer);
      if r.Pass? {
        status := Active;
      }
    }

    function StartCheck(signer: Pubkey): (r: Outcome<ErrorCode>)
      reads this
      ensures r.Pass? <==> signer == host && !closed && status == Open && |players| == maxPlayers
    {
      if closed then Fail(AccountNotInitialized)
      else if signer != host then Fail(HasOneViolated)
      else if status != Open then Fail(MatchNotOpen)
      else if |players| != maxPlayers then Fail(NotAllFunded)
      else Pass
    }

    /** A match that took a player past maxPlayers cannot start until one leaves. */
    lemma OverfullNeverStarts(signer: Pubkey)
      requires Valid() && signer == host && !closed && status == Open && |players| > maxPlayers
      ensures StartCheck(signer) == Fail(NotAllFunded)
    {
    }

    /** An active match's pot is maxPlayers room fees. */
    lemma ActivePot()
      requires Valid() && status == Active
      ensures Sum(deposits) == maxPlayers * roomFee
    {
      SumOfEqual(deposits, roomFee);
    }

    /** The checks of settle_match with a winner index, in order. */
    function PayoutCheck(signer: Pubkey, winnerIndex: nat, accounts: seq<Pubkey>): (r: Outcome<ErrorCode>)
      reads this
      ensures r.Pass? <==>
        signer == host && !closed && winnerIndex < |players| && status == Active && winnerIndex < |accounts|
        && accounts[winnerIndex] == players[winnerIndex] && rake <= Sum(deposits)
    {
      if closed then Fail(AccountNotInitialized)
      else if signer != host then Fail(HasOneViolated)
      else if winnerIndex >= |players| then Fail(InvalidWinner)
      else if status != Active then Fail(MatchNotActive)
      else if winnerIndex >= |accounts| then Fail(IndexOutOfBounds)
      else if accounts[winnerIndex] != players[winnerIndex] then Fail(WinnerMismatch)
      else if rake > Sum(deposits) then Fail(NothingToPayout)
      else Pass
    }

    /** The checks before the refund loop of settle_match. */
    function RefundStartCheck(signer: Pubkey): (r: Outcome<ErrorCode>)
      reads this
      ensures r.Pass? <==> signer == host && !closed && status != Settled && status != Refunded
    {
      if closed then Fail(AccountNotInitialized)
      else if signer != host then Fail(HasOneViolated)
      else if status == Settled || status == Refunded then Fail(CannotRefund)
      else Pass
    }

    /**
     * settle_match: with an index, the host takes the rake and the winner
     * the rest of the pot; with a negative one, the accounts given are
     * refunded their deposits in order.
     */
    method SettleMatch(signer: Pubkey, winnerIndex: i8, accounts: seq<Pubkey>) returns (r: Outcome<ErrorCode>)
      requires Valid()
      modifies this`status, this`lamports
      ensures Valid()
      ensures Total(lamports) == Total(old(lamports))
      ensures r.Fail? ==> unchanged(this`status, this`lamports)
      ensures winnerIndex >= 0 ==> r == old(PayoutCheck(signer, winnerIndex as nat, accounts))
      ensures winnerIndex >= 0 && r.Pass? ==>
        status == Settled && winnerIndex as nat < |accounts| && rake <= Sum(deposits) <= Balance(old(lamports), key)
        && key != host && key != accounts[winnerIndex as nat]
        && lamports == PayoutLedger(old(lamports), key, host, accounts[winnerIndex as nat], rake, Sum(deposits) - rake)
      ensures winnerIndex < 0 ==>
        r == (if old(RefundStartCheck(signer)).Fail? then old(RefundStartCheck(signer)) else RefundCheck(players, accounts))
      ensures winnerIndex < 0 && r.Pass? ==>
        status == Refunded && |accounts| <= |players| && key !in accounts
        && Sum(deposits[..|accounts|]) <= Balance(old(lamports), key)
        && lamports == Refunds(old(lamports), key, accounts, deposits[..|accounts|])
    {
      if winnerIndex >= 0 {
        r := Payout(signer, winnerIndex as nat, accounts);
      } else {
        r := Refund(signer, accounts);
      }
    }

    /** The winner branch of settle_match: rake to the host, the rest of the pot to the winner. */
    method Payout(signer: Pubkey, winnerIndex: nat, accounts: seq<Pubkey>) returns (r: Outcome<ErrorCode>)
      requires Valid()
      modifies this`status, this`lamports
      ensures Valid() && r == old(PayoutCheck(signer, winnerIndex, accounts))
      ensures Total(lamports) == Total(old(lamports))
      ensures r.Fail? ==> unchanged(this`status, this`lamports)
      ensures r.Pass? ==>
        status == Settled && winnerIndex < |accounts| && rake <= Sum(deposits) <= Balance(old(lamports), key)
        && key != host && key != accounts[winnerIndex]
        && lamports == PayoutLedger(old(lamports), key, host, accounts[winnerIndex], rake, Sum(deposits) - rake)
    {
      r := PayoutCheck(signer, winnerIndex, accounts);
      if r.Fail? {
        return;
      }
      var winner := accounts[winnerIndex];
      assert winner != key by { assert winner == players[winnerIndex]; }
      lamports := PayoutLedger(lamports, key, host, winner, rake, Sum(deposits) - rake);
      status := Settled;
    }

    /** The refund branch of settle_match: the accounts given are refunded in order, and the match is marked refunded. */
    method Refund(signer: Pubkey, accounts: seq<Pubkey>) returns (r: Outcome<ErrorCode>)
      requires Valid()
      modifies this`status, this`lamports
      ensures Valid()
      ensures Total(lamports) == Total(old(lamports))
      ensures r == (if old(RefundStartCheck(signer)).Fail? then old(RefundStartCheck(signer)) else RefundCheck(players, accounts))
      ensures r.Fail? ==> unchanged(this`status, this`lamports)
      ensures r.Pass? ==>
        status == Refunded && |accounts| <= |players| && key !in accounts
        && Sum(deposits[..|accounts|]) <= Balance(old(lamports), key)
        && lamports == Refunds(old(lamports), key, accounts, deposits[..|accounts|])
    {
      r := RefundStartCheck(signer);
      if r.Fail? {
        return;
      }
      var ledger;
      r, ledger := RefundLoop(accounts);
      if r.Fail? {
        return;
      }
      RefundsPay(lamports, key, accounts, deposits[..|accounts|]);
      lamports := ledger;
      status := Refunded;
    }

    /**
     * The refund loop on a copy of the ledger: the i-th account must be the
     * i-th listed player and gets that player's deposit; the first account
     * that fails the check fails the whole instruction.
     */
    method RefundLoop(accounts: seq<Pubkey>) returns (r: Outcome<ErrorCode>, ledger: map<Pubkey, nat>)
      requires |players| == |deposits| && key !in players && Sum(deposits) <= Balance(lamports, key)
      ensures r == RefundCheck(players, accounts)
      ensures r.Pass? ==>
        |accounts| <= |players| && key !in accounts && Sum(deposits[..|accounts|]) <= Balance(lamports, key)
        && ledger == Refunds(lamports, key, accounts, deposits[..|accounts|])
    {
      ledger := lamports;
      var i := 0;
      while i < |accounts|
        invariant RefundsSoFar(lamports, key, players, deposits, accounts, i, ledger)
      {
        if i >= |players| {
          return Fail(IndexOutOfBounds), ledger;
        }
        if accounts[i] != players[i] {
          return Fail(PlayerMismatchForRefund), ledger;
        }
        RefundsSoFarStep(lamports, key, players, deposits, accounts, i, ledger);
        ledger := Transfer(ledger, key, accounts[i], deposits[i]);
        i := i + 1;
      }
      assert accounts[..i] == accounts;
      r := Pass;
    }

    /** close_match: a settled or refunded match is closed and its remaining lamports go to the host. */
    method CloseMatch(signer: Pubkey) returns (r: Outcome<ErrorCode>)
      requires Valid()
      modifies this`closed, this`lamports
      ensures Valid()
      ensures Total(lamports) == Total(old(lamports))
      ensures r == (if old(closed) then Fail(AccountNotInitialized)
                    else if signer != host then Fail(HasOneViolated)
                    else if status != Settled && status != Refunded then Fail(MatchNotSettledOrRefunded)
                    else Pass)
      ensures r.Fail? ==> unchanged(this`closed, this`lamports)
      ensures r.Pass? ==>
        closed && Balance(lamports, key) == 0
        && Balance(lamports, host) == Balance(old(lamports), host) + Balance(old(lamports), key)
    {
      if closed {
        return Fail(AccountNotInitialized);
      }
      if signer != host {
        return Fail(HasOneViolated);
      }
      if status != Settled && status != Refunded {
        return Fail(MatchNotSettledOrRefunded);
      }
      TransferConserves(lamports, key, host, Balance(lamports, key));
      lamports := Transfer(lamports, key, host, Balance(lamports, key));
      closed := true;
      r := Pass;
    }
  }
}
