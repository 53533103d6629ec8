/** What the wallet operations mean for the money on the books. */
module LedgerLaws {
  import opened Collections
  import opened Ledger

  // ---------------------------------------------------------------------------------------------
  // Escrow
  // ---------------------------------------------------------------------------------------------

  /** The HELD total of one game. */
  ghost function HeldOf(holds: seq<Hold>, game: GameId): int {
    if holds == [] then 0 else
      var h := holds[|holds| - 1];
      HeldOf(holds[..|holds| - 1], game) + if h.gameId == game && h.status == HELD then h.amount else 0
  }

  /** The part of it that one wallet put in. */
  ghost function HeldBy(holds: seq<Hold>, game: GameId, user: UserId): int {
    if holds == [] then 0 else
      var h := holds[|holds| - 1];
      HeldBy(holds[..|holds| - 1], game, user) +
      if h.gameId == game && h.wallet == user && h.status == HELD then h.amount else 0
  }

  ghost function StakeIn(h: Hold, game: GameId, user: UserId): int {
    if h.gameId == game && h.wallet == user then h.amount else 0
  }

  ghost function HeldTotal(holds: seq<Hold>): int {
    if holds == [] then 0 else
      var h := holds[|holds| - 1];
      HeldTotal(holds[..|holds| - 1]) + if h.status == HELD then h.amount else 0
  }

  /** All the money the service knows of: balances and money in escrow. */
  ghost function Money(b: Books): int {
    Total(b.balances) + HeldTotal(b.holds)
  }

  /** A bulk status change away from HELD takes exactly the game's HELD total out of escrow. */
  lemma {:induction false} RestatusEmptiesGame(holds: seq<Hold>, game: GameId, status: HoldStatus)
    requires status != HELD
    ensures HeldTotal(Restatus(holds, game, status)) == HeldTotal(holds) - HeldOf(holds, game)
    ensures HeldOf(Restatus(holds, game, status), game) == 0
    ensures forall u :: HeldBy(Restatus(holds, game, status), game, u) == 0
  {
    if holds != [] {
      var front := holds[..|holds| - 1];
      RestatusEmptiesGame(front, game, status);
      assert Restatus(holds, game, status)[..|holds| - 1] == Restatus(front, game, status);
    }
  }

  lemma {:induction false} RestatusSparesOthers(holds: seq<Hold>, game: GameId, status: HoldStatus, other: GameId)
    requires other != game
    ensures HeldOf(Restatus(holds, game, status), other) == HeldOf(holds, other)
    ensures forall u :: HeldBy(Restatus(holds, game, status), other, u) == HeldBy(holds, other, u)
  {
    if holds != [] {
      var front := holds[..|holds| - 1];
      RestatusSparesOthers(front, game, status, other);
      assert Restatus(holds, game, status)[..|holds| - 1] == Restatus(front, game, status);
    }
  }

  lemma HoldsGrow(holds: seq<Hold>, h: Hold)
    requires h.status == HELD
    ensures HeldTotal(holds + [h]) == HeldTotal(holds) + h.amount
    ensures forall g :: HeldOf(holds + [h], g) == HeldOf(holds, g) + if g == h.gameId then h.amount else 0
    ensures forall g, u :: HeldBy(holds + [h], g, u) == HeldBy(holds, g, u) + StakeIn(h, g, u)
  {
    assert (holds + [h])[..|holds|] == holds;
  }

  // ---------------------------------------------------------------------------------------------
  // The reversal loop against a plain sum
  // ---------------------------------------------------------------------------------------------

  /** The signed amount of the last reversible row of a wallet: the only one whose effect survives the loop. */
  ghost function LastSigned(txs: seq<Row>, user: UserId): int {
    if txs == [] then 0 else
      var t := txs[|txs| - 1];
      if t.wallet == user && Reversible(t) then Signed(t) else LastSigned(txs[..|txs| - 1], user)
  }

  /** What undoing all of a wallet's reversible rows would give back. */
  ghost function SignedSum(txs: seq<Row>, user: UserId): int {
    if txs == [] then 0 else
      var t := txs[|txs| - 1];
      SignedSum(txs[..|txs| - 1], user) + if t.wallet == user && Reversible(t) then Signed(t) else 0
  }

  /** The absolute amounts of the same rows, which is what their REFUND rows record. */
  ghost function AmountSum(txs: seq<Row>, user: UserId): int {
    if txs == [] then 0 else
      var t := txs[|txs| - 1];
      AmountSum(txs[..|txs| - 1], user) + if t.wallet == user && Reversible(t) then t.amount else 0
  }

  ghost predicate Touches(txs: seq<Row>, user: UserId) {
    exists i :: 0 <= i < |txs| && txs[i].wallet == user && Reversible(txs[i])
  }

  /** No two reversible rows share a wallet. */
  ghost predicate DistinctWallets(txs: seq<Row>) {
    forall i, j :: 0 <= i < j < |txs| && Reversible(txs[i]) && Reversible(txs[j]) ==> txs[i].wallet != txs[j].wallet
  }

  ghost predicate NoPayout(txs: seq<Row>) {
    forall i :: 0 <= i < |txs| ==> txs[i].kind != PAYOUT
  }

  ghost predicate Positive(txs: seq<Row>) {
    forall i :: 0 <= i < |txs| ==> txs[i].amount > 0
  }

  lemma {:induction false} ReversedKeepsLast(loaded: map<UserId, int>, txs: seq<Row>, user: UserId)
    requires user in loaded
    ensures Reversed(loaded, txs)[user] == loaded[user] + LastSigned(txs, user)
  {
    if txs != [] {
      ReversedKeepsLast(loaded, txs[..|txs| - 1], user);
    }
  }

  lemma {:induction false} UntouchedSums(txs: seq<Row>, user: UserId)
    requires !Touches(txs, user)
    ensures LastSigned(txs, user) == SignedSum(txs, user) == AmountSum(txs, user) == 0
  {
    if txs != [] {
      var front := txs[..|txs| - 1];
      assert forall i :: 0 <= i < |front| ==> front[i] == txs[i];
      UntouchedSums(front, user);
    }
  }

  lemma {:induction false} DistinctLastIsSum(txs: seq<Row>, user: UserId)
    requires DistinctWallets(txs)
    ensures LastSigned(txs, user) == SignedSum(txs, user)
  {
    if txs != [] {
      var front, t := txs[..|txs| - 1], txs[|txs| - 1];
      if t.wallet == user && Reversible(t) {
        UntouchedSums(front, user);
      } else {
        DistinctLastIsSum(front, user);
      }
    }
  }

  /**
   * The reversal loop refines a simple sum: if the game's reversible rows sit on pairwise distinct
   * wallets, every wallet gets its old balance plus its signed amounts, no other wallet changes, every
   * hold of the game ends REFUNDED and every other hold is left alone.
   */
  lemma RevertRefinesSum(b: Books, game: GameId)
    requires DistinctWallets(RowsOf(b.rows, game))
    requires RevertGame(b, game).1 == Done
    ensures var b' := RevertGame(b, game).0; var txs := RowsOf(b.rows, game);
            && b'.balances.Keys == b.balances.Keys
            && (forall u :: u in b.balances ==> b'.balances[u] == b.balances[u] + SignedSum(txs, u))
            && (forall u :: u in b.balances && !Touches(txs, u) ==> b'.balances[u] == b.balances[u])
            && |b'.holds| == |b.holds|
            && (forall i :: 0 <= i < |b.holds| ==>
                  b'.holds[i] == if b.holds[i].gameId == game then b.holds[i].(status := REFUNDED) else b.holds[i])
  {
    var txs := RowsOf(b.rows, game);
    forall u | u in b.balances
      ensures RevertGame(b, game).0.balances[u] == b.balances[u] + SignedSum(txs, u)
      ensures !Touches(txs, u) ==> SignedSum(txs, u) == 0
    {
      ReversedKeepsLast(b.balances, txs, u);
      DistinctLastIsSum(txs, u);
      if !Touches(txs, u) {
        UntouchedSums(txs, u);
      }
    }
  }

  /** With positive amounts, a wallet with two reversible rows, or with a payout, loses part of its sum. */
  lemma {:induction false} LastFallsShort(txs: seq<Row>, user: UserId)
    requires Positive(txs)
    ensures AmountSum(txs, user) >= LastSigned(txs, user)
    ensures Touches(txs, user) ==> AmountSum(txs, user) > 0
  {
    if txs != [] {
      var front, t := txs[..|txs| - 1], txs[|txs| - 1];
      LastFallsShort(front, user);
      if !Touches(front, user) {
        UntouchedSums(front, user);
      }
      if Touches(txs, user) && !(t.wallet == user && Reversible(t)) {
        var i :| 0 <= i < |txs| && txs[i].wallet == user && Reversible(txs[i]);
        assert front[i] == txs[i];
      }
    }
  }

  ghost predicate GivesAllBack(txs: seq<Row>, user: UserId) {
    LastSigned(txs, user) == AmountSum(txs, user)
  }

  lemma DistinctSplit(txs: seq<Row>)
    requires txs != []
    ensures var front, t := txs[..|txs| - 1], txs[|txs| - 1];
            DistinctWallets(txs) <==> DistinctWallets(front) && (Reversible(t) ==> !Touches(front, t.wallet))
  {
    var front, t := txs[..|txs| - 1], txs[|txs| - 1];
    assert txs == front + [t];
  }

  lemma {:induction false} LastReachesSumIff(txs: seq<Row>)
    requires Positive(txs)
    ensures (forall u :: GivesAllBack(txs, u)) <==> DistinctWallets(txs) && NoPayout(txs)
  {
    if txs != [] {
      var front, t := txs[..|txs| - 1], txs[|txs| - 1];
      LastReachesSumIff(front);
      DistinctSplit(txs);
      assert NoPayout(txs) <==> NoPayout(front) && t.kind != PAYOUT;
      LastFallsShort(front, t.wallet);
      if DistinctWallets(txs) && NoPayout(txs) {
        if Reversible(t) {
          UntouchedSums(front, t.wallet);
        }
        forall u
          ensures GivesAllBack(txs, u)
        {
          assert GivesAllBack(front, u);
        }
      } else if DistinctWallets(front) && NoPayout(front) {
        assert Reversible(t);
        if t.kind == WAGER {
          assert Touches(front, t.wallet);
        } else if !Touches(front, t.wallet) {
          UntouchedSums(front, t.wallet);
        }
        assert !GivesAllBack(txs, t.wallet);
      } else {
        var u :| !GivesAllBack(front, u);
        LastFallsShort(front, u);
        if !Touches(front, u) {
          UntouchedSums(front, u);
        }
        assert !GivesAllBack(txs, u);
      }
    }
  }

  // ---------------------------------------------------------------------------------------------
  // The ledger identity
  // ---------------------------------------------------------------------------------------------

  /** What one COMPLETED row says happened to its wallet; a REFUND row always reads as money given back. */
  function Effect(t: Row): int {
    if t.status != COMPLETED then 0
    else if t.kind == WITHDRAW || t.kind == WAGER then -t.amount
    else t.amount
  }

  ghost function Net(rows: seq<Row>, user: UserId): int {
    if rows == [] then 0 else
      var t := rows[|rows| - 1];
      Net(rows[..|rows| - 1], user) + if t.wallet == user then Effect(t) else 0
  }

  /** Every balance is the opening balance plus what the wallet's rows add up to. */
  ghost predicate Balanced(b: Books) {
    forall u :: u in b.balances ==> b.balances[u] == STARTING_BALANCE + Net(b.rows, u)
  }

  ghost predicate Known(b: Books) {
    && (forall i :: 0 <= i < |b.rows| ==> b.rows[i].wallet in b.balances)
    && (forall i :: 0 <= i < |b.holds| ==> b.holds[i].wallet in b.balances)
  }

  ghost predicate Solvent(b: Books) {
    forall u :: u in b.balances ==> b.balances[u] >= 0
  }

  lemma {:induction false} NetAppend(rows: seq<Row>, more: seq<Row>, user: UserId)
    ensures Net(rows + more, user) == Net(rows, user) + Net(more, user)
  {
    if more == [] {
      assert rows + more == rows;
    } else {
      var all := rows + more;
      assert all[..|all| - 1] == rows + more[..|more| - 1];
      NetAppend(rows, more[..|more| - 1], user);
    }
  }

  lemma NetLast(rows: seq<Row>, t: Row, user: UserId)
    ensures Net(rows + [t], user) == Net(rows, user) + if t.wallet == user then Effect(t) else 0
  {
    assert (rows + [t])[..|rows|] == rows;
  }

  lemma {:induction false} NetOfUnknown(rows: seq<Row>, user: UserId)
    requires forall i :: 0 <= i < |rows| ==> rows[i].wallet != user
    ensures Net(rows, user) == 0
  {
    if rows != [] {
      NetOfUnknown(rows[..|rows| - 1], user);
    }
  }

  lemma {:induction false} RowsOfAreRows(rows: seq<Row>, game: GameId)
    ensures forall t :: t in RowsOf(rows, game) <==> t in rows && t.reference == game && t.status == COMPLETED
  {
    if rows != [] {
      var front := rows[..|rows| - 1];
      RowsOfAreRows(front, game);
      assert rows == front + [rows[|rows| - 1]];
    }
  }

  /** The REFUND rows record, for each wallet, the amounts of all its reversed rows. */
  lemma {:induction false} RefundsRecordAmounts(loaded: map<UserId, int>, txs: seq<Row>, game: GameId, user: UserId)
    requires user in loaded
    ensures Net(Refunds(loaded, txs, game), user) == AmountSum(txs, user)
    ensures forall t :: t in Refunds(loaded, txs, game) ==>
      && t.wallet in loaded && t.kind == REFUND && t.status == COMPLETED && t.reference == game
  {
    if txs != [] {
      var front, t := txs[..|txs| - 1], txs[|txs| - 1];
      RefundsRecordAmounts(loaded, front, game, user);
      if t.wallet in loaded && Reversible(t) {
        var r := Row(t.wallet, t.amount, REFUND, COMPLETED, game);
        NetLast(Refunds(loaded, front, game), r, user);
        assert Refunds(loaded, txs, game) == Refunds(loaded, front, game) + [r];
      } else {
        assert Refunds(loaded, txs, game) == Refunds(loaded, front, game);
      }
    }
  }

  lemma PostStaysBalanced(b: Books, user: UserId, t: Row)
    requires Known(b) && Balanced(b)
    requires user in b.balances && t.wallet == user && t.status == COMPLETED
    ensures var b' := Post(b, user, Effect(t), t.amount, t.kind, t.reference);
            Known(b') && Balanced(b')
  {
    hide Net, Effect;
    var b' := Post(b, user, Effect(t), t.amount, t.kind, t.reference);
    assert b'.rows == b.rows + [t];
    forall u | u in b'.balances
      ensures b'.balances[u] == STARTING_BALANCE + Net(b'.rows, u)
    {
      NetLast(b.rows, t, u);
    }
  }

  lemma RevertedBalance(b: Books, game: GameId, u: UserId)
    requires Balanced(b) && u in b.balances && RowsOf(b.rows, game) != []
    ensures var b' := RevertGame(b, game).0;
            b'.balances[u] == STARTING_BALANCE + Net(b'.rows, u) <==> GivesAllBack(RowsOf(b.rows, game), u)
  {
    var txs := RowsOf(b.rows, game);
    ReversedKeepsLast(b.balances, txs, u);
    RefundsRecordAmounts(b.balances, txs, game, u);
    NetAppend(b.rows, Refunds(b.balances, txs, game), u);
    hide Net, Refunds, Reversed, RowsOf, LastSigned, AmountSum, Restatus;
  }

  /**
   * Reverting keeps the ledger identity exactly when the game's rows hold no payout and at most one
   * wager for each wallet: otherwise the loop overwrites a balance or takes money away, while the
   * REFUND rows say that every amount was given back.
   */
  lemma RevertKeepsIdentityIff(b: Books, game: GameId)
    requires Known(b) && Balanced(b)
    requires Positive(RowsOf(b.rows, game))
    ensures var txs := RowsOf(b.rows, game);
            Balanced(RevertGame(b, game).0) <==> DistinctWallets(txs) && NoPayout(txs)
  {
    var txs := RowsOf(b.rows, game);
    var b' := RevertGame(b, game).0;
    LastReachesSumIff(txs);
    hide Net, Refunds, Reversed, LastSigned, AmountSum, Restatus, GivesAllBack;
    if txs != [] {
      forall u | u in b.balances
        ensures b'.balances[u] == STARTING_BALANCE + Net(b'.rows, u) <==> GivesAllBack(txs, u)
      {
        RevertedBalance(b, game, u);
      }
      RowsOfAreRows(b.rows, game);
      forall u | u !in b.balances
        ensures GivesAllBack(txs, u)
      {
        assert forall i :: 0 <= i < |txs| ==> txs[i] in txs;
        UntouchedSums(txs, u);
      }
    }
  }

  lemma RevertStaysKnown(b: Books, game: GameId)
    requires Known(b)
    ensures Known(RevertGame(b, game).0)
  {
    var txs := RowsOf(b.rows, game);
    var added := Refunds(b.balances, txs, game);
    var b' := RevertGame(b, game).0;
    if txs != [] {
      RowsOfAreRows(b.rows, game);
      assert txs[0] in txs;
      RefundsRecordAmounts(b.balances, txs, game, txs[0].wallet);
      forall i | 0 <= i < |b'.rows|
        ensures b'.rows[i].wallet in b'.balances
      {
        assert i >= |b.rows| ==> b'.rows[i] == added[i - |b.rows|] && b'.rows[i] in added;
      }
    }
  }

  // ---------------------------------------------------------------------------------------------
  // Escrow mirrors the wagers
  // ---------------------------------------------------------------------------------------------

  datatype Stake = Stake(wallet: UserId, amount: int, gameId: GameId)

  ghost function Wagers(rows: seq<Row>): seq<Stake> {
    if rows == [] then [] else
      var t := rows[|rows| - 1];
      Wagers(rows[..|rows| - 1]) +
      if t.kind == WAGER && t.status == COMPLETED then [Stake(t.wallet, t.amount, t.reference)] else []
  }

  ghost function Placements(holds: seq<Hold>): seq<Stake> {
    seq(|holds|, i requires 0 <= i < |holds| => Stake(holds[i].wallet, holds[i].amount, holds[i].gameId))
  }

  /** Holds and COMPLETED wager rows correspond one to one, in order. */
  ghost predicate Mirrored(b: Books) {
    Wagers(b.rows) == Placements(b.holds)
  }

  ghost function StakedOn(stakes: seq<Stake>, game: GameId): int {
    if stakes == [] then 0 else
      var s := stakes[|stakes| - 1];
      StakedOn(stakes[..|stakes| - 1], game) + if s.gameId == game then s.amount else 0
  }

  /** The sum of the amounts of a game's wager rows. */
  ghost function WagerSum(txs: seq<Row>): int {
    if txs == [] then 0 else
      var t := txs[|txs| - 1];
      WagerSum(txs[..|txs| - 1]) + if t.kind == WAGER then t.amount else 0
  }

  ghost predicate AllHeld(holds: seq<Hold>, game: GameId) {
    forall i :: 0 <= i < |holds| && holds[i].gameId == game ==> holds[i].status == HELD
  }

  lemma {:induction false} WagersAppend(rows: seq<Row>, more: seq<Row>)
    requires forall i :: 0 <= i < |more| ==> more[i].kind != WAGER
    ensures Wagers(rows + more) == Wagers(rows)
  {
    if more == [] {
      assert rows + more == rows;
    } else {
      var all := rows + more;
      assert all[..|all| - 1] == rows + more[..|more| - 1];
      WagersAppend(rows, more[..|more| - 1]);
    }
  }

  lemma PostStaysMirrored(b: Books, user: UserId, t: Row)
    requires Mirrored(b) && user in b.balances && t.wallet == user && t.status == COMPLETED && t.kind != WAGER
    ensures Mirrored(Post(b, user, Effect(t), t.amount, t.kind, t.reference))
  {
    WagersAppend(b.rows, [t]);
  }

  lemma LockStaysMirrored(b: Books, user: UserId, amount: int, game: GameId)
    requires Mirrored(b)
    ensures Mirrored(LockFunds(b, user, amount, game).0)
  {
    var wager := Row(user, amount, WAGER, COMPLETED, game);
    assert (b.rows + [wager])[..|b.rows|] == b.rows;
    assert Placements(b.holds + [Hold(user, amount, game, HELD)]) == Placements(b.holds) + [Stake(user, amount, game)];
  }

  lemma RevertStaysMirrored(b: Books, game: GameId)
    requires Known(b) && Mirrored(b)
    ensures Mirrored(RevertGame(b, game).0)
  {
    var txs := RowsOf(b.rows, game);
    if txs != [] {
      RowsOfAreRows(b.rows, game);
      assert txs[0] in txs;
      RefundsRecordAmounts(b.balances, txs, game, txs[0].wallet);
      var added := Refunds(b.balances, txs, game);
      assert forall i :: 0 <= i < |added| ==> added[i] in added;
      WagersAppend(b.rows, added);
      assert Placements(Restatus(b.holds, game, REFUNDED)) == Placements(b.holds);
      hide Refunds, RowsOf, Reversed, Wagers, Net, AmountSum;
    }
  }

  /** Every hold has a COMPLETED wager row of its wallet and game. */
  lemma {:induction false} MirrorFindsWager(rows: seq<Row>, s: Stake)
    requires s in Wagers(rows)
    ensures Row(s.wallet, s.amount, WAGER, COMPLETED, s.gameId) in rows
  {
    var front, t := rows[..|rows| - 1], rows[|rows| - 1];
    if s in Wagers(front) {
      MirrorFindsWager(front, s);
    } else {
      assert t == Row(s.wallet, s.amount, WAGER, COMPLETED, s.gameId);
    }
  }

  lemma SumsGrow(stakes: seq<Stake>, s: Stake, txs: seq<Row>, t: Row, game: GameId)
    ensures StakedOn(stakes + [s], game) == StakedOn(stakes, game) + if s.gameId == game then s.amount else 0
    ensures WagerSum(txs + [t]) == WagerSum(txs) + if t.kind == WAGER then t.amount else 0
  {
    assert (stakes + [s])[..|stakes|] == stakes;
    assert (txs + [t])[..|txs|] == txs;
  }

  lemma {:induction false} StakedIsWagerSum(rows: seq<Row>, game: GameId)
    ensures StakedOn(Wagers(rows), game) == WagerSum(RowsOf(rows, game))
  {
    if rows != [] {
      var front, t := rows[..|rows| - 1], rows[|rows| - 1];
      StakedIsWagerSum(front, game);
      assert Wagers(rows) == Wagers(front) + WagerStake(t);
      assert RowsOf(rows, game) ==
        RowsOf(front, game) + if t.reference == game && t.status == COMPLETED then [t] else [];
      StakeOfRow(Wagers(front), RowsOf(front, game), t, game);
    }
  }

  ghost function WagerStake(t: Row): seq<Stake> {
    if t.kind == WAGER && t.status == COMPLETED then [Stake(t.wallet, t.amount, t.reference)] else []
  }

  lemma StakeOfRow(stakes: seq<Stake>, txs: seq<Row>, t: Row, game: GameId)
    requires StakedOn(stakes, game) == WagerSum(txs)
    ensures StakedOn(stakes + WagerStake(t), game) ==
      WagerSum(txs + if t.reference == game && t.status == COMPLETED then [t] else [])
  {
    hide StakedOn, WagerSum;
    SumsGrow(stakes, Stake(t.wallet, t.amount, t.reference), txs, t, game);
    assert stakes + [] == stakes && txs + [] == txs;
  }

  lemma {:induction false} StakedIsHeld(holds: seq<Hold>, game: GameId)
    requires AllHeld(holds, game)
    ensures StakedOn(Placements(holds), game) == HeldOf(holds, game)
  {
    if holds != [] {
      var front := holds[..|holds| - 1];
      StakedIsHeld(front, game);
      assert Placements(holds)[..|holds| - 1] == Placements(front);
    }
  }

  // ---------------------------------------------------------------------------------------------
  // Single operations
  // ---------------------------------------------------------------------------------------------

  ghost predicate Sound(b: Books) {
    Known(b) && Mirrored(b) && Balanced(b)
  }

  /** The books stay sound and solvent, and the money on them changes by exactly this much. */
  ghost predicate Moves(b: Books, after: Books, change: int) {
    && Sound(after)
    && Money(after) == Money(b) + change
    && b.balances.Keys <= after.balances.Keys
    && (Solvent(b) ==> Solvent(after))
  }

  lemma PostMoves(b: Books, user: UserId, t: Row)
    requires Sound(b) && user in b.balances && t.wallet == user && t.status == COMPLETED && t.kind != WAGER
    requires b.balances[user] + Effect(t) >= 0 || !Solvent(b)
    ensures Moves(b, Post(b, user, Effect(t), t.amount, t.kind, t.reference), Effect(t))
  {
    PostStaysBalanced(b, user, t);
    PostStaysMirrored(b, user, t);
    TotalUpdate(b.balances, user, b.balances[user] + Effect(t));
  }

  lemma CreateWalletMoves(b: Books, user: UserId)
    requires Sound(b)
    ensures Moves(b, CreateWallet(b, user), if user in b.balances then 0 else STARTING_BALANCE)
  {
    TotalUpdate(b.balances, user, STARTING_BALANCE);
    if user !in b.balances {
      NetOfUnknown(b.rows, user);
    }
  }

  lemma DepositMoves(b: Books, user: UserId, amount: int, reference: string)
    requires Sound(b)
    ensures var (b', reply) := Deposit(b, user, amount, reference);
            Moves(b, b', if reply == Done then amount else 0) && b'.balances.Keys == b.balances.Keys
  {
    if Deposit(b, user, amount, reference).1 == Done {
      PostMoves(b, user, Row(user, amount, DEPOSIT, COMPLETED, reference));
    }
  }

  lemma WithdrawMoves(b: Books, user: UserId, amount: int, reference: string)
    requires Sound(b)
    ensures var (b', reply) := Withdraw(b, user, amount, reference);
            Moves(b, b', if reply == Done then -amount else 0) && b'.balances.Keys == b.balances.Keys
  {
    if Withdraw(b, user, amount, reference).1 == Done {
      PostMoves(b, user, Row(user, amount, WITHDRAW, COMPLETED, reference));
    }
  }

  /** Locking moves money into escrow: the total does not change, and the balance stays at least 0. */
  lemma LockMoves(b: Books, user: UserId, amount: int, game: GameId)
    requires Sound(b)
    ensures var b' := LockFunds(b, user, amount, game).0;
            Moves(b, b', 0) && b'.balances.Keys == b.balances.Keys
  {
    if LockFunds(b, user, amount, game).1 == Done {
      LockStaysKnown(b, user, amount, game);
      LockStaysMirrored(b, user, amount, game);
      LockMoney(b, user, amount, game);
      hide Known, Balanced, Mirrored, Money;
      assert Solvent(b) ==> Solvent(LockFunds(b, user, amount, game).0);
    }
  }

  lemma LockStaysKnown(b: Books, user: UserId, amount: int, game: GameId)
    requires Known(b) && Balanced(b)
    ensures Known(LockFunds(b, user, amount, game).0) && Balanced(LockFunds(b, user, amount, game).0)
  {
    if user in b.balances {
      PostStaysBalanced(b, user, Row(user, amount, WAGER, COMPLETED, game));
      hide Net;
    }
  }

  lemma LockMoney(b: Books, user: UserId, amount: int, game: GameId)
    ensures Money(LockFunds(b, user, amount, game).0) == Money(b)
  {
    if user in b.balances {
      TotalUpdate(b.balances, user, b.balances[user] - amount);
      HoldsGrow(b.holds, Hold(user, amount, game, HELD));
      hide Total, HeldTotal, HeldOf, HeldBy;
    }
  }

  lemma ReleaseMoney(b: Books, winner: UserId, amount: int, game: GameId)
    ensures var (b', reply) := ReleaseFunds(b, winner, amount, game);
            Money(b') == Money(b) + if reply == Done then amount - HeldOf(b.holds, game) else 0
  {
    if winner in b.balances {
      TotalUpdate(b.balances, winner, b.balances[winner] + amount);
      RestatusEmptiesGame(b.holds, game, RELEASED);
    }
  }

  /** Releasing the HELD total of a game, and no other amount, leaves the money on the books unchanged. */
  lemma ReleaseConservesIff(b: Books, winner: UserId, amount: int, game: GameId)
    requires Sound(b) && winner in b.balances
    ensures var b' := ReleaseFunds(b, winner, amount, game).0;
            && (Money(b') == Money(b) <==> amount == HeldOf(b.holds, game))
            && Sound(b') && b'.balances.Keys == b.balances.Keys
            && (Solvent(b) && amount >= 0 ==> Solvent(b'))
  {
    ReleaseMoney(b, winner, amount, game);
    var t := Row(winner, amount, PAYOUT, COMPLETED, game);
    PostStaysBalanced(b, winner, t);
    PostStaysMirrored(b, winner, t);
    assert Placements(Restatus(b.holds, game, RELEASED)) == Placements(b.holds);
  }

  // ---------------------------------------------------------------------------------------------
  // When reverting conserves money
  // ---------------------------------------------------------------------------------------------

  lemma {:induction false} ReversedTotal(loaded: map<UserId, int>, txs: seq<Row>)
    requires NoPayout(txs)
    requires forall i :: 0 <= i < |txs| ==> txs[i].wallet in loaded
    ensures DistinctWallets(txs) ==> Total(Reversed(loaded, txs)) == Total(loaded) + WagerSum(txs)
    ensures Positive(txs) ==> Total(Reversed(loaded, txs)) <= Total(loaded) + WagerSum(txs)
    ensures Positive(txs) && !DistinctWallets(txs) ==> Total(Reversed(loaded, txs)) < Total(loaded) + WagerSum(txs)
  {
    if txs != [] {
      var front, t := txs[..|txs| - 1], txs[|txs| - 1];
      assert forall i :: 0 <= i < |front| ==> front[i] == txs[i];
      DistinctSplit(txs);
      ReversedTotal(loaded, front);
      if Reversible(t) {
        var r := Reversed(loaded, front);
        TotalUpdate(r, t.wallet, loaded[t.wallet] + t.amount);
        ReversedKeepsLast(loaded, front, t.wallet);
        assert Reversed(loaded, txs) == r[t.wallet := loaded[t.wallet] + t.amount];
        assert WagerSum(txs) == WagerSum(front) + t.amount;
        hide Reversed, Total, WagerSum, LastSigned, SignedSum, AmountSum, DistinctWallets;
        if Touches(front, t.wallet) {
          if Positive(txs) {
            LastIsPositive(front, t.wallet);
          }
        } else {
          UntouchedSums(front, t.wallet);
        }
      }
    }
  }

  lemma {:induction false} LastIsPositive(txs: seq<Row>, user: UserId)
    requires NoPayout(txs) && Positive(txs) && Touches(txs, user)
    ensures LastSigned(txs, user) > 0
  {
    var front, t := txs[..|txs| - 1], txs[|txs| - 1];
    if !(t.wallet == user && Reversible(t)) {
      var i :| 0 <= i < |txs| && txs[i].wallet == user && Reversible(txs[i]);
      assert front[i] == txs[i];
      LastIsPositive(front, user);
    }
  }

  /** Reverting a game that was neither paid out nor refunded conserves money if no wallet wagered twice. */
  lemma RevertConserves(b: Books, game: GameId)
    requires Known(b) && Mirrored(b) && AllHeld(b.holds, game)
    requires NoPayout(RowsOf(b.rows, game)) && DistinctWallets(RowsOf(b.rows, game))
    ensures Money(RevertGame(b, game).0) == Money(b)
  {
    RevertShiftsMoney(b, game);
  }

  lemma RevertShiftsMoney(b: Books, game: GameId)
    requires Known(b) && Mirrored(b) && AllHeld(b.holds, game)
    requires NoPayout(RowsOf(b.rows, game))
    ensures var txs := RowsOf(b.rows, game);
            && (DistinctWallets(txs) ==> Money(RevertGame(b, game).0) == Money(b))
            && (Positive(txs) && !DistinctWallets(txs) ==> Money(RevertGame(b, game).0) < Money(b))
  {
    var txs := RowsOf(b.rows, game);
    RowsOfAreRows(b.rows, game);
    assert forall i :: 0 <= i < |txs| ==> txs[i] in txs;
    ReversedTotal(b.balances, txs);
    StakedIsWagerSum(b.rows, game);
    StakedIsHeld(b.holds, game);
    RestatusEmptiesGame(b.holds, game, REFUNDED);
  }

  /**
   * For bets that are positive this is exact: the reversal of such a game conserves money if and only
   * if no wallet wagered twice on it; otherwise money is lost.
   */
  lemma RevertConservesIff(b: Books, game: GameId)
    requires Known(b) && Mirrored(b) && AllHeld(b.holds, game)
    requires NoPayout(RowsOf(b.rows, game)) && Positive(RowsOf(b.rows, game))
    ensures Money(RevertGame(b, game).0) == Money(b) <==> DistinctWallets(RowsOf(b.rows, game))
  {
    RevertShiftsMoney(b, game);
  }

  /** What the reversal of these rows does to each wallet. */
  ghost function Swings(balances: map<UserId, int>, txs: seq<Row>): map<UserId, int> {
    map u | u in balances :: LastSigned(txs, u)
  }

  lemma {:induction false} TotalAdds(a: map<UserId, int>, b: map<UserId, int>, sum: map<UserId, int>)
    requires a.Keys == b.Keys == sum.Keys && forall u :: u in a ==> sum[u] == a[u] + b[u]
    ensures Total(sum) == Total(a) + Total(b)
    decreases |a|
  {
    if a == map[] {
      assert b == map[] && sum == map[];
    } else {
      var u :| u in a;
      TotalSplit(a, u);
      TotalSplit(b, u);
      TotalSplit(sum, u);
      TotalAdds(a - {u}, b - {u}, sum - {u});
    }
  }

  /**
   * In general, paid out or not, a reversal changes the money on the books by what it does to the wallets minus
   * what it takes out of escrow; so it conserves money if and only if the two agree.
   */
  lemma RevertChangesMoney(b: Books, game: GameId)
    requires RevertGame(b, game).1 == Done
    ensures var swings := Total(Swings(b.balances, RowsOf(b.rows, game)));
            && Money(RevertGame(b, game).0) == Money(b) + swings - HeldOf(b.holds, game)
            && (Money(RevertGame(b, game).0) == Money(b) <==> swings == HeldOf(b.holds, game))
  {
    var txs := RowsOf(b.rows, game);
    var after := Reversed(b.balances, txs);
    forall u | u in b.balances
      ensures after[u] == b.balances[u] + LastSigned(txs, u)
    {
      ReversedKeepsLast(b.balances, txs, u);
    }
    TotalAdds(b.balances, Swings(b.balances, txs), after);
    RestatusEmptiesGame(b.holds, game, REFUNDED);
    hide Total, HeldOf, HeldTotal, Reversed, Refunds, RowsOf;
  }

  // ---------------------------------------------------------------------------------------------
  // Locking and reverting are inverse
  // ---------------------------------------------------------------------------------------------

  /** Locks the same bet for each user in turn; a lock that fails leaves the books as they were. */
  ghost function LockAll(b: Books, users: seq<UserId>, amount: int, game: GameId): Books {
    if users == [] then b else
      LockFunds(LockAll(b, users[..|users| - 1], amount, game), users[|users| - 1], amount, game).0
  }

  /** What the wagers of a game have taken from the balances `b` so far. */
  ghost predicate Staked(b: Books, c: Books, users: seq<UserId>, game: GameId) {
    var txs := RowsOf(c.rows, game);
    && c.balances.Keys == b.balances.Keys
    && DistinctWallets(txs)
    && (forall u :: u in b.balances ==> c.balances[u] == b.balances[u] - SignedSum(txs, u))
    && (forall i :: 0 <= i < |txs| ==> txs[i].wallet in users)
  }

  lemma LastRow(rows: seq<Row>, t: Row, game: GameId)
    requires t.reference == game && t.status == COMPLETED
    ensures RowsOf(rows + [t], game) == RowsOf(rows, game) + [t]
  {
    assert (rows + [t])[..|rows|] == rows;
  }

  lemma LastSum(txs: seq<Row>, t: Row)
    requires Reversible(t)
    ensures forall u :: SignedSum(txs + [t], u) == SignedSum(txs, u) + if t.wallet == u then Signed(t) else 0
    ensures DistinctWallets(txs + [t]) <==> DistinctWallets(txs) && !Touches(txs, t.wallet)
  {
    assert (txs + [t])[..|txs|] == txs;
    DistinctSplit(txs + [t]);
  }

  lemma StakedMore(b: Books, c: Books, d: Books, front: seq<UserId>, t: Row, game: GameId)
    requires Staked(b, c, front, game) && t.wallet !in front && t.kind == WAGER && t.wallet in c.balances
    requires RowsOf(d.rows, game) == RowsOf(c.rows, game) + [t]
    requires d.balances == c.balances[t.wallet := c.balances[t.wallet] - t.amount]
    ensures Staked(b, d, front + [t.wallet], game)
  {
    LastSum(RowsOf(c.rows, game), t);
    hide RowsOf, SignedSum, DistinctWallets;
  }

  lemma StakedSkip(b: Books, c: Books, front: seq<UserId>, user: UserId, game: GameId)
    requires Staked(b, c, front, game)
    ensures Staked(b, c, front + [user], game)
  {
    hide RowsOf, SignedSum, DistinctWallets;
  }

  lemma LockStakes(b: Books, c: Books, front: seq<UserId>, user: UserId, amount: int, game: GameId)
    requires Staked(b, c, front, game) && user !in front
    ensures Staked(b, LockFunds(c, user, amount, game).0, front + [user], game)
  {
    hide Staked, RowsOf;
    if LockFunds(c, user, amount, game).1 == Done {
      var t := Row(user, amount, WAGER, COMPLETED, game);
      LastRow(c.rows, t, game);
      StakedMore(b, c, LockFunds(c, user, amount, game).0, front, t, game);
    } else {
      StakedSkip(b, c, front, user, game);
    }
  }

  lemma {:induction false} LockAllStakes(b: Books, users: seq<UserId>, amount: int, game: GameId)
    requires Collections.Distinct(users)
    requires RowsOf(b.rows, game) == []
    ensures Staked(b, LockAll(b, users, amount, game), users, game)
  {
    if users == [] {
      assert forall u :: SignedSum([], u) == 0;
    } else {
      var front, user := users[..|users| - 1], users[|users| - 1];
      LockAllStakes(b, front, amount, game);
      assert users == front + [user];
      LockStakes(b, LockAll(b, front, amount, game), front, user, amount, game);
    }
  }

  lemma RevertUndoes(b: Books, c: Books, game: GameId)
    requires c.balances.Keys == b.balances.Keys
    requires DistinctWallets(RowsOf(c.rows, game))
    requires forall u :: u in b.balances ==> c.balances[u] == b.balances[u] - SignedSum(RowsOf(c.rows, game), u)
    ensures RevertGame(c, game).0.balances == b.balances
  {
    if RevertGame(c, game).1 == Done {
      RevertRefinesSum(c, game);
      hide RevertGame, SignedSum, RowsOf, DistinctWallets, Touches;
      assert RevertGame(c, game).0.balances == b.balances;
    } else {
      assert c.balances == b.balances;
    }
  }

  /**
   * Locking a bet for any distinct players, in any order and with any of the locks failing, and then
   * reverting the game gives every wallet its balance back.
   */
  lemma LockThenRevertRestores(b: Books, users: seq<UserId>, amount: int, game: GameId)
    requires Collections.Distinct(users)
    requires RowsOf(b.rows, game) == []
    ensures RevertGame(LockAll(b, users, amount, game), game).0.balances == b.balances
  {
    LockAllStakes(b, users, amount, game);
    RevertUndoes(b, LockAll(b, users, amount, game), game);
  }

  /** A second reversal pays every wager out again, because the first one leaves the WAGER rows COMPLETED. */
  lemma RevertTwiceRefundsTwice(b: Books, game: GameId)
    requires Known(b) && RowsOf(b.rows, game) != []
    requires NoPayout(RowsOf(b.rows, game)) && DistinctWallets(RowsOf(b.rows, game))
    ensures var once := RevertGame(b, game).0;
            Money(RevertGame(once, game).0) == Money(once) + WagerSum(RowsOf(b.rows, game))
  {
    var txs := RowsOf(b.rows, game);
    var once := RevertGame(b, game).0;
    var added := Refunds(b.balances, txs, game);
    RowsOfAreRows(b.rows, game);
    assert forall i :: 0 <= i < |txs| ==> txs[i] in txs;
    RefundsRecordAmounts(b.balances, txs, game, txs[0].wallet);
    RowsOfAppend(b.rows, added, game);
    ReversedIgnores(once.balances, txs, added);
    ReversedTotal(once.balances, txs);
    RestatusEmptiesGame(b.holds, game, REFUNDED);
    RestatusEmptiesGame(once.holds, game, REFUNDED);
  }

  lemma {:induction false} RowsOfAppend(rows: seq<Row>, more: seq<Row>, game: GameId)
    requires forall t :: t in more ==> t.reference == game && t.status == COMPLETED
    ensures RowsOf(rows + more, game) == RowsOf(rows, game) + more
  {
    if more == [] {
      assert rows + more == rows;
    } else {
      var all := rows + more;
      assert all[..|all| - 1] == rows + more[..|more| - 1];
      RowsOfAppend(rows, more[..|more| - 1], game);
    }
  }

  lemma {:induction false} ReversedIgnores(loaded: map<UserId, int>, txs: seq<Row>, more: seq<Row>)
    requires forall t :: t in more ==> !Reversible(t)
    ensures Reversed(loaded, txs + more) == Reversed(loaded, txs)
  {
    if more == [] {
      assert txs + more == txs;
    } else {
      var all := txs + more;
      assert all[..|all| - 1] == txs + more[..|more| - 1];
      ReversedIgnores(loaded, txs, more[..|more| - 1]);
    }
  }
}
