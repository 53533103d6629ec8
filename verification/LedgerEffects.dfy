/** Where each wallet operation takes the money from and puts it, and which operation undoes which. */
module LedgerEffects {
  import opened Collections
  import opened Ledger
  import opened LedgerLaws

  /**
   * A lock that is done takes the amount from one balance into that wallet's escrow for one game; any other
   * changes nothing.
   */
  lemma LockMovesIntoEscrow(b: Books, user: UserId, amount: int, game: GameId)
    ensures var (c, reply) := LockFunds(b, user, amount, game);
            && (reply == Done <==> user in b.balances && b.balances[user] >= amount)
            && (reply == WalletNotFound <==> user !in b.balances)
            && (reply != Done ==> c == b)
            && (reply == Done ==>
                  && (forall u :: u in b.balances ==>
                        u in c.balances && c.balances[u] == b.balances[u] - if u == user then amount else 0)
                  && (forall g, u :: HeldBy(c.holds, g, u) ==
                        HeldBy(b.holds, g, u) + if g == game && u == user then amount else 0)
                  && RowsOf(c.rows, game) == RowsOf(b.rows, game) + [Row(user, amount, WAGER, COMPLETED, game)])
  {
    HoldsGrow(b.holds, Hold(user, amount, game, HELD));
    LastRow(b.rows, Row(user, amount, WAGER, COMPLETED, game), game);
    hide HeldBy, RowsOf;
  }

  /**
   * A deposit that is done adds a positive amount to one balance and one DEPOSIT row to those of its reference; any
   * other is refused, an amount that is not positive before a missing wallet, and changes nothing.
   */
  lemma DepositIsRecorded(b: Books, user: UserId, amount: int, reference: string)
    ensures var (c, reply) := Deposit(b, user, amount, reference);
            && (reply == InvalidAmount <==> amount <= 0)
            && (reply == WalletNotFound <==> amount > 0 && user !in b.balances)
            && (reply == Done <==> amount > 0 && user in b.balances)
            && (reply != Done ==> c == b)
            && (reply == Done ==>
                  && c.balances == b.balances[user := b.balances[user] + amount] && c.holds == b.holds
                  && RowsOf(c.rows, reference) ==
                       RowsOf(b.rows, reference) + [Row(user, amount, DEPOSIT, COMPLETED, reference)]
                  && forall other :: other != reference ==> RowsOf(c.rows, other) == RowsOf(b.rows, other))
  {
    var t := Row(user, amount, DEPOSIT, COMPLETED, reference);
    assert (b.rows + [t])[..|b.rows|] == b.rows;
  }

  /** A withdrawal that is done takes it again with a WITHDRAW row; it is refused for a balance below the amount too. */
  lemma WithdrawalIsRecorded(b: Books, user: UserId, amount: int, reference: string)
    ensures var (c, reply) := Withdraw(b, user, amount, reference);
            && (reply == InvalidAmount <==> amount <= 0)
            && (reply == WalletNotFound <==> amount > 0 && user !in b.balances)
            && (reply == InsufficientFunds <==> amount > 0 && user in b.balances && b.balances[user] < amount)
            && (reply == Done <==> amount > 0 && user in b.balances && b.balances[user] >= amount)
            && (reply != Done ==> c == b)
            && (reply == Done ==>
                  && c.balances == b.balances[user := b.balances[user] - amount] && c.holds == b.holds
                  && RowsOf(c.rows, reference) ==
                       RowsOf(b.rows, reference) + [Row(user, amount, WITHDRAW, COMPLETED, reference)]
                  && forall other :: other != reference ==> RowsOf(c.rows, other) == RowsOf(b.rows, other))
  {
    var t := Row(user, amount, WITHDRAW, COMPLETED, reference);
    assert (b.rows + [t])[..|b.rows|] == b.rows;
  }

  /** The rows of a game are exactly its COMPLETED ones, each as often as it was written. */
  lemma {:induction false} RowsOfExact(rows: seq<Row>, game: GameId)
    ensures forall t ::
      multiset(RowsOf(rows, game))[t] == if t.reference == game && t.status == COMPLETED then multiset(rows)[t] else 0
  {
    if rows != [] {
      var front, last := rows[..|rows| - 1], rows[|rows| - 1];
      RowsOfExact(front, game);
      assert rows == front + [last];
      assert RowsOf(rows, game) ==
        RowsOf(front, game) + if last.reference == game && last.status == COMPLETED then [last] else [];
    }
  }

  /** This row is the last bet or payout of its wallet. */
  ghost predicate LastOfWallet(txs: seq<Row>, i: nat)
    requires i < |txs|
  {
    && (txs[i].kind == WAGER || txs[i].kind == PAYOUT)
    && forall j :: i < j < |txs| && txs[j].wallet == txs[i].wallet ==> txs[j].kind != WAGER && txs[j].kind != PAYOUT
  }

  ghost predicate NoBetOrPayout(txs: seq<Row>, user: UserId) {
    forall i :: 0 <= i < |txs| && txs[i].wallet == user ==> txs[i].kind != WAGER && txs[i].kind != PAYOUT
  }

  lemma {:induction false} ReversalAt(loaded: map<UserId, int>, txs: seq<Row>, i: nat)
    requires i < |txs| && LastOfWallet(txs, i) && txs[i].wallet in loaded
    ensures Reversed(loaded, txs)[txs[i].wallet] ==
      loaded[txs[i].wallet] + if txs[i].kind == WAGER then txs[i].amount else -txs[i].amount
  {
    var front := txs[..|txs| - 1];
    if i < |front| {
      assert front[i] == txs[i] && LastOfWallet(front, i);
      ReversalAt(loaded, front, i);
    }
  }

  lemma {:induction false} ReversalSpares(loaded: map<UserId, int>, txs: seq<Row>, user: UserId)
    requires user in loaded && NoBetOrPayout(txs, user)
    ensures Reversed(loaded, txs)[user] == loaded[user]
  {
    if txs != [] {
      assert NoBetOrPayout(txs[..|txs| - 1], user);
      ReversalSpares(loaded, txs[..|txs| - 1], user);
    }
  }

  ghost function BetsAndPayouts(txs: seq<Row>): seq<Row> {
    if txs == [] then [] else
      var t := txs[|txs| - 1];
      BetsAndPayouts(txs[..|txs| - 1]) + if t.kind == WAGER || t.kind == PAYOUT then [t] else []
  }

  /**
   * What the reversal writes: one COMPLETED REFUND row of the game for each bet and payout of it, in order, with the
   * same wallet and amount.
   */
  lemma {:induction false} RefundsAnswerRows(loaded: map<UserId, int>, txs: seq<Row>, game: GameId)
    requires forall i :: 0 <= i < |txs| ==> txs[i].wallet in loaded
    ensures var (r, asked) := (Refunds(loaded, txs, game), BetsAndPayouts(txs));
            && |r| == |asked|
            && forall i :: 0 <= i < |r| ==> r[i] == Row(asked[i].wallet, asked[i].amount, REFUND, COMPLETED, game)
  {
    if txs != [] {
      RefundsAnswerRows(loaded, txs[..|txs| - 1], game);
    }
  }

  /**
   * The whole reversal, for any rows: a wallet gets its last bet on the game back, or loses its last payout, whatever
   * other rows of it there are; a wallet without any keeps its balance; and there is one REFUND row for each bet and
   * payout. A game without rows is refused.
   */
  lemma RevertGameExact(b: Books, game: GameId)
    requires Known(b)
    ensures var (c, reply) := RevertGame(b, game); var txs := RowsOf(b.rows, game);
            if txs == [] then c == b && reply == NothingToRevert else
              && reply == Done && c.balances.Keys == b.balances.Keys
              && (forall i :: 0 <= i < |txs| && LastOfWallet(txs, i) ==>
                    txs[i].wallet in b.balances && c.balances[txs[i].wallet] ==
                      b.balances[txs[i].wallet] + if txs[i].kind == WAGER then txs[i].amount else -txs[i].amount)
              && (forall u :: u in b.balances && NoBetOrPayout(txs, u) ==> c.balances[u] == b.balances[u])
              && |c.rows| == |b.rows| + |BetsAndPayouts(txs)| && c.rows[..|b.rows|] == b.rows
              && forall i :: 0 <= i < |BetsAndPayouts(txs)| ==>
                   var t := BetsAndPayouts(txs)[i];
                   c.rows[|b.rows| + i] == Row(t.wallet, t.amount, REFUND, COMPLETED, game)
  {
    var txs := RowsOf(b.rows, game);
    RowsOfAreRows(b.rows, game);
    assert forall i :: 0 <= i < |txs| ==> txs[i] in txs;
    RefundsAnswerRows(b.balances, txs, game);
    hide Reversed, Refunds, RowsOf, BetsAndPayouts, LastOfWallet, NoBetOrPayout;
    forall i | 0 <= i < |txs| && LastOfWallet(txs, i)
      ensures Reversed(b.balances, txs)[txs[i].wallet] ==
        b.balances[txs[i].wallet] + if txs[i].kind == WAGER then txs[i].amount else -txs[i].amount
    {
      ReversalAt(b.balances, txs, i);
    }
    forall u | u in b.balances && NoBetOrPayout(txs, u)
      ensures Reversed(b.balances, txs)[u] == b.balances[u]
    {
      ReversalSpares(b.balances, txs, u);
    }
  }

  /** A release pays one wallet, ends every hold of the game, and leaves every other game's escrow alone. */
  lemma ReleaseEndsGame(b: Books, winner: UserId, amount: int, game: GameId)
    ensures var (c, reply) := ReleaseFunds(b, winner, amount, game);
            && (reply == Done <==> winner in b.balances)
            && (reply != Done ==> c == b)
            && (reply == Done ==>
                  && (forall u :: u in b.balances ==>
                        u in c.balances && c.balances[u] == b.balances[u] + if u == winner then amount else 0)
                  && (forall i :: 0 <= i < |c.holds| && c.holds[i].gameId == game ==> c.holds[i].status == RELEASED)
                  && (forall g :: HeldOf(c.holds, g) == if g == game then 0 else HeldOf(b.holds, g))
                  && RowsOf(c.rows, game) == RowsOf(b.rows, game) + [Row(winner, amount, PAYOUT, COMPLETED, game)])
  {
    RestatusEmptiesGame(b.holds, game, RELEASED);
    forall g | g != game
      ensures HeldOf(Restatus(b.holds, game, RELEASED), g) == HeldOf(b.holds, g)
    {
      RestatusSparesOthers(b.holds, game, RELEASED, g);
    }
    LastRow(b.rows, Row(winner, amount, PAYOUT, COMPLETED, game), game);
    hide HeldOf, RowsOf;
  }

  /**
   * Withdrawing what was just deposited succeeds and restores the books but for two rows, exactly if the
   * balance was not negative.
   */
  lemma WithdrawUndoesDepositIff(b: Books, user: UserId, amount: int, reference: string)
    requires user in b.balances && amount > 0
    ensures var (c, reply) := Deposit(b, user, amount, reference);
            var (d, undone) := Withdraw(c, user, amount, reference);
            && reply == Done
            && (undone == Done <==> b.balances[user] >= 0)
            && (undone == Done ==>
                  d.balances == b.balances && d.holds == b.holds && forall u :: Net(d.rows, u) == Net(b.rows, u))
  {
    var (c, reply) := Deposit(b, user, amount, reference);
    var (s, t) := (Row(user, amount, DEPOSIT, COMPLETED, reference), Row(user, amount, WITHDRAW, COMPLETED, reference));
    forall u
      ensures Net(b.rows + [s] + [t], u) == Net(b.rows, u)
    {
      NetLast(b.rows + [s], t, u);
      NetLast(b.rows, s, u);
    }
    hide Net;
  }

  lemma LockTakes(b: Books, user: UserId, amount: int, game: GameId, other: GameId)
    requires user in b.balances && b.balances[user] >= amount
    ensures var (c, reply) := LockFunds(b, user, amount, game);
            && reply == Done && Money(c) == Money(b)
            && c.balances == b.balances[user := b.balances[user] - amount]
            && HeldOf(c.holds, other) == HeldOf(b.holds, other) + if other == game then amount else 0
  {
    LockMoney(b, user, amount, game);
    HoldsGrow(b.holds, Hold(user, amount, game, HELD));
    hide Money, HeldOf, HeldBy, HeldTotal;
  }

  lemma LastApart(users: seq<UserId>)
    requires Collections.Distinct(users) && users != []
    ensures var front, last := users[..|users| - 1], users[|users| - 1];
            && Collections.Distinct(front) && last !in front
            && forall u :: u in users <==> u in front || u == last
  {
    assert users == users[..|users| - 1] + [users[|users| - 1]];
  }

  /** If every player can pay, locking takes the bet from each of them and holds it all for the game. */
  lemma {:induction false} LockAllTakes(b: Books, users: seq<UserId>, amount: int, game: GameId)
    requires Collections.Distinct(users)
    requires forall u :: u in users ==> u in b.balances && b.balances[u] >= amount
    ensures var c := LockAll(b, users, amount, game);
            && c.balances.Keys == b.balances.Keys
            && (forall u :: u in b.balances ==> c.balances[u] == b.balances[u] - if u in users then amount else 0)
            && HeldOf(c.holds, game) == HeldOf(b.holds, game) + amount * |users|
  {
    if users != [] {
      var front, last := users[..|users| - 1], users[|users| - 1];
      LastApart(users);
      LockAllTakes(b, front, amount, game);
      hide HeldOf, LockFunds, Money, Collections.Distinct;
      var c := LockAll(b, front, amount, game);
      LockTakes(c, last, amount, game, game);
      Another(amount, |front|);
      hide LockAll;
    }
  }

  lemma Another(amount: int, n: int)
    ensures amount * (n + 1) == amount * n + amount
  {
  }

  /**
   * Locking a bet for distinct players who can pay and releasing the pot to one of them moves every other
   * player's bet to the winner: nothing stays in escrow, nobody else is touched, and the total is unchanged.
   */
  lemma PotGoesToWinner(b: Books, users: seq<UserId>, winner: UserId, amount: int, game: GameId)
    requires Collections.Distinct(users) && winner in users
    requires forall u :: u in users ==> u in b.balances && b.balances[u] >= amount
    requires HeldOf(b.holds, game) == 0
    ensures var pot := amount * |users|;
            var (c, reply) := ReleaseFunds(LockAll(b, users, amount, game), winner, pot, game);
            && reply == Done && c.balances.Keys == b.balances.Keys
            && (forall u :: u in b.balances ==>
                  c.balances[u] == b.balances[u] +
                    if u == winner then amount * (|users| - 1) else if u in users then -amount else 0)
            && HeldOf(c.holds, game) == 0
            && Money(c) == Money(b)
  {
    var pot := amount * |users|;
    LockAllTakes(b, users, amount, game);
    LockAllMoney(b, users, amount, game);
    var c := LockAll(b, users, amount, game);
    assert winner in c.balances;
    ReleaseEndsGame(c, winner, pot, game);
    ReleaseMoney(c, winner, pot, game);
    Another(amount, |users| - 1);
    hide LockAll, HeldOf, Money;
  }

  lemma {:induction false} LockAllMoney(b: Books, users: seq<UserId>, amount: int, game: GameId)
    ensures Money(LockAll(b, users, amount, game)) == Money(b)
  {
    if users != [] {
      LockAllMoney(b, users[..|users| - 1], amount, game);
      LockMoney(LockAll(b, users[..|users| - 1], amount, game), users[|users| - 1], amount, game);
    }
  }
}
