/** The wallet service as an object that updates its tables in place. */
module WalletService {
  import opened Ledger

  class WalletService {
    var balances: map<UserId, int>
    var rows: seq<Row>
    var holds: seq<Hold>

    ghost function Value(): Books
      reads this
    {
      Books(balances, rows, holds)
    }

    constructor ()
      ensures Value() == EMPTY_BOOKS
    {
      balances, rows, holds := map[], [], [];
    }

    method CreateWallet(user: UserId)
      modifies this
      ensures Value() == Ledger.CreateWallet(old(Value()), user)
    {
      if user in balances {
        return;
      }
      balances := balances[user := STARTING_BALANCE];
    }

    method Deposit(user: UserId, amount: int, reference: string) returns (reply: Reply)
      modifies this
      ensures (Value(), reply) == Ledger.Deposit(old(Value()), user, amount, reference)
    {
      if amount <= 0 {
        return InvalidAmount;
      }
      if user !in balances {
        return WalletNotFound;
      }
      balances := balances[user := balances[user] + amount];
      rows := rows + [Row(user, amount, DEPOSIT, COMPLETED, reference)];
      return Done;
    }

    method Withdraw(user: UserId, amount: int, reference: string) returns (reply: Reply)
      modifies this
      ensures (Value(), reply) == Ledger.Withdraw(old(Value()), user, amount, reference)
    {
      if amount <= 0 {
        return InvalidAmount;
      }
      if user !in balances {
        return WalletNotFound;
      }
      if balances[user] < amount {
        return InsufficientFunds;
      }
      balances := balances[user := balances[user] - amount];
      rows := rows + [Row(user, amount, WITHDRAW, COMPLETED, reference)];
      return Done;
    }

    method LockFunds(user: UserId, amount: int, game: GameId) returns (reply: Reply)
      modifies this
      ensures (Value(), reply) == Ledger.LockFunds(old(Value()), user, amount, game)
    {
      if user !in balances {
        return WalletNotFound;
      }
      var currentBalance := balances[user];
      if currentBalance < amount {
        return InsufficientFunds;
      }
      balances := balances[user := currentBalance - amount];
      rows := rows + [Row(user, amount, WAGER, COMPLETED, game)];
      holds := holds + [Hold(user, amount, game, HELD)];
      return Done;
    }

    method ReleaseFunds(winner: UserId, amount: int, game: GameId) returns (reply: Reply)
      modifies this
      ensures (Value(), reply) == Ledger.ReleaseFunds(old(Value()), winner, amount, game)
    {
      if winner !in balances {
        return WalletNotFound;
      }
      balances := balances[winner := balances[winner] + amount];
      rows := rows + [Row(winner, amount, PAYOUT, COMPLETED, game)];
      SetStatus(game, RELEASED);
      return Done;
    }

    method SetStatus(game: GameId, status: HoldStatus)
      modifies `holds
      ensures holds == Restatus(old(holds), game, status)
    {
      var i := 0;
      while i < |holds|
        invariant 0 <= i <= |holds| == |old(holds)|
        invariant holds[..i] == Restatus(old(holds), game, status)[..i]
        invariant holds[i..] == old(holds)[i..]
      {
        assert holds[i] == old(holds)[i];
        if holds[i].gameId == game {
          holds := holds[i := holds[i].(status := status)];
        }
        i := i + 1;
      }
    }

    method LoadRows(game: GameId) returns (txs: seq<Row>)
      ensures txs == RowsOf(rows, game)
    {
      txs := [];
      for i := 0 to |rows|
        invariant txs == RowsOf(rows[..i], game)
      {
        assert rows[..i + 1][..i] == rows[..i];
        if rows[i].reference == game && rows[i].status == COMPLETED {
          txs := txs + [rows[i]];
        }
      }
      assert rows[..|rows|] == rows;
    }

    /** One turn of the reversal loop. */
    static lemma ReverseOne(loaded: map<UserId, int>, txs: seq<Row>, i: nat, game: GameId)
      requires i < |txs|
      ensures var t := txs[i];
              var hit := t.wallet in loaded && Reversible(t);
              && Reversed(loaded, txs[..i + 1]) ==
                 (if hit then Reversed(loaded, txs[..i])[t.wallet := loaded[t.wallet] + Signed(t)]
                  else Reversed(loaded, txs[..i]))
              && Refunds(loaded, txs[..i + 1], game) ==
                 Refunds(loaded, txs[..i], game) +
                 if hit then [Row(t.wallet, t.amount, REFUND, COMPLETED, game)] else []
    {
      assert txs[..i + 1][..i] == txs[..i];
    }

    /**
     * `loaded` plays the part of the wallet objects attached to the rows when they are read: the loop
     * never re-reads a balance it has already changed.
     */
    method ReverseRows(txs: seq<Row>, game: GameId)
      modifies this
      ensures balances == Reversed(old(balances), txs)
      ensures rows == old(rows) + Refunds(old(balances), txs, game)
      ensures holds == old(holds)
    {
      var loaded := balances;
      for i := 0 to |txs|
        invariant loaded == old(balances) && holds == old(holds)
        invariant balances == Reversed(loaded, txs[..i])
        invariant rows == old(rows) + Refunds(loaded, txs[..i], game)
      {
        ReverseOne(loaded, txs, i, game);
        var t := txs[i];
        if t.wallet !in loaded {
          continue;
        }
        var newBalance := loaded[t.wallet];
        if t.kind == WAGER {
          newBalance := newBalance + t.amount;
        } else if t.kind == PAYOUT {
          newBalance := newBalance - t.amount;
        } else {
          continue;
        }
        balances := balances[t.wallet := newBalance];
        rows := rows + [Row(t.wallet, t.amount, REFUND, COMPLETED, game)];
      }
      assert txs[..|txs|] == txs;
    }

    method RevertGame(game: GameId) returns (reply: Reply)
      modifies this
      ensures (Value(), reply) == Ledger.RevertGame(old(Value()), game)
    {
      var txs := LoadRows(game);
      if |txs| == 0 {
        return NothingToRevert;
      }
      ReverseRows(txs, game);
      SetStatus(game, REFUNDED);
      return Done;
    }
  }
}
