/**
 * The books kept by the wallet service: wallet balances, transaction rows and escrow holds, and what
 * each wallet operation does to them. Amounts are integer cents. A wallet is named by its user id,
 * which is unique. An operation that throws leaves the books as they were.
 */
module Ledger {

  type UserId = string
  type GameId = string

  /** The opening balance of 1000, in cents. */
  const STARTING_BALANCE: int := 100000

  datatype RowKind = DEPOSIT | WITHDRAW | WAGER | PAYOUT | REFUND
  datatype RowStatus = PENDING | COMPLETED | FAILED
  datatype Row = Row(wallet: UserId, amount: int, kind: RowKind, status: RowStatus, reference: string)

  datatype HoldStatus = HELD | RELEASED | REFUNDED
  datatype Hold = Hold(wallet: UserId, amount: int, gameId: GameId, status: HoldStatus)

  datatype Books = Books(balances: map<UserId, int>, rows: seq<Row>, holds: seq<Hold>)

  datatype Reply = Done | WalletNotFound | InsufficientFunds | InvalidAmount | NothingToRevert

  const EMPTY_BOOKS: Books := Books(map[], [], [])

  function CreateWallet(b: Books, user: UserId): Books {
    if user in b.balances then b else b.(balances := b.balances[user := STARTING_BALANCE])
  }

  /** Changes one balance and appends one COMPLETED row for it. */
  function Post(b: Books, user: UserId, change: int, amount: int, kind: RowKind, reference: string): Books
    requires user in b.balances
  {
    b.(balances := b.balances[user := b.balances[user] + change],
       rows := b.rows + [Row(user, amount, kind, COMPLETED, reference)])
  }

  function Deposit(b: Books, user: UserId, amount: int, reference: string): (Books, Reply) {
    if amount <= 0 then (b, InvalidAmount)
    else if user !in b.balances then (b, WalletNotFound)
    else (Post(b, user, amount, amount, DEPOSIT, reference), Done)
  }

  function Withdraw(b: Books, user: UserId, amount: int, reference: string): (Books, Reply) {
    if amount <= 0 then (b, InvalidAmount)
    else if user !in b.balances then (b, WalletNotFound)
    else if b.balances[user] < amount then (b, InsufficientFunds)
    else (Post(b, user, -amount, amount, WITHDRAW, reference), Done)
  }

  /** Unlike deposits and withdrawals, locking and releasing do not check that the amount is positive. */
  function LockFunds(b: Books, user: UserId, amount: int, game: GameId): (Books, Reply) {
    if user !in b.balances then (b, WalletNotFound)
    else if b.balances[user] < amount then (b, InsufficientFunds)
    else
      var b' := Post(b, user, -amount, amount, WAGER, game);
      (b'.(holds := b.holds + [Hold(user, amount, game, HELD)]), Done)
  }

  function ReleaseFunds(b: Books, winner: UserId, amount: int, game: GameId): (Books, Reply) {
    if winner !in b.balances then (b, WalletNotFound)
    else
      var b' := Post(b, winner, amount, amount, PAYOUT, game);
      (b'.(holds := Restatus(b.holds, game, RELEASED)), Done)
  }

  /** The bulk update of every hold of a game, whatever status it had. */
  function Restatus(holds: seq<Hold>, game: GameId, status: HoldStatus): (r: seq<Hold>)
    ensures |r| == |holds|
    ensures forall i :: 0 <= i < |r| ==>
      r[i] == if holds[i].gameId == game then holds[i].(status := status) else holds[i]
  {
    seq(|holds|, i requires 0 <= i < |holds| =>
      if holds[i].gameId == game then holds[i].(status := status) else holds[i])
  }

  /** The rows that `revertGame` loads: COMPLETED and carrying the game's id as reference. */
  function RowsOf(rows: seq<Row>, game: GameId): seq<Row> {
    if rows == [] then [] else
      var front, last := rows[..|rows| - 1], rows[|rows| - 1];
      RowsOf(front, game) + if last.reference == game && last.status == COMPLETED then [last] else []
  }

  predicate Reversible(t: Row) {
    t.kind == WAGER || t.kind == PAYOUT
  }

  /** What reversing one row adds to the balance it reads. */
  function Signed(t: Row): int {
    if t.kind == PAYOUT then -t.amount else t.amount
  }

  /**
   * The balances after the reversal loop has gone through `txs`. Every new balance is computed from
   * the balance loaded at the start, so a later row of the same wallet overwrites an earlier one.
   */
  function Reversed(loaded: map<UserId, int>, txs: seq<Row>): (r: map<UserId, int>)
    ensures r.Keys == loaded.Keys
  {
    if txs == [] then loaded else
      var t := txs[|txs| - 1];
      var r := Reversed(loaded, txs[..|txs| - 1]);
      if t.wallet in loaded && Reversible(t) then r[t.wallet := loaded[t.wallet] + Signed(t)] else r
  }

  /** The REFUND rows the loop writes, one for each row it reverses. */
  function Refunds(loaded: map<UserId, int>, txs: seq<Row>, game: GameId): seq<Row> {
    if txs == [] then [] else
      var t := txs[|txs| - 1];
      Refunds(loaded, txs[..|txs| - 1], game) +
      if t.wallet in loaded && Reversible(t) then [Row(t.wallet, t.amount, REFUND, COMPLETED, game)] else []
  }

  function RevertGame(b: Books, game: GameId): (Books, Reply) {
    var txs := RowsOf(b.rows, game);
    if txs == [] then (b, NothingToRevert)
    else
      (Books(Reversed(b.balances, txs),
             b.rows + Refunds(b.balances, txs, game),
             Restatus(b.holds, game, REFUNDED)), Done)
  }
}
