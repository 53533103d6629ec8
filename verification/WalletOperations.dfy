/** The wallet operations worker: one job in, a change to the books, and FUNDS_LOCKED events out. */
module WalletOperations {
  import opened Collections
  import opened Ledger
  import opened Games
  import opened LedgerLaws
  import opened LedgerEffects
  import WalletService

  datatype Event = FundsLocked(matchId: GameId, userId: UserId)

  /** The books after a job, the events it emits, and whether it was done or threw. */
  function ProcessJob(b: Books, job: Job): (Books, seq<Event>, Reply) {
    match job
    case DepositJob(user, amount, reference) => var (b', r) := Deposit(b, user, amount, reference); (b', [], r)
    case WithdrawJob(user, amount, reference) => var (b', r) := Withdraw(b, user, amount, reference); (b', [], r)
    case LockJob(user, amount, game, skip) =>
      if skip then (b, [FundsLocked(game, user)], Done) else
        var (b', r) := LockFunds(b, user, amount, game);
        (b', if r == Done then [FundsLocked(game, user)] else [], r)
    case ReleaseJob(winner, amount, game) => var (b', r) := ReleaseFunds(b, winner, amount, game); (b', [], r)
    case RevertJob(game) => var (b', r) := RevertGame(b, game); (b', [], r)
  }

  class WalletOperationsProcessor {
    const wallet: WalletService.WalletService
    var emitted: seq<Event>

    constructor (wallet: WalletService.WalletService)
      ensures this.wallet == wallet && emitted == []
    {
      this.wallet := wallet;
      emitted := [];
    }

    method Process(job: Job) returns (reply: Reply)
      modifies this, wallet
      ensures var (b, events, r) := ProcessJob(old(wallet.Value()), job);
              wallet.Value() == b && emitted == old(emitted) + events && reply == r
    {
      match job {
        case DepositJob(user, amount, reference) => reply := wallet.Deposit(user, amount, reference);
        case WithdrawJob(user, amount, reference) => reply := wallet.Withdraw(user, amount, reference);
        case LockJob(user, amount, game, skip) => reply := HandleLockFunds(user, amount, game, skip);
        case ReleaseJob(winner, amount, game) => reply := wallet.ReleaseFunds(winner, amount, game);
        case RevertJob(game) => reply := wallet.RevertGame(game);
      }
    }

    method HandleLockFunds(user: UserId, amount: int, game: GameId, shouldSkipWallet: bool) returns (reply: Reply)
      modifies this, wallet
      ensures var (b, events, r) := ProcessJob(old(wallet.Value()), LockJob(user, amount, game, shouldSkipWallet));
              wallet.Value() == b && emitted == old(emitted) + events && reply == r
    {
      reply := Done;
      if !shouldSkipWallet {
        reply := wallet.LockFunds(user, amount, game);
        if reply != Done {
          return;
        }
      }
      emitted := emitted + [FundsLocked(game, user)];
    }
  }

  /** Whether a job does its part or throws. */
  ghost predicate Succeeds(b: Books, job: Job) {
    match job
    case DepositJob(user, amount, _) => amount > 0 && user in b.balances
    case WithdrawJob(user, amount, _) => amount > 0 && user in b.balances && b.balances[user] >= amount
    case LockJob(user, amount, _, skip) => skip || (user in b.balances && b.balances[user] >= amount)
    case ReleaseJob(winner, _, _) => winner in b.balances
    case RevertJob(game) => exists t :: t in b.rows && t.reference == game && t.status == COMPLETED
  }

  /**
   * Each kind of job on any books: when it throws and then changes nothing; the one event of a lock that is done or
   * skipped, and no other; what it does to the money; and that a release or a reversal ends the holds of its game.
   */
  lemma JobEffects(b: Books, job: Job)
    ensures var (c, events, reply) := ProcessJob(b, job);
            && (reply == Done <==> Succeeds(b, job))
            && (reply != Done ==> c == b)
            && events == (if job.LockJob? && reply == Done then [FundsLocked(job.gameId, job.userId)] else [])
            && (job.LockJob? && job.shouldSkipWallet ==> c == b)
            && (reply == Done ==>
                  match job
                  case DepositJob(user, amount, _) => Money(c) == Money(b) + amount
                  case WithdrawJob(user, amount, _) => Money(c) == Money(b) - amount
                  case LockJob(user, amount, game, skip) =>
                    && Money(c) == Money(b)
                    && HeldOf(c.holds, game) == HeldOf(b.holds, game) + if skip then 0 else amount
                  case ReleaseJob(winner, amount, game) =>
                    && Money(c) == Money(b) + amount - HeldOf(b.holds, game)
                    && forall i :: 0 <= i < |c.holds| && c.holds[i].gameId == game ==> c.holds[i].status == RELEASED
                  case RevertJob(game) =>
                    forall i :: 0 <= i < |c.holds| && c.holds[i].gameId == game ==> c.holds[i].status == REFUNDED)
            && (job.RevertJob? ==> (c, reply) == RevertGame(b, job.gameId))
  {
    match job
    case DepositJob(user, amount, reference) =>
      hide Money;
      if Succeeds(b, job) {
        BalanceMovesMoney(b, user, amount, Deposit(b, user, amount, reference).0.rows);
      }
    case WithdrawJob(user, amount, reference) =>
      hide Money;
      if Succeeds(b, job) {
        BalanceMovesMoney(b, user, -amount, Withdraw(b, user, amount, reference).0.rows);
      }
    case LockJob(user, amount, game, skip) =>
      hide Money, HeldOf;
      if !skip && Succeeds(b, job) {
        LockTakes(b, user, amount, game, game);
      }
    case ReleaseJob(winner, amount, game) =>
      ReleaseMoney(b, winner, amount, game);
      hide Money, HeldOf;
    case RevertJob(game) =>
      RowsOfSome(b.rows, game);
      hide RowsOf, Reversed, Refunds;
  }

  /** Money moves with the balance that a deposit or withdrawal changes. */
  lemma BalanceMovesMoney(b: Books, user: UserId, change: int, rows: seq<Row>)
    requires user in b.balances
    ensures Money(Books(b.balances[user := b.balances[user] + change], rows, b.holds)) == Money(b) + change
  {
    TotalUpdate(b.balances, user, b.balances[user] + change);
  }

  lemma RowsOfSome(rows: seq<Row>, game: GameId)
    ensures RowsOf(rows, game) != [] <==> exists t :: t in rows && t.reference == game && t.status == COMPLETED
  {
    RowsOfExact(rows, game);
    var txs := RowsOf(rows, game);
    hide RowsOf;
    if txs != [] {
      assert multiset(txs)[txs[0]] > 0;
      assert multiset(rows)[txs[0]] > 0;
    }
    if t :| t in rows && t.reference == game && t.status == COMPLETED {
      assert multiset(rows)[t] > 0;
      assert multiset(txs)[t] > 0;
    }
  }
}
