/**
 * The stale-game job: it reverts every game that still has a HELD hold. `failing` names the games whose
 * reversal throws in this run, so that its transaction is rolled back and the job moves on.
 */
module WalletMaintenance {
  import opened Collections
  import opened Ledger
  import opened LedgerLaws
  import WalletService

  /** The games with a HELD hold, each once, in the order of their first HELD hold. */
  function HeldGames(holds: seq<Hold>): seq<GameId> {
    if holds == [] then [] else
      var games := HeldGames(holds[..|holds| - 1]);
      var h := holds[|holds| - 1];
      if h.status == HELD && h.gameId !in games then games + [h.gameId] else games
  }

  function RevertAll(b: Books, games: seq<GameId>, failing: set<GameId>): Books {
    if games == [] then b else
      var c := RevertAll(b, games[..|games| - 1], failing);
      var g := games[|games| - 1];
      if g in failing then c else RevertGame(c, g).0
  }

  function Sweep(b: Books, failing: set<GameId>): Books {
    RevertAll(b, HeldGames(b.holds), failing)
  }

  function Succeeding(games: seq<GameId>, failing: set<GameId>): nat {
    if games == [] then 0 else
      Succeeding(games[..|games| - 1], failing) + if games[|games| - 1] in failing then 0 else 1
  }

  class WalletMaintenanceProcessor {
    const wallet: WalletService.WalletService

    constructor (wallet: WalletService.WalletService)
      ensures this.wallet == wallet
    {
      this.wallet := wallet;
    }

    method FindHeldGames() returns (games: seq<GameId>)
      ensures games == HeldGames(wallet.holds)
    {
      games := [];
      for i := 0 to |wallet.holds|
        invariant games == HeldGames(wallet.holds[..i])
      {
        assert wallet.holds[..i + 1][..i] == wallet.holds[..i];
        var h := wallet.holds[i];
        if h.status == HELD && h.gameId !in games {
          games := games + [h.gameId];
        }
      }
      assert wallet.holds[..|wallet.holds|] == wallet.holds;
    }

    method HandleRevertStaleGames(failing: set<GameId>) returns (processed: nat, total: nat)
      modifies wallet
      ensures wallet.Value() == Sweep(old(wallet.Value()), failing)
      ensures total == |HeldGames(old(wallet.holds))|
      ensures processed == Succeeding(HeldGames(old(wallet.holds)), failing)
      ensures total == |HeldOutside(old(wallet.holds), {})|
      ensures processed == |HeldOutside(old(wallet.holds), failing)|
    {
      var games := FindHeldGames();
      processed, total := 0, |games|;
      for i := 0 to |games|
        invariant wallet.Value() == RevertAll(old(wallet.Value()), games[..i], failing)
        invariant processed == Succeeding(games[..i], failing)
      {
        assert games[..i + 1][..i] == games[..i];
        if games[i] !in failing {
          var _ := wallet.RevertGame(games[i]);
          processed := processed + 1;
        }
      }
      assert games[..|games|] == games;
      CountsExact(old(wallet.holds), failing);
    }
  }

  // ---------------------------------------------------------------------------------------------
  // Laws
  // ---------------------------------------------------------------------------------------------

  ghost predicate HasHeld(holds: seq<Hold>, game: GameId) {
    exists i :: 0 <= i < |holds| && holds[i].gameId == game && holds[i].status == HELD
  }

  /** The loop visits exactly the games with a HELD hold, and no game twice. */
  lemma {:induction false} HeldGamesExact(holds: seq<Hold>)
    ensures Collections.Distinct(HeldGames(holds))
    ensures forall g :: g in HeldGames(holds) <==> HasHeld(holds, g)
  {
    if holds != [] {
      var front, h := holds[..|holds| - 1], holds[|holds| - 1];
      HeldGamesExact(front);
      forall g
        ensures HasHeld(holds, g) <==> HasHeld(front, g) || (h.gameId == g && h.status == HELD)
      {
        assert holds == front + [h];
        if h.gameId == g && h.status == HELD {
          assert holds[|holds| - 1] == h;
        }
        if HasHeld(front, g) {
          var i :| 0 <= i < |front| && front[i].gameId == g && front[i].status == HELD;
          assert holds[i] == front[i];
        }
      }
    }
  }

  lemma {:induction false} SucceedingCounts(games: seq<GameId>, failing: set<GameId>)
    requires Collections.Distinct(games)
    ensures Succeeding(games, failing) == |Within(games, failing)|
  {
    if games != [] {
      var front, last := games[..|games| - 1], games[|games| - 1];
      assert games == front + [last] && last !in front;
      SucceedingCounts(front, failing);
      assert Within(games, failing) == Within(front, failing) + if last in failing then {} else {last};
    }
  }

  /** The games with a HELD hold, apart from these. */
  ghost function HeldOutside(holds: seq<Hold>, failing: set<GameId>): set<GameId> {
    set h | h in holds && h.status == HELD && h.gameId !in failing :: h.gameId
  }

  ghost function Within(games: seq<GameId>, failing: set<GameId>): set<GameId> {
    set g | g in games && g !in failing
  }

  lemma HeldOutsideExact(holds: seq<Hold>, failing: set<GameId>)
    ensures Within(HeldGames(holds), failing) == HeldOutside(holds, failing)
  {
    HeldGamesExact(holds);
    hide HeldGames;
    var (a, b) := (Within(HeldGames(holds), failing), HeldOutside(holds, failing));
    forall g | g in a
      ensures g in b
    {
      var i :| 0 <= i < |holds| && holds[i].gameId == g && holds[i].status == HELD;
      assert holds[i] in holds;
    }
    forall g | g in b
      ensures g in a
    {
      var h :| h in holds && h.status == HELD && h.gameId !in failing && h.gameId == g;
      assert HasHeld(holds, g);
    }
  }

  /** The job reports how many games have a HELD hold, and how many of them did not fail. */
  lemma CountsExact(holds: seq<Hold>, failing: set<GameId>)
    ensures |HeldGames(holds)| == |HeldOutside(holds, {})|
    ensures Succeeding(HeldGames(holds), failing) == |HeldOutside(holds, failing)|
  {
    HeldGamesExact(holds);
    SucceedingCounts(HeldGames(holds), failing);
    HeldOutsideExact(holds, failing);
    DistinctCardinality(HeldGames(holds));
    HeldOutsideExact(holds, {});
    hide HeldGames, HasHeld, HeldOutside;
    assert Elements(HeldGames(holds)) == Within(HeldGames(holds), {});
  }

  /** Under the escrow mirror, reverting a game that has a hold never finds nothing to revert. */
  lemma HeldGameReverts(b: Books, game: GameId)
    requires Mirrored(b)
    requires exists i :: 0 <= i < |b.holds| && b.holds[i].gameId == game
    ensures RevertGame(b, game).1 == Done
  {
    var i :| 0 <= i < |b.holds| && b.holds[i].gameId == game;
    var s := Placements(b.holds)[i];
    assert s in Placements(b.holds);
    MirrorFindsWager(b.rows, s);
    RowsOfAreRows(b.rows, game);
    assert Row(s.wallet, s.amount, WAGER, COMPLETED, game) in RowsOf(b.rows, game);
  }

  function Refunded(h: Hold, refunded: bool): Hold {
    if refunded then h.(status := REFUNDED) else h
  }

  lemma {:induction false} RevertAllHolds(b: Books, games: seq<GameId>, failing: set<GameId>)
    requires Known(b) && Mirrored(b)
    requires forall g :: g in games ==> HasHeld(b.holds, g)
    ensures var c := RevertAll(b, games, failing);
            && Known(c) && Mirrored(c)
            && |c.holds| == |b.holds|
            && (forall i :: 0 <= i < |b.holds| ==>
                  c.holds[i] == Refunded(b.holds[i], b.holds[i].gameId in games && b.holds[i].gameId !in failing))
  {
    if games != [] {
      var front, g := games[..|games| - 1], games[|games| - 1];
      assert games == front + [g];
      RevertAllHolds(b, front, failing);
      var c := RevertAll(b, front, failing);
      if g !in failing {
        assert HasHeld(b.holds, g);
        var i :| 0 <= i < |b.holds| && b.holds[i].gameId == g && b.holds[i].status == HELD;
        assert c.holds[i].gameId == g;
        HeldGameReverts(c, g);
        RevertStaysKnown(c, g);
        RevertStaysMirrored(c, g);
      }
    }
  }

  /**
   * The job is complete: a game keeps a HELD hold only if its reversal threw, every hold of a reverted
   * game is REFUNDED, and no other hold changes.
   */
  lemma SweepComplete(b: Books, failing: set<GameId>)
    requires Known(b) && Mirrored(b)
    ensures var c := Sweep(b, failing);
            && (forall g :: HasHeld(c.holds, g) <==> HasHeld(b.holds, g) && g in failing)
            && |c.holds| == |b.holds|
            && (forall i :: 0 <= i < |b.holds| ==>
                  c.holds[i] ==
                    Refunded(b.holds[i], HasHeld(b.holds, b.holds[i].gameId) && b.holds[i].gameId !in failing))
  {
    var c := Sweep(b, failing);
    HeldGamesExact(b.holds);
    RevertAllHolds(b, HeldGames(b.holds), failing);
    forall g
      ensures HasHeld(c.holds, g) <==> HasHeld(b.holds, g) && g in failing
    {
      if HasHeld(c.holds, g) {
        var i :| 0 <= i < |c.holds| && c.holds[i].gameId == g && c.holds[i].status == HELD;
        assert b.holds[i].gameId == g && b.holds[i].status == HELD;
      }
      if HasHeld(b.holds, g) && g in failing {
        var i :| 0 <= i < |b.holds| && b.holds[i].gameId == g && b.holds[i].status == HELD;
        assert c.holds[i].gameId == g && c.holds[i].status == HELD;
      }
    }
  }

  lemma {:induction false} AllFailing(b: Books, games: seq<GameId>, failing: set<GameId>)
    requires forall g :: g in games ==> g in failing
    ensures RevertAll(b, games, failing) == b
  {
    if games != [] {
      AllFailing(b, games[..|games| - 1], failing);
    }
  }

  /**
   * With no new locks, a second run changes nothing if and only if whatever failed in the first run fails again;
   * so after a run in which nothing failed, no further run changes anything.
   */
  lemma SecondSweepIff(b: Books, failing: set<GameId>, again: set<GameId>)
    requires Known(b) && Mirrored(b)
    ensures Sweep(Sweep(b, failing), again) == Sweep(b, failing) <==>
      forall g :: HasHeld(b.holds, g) && g in failing ==> g in again
  {
    var c := Sweep(b, failing);
    SweepComplete(b, failing);
    SweepKeepsBooks(b, failing);
    HeldGamesExact(c.holds);
    SweepComplete(c, again);
    if forall g :: HasHeld(b.holds, g) && g in failing ==> g in again {
      AllFailing(c, HeldGames(c.holds), again);
    } else {
      var g :| HasHeld(b.holds, g) && g in failing && g !in again;
      assert HasHeld(c.holds, g) && !HasHeld(Sweep(c, again).holds, g);
    }
  }

  lemma SweepKeepsBooks(b: Books, failing: set<GameId>)
    requires Known(b) && Mirrored(b)
    ensures Known(Sweep(b, failing)) && Mirrored(Sweep(b, failing))
  {
    HeldGamesExact(b.holds);
    RevertAllHolds(b, HeldGames(b.holds), failing);
  }

  /** The job is idempotent: with no new locks, a second run meeting the same failures changes nothing. */
  lemma SweepIdempotent(b: Books, failing: set<GameId>)
    requires Known(b) && Mirrored(b)
    ensures Sweep(Sweep(b, failing), failing) == Sweep(b, failing)
  {
    SecondSweepIff(b, failing, failing);
  }

  // ---------------------------------------------------------------------------------------------
  // Money
  // ---------------------------------------------------------------------------------------------

  /** A game whose reversal gives everything back: neither paid out nor refunded, one wager for each wallet. */
  ghost predicate Refundable(b: Books, game: GameId) {
    && AllHeld(b.holds, game)
    && NoPayout(RowsOf(b.rows, game))
    && DistinctWallets(RowsOf(b.rows, game))
  }

  lemma {:induction false} RowsOfOthers(rows: seq<Row>, more: seq<Row>, game: GameId)
    requires forall t :: t in more ==> t.reference != game
    ensures RowsOf(rows + more, game) == RowsOf(rows, game)
  {
    if more == [] {
      assert rows + more == rows;
    } else {
      var all := rows + more;
      assert all[..|all| - 1] == rows + more[..|more| - 1];
      RowsOfOthers(rows, more[..|more| - 1], game);
    }
  }

  lemma RevertSparesRefundable(b: Books, game: GameId, other: GameId)
    requires Known(b) && game != other && Refundable(b, other)
    ensures Refundable(RevertGame(b, game).0, other)
  {
    var txs := RowsOf(b.rows, game);
    if txs != [] {
      RowsOfAreRows(b.rows, game);
      assert txs[0] in txs;
      RefundsRecordAmounts(b.balances, txs, game, txs[0].wallet);
      RowsOfOthers(b.rows, Refunds(b.balances, txs, game), other);
    }
  }

  /** For a refundable game the loop gives back what the REFUND rows say, so the ledger identity holds. */
  lemma RevertStaysBalanced(b: Books, game: GameId)
    requires Known(b) && Balanced(b) && Refundable(b, game)
    ensures Balanced(RevertGame(b, game).0)
  {
    var txs := RowsOf(b.rows, game);
    var b' := RevertGame(b, game).0;
    if txs != [] {
      forall u | u in b.balances
        ensures b'.balances[u] == STARTING_BALANCE + Net(b'.rows, u)
      {
        ReversedKeepsLast(b.balances, txs, u);
        RefundsRecordAmounts(b.balances, txs, game, u);
        NetAppend(b.rows, Refunds(b.balances, txs, game), u);
        DistinctLastIsSum(txs, u);
        WagersOnlySum(txs, u);
      }
    }
  }

  lemma {:induction false} WagersOnlySum(txs: seq<Row>, user: UserId)
    requires NoPayout(txs)
    ensures SignedSum(txs, user) == AmountSum(txs, user)
    ensures (forall i :: 0 <= i < |txs| && txs[i].kind == WAGER ==> txs[i].amount >= 0) ==> AmountSum(txs, user) >= 0
  {
    if txs != [] {
      var front := txs[..|txs| - 1];
      assert forall i :: 0 <= i < |front| ==> front[i] == txs[i];
      WagersOnlySum(front, user);
    }
  }

  ghost predicate NoNegativeWager(rows: seq<Row>) {
    forall t :: t in rows && t.kind == WAGER ==> t.amount >= 0
  }

  lemma RevertStaysSolvent(b: Books, game: GameId)
    requires Known(b) && Solvent(b) && Refundable(b, game) && NoNegativeWager(b.rows)
    ensures Solvent(RevertGame(b, game).0)
  {
    var txs := RowsOf(b.rows, game);
    RowsOfAreRows(b.rows, game);
    assert forall i :: 0 <= i < |txs| ==> txs[i] in txs;
    if txs != [] {
      forall u | u in b.balances
        ensures RevertGame(b, game).0.balances[u] >= 0
      {
        ReversedKeepsLast(b.balances, txs, u);
        DistinctLastIsSum(txs, u);
        WagersOnlySum(txs, u);
      }
    }
  }

  lemma RevertAddsNoWager(b: Books, game: GameId)
    requires Known(b)
    ensures var b' := RevertGame(b, game).0;
            && b'.balances.Keys == b.balances.Keys
            && (forall t :: t in b'.rows && t.kind == WAGER ==> t in b.rows)
  {
    var txs := RowsOf(b.rows, game);
    if txs != [] {
      RowsOfAreRows(b.rows, game);
      assert txs[0] in txs;
      RefundsRecordAmounts(b.balances, txs, game, txs[0].wallet);
    }
  }

  /** After refundable reversals the books are sound, hold the same money, and gained no wager row. */
  ghost predicate InOrder(b: Books, c: Books) {
    && Sound(c)
    && Money(c) == Money(b)
    && c.balances.Keys == b.balances.Keys
    && (forall t :: t in c.rows && t.kind == WAGER ==> t in b.rows)
    && (Solvent(b) && NoNegativeWager(b.rows) ==> Solvent(c))
  }

  lemma RevertInOrder(b: Books, c: Books, game: GameId)
    requires InOrder(b, c) && Refundable(c, game)
    ensures InOrder(b, RevertGame(c, game).0)
  {
    RevertStaysKnown(c, game);
    RevertStaysMirrored(c, game);
    RevertStaysBalanced(c, game);
    RevertConserves(c, game);
    RevertAddsNoWager(c, game);
    if Solvent(b) && NoNegativeWager(b.rows) {
      RevertStaysSolvent(c, game);
    }
  }

  lemma {:induction false} RevertAllInOrder(b: Books, games: seq<GameId>, failing: set<GameId>, pending: set<GameId>)
    requires Sound(b) && Collections.Distinct(games)
    requires forall g :: g in games ==> g in failing || Refundable(b, g)
    requires forall g :: g in pending ==> g !in games && Refundable(b, g)
    ensures InOrder(b, RevertAll(b, games, failing))
    ensures forall g :: g in pending ==> Refundable(RevertAll(b, games, failing), g)
  {
    if games != [] {
      var front, g := games[..|games| - 1], games[|games| - 1];
      assert games == front + [g];
      var pending' := if g in failing then pending else pending + {g};
      assert g !in front;
      RevertAllInOrder(b, front, failing, pending');
      var c := RevertAll(b, front, failing);
      if g !in failing {
        RevertInOrder(b, c, g);
        forall p | p in pending
          ensures Refundable(RevertGame(c, g).0, p)
        {
          RevertSparesRefundable(c, g, p);
        }
      }
    }
  }

  /**
   * If every game it reverts is refundable, the job moves money out of escrow without changing the
   * total, keeps the ledger identity, and leaves no balance negative.
   */
  lemma SweepInOrder(b: Books, failing: set<GameId>)
    requires Sound(b)
    requires forall g :: HasHeld(b.holds, g) && g !in failing ==> Refundable(b, g)
    ensures InOrder(b, Sweep(b, failing))
  {
    HeldGamesExact(b.holds);
    RevertAllInOrder(b, HeldGames(b.holds), failing, {});
  }
}
