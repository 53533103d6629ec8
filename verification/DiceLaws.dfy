/** Turn order, rounds and winners of the dice game. */
module DiceLaws {
  import opened Collections
  import opened Ledger
  import opened Games
  import opened Dice

  /** The index that comes `k` turns after `start`. */
  function Seat(start: nat, k: nat, n: nat): (seat: nat)
    requires 0 < n
    ensures seat < n
  {
    (start + k) % n
  }

  lemma Multiple(d: int, n: int)
    requires 0 < n
    ensures d > 0 ==> d * n >= n
    ensures d < 0 ==> d * n <= 0 - n
  {
    assert (d - 1) * n == d * n - n;
    assert (d + 1) * n == d * n + n;
    if d > 0 {
      Product(d - 1, n);
    } else if d < 0 {
      Product(-d - 1, n);
      assert (-d - 1) * n == -((d + 1) * n);
    }
  }

  lemma Product(a: nat, b: nat)
    ensures a * b >= 0
  {
  }

  lemma ModOnce(x: nat, n: nat)
    requires 0 < n && x < 2 * n
    ensures x % n == if x < n then x else x - n
  {
    var (q, k) := (x / n, if x < n then 0 else 1);
    assert x == q * n + x % n;
    assert (q - k) * n == q * n - k * n;
    Multiple(q - k, n);
  }

  lemma SeatValue(start: nat, k: nat, n: nat)
    requires start < n && k <= n
    ensures Seat(start, k, n) == if start + k < n then start + k else start + k - n
    ensures k < n ==> Seat(start, k + 1, n) == (Seat(start, k, n) + 1) % n
  {
    ModOnce(start + k, n);
    if k < n {
      ModOnce(start + k + 1, n);
      ModOnce(Seat(start, k, n) + 1, n);
    }
  }

  ghost function Rollers(players: seq<Player>, start: nat, k: nat): set<UserId>
    requires |players| > 0
  {
    set j | 0 <= j < k :: players[Seat(start, j, |players|)].userId
  }

  ghost function Everyone(g: Game): set<UserId> {
    Elements(UserIds(g.players))
  }

  /** `k` players have rolled in a round that began at index `start`: those next to it, in cyclic order. */
  ghost predicate RoundShape(g: Game, start: nat, k: nat) {
    && Collections.Distinct(UserIds(g.players))
    && start < |g.players| && k < |g.players|
    && g.currentTurnIndex == Seat(start, k, |g.players|)
    && g.dice.Keys == Rollers(g.players, start, k)
  }

  lemma {:induction false} RollersCount(players: seq<Player>, start: nat, k: nat)
    requires Collections.Distinct(UserIds(players)) && start < |players| && k <= |players|
    ensures |Rollers(players, start, k)| == k
    ensures k < |players| ==> players[Seat(start, k, |players|)].userId !in Rollers(players, start, k)
  {
    var n := |players|;
    if k > 0 {
      RollersCount(players, start, k - 1);
      assert Rollers(players, start, k) == Rollers(players, start, k - 1) + {players[Seat(start, k - 1, n)].userId};
    }
    if k < n {
      forall j | 0 <= j < k
        ensures players[Seat(start, j, n)].userId != players[Seat(start, k, n)].userId
      {
        SeatValue(start, j, n);
        SeatValue(start, k, n);
        var ids := UserIds(players);
        assert Seat(start, j, n) != Seat(start, k, n);
        assert ids[Seat(start, j, n)] != ids[Seat(start, k, n)];
      }
    }
  }

  lemma AllRolled(players: seq<Player>, start: nat)
    requires Collections.Distinct(UserIds(players)) && start < |players|
    ensures Rollers(players, start, |players|) == Elements(UserIds(players))
  {
    var n := |players|;
    RollersCount(players, start, n);
    DistinctCardinality(UserIds(players));
    forall u | u in Rollers(players, start, n)
      ensures u in Elements(UserIds(players))
    {
      var j :| 0 <= j < n && u == players[Seat(start, j, n)].userId;
      assert UserIds(players)[Seat(start, j, n)] == u;
    }
    SubsetCardinality(Rollers(players, start, n), Elements(UserIds(players)));
  }

  // ---------------------------------------------------------------------------------------------
  // Winners
  // ---------------------------------------------------------------------------------------------

  ghost predicate HitsAt(g: Game, i: nat)
    requires i < |g.players|
  {
    Hits(g, g.players[i].userId)
  }

  lemma {:induction false} HittersExact(g: Game, n: nat)
    requires n <= |g.players|
    ensures |Hitters(g, n)| == 0 <==> forall i :: 0 <= i < n ==> !HitsAt(g, i)
    ensures |Hitters(g, n)| > 1 <==> exists i, j :: 0 <= i < j < n && HitsAt(g, i) && HitsAt(g, j)
    ensures forall i :: 0 <= i < n && HitsAt(g, i) ==> g.players[i].userId in Hitters(g, n)
  {
    if n > 0 {
      HittersExact(g, n - 1);
      if HitsAt(g, n - 1) && |Hitters(g, n - 1)| == 1 {
        var i :| 0 <= i < n - 1 && HitsAt(g, i);
        assert HitsAt(g, i) && HitsAt(g, n - 1);
      }
    }
  }

  /**
   * Once everyone has rolled: no result iff two players hit the target, the hitter iff exactly one did,
   * an empty winner iff none did; and the payout is everyone's bet.
   */
  lemma WinnerExact(g: Game)
    requires |g.dice| >= |g.players|
    ensures CheckWinner(g).None? <==> exists i, j :: 0 <= i < j < |g.players| && HitsAt(g, i) && HitsAt(g, j)
    ensures CheckWinner(g).Some? ==> CheckWinner(g).value.payout == g.config.betAmount * |g.players|
    ensures forall i :: 0 <= i < |g.players| && HitsAt(g, i) && CheckWinner(g).Some? ==>
      CheckWinner(g).value.winnerId == g.players[i].userId
    ensures (forall i :: 0 <= i < |g.players| ==> !HitsAt(g, i)) ==>
      CheckWinner(g).Some? && CheckWinner(g).value.winnerId == ""
  {
    HittersExact(g, |g.players|);
  }

  /**
   * The three results of a round in which everyone rolled, with a target set: nobody rolled exactly the target, one
   * player did, or two did; the payout is everyone's bet.
   */
  lemma WinnerRolledTheTarget(g: Game, target: int)
    requires |g.dice| >= |g.players| && g.config.targetNumber == Some(target)
    requires forall i :: 0 <= i < |g.players| ==> g.players[i].userId in g.dice
    ensures (forall i :: 0 <= i < |g.players| ==> g.dice[g.players[i].userId] != target) ==>
      CheckWinner(g) == Some(Winner("", g.config.betAmount * |g.players|))
    ensures forall i :: 0 <= i < |g.players| && g.dice[g.players[i].userId] == target &&
                        (forall j :: 0 <= j < |g.players| && j != i ==> g.dice[g.players[j].userId] != target) ==>
      CheckWinner(g) == Some(Winner(g.players[i].userId, g.config.betAmount * |g.players|))
    ensures CheckWinner(g) == None <==>
      exists i, j :: 0 <= i < j < |g.players| &&
        g.dice[g.players[i].userId] == target && g.dice[g.players[j].userId] == target
  {
    assert forall i :: 0 <= i < |g.players| ==> (HitsAt(g, i) <==> g.dice[g.players[i].userId] == target);
    WinnerExact(g);
    hide CheckWinner, Hitters, HitsAt;
  }

  /** Without a target a player who rolled never wins. */
  lemma NoTargetNoWinner(g: Game)
    requires |g.dice| >= |g.players| && g.config.targetNumber == None
    requires forall i :: 0 <= i < |g.players| ==> g.players[i].userId in g.dice
    ensures CheckWinner(g) == Some(Winner("", g.config.betAmount * |g.players|))
  {
    assert forall i :: 0 <= i < |g.players| ==> !HitsAt(g, i);
    WinnerExact(g);
    hide CheckWinner, Hitters, HitsAt;
  }

  // ---------------------------------------------------------------------------------------------
  // Rounds
  // ---------------------------------------------------------------------------------------------

  ghost predicate Tie(g: Game) {
    exists i, j :: 0 <= i < j < |g.players| && HitsAt(g, i) && HitsAt(g, j)
  }

  /** The engine accepts exactly the player whose turn it is in the cycle. */
  lemma OnlyTheNextMoves(g: Game, start: nat, k: nat, user: UserId, total: int)
    requires RoundShape(g, start, k)
    ensures ProcessMove(g, user, total).Some? <==> user == g.players[Seat(start, k, |g.players|)].userId
  {
    SeatValue(start, k, |g.players|);
  }

  /**
   * An accepted roll that is not the n-th of its round leaves the round one roll longer; the n-th closes
   * it: two hits start it again at index 0, anything else settles the match.
   */
  lemma RollAdvances(g: Game, start: nat, k: nat, user: UserId, total: int, treatBotAsUser: bool)
    requires RoundShape(g, start, k) && g.status == PLAYING
    requires user == g.players[Seat(start, k, |g.players|)].userId
    ensures ProcessMove(g, user, total).Some?
    ensures var moved := ProcessMove(g, user, total).value; var h := AfterMove(moved, treatBotAsUser).0;
            && h.players == g.players
            && (k + 1 < |g.players| ==>
                  h == moved && h.status == PLAYING && RoundShape(h, start, k + 1) && TurnAgrees(h))
            && (k + 1 == |g.players| ==>
                  && moved.dice.Keys == Everyone(g)
                  && moved.turn == g.players[start].userId
                  && (if Tie(moved) then h == ResetRound(moved) && h.status == PLAYING && RoundShape(h, 0, 0)
                      else h.status == SETTLED))
  {
    MovedShape(g, start, k, user, total);
    var moved := ProcessMove(g, user, total).value;
    hide Rollers, Seat, ProcessMove;
    if k + 1 == |g.players| {
      WinnerExact(moved);
      FreshRound(ResetRound(moved));
      hide HitsAt, Hitters;
    }
  }

  lemma FreshRound(g: Game)
    requires Collections.Distinct(UserIds(g.players)) && |g.players| > 0
    requires g.currentTurnIndex == 0 && g.dice == map[]
    ensures RoundShape(g, 0, 0)
  {
    SeatValue(0, 0, |g.players|);
    assert Rollers(g.players, 0, 0) == {};
  }

  lemma MovedShape(g: Game, start: nat, k: nat, user: UserId, total: int)
    requires RoundShape(g, start, k)
    requires user == g.players[Seat(start, k, |g.players|)].userId
    ensures ProcessMove(g, user, total).Some?
    ensures var moved := ProcessMove(g, user, total).value;
            && moved == g.(dice := moved.dice, currentTurnIndex := moved.currentTurnIndex, turn := moved.turn)
            && |moved.dice| == k + 1
            && moved.currentTurnIndex == Seat(start, k + 1, |g.players|) < |g.players|
            && moved.turn == g.players[moved.currentTurnIndex].userId
            && (k + 1 < |g.players| ==> RoundShape(moved, start, k + 1))
            && (k + 1 == |g.players| ==> moved.dice.Keys == Everyone(g) && moved.currentTurnIndex == start)
  {
    var n := |g.players|;
    SeatValue(start, k, n);
    SeatValue(start, k + 1, n);
    MovedDice(g, start, k, user, total);
    if k + 1 == n {
      AllRolled(g.players, start);
    }
    hide Rollers, Seat;
  }

  lemma OneMoreRoller(players: seq<Player>, start: nat, k: nat)
    requires |players| > 0
    ensures Rollers(players, start, k + 1) == Rollers(players, start, k) + {players[Seat(start, k, |players|)].userId}
  {
    hide Seat;
  }

  lemma RoundFacts(g: Game, start: nat, k: nat)
    requires RoundShape(g, start, k)
    ensures start < |g.players| && k < |g.players|
    ensures Collections.Distinct(UserIds(g.players)) && g.dice.Keys == Rollers(g.players, start, k)
  {
  }

  lemma KeysAfter(dice: map<UserId, int>, user: UserId, total: int)
    ensures dice[user := total].Keys == dice.Keys + {user}
    ensures |dice[user := total]| == |dice[user := total].Keys|
  {
  }

  lemma MovedDice(g: Game, start: nat, k: nat, user: UserId, total: int)
    requires RoundShape(g, start, k)
    requires user == g.players[Seat(start, k, |g.players|)].userId
    ensures var dice := g.dice[user := total];
            && dice.Keys == Rollers(g.players, start, k + 1)
            && |dice| == k + 1
  {
    hide *;
    RoundFacts(g, start, k);
    RollersCount(g.players, start, k + 1);
    OneMoreRoller(g.players, start, k);
    KeysAfter(g.dice, user, total);
  }

  // ---------------------------------------------------------------------------------------------
  // Whose turn it is
  // ---------------------------------------------------------------------------------------------

  ghost predicate TurnAgrees(g: Game) {
    g.currentTurnIndex < |g.players| && g.turn == g.players[g.currentTurnIndex].userId
  }

  /** A player may roll if both the gateway's guard and the engine's let him. */
  ghost predicate MayRoll(g: Game, user: UserId) {
    g.status == PLAYING && g.turn == user && ProcessMove(g, user, 0).Some?
  }

  /** While turn and index agree, exactly one player may roll; while they do not, nobody may. */
  lemma OneMayRollIff(g: Game)
    requires g.status == PLAYING && g.currentTurnIndex < |g.players|
    ensures TurnAgrees(g) ==> forall u :: MayRoll(g, u) <==> u == g.turn
    ensures !TurnAgrees(g) ==> forall u :: !MayRoll(g, u)
  {
  }

  /**
   * After a tie somebody may roll if and only if the round had begun at index 0: the reset moves the
   * index to 0 but leaves the turn with the player the round began with.
   */
  lemma TieKeepsTurnIff(g: Game, start: nat, user: UserId, total: int, treatBotAsUser: bool)
    requires |g.players| > 0 && RoundShape(g, start, |g.players| - 1) && g.status == PLAYING
    requires user == g.players[Seat(start, |g.players| - 1, |g.players|)].userId
    requires Tie(ProcessMove(g, user, total).value)
    ensures var h := AfterMove(ProcessMove(g, user, total).value, treatBotAsUser).0;
            && h.status == PLAYING
            && ((exists u :: MayRoll(h, u)) <==> start == 0)
  {
    RollAdvances(g, start, |g.players| - 1, user, total, treatBotAsUser);
    var h := AfterMove(ProcessMove(g, user, total).value, treatBotAsUser).0;
    OneMayRollIff(h);
    var ids := UserIds(g.players);
    assert ids[0] == ids[start] <==> start == 0;
    if start == 0 {
      assert MayRoll(h, h.turn);
    }
  }

  // ---------------------------------------------------------------------------------------------
  // Whole runs of a round
  // ---------------------------------------------------------------------------------------------

  datatype Move = Human(user: UserId, total: int) | Bot(user: UserId, total: int)

  function Apply(g: Game, move: Move, treatBotAsUser: bool): Game {
    match move
    case Human(user, total) => HandleRoll(g, user, total, treatBotAsUser).0
    case Bot(user, total) => HandleBotMove(g, user, total, treatBotAsUser).0
  }

  ghost function Play(g: Game, moves: seq<Move>, treatBotAsUser: bool): Game {
    if moves == [] then g else Apply(Play(g, moves[..|moves| - 1], treatBotAsUser), moves[|moves| - 1], treatBotAsUser)
  }

  predicate Admits(g: Game, move: Move) {
    match move
    case Human(user, _) => g.turn == user
    case Bot(user, _) => IsBot(g.players, user)
  }

  /** The move is accepted, closes its round, and two players have hit the target. */
  ghost predicate ClosesTied(g: Game, move: Move) {
    && g.status == PLAYING && Admits(g, move)
    && ProcessMove(g, move.user, move.total).Some?
    && var moved := ProcessMove(g, move.user, move.total).value;
    |moved.dice| == |g.players| && Tie(moved)
  }

  /** In play, in some round begun at `start` or at 0, with turn and index in agreement. */
  ghost predicate OnTurn(g: Game, start: nat) {
    g.status == PLAYING && TurnAgrees(g) && exists s: nat, k: nat :: (s == start || s == 0) && RoundShape(g, s, k)
  }

  /** In play, just after the tie of a round begun elsewhere than at 0: the index is back at 0, the turn is not. */
  ghost predicate OffTurn(g: Game, start: nat) {
    g.status == PLAYING && start != 0 && RoundShape(g, 0, 0) && start < |g.players| && g.turn == g.players[start].userId
  }

  lemma OffTurnDisagrees(g: Game, start: nat)
    requires OffTurn(g, start)
    ensures !TurnAgrees(g)
  {
    SeatValue(0, 0, |g.players|);
    assert UserIds(g.players)[0] != UserIds(g.players)[start];
  }

  lemma ApplyIsMove(g: Game, move: Move, treatBotAsUser: bool)
    requires g.status == PLAYING
    ensures Apply(g, move, treatBotAsUser) ==
      if Admits(g, move) && ProcessMove(g, move.user, move.total).Some?
      then AfterMove(ProcessMove(g, move.user, move.total).value, treatBotAsUser).0 else g
  {
    hide ProcessMove, AfterMove, IsBot;
  }

  /** One attempted move in a round begun at `s`: only a tie ends the round in play, and starts it again at index 0. */
  lemma ApplyAdvances(g: Game, s: nat, k: nat, move: Move, treatBotAsUser: bool)
    requires g.status == PLAYING && RoundShape(g, s, k)
    ensures var h := Apply(g, move, treatBotAsUser);
            && h.players == g.players
            && (h == g || h.status == SETTLED ||
                (h.status == PLAYING &&
                 if ClosesTied(g, move) then RoundShape(h, 0, 0) && h.turn == g.players[s].userId
                 else k + 1 < |g.players| && RoundShape(h, s, k + 1) && TurnAgrees(h)))
            && (ClosesTied(g, move) ==> h.status == PLAYING && RoundShape(h, 0, 0) && h.turn == g.players[s].userId)
  {
    ApplyIsMove(g, move, treatBotAsUser);
    hide ProcessMove, AfterMove, Apply, Admits, Rollers, Seat;
    OnlyTheNextMoves(g, s, k, move.user, move.total);
    if Admits(g, move) && ProcessMove(g, move.user, move.total).Some? {
      RollAdvances(g, s, k, move.user, move.total, treatBotAsUser);
      MovedShape(g, s, k, move.user, move.total);
    }
    hide RoundShape, Tie, TurnAgrees;
  }

  lemma ApplyKeepsCourse(g: Game, start: nat, move: Move, treatBotAsUser: bool)
    requires OnTurn(g, start) || OffTurn(g, start)
    ensures var h := Apply(g, move, treatBotAsUser);
            h.status == SETTLED || OnTurn(h, start) || OffTurn(h, start)
  {
    var s, k := CurrentRound(g, start);
    ApplyAdvances(g, s, k, move, treatBotAsUser);
    var h := Apply(g, move, treatBotAsUser);
    hide Apply;
    if h != g && h.status != SETTLED && ClosesTied(g, move) && s == 0 {
      StartsAtZero(h);
    }
    hide ClosesTied, TurnAgrees;
    assert s < |g.players|;
    hide RoundShape;
  }

  lemma StartsAtZero(g: Game)
    requires RoundShape(g, 0, 0) && g.turn == g.players[0].userId
    ensures TurnAgrees(g)
  {
    SeatValue(0, 0, |g.players|);
  }

  lemma CurrentRound(g: Game, start: nat) returns (s: nat, k: nat)
    requires OnTurn(g, start) || OffTurn(g, start)
    ensures (s == start || s == 0) && RoundShape(g, s, k) && g.status == PLAYING
  {
    hide RoundShape;
    if OnTurn(g, start) {
      s, k :| (s == start || s == 0) && RoundShape(g, s, k);
    } else {
      s, k := 0, 0;
    }
  }

  /**
   * Whatever moves are attempted, a match that entered play at index `start` is settled, or turn and index
   * agree in a round begun at `start` or 0, or it is just after the tie of a round not begun at 0, which is
   * exactly where they disagree. As long as no round has closed tied they agree in the first round; and if
   * it began at index 0, as bot matches do, they agree throughout.
   */
  lemma {:induction false} PlayKeepsRound(g: Game, start: nat, moves: seq<Move>, treatBotAsUser: bool)
    requires g.status == PLAYING && RoundShape(g, start, 0) && TurnAgrees(g)
    ensures var h := Play(g, moves, treatBotAsUser);
            && (h.status == SETTLED || OnTurn(h, start) || OffTurn(h, start))
            && (h.status != SETTLED ==> (TurnAgrees(h) <==> !OffTurn(h, start)))
            && (h.status != SETTLED && start == 0 ==> TurnAgrees(h))
  {
    if moves == [] {
      assert OnTurn(g, start);
    } else {
      var front := moves[..|moves| - 1];
      PlayKeepsRound(g, start, front, treatBotAsUser);
      var h := Play(g, front, treatBotAsUser);
      if h.status == SETTLED {
        SettledStays(h, moves[|moves| - 1], treatBotAsUser);
      } else {
        ApplyKeepsCourse(h, start, moves[|moves| - 1], treatBotAsUser);
      }
    }
    var h := Play(g, moves, treatBotAsUser);
    hide Play, Apply, RoundShape;
    if OffTurn(h, start) {
      OffTurnDisagrees(h, start);
    }
  }

  lemma SettledStays(g: Game, move: Move, treatBotAsUser: bool)
    requires g.status == SETTLED
    ensures Apply(g, move, treatBotAsUser) == g
  {
  }

  /** Up to the first tie, turn and index agree in the round begun at `start`, whatever that is. */
  lemma {:induction false} AgreesUpToFirstTie(g: Game, start: nat, moves: seq<Move>, treatBotAsUser: bool)
    requires g.status == PLAYING && RoundShape(g, start, 0) && TurnAgrees(g)
    requires forall n :: 0 <= n < |moves| ==> !ClosesTied(Play(g, moves[..n], treatBotAsUser), moves[n])
    ensures var h := Play(g, moves, treatBotAsUser);
            h.status == SETTLED || (h.status == PLAYING && TurnAgrees(h) && exists k: nat :: RoundShape(h, start, k))
  {
    if moves == [] {
      assert RoundShape(g, start, 0);
    } else {
      var front, last := moves[..|moves| - 1], moves[|moves| - 1];
      forall n | 0 <= n < |front|
        ensures !ClosesTied(Play(g, front[..n], treatBotAsUser), front[n])
      {
        assert front[..n] == moves[..n] && front[n] == moves[n];
      }
      AgreesUpToFirstTie(g, start, front, treatBotAsUser);
      var h := Play(g, front, treatBotAsUser);
      if h.status == SETTLED {
        SettledStays(h, last, treatBotAsUser);
      } else {
        var k: nat :| RoundShape(h, start, k);
        ApplyAdvances(h, start, k, last, treatBotAsUser);
        hide RoundShape, Apply, ClosesTied;
      }
    }
  }

  /** Over a run, agreement is lost exactly by a move that closes tied a round not begun at 0. */
  lemma LostExactlyByTie(g: Game, start: nat, moves: seq<Move>, move: Move, treatBotAsUser: bool)
    requires g.status == PLAYING && RoundShape(g, start, 0) && TurnAgrees(g)
    requires TurnAgrees(Play(g, moves, treatBotAsUser)) && Play(g, moves, treatBotAsUser).status == PLAYING
    ensures var before := Play(g, moves, treatBotAsUser);
            var after := Apply(before, move, treatBotAsUser);
            after.status == PLAYING && !TurnAgrees(after) <==>
              ClosesTied(before, move) && exists s: nat, k: nat :: s != 0 && RoundShape(before, s, k)
  {
    PlayKeepsRound(g, start, moves, treatBotAsUser);
    var before := Play(g, moves, treatBotAsUser);
    var after := Apply(before, move, treatBotAsUser);
    var s, k := CurrentRound(before, start);
    ApplyAdvances(before, s, k, move, treatBotAsUser);
    hide Apply, Play, ClosesTied;
    if ClosesTied(before, move) {
      if s0: nat, k0: nat :| s0 != 0 && RoundShape(before, s0, k0) {
        ApplyAdvances(before, s0, k0, move, treatBotAsUser);
        OffTurnDisagrees(after, s0);
      } else {
        StartsAtZero(after);
      }
    }
    hide RoundShape;
  }

  /** The engine's index points at a bot, whose scheduled move does not look at the turn. */
  predicate BotIsNext(g: Game) {
    g.currentTurnIndex < |g.players| &&
    exists i :: 0 <= i < |g.players| && g.players[i].isBot &&
      g.players[i].userId == g.players[g.currentTurnIndex].userId
  }

  /** A move that goes through is never undone by the reset: the match is over, or its index or its rolls differ. */
  lemma MoveChanges(g: Game, user: UserId, total: int, treatBotAsUser: bool)
    requires g.status == PLAYING && ProcessMove(g, user, total).Some?
    ensures AfterMove(ProcessMove(g, user, total).value, treatBotAsUser).0 != g
  {
    var moved := ProcessMove(g, user, total).value;
    assert user in moved.dice && |moved.dice| >= 1;
    if |g.players| == 1 {
      assert |Hitters(moved, 1)| <= 1;
    }
    hide Hitters, Practice;
  }

  lemma {:induction false} StaysStuck(g: Game, moves: seq<Move>, treatBotAsUser: bool)
    requires g.status == PLAYING && !TurnAgrees(g) && !BotIsNext(g)
    ensures Play(g, moves, treatBotAsUser) == g
  {
    if moves != [] {
      StaysStuck(g, moves[..|moves| - 1], treatBotAsUser);
      hide IsBot, AfterMove;
    }
  }

  lemma PlayOne(g: Game, move: Move, treatBotAsUser: bool)
    ensures Play(g, [move], treatBotAsUser) == Apply(g, move, treatBotAsUser)
  {
    assert [move][..0] == [];
    hide Apply;
    assert Play(g, [], treatBotAsUser) == g;
  }

  /**
   * Once turn and index disagree the match is stuck, whatever rolls are attempted and in whatever order, if and only
   * if the index does not point at a bot.
   */
  lemma StuckForeverIff(g: Game, treatBotAsUser: bool)
    requires g.status == PLAYING && !TurnAgrees(g)
    ensures (forall moves :: Play(g, moves, treatBotAsUser) == g) <==> !BotIsNext(g)
  {
    if BotIsNext(g) {
      var bot := g.players[g.currentTurnIndex].userId;
      MoveChanges(g, bot, 0, treatBotAsUser);
      PlayOne(g, Bot(bot, 0), treatBotAsUser);
      hide Play, AfterMove;
    } else {
      forall moves
        ensures Play(g, moves, treatBotAsUser) == g
      {
        StaysStuck(g, moves, treatBotAsUser);
      }
    }
  }

  /** A new match with distinct players starts in such a round, at the index that an engine start would give. */
  lemma CreatedInRound(matchId: GameId, players: seq<Player>, config: Config, turn: UserId)
    requires Collections.Distinct(UserIds(players)) && |players| > 0
    ensures var g := CreateGame(matchId, players, config, turn);
            && RoundShape(g, g.currentTurnIndex, 0)
            && StartGame(g) == g
            && (if turn != "" && turn in UserIds(players) then TurnAgrees(g) else g.currentTurnIndex == 0)
  {
    var g := CreateGame(matchId, players, config, turn);
    SeatValue(g.currentTurnIndex, 0, |players|);
    assert Rollers(players, g.currentTurnIndex, 0) == {};
    if IndexOf(players, turn) < |players| {
      assert UserIds(players)[IndexOf(players, turn)] == turn;
    }
    if turn in UserIds(players) {
      var i :| 0 <= i < |players| && UserIds(players)[i] == turn;
      assert players[i].userId == turn;
    }
  }
}
