/** The game manager and the dice gateway as objects over the store of matches and the wallet job queue. */
module GameManagerService {
  import opened Collections
  import opened Ledger
  import opened Games
  import Dice

  class GameManagerService {
    const treatBotAsUser: bool
    var games: map<GameId, Game>
    var queue: seq<Job>

    /** Every match is stored under its own id. */
    ghost predicate Valid()
      reads this
    {
      forall id :: id in games ==> games[id].matchId == id
    }

    constructor (treatBotAsUser: bool)
      ensures Valid() && games == map[] && queue == [] && this.treatBotAsUser == treatBotAsUser
    {
      this.treatBotAsUser := treatBotAsUser;
      games, queue := map[], [];
    }

    method FindIndex(players: seq<Player>, user: UserId) returns (i: nat)
      ensures i == IndexOf(players, user)
    {
      i := 0;
      while i < |players| && players[i].userId != user
        invariant i <= |players|
        invariant forall j :: 0 <= j < i ==> players[j].userId != user
      {
        i := i + 1;
      }
    }

    method CreateGame(matchId: GameId, players: seq<Player>, config: Config, turn: UserId)
      requires Valid()
      modifies this
      ensures Valid() && queue == old(queue)
      ensures games == old(games)[matchId := Games.CreateGame(matchId, players, config, turn)]
    {
      var currentTurnIndex := 0;
      if turn != "" {
        var idx := FindIndex(players, turn);
        if idx != |players| {
          currentTurnIndex := idx;
        }
      }
      var maxRounds := if config.maxRounds == 0 then 1 else config.maxRounds;
      games := games[matchId := Game(matchId, LOADING, players, 1, maxRounds, 0, [], config,
                                     currentTurnIndex, turn, [], [], map[], None)];
    }

    method UpdateGameState(state: Game)
      modifies `games
      ensures games == old(games)[state.matchId := state]
    {
      games := games[state.matchId := state];
    }

    method HandlePlayerConnected(matchId: GameId, user: UserId)
      requires Valid()
      modifies this
      ensures Valid()
      ensures matchId !in old(games) ==> games == old(games) && queue == old(queue)
      ensures matchId in old(games) ==>
        var (g, jobs) := Games.HandlePlayerConnected(old(games)[matchId], user, treatBotAsUser);
        games == old(games)[matchId := g] && queue == old(queue) + jobs
    {
      if matchId !in games {
        return;
      }
      var state := games[matchId];
      if state.status == LOADING {
        if user !in state.connectedPlayers {
          state := state.(connectedPlayers := state.connectedPlayers + [user]);
        }
        if |state.connectedPlayers| >= Humans(state.players) {
          TransitionToBetting(state);
        } else {
          UpdateGameState(state);
        }
      }
    }

    method TransitionToBetting(start: Game)
      requires Valid()
      modifies this
      ensures Valid()
      ensures var (g, jobs) := Games.TransitionToBetting(start, treatBotAsUser);
              games == old(games)[start.matchId := g] && queue == old(queue) + jobs
    {
      var state := start.(status := BETTING, lockedPlayers := []);
      UpdateGameState(state);
      if Practice(state.players, treatBotAsUser) {
        state := state.(lockedPlayers := UserIds(state.players));
        TransitionToPlaying(state);
        return;
      }
      ghost var jobs := LockJobs(state, treatBotAsUser);
      for i := 0 to |state.players|
        invariant games == old(games)[start.matchId := state]
        invariant queue == old(queue) + jobs[..i]
      {
        var p := state.players[i];
        if !p.isBot || (p.isBot && treatBotAsUser) {
          queue := queue + [LockJob(p.userId, state.config.betAmount, state.matchId, false)];
        } else {
          queue := queue + [LockJob(p.userId, state.config.betAmount, state.matchId, true)];
        }
      }
      assert jobs[..|state.players|] == jobs;
    }

    method HandleFundsLocked(matchId: GameId, user: UserId)
      requires Valid()
      modifies `games
      ensures Valid()
      ensures games == if matchId in old(games)
                       then old(games)[matchId := Games.HandleFundsLocked(old(games)[matchId], user)]
                       else old(games)
    {
      if matchId !in games || games[matchId].status != BETTING {
        return;
      }
      var state := games[matchId];
      if user !in state.lockedPlayers {
        state := state.(lockedPlayers := state.lockedPlayers + [user]);
        state := state.(pot := state.pot + state.config.betAmount);
      }
      if |state.lockedPlayers| == |state.players| {
        TransitionToPlaying(state);
      } else {
        UpdateGameState(state);
      }
    }

    method TransitionToPlaying(state: Game)
      modifies `games
      ensures games == old(games)[state.matchId := state.(status := PLAYING)]
    {
      UpdateGameState(state.(status := PLAYING));
    }

    method HandleRoundEnd(start: Game, winnerId: UserId)
      requires Valid()
      modifies this
      ensures Valid()
      ensures var (g, jobs) := Games.HandleRoundEnd(start, winnerId, treatBotAsUser);
              games == old(games)[start.matchId := g] && queue == old(queue) + jobs
    {
      var bets := seq(|start.players|, i requires 0 <= i < |start.players| =>
        Bet(start.players[i].userId, start.config.betAmount));
      var state := start.(roundHistory := start.roundHistory + [HistoryEntry(start.round, winnerId, bets)]);
      if state.round >= state.maxRounds {
        EndGame(state, winnerId, state.pot);
      } else {
        state := state.(round := state.round + 1);
        TransitionToBetting(state);
      }
    }

    method EndGame(start: Game, winnerId: UserId, payout: int)
      requires Valid()
      modifies this
      ensures Valid()
      ensures var (g, jobs) := Games.EndGame(start, winnerId, payout, treatBotAsUser);
              games == old(games)[start.matchId := g] && queue == old(queue) + jobs
    {
      var state := start.(status := SETTLED);
      if winnerId != "" {
        state := state.(winner := Some(Winner(winnerId, payout)));
      }
      UpdateGameState(state);
      if !Practice(state.players, treatBotAsUser) && winnerId != "" {
        queue := queue + [ReleaseJob(winnerId, state.pot, state.matchId)];
      }
    }
  }

  class DiceGateway {
    const gameManager: GameManagerService

    constructor (gameManager: GameManagerService)
      ensures this.gameManager == gameManager
    {
      this.gameManager := gameManager;
    }

    method HandleRoll(matchId: GameId, user: UserId, total: int)
      requires gameManager.Valid()
      modifies gameManager
      ensures gameManager.Valid()
      ensures matchId !in old(gameManager.games) ==>
        gameManager.games == old(gameManager.games) && gameManager.queue == old(gameManager.queue)
      ensures matchId in old(gameManager.games) ==>
        var (g, jobs) := Dice.HandleRoll(old(gameManager.games)[matchId], user, total, gameManager.treatBotAsUser);
        gameManager.games == old(gameManager.games)[matchId := g] && gameManager.queue == old(gameManager.queue) + jobs
    {
      if matchId !in gameManager.games {
        return;
      }
      var state := gameManager.games[matchId];
      if state.status != PLAYING || state.turn != user {
        return;
      }
      Move(state, user, total);
    }

    /** The delayed move that a bot's turn schedules. */
    method BotMove(matchId: GameId, bot: UserId, total: int)
      requires gameManager.Valid()
      modifies gameManager
      ensures gameManager.Valid()
      ensures matchId !in old(gameManager.games) ==>
        gameManager.games == old(gameManager.games) && gameManager.queue == old(gameManager.queue)
      ensures matchId in old(gameManager.games) ==>
        var (g, jobs) := Dice.HandleBotMove(old(gameManager.games)[matchId], bot, total, gameManager.treatBotAsUser);
        gameManager.games == old(gameManager.games)[matchId := g] && gameManager.queue == old(gameManager.queue) + jobs
    {
      if matchId !in gameManager.games {
        return;
      }
      var state := gameManager.games[matchId];
      if state.status != PLAYING || !Dice.IsBot(state.players, bot) {
        return;
      }
      Move(state, bot, total);
    }

    /** Move, check for a winner, then end the match or store it and reset a tied round. */
    method Move(start: Game, user: UserId, total: int)
      requires gameManager.Valid()
      requires start.matchId in gameManager.games && gameManager.games[start.matchId] == start
      modifies gameManager
      ensures gameManager.Valid()
      ensures var (g, jobs) := match Dice.ProcessMove(start, user, total)
                               case None => (start, [])
                               case Some(moved) => Dice.AfterMove(moved, gameManager.treatBotAsUser);
              gameManager.games == old(gameManager.games)[start.matchId := g] &&
              gameManager.queue == old(gameManager.queue) + jobs
    {
      var moved := Dice.ProcessMove(start, user, total);
      if moved.None? {
        return;
      }
      var state := moved.value;
      var winner := Dice.CheckWinner(state);
      gameManager.UpdateGameState(state);
      if winner.Some? {
        gameManager.EndGame(state, winner.value.winnerId, winner.value.payout);
      } else if |state.dice| == |state.players| {
        state := Dice.ResetRound(state);
        gameManager.UpdateGameState(state);
      }
    }
  }
}
