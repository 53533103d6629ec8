/** The dice engine, and the gateway handlers that apply a roll to a stored match as one step. */
module Dice {
  import opened Collections
  import opened Ledger
  import opened Games

  /** The state an engine start would give the match: the same turn index, and no rolls. */
  function StartGame(g: Game): Game {
    g.(dice := map[], currentTurnIndex := StartIndex(g.players, g.turn))
  }

  /** A roll of `total`; None where the engine throws because it is not this user's turn. */
  function ProcessMove(g: Game, user: UserId, total: int): Option<Game> {
    if g.currentTurnIndex >= |g.players| || g.players[g.currentTurnIndex].userId != user then None
    else
      var next := (g.currentTurnIndex + 1) % |g.players|;
      Some(g.(dice := g.dice[user := total], currentTurnIndex := next, turn := g.players[next].userId))
  }

  /** Whether a player's roll equals the target; a missing roll equals a missing target. */
  predicate Hits(g: Game, user: UserId) {
    if user in g.dice then g.config.targetNumber == Some(g.dice[user]) else g.config.targetNumber == None
  }

  function Hitters(g: Game, n: nat): seq<UserId>
    requires n <= |g.players|
  {
    if n == 0 then [] else
      Hitters(g, n - 1) + if Hits(g, g.players[n - 1].userId) then [g.players[n - 1].userId] else []
  }

  function CheckWinner(g: Game): Option<Winner> {
    if |g.dice| < |g.players| then None
    else
      var winners := Hitters(g, |g.players|);
      if |winners| > 1 then None
      else Some(Winner(if |winners| == 1 then winners[0] else "", g.config.betAmount * |g.players|))
  }

  function ResetRound(g: Game): Game {
    g.(dice := map[], currentTurnIndex := 0)
  }

  /** What the gateway does once a move went through: end the match, start the round again, or go on. */
  function AfterMove(g: Game, treatBotAsUser: bool): (Game, seq<Job>) {
    match CheckWinner(g)
    case Some(w) => EndGame(g, w.winnerId, w.payout, treatBotAsUser)
    case None => (if |g.dice| == |g.players| then ResetRound(g) else g, [])
  }

  /** A rejected roll leaves the stored match as it was. */
  function HandleRoll(g: Game, user: UserId, total: int, treatBotAsUser: bool): (Game, seq<Job>) {
    if g.status != PLAYING || g.turn != user then (g, []) else
      match ProcessMove(g, user, total)
      case None => (g, [])
      case Some(g') => AfterMove(g', treatBotAsUser)
  }

  predicate IsBot(players: seq<Player>, user: UserId) {
    exists i :: 0 <= i < |players| && players[i] == Player(user, true)
  }

  /** A bot's scheduled move: the gateway does not look at `turn`, only the engine's index decides. */
  function HandleBotMove(g: Game, bot: UserId, total: int, treatBotAsUser: bool): (Game, seq<Job>) {
    if g.status != PLAYING || !IsBot(g.players, bot) then (g, []) else
      match ProcessMove(g, bot, total)
      case None => (g, [])
      case Some(g') => AfterMove(g', treatBotAsUser)
  }
}
