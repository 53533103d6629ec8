/** When a new match starts to collect bets. */
module MatchConnections {
  import opened Collections
  import opened Ledger
  import opened Games

  function HumanIds(players: seq<Player>): seq<UserId> {
    if players == [] then [] else
      HumanIds(players[..|players| - 1]) + if players[|players| - 1].isBot then [] else [players[|players| - 1].userId]
  }

  lemma {:induction false} HumansCount(players: seq<Player>)
    ensures |HumanIds(players)| == Humans(players)
  {
    if players != [] {
      HumansCount(players[..|players| - 1]);
    }
  }

  /**
   * As long as only human players of the match connect, it leaves LOADING exactly when the last of them has:
   * the code compares two counts, and the counts agree exactly when everybody is there.
   */
  lemma StartsWhenAllAreThere(g: Game, user: UserId, treatBotAsUser: bool)
    requires g.status == LOADING
    requires Collections.Distinct(HumanIds(g.players)) && Collections.Distinct(g.connectedPlayers)
    requires user in HumanIds(g.players) && forall u :: u in g.connectedPlayers ==> u in HumanIds(g.players)
    ensures var h := HandlePlayerConnected(g, user, treatBotAsUser).0;
            && Collections.Distinct(h.connectedPlayers)
            && (forall u :: u in h.connectedPlayers <==> u in g.connectedPlayers || u == user)
            && (h.status != LOADING <==> forall u :: u in HumanIds(g.players) ==> u in h.connectedPlayers)
  {
    var humans := HumanIds(g.players);
    var connected := if user in g.connectedPlayers then g.connectedPlayers else g.connectedPlayers + [user];
    HumansCount(g.players);
    CountsAgree(connected, humans);
    hide HumanIds, Humans, Practice, LockJobs;
  }

  lemma ElementsWithin(some: seq<UserId>, all: seq<UserId>)
    requires forall u :: u in some ==> u in all
    ensures Elements(some) <= Elements(all)
  {
    forall u | u in Elements(some)
      ensures u in Elements(all)
    {
      assert u in all;
    }
  }

  lemma CountsAgree(some: seq<UserId>, all: seq<UserId>)
    requires Collections.Distinct(some) && Collections.Distinct(all) && forall u :: u in some ==> u in all
    ensures |some| >= |all| <==> forall u :: u in all ==> u in some
  {
    DistinctCardinality(some);
    DistinctCardinality(all);
    ElementsWithin(some, all);
    SubsetCardinality(Elements(some), Elements(all));
    if |some| >= |all| {
      forall u | u in all
        ensures u in some
      {
        assert u in Elements(all);
      }
    }
    if forall u :: u in all ==> u in some {
      ElementsWithin(all, some);
      assert Elements(all) == Elements(some);
    }
  }

  /** What a connection to a loading match does to its connected players, and when it starts the betting. */
  lemma ConnectCounts(g: Game, user: UserId, treatBotAsUser: bool)
    requires g.status == LOADING && Collections.Distinct(g.connectedPlayers)
    ensures var h := HandlePlayerConnected(g, user, treatBotAsUser).0;
            && h.players == g.players
            && h.connectedPlayers ==
                 (if user in g.connectedPlayers then g.connectedPlayers else g.connectedPlayers + [user])
            && Collections.Distinct(h.connectedPlayers)
            && (h.status == LOADING <==> |h.connectedPlayers| < |HumanIds(g.players)|)
  {
    HumansCount(g.players);
    hide HumanIds, Humans, Practice, LockJobs;
  }

  /**
   * Whoever connects: the connection that starts a match finds every human player of it connected if and
   * only if nobody else is. The code compares two counts and never looks at who is there.
   */
  lemma StartsCompleteIff(g: Game, user: UserId, treatBotAsUser: bool)
    requires g.status == LOADING && |g.connectedPlayers| < Humans(g.players)
    requires Collections.Distinct(HumanIds(g.players)) && Collections.Distinct(g.connectedPlayers)
    requires HandlePlayerConnected(g, user, treatBotAsUser).0.status != LOADING
    ensures var h := HandlePlayerConnected(g, user, treatBotAsUser).0;
            (forall u :: u in HumanIds(g.players) ==> u in h.connectedPlayers) <==>
            (forall u :: u in h.connectedPlayers ==> u in HumanIds(g.players))
  {
    HumansCount(g.players);
    ConnectCounts(g, user, treatBotAsUser);
    hide HumanIds, Humans, HandlePlayerConnected;
    EqualCounts(HandlePlayerConnected(g, user, treatBotAsUser).0.connectedPlayers, HumanIds(g.players));
  }

  lemma EqualCounts(a: seq<UserId>, b: seq<UserId>)
    requires Collections.Distinct(a) && Collections.Distinct(b) && |a| == |b|
    ensures (forall u :: u in b ==> u in a) <==> (forall u :: u in a ==> u in b)
  {
    if forall u :: u in a ==> u in b {
      CountsAgree(a, b);
    }
    if forall u :: u in b ==> u in a {
      CountsAgree(b, a);
    }
  }

  // ---------------------------------------------------------------------------------------------
  // Any sequence of connections to a new match
  // ---------------------------------------------------------------------------------------------

  function ConnectAll(g: Game, users: seq<UserId>, treatBotAsUser: bool): Game {
    if users == [] then g else
      HandlePlayerConnected(ConnectAll(g, users[..|users| - 1], treatBotAsUser), users[|users| - 1], treatBotAsUser).0
  }

  /** How many different users must connect; even a match without humans waits for one. */
  function Needed(players: seq<Player>): nat {
    if HumanIds(players) == [] then 1 else |HumanIds(players)|
  }

  /** Until it starts a match has recorded exactly the users that connected; at the start, as many as it has humans. */
  lemma {:induction false} ConnectedSoFar(g: Game, users: seq<UserId>, treatBotAsUser: bool)
    requires g.status == LOADING && g.connectedPlayers == []
    ensures var h := ConnectAll(g, users, treatBotAsUser);
            && h.players == g.players && Collections.Distinct(h.connectedPlayers)
            && (forall u :: u in h.connectedPlayers ==> u in users)
            && (if h.status == LOADING
                then |h.connectedPlayers| < Needed(g.players) && forall u :: u in users ==> u in h.connectedPlayers
                else |h.connectedPlayers| == Needed(g.players))
  {
    if users != [] {
      var front, last := users[..|users| - 1], users[|users| - 1];
      assert users == front + [last];
      ConnectedSoFar(g, front, treatBotAsUser);
      var h := ConnectAll(g, front, treatBotAsUser);
      if h.status == LOADING {
        ConnectCounts(h, last, treatBotAsUser);
        hide HandlePlayerConnected, HumanIds;
      }
    }
  }

  /**
   * A new match, whatever users connect to it in whatever order: it starts exactly once as many different users
   * have connected as it lists humans (one, if it lists none). If they are distinct, all of them are there when it
   * starts if and only if no stranger is; if one of them is listed twice, a stranger always is.
   */
  lemma ConnectionsStart(matchId: GameId, players: seq<Player>, config: Config, turn: UserId, users: seq<UserId>,
                         treatBotAsUser: bool)
    ensures var h := ConnectAll(CreateGame(matchId, players, config, turn), users, treatBotAsUser);
            && (h.status != LOADING <==> |Elements(users)| >= Needed(players))
            && (h.status != LOADING && HumanIds(players) != [] ==>
                  if Collections.Distinct(HumanIds(players))
                  then (forall u :: u in HumanIds(players) ==> u in h.connectedPlayers) <==>
                       (forall u :: u in h.connectedPlayers ==> u in HumanIds(players))
                  else exists u :: u in h.connectedPlayers && u !in HumanIds(players))
  {
    var g := CreateGame(matchId, players, config, turn);
    ConnectedSoFar(g, users, treatBotAsUser);
    var h := ConnectAll(g, users, treatBotAsUser);
    hide ConnectAll, HumanIds, Collections.Distinct;
    DistinctCardinality(h.connectedPlayers);
    ElementsWithin(h.connectedPlayers, users);
    if h.status == LOADING {
      ElementsWithin(users, h.connectedPlayers);
      assert Elements(users) == Elements(h.connectedPlayers);
    } else {
      SubsetCardinality(Elements(h.connectedPlayers), Elements(users));
      if HumanIds(players) != [] {
        if Collections.Distinct(HumanIds(players)) {
          EqualCounts(h.connectedPlayers, HumanIds(players));
        } else {
          FewerThanListed(h.connectedPlayers, HumanIds(players));
        }
      }
    }
  }

  lemma FewerThanListed(a: seq<UserId>, b: seq<UserId>)
    requires Collections.Distinct(a) && !Collections.Distinct(b) && |a| == |b|
    ensures exists u :: u in a && u !in b
  {
    DistinctCardinality(a);
    DistinctCardinality(b);
    if forall u :: u in a ==> u in b {
      ElementsWithin(a, b);
      SubsetCardinality(Elements(a), Elements(b));
      assert false;
    }
  }

  /** For instance two strangers start a match of two. */
  lemma StrangersStartIt(matchId: GameId, a: UserId, b: UserId, x: UserId, y: UserId, config: Config,
                         treatBotAsUser: bool)
    requires x != y
    ensures var g := CreateGame(matchId, [Player(a, false), Player(b, false)], config, a);
            var one := HandlePlayerConnected(g, x, treatBotAsUser).0;
            one.status == LOADING && HandlePlayerConnected(one, y, treatBotAsUser).0.status == BETTING
  {
    var players := [Player(a, false), Player(b, false)];
    assert players[..1] == [Player(a, false)] && players[..1][..0] == [];
    assert Humans(players[..1]) == 1;
    assert Humans(players) == 2;
  }

  /** A connection that comes late changes nothing, and so does a locked bet outside the betting. */
  lemma LateOnesAreIgnored(g: Game, user: UserId, treatBotAsUser: bool)
    ensures g.status != LOADING ==> HandlePlayerConnected(g, user, treatBotAsUser) == (g, [])
    ensures g.status != BETTING || (user in g.lockedPlayers && |g.lockedPlayers| != |g.players|) ==>
      HandleFundsLocked(g, user) == g
  {
  }

  // ---------------------------------------------------------------------------------------------
  // Matches for money and practice matches
  // ---------------------------------------------------------------------------------------------

  /**
   * A new round starts at once, with everybody counted and no job, exactly if a bot takes part and bots are not
   * treated as users. Otherwise the bets are collected first, with one lock of the bet for each player in order,
   * bot or not, that does not skip the wallet. Nothing else of the match changes.
   */
  lemma CollectsBetsIff(g: Game, treatBotAsUser: bool)
    ensures var (h, jobs) := TransitionToBetting(g, treatBotAsUser);
            && h == g.(status := h.status, lockedPlayers := h.lockedPlayers)
            && if !treatBotAsUser && exists i :: 0 <= i < |g.players| && g.players[i].isBot then
                 && h.status == PLAYING && jobs == [] && |h.lockedPlayers| == |g.players|
                 && forall i :: 0 <= i < |g.players| ==> h.lockedPlayers[i] == g.players[i].userId
               else
                 && h.status == BETTING && h.lockedPlayers == [] && |jobs| == |g.players|
                 && forall i :: 0 <= i < |g.players| ==>
                      jobs[i] == LockJob(g.players[i].userId, g.config.betAmount, g.matchId, false)
  {
  }

  /**
   * The end of a match queues the one release of its pot exactly if there is a winner and the bets were collected:
   * no bot takes part, or bots are treated as users. Only a winner is recorded, with the payout he is told.
   */
  lemma ReleasesPotIff(g: Game, winnerId: UserId, payout: int, treatBotAsUser: bool)
    ensures var (h, jobs) := EndGame(g, winnerId, payout, treatBotAsUser);
            && h == g.(status := SETTLED, winner := if winnerId == "" then g.winner else Some(Winner(winnerId, payout)))
            && jobs == if winnerId != "" && (treatBotAsUser || forall i :: 0 <= i < |g.players| ==> !g.players[i].isBot)
                       then [ReleaseJob(winnerId, g.pot, g.matchId)] else []
  {
  }

  lemma IndicesGrow(players: seq<Player>)
    requires players != []
    ensures var front, last := players[..|players| - 1], |players| - 1;
            (set i | 0 <= i < |players| && !players[i].isBot) ==
              (set i | 0 <= i < |front| && !front[i].isBot) + if players[last].isBot then {} else {last}
  {
  }

  /** What the connections are counted against is the number of players that are not bots. */
  lemma {:induction false} HumansExact(players: seq<Player>)
    ensures Humans(players) == |set i | 0 <= i < |players| && !players[i].isBot|
    ensures forall u :: u in HumanIds(players) <==>
      exists i :: 0 <= i < |players| && !players[i].isBot && players[i].userId == u
  {
    if players != [] {
      var front, last := players[..|players| - 1], players[|players| - 1];
      HumansExact(front);
      IndicesGrow(players);
      assert forall i :: 0 <= i < |front| ==> front[i] == players[i];
      assert HumanIds(players) == HumanIds(front) + if last.isBot then [] else [last.userId];
    }
  }
}
