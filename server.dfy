/**
 * The match server as an object: its fields are the module-level state of
 * ufc-game/server.js (`waitingBots`, `games`, `leaderboard`, `matchHistory`,
 * `stats`) together with the game objects the timer callbacks keep alive and
 * their pending timers.  Each method performs one handler or timer callback
 * in place and is proved to leave exactly the state the corresponding
 * function of `Engine` describes; the public ones keep `Valid()`.
 */
module MatchServer {
  import opened Wrappers
  import opened Combat
  import opened Standings
  import opened Session
  import opened Engine
  import opened Invariants

  class Server {
    var waiting: seq<Bot>                 // waitingBots
    var sessions: map<Id, Game>           // every game object created so far
    var live: set<Id>                     // the keys of the games Map
    var timers: map<Id, Timers>           // pending timers per game object
    var leaderboard: map<Id, Entry>
    var boardOrder: seq<Id>               // insertion order of the leaderboard Map
    var history: seq<MatchRecord>         // matchHistory
    var totalFights: nat                  // stats.totalFights
    var totalKOs: nat                     // stats.totalKOs
    ghost var issued: set<Id>
    ghost var revivals: map<Id, nat>

    /** The state as a value. */
    ghost function Model(): World
      reads this
    {
      World(waiting, sessions, live, timers, leaderboard, boardOrder, history, totalFights, totalKOs, issued, revivals)
    }

    ghost predicate Valid()
      reads this
    {
      Inv(Model())
    }

    /** The server at start-up: no bots, no games, empty standings and history. */
    constructor ()
      ensures Valid() && Model() == Empty()
    {
      waiting, sessions, live, timers := [], map[], {}, map[];
      leaderboard, boardOrder, history := map[], [], [];
      totalFights, totalKOs := 0, 0;
      issued, revivals := {}, map[];
      EmptyInv();
    }

    // -------------------------------------------------------------------------
    // The events the server reacts to: a message or a closed connection on a
    // socket, and the timers a game has pending.  Each keeps the invariant.
    // -------------------------------------------------------------------------

    /** A `register_bot` message; `bid` and `gid` are the fresh ids `generateId` would return. */
    method OnRegister(bid: Id, gid: Id, name: string, stats: Option<Stats>, style: string)
      requires Valid() && bid !in issued && gid !in issued && bid != gid
      modifies this
      ensures Valid()
      ensures Model() == Register(old(Model()), bid, gid, name, stats, style)
    {
      ghost var w := Model();
      RegisterKeepsInv(w, bid, gid, name, stats, style);
      RegisterBot(bid, gid, name, stats, style);
    }

    /** The timeout that calls `startFight` runs. */
    method OnStartTimeout(gid: Id)
      requires Valid() && Known(Model(), gid) && timers[gid].starts > 0
      modifies this
      ensures Valid()
      ensures Model() == Engine.StartFight(old(Model()), gid)
    {
      ghost var w := Model();
      StartFightKeepsInv(w, gid);
      StartFight(gid);
    }

    /** The round interval of a game fires. */
    method OnInterval(gid: Id)
      requires Valid() && Known(Model(), gid) && timers[gid].intervals > 0
      modifies this
      ensures Valid()
      ensures Model() == Engine.Tick(old(Model()), gid)
    {
      ghost var w := Model();
      TickKeepsInv(w, gid);
      RoundTick(gid);
    }

    /** The clean-up timeout scheduled by `endFight` runs. */
    method OnCleanupTimeout(gid: Id)
      requires Valid() && gid in timers && timers[gid].cleanups > 0
      modifies this
      ensures Valid()
      ensures Model() == Engine.Cleanup(old(Model()), gid)
    {
      ghost var w := Model();
      CleanupKeepsInv(w, gid);
      DeleteGame(gid);
    }

    /** A `fighter_action` message on the connection of bot `sender`; `hit` is the random hit roll. */
    method OnAction(sender: Option<Id>, gid: Id, action: string, hit: bool) returns (outcome: ActionOutcome)
      requires Valid()
      modifies this
      ensures Valid()
      ensures (Model(), outcome) == Act(old(Model()), sender, gid, action, hit)
    {
      ghost var w := Model();
      ActKeepsInv(w, sender, gid, action, hit);
      assert Frame(live, sessions, timers, revivals, issued);
      outcome := HandleAction(sender, gid, action, hit);
    }

    /** The connection of bot `sender` closes. */
    method OnClose(sender: Option<Id>)
      requires Valid()
      modifies this
      ensures Valid()
      ensures Model() == Disconnect(old(Model()), sender)
    {
      ghost var w := Model();
      DisconnectKeepsInv(w, sender);
      HandleDisconnect(sender);
    }

    // -------------------------------------------------------------------------
    // The functions of the server, each performing its update in place.
    // -------------------------------------------------------------------------

    /** `registerBot`: queue a new bot and try to pair the queue. */
    method RegisterBot(bid: Id, gid: Id, name: string, stats: Option<Stats>, style: string)
      modifies this
      ensures Model() == Register(old(Model()), bid, gid, name, stats, style)
    {
      waiting := waiting + [NewBot(bid, name, stats, style)];
      issued := issued + {bid};
      TryMatchBots(gid);
    }

    /** `tryMatchBots`: pair the two front bots into a new game whose start is scheduled. */
    method TryMatchBots(gid: Id)
      modifies this
      ensures Model() == TryMatch(old(Model()), gid)
    {
      ghost var w := Model();
      if |waiting| >= 2 {
        var bot1 := waiting[0];
        var bot2 := waiting[1];
        waiting := waiting[2..];
        sessions := sessions[gid := NewGame(gid, bot1, bot2)];
        live := live + {gid};
        timers := timers[gid := Timers(1, 0, 0)];
        issued := issued + {gid};
        revivals := revivals[gid := 0];
        TryMatchIs(w, gid);
      }
    }

    /** `startFight`: the game fights again and its round interval is started. */
    method StartFight(gid: Id)
      requires Known(Model(), gid) && timers[gid].starts > 0
      modifies this
      ensures Model() == Engine.StartFight(old(Model()), gid)
    {
      ghost var w := Model();
      var game := sessions[gid];
      var t := timers[gid];
      revivals := revivals[gid := revivals[gid] + (if game.state == Finished then 1 else 0)];
      sessions := sessions[gid := game.(state := Fighting)];
      timers := timers[gid := t.(starts := t.starts - 1, intervals := t.intervals + 1)];
      StartFightIs(w, gid);
    }

    /**
     * The body of the round interval: tick the clock and, when it runs out,
     * clear the interval and end the round (the source ends the round first;
     * the state after both is the same).
     */
    method RoundTick(gid: Id)
      requires Known(Model(), gid) && timers[gid].intervals > 0
      modifies this
      ensures Model() == Engine.Tick(old(Model()), gid)
    {
      ghost var w := Model();
      TickIs(w, gid);
      var t := timers[gid];
      var game := sessions[gid];
      if game.state != Fighting {
        timers := timers[gid := t.(intervals := t.intervals - 1)];
      } else {
        game := TickClock(game);
        sessions := sessions[gid := game];
        if game.time <= 0 {
          timers := timers[gid := t.(intervals := t.intervals - 1)];
          EndRound(gid);
        }
      }
    }

    /** `endRound`: a decision after the last round, otherwise the next round is scheduled. */
    method EndRound(gid: Id)
      requires Known(Model(), gid)
      modifies this
      ensures Model() == Engine.EndRound(old(Model()), gid)
    {
      var game := sessions[gid];
      if game.round >= FinalRound {
        EndFight(gid, DecisionWinner(game));
      } else {
        sessions := sessions[gid := NextRound(game)];
        var t := timers[gid];
        timers := timers[gid := t.(starts := t.starts + 1)];
      }
    }

    /**
     * `endFight`: conclude the game, count it, recompute both bots' entries,
     * append the history entry and schedule the clean-up.
     */
    method EndFight(gid: Id, winner: Role)
      requires Known(Model(), gid)
      modifies this
      ensures Model() == Engine.EndFight(old(Model()), gid, winner)
    {
      ghost var w := Model();
      var concluded := ConcludeGame(gid, winner);
      ghost var counted := Model();
      UpdateLeaderboard(concluded.Fighter(winner));
      UpdateLeaderboard(concluded.Fighter(winner.Other()));
      RecordMatch(gid, concluded, winner);
      assert Model() == Engine.UpdateLeaderboard(Engine.UpdateLeaderboard(counted, concluded.Fighter(winner)), concluded.Fighter(winner.Other())).(
        history := w.history + [RecordOf(concluded, winner)],
        timers := w.timers[gid := w.timers[gid].(cleanups := w.timers[gid].cleanups + 1)]);
    }

    /** The first part of `endFight`: the game is finished with its winner, the records and totals counted. */
    method ConcludeGame(gid: Id, winner: Role) returns (concluded: Game)
      requires Known(Model(), gid)
      modifies this
      ensures concluded == Concluded(old(sessions[gid]), winner)
      ensures Model() == old(Model()).(sessions := old(sessions)[gid := concluded],
                                       totalFights := old(totalFights) + 1,
                                       totalKOs := old(totalKOs) + if old(sessions[gid]).KnockedOut() then 1 else 0)
    {
      var game := sessions[gid];
      concluded := Concluded(game, winner);
      sessions, totalFights, totalKOs :=
        sessions[gid := concluded], totalFights + 1, totalKOs + if game.KnockedOut() then 1 else 0;
    }

    /** The last part of `endFight`: the history entry is pushed and the clean-up scheduled. */
    method RecordMatch(gid: Id, concluded: Game, winner: Role)
      requires gid in timers
      modifies this
      ensures Model() == old(Model()).(history := old(history) + [RecordOf(concluded, winner)],
                                       timers := old(timers)[gid := old(timers[gid]).(cleanups := old(timers[gid]).cleanups + 1)])
    {
      var t := timers[gid];
      history, timers := history + [RecordOf(concluded, winner)], timers[gid := t.(cleanups := t.cleanups + 1)];
    }

    /** `updateLeaderboard`: a new bot goes to the end of the Map's order, a known one keeps its place. */
    method UpdateLeaderboard(bot: Bot)
      modifies this
      ensures Model() == Engine.UpdateLeaderboard(old(Model()), bot)
    {
      if bot.id !in leaderboard {
        boardOrder := boardOrder + [bot.id];
      }
      leaderboard := leaderboard[bot.id := EntryOf(bot)];
    }

    /**
     * `handleAction`: a bot's action in a fighting game, gated on stamina,
     * ending the fight on a knockout.
     */
    method HandleAction(sender: Option<Id>, gid: Id, action: string, hit: bool) returns (outcome: ActionOutcome)
      requires gid in live ==> Known(Model(), gid)
      modifies this
      ensures (Model(), outcome) == Act(old(Model()), sender, gid, action, hit)
    {
      if gid !in live {
        return Ignored;
      }
      var game := sessions[gid];
      if game.state != Fighting {
        return Ignored;
      }
      ghost var w := Model();
      ActIs(w, sender, gid, action, hit);
      var isFighter1 := sender == Some(game.fighter1.id);
      var stamina := if isFighter1 then game.stamina1 else game.stamina2;
      if stamina < MinStamina {
        return NotEnoughStamina;
      }
      var fighter := if isFighter1 then game.fighter1 else game.fighter2;
      game := ApplyAction(game, isFighter1, action, hit);
      sessions := sessions[gid := game];
      outcome := Applied(Report(fighter.name, action, hit,
                                if hit then (if isFighter1 then game.health2 else game.health1) else 0,
                                game.health1, game.health2, game.stamina1, game.stamina2));
      if game.health1 <= 0 || game.health2 <= 0 {
        EndFight(gid, if game.health1 <= 0 then Fighter2 else Fighter1);
      }
    }

    /** The body of the clean-up timeout: `games.delete(game.id)`. */
    method DeleteGame(gid: Id)
      requires gid in timers && timers[gid].cleanups > 0
      modifies this
      ensures Model() == Engine.Cleanup(old(Model()), gid)
    {
      var t := timers[gid];
      live, timers := live - {gid}, timers[gid := t.(cleanups := t.cleanups - 1)];
    }

    /**
     * `handleDisconnect`: the bot leaves the queue, and every game in the
     * Map it fights in is deleted from the Map while the Map is walked.
     */
    method HandleDisconnect(sender: Option<Id>)
      modifies this
      ensures Model() == Disconnect(old(Model()), sender)
    {
      if sender.None? {
        return;
      }
      var id := sender.value;
      LeaveQueue(id);
      DeleteGamesOf(id);
    }

    /** The queue part of `handleDisconnect`: `findIndex`, then `splice` if the bot is waiting. */
    method LeaveQueue(id: Id)
      modifies this
      ensures Model() == old(Model()).(waiting := Unqueue(old(waiting), id))
    {
      var index := 0;
      while index < |waiting| && waiting[index].id != id
        invariant 0 <= index <= |waiting|
        invariant forall j :: 0 <= j < index ==> waiting[j].id != id
      {
        index := index + 1;
      }
      if index < |waiting| {
        waiting := waiting[..index] + waiting[index + 1..];
      }
    }

    /** The loop of `handleDisconnect` over the games Map, deleting each game bot `id` fights in. */
    method DeleteGamesOf(id: Id)
      modifies this
      ensures Model() == old(Model()).(live := set gid | gid in old(live) && !Abandons(old(Model()), gid, id))
    {
      ghost var w := Model();
      var unvisited := live;
      var kept := live;
      while unvisited != {}
        invariant unvisited <= live
        invariant kept == set g | g in live && (g in unvisited || !Abandons(w, g, id))
        decreases |unvisited|
      {
        var g :| g in unvisited;
        if g in sessions && sessions[g].Involves(id) {
          kept := kept - {g};
        }
        unvisited := unvisited - {g};
      }
      live := kept;
    }

    /** The entries of the leaderboard Map in its insertion order. */
    method BoardValues() returns (values: seq<Entry>)
      requires Valid()
      ensures BoardListed(Model()) && values == Board(Model())
    {
      values := [];
      var i := 0;
      while i < |boardOrder|
        invariant 0 <= i <= |boardOrder|
        invariant |values| == i
        invariant forall k :: 0 <= k < i ==> values[k] == leaderboard[boardOrder[k]]
      {
        values := values + [leaderboard[boardOrder[i]]];
        i := i + 1;
      }
    }

    /** The standings `/api/status` reports. */
    method StatusLeaders() returns (r: seq<Entry>)
      requires Valid()
      ensures BoardListed(Model()) && r == Engine.StatusLeaders(Model())
    {
      var values := BoardValues();
      r := Top(values, ByWins, 10);
    }

    /** The standings `/api/leaderboard` reports. */
    method LeaderboardLeaders() returns (r: seq<Entry>)
      requires Valid()
      ensures BoardListed(Model()) && r == Engine.LeaderboardLeaders(Model())
    {
      var values := BoardValues();
      r := Top(values, ByScore, 20);
    }
  }

  /**
   * The updates `handleAction` makes to the game object for an accepted
   * action: the actor pays the cost `processAction` reports, and on a hit
   * `calculateDamage` comes off the opponent's health, which stops at 0.
   */
  method ApplyAction(g: Game, isFighter1: bool, action: string, hit: bool) returns (game: Game)
    ensures game == Strike(g, isFighter1, action, hit)
  {
    game := g;
    var result := ProcessAction(action, hit);
    if isFighter1 {
      game := game.(stamina1 := game.stamina1 - result.staminaCost);
    } else {
      game := game.(stamina2 := game.stamina2 - result.staminaCost);
    }
    if result.hit {
      var attacker := if isFighter1 then game.fighter1 else game.fighter2;
      var damage := Damage(result.action, attacker.stats);
      if isFighter1 {
        game := game.(health2 := Max(0, game.health2 - damage));
      } else {
        game := game.(health1 := Max(0, game.health1 - damage));
      }
    }
  }
}
