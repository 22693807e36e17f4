/**
 * The match engine of ufc-game/server.js as a function of the whole server
 * state.  `World` holds what the module-level variables hold; each event the
 * JavaScript event loop runs (a message handler or a timer callback) is one
 * function from the state before to the state after.  The class in
 * MatchServer performs the same changes in place and is proved against these
 * functions.
 */
module Engine {
  import opened Wrappers
  import opened Combat
  import opened Standings
  import opened Session

  /**
   * The timers a game object has outstanding: `startFight` timeouts not yet
   * run, round intervals not yet cleared, and clean-up timeouts not yet run.
   */
  datatype Timers = Timers(starts: nat, intervals: nat, cleanups: nat)

  /**
   * The server state.  `sessions` holds every game object ever created (the
   * timer callbacks keep them alive) and `live` the ids still in the `games`
   * Map; `boardOrder` is the insertion order of the `leaderboard` Map.  The
   * last two fields are proof bookkeeping: every id handed out so far, and per
   * game how often a pending `startFight` ran on a finished game.
   */
  datatype World = World(
    waiting: seq<Bot>,
    sessions: map<Id, Game>,
    live: set<Id>,
    timers: map<Id, Timers>,
    leaderboard: map<Id, Entry>,
    boardOrder: seq<Id>,
    history: seq<MatchRecord>,
    totalFights: nat,
    totalKOs: nat,
    issued: set<Id>,
    revivals: map<Id, nat>)

  /** The state when the server starts. */
  function Empty(): World {
    World([], map[], {}, map[], map[], [], [], 0, 0, {}, map[])
  }

  /** A game object with its timers and bookkeeping. */
  predicate Known(w: World, gid: Id) {
    gid in w.sessions && gid in w.timers && gid in w.revivals
  }

  // ---------------------------------------------------------------------------
  // Queue: registerBot and tryMatchBots
  // ---------------------------------------------------------------------------

  /**
   * `registerBot`: the new bot joins the back of the queue, then a pairing is
   * tried.  `bid` and `gid` are the ids `generateId` would return.
   */
  function Register(w: World, bid: Id, gid: Id, name: string, stats: Option<Stats>, style: string): World {
    var queued := w.(waiting := w.waiting + [NewBot(bid, name, stats, style)], issued := w.issued + {bid});
    TryMatch(queued, gid)
  }

  /**
   * `tryMatchBots`: with two or more bots waiting, the two front bots leave
   * the queue in arrival order and become fighter1 and fighter2 of a new game
   * in the entrance state, whose start is scheduled.  With fewer, nothing
   * changes.
   */
  function TryMatch(w: World, gid: Id): (r: World)
    ensures |w.waiting| < 2 ==> r == w
    ensures |w.waiting| >= 2 ==>
      && r.waiting == w.waiting[2..]
      && r.sessions == w.sessions[gid := NewGame(gid, w.waiting[0], w.waiting[1])]
      && r.live == w.live + {gid}
      && r.timers == w.timers[gid := Timers(1, 0, 0)]
      && r.(waiting := w.waiting, sessions := w.sessions, live := w.live, timers := w.timers,
            issued := w.issued, revivals := w.revivals) == w
  {
    if |w.waiting| >= 2 then
      var game := NewGame(gid, w.waiting[0], w.waiting[1]);
      w.(waiting := w.waiting[2..],
         sessions := w.sessions[gid := game],
         live := w.live + {gid},
         timers := w.timers[gid := Timers(1, 0, 0)],
         issued := w.issued + {gid},
         revivals := w.revivals[gid := 0])
    else w
  }

  // ---------------------------------------------------------------------------
  // Timer callbacks: startFight, the interval body, endRound, clean-up
  // ---------------------------------------------------------------------------

  /**
   * A pending `startFight` runs: the state becomes `Fighting`
   * unconditionally (reviving a game that finished in the meantime) and a
   * round interval starts.  Round, clock, health and stamina are untouched.
   */
  function StartFight(w: World, gid: Id): (r: World)
    requires Known(w, gid) && w.timers[gid].starts > 0
    ensures Known(r, gid) && r.sessions[gid] == w.sessions[gid].(state := Fighting)
    ensures r.revivals[gid] == w.revivals[gid] + (if w.sessions[gid].state == Finished then 1 else 0)
  {
    var t := w.timers[gid];
    var g := w.sessions[gid];
    w.(sessions := w.sessions[gid := g.(state := Fighting)],
       timers := w.timers[gid := t.(starts := t.starts - 1, intervals := t.intervals + 1)],
       revivals := w.revivals[gid := w.revivals[gid] + (if g.state == Finished then 1 else 0)])
  }

  /**
   * One run of a round interval.  On a game that is not fighting it only
   * clears itself.  Otherwise one second comes off the clock, stamina
   * regenerates, and when the clock is at or below 0 the interval is cleared
   * and the round ends.  (The source ends the round before clearing the
   * interval; the order makes no difference to the state.)
   */
  function Tick(w: World, gid: Id): World
    requires Known(w, gid) && w.timers[gid].intervals > 0
  {
    var t := w.timers[gid];
    var g := w.sessions[gid];
    if g.state != Fighting then
      w.(timers := w.timers[gid := t.(intervals := t.intervals - 1)])
    else
      var g1 := TickClock(g);
      var w1 := w.(sessions := w.sessions[gid := g1]);
      if g1.time <= 0 then
        EndRound(w1.(timers := w.timers[gid := t.(intervals := t.intervals - 1)]), gid)
      else w1
  }

  /**
   * `endRound`: after the last round the fight ends on a decision; before it
   * the round advances, the clock resets and the next `startFight` is
   * scheduled, while the state stays as it is.
   */
  function EndRound(w: World, gid: Id): World
    requires Known(w, gid)
  {
    var g := w.sessions[gid];
    if g.round >= FinalRound then EndFight(w, gid, DecisionWinner(g))
    else
      var t := w.timers[gid];
      w.(sessions := w.sessions[gid := NextRound(g)],
         timers := w.timers[gid := t.(starts := t.starts + 1)])
  }

  /**
   * `endRound` before the last round: the round advances by one, the clock
   * is back at 300, the state is kept and one more start is pending; nothing
   * else changes.  After the last round `endFight` runs with the decision
   * winner, fighter1 winning only with strictly more health; its entry is
   * marked KO when some health is at or below 0, as in a revived fight.
   */
  lemma EndRoundEffect(w: World, gid: Id)
    requires Known(w, gid)
    ensures var g := w.sessions[gid]; var r := EndRound(w, gid);
      && (g.round < FinalRound ==>
            && r.sessions[gid] == g.(round := g.round + 1, time := RoundSeconds)
            && r.sessions[gid].state == g.state
            && r.timers[gid] == w.timers[gid].(starts := w.timers[gid].starts + 1)
            && r.(sessions := w.sessions, timers := w.timers) == w
            && r.sessions == w.sessions[gid := r.sessions[gid]] && r.timers == w.timers[gid := r.timers[gid]])
      && (g.round >= FinalRound ==>
            && r.sessions[gid].state == Finished
            && r.sessions[gid].winner == Some(if g.health1 > g.health2 then Fighter1 else Fighter2)
            && r == EndFight(w, gid, DecisionWinner(g))
            && r.totalFights == w.totalFights + 1 && |r.history| == |w.history| + 1
            && r.history[|w.history|].game == g.id
            && (r.history[|w.history|].how == KO <==> g.KnockedOut()))
  {
    var g := w.sessions[gid];
    if g.round >= FinalRound {
      var winner := DecisionWinner(g);
      var g1 := Concluded(g, winner);
      ConcludedEffect(g, winner);
      assert EndFight(w, gid, winner).sessions[gid] == g1;
    }
  }

  /**
   * One run of the interval body.  On a game that is not fighting only the
   * interval is cleared.  On a fighting game the clock loses exactly one
   * second and each stamina becomes `min(100, s + 2)`; while time is left
   * nothing else changes, and when the clock reaches 0 the interval is
   * cleared and the round ends.
   */
  lemma TickEffect(w: World, gid: Id)
    requires Known(w, gid) && w.timers[gid].intervals > 0
    ensures var g := w.sessions[gid]; var r := Tick(w, gid);
      var ticked := g.(time := g.time - 1, stamina1 := Min(100, g.stamina1 + 2), stamina2 := Min(100, g.stamina2 + 2));
      var cleared := w.timers[gid := w.timers[gid].(intervals := w.timers[gid].intervals - 1)];
      && (g.state != Fighting ==> r == w.(timers := cleared))
      && (g.state == Fighting && g.time > 1 ==> r == w.(sessions := w.sessions[gid := ticked]))
      && (g.state == Fighting && g.time <= 1 ==>
            r == EndRound(w.(sessions := w.sessions[gid := ticked], timers := cleared), gid))
  {
    TickClockEffect(w.sessions[gid]);
  }

  /** The clean-up timeout `endFight` scheduled: the game leaves the `games` Map. */
  function Cleanup(w: World, gid: Id): (r: World)
    requires gid in w.timers && w.timers[gid].cleanups > 0
    ensures r.live == w.live - {gid}
    ensures r.timers == w.timers[gid := w.timers[gid].(cleanups := w.timers[gid].cleanups - 1)]
    ensures r.(live := w.live, timers := w.timers) == w
  {
    var t := w.timers[gid];
    w.(live := w.live - {gid}, timers := w.timers[gid := t.(cleanups := t.cleanups - 1)])
  }

  // ---------------------------------------------------------------------------
  // endFight and updateLeaderboard
  // ---------------------------------------------------------------------------

  /**
   * `updateLeaderboard`: the bot's entry is (re)computed from its record; a
   * new id goes to the end of the Map's order, a known one keeps its place.
   */
  function UpdateLeaderboard(w: World, b: Bot): World {
    w.(leaderboard := w.leaderboard[b.id := EntryOf(b)],
       boardOrder := if b.id in w.leaderboard then w.boardOrder else w.boardOrder + [b.id])
  }

  /**
   * `endFight(game, winner)`: the game is concluded, the totals counted,
   * both bots' entries recomputed, one history entry appended and a clean-up
   * scheduled.
   */
  function EndFight(w: World, gid: Id, winner: Role): World
    requires Known(w, gid)
  {
    var g := w.sessions[gid];
    var g1 := Concluded(g, winner);
    var t := w.timers[gid];
    var counted := w.(sessions := w.sessions[gid := g1],
                      totalFights := w.totalFights + 1,
                      totalKOs := w.totalKOs + (if g.KnockedOut() then 1 else 0));
    var ranked := UpdateLeaderboard(UpdateLeaderboard(counted, g1.Fighter(winner)), g1.Fighter(winner.Other()));
    ranked.(history := w.history + [RecordOf(g1, winner)],
            timers := w.timers[gid := t.(cleanups := t.cleanups + 1)])
  }

  /**
   * The records `endFight` leaves: the winner gains a win and a knockout,
   * the loser a loss, totalFights grows by one and totalKOs by one exactly
   * when some health is at or below 0, and exactly one history entry is
   * appended, with method KO exactly in that case.
   */
  lemma EndFightEffect(w: World, gid: Id, winner: Role)
    requires Known(w, gid) && w.sessions[gid].fighter1.id != w.sessions[gid].fighter2.id
    ensures var g := w.sessions[gid];
      var r := EndFight(w, gid, winner);
      && Known(r, gid)
      && r.sessions[gid].state == Finished && r.sessions[gid].winner == Some(winner)
      && r.sessions[gid].Fighter(winner).wins == g.Fighter(winner).wins + 1
      && r.sessions[gid].Fighter(winner).knockouts == g.Fighter(winner).knockouts + 1
      && r.sessions[gid].Fighter(winner.Other()).losses == g.Fighter(winner.Other()).losses + 1
      && r.totalFights == w.totalFights + 1
      && r.totalKOs == w.totalKOs + (if g.KnockedOut() then 1 else 0)
      && |r.history| == |w.history| + 1 && r.history[..|w.history|] == w.history
      && r.history[|w.history|].game == g.id
      && (r.history[|w.history|].how == KO <==> g.KnockedOut())
      && r.leaderboard[g.Fighter(winner).id] == EntryOf(r.sessions[gid].Fighter(winner))
      && r.leaderboard[g.Fighter(winner.Other()).id] == EntryOf(r.sessions[gid].Fighter(winner.Other()))
      && r.waiting == w.waiting && r.live == w.live
  {
    var g := w.sessions[gid];
    var r := EndFight(w, gid, winner);
    assert (w.history + [RecordOf(Concluded(g, winner), winner)])[..|w.history|] == w.history;
    ConcludedEffect(g, winner);
    assert r.sessions[gid] == Concluded(g, winner);
    assert r.sessions[gid].Fighter(winner).id == g.Fighter(winner).id;
    assert r.sessions[gid].Fighter(winner.Other()).id == g.Fighter(winner.Other()).id;
    assert g.Fighter(winner).id != g.Fighter(winner.Other()).id;
    assert r.history[|w.history|] == RecordOf(Concluded(g, winner), winner);
  }

  // ---------------------------------------------------------------------------
  // handleAction
  // ---------------------------------------------------------------------------

  /**
   * The `action_result` broadcast.  Its `damage` field carries, on a hit, the
   * opponent's health after the hit (not the damage dealt), and 0 on a miss.
   */
  datatype Report = Report(
    actor: string, action: string, hit: bool, damage: int,
    health1: int, health2: int, stamina1: int, stamina2: int)

  /** What `handleAction` did with one request. */
  datatype ActionOutcome =
    | Ignored            // no such game in the Map, or the game is not fighting
    | NotEnoughStamina   // the `error` reply; nothing else happens
    | Applied(report: Report)

  /**
   * `handleAction`: `sender` is the requesting connection's bot id (`None`
   * before it registered).  Any sender other than fighter1 acts as fighter2.
   */
  function Act(w: World, sender: Option<Id>, gid: Id, action: string, hit: bool): (World, ActionOutcome) {
    if gid !in w.live || !Known(w, gid) || w.sessions[gid].state != Fighting then (w, Ignored)
    else
      var g := w.sessions[gid];
      var asFighter1 := sender == Some(g.fighter1.id);
      var stamina := if asFighter1 then g.stamina1 else g.stamina2;
      if stamina < MinStamina then (w, NotEnoughStamina)
      else
        var g1 := Strike(g, asFighter1, action, hit);
        var report := Report(
          (if asFighter1 then g.fighter1 else g.fighter2).name, action, hit,
          if hit then (if asFighter1 then g1.health2 else g1.health1) else 0,
          g1.health1, g1.health2, g1.stamina1, g1.stamina2);
        var w1 := w.(sessions := w.sessions[gid := g1]);
        if g1.KnockedOut() then (EndFight(w1, gid, KnockoutWinner(g1)), Applied(report))
        else (w1, Applied(report))
  }

  /** A request for a game outside the Map, or for a game that is not fighting, changes nothing. */
  lemma ActIgnored(w: World, sender: Option<Id>, gid: Id, action: string, hit: bool)
    requires gid !in w.live || !Known(w, gid) || w.sessions[gid].state != Fighting
    ensures Act(w, sender, gid, action, hit) == (w, Ignored)
  {
  }

  /** An actor with stamina below 10 only gets the error reply: no health or stamina changes. */
  lemma ActStaminaGate(w: World, sender: Option<Id>, gid: Id, action: string, hit: bool)
    requires gid in w.live && Known(w, gid) && w.sessions[gid].state == Fighting
    requires (if sender == Some(w.sessions[gid].fighter1.id) then w.sessions[gid].stamina1
              else w.sessions[gid].stamina2) < MinStamina
    ensures Act(w, sender, gid, action, hit) == (w, NotEnoughStamina)
  {
  }

  /**
   * An accepted action that knocks nobody out changes that game's stamina and
   * health as `Strike` says and nothing else; one that leaves a health at or
   * below 0 ends the fight at once with the other fighter as winner, whatever
   * the clock shows.
   */
  lemma ActApplied(w: World, sender: Option<Id>, gid: Id, action: string, hit: bool)
    requires gid in w.live && Known(w, gid) && w.sessions[gid].state == Fighting
    requires w.sessions[gid].fighter1.id != w.sessions[gid].fighter2.id
    requires (if sender == Some(w.sessions[gid].fighter1.id) then w.sessions[gid].stamina1
              else w.sessions[gid].stamina2) >= MinStamina
    ensures var g1 := Strike(w.sessions[gid], sender == Some(w.sessions[gid].fighter1.id), action, hit);
      var (r, out) := Act(w, sender, gid, action, hit);
      && out.Applied? && out.report.action == action && out.report.hit == hit
      && (!g1.KnockedOut() ==> r == w.(sessions := w.sessions[gid := g1]))
      && (g1.KnockedOut() ==>
            && r.sessions[gid].state == Finished
            && r.sessions[gid].winner == Some(if g1.health1 <= 0 then Fighter2 else Fighter1)
            && r.history[|r.history| - 1].how == KO
            && r == EndFight(w.(sessions := w.sessions[gid := g1]), gid, KnockoutWinner(g1)))
  {
    var g1 := Strike(w.sessions[gid], sender == Some(w.sessions[gid].fighter1.id), action, hit);
    var w1 := w.(sessions := w.sessions[gid := g1]);
    if g1.KnockedOut() {
      EndFightEffect(w1, gid, KnockoutWinner(g1));
    }
  }

  // ---------------------------------------------------------------------------
  // handleDisconnect
  // ---------------------------------------------------------------------------

  /** `findIndex` on the queue: the first position holding bot `id`, or -1. */
  function IndexOf(q: seq<Bot>, id: Id): (r: int)
    ensures -1 <= r < |q|
    ensures r == -1 <==> forall i :: 0 <= i < |q| ==> q[i].id != id
    ensures 0 <= r ==> q[r].id == id && forall i :: 0 <= i < r ==> q[i].id != id
  {
    if |q| == 0 then -1
    else if q[0].id == id then 0
    else
      var k := IndexOf(q[1..], id);
      if k < 0 then -1 else k + 1
  }

  /** The queue after `splice`-ing out the first bot with `id`, if any; the others keep their order. */
  function Unqueue(q: seq<Bot>, id: Id): (r: seq<Bot>)
    ensures var i := IndexOf(q, id);
      if i < 0 then r == q else r == q[..i] + q[i + 1..]
    ensures forall b :: b in r ==> b in q
  {
    var i := IndexOf(q, id);
    if i < 0 then q else q[..i] + q[i + 1..]
  }

  /** Whether the game object a `games` entry names has bot `id` as a fighter. */
  predicate Abandons(w: World, gid: Id, id: Id) {
    gid in w.sessions && w.sessions[gid].Involves(id)
  }

  /**
   * `handleDisconnect`: the bot leaves the queue if it is waiting, and every
   * game in the Map that it fights in is deleted from the Map.  Records,
   * standings, history and totals are untouched, and the deleted games'
   * objects keep their pending timers.
   */
  function Disconnect(w: World, sender: Option<Id>): (r: World)
    ensures sender.None? ==> r == w
    ensures sender.Some? ==>
      && r.waiting == Unqueue(w.waiting, sender.value)
      && (forall gid :: gid in r.live <==> gid in w.live && !Abandons(w, gid, sender.value))
    ensures r.(waiting := w.waiting, live := w.live) == w
  {
    match sender
    case None => w
    case Some(id) =>
      w.(waiting := Unqueue(w.waiting, id),
         live := set gid | gid in w.live && !Abandons(w, gid, id))
  }

  // ---------------------------------------------------------------------------
  // Reporting
  // ---------------------------------------------------------------------------

  predicate BoardListed(w: World) {
    forall i :: 0 <= i < |w.boardOrder| ==> w.boardOrder[i] in w.leaderboard
  }

  /** `Array.from(leaderboard.values())`: the entries in the Map's insertion order. */
  function Board(w: World): seq<Entry>
    requires BoardListed(w)
  {
    seq(|w.boardOrder|, i requires 0 <= i < |w.boardOrder| => w.leaderboard[w.boardOrder[i]])
  }

  /** The standings `/api/status` reports: top 10 by wins. */
  function StatusLeaders(w: World): seq<Entry>
    requires BoardListed(w)
  {
    Top(Board(w), ByWins, 10)
  }

  /** The standings `/api/leaderboard` reports: top 20 by `wins * 3 + knockouts`. */
  function LeaderboardLeaders(w: World): seq<Entry>
    requires BoardListed(w)
  {
    Top(Board(w), ByScore, 20)
  }
}
