/**
 * The records of ufc-game/server.js that one match owns — the two bots and the
 * game object built by `tryMatchBots` — and the changes its event handlers
 * make to one game: the stamina and health effects of `handleAction`, the
 * per-second body of the interval started by `startFight`, the round change of
 * `endRound` and the record updates of `endFight`.
 */
module Session {
  import opened Wrappers
  import opened Combat
  import opened Standings

  const RoundSeconds := 300
  const FinalRound := 3
  const FullHealth := 100
  const FullStamina := 100
  const StaminaRegen := 2

  /** A registered bot with its running record. */
  datatype Bot = Bot(
    id: Id, name: string, stats: Stats, style: string,
    wins: nat, losses: nat, knockouts: nat)

  /**
   * The bot `registerBot` builds.  An empty name or style stands for a
   * missing (falsy) one and gets the default; missing stats get 80 across.
   */
  function NewBot(id: Id, name: string, stats: Option<Stats>, style: string): (b: Bot)
    ensures b.id == id && b.wins == 0 && b.losses == 0 && b.knockouts == 0
    ensures b.name == (if name == "" then "Anonymous Bot" else name)
    ensures b.style == (if style == "" then "balanced" else style)
    ensures b.stats == stats.GetOr(DefaultStats)
  {
    Bot(id, if name == "" then "Anonymous Bot" else name, stats.GetOr(DefaultStats),
        if style == "" then "balanced" else style, 0, 0, 0)
  }

  datatype Role = Fighter1 | Fighter2 {
    function Other(): Role {
      match this
      case Fighter1 => Fighter2
      case Fighter2 => Fighter1
    }
  }

  /**
   * The values `game.state` takes.  There is no separate round-break value:
   * between rounds the state stays `Fighting`.
   */
  datatype Phase = Entrance | Fighting | Finished

  /** One game object. */
  datatype Game = Game(
    id: Id, fighter1: Bot, fighter2: Bot, state: Phase,
    round: int, time: int,
    health1: int, health2: int, stamina1: int, stamina2: int,
    winner: Option<Role>)
  {
    function Fighter(r: Role): Bot {
      match r
      case Fighter1 => fighter1
      case Fighter2 => fighter2
    }

    predicate Involves(bot: Id) {
      fighter1.id == bot || fighter2.id == bot
    }

    /** The test `endFight` uses for the KO method and the KO counter. */
    predicate KnockedOut() {
      health1 <= 0 || health2 <= 0
    }
  }

  /** The game `tryMatchBots` creates for the two front bots of the queue. */
  function NewGame(id: Id, first: Bot, second: Bot): (g: Game)
    ensures g.id == id && g.fighter1 == first && g.fighter2 == second
    ensures g.state == Entrance && g.round == 1 && g.time == RoundSeconds
    ensures g.health1 == g.health2 == FullHealth && g.stamina1 == g.stamina2 == FullStamina
    ensures g.winner.None?
  {
    Game(id, first, second, Entrance, 1, RoundSeconds,
         FullHealth, FullHealth, FullStamina, FullStamina, None)
  }

  // ---------------------------------------------------------------------------
  // Action effects (handleAction after its two gates)
  // ---------------------------------------------------------------------------

  /**
   * The effect of one accepted action: the actor pays the action's cost,
   * without clamping, and a hit takes the floored damage off the opponent's
   * health, which stops at 0.  `asFighter1` is the source's `isFighter1`.
   */
  function Strike(g: Game, asFighter1: bool, action: string, hit: bool): Game {
    var cost := ProcessAction(action, hit).staminaCost;
    var paid := if asFighter1 then g.(stamina1 := g.stamina1 - cost)
                else g.(stamina2 := g.stamina2 - cost);
    if !hit then paid
    else if asFighter1 then paid.(health2 := Max(0, paid.health2 - Damage(action, g.fighter1.stats)))
    else paid.(health1 := Max(0, paid.health1 - Damage(action, g.fighter2.stats)))
  }

  /**
   * What an accepted action changes: exactly the actor's stamina, by the
   * catalogue cost, and on a hit exactly the opponent's health, to
   * `max(0, h - damage)`; on a miss no health changes.
   */
  lemma StrikeEffect(g: Game, asFighter1: bool, action: string, hit: bool)
    ensures var r := Strike(g, asFighter1, action, hit);
      && r.(stamina1 := g.stamina1, stamina2 := g.stamina2, health1 := g.health1, health2 := g.health2) == g
      && (asFighter1 ==> r.stamina1 == g.stamina1 - Cost(action) && r.stamina2 == g.stamina2)
      && (!asFighter1 ==> r.stamina2 == g.stamina2 - Cost(action) && r.stamina1 == g.stamina1)
      && (!hit ==> r.health1 == g.health1 && r.health2 == g.health2)
      && (hit && asFighter1 ==> r.health1 == g.health1 && r.health2 == Max(0, g.health2 - Damage(action, g.fighter1.stats)))
      && (hit && !asFighter1 ==> r.health2 == g.health2 && r.health1 == Max(0, g.health1 - Damage(action, g.fighter2.stats)))
  {
  }

  /** The winner the KO check after an action picks: fighter2 when health1 is down, else fighter1. */
  function KnockoutWinner(g: Game): (r: Role)
    ensures r == Fighter2 <==> g.health1 <= 0
  {
    if g.health1 <= 0 then Fighter2 else Fighter1
  }

  // ---------------------------------------------------------------------------
  // Clock (interval body and endRound)
  // ---------------------------------------------------------------------------

  /** One second off the clock, and each stamina regenerates by 2 up to 100. */
  function TickClock(g: Game): Game {
    g.(time := g.time - 1,
       stamina1 := Min(FullStamina, g.stamina1 + StaminaRegen),
       stamina2 := Min(FullStamina, g.stamina2 + StaminaRegen))
  }

  lemma TickClockEffect(g: Game)
    ensures var r := TickClock(g);
      && r.(time := g.time, stamina1 := g.stamina1, stamina2 := g.stamina2) == g
      && r.time == g.time - 1
      && r.stamina1 == Min(100, g.stamina1 + 2) && r.stamina2 == Min(100, g.stamina2 + 2)
      && (g.stamina1 <= 100 ==> g.stamina1 <= r.stamina1 <= 100)
      && (g.stamina2 <= 100 ==> g.stamina2 <= r.stamina2 <= 100)
  {
  }

  /** A round that is not the last: the next round starts with a full clock, state untouched. */
  function NextRound(g: Game): Game {
    g.(round := g.round + 1, time := RoundSeconds)
  }

  /**
   * The decision after the last round: fighter1 wins only with strictly more
   * health, so a tie goes to fighter2.
   */
  function DecisionWinner(g: Game): (r: Role)
    ensures r == Fighter1 <==> g.health1 > g.health2
    ensures g.health1 == g.health2 ==> r == Fighter2
  {
    if g.health1 > g.health2 then Fighter1 else Fighter2
  }

  // ---------------------------------------------------------------------------
  // endFight's changes to the game and its bots
  // ---------------------------------------------------------------------------

  /**
   * The game after `endFight(game, winner)`: finished, the winner recorded,
   * the winner's wins and knockouts and the loser's losses counted.  The
   * knockout is counted whatever the method was.
   */
  function Concluded(g: Game, w: Role): Game {
    var g1 := g.(state := Finished, winner := Some(w));
    match w
    case Fighter1 =>
      g1.(fighter1 := g.fighter1.(wins := g.fighter1.wins + 1, knockouts := g.fighter1.knockouts + 1),
          fighter2 := g.fighter2.(losses := g.fighter2.losses + 1))
    case Fighter2 =>
      g1.(fighter2 := g.fighter2.(wins := g.fighter2.wins + 1, knockouts := g.fighter2.knockouts + 1),
          fighter1 := g.fighter1.(losses := g.fighter1.losses + 1))
  }

  lemma ConcludedEffect(g: Game, w: Role)
    ensures var r := Concluded(g, w);
      && r.state == Finished && r.winner == Some(w)
      && r.Fighter(w) == g.Fighter(w).(wins := g.Fighter(w).wins + 1, knockouts := g.Fighter(w).knockouts + 1)
      && r.Fighter(w.Other()) == g.Fighter(w.Other()).(losses := g.Fighter(w.Other()).losses + 1)
      && r.(state := g.state, winner := g.winner, fighter1 := g.fighter1, fighter2 := g.fighter2) == g
  {
  }

  /** The history entry `endFight` appends for a concluded game. */
  function RecordOf(g: Game, w: Role): (m: MatchRecord)
    ensures m.game == g.id && m.round == g.round
    ensures m.winnerId == g.Fighter(w).id && m.loserId == g.Fighter(w.Other()).id
    ensures m.how == KO <==> g.KnockedOut()
  {
    var winner := g.Fighter(w);
    var loser := g.Fighter(w.Other());
    MatchRecord(g.id, winner.name, winner.id, loser.name, loser.id,
                if g.KnockedOut() then KO else Decision, g.round)
  }

  /** The leaderboard value `updateLeaderboard` derives from a bot. */
  function EntryOf(b: Bot): (e: Entry)
    ensures e.id == b.id && e.wins == b.wins && e.losses == b.losses && e.knockouts == b.knockouts
    ensures e.winRate == WinRate(b.wins, b.losses)
  {
    Entry(b.id, b.name, b.style, b.wins, b.losses, b.knockouts, WinRate(b.wins, b.losses))
  }

  // ---------------------------------------------------------------------------
  // Bounds on one game
  // ---------------------------------------------------------------------------

  /**
   * What stays true of every game: round 1 to 3, the clock within one round,
   * health never negative (and at most 100 against an attacker of
   * non-negative power) and stamina within [-10, 100]: the stamina gate lets
   * only a fighter with at least 10 act and no action costs more than 20.
   */
  ghost predicate Bounded(g: Game) {
    && 1 <= g.round <= FinalRound
    && 0 <= g.time <= RoundSeconds
    && 0 <= g.health1 && 0 <= g.health2
    && (g.fighter2.stats.power >= 0 ==> g.health1 <= FullHealth)
    && (g.fighter1.stats.power >= 0 ==> g.health2 <= FullHealth)
    && MinStamina - 20 <= g.stamina1 <= FullStamina
    && MinStamina - 20 <= g.stamina2 <= FullStamina
  }

  lemma NewGameBounded(id: Id, first: Bot, second: Bot)
    ensures Bounded(NewGame(id, first, second))
  {
  }

  /** An accepted action keeps a game bounded; the actor had at least `MinStamina`. */
  lemma StrikeBounded(g: Game, asFighter1: bool, action: string, hit: bool)
    requires Bounded(g)
    requires (if asFighter1 then g.stamina1 else g.stamina2) >= MinStamina
    ensures Bounded(Strike(g, asFighter1, action, hit))
  {
    if g.fighter1.stats.power >= 0 {
      DamageNonNegative(action, g.fighter1.stats);
    }
    if g.fighter2.stats.power >= 0 {
      DamageNonNegative(action, g.fighter2.stats);
    }
  }
}
