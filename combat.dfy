/**
 * The combat resolver of ufc-game/server.js: the action catalogue used by
 * `processAction` and the damage formula of `calculateDamage`.  Both are pure;
 * the random hit roll is an input (`hit`) of the server's action handler.
 */
module Combat {
  import opened Wrappers

  /** The stat block a bot declares when it registers.  The server keeps it as given. */
  datatype Stats = Stats(power: int, speed: int, defense: int, cardio: int)

  /** Stats given to a bot whose registration carries none. */
  const DefaultStats := Stats(80, 80, 80, 80)

  /** A fighter below this stamina may not act at all. */
  const MinStamina := 10

  /**
   * One row of the action catalogue: its stamina cost and its catalogue damage.
   * The catalogue's fractional `range` column is never read and is not modelled.
   */
  datatype Move = Move(stamina: int, damage: int)

  const JabMove := Move(5, 4)

  /** The catalogue; `None` for a name it does not list. */
  function Catalogue(name: string): Option<Move> {
    if name == "jab" then Some(JabMove)
    else if name == "cross" then Some(Move(8, 8))
    else if name == "hook" then Some(Move(10, 12))
    else if name == "uppercut" then Some(Move(12, 15))
    else if name == "kick" then Some(Move(15, 14))
    else if name == "takedown" then Some(Move(20, 8))
    else if name == "block" then Some(Move(3, 0))
    else if name == "move_forward" then Some(Move(2, 0))
    else if name == "move_backward" then Some(Move(2, 0))
    else None
  }

  /** The catalogue row an action uses: an unlisted name falls back to jab's row. */
  function MoveOf(name: string): Move {
    Catalogue(name).GetOr(JabMove)
  }

  /**
   * The stamina an action costs.  Every cost lies between 2 and 20, and an
   * unlisted name costs what a jab costs.
   */
  function Cost(name: string): (c: int)
    ensures 2 <= c <= 20
    ensures Catalogue(name).None? ==> c == JabMove.stamina == 5
    ensures Catalogue(name).Some? ==> c == Catalogue(name).value.stamina
  {
    MoveOf(name).stamina
  }

  /**
   * The base damage `calculateDamage` uses.  It has its own table: 10 for a
   * hook, 12 for a kick, 15 for an uppercut and 5 for every other name, so the
   * catalogue's damage column plays no part in what a hit deals.
   */
  function BaseDamage(name: string): (b: int)
    ensures b == 5 || b == 10 || b == 12 || b == 15
  {
    if name == "hook" then 10
    else if name == "kick" then 12
    else if name == "uppercut" then 15
    else 5
  }

  /**
   * The damage a landed action deals: base damage scaled by the attacker's
   * power percentage, rounded down.  The result is the largest integer `d`
   * with `100 * d <= base * power`.
   */
  function Damage(name: string, stats: Stats): (d: int)
    ensures 100 * d <= BaseDamage(name) * stats.power < 100 * d + 100
  {
    BaseDamage(name) * stats.power / 100
  }

  /** With a power percentage in [0, 100] a hit never deals more than its base damage. */
  lemma DamageWithinBase(name: string, stats: Stats)
    requires 0 <= stats.power <= 100
    ensures 0 <= Damage(name, stats) <= BaseDamage(name)
  {
    var b := BaseDamage(name);
    assert 0 <= b * stats.power <= b * 100;
  }

  /** A non-negative power never deals negative damage (so a hit never heals). */
  lemma DamageNonNegative(name: string, stats: Stats)
    requires 0 <= stats.power
    ensures 0 <= Damage(name, stats)
  {
    assert 0 <= BaseDamage(name) * stats.power;
  }

  /**
   * Block, jab, cross and takedown are all dealt with base 5, whatever their
   * catalogue damage (0, 4, 8 and 8) says.
   */
  lemma CatalogueDamageUnused(stats: Stats)
    ensures Damage("block", stats) == Damage("jab", stats) == Damage("cross", stats)
         == Damage("takedown", stats) == 5 * stats.power / 100
    ensures MoveOf("block").damage == 0 && MoveOf("takedown").damage == 8
  {
  }

  /** What `processAction` hands back: the action name as sent, the roll, cost and catalogue damage. */
  datatype Resolution = Resolution(action: string, hit: bool, staminaCost: int, damage: int)

  /** `processAction` with its random roll supplied as `hit`. */
  function ProcessAction(name: string, hit: bool): (r: Resolution)
    ensures r.action == name && r.hit == hit
    ensures r.staminaCost == Cost(name) && r.damage == MoveOf(name).damage
  {
    var m := MoveOf(name);
    Resolution(name, hit, m.stamina, m.damage)
  }
}
