/**
 * What every event of the match engine preserves, and what follows from it:
 * the per-game bounds, the timer discipline, how often a game's fight can
 * end, and that standings, totals and bot records are exactly what the match
 * history says.  Each part of the invariant takes only the state it reads.
 */
module Invariants {
  import opened Wrappers
  import opened Combat
  import opened Standings
  import opened Session
  import opened Engine

  // ---------------------------------------------------------------------------
  // The invariant
  // ---------------------------------------------------------------------------

  /** Every game object has its timers and bookkeeping, and its key is its id. */
  ghost predicate Frame(live: set<Id>, sessions: map<Id, Game>, timers: map<Id, Timers>,
                        revivals: map<Id, nat>, issued: set<Id>) {
    && live <= sessions.Keys
    && timers.Keys == sessions.Keys
    && revivals.Keys == sessions.Keys
    && sessions.Keys <= issued
    && (forall gid :: gid in sessions ==> sessions[gid].id == gid)
  }

  /** No game has bot `id` as a fighter. */
  ghost predicate Unpaired(id: Id, sessions: map<Id, Game>) {
    forall gid :: gid in sessions ==> !sessions[gid].Involves(id)
  }

  /** A waiting bot has never fought: zero record, no standings, in no game. */
  ghost predicate Newcomer(b: Bot, sessions: map<Id, Game>, history: seq<MatchRecord>,
                           issued: set<Id>, leaderboard: map<Id, Entry>) {
    && b.id in issued
    && b.wins == 0 && b.losses == 0 && b.knockouts == 0
    && b.id !in leaderboard
    && Wins(history, b.id) == 0 && Losses(history, b.id) == 0
    && Unpaired(b.id, sessions)
  }

  /** The two fighters of a game are different bots with issued ids. */
  ghost predicate Paired(g: Game, issued: set<Id>) {
    g.fighter1.id != g.fighter2.id && g.fighter1.id in issued && g.fighter2.id in issued
  }

  /** Two games share no bot. */
  ghost predicate Apart(a: Game, b: Game) {
    !b.Involves(a.fighter1.id) && !b.Involves(a.fighter2.id)
  }

  /** Every game's fighters are paired and no two games share a bot. */
  ghost predicate Games(sessions: map<Id, Game>, issued: set<Id>) {
    && (forall gid :: gid in sessions ==> Paired(sessions[gid], issued))
    && (forall g1, g2 :: g1 in sessions && g2 in sessions && g1 != g2 ==> Apart(sessions[g1], sessions[g2]))
  }

  /** The waiting bots are distinct newcomers. */
  ghost predicate Queue(waiting: seq<Bot>, sessions: map<Id, Game>, history: seq<MatchRecord>,
                        issued: set<Id>, leaderboard: map<Id, Entry>) {
    && (forall i :: 0 <= i < |waiting| ==> Newcomer(waiting[i], sessions, history, issued, leaderboard))
    && (forall i, j :: 0 <= i < j < |waiting| ==> waiting[i].id != waiting[j].id)
  }

  /** Every id the history and the leaderboard mention was issued. */
  ghost predicate Issued(history: seq<MatchRecord>, leaderboard: map<Id, Entry>, issued: set<Id>) {
    && (forall m :: m in history ==> m.game in issued && m.winnerId in issued && m.loserId in issued)
    && leaderboard.Keys <= issued
  }

  /** A bot's counters are its history: wins, losses, and (always) as many knockouts as wins. */
  ghost predicate Tallied(b: Bot, history: seq<MatchRecord>) {
    b.wins == Wins(history, b.id) && b.losses == Losses(history, b.id) && b.knockouts == b.wins
  }

  /** The bot's leaderboard entry is the one derived from its current record. */
  ghost predicate Listed(b: Bot, leaderboard: map<Id, Entry>) {
    b.id in leaderboard && leaderboard[b.id] == EntryOf(b)
  }

  /**
   * The clock and timers of one game: at most one timer of the start or
   * interval kind outstanding, a pending start only with a full clock, an
   * interval only with time left.
   */
  ghost predicate Clocked(g: Game, t: Timers) {
    && Bounded(g)
    && t.starts + t.intervals <= 1
    && (t.starts > 0 ==> g.time == RoundSeconds)
    && (t.intervals > 0 ==> g.time >= 1)
  }

  /**
   * How often the game's fight has ended (`f`): once per revival `r`, plus
   * once more if it is finished now; a winner is recorded exactly when it has
   * ended at least once.
   */
  ghost predicate Ended(g: Game, f: nat, r: nat) {
    && (if g.state == Finished then f == r + 1 else f == r)
    && (g.winner.None? <==> f == 0)
  }

  /** One game: clocked, ended as often as its history says, its bots' records and entries follow the history. */
  ghost predicate SessionOk(g: Game, t: Timers, f: nat, r: nat,
                            history: seq<MatchRecord>, leaderboard: map<Id, Entry>) {
    && Clocked(g, t)
    && Ended(g, f, r)
    && Tallied(g.fighter1, history) && Tallied(g.fighter2, history)
    && (f > 0 ==> Listed(g.fighter1, leaderboard) && Listed(g.fighter2, leaderboard))
  }

  ghost predicate Sessions(sessions: map<Id, Game>, timers: map<Id, Timers>, revivals: map<Id, nat>,
                           history: seq<MatchRecord>, leaderboard: map<Id, Entry>) {
    forall gid :: gid in sessions ==>
      gid in timers && gid in revivals &&
      SessionOk(sessions[gid], timers[gid], Finishes(history, gid), revivals[gid], history, leaderboard)
  }

  /** A leaderboard entry says what the history says about its bot. */
  ghost predicate EntryFits(e: Entry, id: Id, h: seq<MatchRecord>) {
    && e.id == id && e.wins == Wins(h, id) && e.losses == Losses(h, id)
    && e.knockouts == e.wins && e.winRate == WinRate(e.wins, e.losses)
  }

  /** Every leaderboard entry says what the history says about its bot. */
  ghost predicate Entries(leaderboard: map<Id, Entry>, history: seq<MatchRecord>) {
    forall id :: id in leaderboard ==> EntryFits(leaderboard[id], id, history)
  }

  /** The board order lists each leaderboard key exactly once. */
  ghost predicate Order(leaderboard: map<Id, Entry>, boardOrder: seq<Id>) {
    && (forall i :: 0 <= i < |boardOrder| ==> boardOrder[i] in leaderboard)
    && (forall i, j :: 0 <= i < j < |boardOrder| ==> boardOrder[i] != boardOrder[j])
    && (forall id {:trigger leaderboard[id]} :: id in leaderboard ==> id in boardOrder)
  }

  /** The totals count the history. */
  ghost predicate Totals(totalFights: nat, totalKOs: nat, history: seq<MatchRecord>) {
    totalFights == |history| && totalKOs == Knockouts(history)
  }

  /** What holds between the steps of an event. */
  ghost predicate Consistent(w: World) {
    && Frame(w.live, w.sessions, w.timers, w.revivals, w.issued)
    && Games(w.sessions, w.issued)
    && Queue(w.waiting, w.sessions, w.history, w.issued, w.leaderboard)
    && Issued(w.history, w.leaderboard, w.issued)
    && Sessions(w.sessions, w.timers, w.revivals, w.history, w.leaderboard)
    && Entries(w.leaderboard, w.history)
    && Order(w.leaderboard, w.boardOrder)
    && Totals(w.totalFights, w.totalKOs, w.history)
  }

  /** What holds between events: also, no two bots are ever left waiting. */
  ghost predicate Inv(w: World) {
    Consistent(w) && |w.waiting| <= 1
  }

  lemma EmptyInv()
    ensures Inv(Empty())
  {
  }

  // ---------------------------------------------------------------------------
  // One game's steps
  // ---------------------------------------------------------------------------

  /** `startFight`: the start timer turns into an interval; a finished game counts one more revival. */
  lemma StartSession(g: Game, t: Timers, f: nat, rv: nat, h: seq<MatchRecord>, lb: map<Id, Entry>)
    requires SessionOk(g, t, f, rv, h, lb) && t.starts > 0
    ensures SessionOk(g.(state := Fighting), t.(starts := t.starts - 1, intervals := t.intervals + 1),
                      f, rv + (if g.state == Finished then 1 else 0), h, lb)
  {
  }

  /** An interval on a game that is not fighting only clears itself. */
  lemma IdleSession(g: Game, t: Timers, f: nat, rv: nat, h: seq<MatchRecord>, lb: map<Id, Entry>)
    requires SessionOk(g, t, f, rv, h, lb) && t.intervals > 0
    ensures SessionOk(g, t.(intervals := t.intervals - 1), f, rv, h, lb)
  {
  }

  /** A second off the clock with time left keeps the interval running. */
  lemma ClockSession(g: Game, t: Timers, f: nat, rv: nat, h: seq<MatchRecord>, lb: map<Id, Entry>)
    requires SessionOk(g, t, f, rv, h, lb) && t.intervals > 0 && TickClock(g).time > 0
    ensures SessionOk(TickClock(g), t, f, rv, h, lb)
  {
    TickClockEffect(g);
  }

  /** The clock reaching 0: the interval is cleared. */
  lemma BellSession(g: Game, t: Timers, f: nat, rv: nat, h: seq<MatchRecord>, lb: map<Id, Entry>)
    requires SessionOk(g, t, f, rv, h, lb) && t.intervals > 0 && TickClock(g).time <= 0
    ensures SessionOk(TickClock(g), t.(intervals := t.intervals - 1), f, rv, h, lb)
    ensures TickClock(g).state == g.state && TickClock(g).round == g.round
  {
    TickClockEffect(g);
  }

  /** A round break: the next round starts with a full clock and its start is scheduled. */
  lemma BreakSession(g: Game, t: Timers, f: nat, rv: nat, h: seq<MatchRecord>, lb: map<Id, Entry>)
    requires SessionOk(g, t, f, rv, h, lb) && t.intervals == 0 && g.time <= 0 && g.round < FinalRound
    ensures SessionOk(NextRound(g), t.(starts := t.starts + 1), f, rv, h, lb)
  {
  }

  /** An accepted action leaves the clock, state and bots alone. */
  lemma StrikeSession(g: Game, asFighter1: bool, action: string, hit: bool,
                      t: Timers, f: nat, rv: nat, h: seq<MatchRecord>, lb: map<Id, Entry>)
    requires SessionOk(g, t, f, rv, h, lb)
    requires (if asFighter1 then g.stamina1 else g.stamina2) >= MinStamina
    ensures SessionOk(Strike(g, asFighter1, action, hit), t, f, rv, h, lb)
  {
    StrikeBounded(g, asFighter1, action, hit);
    StrikeEffect(g, asFighter1, action, hit);
  }

  // ---------------------------------------------------------------------------
  // What each event makes of the world
  // ---------------------------------------------------------------------------

  lemma SameKey<K, V>(m: map<K, V>, k: K)
    requires k in m
    ensures m[k := m[k]] == m
  {
  }

  lemma StartFightIs(w: World, gid: Id)
    requires Known(w, gid) && w.timers[gid].starts > 0
    ensures var g := w.sessions[gid]; var t := w.timers[gid];
      StartFight(w, gid) == w.(sessions := w.sessions[gid := g.(state := Fighting)],
                               timers := w.timers[gid := t.(starts := t.starts - 1, intervals := t.intervals + 1)],
                               revivals := w.revivals[gid := w.revivals[gid] + (if g.state == Finished then 1 else 0)])
  {
  }

  lemma TickIs(w: World, gid: Id)
    requires Known(w, gid) && w.timers[gid].intervals > 0
    ensures var g := w.sessions[gid]; var t := w.timers[gid]; var g1 := TickClock(g);
      var t1 := t.(intervals := t.intervals - 1);
      && (g.state != Fighting ==> Tick(w, gid) == w.(timers := w.timers[gid := t1]))
      && (g.state == Fighting && g1.time > 0 ==> Tick(w, gid) == w.(sessions := w.sessions[gid := g1]))
      && (g.state == Fighting && g1.time <= 0 && g1.round >= FinalRound ==>
            Tick(w, gid) == EndFight(w.(sessions := w.sessions[gid := g1], timers := w.timers[gid := t1]), gid, DecisionWinner(g1)))
      && (g.state == Fighting && g1.time <= 0 && g1.round < FinalRound ==>
            Tick(w, gid) == w.(sessions := w.sessions[gid := NextRound(g1)], timers := w.timers[gid := t1.(starts := t1.starts + 1)]))
  {
  }

  lemma ActIs(w: World, sender: Option<Id>, gid: Id, action: string, hit: bool)
    requires gid in w.live && Known(w, gid) && w.sessions[gid].state == Fighting
    ensures var g := w.sessions[gid]; var asFighter1 := sender == Some(g.fighter1.id);
      var g1 := Strike(g, asFighter1, action, hit);
      var report := Report((if asFighter1 then g.fighter1 else g.fighter2).name, action, hit,
                           if hit then (if asFighter1 then g1.health2 else g1.health1) else 0,
                           g1.health1, g1.health2, g1.stamina1, g1.stamina2);
      && ((if asFighter1 then g.stamina1 else g.stamina2) < MinStamina ==> Act(w, sender, gid, action, hit) == (w, NotEnoughStamina))
      && ((if asFighter1 then g.stamina1 else g.stamina2) >= MinStamina && !g1.KnockedOut() ==>
            Act(w, sender, gid, action, hit) == (w.(sessions := w.sessions[gid := g1]), Applied(report)))
      && ((if asFighter1 then g.stamina1 else g.stamina2) >= MinStamina && g1.KnockedOut() ==>
            Act(w, sender, gid, action, hit) == (EndFight(w.(sessions := w.sessions[gid := g1]), gid, KnockoutWinner(g1)), Applied(report)))
  {
  }

  /** The world after `endFight`, field by field. */
  lemma EndFightIs(w: World, gid: Id, winner: Role)
    requires Known(w, gid)
    ensures var g := w.sessions[gid]; var g1 := Concluded(g, winner); var t := w.timers[gid];
      var win, lose := g1.Fighter(winner), g1.Fighter(winner.Other());
      var lb1 := w.leaderboard[win.id := EntryOf(win)];
      var bo1 := if win.id in w.leaderboard then w.boardOrder else w.boardOrder + [win.id];
      EndFight(w, gid, winner) == w.(
        sessions := w.sessions[gid := g1],
        totalFights := w.totalFights + 1,
        totalKOs := w.totalKOs + (if g.KnockedOut() then 1 else 0),
        leaderboard := lb1[lose.id := EntryOf(lose)],
        boardOrder := if lose.id in lb1 then bo1 else bo1 + [lose.id],
        history := w.history + [RecordOf(g1, winner)],
        timers := w.timers[gid := t.(cleanups := t.cleanups + 1)])
  {
  }

  // ---------------------------------------------------------------------------
  // Replacing one game
  // ---------------------------------------------------------------------------

  /** A game that keeps its fighters keeps the games paired and apart. */
  lemma {:induction false} GamesKeep(sessions: map<Id, Game>, issued: set<Id>, gid: Id, g: Game)
    requires gid in sessions && Games(sessions, issued)
    requires g.fighter1.id == sessions[gid].fighter1.id && g.fighter2.id == sessions[gid].fighter2.id
    ensures Games(sessions[gid := g], issued)
  {
    var s := sessions[gid := g];
    forall x | x in s ensures Paired(s[x], issued) {
      assert Paired(sessions[x], issued);
    }
    forall g1, g2 | g1 in s && g2 in s && g1 != g2 ensures Apart(s[g1], s[g2]) {
      assert Apart(sessions[g1], sessions[g2]);
    }
  }

  /** A game that keeps its fighters keeps the waiting bots unpaired. */
  lemma {:induction false} QueueKeep(waiting: seq<Bot>, sessions: map<Id, Game>, history: seq<MatchRecord>,
                                     issued: set<Id>, leaderboard: map<Id, Entry>, gid: Id, g: Game)
    requires gid in sessions && Queue(waiting, sessions, history, issued, leaderboard)
    requires g.fighter1.id == sessions[gid].fighter1.id && g.fighter2.id == sessions[gid].fighter2.id
    ensures Queue(waiting, sessions[gid := g], history, issued, leaderboard)
  {
    var s := sessions[gid := g];
    forall i | 0 <= i < |waiting| ensures Unpaired(waiting[i].id, s) {
      assert Newcomer(waiting[i], sessions, history, issued, leaderboard);
      forall x | x in s ensures !s[x].Involves(waiting[i].id) {
        assert !sessions[x].Involves(waiting[i].id);
      }
    }
  }

  /** Replacing one game's record and timers keeps the other games' facts. */
  lemma OtherSessions(sessions: map<Id, Game>, timers: map<Id, Timers>, revivals: map<Id, nat>,
                      history: seq<MatchRecord>, leaderboard: map<Id, Entry>,
                      gid: Id, g: Game, t: Timers, r: nat)
    requires Sessions(sessions, timers, revivals, history, leaderboard)
    requires SessionOk(g, t, Finishes(history, gid), r, history, leaderboard)
    ensures Sessions(sessions[gid := g], timers[gid := t], revivals[gid := r], history, leaderboard)
  {
  }

  /**
   * Replacing one game by a record with the same fighters and its timers and
   * revival count by values that keep the per-game facts keeps the world
   * consistent.
   */
  lemma {:induction false} ReplaceGame(w: World, gid: Id, g: Game, t: Timers, r: nat)
    requires Consistent(w) && gid in w.sessions && g.id == gid
    requires g.fighter1 == w.sessions[gid].fighter1 && g.fighter2 == w.sessions[gid].fighter2
    requires SessionOk(g, t, Finishes(w.history, gid), r, w.history, w.leaderboard)
    ensures Consistent(w.(sessions := w.sessions[gid := g], timers := w.timers[gid := t], revivals := w.revivals[gid := r]))
  {
    GamesKeep(w.sessions, w.issued, gid, g);
    QueueKeep(w.waiting, w.sessions, w.history, w.issued, w.leaderboard, gid, g);
    OtherSessions(w.sessions, w.timers, w.revivals, w.history, w.leaderboard, gid, g, t, r);
  }

  /** `ReplaceGame` for an event that changes only the game's record and timers. */
  lemma ReplaceClock(w: World, gid: Id, g: Game, t: Timers)
    requires Consistent(w) && gid in w.sessions && g.id == gid
    requires g.fighter1 == w.sessions[gid].fighter1 && g.fighter2 == w.sessions[gid].fighter2
    requires SessionOk(g, t, Finishes(w.history, gid), w.revivals[gid], w.history, w.leaderboard)
    ensures Consistent(w.(sessions := w.sessions[gid := g], timers := w.timers[gid := t]))
  {
    ReplaceGame(w, gid, g, t, w.revivals[gid]);
    SameKey(w.revivals, gid);
  }

  /** `ReplaceGame` for an event that changes only the game's record. */
  lemma ReplaceRecord(w: World, gid: Id, g: Game)
    requires Consistent(w) && gid in w.sessions && g.id == gid
    requires g.fighter1 == w.sessions[gid].fighter1 && g.fighter2 == w.sessions[gid].fighter2
    requires SessionOk(g, w.timers[gid], Finishes(w.history, gid), w.revivals[gid], w.history, w.leaderboard)
    ensures Consistent(w.(sessions := w.sessions[gid := g]))
  {
    ReplaceGame(w, gid, g, w.timers[gid], w.revivals[gid]);
    SameKey(w.timers, gid);
    SameKey(w.revivals, gid);
  }

  /** `ReplaceGame` for an event that changes only the game's timers. */
  lemma ReplaceTimers(w: World, gid: Id, t: Timers)
    requires Consistent(w) && gid in w.sessions
    requires SessionOk(w.sessions[gid], t, Finishes(w.history, gid), w.revivals[gid], w.history, w.leaderboard)
    ensures Consistent(w.(timers := w.timers[gid := t]))
  {
    ReplaceGame(w, gid, w.sessions[gid], t, w.revivals[gid]);
    SameKey(w.sessions, gid);
    SameKey(w.revivals, gid);
  }

  /** What `Consistent` says about one game. */
  lemma SessionOf(w: World, gid: Id)
    requires Consistent(w) && gid in w.sessions
    ensures Known(w, gid) && gid in w.issued
    ensures SessionOk(w.sessions[gid], w.timers[gid], Finishes(w.history, gid), w.revivals[gid], w.history, w.leaderboard)
    ensures Paired(w.sessions[gid], w.issued) && w.sessions[gid].id == gid
  {
  }

  // ---------------------------------------------------------------------------
  // endFight, part by part
  // ---------------------------------------------------------------------------

  /** The waiting bots are in no game, so a fight's entry and standings leave them newcomers. */
  lemma {:induction false} QueueAfterFight(waiting: seq<Bot>, sessions: map<Id, Game>, h: seq<MatchRecord>,
                                           issued: set<Id>, lb: map<Id, Entry>, gid: Id, g1: Game,
                                           m: MatchRecord, e1: Entry, e2: Entry)
    requires Queue(waiting, sessions, h, issued, lb) && gid in sessions
    requires g1.fighter1.id == sessions[gid].fighter1.id && g1.fighter2.id == sessions[gid].fighter2.id
    requires sessions[gid].Involves(m.winnerId) && sessions[gid].Involves(m.loserId)
    ensures Queue(waiting, sessions[gid := g1], h + [m], issued, lb[m.winnerId := e1][m.loserId := e2])
  {
    var s := sessions[gid := g1];
    var lb2 := lb[m.winnerId := e1][m.loserId := e2];
    CountsAppend(h, m);
    forall i | 0 <= i < |waiting| ensures Newcomer(waiting[i], s, h + [m], issued, lb2) {
      var b := waiting[i];
      assert Newcomer(b, sessions, h, issued, lb);
      assert !sessions[gid].Involves(b.id);
      forall x | x in s ensures !s[x].Involves(b.id) {
        assert !sessions[x].Involves(b.id);
      }
    }
  }

  /** A fight's entry and standings mention only issued ids. */
  lemma IssuedAfterFight(h: seq<MatchRecord>, lb: map<Id, Entry>, issued: set<Id>, m: MatchRecord, e1: Entry, e2: Entry)
    requires Issued(h, lb, issued)
    requires m.game in issued && m.winnerId in issued && m.loserId in issued
    ensures Issued(h + [m], lb[m.winnerId := e1][m.loserId := e2], issued)
  {
    forall x | x in h + [m] ensures x.game in issued && x.winnerId in issued && x.loserId in issued {
      if x != m {
        assert x in h;
      }
    }
  }

  /** The standings after `endFight` recompute both bots' entries and keep the others. */
  lemma EntriesAfterFight(lb: map<Id, Entry>, h: seq<MatchRecord>, m: MatchRecord, win: Bot, lose: Bot)
    requires Entries(lb, h)
    requires m.winnerId == win.id && m.loserId == lose.id && win.id != lose.id
    requires Tallied(win, h + [m]) && Tallied(lose, h + [m])
    ensures Entries(lb[win.id := EntryOf(win)][lose.id := EntryOf(lose)], h + [m])
  {
    var lb2 := lb[win.id := EntryOf(win)][lose.id := EntryOf(lose)];
    CountsAppend(h, m);
    forall id | id in lb2 ensures EntryFits(lb2[id], id, h + [m]) {
      if id != win.id && id != lose.id {
        assert EntryFits(lb[id], id, h);
      }
    }
  }

  /** `updateLeaderboard` keeps the Map's order: a new key goes to the end, a known one stays. */
  lemma OrderUpdate(lb: map<Id, Entry>, bo: seq<Id>, id: Id, e: Entry)
    requires Order(lb, bo)
    ensures Order(lb[id := e], if id in lb then bo else bo + [id])
  {
    var bo2 := if id in lb then bo else bo + [id];
    forall i, j | 0 <= i < j < |bo2| ensures bo2[i] != bo2[j] {
      if j >= |bo| {
        assert bo[i] in lb;
      }
    }
    forall x | x in lb[id := e] ensures x in bo2 {
      if x != id {
        assert lb[x] == lb[id := e][x];
      }
    }
  }

  /** `endFight` counts one more fight, and one more KO exactly when it writes method KO. */
  lemma TotalsAfterFight(tf: nat, tk: nat, h: seq<MatchRecord>, m: MatchRecord, ko: bool)
    requires Totals(tf, tk, h) && (m.how == KO <==> ko)
    ensures Totals(tf + 1, tk + (if ko then 1 else 0), h + [m])
  {
    CountsAppend(h, m);
  }

  /** Another game's facts survive an `endFight` that involves none of its bots. */
  lemma OtherSessionStays(o: Game, t: Timers, x: Id, rv: nat, h: seq<MatchRecord>, lb: map<Id, Entry>,
                          m: MatchRecord, e1: Entry, e2: Entry)
    requires SessionOk(o, t, Finishes(h, x), rv, h, lb)
    requires m.game != x && !o.Involves(m.winnerId) && !o.Involves(m.loserId)
    ensures SessionOk(o, t, Finishes(h + [m], x), rv, h + [m], lb[m.winnerId := e1][m.loserId := e2])
  {
    CountsAppend(h, m);
  }

  /** The game `endFight` concludes: finished once more, its bots' records and entries counted. */
  lemma FinishedSession(g: Game, t: Timers, rv: nat, h: seq<MatchRecord>, lb: map<Id, Entry>, winner: Role)
    requires SessionOk(g, t, Finishes(h, g.id), rv, h, lb) && g.state == Fighting
    requires g.fighter1.id != g.fighter2.id
    ensures var g1 := Concluded(g, winner); var m := RecordOf(g1, winner);
      var win, lose := g1.Fighter(winner), g1.Fighter(winner.Other());
      && m.winnerId == win.id && m.loserId == lose.id && win.id != lose.id && m.game == g.id
      && Tallied(win, h + [m]) && Tallied(lose, h + [m])
      && SessionOk(g1, t.(cleanups := t.cleanups + 1), Finishes(h + [m], g.id), rv, h + [m],
                   lb[m.winnerId := EntryOf(win)][m.loserId := EntryOf(lose)])
  {
    var g1 := Concluded(g, winner);
    ConcludedEffect(g, winner);
    CountsAppend(h, RecordOf(g1, winner));
    assert g1.fighter1.id == g.fighter1.id && g1.fighter2.id == g.fighter2.id;
    assert g1.Fighter(winner).id == g.Fighter(winner).id && g1.Fighter(winner.Other()).id == g.Fighter(winner.Other()).id;
    assert Tallied(g.fighter1, h) && Tallied(g.fighter2, h);
  }

  /** In a consistent world no other game shares a bot with game `gid`. */
  lemma ApartFrom(sessions: map<Id, Game>, issued: set<Id>, gid: Id)
    requires Games(sessions, issued) && gid in sessions
    ensures forall x :: x in sessions && x != gid ==> Apart(sessions[x], sessions[gid])
  {
  }

  /** `endFight` on a fighting game keeps every game's facts. */
  lemma {:induction false} SessionsAfterFight(sessions: map<Id, Game>, timers: map<Id, Timers>, revivals: map<Id, nat>,
                                              h: seq<MatchRecord>, lb: map<Id, Entry>, gid: Id, winner: Role)
    requires Sessions(sessions, timers, revivals, h, lb)
    requires gid in sessions && sessions[gid].id == gid && sessions[gid].state == Fighting
    requires sessions[gid].fighter1.id != sessions[gid].fighter2.id
    requires forall x :: x in sessions && x != gid ==> Apart(sessions[x], sessions[gid])
    ensures var g1 := Concluded(sessions[gid], winner); var m := RecordOf(g1, winner);
      var t := timers[gid];
      Sessions(sessions[gid := g1], timers[gid := t.(cleanups := t.cleanups + 1)], revivals, h + [m],
               lb[m.winnerId := EntryOf(g1.Fighter(winner))][m.loserId := EntryOf(g1.Fighter(winner.Other()))])
  {
    var g := sessions[gid];
    var g1 := Concluded(g, winner);
    var m := RecordOf(g1, winner);
    var e1, e2 := EntryOf(g1.Fighter(winner)), EntryOf(g1.Fighter(winner.Other()));
    var t := timers[gid];
    FinishedSession(g, t, revivals[gid], h, lb, winner);
    var s, ts := sessions[gid := g1], timers[gid := t.(cleanups := t.cleanups + 1)];
    forall x | x in s
      ensures x in ts && x in revivals
      ensures SessionOk(s[x], ts[x], Finishes(h + [m], x), revivals[x], h + [m], lb[m.winnerId := e1][m.loserId := e2])
    {
      if x != gid {
        var o := sessions[x];
        assert Apart(o, g);
        OtherSessionStays(o, timers[x], x, revivals[x], h, lb, m, e1, e2);
      }
    }
  }

  /** `endFight` keeps the frame. */
  lemma FrameAfterFight(live: set<Id>, sessions: map<Id, Game>, timers: map<Id, Timers>,
                        revivals: map<Id, nat>, issued: set<Id>, gid: Id, g: Game, t: Timers)
    requires Frame(live, sessions, timers, revivals, issued) && gid in sessions && g.id == gid
    ensures Frame(live, sessions[gid := g], timers[gid := t], revivals, issued)
  {
  }

  /** The names `endFight` uses: the concluded game, its record, the two bots after it. */
  lemma EndFightParts(w: World, gid: Id, winner: Role)
    requires Known(w, gid) && w.sessions[gid].id == gid && w.sessions[gid].state == Fighting
    requires w.sessions[gid].fighter1.id != w.sessions[gid].fighter2.id
    ensures var g := w.sessions[gid]; var g1 := Concluded(g, winner); var m := RecordOf(g1, winner);
      var win, lose := g1.Fighter(winner), g1.Fighter(winner.Other());
      && g1.id == gid && g1.fighter1.id == g.fighter1.id && g1.fighter2.id == g.fighter2.id
      && m.game == gid && m.winnerId == win.id && m.loserId == lose.id && win.id != lose.id
      && g.Involves(m.winnerId) && g.Involves(m.loserId)
      && (m.how == KO <==> g.KnockedOut())
  {
    ConcludedEffect(w.sessions[gid], winner);
  }

  lemma EndFightFrame(w: World, gid: Id, winner: Role)
    requires Known(w, gid) && Frame(w.live, w.sessions, w.timers, w.revivals, w.issued)
    requires w.sessions[gid].state == Fighting && w.sessions[gid].fighter1.id != w.sessions[gid].fighter2.id
    ensures var r := EndFight(w, gid, winner); Frame(r.live, r.sessions, r.timers, r.revivals, r.issued)
  {
    var t := w.timers[gid];
    EndFightIs(w, gid, winner);
    EndFightParts(w, gid, winner);
    FrameAfterFight(w.live, w.sessions, w.timers, w.revivals, w.issued, gid,
                    Concluded(w.sessions[gid], winner), t.(cleanups := t.cleanups + 1));
  }

  lemma EndFightGames(w: World, gid: Id, winner: Role)
    requires Known(w, gid) && Games(w.sessions, w.issued) && w.sessions[gid].id == gid
    requires w.sessions[gid].state == Fighting
    ensures var r := EndFight(w, gid, winner); Games(r.sessions, r.issued)
  {
    EndFightIs(w, gid, winner);
    assert Paired(w.sessions[gid], w.issued);
    EndFightParts(w, gid, winner);
    GamesKeep(w.sessions, w.issued, gid, Concluded(w.sessions[gid], winner));
  }

  lemma EndFightQueue(w: World, gid: Id, winner: Role)
    requires Known(w, gid) && Queue(w.waiting, w.sessions, w.history, w.issued, w.leaderboard)
    requires w.sessions[gid].id == gid && w.sessions[gid].state == Fighting
    requires w.sessions[gid].fighter1.id != w.sessions[gid].fighter2.id
    ensures var r := EndFight(w, gid, winner); Queue(r.waiting, r.sessions, r.history, r.issued, r.leaderboard)
  {
    var g1 := Concluded(w.sessions[gid], winner);
    EndFightIs(w, gid, winner);
    EndFightParts(w, gid, winner);
    QueueAfterFight(w.waiting, w.sessions, w.history, w.issued, w.leaderboard, gid, g1,
                    RecordOf(g1, winner), EntryOf(g1.Fighter(winner)), EntryOf(g1.Fighter(winner.Other())));
  }

  lemma EndFightIssued(w: World, gid: Id, winner: Role)
    requires Known(w, gid) && Issued(w.history, w.leaderboard, w.issued) && gid in w.issued
    requires Paired(w.sessions[gid], w.issued)
    requires w.sessions[gid].id == gid && w.sessions[gid].state == Fighting
    ensures var r := EndFight(w, gid, winner); Issued(r.history, r.leaderboard, r.issued)
  {
    var g1 := Concluded(w.sessions[gid], winner);
    EndFightIs(w, gid, winner);
    EndFightParts(w, gid, winner);
    IssuedAfterFight(w.history, w.leaderboard, w.issued, RecordOf(g1, winner),
                     EntryOf(g1.Fighter(winner)), EntryOf(g1.Fighter(winner.Other())));
  }

  lemma EndFightEntries(w: World, gid: Id, winner: Role)
    requires Known(w, gid) && Entries(w.leaderboard, w.history)
    requires SessionOk(w.sessions[gid], w.timers[gid], Finishes(w.history, gid), w.revivals[gid], w.history, w.leaderboard)
    requires w.sessions[gid].id == gid && w.sessions[gid].state == Fighting
    requires w.sessions[gid].fighter1.id != w.sessions[gid].fighter2.id
    ensures var r := EndFight(w, gid, winner); Entries(r.leaderboard, r.history)
  {
    var g1 := Concluded(w.sessions[gid], winner);
    EndFightIs(w, gid, winner);
    FinishedSession(w.sessions[gid], w.timers[gid], w.revivals[gid], w.history, w.leaderboard, winner);
    EntriesAfterFight(w.leaderboard, w.history, RecordOf(g1, winner), g1.Fighter(winner), g1.Fighter(winner.Other()));
  }

  lemma EndFightOrder(w: World, gid: Id, winner: Role)
    requires Known(w, gid) && Order(w.leaderboard, w.boardOrder)
    ensures var r := EndFight(w, gid, winner); Order(r.leaderboard, r.boardOrder)
  {
    var g1 := Concluded(w.sessions[gid], winner);
    var win, lose := g1.Fighter(winner), g1.Fighter(winner.Other());
    EndFightIs(w, gid, winner);
    OrderUpdate(w.leaderboard, w.boardOrder, win.id, EntryOf(win));
    OrderUpdate(w.leaderboard[win.id := EntryOf(win)], if win.id in w.leaderboard then w.boardOrder else w.boardOrder + [win.id],
                lose.id, EntryOf(lose));
  }

  lemma EndFightTotals(w: World, gid: Id, winner: Role)
    requires Known(w, gid) && Totals(w.totalFights, w.totalKOs, w.history)
    requires w.sessions[gid].id == gid && w.sessions[gid].state == Fighting
    requires w.sessions[gid].fighter1.id != w.sessions[gid].fighter2.id
    ensures var r := EndFight(w, gid, winner); Totals(r.totalFights, r.totalKOs, r.history)
  {
    var g := w.sessions[gid];
    EndFightIs(w, gid, winner);
    EndFightParts(w, gid, winner);
    TotalsAfterFight(w.totalFights, w.totalKOs, w.history, RecordOf(Concluded(g, winner), winner), g.KnockedOut());
  }

  lemma EndFightSessions(w: World, gid: Id, winner: Role)
    requires Known(w, gid) && Sessions(w.sessions, w.timers, w.revivals, w.history, w.leaderboard)
    requires w.sessions[gid].id == gid && w.sessions[gid].state == Fighting
    requires w.sessions[gid].fighter1.id != w.sessions[gid].fighter2.id
    requires forall x :: x in w.sessions && x != gid ==> Apart(w.sessions[x], w.sessions[gid])
    ensures var r := EndFight(w, gid, winner); Sessions(r.sessions, r.timers, r.revivals, r.history, r.leaderboard)
  {
    EndFightIs(w, gid, winner);
    EndFightParts(w, gid, winner);
    SessionsAfterFight(w.sessions, w.timers, w.revivals, w.history, w.leaderboard, gid, winner);
  }

  /** `endFight` on a fighting game keeps everything consistent. */
  lemma EndFightKeepsConsistent(w: World, gid: Id, winner: Role)
    requires Consistent(w) && gid in w.sessions && w.sessions[gid].state == Fighting
    ensures Consistent(EndFight(w, gid, winner))
  {
    SessionOf(w, gid);
    ApartFrom(w.sessions, w.issued, gid);
    EndFightFrame(w, gid, winner);
    EndFightGames(w, gid, winner);
    EndFightQueue(w, gid, winner);
    EndFightIssued(w, gid, winner);
    EndFightEntries(w, gid, winner);
    EndFightOrder(w, gid, winner);
    EndFightTotals(w, gid, winner);
    EndFightSessions(w, gid, winner);
  }

  // ---------------------------------------------------------------------------
  // Preservation, event by event
  // ---------------------------------------------------------------------------

  /** An id that was never issued appears nowhere in the history. */
  lemma FreshAbsent(h: seq<MatchRecord>, lb: map<Id, Entry>, issued: set<Id>, id: Id)
    requires Issued(h, lb, issued) && id !in issued
    ensures Wins(h, id) == 0 && Losses(h, id) == 0 && Finishes(h, id) == 0 && id !in lb
  {
    forall m | m in h ensures m.winnerId != id && m.loserId != id && m.game != id {
    }
    CountsOfAbsent(h, id);
  }

  /** Issuing one more id keeps every part that speaks of issued ids. */
  lemma IssueMore(live: set<Id>, sessions: map<Id, Game>, timers: map<Id, Timers>, revivals: map<Id, nat>,
                  h: seq<MatchRecord>, lb: map<Id, Entry>, issued: set<Id>, x: Id)
    requires Frame(live, sessions, timers, revivals, issued) && Games(sessions, issued) && Issued(h, lb, issued)
    ensures Frame(live, sessions, timers, revivals, issued + {x})
    ensures Games(sessions, issued + {x}) && Issued(h, lb, issued + {x})
  {
    forall y | y in sessions ensures Paired(sessions[y], issued + {x}) {
      assert Paired(sessions[y], issued);
    }
  }

  /** A bot with a fresh id and a zero record joins the queue as a newcomer. */
  lemma {:induction false} QueueJoin(waiting: seq<Bot>, sessions: map<Id, Game>, h: seq<MatchRecord>,
                                     issued: set<Id>, lb: map<Id, Entry>, b: Bot)
    requires Queue(waiting, sessions, h, issued, lb) && Games(sessions, issued) && Issued(h, lb, issued)
    requires b.id !in issued && b.wins == 0 && b.losses == 0 && b.knockouts == 0
    ensures Queue(waiting + [b], sessions, h, issued + {b.id}, lb)
  {
    var q := waiting + [b];
    FreshAbsent(h, lb, issued, b.id);
    forall x | x in sessions ensures !sessions[x].Involves(b.id) {
      assert Paired(sessions[x], issued);
    }
    forall i | 0 <= i < |q| ensures Newcomer(q[i], sessions, h, issued + {b.id}, lb) {
      if i < |waiting| {
        assert Newcomer(waiting[i], sessions, h, issued, lb);
      }
    }
    forall i, j | 0 <= i < j < |q| ensures q[i].id != q[j].id {
      if j == |waiting| {
        assert Newcomer(waiting[i], sessions, h, issued, lb);
      }
    }
  }

  /** Queueing a bot with a fresh id keeps everything consistent. */
  lemma QueueKeepsConsistent(w: World, b: Bot)
    requires Consistent(w) && b.id !in w.issued
    requires b.wins == 0 && b.losses == 0 && b.knockouts == 0
    ensures Consistent(w.(waiting := w.waiting + [b], issued := w.issued + {b.id}))
  {
    QueueJoin(w.waiting, w.sessions, w.history, w.issued, w.leaderboard, b);
    IssueMore(w.live, w.sessions, w.timers, w.revivals, w.history, w.leaderboard, w.issued, b.id);
  }

  lemma TryMatchIs(w: World, gid: Id)
    requires |w.waiting| >= 2
    ensures TryMatch(w, gid) == w.(waiting := w.waiting[2..],
                                   sessions := w.sessions[gid := NewGame(gid, w.waiting[0], w.waiting[1])],
                                   live := w.live + {gid},
                                   timers := w.timers[gid := Timers(1, 0, 0)],
                                   issued := w.issued + {gid},
                                   revivals := w.revivals[gid := 0])
  {
  }

  /** The two front bots of the queue are distinct newcomers. */
  lemma QueueFront(waiting: seq<Bot>, sessions: map<Id, Game>, h: seq<MatchRecord>, issued: set<Id>, lb: map<Id, Entry>)
    requires Queue(waiting, sessions, h, issued, lb) && |waiting| >= 2
    ensures Newcomer(waiting[0], sessions, h, issued, lb) && Newcomer(waiting[1], sessions, h, issued, lb)
    ensures waiting[0].id != waiting[1].id
  {
  }

  /** A new game between two unpaired bots keeps the games apart. */
  lemma {:induction false} NewGamePaired(sessions: map<Id, Game>, issued: set<Id>, gid: Id, b0: Bot, b1: Bot)
    requires Games(sessions, issued) && gid !in sessions
    requires Unpaired(b0.id, sessions) && Unpaired(b1.id, sessions)
    requires b0.id != b1.id && b0.id in issued && b1.id in issued
    ensures Games(sessions[gid := NewGame(gid, b0, b1)], issued + {gid})
  {
    var s := sessions[gid := NewGame(gid, b0, b1)];
    forall g1, g2 | g1 in s && g2 in s && g1 != g2 ensures Apart(s[g1], s[g2]) {
      if g1 == gid {
        assert !sessions[g2].Involves(b0.id) && !sessions[g2].Involves(b1.id);
      } else if g2 == gid {
        assert !sessions[g1].Involves(b0.id) && !sessions[g1].Involves(b1.id);
      } else {
        assert Apart(sessions[g1], sessions[g2]);
      }
    }
    forall x | x in s ensures Paired(s[x], issued + {gid}) {
      if x != gid {
        assert Paired(sessions[x], issued);
      }
    }
  }

  /** A new game starts clocked, never ended, with two newcomers' records. */
  lemma NewGameSession(gid: Id, b0: Bot, b1: Bot, h: seq<MatchRecord>, lb: map<Id, Entry>)
    requires Finishes(h, gid) == 0
    requires b0.wins == 0 && b0.losses == 0 && b0.knockouts == 0 && Wins(h, b0.id) == 0 && Losses(h, b0.id) == 0
    requires b1.wins == 0 && b1.losses == 0 && b1.knockouts == 0 && Wins(h, b1.id) == 0 && Losses(h, b1.id) == 0
    ensures SessionOk(NewGame(gid, b0, b1), Timers(1, 0, 0), Finishes(h, gid), 0, h, lb)
  {
    NewGameBounded(gid, b0, b1);
  }

  /** A new game object with a fresh id joins the frame with its start pending. */
  lemma FrameNewGame(live: set<Id>, sessions: map<Id, Game>, timers: map<Id, Timers>,
                     revivals: map<Id, nat>, issued: set<Id>, gid: Id, g: Game)
    requires Frame(live, sessions, timers, revivals, issued) && g.id == gid
    ensures Frame(live + {gid}, sessions[gid := g], timers[gid := Timers(1, 0, 0)], revivals[gid := 0], issued + {gid})
  {
  }

  /** A pairing with a fresh game id, with at most two bots waiting, leaves at most one waiting. */
  lemma TryMatchKeepsConsistent(w: World, gid: Id)
    requires Consistent(w) && |w.waiting| <= 2 && gid !in w.issued
    ensures Consistent(TryMatch(w, gid)) && |TryMatch(w, gid).waiting| <= 1
  {
    if |w.waiting| == 2 {
      var b0, b1 := w.waiting[0], w.waiting[1];
      TryMatchIs(w, gid);
      QueueFront(w.waiting, w.sessions, w.history, w.issued, w.leaderboard);
      FreshAbsent(w.history, w.leaderboard, w.issued, gid);
      NewGamePaired(w.sessions, w.issued, gid, b0, b1);
      NewGameSession(gid, b0, b1, w.history, w.leaderboard);
      OtherSessions(w.sessions, w.timers, w.revivals, w.history, w.leaderboard, gid,
                    NewGame(gid, b0, b1), Timers(1, 0, 0), 0);
      FrameNewGame(w.live, w.sessions, w.timers, w.revivals, w.issued, gid, NewGame(gid, b0, b1));
      IssueMore(w.live, w.sessions, w.timers, w.revivals, w.history, w.leaderboard, w.issued, gid);
      assert |w.waiting[2..]| == 0;
    }
  }

  /** `registerBot` with fresh ids keeps the invariant. */
  lemma RegisterKeepsInv(w: World, bid: Id, gid: Id, name: string, stats: Option<Stats>, style: string)
    requires Inv(w) && bid !in w.issued && gid !in w.issued && bid != gid
    ensures Inv(Register(w, bid, gid, name, stats, style))
  {
    var b := NewBot(bid, name, stats, style);
    QueueKeepsConsistent(w, b);
    TryMatchKeepsConsistent(w.(waiting := w.waiting + [b], issued := w.issued + {bid}), gid);
  }

  /** A pending `startFight` keeps the invariant; on a finished game it counts a revival. */
  lemma StartFightKeepsInv(w: World, gid: Id)
    requires Inv(w) && Known(w, gid) && w.timers[gid].starts > 0
    ensures Inv(StartFight(w, gid))
  {
    var g := w.sessions[gid];
    var t := w.timers[gid];
    SessionOf(w, gid);
    StartSession(g, t, Finishes(w.history, gid), w.revivals[gid], w.history, w.leaderboard);
    ReplaceGame(w, gid, g.(state := Fighting), t.(starts := t.starts - 1, intervals := t.intervals + 1),
                w.revivals[gid] + (if g.state == Finished then 1 else 0));
    StartFightIs(w, gid);
  }

  /** One run of a round interval keeps the invariant. */
  lemma TickKeepsInv(w: World, gid: Id)
    requires Inv(w) && Known(w, gid) && w.timers[gid].intervals > 0
    ensures Inv(Tick(w, gid))
  {
    var g := w.sessions[gid];
    var t := w.timers[gid];
    var f, rv := Finishes(w.history, gid), w.revivals[gid];
    var g1 := TickClock(g);
    var t1 := t.(intervals := t.intervals - 1);
    SessionOf(w, gid);
    TickIs(w, gid);
    if g.state != Fighting {
      IdleSession(g, t, f, rv, w.history, w.leaderboard);
      ReplaceTimers(w, gid, t1);
    } else if g1.time > 0 {
      ClockSession(g, t, f, rv, w.history, w.leaderboard);
      ReplaceRecord(w, gid, g1);
    } else {
      BellSession(g, t, f, rv, w.history, w.leaderboard);
      if g1.round >= FinalRound {
        ReplaceClock(w, gid, g1, t1);
        EndFightKeepsConsistent(w.(sessions := w.sessions[gid := g1], timers := w.timers[gid := t1]), gid, DecisionWinner(g1));
      } else {
        BreakSession(g1, t1, f, rv, w.history, w.leaderboard);
        ReplaceClock(w, gid, NextRound(g1), t1.(starts := t1.starts + 1));
      }
    }
  }

  /** A clean-up timeout keeps the invariant. */
  lemma CleanupKeepsInv(w: World, gid: Id)
    requires Inv(w) && gid in w.timers && w.timers[gid].cleanups > 0
    ensures Inv(Cleanup(w, gid))
  {
    SessionOf(w, gid);
    var t := w.timers[gid];
    OtherSessions(w.sessions, w.timers, w.revivals, w.history, w.leaderboard, gid,
                  w.sessions[gid], t.(cleanups := t.cleanups - 1), w.revivals[gid]);
    SameKey(w.sessions, gid);
    SameKey(w.revivals, gid);
  }

  /** `handleAction` keeps the invariant. */
  lemma ActKeepsInv(w: World, sender: Option<Id>, gid: Id, action: string, hit: bool)
    requires Inv(w)
    ensures Inv(Act(w, sender, gid, action, hit).0)
  {
    if gid in w.live && Known(w, gid) && w.sessions[gid].state == Fighting {
      var g := w.sessions[gid];
      var asFighter1 := sender == Some(g.fighter1.id);
      ActIs(w, sender, gid, action, hit);
      if (if asFighter1 then g.stamina1 else g.stamina2) >= MinStamina {
        SessionOf(w, gid);
        var g1 := Strike(g, asFighter1, action, hit);
        StrikeSession(g, asFighter1, action, hit, w.timers[gid], Finishes(w.history, gid), w.revivals[gid], w.history, w.leaderboard);
        StrikeEffect(g, asFighter1, action, hit);
        ReplaceRecord(w, gid, g1);
        if g1.KnockedOut() {
          EndFightKeepsConsistent(w.(sessions := w.sessions[gid := g1]), gid, KnockoutWinner(g1));
        }
      }
    }
  }

  /** `handleDisconnect` keeps the invariant. */
  lemma DisconnectKeepsInv(w: World, sender: Option<Id>)
    requires Inv(w)
    ensures Inv(Disconnect(w, sender))
  {
    if sender.Some? {
      var r := Disconnect(w, sender);
      forall k | 0 <= k < |r.waiting| ensures Newcomer(r.waiting[k], w.sessions, w.history, w.issued, w.leaderboard) {
        assert r.waiting[k] in w.waiting;
        var j :| 0 <= j < |w.waiting| && w.waiting[j] == r.waiting[k];
      }
      assert r.sessions == w.sessions;
    }
  }
}
