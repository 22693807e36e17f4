/**
 * Consequences of the invariant for what the server reports: the two
 * leaderboard endpoints agree, the standings and counters are exactly what
 * the match history says, and how a knockout during a round break revives
 * a finished fight.
 */
module Properties {
  import opened Wrappers
  import opened Combat
  import opened Standings
  import opened Session
  import opened Engine
  import opened Invariants

  // ---------------------------------------------------------------------------
  // The two leaderboard endpoints
  // ---------------------------------------------------------------------------

  /** Every board value is a leaderboard entry, so each has as many knockouts as wins. */
  lemma BoardEntriesFit(w: World)
    requires Inv(w)
    ensures BoardListed(w)
    ensures forall e :: e in Board(w) ==> e.id in w.leaderboard && e == w.leaderboard[e.id]
    ensures forall e :: e in Board(w) ==> e.knockouts == e.wins && e.wins == Wins(w.history, e.id)
  {
    var b := Board(w);
    forall e | e in b
      ensures e.id in w.leaderboard && e == w.leaderboard[e.id]
      ensures e.knockouts == e.wins && e.wins == Wins(w.history, e.id)
    {
      var i :| 0 <= i < |b| && b[i] == e;
      assert EntryFits(w.leaderboard[w.boardOrder[i]], w.boardOrder[i], w.history);
    }
  }

  /**
   * Because every finished fight adds a knockout to its winner, the score
   * `wins * 3 + knockouts` ranks the board exactly as wins do: the ten
   * leaders `/api/status` reports are the first ten of the twenty
   * `/api/leaderboard` reports.
   */
  lemma LeadersAgree(w: World)
    requires Inv(w)
    ensures BoardListed(w)
    ensures StatusLeaders(w) == LeaderboardLeaders(w)[..Min(10, |Board(w)|)]
  {
    BoardEntriesFit(w);
    TopTenOfTopTwenty(Board(w));
  }

  /** When every entry has as many knockouts as wins, the first ten by wins are the first ten of the twenty by score. */
  lemma TopTenOfTopTwenty(s: seq<Entry>)
    requires forall e :: e in s ==> e.knockouts == e.wins
    ensures Top(s, ByWins, 10) == Top(s, ByScore, 20)[..Min(10, |s|)]
  {
    ScoreOrderIsWinsOrder(s);
    SortRanked(s, ByWins);
  }

  /** The board shows each leaderboard entry exactly once, in insertion order. */
  lemma BoardComplete(w: World)
    requires Inv(w)
    ensures BoardListed(w)
    ensures forall id :: id in w.leaderboard ==> w.leaderboard[id] in Board(w)
    ensures forall i, j :: 0 <= i < j < |Board(w)| ==> Board(w)[i].id != Board(w)[j].id
  {
    var b := Board(w);
    forall id | id in w.leaderboard
      ensures w.leaderboard[id] in b
    {
      assert id in w.boardOrder;
      var i :| 0 <= i < |w.boardOrder| && w.boardOrder[i] == id;
      assert b[i] == w.leaderboard[id];
    }
    forall i, j | 0 <= i < j < |b|
      ensures b[i].id != b[j].id
    {
      assert EntryFits(w.leaderboard[w.boardOrder[i]], w.boardOrder[i], w.history);
      assert EntryFits(w.leaderboard[w.boardOrder[j]], w.boardOrder[j], w.history);
    }
  }

  // ---------------------------------------------------------------------------
  // Counters and the history
  // ---------------------------------------------------------------------------

  /** A history has no more knockouts than entries. */
  lemma {:induction false} KnockoutsAtMostEntries(h: seq<MatchRecord>)
    ensures Knockouts(h) <= |h|
  {
    if h != [] {
      KnockoutsAtMostEntries(h[..|h| - 1]);
    }
  }

  /**
   * The counters `/api/status` reports: `stats.totalFights` is the length of
   * the match history, `stats.totalKOs` its KO entries, so never more.
   */
  lemma TotalsFollowHistory(w: World)
    requires Inv(w)
    ensures w.totalFights == |w.history| && w.totalKOs == Knockouts(w.history)
    ensures w.totalKOs <= w.totalFights
  {
    KnockoutsAtMostEntries(w.history);
  }

  /**
   * The records of the bots in every game object and their leaderboard
   * entries are what the history says: wins and losses are counted there,
   * and the knockout counter always equals the wins.
   */
  lemma RecordsFollowHistory(w: World, gid: Id)
    requires Inv(w) && gid in w.sessions
    ensures var g := w.sessions[gid];
      && g.fighter1.wins == Wins(w.history, g.fighter1.id) && g.fighter1.losses == Losses(w.history, g.fighter1.id)
      && g.fighter2.wins == Wins(w.history, g.fighter2.id) && g.fighter2.losses == Losses(w.history, g.fighter2.id)
      && g.fighter1.knockouts == g.fighter1.wins && g.fighter2.knockouts == g.fighter2.wins
      && (g.winner.Some? ==>
            w.leaderboard[g.fighter1.id] == EntryOf(g.fighter1) && w.leaderboard[g.fighter2.id] == EntryOf(g.fighter2))
  {
    assert SessionOk(w.sessions[gid], w.timers[gid], Finishes(w.history, gid), w.revivals[gid], w.history, w.leaderboard);
  }

  /**
   * A game's fight ends once per start that revived it, plus once: a game
   * that was never revived has at most one history entry, and a winner is
   * set exactly when it has one.
   */
  lemma EndsOncePerStart(w: World, gid: Id)
    requires Inv(w) && gid in w.sessions
    ensures Finishes(w.history, gid) <= w.revivals[gid] + 1
    ensures w.revivals[gid] == 0 ==> Finishes(w.history, gid) <= 1
    ensures w.sessions[gid].winner.Some? <==> Finishes(w.history, gid) > 0
  {
    assert SessionOk(w.sessions[gid], w.timers[gid], Finishes(w.history, gid), w.revivals[gid], w.history, w.leaderboard);
  }

  /** No bot fights in two game objects, and no waiting bot fights at all. */
  lemma OneGameAtATime(w: World, id: Id)
    requires Inv(w)
    ensures forall g1, g2 :: g1 in w.sessions && g2 in w.sessions && g1 != g2 && w.sessions[g1].Involves(id) ==> !w.sessions[g2].Involves(id)
    ensures (exists i :: 0 <= i < |w.waiting| && w.waiting[i].id == id) ==> forall g :: g in w.sessions ==> !w.sessions[g].Involves(id)
  {
    forall g1, g2 | g1 in w.sessions && g2 in w.sessions && g1 != g2 && w.sessions[g1].Involves(id)
      ensures !w.sessions[g2].Involves(id)
    {
      assert Apart(w.sessions[g1], w.sessions[g2]);
    }
    if i :| 0 <= i < |w.waiting| && w.waiting[i].id == id {
      assert Newcomer(w.waiting[i], w.sessions, w.history, w.issued, w.leaderboard);
    }
  }

  // ---------------------------------------------------------------------------
  // A knockout during the round break
  // ---------------------------------------------------------------------------

  /**
   * Between rounds the state stays 'fighting', so actions are still
   * accepted.  When one knocks a fighter out, `endFight` finishes the game
   * while its next `startFight` is still pending; that start sets the state
   * back to 'fighting' with the winner kept and the history unchanged, so
   * the fight is open again although its result is already recorded.
   */
  lemma BreakKnockoutRevives(w: World, sender: Option<Id>, gid: Id, action: string, hit: bool)
    requires Inv(w) && gid in w.live && gid in w.sessions
    requires w.sessions[gid].state == Fighting && w.timers[gid].starts > 0
    requires var g := w.sessions[gid]; var asFighter1 := sender == Some(g.fighter1.id);
      && (if asFighter1 then g.stamina1 else g.stamina2) >= MinStamina
      && Strike(g, asFighter1, action, hit).KnockedOut()
    ensures var w1 := Act(w, sender, gid, action, hit).0;
      && Known(w1, gid) && w1.sessions[gid].state == Finished && w1.timers[gid].starts > 0
      && Finishes(w1.history, gid) == Finishes(w.history, gid) + 1
      && var w2 := Engine.StartFight(w1, gid);
         && w2.sessions[gid].state == Fighting && w2.sessions[gid].winner.Some?
         && w2.revivals[gid] == w.revivals[gid] + 1
         && w2.history == w1.history
  {
    SessionOf(w, gid);
    var g := w.sessions[gid];
    var asFighter1 := sender == Some(g.fighter1.id);
    var g1 := Strike(g, asFighter1, action, hit);
    ActIs(w, sender, gid, action, hit);
    var w0 := w.(sessions := w.sessions[gid := g1]);
    EndFightIs(w0, gid, KnockoutWinner(g1));
    var w1 := Engine.EndFight(w0, gid, KnockoutWinner(g1));
    assert w1.history == w.history + [RecordOf(Concluded(g1, KnockoutWinner(g1)), KnockoutWinner(g1))];
    CountsAppend(w.history, RecordOf(Concluded(g1, KnockoutWinner(g1)), KnockoutWinner(g1)));
    StartFightIs(w1, gid);
  }
}
