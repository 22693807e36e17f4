/**
 * The standings of ufc-game/server.js: the match history entries `endFight`
 * appends, the leaderboard entries `updateLeaderboard` derives from a bot's
 * record, its win-rate formula, and the two orderings the reporting endpoints
 * sort the leaderboard by.
 */
module Standings {
  import opened Wrappers

  /** Bot and game identifiers (`generateId` strings). */
  type Id = string

  /** How a fight ended: `'KO'` when some health is at or below 0, otherwise `'DECISION'`. */
  datatype Method = KO | Decision

  /** One `matchHistory` entry.  Its timestamp is not modelled. */
  datatype MatchRecord = MatchRecord(
    game: Id, winner: string, winnerId: Id, loser: string, loserId: Id,
    how: Method, round: int)

  /** One leaderboard value, as `updateLeaderboard` stores it. */
  datatype Entry = Entry(
    id: Id, name: string, style: string,
    wins: nat, losses: nat, knockouts: nat, winRate: int)

  // ---------------------------------------------------------------------------
  // Win rate
  // ---------------------------------------------------------------------------

  /**
   * `Math.round(wins / (wins + losses) * 100)`, or 0 when no fight was
   * recorded.  The result is the integer nearest to the percentage, halves
   * rounding up: `r - 1/2 <= 100 * wins / n < r + 1/2`.
   */
  function WinRate(wins: nat, losses: nat): (r: int)
    ensures wins + losses == 0 ==> r == 0
    ensures wins + losses > 0 ==>
      2 * (r * (wins + losses)) - (wins + losses) <= 200 * wins < 2 * (r * (wins + losses)) + (wins + losses)
  {
    var n := wins + losses;
    if n == 0 then 0
    else
      var r := (200 * wins + n) / (2 * n);
      RoundDown(200 * wins + n, 2 * n);
      r
  }

  /** The defining property of Euclidean division by a positive divisor. */
  lemma RoundDown(x: int, d: int)
    requires d > 0
    ensures d * (x / d) <= x < d * (x / d) + d
  {
  }

  /** Multiplying by a positive number keeps the order to a constant. */
  lemma ScaleCompare(r: int, n: int, c: int)
    requires n > 0
    ensures r >= c ==> r * n >= c * n
    ensures r <= c ==> r * n <= c * n
  {
    if r >= c {
      assert r * n - c * n == (r - c) * n;
    } else {
      assert c * n - r * n == (c - r) * n;
    }
  }

  /** A win rate is a percentage: it lies in [0, 100], is 100 with no losses and 0 with no wins. */
  lemma WinRateIsPercentage(wins: nat, losses: nat)
    ensures 0 <= WinRate(wins, losses) <= 100
    ensures losses == 0 && wins > 0 ==> WinRate(wins, losses) == 100
    ensures wins == 0 ==> WinRate(wins, losses) == 0
  {
    var n := wins + losses;
    if n > 0 {
      var r := WinRate(wins, losses);
      var p := r * n;
      assert 2 * p - n <= 200 * wins < 2 * p + n;
      ScaleCompare(r, n, 101);
      ScaleCompare(r, n, -1);
      ScaleCompare(r, n, 1);
      ScaleCompare(r, n, 99);
      if losses == 0 {
        ScaleCompare(r, n, 100);
      }
    }
  }

  /** 3 wins and 1 loss give 75, no fights give 0, 1 win and 7 losses give 13 (a half rounds up). */
  lemma WinRateExamples()
    ensures WinRate(3, 1) == 75
    ensures WinRate(0, 0) == 0
    ensures WinRate(1, 7) == 13
  {
  }

  // ---------------------------------------------------------------------------
  // Counting the match history
  // ---------------------------------------------------------------------------

  /** Entries of `h` won by bot `id`. */
  function Wins(h: seq<MatchRecord>, id: Id): nat {
    if h == [] then 0
    else Wins(h[..|h| - 1], id) + (if h[|h| - 1].winnerId == id then 1 else 0)
  }

  /** Entries of `h` lost by bot `id`. */
  function Losses(h: seq<MatchRecord>, id: Id): nat {
    if h == [] then 0
    else Losses(h[..|h| - 1], id) + (if h[|h| - 1].loserId == id then 1 else 0)
  }

  /** Entries of `h` whose method is KO. */
  function Knockouts(h: seq<MatchRecord>): nat {
    if h == [] then 0
    else Knockouts(h[..|h| - 1]) + (if h[|h| - 1].how == KO then 1 else 0)
  }

  /** Entries of `h` written for game `game`: how often that game's fight ended. */
  function Finishes(h: seq<MatchRecord>, game: Id): nat {
    if h == [] then 0
    else Finishes(h[..|h| - 1], game) + (if h[|h| - 1].game == game then 1 else 0)
  }

  /** Appending one entry changes each count by exactly that entry's contribution. */
  lemma CountsAppend(h: seq<MatchRecord>, m: MatchRecord)
    ensures forall id {:trigger Wins(h + [m], id)} :: Wins(h + [m], id) == Wins(h, id) + (if m.winnerId == id then 1 else 0)
    ensures forall id {:trigger Losses(h + [m], id)} :: Losses(h + [m], id) == Losses(h, id) + (if m.loserId == id then 1 else 0)
    ensures forall id {:trigger Finishes(h + [m], id)} :: Finishes(h + [m], id) == Finishes(h, id) + (if m.game == id then 1 else 0)
    ensures Knockouts(h + [m]) == Knockouts(h) + (if m.how == KO then 1 else 0)
  {
    assert (h + [m])[..|h|] == h;
  }

  /** A bot or game that no entry mentions has no wins, losses or finishes. */
  lemma {:induction false} CountsOfAbsent(h: seq<MatchRecord>, id: Id)
    requires forall m :: m in h ==> m.winnerId != id && m.loserId != id && m.game != id
    ensures Wins(h, id) == 0 && Losses(h, id) == 0 && Finishes(h, id) == 0
  {
    if h != [] {
      var init := h[..|h| - 1];
      assert forall m :: m in init ==> m in h;
      CountsOfAbsent(init, id);
      assert h[|h| - 1] in h;
    }
  }

  // ---------------------------------------------------------------------------
  // Orderings of the reporting endpoints
  // ---------------------------------------------------------------------------

  /** `/api/status` sorts by wins; `/api/leaderboard` by the score `wins * 3 + knockouts`. */
  datatype Ordering = ByWins | ByScore

  function Key(e: Entry, o: Ordering): int {
    match o
    case ByWins => e.wins
    case ByScore => e.wins * 3 + e.knockouts
  }

  /** Keys never increase from left to right. */
  ghost predicate Ranked(s: seq<Entry>, o: Ordering) {
    forall i, j :: 0 <= i < j < |s| ==> Key(s[i], o) >= Key(s[j], o)
  }

  /**
   * Places `e` after every leading entry whose key is at least `e`'s, so an
   * entry never overtakes an earlier one with the same key.
   */
  function Insert(s: seq<Entry>, e: Entry, o: Ordering): seq<Entry> {
    if s == [] then [e]
    else if Key(s[0], o) >= Key(e, o) then [s[0]] + Insert(s[1..], e, o)
    else [e] + s
  }

  /**
   * `Array.prototype.sort` with the comparator `(a, b) => key(b) - key(a)`:
   * a sort into descending key order, written as an insertion sort.
   */
  function Sort(s: seq<Entry>, o: Ordering): seq<Entry> {
    if s == [] then []
    else Insert(Sort(s[..|s| - 1], o), s[|s| - 1], o)
  }

  /** Every entry of `Insert(s, e, o)` comes from `s` or is `e`. */
  lemma {:induction false} InsertElements(s: seq<Entry>, e: Entry, o: Ordering)
    ensures forall x :: x in Insert(s, e, o) ==> x in s || x == e
  {
    if s != [] && Key(s[0], o) >= Key(e, o) {
      InsertElements(s[1..], e, o);
      assert forall x :: x in s[1..] ==> x in s;
    }
  }

  /** Inserting adds exactly one occurrence of `e`. */
  lemma {:induction false} InsertCount(s: seq<Entry>, e: Entry, o: Ordering)
    ensures multiset(Insert(s, e, o)) == multiset(s) + multiset{e}
    ensures |Insert(s, e, o)| == |s| + 1
  {
    if s != [] && Key(s[0], o) >= Key(e, o) {
      InsertCount(s[1..], e, o);
      assert s == [s[0]] + s[1..];
    }
  }

  lemma {:induction false} InsertRanked(s: seq<Entry>, e: Entry, o: Ordering)
    requires Ranked(s, o)
    ensures Ranked(Insert(s, e, o), o)
  {
    if s == [] {
    } else if Key(s[0], o) >= Key(e, o) {
      var rest := Insert(s[1..], e, o);
      InsertRanked(s[1..], e, o);
      InsertElements(s[1..], e, o);
      var r := [s[0]] + rest;
      forall j | 0 <= j < |rest| ensures Key(s[0], o) >= Key(rest[j], o) {
        assert rest[j] in rest;
        if rest[j] != e {
          var k :| 0 <= k < |s[1..]| && s[1..][k] == rest[j];
          assert s[k + 1] == rest[j];
        }
      }
      forall i, j | 0 <= i < j < |r| ensures Key(r[i], o) >= Key(r[j], o) {
        assert r[j] == rest[j - 1];
        if i > 0 {
          assert r[i] == rest[i - 1];
        }
      }
    } else {
      var r := [e] + s;
      forall i, j | 0 <= i < j < |r| ensures Key(r[i], o) >= Key(r[j], o) {
        assert r[j] == s[j - 1];
        if i > 0 {
          assert r[i] == s[i - 1];
        }
      }
    }
  }

  /** Sorting yields a permutation of its input in descending key order. */
  lemma {:induction false} SortRanked(s: seq<Entry>, o: Ordering)
    ensures Ranked(Sort(s, o), o)
    ensures multiset(Sort(s, o)) == multiset(s)
    ensures |Sort(s, o)| == |s|
  {
    if s != [] {
      var init := s[..|s| - 1];
      SortRanked(init, o);
      InsertRanked(Sort(init, o), s[|s| - 1], o);
      InsertCount(Sort(init, o), s[|s| - 1], o);
      assert s == init + [s[|s| - 1]];
    }
  }

  /**
   * The first `n` entries of the sorted leaderboard (`.sort(...).slice(0, n)`).
   * They are ranked, drawn from `s`, as many as `s` allows, and no entry left
   * out has a larger key than one shown.
   */
  function Top(s: seq<Entry>, o: Ordering, n: nat): (r: seq<Entry>)
    ensures |r| == Min(n, |s|)
    ensures Ranked(r, o)
    ensures multiset(r) <= multiset(s)
    ensures forall e, t :: e in s && e !in r && t in r ==> Key(t, o) >= Key(e, o)
  {
    SortRanked(s, o);
    PrefixOfRanked(Sort(s, o), s, Min(n, |s|), o);
    Sort(s, o)[..Min(n, |s|)]
  }

  /** A prefix of a ranked permutation of `s` holds the largest keys of `s`. */
  lemma PrefixOfRanked(sorted: seq<Entry>, s: seq<Entry>, k: nat, o: Ordering)
    requires Ranked(sorted, o) && multiset(sorted) == multiset(s) && k <= |sorted|
    ensures Ranked(sorted[..k], o)
    ensures multiset(sorted[..k]) <= multiset(s)
    ensures forall e, t :: e in s && e !in sorted[..k] && t in sorted[..k] ==> Key(t, o) >= Key(e, o)
  {
    var r := sorted[..k];
    assert sorted == r + sorted[k..];
    assert multiset(sorted) == multiset(r) + multiset(sorted[k..]);
    forall e, t | e in s && e !in r && t in r ensures Key(t, o) >= Key(e, o) {
      assert e in multiset(sorted);
      var j :| 0 <= j < |sorted| && sorted[j] == e;
      var i :| 0 <= i < |r| && r[i] == t;
      assert forall x :: 0 <= x < k ==> r[x] == sorted[x];
      assert j >= k;
    }
  }

  /**
   * When every entry has as many knockouts as wins (as `endFight` makes it),
   * the score ordering and the wins ordering put the leaderboard in the same order.
   */
  lemma {:induction false} ScoreOrderIsWinsOrder(s: seq<Entry>)
    requires forall e :: e in s ==> e.knockouts == e.wins
    ensures Sort(s, ByScore) == Sort(s, ByWins)
  {
    if s != [] {
      var init := s[..|s| - 1];
      assert forall e :: e in init ==> e in s;
      ScoreOrderIsWinsOrder(init);
      SortRanked(init, ByWins);
      assert forall e :: e in Sort(init, ByWins) ==> e in multiset(init);
      InsertSameOrder(Sort(init, ByWins), s[|s| - 1]);
    }
  }

  lemma {:induction false} InsertSameOrder(s: seq<Entry>, e: Entry)
    requires forall x :: x in s ==> x.knockouts == x.wins
    requires e.knockouts == e.wins
    ensures Insert(s, e, ByScore) == Insert(s, e, ByWins)
  {
    if s != [] {
      assert s[0] in s;
      assert forall x :: x in s[1..] ==> x in s;
      InsertSameOrder(s[1..], e);
    }
  }
}
