# UFC match server: a verified model of its match engine

This project models the match engine of the OpenClaw UFC server
(`ufc-game/server.js`) and proves properties about it. In that server, AI bots
connect over a WebSocket and register. They wait in a first-come queue and are
paired two at a time into a game. A game goes through an entrance, then up to
three 300-second rounds, then a finish by knockout or decision. Bots send
actions (jab, cross, hook, …), which cost stamina and, when they land, take
health off the opponent. Every finished fight updates the bots' records, the
leaderboard, the match history and the global counters. A disconnect removes
the bot from the queue and deletes its games.

The JavaScript event loop runs one callback at a time. A callback is either a
socket message handler or a timer. The model therefore has one step per
callback:

- `Engine` describes the whole server state as a value, `World`. It has one
  function per event: `Register`, `TryMatch`, `StartFight`, `Tick`,
  `EndRound`, `EndFight`, `UpdateLeaderboard`, `Act`, `Cleanup` and
  `Disconnect`.
- `MatchServer.Server` is a class whose fields are the server's module-level
  variables: `waitingBots`, the `games` Map, `leaderboard`, `matchHistory`
  and `stats`.
  - Each source function (`registerBot`, `tryMatchBots`, `startFight`, the
    interval body, `endRound`, `endFight`, `updateLeaderboard`,
    `handleAction`, `handleDisconnect`) is a method. It changes those fields
    in place and is proved to leave exactly the state the matching `Engine`
    function describes.
  - The `On…` methods are the events themselves: a socket message, a
    closed socket, or a timer firing. Each keeps the class invariant
    `Valid()`.
- `Invariants` defines that invariant over `World` and proves that every
  event preserves it. It covers:
  - per-game bounds on round, clock, health and stamina;
  - the timer discipline;
  - distinct bots in distinct games, and only fresh bots in the queue;
  - standings that match the history: every bot record, leaderboard entry
    and counter is exactly what `matchHistory` says.
- `Properties` derives what the server reports from the invariant. It also
  proves the "revival" that a knockout during a round break causes.
- `Combat`, `Standings` and `Session` hold the pure parts:
  - the action catalogue, `processAction` and `calculateDamage`;
  - the win-rate formula, the history counts and the two leaderboard
    orderings;
  - the game and bot records and the per-game steps.

Inputs the server takes from outside are parameters of the model:

- the random hit roll is `hit: bool`;
- the ids `generateId` returns are fresh `Id` arguments;
- the bot id of the connection (`ws.botId`) is `sender: Option<Id>`, which is
  `None` before the bot registers.

Each timer is an event that can run once it is pending. Pending timers are
counted per game in `Timers`: starts, intervals and clean-ups. `startFight`
runs after the two nested entrance timeouts in `tryMatchBots`, and both are
modelled as one pending start.

Where the server's code is surprising, the model follows the code:

- Stamina is deducted without clamping and can go below 0. The gate lets only
  a fighter with at least 10 act, and no action costs more than 20, so
  stamina stays at or above -10.
- Health is not clamped to 100. A hit from an attacker with negative power
  heals.
- A bot's declared style is kept as given. It is not normalised.
- A decision tie goes to fighter2 (`health1 > health2` picks fighter1).
- `endFight` adds a knockout to the winner even on a decision. Because of
  that, the `wins*3 + knockouts` score ranks exactly as wins do.
- There is no round-break state. Between rounds the state stays
  `'fighting'`, so actions are still accepted.
- A pending `startFight` sets the state to `'fighting'` unconditionally. A
  knockout during the break is therefore followed by a revived fight, which
  can end, and be recorded, a second time. A game's fight is proved to end at
  most once per such revival plus once.
- A sender who is not fighter1 acts as fighter2, so a request from a bot
  outside the game is not ignored.
- A disconnect only deletes the bot's games from the Map. No forfeit winner
  is declared, and no record, standing or counter changes. The deleted
  games' pending timers still run on the game objects.

## Model

| member | source | states |
|---|---|---|
| Combat.Cost | ufc-game/server.js:326-338 | the stamina an action costs is its catalogue row's, an unlisted name costs jab's 5, every cost lies in [2, 20] |
| Combat.ProcessAction | ufc-game/server.js:325-350 | `processAction` returns the action name as sent, the supplied roll, the catalogue cost and the catalogue damage |
| Combat.BaseDamage | ufc-game/server.js:353 | `calculateDamage`'s own base table: 10 hook, 12 kick, 15 uppercut, 5 for every other name |
| Combat.Damage | ufc-game/server.js:352-355 | damage is `floor(base * power / 100)`: the largest `d` with `100*d <= base*power` |
| Combat.DamageWithinBase | ufc-game/server.js:352-355 | with power in [0, 100] damage lies between 0 and the base |
| Combat.DamageNonNegative | ufc-game/server.js:352-355 | non-negative power never yields negative damage |
| Combat.CatalogueDamageUnused | ufc-game/server.js:326-355 | block, jab, cross and takedown all deal `floor(5*power/100)` whatever their catalogue damage |
| Standings.WinRate | ufc-game/server.js:426-427 | the win rate is 0 with no fights, otherwise the integer nearest `100*w/(w+l)` with halves rounded up (`Math.round`) |
| Standings.WinRateIsPercentage | ufc-game/server.js:426-427 | a win rate lies in [0, 100]; it is 100 with wins and no losses, 0 with no wins |
| Standings.WinRateExamples | ufc-game/server.js:426-427 | 3 wins and 1 loss give 75, no fights give 0, 1 win and 7 losses give 13 |
| Standings.CountsAppend | ufc-game/server.js:391-400 | pushing one history entry adds exactly its contribution to every bot's wins and losses, the game's finishes and the KO count |
| Standings.CountsOfAbsent | ufc-game/server.js:391-400 | an id no entry mentions has no wins, losses or finishes |
| Standings.InsertElements | ufc-game/server.js:62-82 | inserting into a sorted board adds nothing but the new entry |
| Standings.InsertCount | ufc-game/server.js:62-82 | inserting adds exactly one occurrence of the entry |
| Standings.InsertRanked | ufc-game/server.js:62-82 | inserting into a descending board keeps it descending |
| Standings.SortRanked | ufc-game/server.js:62-82 | the sort yields a permutation of the board in descending key order |
| Standings.Top | ufc-game/server.js:62-82 | `sort(...).slice(0, n)` gives `min(n, size)` entries, descending, drawn from the board, none left out ranking higher than one shown |
| Standings.PrefixOfRanked | ufc-game/server.js:62-82 | a prefix of a sorted board is sorted and no left-out entry outranks a shown one |
| Standings.ScoreOrderIsWinsOrder | ufc-game/server.js:62-82 | when every entry has as many knockouts as wins, sorting by `wins*3+knockouts` and by wins give the same sequence |
| Standings.InsertSameOrder | ufc-game/server.js:62-82 | under that condition one insertion step agrees for both orderings |
| Session.NewBot | ufc-game/server.js:170-179 | a new bot has zero record, the given name or "Anonymous Bot", the given stats or 80 across, the given style or "balanced" |
| Session.NewGame | ufc-game/server.js:200-212 | a new game is in the entrance state, round 1, 300 s, health and stamina 100, no winner, the first bot as fighter1 |
| Session.NewGameBounded | ufc-game/server.js:200-212 | a new game is within the per-game bounds |
| Session.StrikeEffect | ufc-game/server.js:290-304 | an accepted action changes exactly the actor's stamina, by the cost, and on a hit exactly the opponent's health, to `max(0, h - damage)`; a miss changes no health |
| Session.StrikeBounded | ufc-game/server.js:278-304 | an accepted action keeps round, clock, health (never negative) and stamina (at least -10) within bounds |
| Session.KnockoutWinner | ufc-game/server.js:320-321 | after a knockout fighter2 wins exactly when `health1 <= 0` |
| Session.TickClockEffect | ufc-game/server.js:256-261 | a tick takes one second off the clock and sets each stamina to `min(100, s + 2)`, changing nothing else |
| Session.DecisionWinner | ufc-game/server.js:360 | fighter1 wins a decision exactly with strictly more health, so a tie goes to fighter2 |
| Session.ConcludedEffect | ufc-game/server.js:371-379 | `endFight` finishes the game, records the winner, adds a win and a knockout to the winner and a loss to the loser, nothing else |
| Session.RecordOf | ufc-game/server.js:391-400 | the history entry names the game, winner, loser and round, with method KO exactly when some health is at or below 0 |
| Session.EntryOf | ufc-game/server.js:418-429 | a leaderboard entry copies the bot's id and counters and carries its win rate |
| Engine.TryMatch | ufc-game/server.js:194-243 | with two or more waiting, the two front bots leave in order as fighter1 and fighter2 of a new game whose start is pending and the rest of the queue keeps its order; with fewer nothing changes |
| Engine.StartFight | ufc-game/server.js:245-250 | a start makes the game fighting whatever its state, keeps its clock and counters, and counts a revival when the game had finished |
| Engine.TickEffect | ufc-game/server.js:250-267 | an interval on a non-fighting game only clears itself; on a fighting game it ticks the clock and stamina and, when time runs out, ends the round |
| Engine.EndRoundEffect | ufc-game/server.js:357-368 | before round 3 the round advances, the clock resets to 300, the state is kept and a start is scheduled; after it `endFight` runs with the decision winner, the healthier fighter and fighter2 on a tie, and the entry it appends for the game has method KO exactly when some health is at or below 0 (possible in a revived fight) |
| Engine.EndFightEffect | ufc-game/server.js:370-416 | `endFight` finishes the game with the winner, counts the records, adds a fight to `totalFights` and a KO to `totalKOs` exactly when some health is at or below 0, appends exactly one entry and recomputes both entries |
| Engine.Cleanup | ufc-game/server.js:412-415 | the clean-up only deletes the game from the Map |
| Engine.ActIgnored | ufc-game/server.js:271-272 | an action for a game outside the Map or not fighting changes nothing |
| Engine.ActStaminaGate | ufc-game/server.js:278-284 | an actor with stamina below 10 only gets the error; nothing changes |
| Engine.ActApplied | ufc-game/server.js:286-322 | an accepted action changes the game as `Strike` says and reports it; a knockout ends the fight at once, fighter2 winning when `health1 <= 0`, with method KO |
| Engine.IndexOf | ufc-game/server.js:441 | `findIndex`: the first position of the bot, or -1 exactly when it is not waiting |
| Engine.Unqueue | ufc-game/server.js:441-444 | the bot is spliced out at that position and the other bots keep their order |
| Engine.Disconnect | ufc-game/server.js:440-458 | the bot leaves the queue and exactly the games it fights in leave the Map; records, standings, history and totals are untouched |
| Invariants.EmptyInv | ufc-game/server.js:19-29 | the start-up state satisfies the invariant |
| Invariants.QueueKeepsConsistent | ufc-game/server.js:170-182 | queueing a fresh bot with zero record keeps the invariant's consistency part |
| Invariants.TryMatchKeepsConsistent | ufc-game/server.js:194-243 | pairing keeps it |
| Invariants.RegisterKeepsInv | ufc-game/server.js:169-192 | registering keeps the invariant, including at most one bot left waiting |
| Invariants.StartFightKeepsInv | ufc-game/server.js:245-250 | a start keeps the invariant |
| Invariants.TickKeepsInv | ufc-game/server.js:250-267 | an interval run keeps it, including a round end or a decision |
| Invariants.EndFightKeepsConsistent | ufc-game/server.js:370-416 | ending a fighting game keeps the records, entries, counters and history in agreement |
| Invariants.CleanupKeepsInv | ufc-game/server.js:412-415 | the clean-up keeps the invariant |
| Invariants.ActKeepsInv | ufc-game/server.js:270-323 | an action keeps it, including a knockout |
| Invariants.DisconnectKeepsInv | ufc-game/server.js:440-458 | a disconnect keeps it |
| Properties.BoardEntriesFit | ufc-game/server.js:62-82 | every value the endpoints sort is a leaderboard entry whose wins are the bot's history wins and whose knockouts equal its wins |
| Properties.LeadersAgree | ufc-game/server.js:62-82 | the ten leaders `/api/status` reports are the first ten of the twenty `/api/leaderboard` reports |
| Properties.TopTenOfTopTwenty | ufc-game/server.js:62-82 | on a board where knockouts equal wins, the top ten by wins are the first ten of the top twenty by score |
| Properties.BoardComplete | ufc-game/server.js:62-82 | the board, the leaderboard Map's values in insertion order, includes every leaderboard entry and shows each bot once |
| Properties.KnockoutsAtMostEntries | ufc-game/server.js:391-400 | a history has no more KO entries than entries |
| Properties.TotalsFollowHistory | ufc-game/server.js:382-385 | `totalFights` is the number of history entries and `totalKOs` the number of KO entries, so never larger |
| Properties.RecordsFollowHistory | ufc-game/server.js:370-389 | the fighters' wins and losses are their history counts, their knockouts equal their wins, and once the game has a winner both leaderboard entries are derived from them |
| Properties.EndsOncePerStart | ufc-game/server.js:245-416 | a game's fight ends at most once per revival plus once, at most once when never revived, and a winner is set exactly when it has ended |
| Properties.OneGameAtATime | ufc-game/server.js:194-216 | no bot fights in two games, and a waiting bot fights in none |
| Properties.BreakKnockoutRevives | ufc-game/server.js:245-372 | a knockout during a round break finishes the game with a start still pending; that start makes it fighting again with its winner kept, after a history entry was written |
| MatchServer.ApplyAction | ufc-game/server.js:287-304 | the in-place stamina and health updates of `handleAction` produce exactly `Strike` of the game |
| MatchServer.Server.constructor | ufc-game/server.js:19-29 | the new server is the start-up state and valid |
| MatchServer.Server.OnRegister | ufc-game/server.js:149-192 | a `register_bot` message performs `Register` and keeps the invariant |
| MatchServer.Server.OnStartTimeout | ufc-game/server.js:238-268 | a pending start performs `StartFight` and keeps the invariant |
| MatchServer.Server.OnInterval | ufc-game/server.js:250-267 | an interval run performs `Tick` and keeps the invariant |
| MatchServer.Server.OnCleanupTimeout | ufc-game/server.js:412-415 | the clean-up performs `Cleanup` and keeps the invariant |
| MatchServer.Server.OnAction | ufc-game/server.js:149-323 | a `fighter_action` message performs `Act`, returns its outcome and keeps the invariant |
| MatchServer.Server.OnClose | ufc-game/server.js:137-139 | a closed connection performs `Disconnect` and keeps the invariant |
| MatchServer.Server.RegisterBot | ufc-game/server.js:169-192 | pushes the new bot onto the queue, then pairs; the new state is `Register` of the old |
| MatchServer.Server.TryMatchBots | ufc-game/server.js:194-243 | shifts the two front bots into a new game; the new state is `TryMatch` of the old |
| MatchServer.Server.StartFight | ufc-game/server.js:245-250 | sets the state to fighting and starts the interval; the new state is `StartFight` of the old |
| MatchServer.Server.RoundTick | ufc-game/server.js:250-267 | the interval body in place; the new state is `Tick` of the old |
| MatchServer.Server.EndRound | ufc-game/server.js:357-368 | in place; the new state is `EndRound` of the old |
| MatchServer.Server.EndFight | ufc-game/server.js:370-416 | in place; the new state is `EndFight` of the old |
| MatchServer.Server.ConcludeGame | ufc-game/server.js:371-385 | the first part of `endFight`: the game finished and the records and totals counted |
| MatchServer.Server.RecordMatch | ufc-game/server.js:391-415 | the last part: one history entry pushed and the clean-up scheduled |
| MatchServer.Server.UpdateLeaderboard | ufc-game/server.js:418-429 | `leaderboard.set`: the new state is `UpdateLeaderboard` of the old, a new id going to the end of the Map's order |
| MatchServer.Server.HandleAction | ufc-game/server.js:270-323 | in place; the new state and the outcome are `Act` of the old state |
| MatchServer.Server.DeleteGame | ufc-game/server.js:413-415 | `games.delete`; the new state is `Cleanup` of the old |
| MatchServer.Server.HandleDisconnect | ufc-game/server.js:440-458 | in place; the new state is `Disconnect` of the old |
| MatchServer.Server.LeaveQueue | ufc-game/server.js:441-444 | the `findIndex` loop and `splice` leave the queue as `Unqueue` says |
| MatchServer.Server.DeleteGamesOf | ufc-game/server.js:447-457 | the loop over the Map deletes exactly the games the bot fights in |
| MatchServer.Server.BoardValues | ufc-game/server.js:62-82 | `Array.from(leaderboard.values())` in insertion order |
| MatchServer.Server.StatusLeaders | ufc-game/server.js:65-67 | the `/api/status` leaderboard is `Top(board, by wins, 10)` |
| MatchServer.Server.LeaderboardLeaders | ufc-game/server.js:76-78 | the `/api/leaderboard` list is `Top(board, by score, 20)` |

## Left out

- The hit roll `Math.random() < 0.5 + (power+speed)/200*0.3` uses floating point and randomness. It is left out, and the roll is the `hit` input.
- `generateId` is modelled by fresh id arguments. Its format is not modelled.
- Floating point in `Math.floor(base * (power / 100))` is not modelled. Damage is computed exactly on integers, with stats taken as integers. For every integer power in [0, 100] and the bases 5, 10, 12 and 15 the float expression gives the same value; beyond that range it can differ (power 820 with base 15 gives 122 in floating point, 123 exactly).
- Standings.WinRate: computed exactly, so it can differ from the float expression at a half. With 23 wins and 17 losses, `(23 / 40) * 100` is `57.49999999999999` in floating point and `Math.round` gives 57, while the exact percentage 57.5 rounds to 58.
- All messages are left out: `ws.send`, `broadcastToGame`, `readyState` checks and the welcome message. Only the `action_result` fields are modelled, as the `Report` an action returns.
- HTTP serving is left out: static files, CORS, `/api/live`, and JSON encoding and decoding of messages, including invalid ones. The two leaderboard endpoints are modelled for their sorted lists only.
- `stats.activeFights` is left out. The source never changes it.
- `joinMatch` and `createGame` are left out. The `join_match` handler calls a function that is not defined, and `createGame` only sends a message. `sendStatus` only reports the queue and the Map size.
- The `time` timestamp in history entries and `bot.gameId` are left out. Nothing in the core reads them.
- Action names are compared as plain strings. A name that is also an inherited property of a JavaScript object (`"toString"`) would make the catalogue lookup misbehave in the source; the model instead treats it as unlisted, costing jab's stamina.
- Timing is left out: real delays and the gap between the two entrance timeouts. Timers are events that may run in any order once pending.
- Game and bot objects are values in maps, so aliasing is not modelled. After pairing, each bot object is reachable only from its game, so nothing the source does depends on it.
- MatchServer.Server.EndFight picks the loser by role rather than by comparing ids as the source does. The two agree because the two fighters of a game have different ids, which the invariant proves.
- MatchServer.Server.RoundTick clears the interval before ending the round, while the source ends the round first. No state depends on this order.
