# Trivia room server: room lifecycle, scoring and upgrade economy

This project models the room and session engine of a multiplayer trivia
server, `server.js`. A host creates a room and players join it by its code.
While the room is playing, each answer earns money and moves the player's
streak. Players spend money on three upgrades. A game ends in one of two
ways. A timed game ends once its time limit has passed; the richest player
wins. A race ends as soon as some player reaches the goal amount; the first
such player in roster order wins. The next question is drawn from a pool
that repeats each missed question four extra times per player who missed it.

Modules, one per component of the server:

- `Optional`: `Option`, standing for JavaScript's `undefined`.
- `Catalog`: the built-in question set and `questions.find`.
- `Scoring`: the player record, `calculateEarnings`, the answer rules and the
  upgrade shop, as functions on player values.
- `Selection`: the weighted pool built by `getNextQuestion`'s nested loops
  (a method proved against a pool function), and the uniform pick.
- `Rankings`: the money ordering `endGame` sorts by, and its first-richest
  winner.
- `Rooms`: class `Room`. Its fields are the room's settings, `status`,
  `startedAt` and `winnerEmail`, the roster (player keys in insertion order)
  and the map of player records. Its methods carry the room-level part of each
  handler, plus `checkGameEnd` and `endGame`.
- `Server`: class `Registry` (the global `rooms` object) and class `Connection`.
  A `Connection` holds one socket's `currentRoomCode` and `playerEmail` and
  runs its handlers against the registry.

Inputs the source takes from the environment are parameters:

- the generated room code;
- `u`, standing for `Math.random()` in [0, 1);
- `now`, standing for `Date.now()` in milliseconds.

The timed end condition `(now - startedAt) / 60000 >= timeLimitMinutes` is
stated as `now - startedAt >= timeLimitMinutes * 60000`.

Where the code and the intended design differ, the model follows the code:

- A wrong answer records the question even when insurance saves the streak.
- `create_room` replaces a room already stored under the same code.
- Failed actions change nothing. `join_room` reports `join_failed` (modelled as `ok == false`); the other handlers return or throw, as listed under "## Left out". There are no named error kinds.
- Rooms are never removed, not even empty ones.
- The end of a timed game is only detected when someone answers.
- In the money ordering, ties keep roster order. This follows from
  `Array.prototype.sort` being stable.

## Model

| member | source | states |
|---|---|---|
| `Catalog.Find` | server.js:136 | None exactly when no question has the id; otherwise a question of the set carrying it |
| `Catalog.FindFirst` | server.js:136 | the result is the first question in set order carrying the id |
| `Catalog.FindInUniqueSet` | server.js:136 | in a set with unique ids, the lookup yields a given question exactly for that question's id |
| `Catalog.DefaultSetIdsUnique` | server.js:7-14 | the built-in question set gives each question its own id |
| `Scoring.HostPlayer` | server.js:97-100 | the host record is named "Host Player", starts with no money, streak 0, both levels 1, one insurance credit, no missed questions and no answer counters |
| `Scoring.JoinedPlayer` | server.js:123-127 | a joining player gets the given name, no money, streak 0, both levels 1, one insurance credit, no missed questions and counters at 0 |
| `Scoring.Earnings` | server.js:18-22 | a well-formed player earns at least 100 per multiplier level |
| `Scoring.EarningsMonotonic` | server.js:18-22 | earnings never drop when multiplier level, streak or streak bonus level grows |
| `Scoring.RemoveId` | server.js:150 | the filter drops every copy of the id and keeps every other id with its multiplicity |
| `Scoring.RemoveIdAppend` | server.js:150 | the filter keeps the order of the ids it keeps: it distributes over concatenation |
| `Scoring.RemoveIdNoDup` | server.js:150 | filtering a duplicate-free list leaves it duplicate-free |
| `Scoring.ApplyAnswer` | server.js:140-162 | correct: money rises by the pre-answer earnings, streak by 1, insurance same, id removed; wrong: money same, insurance spent (streak kept) or streak reset, id appended unless present; feedback kind and earnings |
| `Scoring.WrongAnswerRecordedOnce` | server.js:151-162 | after a wrong answer, with or without insurance, the id is in the list exactly once and the list has no duplicates |
| `Scoring.ApplyAnswerWellFormed` | server.js:140-162 | scoring keeps money, streak and insurance non-negative, levels at least 1, missed list duplicate-free |
| `Scoring.UpgradeOf` | server.js:177-202 | "multiplier", "streak_bonus" and "insurance" each select their own upgrade; every other string is unknown |
| `Scoring.Cost` | server.js:179-195 | every upgrade costs at least 1000 for a well-formed player |
| `Scoring.BuyUpgrade` | server.js:172-202 | a purchase costs 1000*(multiplierLevel+1), 500*(streakBonusLevel+1) or 2500 and raises that one stat by 1; unaffordable or unknown: unchanged |
| `Scoring.BuyUpgradeSound` | server.js:172-202 | money never goes negative, a purchase raises the stats' sum by exactly 1 and lowers money by the cost, a declined one changes nothing |
| `Selection.PoolSize` | server.js:24-36 | the pool holds the set's questions plus 4 entries per (player, missed id) entry |
| `Selection.PoolWeight` | server.js:24-36 | with unique ids, each question is in the pool 1 + 4 * (number of outstanding misses of it) times |
| `Selection.MissedQuestionWeighsMore` | server.js:24-36 | a missed question has at least five times the weight of one nobody missed |
| `Selection.PushFour` | server.js:32-34 | the innermost loop appends exactly four copies of the lookup |
| `Selection.PushCopies` | server.js:31-35 | the `forEach` appends four lookups per missed id, in list order |
| `Selection.BuildPool` | server.js:25-36 | the nested loops build exactly the pool: the set, then 4 lookups per missed id, players in roster order |
| `Selection.Pick` | server.js:38-39 | the pick is the entry at index i with i <= u*n < i+1, or undefined from an empty pool |
| `Selection.NextQuestion` | server.js:24-40 | `getNextQuestion` draws uniformly from the pool above |
| `Rankings.Insert` | server.js:69 | one insertion step adds exactly the new player to the ranking |
| `Rankings.InsertSorted` | server.js:69 | inserting into a sorted ranking keeps it sorted; the new player goes first only with at least the head's money |
| `Rankings.Ranked` | server.js:69-76 | the sort of `Object.values(room.players)` by `b.money - a.money` yields as many records as it was given; its order and contents are `Rankings.RankedSortedPermutation` and `Rankings.RankedHead` |
| `Rankings.RankedSortedPermutation` | server.js:69-76 | rankings are sorted by money, descending, and are a permutation of the players |
| `Rankings.FirstRichest` | server.js:68-70 | the index of a player with maximal money, every earlier player having strictly less |
| `Rankings.RankedHead` | server.js:68-71 | the head of the ranking is the first richest player in roster order |
| `Rooms.GameTypeOf` | server.js:46-51 | "Classic: Time" and "Classic: Race" each select their own end condition; no other string selects one |
| `Rooms.Values` | server.js:68-76 | `Object.values` lists the records in roster order |
| `Rooms.Without` | server.js:210 | deleting a key removes exactly that key from the roster, once, and keeps the roster duplicate-free |
| `Rooms.WithoutAppend` | server.js:210 | deleting a key keeps the other keys in their order: it distributes over concatenation |
| `Rooms.Room.constructor` | server.js:87-100 | a new room is in the lobby with only the host on its roster |
| `Rooms.Room.Join` | server.js:119-127 | joining succeeds exactly in the lobby, (re)sets the player's record and appends new emails; otherwise nothing changes |
| `Rooms.Room.DrawQuestion` | server.js:24-40 | the drawn question comes from the current pool; an unknown set gives none |
| `Rooms.Room.Start` | server.js:107-114 | the host starts a lobby room: playing, start time recorded, first question drawn; otherwise nothing changes |
| `Rooms.Room.ScanForGoal` | server.js:52-58 | finds the first roster entry with money at or above the goal, or proves none has it |
| `Rooms.Room.EndGame` | server.js:62-77 | finished; a winner still on the roster is kept, else the first richest is named; rankings sorted |
| `Rooms.Room.CheckGameEnd` | server.js:42-60 | a no-op unless playing; finishes exactly when the end condition holds, with the race or timed winner rule |
| `Rooms.Room.Score` | server.js:140-162 | the answering player's record and the feedback are those of the answer rules; nothing else in the room changes |
| `Rooms.Room.SubmitAnswer` | server.js:133-169 | accepted exactly while playing for a known player and question; applies the answer rules, keeps roster and start time, draws from the updated pool, then checks the end; a finished game's payload names the winner and holds the records sorted by money |
| `Rooms.Room.BuyUpgrade` | server.js:172-202 | a purchase for a player of the room in any status; declined purchases change nothing |
| `Rooms.Room.Remove` | server.js:210 | removes exactly that player's record and roster entry, in any status |
| `Server.Registry.constructor` | server.js:6 | the registry starts empty |
| `Server.Connection.constructor` | server.js:81-82 | a new connection has no room code and no email |
| `Server.Connection.CreateRoom` | server.js:84-100 | stores a new lobby room under the code, replacing any room there, with its game type decoded from the setting string, and binds the connection to it |
| `Server.Connection.JoinRoom` | server.js:117-131 | fails unless the code names a lobby room; on success binds the connection, sets the player's record and appends a new email to the roster; status, start time and winner never change |
| `Server.Connection.StartGame` | server.js:106-115 | starts exactly when this connection's email is the room's host and the room is in the lobby; the status only moves forward and roster, records and winner stay |
| `Server.Connection.SubmitAnswer` | server.js:133-170 | an answer is accepted exactly when the connection's room and player exist and the room accepts it |
| `Server.Connection.BuyUpgrade` | server.js:172-206 | bought exactly when the connection's player exists and can afford a known upgrade; then only that record changes, to the shop's result; otherwise nothing changes |
| `Server.Connection.Disconnect` | server.js:208-213 | removes this connection's player from its room when the code is truthy and the room exists; status, start time and winner stay |

## Left out

- Transport is not modelled: Express, the HTTP server, socket.io, `socket.join` and `http.listen`.
- Broadcast snapshots are not modelled: `lobby_update`, `leaderboard_update`, `player_stats_update`, `game_started`, `room_created`. Only values that carry a result are returned: the feedback, the next question, the game result, and the join, start and purchase outcomes.
- Feedback and shop message texts are presentation; only the kind of feedback is kept.
- `generateCode`'s randomness is replaced by a parameter. The model does not capture that its codes are up to six upper-case base-36 characters.
- The pick uses exact real arithmetic for `Math.floor(u * n)`. Floating-point rounding is not modelled, and neither is `Date.now()`'s clock (`now` is a parameter).
- JavaScript numbers are doubles; the model's integers are unbounded. Precision loss above 2^53 is not modelled, nor `parseInt` giving NaN for a time limit or goal.
- Missing room: `submit_answer` and `buy_upgrade` throw a TypeError before changing anything. Missing player: `submit_answer` returns at its guard; `buy_upgrade` throws for a known upgrade type and, for an unknown one, only emits its snapshots. The model treats every one of these cases as a no-op.
- Unknown question set: `submit_answer` throws at its lookup (server.js:136), in any status and before its guard; the model returns no result and changes nothing, so the missing-player case above returns at the guard only for a known set. `getNextQuestion` throws too. In `start_game` this happens after the room is already playing; the model keeps that state and returns no question.
- Rooms.Room.EndGame: requires a non-empty roster, where the source would throw. Its only caller runs right after a player on the roster has answered.
- Property order: JavaScript lists integer-like keys first, in numeric order. The roster keeps plain insertion order, which matches for email keys.
- Looking up an absent winner reads the key "undefined". A player whose email is literally "undefined" is not modelled.
- Player records are values in the room's map. The source shares player objects between the map and the sent rankings, and that sharing is not modelled.
- Rankings.RankedSortedPermutation: states sorted and permutation, and `Rankings.RankedHead` names the head; full stability (every tie in roster order) is not stated.
- Server.Connection.SubmitAnswer: states only when an answer is accepted; what the answer does to the room is `Rooms.Room.SubmitAnswer`'s contract.
- client.js is not part of this model: DOM rendering, timers and the client's copy of the shop prices.
- Not in the code, so not modelled: room reaping, idle timeouts, unique-code regeneration, named error kinds.
