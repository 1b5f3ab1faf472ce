# Coin-collector game: a verified model of its state logic

The game is a browser coin collector with a multiplayer mode and a single-player mode.

- **Multiplayer.** A Node server keeps the authoritative session: a registry of players keyed by socket id and a fixed pool of ten coins. A player joins when its socket connects (the client's `joinGame` message has no handler on the server). Clients then send intents: move, collect a coin, hit a player. The server broadcasts the outcome. In the model the intent `Joins` stands for the connection event.
- **Single-player.** This offline variant keeps its own pool of fifteen coins.
- **Leaderboard.** A leaderboard manager keeps a local top-50 list in browser storage. It ranks scores, validates player names and shows a top-three panel.

This project models these parts in Dafny:

- **`server.dfy`** (module `GameServer`) models the server's session.
  - Each handler is a function from a `World` (players, coin pool, pending respawn timers) to a `Step` (new world plus the emitted events, in order).
  - Class `Server` updates the same fields in place. Each of its methods is proved to do what the function says.
  - The lemmas cover:
    - the pool-size and non-negative-score invariant over any trace of intents;
    - that scores never decrease;
    - that the first claim on a coin wins;
    - that one coin is swapped on success;
    - what the hit payload the client actually sends does on the server.
- **`protocol.dfy`** (module `Protocol`) holds the wire value of a `playerHit` intent. It also models how JavaScript turns an object used as an index into the key `"[object Object]"`.
- **`leaderboard.dfy`** (module `Leaderboard`) models the local leaderboard:
  - the stable descending sort;
  - top-N;
  - save-and-trim to 50;
  - the offline and online rank formulas;
  - `String.prototype.trim` and the name check;
  - the panel.

  Class `LeaderboardManager` holds the name, the stored list, the connection state set by `init` and the connection test, and the offline guard of submission.
- **`client.dfy`** (module `GameClient`) models the multiplayer client:
  - the maps its socket handlers keep: sprites, coins, name labels, player info;
  - its own score and health fields;
  - the rule that decides which side of a collision reports a hit;
  - the send throttles of the frame update.
- **`offline.dfy`** (module `OfflineGame`) models the single-player coin pool: spawning, collection and the delayed replacement.
- **`options.dfy`** holds the `Option` type.

Values the source draws from the outside come in as parameters:

- the clock (`now`);
- `Math.random` (spawn positions, colours, coin ids: the server's item generator is a function `nat -> Item`, the offline one a `Draw`);
- the physics engine's player position;
- the answers of the external leaderboard store.

Timers are explicit steps:

- The server's respawn `setTimeout` appends the hit payload to a queue `respawns`. `Respawn` fires the oldest one. All timers have the same delay, so they fire in the order they were set.
- The offline `delayedCall` increments a `pending` counter. `FireReplacement` consumes it.

The model keeps the wire format as the code has it. The client sends `playerHit` with an object `{ targetPlayerId }` (public/js/game.js:507). The server indexes its registry with the raw argument (server.js:84-89), so the lookup uses the key `"[object Object]"`. As long as no socket has that id, the shown client never kills anyone (`GameServer.ClientHitIsNoop`).

## Model

| member | source | states |
|---|---|---|
| GameServer.FindIndex | server.js:71 | `findIndex` on coin ids: -1 exactly when no coin has the id; otherwise the first index carrying it |
| GameServer.Connect | server.js:40-55 | the socket is registered with score 0, alive and at the drawn position; other players and the pool are unchanged; it is sent the registry and pool, and the others are told of the new player |
| GameServer.Movement | server.js:58-65 | an unregistered sender changes nothing and emits nothing; otherwise only the sender's x, y and activity time change, and the move goes to the others |
| GameServer.CollectItem | server.js:68-81 | an unregistered sender or an unknown coin id changes nothing and emits nothing; otherwise the first coin with the id is removed, the drawn one is appended, the pool size stays the same, and only the collector's score rises, by exactly 10; `itemCollected` then `scoreUpdate` are emitted |
| GameServer.PlayerHit | server.js:84-96 | an unregistered attacker, or a target key that is missing or already dead, changes nothing; otherwise the target's record changes only in being dead and active now, the attacker's only in gaining exactly 50 and being active now (a self-hit does both to one record), every other player is unchanged, one respawn timer is queued, and `playerKilled` then `scoreUpdate` are emitted |
| GameServer.Respawn | server.js:97-109 | the oldest timer is consumed; a target still registered comes back alive at the drawn position with its score and colour kept; a target that left is not brought back and nothing is emitted |
| GameServer.Disconnect | server.js:114-118 | exactly this socket's player is removed, the others are untouched, and the others are told |
| GameServer.Apply | server.js:36-119 | one intent or timer firing, dispatched to its handler, never changes the pool size; only a connection registers a player, and it registers exactly its socket |
| GameServer.Run | server.js:36-119 | a trace of intents never changes the pool size, and a trace without connections registers nobody |
| GameServer.ApplyKeepsGood | server.js:40-118 | every handler keeps the pool at exactly 10 coins, each player stored under its own id, and every score non-negative |
| GameServer.RunKeepsGood | server.js:36-119 | the same invariant holds after any sequence of intents and timer firings |
| GameServer.ApplyScoreNeverDecreases | server.js:68-116 | one step never lowers a score and never registers a player except by connecting |
| GameServer.RunScoreNeverDecreases | server.js:36-119 | over a trace in which a player does not reconnect, its score never goes down |
| GameServer.RemoveAt | server.js:75 | `splice(i, 1)`: one element fewer; the elements before `i` stay in place and those after it move one place forward |
| GameServer.RemoveAtMultiset | server.js:75 | `splice(i, 1)` removes exactly the element at `i` from the multiset |
| GameServer.CollectSwapsOneCoin | server.js:71-76 | a successful claim changes the pool's multiset by removing the claimed coin and adding the replacement |
| GameServer.FirstClaimWins | server.js:71-79 | two claims on a unique coin whose replacement has a new id: the second claim is a no-op, so there is one reward, one replacement and two emitted events in total |
| Protocol.Key | server.js:84-89 | the key `players[payload]` looks up is `"[object Object]"` exactly for an object payload or for a raw id that is literally that string |
| Protocol.ObjectPayloadsCollide | server.js:84-89 | two object payloads naming different players are different values yet look up the same key |
| GameServer.ClientHitIsNoop | server.js:84-89 | a hit carried as an object payload looks up `"[object Object]"` and changes nothing while no socket has that id |
| GameServer.Server.constructor | server.js:15-34 | the pool starts with exactly 10 generated coins, in generation order, and the registry is empty |
| GameServer.Server.OnConnection | server.js:40-55 | the fields and the event log change as `Connect` says |
| GameServer.Server.OnPlayerMovement | server.js:58-65 | the fields and the event log change as `Movement` says |
| GameServer.Server.OnCollectItem | server.js:68-81 | the fields and the event log change as `CollectItem` says |
| GameServer.Server.OnPlayerHit | server.js:84-111 | the fields, the timer queue and the event log change as `PlayerHit` says |
| GameServer.Server.OnRespawnTimer | server.js:97-109 | the fields and the event log change as `Respawn` says |
| GameServer.Server.OnDisconnect | server.js:114-118 | the fields and the event log change as `Disconnect` says |
| Leaderboard.Insert | public/js/leaderboard.js:257 | inserting one entry adds exactly that entry: one more element, same multiset plus the entry |
| Leaderboard.SortDesc | public/js/leaderboard.js:257 | the sort is a permutation: same length, same multiset |
| Leaderboard.SortDescending | public/js/leaderboard.js:257 | the sorted list has non-increasing scores |
| Leaderboard.InsertPosition | public/js/leaderboard.js:257 | the stable insert puts the entry right behind all entries that score at least as much |
| Leaderboard.CountSort | public/js/leaderboard.js:257 | sorting keeps how many entries reach any score |
| Leaderboard.LocalTopScores | public/js/leaderboard.js:240-246 | `getLocalTopScores(limit)` holds `min(limit, length)` entries, sorted by non-increasing score, all taken from the stored list |
| Leaderboard.TopScoresAreHighest | public/js/leaderboard.js:243-245 | every returned entry scores at least as much as every stored entry left out |
| Leaderboard.SaveLocal | public/js/leaderboard.js:248-260 | after `saveLocalScore` the list has `min(old length + 1, 50)` entries, is sorted by non-increasing score, and is drawn from the old list plus the new entry |
| Leaderboard.SaveKeepsHighest | public/js/leaderboard.js:256-258 | the saved list is the highest entries of the old list plus the new one: every kept entry scores at least as much as every dropped one |
| Leaderboard.SavePlacesNewEntry | public/js/leaderboard.js:250-258 | with fewer than 50 stored entries scoring at least as much as it, the new entry is kept, right behind exactly those; otherwise the list is the old top 50 |
| Leaderboard.FirstAtMost | public/js/leaderboard.js:298 | `findIndex(score <= s)`: -1 exactly when every entry scores more than `s`; otherwise the first index whose score is at most `s` |
| Leaderboard.FirstAtMostCountsAbove | public/js/leaderboard.js:298 | on a descending list that index is the number of entries scoring more than `s` |
| Leaderboard.OfflineRank | public/js/leaderboard.js:296-300 | the offline rank lies in `[1, min(length, 100) + 1]` |
| Leaderboard.OfflineRankCountsHigher | public/js/leaderboard.js:297-299 | the offline rank equals one more than the number of top-100 entries scoring more than `s`, which is the online formula applied to that count |
| Leaderboard.OfflineRankOfSmallList | public/js/leaderboard.js:297-299 | with at most 100 stored entries, the offline rank is one more than the number of stored entries scoring more than `s` |
| Leaderboard.OnlineRank | public/js/leaderboard.js:309 | `(count or 0) + 1`: a missing count and a zero count both rank first, and no count of higher scores gives a rank below 1; `OfflineRankCountsHigher` ties it to the number of higher scores |
| Leaderboard.PlayerRank | public/js/leaderboard.js:295-314 | offline: always a rank in range; online: `(count or 0) + 1`; a failed query gives no rank |
| Leaderboard.IsWhitespace | public/js/leaderboard.js:158 | the characters `trim` removes all lie in the Basic Multilingual Plane, and no ASCII letter or digit is among them |
| Leaderboard.LeadEnd | public/js/leaderboard.js:158 | the leading white space from a given index ends at the result: only white space lies before it, and the character at the result is not white space |
| Leaderboard.TrailStart | public/js/leaderboard.js:158 | the trailing white space before a given end starts at the result: only white space lies from there to the end, and the character just before it is not white space |
| Leaderboard.Trim | public/js/leaderboard.js:158 | the result is no longer than the input and neither starts nor ends with white space |
| Leaderboard.TrimCutsOnlyWhitespace | public/js/leaderboard.js:158 | the trimmed name is a contiguous slice of the input, and only white space lies outside it |
| Leaderboard.TrimIdempotent | public/js/leaderboard.js:158 | trimming a trimmed name changes nothing |
| Leaderboard.Utf16Length | public/js/leaderboard.js:159 | JavaScript's `length` counts between one and two code units per character, exactly one each when all lie in the Basic Multilingual Plane |
| Leaderboard.AcceptedName | public/js/leaderboard.js:158-160 | a name is accepted exactly when the trimmed input's `length` in UTF-16 code units is at least 2, so every trimmed input of 2 or more characters is accepted; the accepted name is the trimmed input, non-empty and without white space at either end |
| Leaderboard.AstralCharacterIsAName | public/js/leaderboard.js:159 | a single character outside the Basic Multilingual Plane has `length` 2 and is accepted as a name |
| Leaderboard.LeaderboardPanel | public/js/leaderboard.js:267-292 | the panel shows the first `min(3, length)` entries ranked 1, 2, 3; `topScore` is the first entry's score or 0; the "no scores" note appears exactly for an empty list |
| Leaderboard.TopScoreIsHighest | public/js/leaderboard.js:272 | on a descending list, `topScore` is at least every listed score, and 0 for an empty list |
| Leaderboard.LeaderboardManager.constructor | public/js/leaderboard.js:5-14 | a new manager is offline and has no store client, with its name and the stored list |
| Leaderboard.LeaderboardManager.TestConnection | public/js/leaderboard.js:42-66 | after the connection test the manager is online exactly when it has a store client and the query succeeded |
| Leaderboard.LeaderboardManager.Init | public/js/leaderboard.js:16-40 | configured, the manager gains a store client and is online exactly when the connection test succeeds; unconfigured, it is offline |
| Leaderboard.LeaderboardManager.SaveName | public/js/leaderboard.js:155-167 | the name (and its stored copy) becomes the trimmed input exactly when that is accepted; otherwise nothing changes |
| Leaderboard.LeaderboardManager.SaveLocalScore | public/js/leaderboard.js:248-260 | the stored list becomes `SaveLocal` of the old list and the new entry: at most 50 entries, descending |
| Leaderboard.LeaderboardManager.SubmitScore | public/js/leaderboard.js:189-216 | offline, or without a store client, it returns false and hands nothing to the store; online it succeeds exactly when the store accepts the row |
| GameClient.StrGreater | public/js/game.js:503 | JavaScript's `>` on strings: a string is never greater than itself, and a string that properly extends another is greater than it |
| GameClient.IAmAggressor | public/js/game.js:494-504 | the aggressor's hit cooldown is always over; after the cooldown a client that moved within 200 ms is the aggressor; a client that has not moved is the aggressor exactly when its cooldown is over and its id is the greater; the rule ignores the other side's movement, so two recent movers past their cooldowns both report |
| GameClient.StrGreaterAsymmetric | public/js/game.js:503 | two ids are never each greater than the other |
| GameClient.StrGreaterTotal | public/js/game.js:503 | of two distinct ids one is greater |
| GameClient.ExactlyOneStationarySideSends | public/js/game.js:494-504 | for two distinct stationary ids whose cooldowns are over, exactly one side reports the hit |
| GameClient.DisplayName | public/js/game.js:447 | the display name is never empty: it is the record's own name when that is non-empty, else the leaderboard's name when that is non-empty, else `Anonymous` |
| GameClient.CreatedKeys | public/js/game.js:434-472 | `createPlayer` (`Created`) adds exactly the record's id to each of the three maps, so maps in step stay in step |
| GameClient.CreatedEntries | public/js/game.js:434-472 | the new sprite sits at the record's position in its colour; the info has score 0 and a non-empty name; the label sits 35 above and carries that name; every other id keeps its entries |
| GameClient.CreatedArms | public/js/game.js:462-472 | creating one's own player records it and resets the hit clock; creating a peer changes neither |
| GameClient.CurrentPlayersRegistersAll | public/js/game.js:133-144 | after `currentPlayers` (`CreatedAll`, which applies `Created` to each record in turn), exactly the announced ids have been added to each map, and the maps stay in step |
| GameClient.CurrentPlayersFindsOwnPlayer | public/js/game.js:135-138 | when the announced players include the client's own id, the client has its own player and a reset hit clock |
| GameClient.GameStatePlacesAll | public/js/game.js:147-152 | after `gameState` (`PlacedAll`, which places each coin in turn), exactly the announced coin ids have been added, and other coins are unchanged |
| GameClient.ClientScene.constructor | public/js/game.js:13-37 | empty maps, score 0, 3 lives, 0 hits, 100 coins to a life, all clocks 0 |
| GameClient.ClientScene.CreatePlayer | public/js/game.js:434-472 | the roster changes as `Created` says; the frame lets it write only the roster fields |
| GameClient.ClientScene.OnCurrentPlayers | public/js/game.js:133-144 | each record in turn is created, its own record as its own player |
| GameClient.ClientScene.OnNewPlayer | public/js/game.js:155-169 | a known id changes nothing; an unknown id is created as a peer |
| GameClient.ClientScene.OnPlayerMoved | public/js/game.js:172-185 | own id and unknown ids are ignored; a peer's sprite moves (rotation only when sent), and its label moves 35 above |
| GameClient.ClientScene.OnPlayerNameChanged | public/js/game.js:188-201 | the new name goes into the info record and label of the id, where they exist |
| GameClient.ClientScene.OnPlayerDisconnected | public/js/game.js:204-229 | a known id is removed from sprites, labels and info; an unknown id changes nothing |
| GameClient.ClientScene.CreateItem | public/js/game.js:572-597 | exactly one coin entry for the id, replacing any earlier one |
| GameClient.ClientScene.OnGameState | public/js/game.js:147-152 | the coins become `PlacedAll` of the old coins and the announced ones |
| GameClient.ClientScene.OnItemCollected | public/js/game.js:232-286 | the collected id is gone (unless the replacement carries it) and the replacement's id is present |
| GameClient.ClientScene.OnScoreUpdate | public/js/game.js:289-308 | the score changes only for an update about the own id |
| GameClient.ClientScene.OnHealthUpdate | public/js/game.js:311-319 | lives, hits and coins-to-life change only for an update about the own id |
| GameClient.ClientScene.OnPlayerCollision | public/js/game.js:530-565 | the aggressor emits `playerHit` with `{ targetPlayerId }` and sets its hit clock to `now`, after which it is no longer the aggressor at that instant; otherwise nothing changes |
| GameClient.ClientScene.Update | public/js/game.js:711-789 | nothing before the own player exists; the movement clock is set when moving; a movement packet goes out only when more than 16 ms have passed; a heartbeat goes out when none was sent yet or more than 5000 ms have passed |
| OfflineGame.Between | public/js/game-offline.js:128-129 | a drawn coordinate lies in `[min, max]` |
| OfflineGame.SpawnCoin | public/js/game-offline.js:126-130 | a spawned coin lies in `[50, 1150] × [50, 850]` |
| OfflineGame.DrawnIdsStep | public/js/game-offline.js:117-119 | the ids of `n` draws are those of the first `n - 1` plus the last |
| OfflineGame.SpawnedKeys | public/js/game-offline.js:114-124 | spawning (`Spawned`, `createItem` once per draw) adds exactly the drawn ids to the pool |
| OfflineGame.SpawnedKeepsOthers | public/js/game-offline.js:114-124 | coins whose id is not drawn again are kept, and all coins stay in the spawn rectangle |
| OfflineGame.DistinctDrawnIds | public/js/game-offline.js:130 | distinct ids from `n` draws make `n` ids |
| OfflineGame.SpawnedSize | public/js/game-offline.js:117-119 | with fresh, distinct ids, spawning `n` coins grows the pool by exactly `n` |
| OfflineGame.OfflineScene.constructor | public/js/game-offline.js:4-14 | the pool is empty, the score is 0 and no replacement is pending |
| OfflineGame.OfflineScene.CreateItem | public/js/game-offline.js:126-157 | exactly one coin is placed under the drawn id, inside the spawn rectangle |
| OfflineGame.OfflineScene.GenerateItems | public/js/game-offline.js:114-124 | the 15 drawn ids are added; with fresh, distinct ids, the pool grows by exactly 15, so a fresh scene starts balanced: coins on the field plus scheduled replacements make 15 |
| OfflineGame.OfflineScene.CollectItem | public/js/game-offline.js:159-187 | an unknown id changes nothing; a known one is deleted, the score rises by exactly 10 and one replacement is scheduled, so the pool has one coin fewer right after; coins on the field plus scheduled replacements stay constant |
| OfflineGame.OfflineScene.FireReplacement | public/js/game-offline.js:178-180 | the scheduled replacement places one coin and consumes one pending timer, restoring the balance when its id is fresh |

## Left out

- Socket.io transport, Express static serving and `server.listen` (server.js:1-11, 121-125) are I/O plumbing. Broadcasts appear only as the appended event log `log` / `sent`.
- Phaser rendering is presentational and runs behind library calls: sprites' drawing, tweens, particles, camera, background and sound. This includes the collision-sound throttle.
- The per-frame name-label repositioning in `update` (public/js/game.js:715-722) is left out. It copies the physics engine's sprite positions, which the model does not track.
- Joystick math, keyboard state and knockback velocity use floating-point trigonometry. They reduce to the `moving` flag and the physics position passed to `Update`.
- The Supabase queries (connection test, insert, top-scores query, rank count) are foreign network calls. Their answers are parameters (`ConnectionReply`, `InsertReply`, `RankReply`). `refreshLeaderboard` after a successful submit is not modelled.
- Leaderboard.LeaderboardManager.Init is a separate step after the constructor, where the source starts the asynchronous `init` from the constructor. Whether the store library, URL and key are configured is its `configured` parameter. A `createClient` call that throws is not modelled.
- localStorage and JSON (de)serialisation are abstracted to the fields `localScores` and `storedName`.
- DOM modals, `innerHTML` building, random name generation, the rank-achievement popup and `showRankAchievement` are not modelled.
- Coin ids and positions are parameters:
  - On the server, `generateItem` is an oracle with no freshness guarantee. Properties that need distinct ids ask for them in their `requires`, because the source's random ids are not guaranteed unique.
  - Offline ids are the pair (clock, random) that the id string is built from.
- Positions are integers. The server's `Math.random() * 800` gives floats, but positions are only stored and copied, never computed.
- The client handlers `extraLife`, `lifeLost`, `eliminated` and `knockback` only trigger effects and sounds. The shown server never emits them, nor `healthUpdate`.
- The lives/hit-count/coins-to-life server variant does not exist in the shown server and is not invented.
- The coin-overlap callback that emits `collectItem` (public/js/game.js:600-621) and the offline overlap that calls `collectItem` are not modelled. They are physics callbacks. The client model covers the handlers the server's answers reach, and the offline model calls `CollectItem` directly.
- Leaderboard.Trim removes white space by character where JavaScript works on UTF-16 code units. All the white space it removes lies in the Basic Multilingual Plane (`IsWhitespace`), so the two agree; lone surrogates cannot be written as Dafny characters.
- GameClient.StrGreater compares Dafny characters (Unicode scalar values). JavaScript compares UTF-16 code units, so the two orders differ only on ids with characters outside the Basic Multilingual Plane. Socket ids are ASCII.
- GameClient.ClientScene.OnCurrentPlayers takes the announced players as a list in key order.
  - It uses each record's own `id` where the source uses the object key.
  - The server stores every player under its own id (`GameServer.Good`), so the two agree.
- GameClient.ClientScene.Update uses one clock reading for the movement time and the send throttles, where the source reads `Date.now()` twice in one frame.
- GameClient.ClientScene.constructor starts `lastHitTime` at 0, where the source leaves it undefined. The source sets it to 0 when the collision handling is armed (public/js/game.js:526), and no collision can fire before that.
- OfflineGame.OfflineScene.FireReplacement requires a pending timer: a replacement can only fire after a collection scheduled it.
- Leaderboard.LeaderboardManager.SaveLocalScore sorts a copy held in a local sequence. The source sorts the parsed array in place, which is invisible outside the method.
- The leaderboard's online `getTopScores` branch and `lastScores` are not modelled. They come from the external store.
