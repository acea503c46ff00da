# Player state and replication, modelled in Dafny

This project models the per-player core of a multiplayer game server
(`src/moomoo/Player.ts`): the player record and its constructor defaults,
the five observed stat writes and the network messages they send, death,
movement intent, the attack flag, the two interest queries (nearby players,
nearby world objects) and the per-tick snapshot with its kill-leader flag.

The model is functional. A `Player` is an immutable record, and each
operation returns the updated player together with the events it sent, in
send order. An event is `Send(to, msg)`, where `msg` is `UPDATE_STATS
[name, value, 1]`, `HEALTH_UPDATE [id, value]` or `DEATH`. The game's list
of client connections is passed in as a parameter. That list may hold
undefined slots.

Modules:

- `Options` (options.dfy) holds the optional value that stands in for `null`/`undefined`.
- `Seqs` (seqs.dfy) holds order-preserving filtering: the scan-and-push shape of both interest queries.
- `Geometry` (geometry.dfy) holds positions and the strict radius test, done on squared distances.
- `Events` (events.dfy) holds message and event types, and the health broadcast to every defined client.
- `Players` (players.dfy) holds the player record, its constructor, the stat writes, `die`, `move`/`stopMove` and `isAttacking`.
- `World` (world.dfy) holds the registry of players and world objects that queries read.
- `Interest` (interest.dfy) holds `getNearbyPlayers` / `getNearbyGameObjects`: a reference filter and the scan loop proved equal to it.
- `Snapshot` (snapshot.dfy) holds `getUpdateData`, the lead-kills scan, and a reader that decodes a snapshot back.
- `Lifecycle` (lifecycle.dfy) applies a sequence of calls to one player, with lemmas over whole runs.

Modelling choices:

- The source excludes the querying player with `!==`, which compares object identity, not `id`. The model gives each player a `handle` for that identity. A registry may therefore hold two players with the same `id` and still tell them apart.
- The source compares `eucDistance(a, b) < radius`. The model compares `dx² + dy² < radius²` and also requires `radius > 0`. `Geometry.DistanceTest` proves this agrees with `d < radius` for the true distance `d`. A radius of 0 or less admits nothing, because a distance is never negative.
- Stats, kills and ids are unbounded integers. Positions, angles and directions are reals.
- The resource setters store any value, so resources can go negative (src/moomoo/Player.ts:69-126).
- Health is stored without clamping (src/moomoo/Player.ts:143).
- `die()` does not clear the private `_attack` flag, so a dead player can still read as attacking (src/moomoo/Player.ts:195-212, `Players.AttackingAfterDeath`).

## Model

| member | source | states |
|---|---|---|
| `Players.NewPlayer` | src/moomoo/Player.ts:146-170 | A new player keeps the given id, owner, client, position, angle, name, skin and cosmetics. It starts with zero velocity, health 100, all four resources 0 and no clan. It is alive and idle: no kills, weapons 0, variant Normal, build item -1, not moving, not attacking. |
| `Players.NewPlayerWithDefaults` | src/moomoo/Player.ts:151-156 | With every optional argument omitted, a new player has no client, angle 0, name "unknown", skin `Light2`, hat -1 and accessory -1. It is otherwise a fresh, idle player with health 100. |
| `Players.SetResource` | src/moomoo/Player.ts:63-126 | Writing food, stone, points or wood stores the value as given. The other three resources and every other field are unchanged. Exactly one `UPDATE_STATS [name, value, 1]` goes to the owner's client when there is one, and nothing is sent otherwise. |
| `Players.ResourceWriteNotDiffed` | src/moomoo/Player.ts:69-77 | Writing a resource its current value leaves the player unchanged but still sends the update, so writes are not diffed. |
| `Players.ResourceLastWriteWins` | src/moomoo/Player.ts:85-93 | Two writes to one resource leave the second value. Both updates are sent to the owner, in write order. |
| `Players.SetHealth` | src/moomoo/Player.ts:128-144 | Writing health stores the value unclamped and changes nothing else. One `HEALTH_UPDATE [id, value]` goes to each defined client of the game, in list order, whatever the old value was. A client receives the update exactly when it is in the list, the owner included, one message per time it is listed. |
| `Events.Connected` | src/moomoo/Player.ts:135-136 | The clients reached by the broadcast are exactly the defined entries of the game's client list. |
| `Events.HealthFanout` | src/moomoo/Player.ts:135-141 | The broadcast loop sends one health message per defined client, in list order. Each message names the subject player and the new value. |
| `Players.IsAttacking` | src/moomoo/Player.ts:55-57 | The `isAttacking` getter reads true whenever auto-attack is on, and otherwise reads the held-attack flag. |
| `Players.SetAttacking` | src/moomoo/Player.ts:59-61 | The `isAttacking` setter changes the held-attack flag only. |
| `Players.AttackingReadBack` | src/moomoo/Player.ts:55-61 | After writing `v`, `isAttacking` reads `v` or auto-attack. Writing false still reads true while auto-attack is on. |
| `Players.Die` | src/moomoo/Player.ts:195-212 | After `die()` the player is dead with kills 0, weapon 0, variant Normal, build item -1, auto-attack and rotation lock off, and no move direction. Health, resources, secondary and selected weapon, cosmetics, clan fields and identity are untouched. One `DEATH` goes to the owner's client only, if present. |
| `Players.DieIdempotent` | src/moomoo/Player.ts:195-212 | Dying twice leaves the same fields as dying once. The second call sends the death notice again. |
| `Players.AttackingAfterDeath` | src/moomoo/Player.ts:198-205 | After death, `isAttacking` equals the held-attack flag from before death: death clears auto-attack only. |
| `Players.Move` | src/moomoo/Player.ts:214-216 | `move(d)` sets the move direction to `d` and changes nothing else, position included. |
| `Players.StopMove` | src/moomoo/Player.ts:218-220 | `stopMove()` clears the move direction and changes nothing else. |
| `Players.MoveIntentLatestWins` | src/moomoo/Player.ts:214-220 | Movement intent is one slot: the latest `move` decides it, and `stopMove` after `move` is the same as `stopMove` alone. |
| `Seqs.FilterSpec` | src/moomoo/Player.ts:179-192 | A scan that pushes passing entries returns a subsequence of its input. It contains exactly the passing entries, each as many times as it occurs. |
| `Geometry.DistanceTest` | src/moomoo/Player.ts:182-186 | The squared-distance test holds exactly when the Euclidean distance is strictly below the radius. |
| `Interest.NearbyPlayers` | src/moomoo/Player.ts:248-267 | The nearby players are a subsequence of the registry. A player is in it exactly when it is registered, is not the querying player, is not dead and is strictly within the radius. Each such player keeps its registry multiplicity. |
| `Interest.GetNearbyPlayers` | src/moomoo/Player.ts:251-266 | The linear scan over `state.players` returns exactly the reference answer, `NearbyPlayers`. |
| `Interest.NearbyGameObjects` | src/moomoo/Player.ts:176-193 | The nearby objects are a subsequence of the registry. An object is in it exactly when it is strictly within the radius, with no other filter. |
| `Interest.GetNearbyGameObjects` | src/moomoo/Player.ts:179-192 | The linear scan over `state.gameObjects` returns exactly the reference answer, `NearbyGameObjects`. |
| `Interest.SeesPlayerByDistance` | src/moomoo/Player.ts:254-260 | A player is reported exactly when it is another, living player whose Euclidean distance is below the radius. |
| `Interest.BoundaryPlayerExcluded` | src/moomoo/Player.ts:255-259 | A player at exactly the radius is not reported. |
| `Interest.NearbyPlayersMutual` | src/moomoo/Player.ts:253-264 | Interest between registered living players is mutual. |
| `Interest.NearbyPlayersMonotone` | src/moomoo/Player.ts:248-267 | A larger radius reports every player a smaller one does, in the same order. |
| `Interest.NearbyGameObjectsOnlyLocation` | src/moomoo/Player.ts:181-187 | The object query depends on the querying player's position alone. |
| `Snapshot.LeadKills` | src/moomoo/Player.ts:223-229 | The lead is at least 0 and at least every registered player's kills. It is 0 or some registered player's kills. |
| `Snapshot.LeaderFlag` | src/moomoo/Player.ts:243 | The leader bit is 0 or 1. It is 1 only for a player with positive kills that no registered player exceeds, and always 0 for a player with no kills. |
| `Snapshot.GetUpdateData` | src/moomoo/Player.ts:222-246 | The snapshot has 13 entries. Entry 12 is the kill-leader bit and entry 13 is 0. |
| `Snapshot.SnapshotRoundTrip` | src/moomoo/Player.ts:231-245 | Reading the snapshot back gives id, position, angle, build item, selected weapon, variant, clan name, clan-leader bit (as 0/1), hat, accessory and kill-leader status. |
| `Snapshot.LeaderFlagMeaning` | src/moomoo/Player.ts:243 | The leader flag is 0 or 1. It is 1 exactly when the player's kills are positive, no registered player has more, and some registered player has as many. |
| `Snapshot.RegisteredLeaderFlag` | src/moomoo/Player.ts:222-243 | A registered player is flagged exactly when its kills are positive and nobody has more. |
| `Snapshot.LeadersTie` | src/moomoo/Player.ts:243 | All flagged players share one kill count, so ties at the top are all flagged. |
| `Snapshot.TieScenario` | src/moomoo/Player.ts:222-246 | With kills 5, 5 and 3, both players on 5 are flagged and the player on 3 is not. |
| `Snapshot.NoKillsNoLeader` | src/moomoo/Player.ts:222-246 | When every registered player has 0 kills, nobody is flagged. |
| `Lifecycle.StepShape` | src/moomoo/Player.ts:55-220 | No single call changes identity, connection, position, look or clan fields. A call leaves the player dead exactly when it was dead or the call is `die()`. Every event is a health update about this player or goes to the owner. Only `die()` sends a death notice, to the owner, once. |
| `Lifecycle.RunKeepsIdentity` | src/moomoo/Player.ts:55-220 | No sequence of calls changes identity, connection, position, look or clan fields. |
| `Lifecycle.DeadIsFinal` | src/moomoo/Player.ts:195-198 | After a sequence of calls the player is dead exactly when it was already dead or one of the calls was `die()`. |
| `Lifecycle.RunEventsVisibility` | src/moomoo/Player.ts:69-144 | Over any sequence of calls, every health update is about this player. Every other message goes to the owner's connection. |
| `Lifecycle.DeathNoticePerCall` | src/moomoo/Player.ts:207-211 | The owner receives one death notice per `die()` call. No other client receives one. |

## Left out

- Packet serialization and `socket.send` are not modelled: each send is an event appended to the log. Delivery to a closed connection, which the transport drops silently, is not modelled.
- The `console.log` in the `points` setter (src/moomoo/Player.ts:103) is left out: it is a debug print with no effect on state or messages.
- The environment-variable radius overrides (src/moomoo/Player.ts:177, 249) are left out. The radius is a parameter of both queries: callers pass it. `Geometry.DefaultRadius` names the default the game uses when no override is set, 1250. A string-valued override, which JavaScript coerces during comparison, is not modelled.
- Floating point is left out. Positions and distances are exact reals, and `eucDistance` is represented by the squared test plus `Geometry.DistanceTest`. Stats are unbounded integers, not doubles.
- `getWeaponHitTime` (src/moomoo/Player.ts:172-174) is left out: it only forwards to the item catalog, which is not part of this model.
- `gatherAnim`, `lastPing` and `lastHitTime` are left out: this component stores them and never uses them.
- The game-object type enum and size table (src/gameobjects/gameobjects.ts) are left out: a world object is an id and a position, which is all the interest query reads.
- `Entity`, `util` (`eucDistance`, `SkinColor`), `Weapons`, `Game`, `GameState` and `Client` are not part of this model. Their values appear as plain fields and parameters. Weapon ids, the skin colour and the weapon variant are integer codes, or `Light2`/`Normal` for the named defaults.
- Respawn is left out: no code in this component revives a dead player.
