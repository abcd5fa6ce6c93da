# Topia.io clone: a verified model of the session core and the Sky Jumper rules

This project models, in Dafny, the parts of the multiplayer "Topia.io clone" that
carry real invariants:

- **server.js** (`server.dfy`, module `Server`). The in-memory participant
  registry `players`, the handlers `join`, `getWorldObjects`, `move`, `chat` and
  `disconnect`, and the random spawn and colour helpers. It also covers the world
  fixture that `generateWorldObjects` fills once at start-up.
  - Every outbound emit is returned as an `Emit(audience, event)` value. `ToSelf`
    stands for `socket.emit`, `ToOthers` for `socket.broadcast.emit` and `ToAll`
    for `io.emit`. `Deliver` computes what one socket receives.
  - The handlers are methods of the class `ServerState`. They are tied to a pure
    transition function `Step`, and properties of whole runs are proved about
    `Step`.
- **client.js** (`client.dfy`, module `Client`). The socket handlers that keep
  the local copy of the registry, and the bounded chat log. Also
  `checkCollision`, the axis-separated movement of `handleMovement`, and the
  particle list.
  - The handlers are methods of the class `GameState`, tied to a pure
    `Receive` function.
  - The main theorem is `MirrorFollowsServer`. From its own `join` until it
    disconnects, a client that applies the events server.js delivers to it holds
    exactly the server's registry.
- **platformer-game.js** (`platformer.dfy`, module `Platformer`). Three parts:
  - the colour helpers `lightenColor` and `darkenColor`, including the
    `toString(16).slice(1)` zero-padding trick;
  - `generateLevel`;
  - one frame of `updatePlatformerGame`: velocity caps, coins, score, lives,
    win, game over and the moving spikes. These are methods of the class `Game`.
- **Numeric** (`numeric.dfy`). `Math.random()` is modelled as a draw in [0, 1),
  `Math.abs` as `Abs`, and the `Math.sqrt` distance test as a squared
  comparison guarded by a positive reach. The latter is exactly equivalent,
  because a square root is never negative.

Randomness (`Math.random`), clocks (`Date.now`) and `Math.sin` are inputs to
the operations that use them. Reals stand for JavaScript numbers.

Details of the code that the model keeps:
- A second `join` on the same socket overwrites the entry: server.js:100 has
  no duplicate guard.
- The colour is always drawn at random from `COLORS` (server.js:87-90); `join`
  takes no colour from the client.
- A `chatMessage` carries the username, the message and a timestamp, but no
  sender id (server.js:144-148).
- A spawn coordinate is `Math.random() * 2800 + 100`, which lies in [100, 2900)
  and never reaches 2900 (server.js:82-83).
- `socket.broadcast.emit` reaches every other connected socket, whether or not
  it has joined (server.js:115, 133, 163).
- server.js has no `platformerScore` handler. The mini-game emits the report
  (platformer-game.js:506-514); the model returns it and stops there.

## Model

| member | source | states |
|---|---|---|
| Server.SpawnCoord | server.js:80-85 | for any draw in [0,1), a spawn coordinate lies in [100, 2900) |
| Server.ColorIndex | server.js:88-90 | `Math.floor(r * COLORS.length)` is a valid index 0..7 |
| Server.RandomColor | server.js:87-90 | the colour given to a player is one of the eight `COLORS` |
| Server.DrawnWithin | server.js:33-66 | every pushed object lies within its kind's inset from the world edges, with a size in its kind's range |
| Server.Scatter | server.js:33-39 | one generation loop pushes exactly `count` objects, the i-th built from its own three draws, all inside the kind's bounds |
| Server.GenerateWorldObjects | server.js:28-66 | the fixture has exactly 80 trees, 50 rocks, 60 bushes and 8 houses, each built from its draws in order and placed within bounds |
| Server.Deliver | server.js:108-115 | a socket receives only events of emits whose audience (sender, others, all) reaches it, and every such event; no more events than emits |
| Server.DeliverAppend | server.js:108-115 | delivery of two batches of emits is the delivery of the first followed by that of the second, so the received events keep emit order |
| Server.DeliverOne | server.js:109-115 | one emit yields its event exactly once to a socket its audience reaches, and nothing to any other |
| Server.ServerState.constructor | server.js:16-25 | start-up: empty registry, fixture generated once with 80/50/60/8 objects |
| Server.ServerState.OnJoin | server.js:97-119 | `join` stores `{id, username, x, y, color}` under the socket id, overwriting any earlier entry, and leaves the rest alone. It emits `init` with the updated registry to the joiner, then `playerJoined` with the new entry to the others |
| Server.ServerState.OnGetWorldObjects | server.js:122-124 | replies with the same fixture, to the requester only, without regenerating it |
| Server.ServerState.OnMove | server.js:127-139 | a registered socket's `x` and `y` are overwritten (id, name, colour kept) and `playerMoved` goes to the others. An unregistered socket changes nothing and emits nothing |
| Server.ServerState.OnChat | server.js:142-155 | a registered socket's message goes to everyone, including the sender, with the username from the registry. Otherwise nothing is emitted. The registry is never changed |
| Server.ServerState.OnDisconnect | server.js:158-170 | removes exactly the socket's entry and tells the others. An absent id changes nothing |
| Server.Step | server.js:97-170 | the reference transition of the five handlers: the new registry and the emits, with their audiences, for one event on one socket |
| Server.ServerState.Handle | server.js:93-171 | each handler keeps every entry under its own id and performs exactly one transition of `Step` |
| Server.RunKeepsWellKeyed | server.js:100-101 | over any sequence of events, every registry entry stays stored under its own `id` |
| Server.RegistryHoldsLiveSockets | server.js:97-170 | from an empty registry, a socket id is present exactly when it joined and has not disconnected since |
| Server.RejoinOverwrites | server.js:100-106 | a second join on the same socket replaces the entry and does not add a key |
| Server.DisconnectIdempotent | server.js:158-170 | after a disconnect the id is gone, and a second disconnect changes nothing and emits nothing |
| Server.AliceThenBob | server.js:97-119 | two joins in turn: Bob's `init` lists both players, Alice receives Bob's `playerJoined`, Bob does not |
| Client.AppendChat | client.js:170-176 | the reference chat trim: the line is appended and, once the log holds more than 50 lines, the oldest is dropped |
| Client.ChatKeepsLatest | client.js:170-176 | the chat log is a bounded FIFO: after any appends it holds the 50 most recent lines, oldest first |
| Client.Receive | client.js:835-878 | the reference effect of each socket handler on the client's view: id, player map, chat log and world objects |
| Client.MirrorStep | client.js:835-872 | once the local map equals the registry, every server step other than the client's own disconnect keeps it equal |
| Client.JoinStartsMirror | client.js:835-839 | the `init` reply to a client's own join makes its map equal to the registry, whatever it held before |
| Client.MirrorFollowsServer | client.js:835-860 | from its own join on, and while it stays connected, a client's map equals the server's registry after every event |
| Client.AnyHit | client.js:192-224 | one scan of `checkCollision` is true exactly when some object of that kind is hit |
| Client.CheckCollision | client.js:185-227 | a collision is reported exactly when the circle crosses a world edge, reaches a tree (size/2.5) or a rock (size/2), or overlaps a house rectangle (size by size/1.5). Bushes never block |
| Client.KeyDirection | client.js:233-239 | each axis of the key direction is in {-1, 0, 1}, and it is non-zero exactly when one of the two opposing keys is held |
| Client.StepVector | client.js:241-245 | the reference step: a diagonal key direction is scaled by 0.707 on both axes, any other is kept |
| Client.ResolvedAs | client.js:255-278 | the reference case table of the trial moves, relating a start position and step to the final position |
| Client.ResolveMove | client.js:247-278 | the result follows the whole case table of the trial moves: both single-axis trials blocked, stay put; one blocked, take only the other step; neither blocked, take both steps unless the combined position collides, and then keep X when \|dx\| > \|dy\| and Y otherwise. Each axis stays or takes its step, and a changed position never collides |
| Client.NewParticle | client.js:786-798 | a new particle has `life == maxLife == 30`, starts at the given point, and has velocities and size in the drawn ranges |
| Client.Tick | client.js:803-816 | the reference frame of the particle list: each particle advanced once, those whose life reaches 0 dropped, the rest in order |
| Client.TickShape | client.js:803-816 | a frame never lengthens the particle list, every survivor has life > 0, and each survivor is one advanced original |
| Client.TickAppend | client.js:803-816 | a frame acts on each part of the list separately, so survivors keep their relative order |
| Client.TickKeepsLive | client.js:803-816 | a frame keeps every particle's life in 1..30 |
| Client.ParticleLifetime | client.js:786-816 | a particle created with life 30 has life 30 - n after n frames and is removed at the 30th |
| Client.GameState.constructor | client.js:5-19 | the initial client state: no id, empty players, chat and particles |
| Client.GameState.AddChatMessage | client.js:159-182 | appends the line and drops the oldest once there are more than 50, so the log never exceeds 50 |
| Client.GameState.OnInit | client.js:835-839 | `init` sets `myId` and replaces the map with the snapshot, and `myPlayer` is the snapshot's own entry |
| Client.GameState.OnPlayerJoined | client.js:841-845 | inserts or overwrites the entry under `player.id` and logs the join notice |
| Client.GameState.OnPlayerMoved | client.js:847-852 | updates `x`/`y` of an existing entry only, never inserting, and leaves the other entries alone |
| Client.GameState.OnPlayerLeft | client.js:854-860 | deletes only an existing entry, logging its leave notice |
| Client.GameState.OnChatMessage | client.js:862-864 | appends the message to the bounded log |
| Client.GameState.OnUpdatePlayers | client.js:866-872 | replaces the map; `myPlayer` follows `myId` |
| Client.GameState.OnWorldObjects | client.js:874-878 | stores the obstacle lists `checkCollision` reads |
| Client.GameState.OnEvent | client.js:835-878 | every handler is one step of `Receive` and keeps the chat bound |
| Client.GameState.HandleMovement | client.js:230-290 | a `move` is sent exactly when the chat is closed, the own player exists and some direction key nets non-zero. The sent position is the one the trial-move case table gives from the own player's old position and the key step, and the own entry takes it |
| Client.GameState.CreateParticle | client.js:786-798 | appends one new particle |
| Client.GameState.SweepParticles | client.js:803-816 | the backward loop that advances each particle and splices out the dead leaves exactly `Tick` of the old list |
| Client.GameState.UpdateParticles | client.js:800-832 | the backward splice loop leaves exactly `Tick` of the old list: every particle advanced, the dead removed, order kept |
| Platformer.ToHex | platformer-game.js:493 | `toString(16)` writes at least one digit, all lower-case hex |
| Platformer.HexRoundTrip | platformer-game.js:488-493 | `parseInt(_, 16)` undoes `toString(16)` |
| Platformer.ToHexAfterLeadingOne | platformer-game.js:493 | a number in [16^k, 2·16^k) prints as '1' followed by k digits that spell the number minus 16^k, which is why adding 0x1000000 and slicing off one character zero-pads to six digits |
| Platformer.ToHexOfPadded | platformer-game.js:493 | `toString(16)` has only one way to write a number: 16^k plus the value of k lower-case digits prints as '1' and those digits |
| Platformer.HexValueBound | platformer-game.js:488 | k hex digits parse to less than 16^k |
| Platformer.ParseColor | platformer-game.js:488 | a '#' and six hex digits parse to a 24-bit number |
| Platformer.Channels | platformer-game.js:490-492 | the shifts and masks split a 24-bit number into three channels 0..255 that pack back to it |
| Platformer.ChannelsOfPack | platformer-game.js:490-493 | splitting a packed colour gives back its channels |
| Platformer.FormatColor | platformer-game.js:493 | `"#" + (0x1000000 + R*0x10000 + G*0x100 + B).toString(16).slice(1)` is '#' plus six lower-case digits that parse back to the packed channels |
| Platformer.Lighten | platformer-game.js:489-492 | each channel rises by amt or stops at 255, whichever comes first, so it never falls and stays in 0..255 |
| Platformer.Darken | platformer-game.js:498-501 | each channel falls by amt or stops at 0, whichever comes first, so it never rises and stays in 0..255 |
| Platformer.LightenColor | platformer-game.js:487-494 | the result is a lower-case colour whose parsed channels are the lightened channels of the input |
| Platformer.DarkenColor | platformer-game.js:496-503 | the result is a lower-case colour whose parsed channels are the darkened channels of the input |
| Platformer.FormatOfParse | platformer-game.js:488-493 | formatting the parsed channels of a lower-case colour rebuilds the same string |
| Platformer.ZeroAmountIsIdentity | platformer-game.js:487-503 | with amt 0 both helpers keep every channel, and return a lower-case colour unchanged |
| Platformer.GenerateLevel | platformer-game.js:56-130 | with `pc = floor(w/150)`, the level has `1 + pc` platforms, the ground first. It has between `floor(pc/2)` and `pc + floor(pc/2)` uncollected coins and exactly `floor(pc/3)` spikes, each standing on a floating platform, because the picked index is always in 1..pc |
| Platformer.HorizontalVelocity | platformer-game.js:222-236 | velocityX stays in [-7, 7] if it started there. It falls while left is held and rises while only right is held (until the cap). Without keys friction never speeds it up or flips its sign |
| Platformer.FallVelocity | platformer-game.js:238-246 | velocityY never exceeds 20, a jump always starts upward, and otherwise gravity adds 0.65 below the cap |
| Platformer.Wrap | platformer-game.js:252-254 | after wrapping, x lies in [-40, w], and a position already there is kept |
| Platformer.Collect | platformer-game.js:273-292 | a coin becomes collected exactly when it was uncollected and the player touches it, and only its flag changes |
| Platformer.CollectedCount | platformer-game.js:282-287 | the collected count is at most the number of coins, equals it exactly when all are collected, and is 0 exactly when none is |
| Platformer.CollectOneMore | platformer-game.js:282-283 | collecting one uncollected coin raises the count by exactly one |
| Platformer.Patrol | platformer-game.js:297-302 | a spike step keeps its speed magnitude and changes only x and direction, and a spike inside its patrol stays inside it |
| Platformer.SupportedInPatrol | platformer-game.js:110-124 | every freshly placed spike starts inside its patrol |
| Platformer.CountHits | platformer-game.js:296-324 | the reference count of lives the spike pass costs: spikes in order, the first tested where the player stands and each later one at (100, 450) once a hit has reset them; never more than the number of spikes |
| Platformer.Settle | platformer-game.js:256-270 | the reference platform pass: a left fold in which each platform that catches the player, at the height and speed the earlier ones left, puts the feet on its own top and stops the fall |
| Platformer.SettleLands | platformer-game.js:256-270 | the pass lands the player exactly when some platform catches them at the height and speed they had before it, and changes nothing when none does |
| Platformer.SettleOnCatcher | platformer-game.js:259-268 | whenever the pass changes anything, the player ends at rest on the top of a platform whose catch test succeeded against the state the platforms before it left |
| Platformer.HitIffOverlap | platformer-game.js:296-324 | the spike pass costs at least one life exactly when some spike overlaps the player where they stood before the pass |
| Platformer.CollectKeepsCoins | platformer-game.js:273-292 | a coin pass only sets collected flags, so the collected count never falls |
| Platformer.CollectedCountGrows | platformer-game.js:273-292 | setting flags never lowers the collected count |
| Platformer.Game.constructor | platformer-game.js:7-53 | a new round: player at (100, 450) at rest, score 0, 3 lives, not won or over, level generated |
| Platformer.Game.Resize | platformer-game.js:158-163 | the resize listener updates the canvas size |
| Platformer.Game.Steer | platformer-game.js:222-254 | velocities follow the two velocity rules, and the position moves by them and wraps horizontally |
| Platformer.Game.Land | platformer-game.js:256-270 | the loop leaves exactly `Settle` of the state before it, so the feet are on the top of the platform that caught the player last. The player is airborne exactly when no platform catches them at the pre-pass position, and then nothing changed |
| Platformer.Game.CollectCoins | platformer-game.js:272-294 | each touched uncollected coin becomes collected and adds 1 to the score. `won` becomes true exactly when the last coin is collected, and the score is reported then, once |
| Platformer.Game.TouchSpike | platformer-game.js:305-321 | an overlap with a spike costs exactly one life and resets the player to (100, 450) at rest; no overlap changes nothing. `gameOver` holds exactly when lives <= 0 |
| Platformer.Game.SpikePass | platformer-game.js:297-323 | the loop over the spikes leaves them `PatrolAll` of the old ones, loses `CountHits` lives from the old position, and resets the player to (100, 450) at rest exactly when some life was lost |
| Platformer.Game.HitObstacles | platformer-game.js:296-324 | every spike patrols one step. The lives lost are `CountHits`: spikes are tested in order, the first at the player's position and the later ones at (100, 450) once a hit has reset the player. At least one life is lost exactly when some patrolled spike overlaps the starting position |
| Platformer.Game.FallOff | platformer-game.js:326-338 | falling below h + 100 costs one life and puts the player at (100, h - 200) at rest; `gameOver` holds exactly when lives <= 0 |
| Platformer.Game.Move | platformer-game.js:219-270 | the play time is the elapsed whole seconds; the velocities follow their rules, x wraps, and the height, vertical speed and airborne flag are `Settle` of the fallen position over the platforms |
| Platformer.Game.Interact | platformer-game.js:272-338 | the coin pass, the spike pass and the fall check all start from where the move left the player; the fall is tested where the spikes left them, and lives fall by the hits plus one for a fall |
| Platformer.Game.InteractedKeeps | platformer-game.js:272-338 | after the coin, spike and fall passes no coin is un-collected or otherwise changed, the collected count never falls, and lives fall by at most one per spike plus one |
| Platformer.Game.Update | platformer-game.js:214-339 | one frame keeps the invariants (speed caps, score equals the collected coins, won exactly when all of a non-empty set of coins are collected, game over exactly when lives <= 0). It is `Moved` from the old state to the landed position (the velocity rules, the wrap and `Settle`), then `Interacted` from there: coins are collected at the landed position, lives fall by `CountHits` there plus one for a fall, and the final position is the fall reset, the spike reset or the landed position |
| Platformer.Game.Frame | platformer-game.js:184-208 | the loop stops, changing nothing, once the round is won or over; otherwise the frame does exactly what `Update` does |

## Left out

- Rendering, the DOM and UI wiring are not modelled: every `draw*` function, the login screen, controls, chat input, minimap and online count. They only present state.
- The express/socket.io setup, `server.listen` and transport are not modelled. Emits are returned values, and delivery order is the emit order of one handler.
- `Math.random`, `Date.now`, `Math.sin`, `setTimeout` and `requestAnimationFrame` are parameters or left out. Frame loops are not modelled beyond one step.
- Floating-point rounding is not modelled. JavaScript numbers are reals, including the 0.707 diagonal factor, friction and gravity.
- LightenColor: takes `amt` as a natural number. `Math.round(2.55 * percent)` and a negative percent are not modelled.
- DarkenColor: takes `amt` as a natural number, for the same reason as LightenColor.
- LightenColor and DarkenColor require a well-formed `#` plus six hex digits. `parseInt`'s handling of other strings (prefixes, NaN) is not modelled, because every caller passes such a colour.
- Client.GameState.HandleMovement: `myPlayer` is modelled as the entry `players[myId]`, so a move writes that entry. This matches `init` and `updatePlayers`, which both re-read `myPlayer` from the map (client.js:838, 868-870). It does not capture two aliasing cases, in which `myPlayer` keeps pointing at an object the map no longer holds under `myId`. In the source the guard at client.js:231 then still passes, so that object keeps moving and `move` keeps being sent (client.js:281-288). The model moves `players[myId]` instead, or, when it is gone, moves nothing and sends nothing:
  - a `playerJoined` carrying the client's own id replaces `players[myId]` (client.js:842). server.js never sends that to the joining socket, because `playerJoined` goes only to the other sockets (server.js:115);
  - a `playerLeft` carrying the client's own id deletes `players[myId]` (client.js:854-859), after which the model's `MyPlayer` is `None`. server.js never sends that to the leaving socket either, because `playerLeft` is a broadcast to the others (server.js:163). It can still reach a client whose connection came back under a new socket id: client.js keeps its old `myId` and emits `join` only from the login form (client.js:81), so the old id's `playerLeft` arrives as a message about itself.
- Client.MirrorFollowsServer: assumes every emit reaches the client and is handled before the server processes its next event. With network latency the client's own move is applied locally before the server has it, so its map runs ahead. The maps are equal again once every message in flight has been handled; that interleaving is not modelled.
- Coin `rotation`, obstacle `type` (always `'spike'`), bobbing and particle drawing are animation only.
- The `console.log`/`getElementById` side effects inside the update and handlers are not modelled.
- The leaderboard is left out because server.js does not implement it. `savePlatformerScore` is modelled only as the returned `ScoreReport`, with `Date.now()` equal to the frame's `now`.
- `updatePlayers` is listened for by client.js but never emitted by server.js. Its handler is modelled, but it plays no part in the mirror theorem.
