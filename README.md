# starfighter: a Dafny model of the game server

starfighter is a small multiplayer space shooter. One server process holds a
single shared game and serves every player over a websocket. The model has
two halves.

**The game world (game/game.go).** A `Game` owns its players twice: in a map
keyed by id and in an ordered slice. It also holds the bullets in flight. One
tick has three steps:

- Every player moves according to its direction intents, and fires if its
  fire intent is set and its reload countdown has run out.
- Every bullet takes one step along its rotation.
- Collision runs a hit scan, then a purge. The hit scan costs each victim a
  life and credits each bullet's owner with a point. The purge drops the
  bullets that are used up and flags the ones that have left the arena.

**The server (server/main.go).** Each connection gets an id, a player and a
read loop. The read loop turns text messages into changes of that player's
intent: rename, pause and resume, and a key pressed or released. The tick
loop advances the game. After each tick it visits every connection and
sends it a snapshot of the game, with that connection's own player marked
as "you".

The model is split into four modules, one per file:

- **`GameRules`** (rules.dfy) states the rules of a tick on values: a
  player's state, a bullet, a roster keyed by id. It also holds the lemmas
  about those rules.
- **`Game`** (game.dfy) holds the classes `Player` and `Game`. Their fields
  are updated in place, as the source updates them. Every method is proved
  to perform the corresponding `GameRules` function.
- **`Commands`** (commands.dfy) is the message decoder as pure functions.
- **`Server`** (server.dfy) is the class `Server`. It holds the connection
  map and the game, with one method per step of the connection handler and
  of the tick loop. Goroutines are modelled as whole operations that run one
  after another.

Things the model leaves to its callers:

- Go's map iteration order is arbitrary. The recipient loop receives the
  order of the connections as a parameter. The hit scan picks each next
  player itself, and its result is proved not to depend on that choice.
- Random spawn coordinates and fresh ids are parameters.
- The websocket frames of a connection arrive as a sequence.

Some behaviour of the source is kept as written, and lemmas state it:

- A dead player still fires once (`DeadPlayerStillFires`).
- One bullet can hit several players in the same scan
  (`OneBulletTwoVictims`).
- A hit by a bullet whose owner has disconnected makes the scan panic
  (`DepartedShooterPanics`).
- A connection that has no player yet makes the tick loop return for good
  (`Server.Server.Round`). This happens in the window between
  server/main.go:78 and :85.
- The key-held messages the client sends ("Leftdown", "shoot") match no case
  of the switch (`SidewaysHeldIgnored`, `ShootIgnored`).

## Model

| member | source | states |
|---|---|---|
| GameRules.ApplyRight | game/game.go:113-124 | the right-intent block changes only x and rotation; x grows by one step exactly when right is held and x is below the width |
| GameRules.ApplyLeft | game/game.go:126-137 | the left-intent block changes only x and rotation; x shrinks by one step exactly when left is held and x is above 0 |
| GameRules.ApplyUp | game/game.go:139-144 | the up-intent block changes only y and rotation; y grows by one step exactly when up is held and y is below the height |
| GameRules.ApplyDown | game/game.go:145-150 | the down-intent block changes only y and rotation; y shrinks by one step exactly when down is held and y is above 0 |
| GameRules.Moved | game/game.go:105-152 | a player with no life left is unchanged; a live player's positive reload countdown drops by one; only position, rotation and countdown can change |
| GameRules.Counted | game/game.go:109-111 | the countdown step on its own; what it means for a whole move is stated by Moved's contract and by DeadPlayerFiresOnlyOnce |
| GameRules.Steered | game/game.go:113-150 | the four intent blocks change only position and rotation |
| GameRules.DiagonalRotation | game/game.go:119-137 | one horizontal and one vertical intent give the diagonal rotation, even when a bound blocks the step |
| GameRules.MoveFollowsHeading | game/game.go:113-150 | an unblocked, consistent intent moves the player one full step along each intended axis (diagonals are not normalised) and turns it to face that way |
| GameRules.BlockedLoneIntent | game/game.go:113-118 | a lone right intent at the right edge neither moves nor turns the player |
| GameRules.IdleStaysPut | game/game.go:105-152 | a player with no intent keeps its position and rotation |
| GameRules.AxisSteps | game/game.go:113-150 | per axis: no intent means no move; a single intent means one step, unless a bound blocks it |
| GameRules.HorizontalSteps | game/game.go:113-137 | the horizontal blocks leave y alone; per intent they step x or are blocked |
| GameRules.VerticalSteps | game/game.go:139-150 | the vertical blocks leave x alone; per intent they step y or are blocked |
| GameRules.MovedStaysInArena | game/game.go:113-150 | the bound checks come before the step, so a player stays within one step outside the arena |
| GameRules.MovedKeepsCompass | game/game.go:84-150 | a rotation that is one of the eight constants stays one of them |
| GameRules.NewBullet | game/game.go:245-257 | a new bullet is not exhausted and flies at speed 2 |
| GameRules.CanFire | game/game.go:159 | definition: the fire test after the move, which ignores life; promises in FireRule and DeadPlayerStillFires |
| GameRules.Shots | game/game.go:159-162 | definition: the bullet one player adds; promises in FireRule and VolleyFromShooters |
| GameRules.Turn | game/game.go:157-162 | definition: the move, then the reload reset when the player fires; promises in FireRule, DeadPlayerFiresOnlyOnce and BulletFliesAlongShooter |
| GameRules.TurnRoster | game/game.go:154-165 | the roster after MovePlayers, keyed as before; the promises are in RosterOfTurn (the slice loop gives this roster) and FireRule (what one turn does) |
| GameRules.RosterOfTurn | game/game.go:154-165 | turning every player of the slice turns the roster keyed by id |
| GameRules.RosterOfFinds | game/game.go:55-56 | when ids are distinct, the roster built from the slice finds every player under its id |
| GameRules.FireRule | game/game.go:159-162 | after the move, fire intent plus an expired countdown gives exactly one bullet at the new position (with the player's rotation and power) and resets the countdown to 25; otherwise no bullet |
| GameRules.DeadPlayerStillFires | game/game.go:106-162 | the fire check ignores life: a dead player with fire intent and an expired countdown shoots |
| GameRules.DeadPlayerFiresOnlyOnce | game/game.go:106-162 | a dead player's countdown never drops, so after one shot it never shoots again |
| GameRules.VolleyPrefix | game/game.go:155-164 | the bullets of MovePlayers accumulate player by player, in slice order |
| GameRules.Volley | game/game.go:155-164 | definition: the bullets of one MovePlayers, player by player; promises in VolleyPrefix and VolleyFromShooters |
| GameRules.VolleyFromShooters | game/game.go:154-165 | every new bullet is fresh and belongs to a player that could fire; it sits at that player's new position with its rotation and power; at most one bullet per player |
| GameRules.Advance | game/game.go:259-293 | a bullet changes only its position; a bullet with any other rotation stays put |
| GameRules.AdvanceFollowsTable | game/game.go:259-293 | the switch moves a bullet by its speed per axis, in the direction its rotation names (checked against an independent direction table) |
| GameRules.BulletFliesAlongShooter | game/game.go:113-162 | the bullet of an unblocked shooter flies the way the shooter was moving |
| GameRules.Advanced | game/game.go:259-293 | MoveBullets on values: number and order kept; what each step does is stated by Advance, AdvanceFollowsTable and BulletFliesAlongShooter |
| GameRules.InBox | game/game.go:178-183 | definition: the two distance tests of the scan; used by Hits |
| GameRules.Hits | game/game.go:170-183 | definition: a live victim, another owner, the bullet in the box; promises in DeadPlayerIsNotHit and NoSelfScore |
| GameRules.HitsOn | game/game.go:173-184 | definition: the life one player loses; promise in HitRosterAt |
| GameRules.Owned | game/game.go:173-185 | definition: the points one owner scores on one player; promises in DeadPlayerIsNotHit and NoSelfScore |
| GameRules.Gain | game/game.go:169-187 | definition: the points one owner scores over the map; promises in GainAdd and HitRosterAt |
| GameRules.GainAdd | game/game.go:169-187 | the points a shooter scores do not depend on the order in which the player map is visited |
| GameRules.DeadPlayerIsNotHit | game/game.go:170-172 | a player with no life left is never hit and yields no points |
| GameRules.NoSelfScore | game/game.go:174-176 | no player scores with its own bullets on itself |
| GameRules.MarkStruck | game/game.go:173-186 | the exhausted flags the scan sets, bullet by bullet; the promises are in NeverResurrected, OneBulletTwoVictims and Game.MarkedAll (the loops give exactly this) |
| GameRules.HitRoster | game/game.go:169-187 | the scan changes only the lives and scores of the registered players |
| GameRules.HitRosterAt | game/game.go:169-187 | the per-player reading of HitRoster: life falls by HitsOn and score rises by Gain; GainAdd, DeadPlayerIsNotHit and NoSelfScore state what those counts are |
| GameRules.OneBulletTwoVictims | game/game.go:173-186 | a bullet between two players hits both: each loses a life, the shooter scores twice, the bullet is exhausted |
| GameRules.TwoVictimsGain | game/game.go:183-185 | helper of OneBulletTwoVictims: in that example the shooter's gain is 2 |
| GameRules.DepartedShooterPanics | game/game.go:185 | a hit by a bullet whose owner has left reaches the missing owner |
| GameRules.OrphanHit | game/game.go:185 | definition: a hit whose owner has left the game; Game.Game.ScanHits panics exactly then and DepartedShooterPanics shows it can happen |
| GameRules.OutOfBounds | game/game.go:193 | definition: the four bounds tests of the purge; used by Flagged |
| GameRules.Flagged | game/game.go:193-195 | definition: a survivor flagged when outside the arena; promise in SweptSurvivors |
| GameRules.Swept | game/game.go:188-196 | definition: the purge on values; promises in SweptDistributes, SweptSurvivors and SweptTwice, and Game.Game.PurgeBullets performs it |
| GameRules.SweptDistributes | game/game.go:188-196 | the purge handles each bullet on its own and keeps the order |
| GameRules.SweptSurvivors | game/game.go:188-196 | the survivors are exactly the unexhausted bullets; a survivor is exhausted exactly when it is outside the arena |
| GameRules.SweptTwice | game/game.go:188-196 | two purges in a row leave only unexhausted bullets inside the arena |
| GameRules.NeverResurrected | game/game.go:173-186 | moving and scanning never clear a bullet's exhausted flag |
| GameRules.Spawned | game/game.go:222-239 | a new player has the given id and position |
| GameRules.SpawnedIsPlayable | game/game.go:222-239 | a new player inside the arena is alive, faces one of the eight rotations, moves 1.5 per step, and cannot shoot on its first turn |
| Commands.AbsorbOwn | server/main.go:96-170 | writing back a player's own intent changes nothing |
| Commands.Print | server/main.go:101-170 | definition: the text of each case of the switch; promises in ParsePrint, PrintRecognised and TokensHaveNoBar |
| Commands.Parse | server/main.go:101-170 | definition: the cases of the switch in the source's order, no match for any other message; promises in ParsePrint and ParseExact |
| Commands.Perform | server/main.go:102-169 | definition: the assignments of each case; promises in PerformPad, StatusTokens and PerformTwice |
| Commands.ParsePrint | server/main.go:101-170 | the switch recognises a message as a token exactly when the message is that token's text |
| Commands.ParseExact | server/main.go:101-170 | a recognised message is the text of the token it yields |
| Commands.PrintRecognised | server/main.go:101-170 | every token's text is recognised as that token |
| Commands.TokensHaveNoBar | server/main.go:101-170 | no token's text holds a bar character |
| Commands.Hold | server/main.go:108-169 | exactly the flags of the given keys take the value; name and status stay |
| Commands.PerformPad | server/main.go:108-169 | "pressed" sets exactly the pad's keys, "release" clears exactly them |
| Commands.CompoundPads | server/main.go:114-151 | each compound pad moves one horizontal and one vertical key, and never fire |
| Commands.Contains | server/main.go:98 | the marker test holds exactly when the marker occurs somewhere in the message |
| Commands.Strip | server/main.go:99 | definition: every marker removed in one left-to-right pass; promises in StripUnchanged, StripShortens, StripPrefix and StripIsOnePass |
| Commands.StripUnchanged | server/main.go:99 | a message without the marker is left as is |
| Commands.StripShortens | server/main.go:99 | removal never lengthens a message; with a marker it removes at least the marker's length |
| Commands.StripPrefix | server/main.go:99 | a leading marker is dropped and the scan goes on after it |
| Commands.NoMarker | server/main.go:98 | a message without a bar carries no rename marker |
| Commands.TokensAreNotRenames | server/main.go:98-101 | a message matched by the switch never renames the player |
| Commands.Decode | server/main.go:96-170 | definition: the rename test, then the switch; promises in DecodeCases and DecodeIdempotent |
| Commands.Receive | server/main.go:93-170 | definition: a text frame is decoded, any other frame is skipped; promise in ReceiveAllIgnores |
| Commands.ReceiveAll | server/main.go:87-172 | definition: the frames in order; promises in ReceiveAllIgnores and ReceiveAllAppend |
| Commands.DecodeCases | server/main.go:96-170 | a message with the marker changes only the name, to the message with every marker removed; a recognised token performs its case; any other message changes nothing |
| Commands.ReceiveAllIgnores | server/main.go:93-95 | frames that are not text change nothing |
| Commands.ReceiveAllAppend | server/main.go:87-172 | the frames of a connection are handled one after another |
| Commands.StatusTokens | server/main.go:102-107 | "pause" and "resume" change the status only |
| Commands.DecodeIdempotent | server/main.go:96-170 | receiving the same message twice has the effect of receiving it once |
| Commands.PerformTwice | server/main.go:101-170 | every case of the switch is idempotent |
| Commands.ReleaseUndoesPress | server/main.go:108-169 | releasing a pad after pressing it restores an intent whose pad keys were clear |
| Commands.Ignored | server/main.go:101-170 | an unknown message with no bar changes nothing |
| Commands.SidewaysHeldIgnored | client/player/main.go:108-119 | the client's "Leftdown" and "Rightdown" messages change nothing on the server |
| Commands.UpDownHeldIgnored | client/player/main.go:120-131 | the client's "Downdown" and "Updown" messages change nothing on the server |
| Commands.ShootIgnored | client/player/main.go:132-134 | the client's "shoot" message changes nothing on the server |
| Commands.RenameExample | server/main.go:98-100 | the rename message for "Ace" sets the name to "Ace" and changes nothing else |
| Commands.StripIsOnePass | server/main.go:99 | removal is one left-to-right pass: a marker split by another marker survives it |
| Game.Player.KeptState | game/game.go:183-185 | a player whose other fields are as before differs only in life and score |
| Game.Player.constructor | game/game.go:223-239 | the player literal of NewPlayer has the defaults of a spawned player |
| Game.Player.MovePlayer | game/game.go:105-152 | the player's fields after the call are exactly Moved of the fields before |
| Game.Player.MoveRight | game/game.go:113-124 | the fields after the right block are ApplyRight of those before |
| Game.Player.MoveLeft | game/game.go:126-137 | the fields after the left block are ApplyLeft of those before |
| Game.Player.MoveUp | game/game.go:139-144 | the fields after the up block are ApplyUp of those before |
| Game.Player.MoveDown | game/game.go:145-150 | the fields after the down block are ApplyDown of those before |
| Game.SwapRemove | game/game.go:211-213 | removal shortens the slice by one; the last element moves into the freed slot; every other slot is kept |
| Game.SwapRemoveKeepsOthers | game/game.go:211-213 | swap-removal keeps every player but the removed one (as multisets) |
| Game.RegistryRoster | game/game.go:55-56 | when map and slice hold the same players, the roster of the slice has the map's keys and finds each player's state |
| Game.RegistryRemove | game/game.go:203-216 | swap-removing a player from the slice and deleting its key keeps map and slice consistent |
| Game.MarkedAll | game/game.go:169-187 | marking bullets player by player over the whole map gives MarkStruck |
| Game.TalliedAll | game/game.go:169-187 | counting hits player by player over the whole map gives HitRoster, and no owner was missing |
| Game.TakenAll | game/game.go:155-164 | after the loop every player has taken its turn, and the bullets gained the whole volley |
| Game.Game.constructor | game/game.go:94-103 | a new game is empty, has no status and no "you", and has the arena as its bounds |
| Game.Game.GetPlayer | game/game.go:218-220 | the result is null exactly when the id is not registered; otherwise it is the registered player with that id |
| Game.Game.SetYou | game/game.go:199-201 | "you" becomes the player with that id, or null; nothing the snapshots share changes |
| Game.Game.Snapshot | game/game.go:54-61 | the value one snapshot serialises; SnapshotMarks and Server.BroadcastsDeliver state what each recipient is sent |
| Game.Game.SnapshotMarks | server/main.go:193-194 | once "you" is set to a registered id, the snapshot is the shared scene with that player marked |
| Game.Game.Scene | game/game.go:54-61 | definition: a snapshot without the marked player; what the recipients get from it is in SnapshotMarks and Server.Server.Broadcast |
| Game.Game.NewPlayer | game/game.go:222-243 | the new player has the spawn defaults, is appended to the slice and filed under its id |
| Game.Game.DeletePlayer | game/game.go:203-216 | the id leaves the map; an unknown id leaves the slice alone; a known one is swap-removed from its slot; the slice loses exactly that player |
| Game.Game.AddBullet | game/game.go:245-257 | one fresh bullet is appended at the end |
| Game.Game.MovePlayers | game/game.go:154-165 | every player takes its turn; the bullets gain the volley of the old states in slice order; the roster becomes TurnRoster of the old one |
| Game.Game.TakeTurns | game/game.go:155-164 | proof structure of MovePlayers (the frame facts kept apart from the loop): every player turns once and the volley is appended |
| Game.Game.TurnsLoop | game/game.go:155-164 | proof structure of MovePlayers: the range loop itself, from no turn taken to every turn taken |
| Game.Game.TakeTurnAt | game/game.go:158-162 | proof structure of MovePlayers: the loop body advances the loop invariant by one player |
| Game.Game.TurnOne | game/game.go:158-162 | proof structure of MovePlayers: the i-th player takes its turn and no other slot changes |
| Game.Game.TakeTurn | game/game.go:158-162 | the loop body on one player: its fields become Turn of the old ones, and its shots are appended |
| Game.Game.MoveBullets | game/game.go:259-293 | the bullets become Advanced of the old ones; the players are untouched |
| Game.Game.ScanHits | game/game.go:169-187 | the scan panics exactly when a hitting bullet's owner is gone; otherwise the players become HitRoster and the bullets MarkStruck of the old ones |
| Game.Game.ScanRoster | game/game.go:169-187 | proof structure of ScanHits: the scan from a given roster, with the map and slice kept |
| Game.Game.ScanKept | game/game.go:169-187 | proof structure of ScanHits: the scan from a given roster, without the frame facts |
| Game.Game.VisitAll | game/game.go:169-187 | the outer loop over the map panics exactly on a missing owner, else completes the tally |
| Game.Game.VisitPlayer | game/game.go:170-187 | one player of the map is skipped if dead, or scanned against every bullet |
| Game.Game.HitPlayer | game/game.go:173-186 | the inner loop tests every bullet against one player |
| Game.Game.TestBullet | game/game.go:174-185 | one bullet is skipped if it is the player's own or outside the box; otherwise it strikes |
| Game.Game.Strike | game/game.go:183-185 | a hit costs the victim a life, exhausts the bullet and credits the owner, or panics on a missing owner |
| Game.Game.Wound | game/game.go:183-184 | the victim loses one life and the bullet is marked exhausted |
| Game.Game.Credit | game/game.go:185 | the owner's score rises by one |
| Game.Game.PurgeBullets | game/game.go:188-196 | the bullets become Swept of the old ones |
| Game.Game.Tick | server/main.go:181-183 | a tick panics exactly on an orphan hit after the moves; otherwise the players are the scanned turned roster, the bullets are the purged, marked, advanced bullets with the volley, and the scene is Ticked of the scene before |
| Game.Game.SceneTicked | server/main.go:181-183 | helper of Tick: a game holding the scanned roster and the purged bullets reads as Ticked of the scene before |
| Game.Game.Fly | server/main.go:181-182 | proof structure of Tick: the moving half, players turn and then bullets advance, the volley included |
| Game.Game.Collision | game/game.go:167-197 | the scan, then the purge unless the scan panicked |
| Game.Game.Purge | game/game.go:188-196 | proof structure of Collision: the purge, with the players left alone |
| GameRules.Ticked | server/main.go:181-183 | definition: one whole tick on a snapshot; Game.Game.Tick proves the game performs it |
| Server.HoldPad | server/main.go:108-169 | a flag case sets exactly the pad's keys to the value |
| Server.Apply | server/main.go:101-170 | the case the switch selects updates the player as Perform says |
| Server.Read | server/main.go:93-170 | one frame changes the player's intent as Receive says |
| Server.ReadAll | server/main.go:87-172 | the read loop over the frames changes the intent as ReceiveAll says |
| Server.Visit | server/main.go:185-206 | definition: the recipient loop from some point on, on values; promises in VisitStops, VisitSends, VisitOnce and VisitReaches |
| Server.Broadcasts | server/main.go:185-206 | definition: the whole recipient loop for one scene; promise in BroadcastsDeliver, and Server.Server.Broadcast performs it |
| Server.VisitStep | server/main.go:185-206 | helper of Server.Server.Broadcast: one iteration of the recipient loop, on values |
| Server.VisitStops | server/main.go:186-189 | the recipient loop stops exactly when an id still to visit has no player |
| Server.VisitSends | server/main.go:190-199 | what was written stays written; every new delivery goes to an unpaused player it visits, with that player marked |
| Server.VisitOnce | server/main.go:185 | visiting distinct ids writes to each at most once |
| Server.VisitReaches | server/main.go:185-206 | unless it stopped, the loop writes to every unpaused player it visits |
| Server.BroadcastsDeliver | server/main.go:185-206 | the loop stops exactly when some connection has no player; it writes only to unpaused players, each its own snapshot, at most once per connection; unless it stopped, every unpaused player gets one |
| Server.Logged | server/main.go:178-208 | helper of Server.Server.Execute: logging one more round keeps the log in step with the broadcasts |
| Server.AddRemove | server/main.go:78-84 | helper of Server.Server.Session: filing a fresh key and deleting it again gives the map back |
| Server.Server.constructor | server/main.go:33-48 | the server starts with no connections and an empty game |
| Server.Server.Accept | server/main.go:73-78 | the new connection is filed under its fresh id |
| Server.Server.Join | server/main.go:85 | the game gets a spawned player for the connection |
| Server.Server.Connect | server/main.go:73-85 | after Connect the id is in both the connections and the game, and no connection became orphaned |
| Server.Server.Disconnect | server/main.go:80-84 | the connection and its player are removed; an id with no player leaves the slice as it was; the only orphan that can disappear is this id |
| Server.Server.Session | server/main.go:73-92 | a whole connection: the player took every frame's intent, and the server's maps are back where they were |
| Server.Server.Broadcast | server/main.go:185-206 | the recipient loop writes exactly what Broadcasts says for the scene the tick left; it stops exactly when some connection is orphaned |
| Server.Server.Round | server/main.go:179-206 | one iteration: a panic exactly on an orphan hit; otherwise the scene is Ticked of the scene before (players in their slots, bullets purged) and exactly that scene is broadcast; it returns exactly when an orphan exists |
| Server.Server.Execute | server/main.go:175-209 | the log holds each round's broadcast; the loop keeps running only while no connection is orphaned |

## Left out

- I/O: the websocket upgrade, the HTTP server and its timeouts, JSON
  marshalling, and write errors are not modelled. A snapshot is the `World`
  value that would be serialised. A read error is the end of the frame
  sequence.
- Concurrency: the read loops and the tick loop run as goroutines with no
  locking. The `sync.Mutex` in MovePlayers is a fresh local, so it protects
  nothing. The model runs each operation whole, one after another, so data
  races are not captured.
- Panics: the nil dereference in the hit scan ends the process. The model
  reports it (`crashed`, `Panicked`) and says nothing about the state
  afterwards.
- Time: `time.Since`, the `dt` argument (MovePlayer ignores it) and the 20 ms
  sleep are left out.
- Server.Server.Round: it states the scene the tick leaves and that
  exactly that scene is broadcast. It does not restate, after the
  broadcast, that the game still holds that scene; the broadcast changes
  only the marked player.
- Server.Server.Execute: it runs for a given number of ticks instead of
  forever. It states the per-round broadcast through `Round`, not one
  lemma over all rounds.
- Numbers:
  - float64 is modelled as real, with no rounding.
  - Life, ReloadTime and Score are integers. The source only ever assigns
    them whole values.
  - A rotation is one of the eight constants or `OtherAngle`, not a float.
- Randomness and identity: `rand.Float64` and `guuid.New` become
  parameters.
- Game.Game.NewPlayer: requires the id to be unregistered, as a fresh UUID
  is; the source would file a second player under a repeated id.
- Commands.Strip requires a non-empty marker; the only marker it is used
  with is "setup|".
- Strings are sequences of characters, not bytes.
- `Camera`, `GameStatus` changes, the logging flag, the command-line
  handling, the UDP server, the client and the tutorials are not part of
  this model.
