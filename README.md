# AndWars: the Game mediator and the main-menu map carousel

AndWars is a two-player territory-capture game for Android. This project
models two small sequential pieces of it in Dafny and proves properties of
them.

- **`Objects.Game`** (`Game.java`) is the match mediator. It holds the flags
  `started`, `finished` and `screenLocked`, an optional turn manager, the
  players, the map's cells and an ordered list of cell-selection listeners.
  Game's collaborators are the renderer, the map, the players,
  `Initialization`, `TurnManager` and the listeners. Their code is not part
  of this model. Each command or notification Game sends to one of them is
  recorded as an `Event` and appended to the field `log`. So every method's
  contract says exactly which commands and notifications it sends, and in
  what order. Game's two queries are not logged. These are reading the map's
  cell list and asking a player for its side. The model treats their answers
  as fixed values.
- **`Activities.MainMenu`** (`MainMenuActivity.java`) is the map carousel of
  the main menu. It holds the list of map paths read from the asset index and
  the selected index `mapIndex`. The previous and next buttons move that
  index, wrapping around at both ends. Each line of the index is turned into
  a path by replacing `\` with `/`.

Files:
- `wrappers.dfy`: `Option`.
- `game.dfy`: module `Objects`.
- `main_menu.dfy`: module `Activities`.

Modelling decisions:
- Before `setGameRenderer` is called, the source's renderer reference is
  null. So every method that reaches the renderer would throw a
  `NullPointerException` at that point. The model tracks this with
  `hasRenderer`, and those methods require it. `UnlockScreen(false)` does
  not reach the renderer, so it does not require it.
- `Game.Valid()` is kept by every method. It states three things:
  - the log starts with one `initialize` call per player, in list order;
  - a turn manager exists only if one was started, which only
    `GameInitialized` does;
  - every pass of the turn in the log comes after some turn manager was
    started.
- `Restart` does not discard the turn manager. After a restart, `PassTurn`
  still reaches the old one until `GameInitialized` runs again. The model
  keeps this behaviour of the code.
- With an empty map list, `moveIndex(-1)` sets `mapIndex` to `size - 1`,
  which is `-1`. The carousel's invariant therefore allows `-1` and `0` on
  an empty list. In that state `getSelectedMap` would throw, and
  `SelectedMap` returns `None` for it.
- `getMaps` returns an empty list when `asset.index` cannot be read
  (`IOException`). The constructor's `index` parameter is `None` in that
  case.
- `start` neither resets the map nor restarts the players; only `restart`
  does.
- `start` does not take the screen lock. The lock is held from construction
  until a collaborator unlocks it.

## Model

| member | source | states |
|---|---|---|
| `Objects.PlayerCalls` | app/src/main/java/com/mauriciotogneri/andwars/objects/Game.java:64-67 | one call per player, the i-th call on the i-th player, nothing else |
| `Objects.CallPlayers` | app/src/main/java/com/mauriciotogneri/andwars/objects/Game.java:100-106 | the loop over the players makes exactly the calls of `PlayerCalls`, in list order |
| `Objects.Deliveries` | app/src/main/java/com/mauriciotogneri/andwars/objects/Game.java:164-167 | one cell goes to every listener, the i-th delivery to the i-th registered listener |
| `Objects.FirstAt` | app/src/main/java/com/mauriciotogneri/andwars/objects/Game.java:160-169 | the found index holds a cell at (x, y) and no earlier cell is there; none is found exactly when no cell is at (x, y) |
| `Objects.ClickDeliveries` | app/src/main/java/com/mauriciotogneri/andwars/objects/Game.java:158-171 | all listeners or none are called, in registration order, each with a map cell at (x, y); nothing is sent exactly when there are no listeners or no cell matches |
| `Objects.ClickDeliversFirstCell` | app/src/main/java/com/mauriciotogneri/andwars/objects/Game.java:160-169 | when cell k is the first cell at (x, y), a click sends exactly cell k to every listener, and so at most one cell |
| `Objects.DeliveriesSnoc` | app/src/main/java/com/mauriciotogneri/andwars/objects/Game.java:164-167 | sending a cell to one more listener appends one delivery at the end |
| `Objects.NewListenerNotifiedLast` | app/src/main/java/com/mauriciotogneri/andwars/objects/Game.java:174-177 | after one more registration, a click sends what it sent before, then notifies the new listener last; a click that matches no cell still sends nothing |
| `Objects.ExtendKeepsPassOrder` | app/src/main/java/com/mauriciotogneri/andwars/objects/Game.java:217-223 | extending the log keeps every pass after a turn-manager start, as long as a new pass has a start before it |
| `Objects.ResultFor` | app/src/main/java/com/mauriciotogneri/andwars/objects/Game.java:200-207 | the reported result is BLUE exactly when the winner is blue and RED exactly when it is not, so never TIE |
| `Objects.Game.constructor` | app/src/main/java/com/mauriciotogneri/andwars/objects/Game.java:58-68 | a new game is locked, not started, not finished, has no turn manager and no listeners, and has called `initialize` once on each player in list order |
| `Objects.Game.SetGameRenderer` | app/src/main/java/com/mauriciotogneri/andwars/objects/Game.java:70-74 | the renderer is attached and draws the map once |
| `Objects.Game.Start` | app/src/main/java/com/mauriciotogneri/andwars/objects/Game.java:76-85 | `started` set, `finished` cleared, the lock untouched; the map is drawn, then Initialization starts |
| `Objects.Game.Restart` | app/src/main/java/com/mauriciotogneri/andwars/objects/Game.java:87-98 | `finished` cleared and the screen locked, `started` unchanged; the calls are lock buttons, then every player restarted in order, then map reset, redraw and Initialization start |
| `Objects.Game.LockScreen` | app/src/main/java/com/mauriciotogneri/andwars/objects/Game.java:118-122 | `screenLocked` becomes true and the renderer locks its buttons |
| `Objects.Game.UnlockScreen` | app/src/main/java/com/mauriciotogneri/andwars/objects/Game.java:124-132 | `screenLocked` becomes false for either argument; the renderer unlocks buttons only when the argument is true |
| `Objects.Game.UpdateMap` | app/src/main/java/com/mauriciotogneri/andwars/objects/Game.java:139-142 | exactly one redraw of the map, no state change |
| `Objects.Game.UpdateMapWithMove` | app/src/main/java/com/mauriciotogneri/andwars/objects/Game.java:144-147 | exactly one redraw highlighting the given move, no state change |
| `Objects.Game.UpdateTurnNumber` | app/src/main/java/com/mauriciotogneri/andwars/objects/Game.java:149-152 | exactly one turn-number update with the given number, no state change |
| `Objects.Game.OnClick` | app/src/main/java/com/mauriciotogneri/andwars/objects/Game.java:154-172 | locked: no call and no change; unlocked: exactly the deliveries of `ClickDeliveries`, and nothing but the log changes |
| `Objects.Game.NotifyListeners` | app/src/main/java/com/mauriciotogneri/andwars/objects/Game.java:164-167 | the inner loop hands the cell to each listener once, in registration order, and changes nothing but the log |
| `Objects.Game.AddOnCellSelectedListener` | app/src/main/java/com/mauriciotogneri/andwars/objects/Game.java:174-177 | the listener is appended at the end of the list and nothing else changes |
| `Objects.Game.GameInitialized` | app/src/main/java/com/mauriciotogneri/andwars/objects/Game.java:179-183 | a turn manager now exists and has been started once |
| `Objects.Game.UpdateUnits` | app/src/main/java/com/mauriciotogneri/andwars/objects/Game.java:185-189 | the map updates its units, then the map is redrawn |
| `Objects.Game.GameFinished` | app/src/main/java/com/mauriciotogneri/andwars/objects/Game.java:196-208 | `finished` set; one end message with `ResultFor(winner)` and the winner's border colour |
| `Objects.Game.GameTie` | app/src/main/java/com/mauriciotogneri/andwars/objects/Game.java:210-215 | `finished` set; one end message TIE in black |
| `Objects.Game.PassTurn` | app/src/main/java/com/mauriciotogneri/andwars/objects/Game.java:217-223 | the turn manager is called exactly when the screen is unlocked and a turn manager exists; otherwise nothing happens |
| `Activities.Moved` | app/src/main/java/com/mauriciotogneri/andwars/activities/MainMenuActivity.java:80-92 | a step of +1 or -1 from a valid index on a non-empty list stays in `[0, size)`; away from the ends the step is a plain addition |
| `Activities.NextFromLastWrapsToFirst` | app/src/main/java/com/mauriciotogneri/andwars/activities/MainMenuActivity.java:88-90 | next from the last map selects map 0 |
| `Activities.PreviousFromFirstWrapsToLast` | app/src/main/java/com/mauriciotogneri/andwars/activities/MainMenuActivity.java:84-86 | previous from map 0 selects the last map |
| `Activities.PreviousAndNextUndoEachOther` | app/src/main/java/com/mauriciotogneri/andwars/activities/MainMenuActivity.java:68-78 | previous then next, and next then previous, return a valid index to itself |
| `Activities.NormalizePath` | app/src/main/java/com/mauriciotogneri/andwars/activities/MainMenuActivity.java:180 | same length; each backslash becomes a slash and every other character stays; no backslash is left |
| `Activities.NormalizePathIdempotent` | app/src/main/java/com/mauriciotogneri/andwars/activities/MainMenuActivity.java:180 | normalising a normalised path changes nothing |
| `Activities.NormalizePathKeepsCleanLines` | app/src/main/java/com/mauriciotogneri/andwars/activities/MainMenuActivity.java:180 | a line without backslashes is returned unchanged |
| `Activities.ReadIndex` | app/src/main/java/com/mauriciotogneri/andwars/activities/MainMenuActivity.java:167-192 | one path per index line, in file order, each the normalised line |
| `Activities.LoadMaps` | app/src/main/java/com/mauriciotogneri/andwars/activities/MainMenuActivity.java:109-129 | no maps when the index cannot be read; otherwise the index's paths in order |
| `Activities.MainMenu.constructor` | app/src/main/java/com/mauriciotogneri/andwars/activities/MainMenuActivity.java:34-46 | the index starts at 0 and the list holds the loaded maps |
| `Activities.MainMenu.SelectedMap` | app/src/main/java/com/mauriciotogneri/andwars/activities/MainMenuActivity.java:94-97 | the selected map is `maps[mapIndex]`, present exactly when the index is in range |
| `Activities.MainMenu.SelectedMapExists` | app/src/main/java/com/mauriciotogneri/andwars/activities/MainMenuActivity.java:94-97 | on a non-empty list a valid carousel always has a selected map |
| `Activities.MainMenu.MoveIndex` | app/src/main/java/com/mauriciotogneri/andwars/activities/MainMenuActivity.java:80-92 | the new index is `Moved` of the old one; a step of +1 or -1 keeps the carousel valid |
| `Activities.MainMenu.PreviousMap` | app/src/main/java/com/mauriciotogneri/andwars/activities/MainMenuActivity.java:68-72 | one step back with wrap-around; returns the map then shown |
| `Activities.MainMenu.NextMap` | app/src/main/java/com/mauriciotogneri/andwars/activities/MainMenuActivity.java:74-78 | one step on with wrap-around; returns the map then shown |

## Left out

- Map, Cell, Player, TurnManager and Initialization are not part of this model. Their internals (combat, production, turns, the AI, initial cell assignment) are therefore not modelled. Game's calls into them are recorded only as events.
- Renderer behaviour (`update`, `lockButtons`, `unlockButtons`, `showEndMessage`, `updateTurnNumber`): these are foreign calls, recorded as events only.
- Re-entrant calls, where a collaborator calls back into Game during one of Game's calls. Examples are a listener registering another listener while a click is being delivered, or `Initialization.start` calling `gameInitialized` synchronously. The model treats each such callback as a separate, later call.
- The `synchronized` modifier on the lock methods: this is concurrency, and every call is modelled as sequential.
- The getters `isStarted`, `isFinished`, `isScreenLocked` and `getMap`: in the model they are the fields `started`, `finished`, `screenLocked` and `cells`, which can be read directly.
- `GameResult` string resource ids and colour values: the model keeps only BLUE, RED and TIE, a player's border colour as an int, and black.
- `NUMBER_INITIAL_CELLS` and `NUMBER_MOVES_PER_PLAYER`: declared as constants only. Game itself never uses them.
- Reading `asset.index` through `AssetManager` and `BufferedReader`, including the splitting into lines and the closing of the reader: this is I/O. The model starts from the lines, or from `None` when reading fails.
- Constructing a `Map` from a path: this is I/O. A map is identified by its path.
- Android lifecycle and UI plumbing in the main menu: `onCreate`'s views, `onResume`'s `Handler.post`, `startGame`'s `Intent`, the help dialog and the menus. `updateMap`'s drawing of the selected map is also left out; `PreviousMap` and `NextMap` return the map it would draw.
- Queries to collaborators are not logged. `map.getCells()`, read on every click, is the fixed list `Game.cells`. A player's `isBlue()` and `borderColor` are the fixed fields `Player.isBlue` and `Player.borderColor`. The model therefore does not capture a map whose cell list changes between clicks, or a player whose side changes.
- Objects.Game.Start, Objects.Game.Restart, Objects.Game.LockScreen, Objects.Game.UnlockScreen (with `true`), Objects.Game.UpdateMap, Objects.Game.UpdateMapWithMove, Objects.Game.UpdateTurnNumber, Objects.Game.UpdateUnits, Objects.Game.GameFinished, Objects.Game.GameTie: these require `hasRenderer`. The source instead throws a `NullPointerException` when no renderer is set, possibly after changing some flags; that path is not modelled. `Objects.Game.SetGameRenderer` takes no argument, so `setGameRenderer(null)` and swapping in a second renderer are not represented.
- Activities.MainMenu.MoveIndex: does not model 32-bit wrap-around of `mapIndex + value`. The only arguments the source passes are 1 and -1, and the index stays in range, so it cannot occur.
