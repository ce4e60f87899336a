/**
 * The match mediator of AndWars (package objects): its lifecycle flags, the
 * screen lock that gates input, and the routing of cell taps to the
 * registered listeners.  Every collaborator Game talks to (the renderer, the
 * map, the players, Initialization, TurnManager, the listeners) is abstract.
 * Each command or notification Game sends them is recorded, in order, as an
 * Event in `log`.  Game's queries (the map's cell list, a player's side and
 * colour) are modelled as fixed values.
 */
module Objects {
  import opened Wrappers

  /** Declared by Game; used only by collaborators outside this model. */
  const NumberInitialCells: int := 5
  const NumberMovesPerPlayer: int := 2

  /** Android's Color.BLACK (0xFF000000 read as a signed 32-bit int). */
  const Black: int := -16777216

  datatype GameMode = VsComputer | VsHuman

  datatype GameResult = Blue | Red | Tie

  /** A cell as Game sees it: an identity and its position on the board. */
  datatype Cell = Cell(id: nat, x: int, y: int)

  /** A player as Game sees it: an identity, its side and its border colour. */
  datatype Player = Player(id: nat, isBlue: bool, borderColor: int)

  /** A registered OnCellSelected callback, known only by its identity. */
  datatype Listener = Listener(id: nat)

  /** A move handed to the renderer for highlighting; its contents are Map's business. */
  datatype Move = Move(id: nat)

  datatype PlayerCall = InitializeCall | RestartCall

  /** One call from Game into a collaborator. */
  datatype Event =
    | PlayerCalled(call: PlayerCall, player: Player)
    | MapRestarted
    | MapUnitsUpdated
    | MapRendered
    | MoveRendered(move: Move)
    | TurnNumberRendered(turn: int)
    | ButtonsLocked
    | ButtonsUnlocked
    | EndMessageShown(result: GameResult, color: int)
    | InitializationStarted
    | TurnManagerStarted
    | TurnPassed
    | CellSelected(listener: Listener, cell: Cell)

  /** The same call made on every player, in list order. */
  function PlayerCalls(call: PlayerCall, ps: seq<Player>): (r: seq<Event>)
    ensures |r| == |ps|
    ensures forall i :: 0 <= i < |ps| ==> r[i] == PlayerCalled(call, ps[i])
  {
    if ps == [] then [] else [PlayerCalled(call, ps[0])] + PlayerCalls(call, ps[1..])
  }

  /** One cell handed to every listener, in registration order. */
  function Deliveries(ls: seq<Listener>, c: Cell): (r: seq<Event>)
    ensures |r| == |ls|
    ensures forall i :: 0 <= i < |ls| ==> r[i] == CellSelected(ls[i], c)
  {
    if ls == [] then [] else [CellSelected(ls[0], c)] + Deliveries(ls[1..], c)
  }

  predicate At(c: Cell, x: int, y: int) {
    c.x == x && c.y == y
  }

  /** The index of the first cell, in map order, whose position is (x, y). */
  function FirstAt(cells: seq<Cell>, x: int, y: int): (r: Option<nat>)
    ensures r.Some? ==> r.value < |cells| && At(cells[r.value], x, y)
    ensures r.Some? ==> forall j :: 0 <= j < r.value ==> !At(cells[j], x, y)
    ensures r.None? <==> forall j :: 0 <= j < |cells| ==> !At(cells[j], x, y)
  {
    if cells == [] then None
    else if At(cells[0], x, y) then Some(0)
    else match FirstAt(cells[1..], x, y)
      case None => None
      case Some(k) => Some(k + 1)
  }

  /** What a tap at (x, y) on an unlocked screen sends to the listeners. */
  function ClickDeliveries(cells: seq<Cell>, ls: seq<Listener>, x: int, y: int): (r: seq<Event>)
    ensures |r| == 0 || |r| == |ls|
    ensures forall i :: 0 <= i < |r| ==>
      r[i].CellSelected? && r[i].listener == ls[i] && r[i].cell in cells && At(r[i].cell, x, y)
    ensures r == [] <==> ls == [] || forall j :: 0 <= j < |cells| ==> !At(cells[j], x, y)
  {
    match FirstAt(cells, x, y)
    case None => []
    case Some(k) => Deliveries(ls, cells[k])
  }

  /** A tap delivers exactly the first matching cell, to every listener. */
  lemma ClickDeliversFirstCell(cells: seq<Cell>, ls: seq<Listener>, x: int, y: int, k: nat)
    requires k < |cells| && At(cells[k], x, y)
    requires forall j :: 0 <= j < k ==> !At(cells[j], x, y)
    ensures ClickDeliveries(cells, ls, x, y) == Deliveries(ls, cells[k])
  {
  }

  lemma DeliveriesSnoc(ls: seq<Listener>, l: Listener, c: Cell)
    ensures Deliveries(ls + [l], c) == Deliveries(ls, c) + [CellSelected(l, c)]
  {
  }

  /** A listener registered later is notified after all earlier ones, which keep their order. */
  lemma NewListenerNotifiedLast(cells: seq<Cell>, ls: seq<Listener>, l: Listener, x: int, y: int)
    ensures FirstAt(cells, x, y).None? ==> ClickDeliveries(cells, ls + [l], x, y) == []
    ensures FirstAt(cells, x, y).Some? ==>
      ClickDeliveries(cells, ls + [l], x, y)
      == ClickDeliveries(cells, ls, x, y) + [CellSelected(l, cells[FirstAt(cells, x, y).value])]
  {
  }

  /** Every pass of the turn comes after some turn manager was started. */
  ghost predicate PassesFollowStart(log: seq<Event>) {
    forall i :: 0 <= i < |log| && log[i] == TurnPassed ==> TurnManagerStarted in log[..i]
  }

  lemma ExtendKeepsPassOrder(log: seq<Event>, more: seq<Event>)
    requires PassesFollowStart(log)
    requires TurnPassed in more ==> TurnManagerStarted in log
    ensures PassesFollowStart(log + more)
  {
    var all := log + more;
    forall i | 0 <= i < |all| && all[i] == TurnPassed
      ensures TurnManagerStarted in all[..i]
    {
      if i < |log| {
        assert all[..i] == log[..i];
        assert log[i] == TurnPassed;
      } else {
        assert more[i - |log|] == TurnPassed;
        var j :| 0 <= j < |log| && log[j] == TurnManagerStarted;
        assert all[..i][j] == TurnManagerStarted;
      }
    }
  }

  /** The result shown when `winner` has won: BLUE exactly for the blue side, otherwise RED. */
  function ResultFor(winner: Player): (r: GameResult)
    ensures r == Blue <==> winner.isBlue
    ensures r == Red <==> !winner.isBlue
  {
    if winner.isBlue then Blue else Red
  }

  /** The calls `call` makes on each of `ps`, one at a time (initialize and restartPlayers). */
  method CallPlayers(call: PlayerCall, ps: seq<Player>) returns (calls: seq<Event>)
    ensures calls == PlayerCalls(call, ps)
  {
    calls := [];
    var i := 0;
    while i < |ps|
      invariant 0 <= i <= |ps|
      invariant |calls| == i
      invariant forall j :: 0 <= j < i ==> calls[j] == PlayerCalled(call, ps[j])
    {
      calls := calls + [PlayerCalled(call, ps[i])];
      i := i + 1;
    }
  }

  class Game {
    const mode: GameMode
    /** The cells of the map, in the order the map lists them. */
    const cells: seq<Cell>
    const players: seq<Player>

    /** False until setGameRenderer: before it the renderer reference is null. */
    var hasRenderer: bool
    /** False until gameInitialized has created a turn manager. */
    var hasTurnManager: bool

    var started: bool
    var finished: bool
    var screenLocked: bool
    var listeners: seq<Listener>

    /** Every command or notification sent to a collaborator so far, oldest first. */
    var log: seq<Event>

    ghost predicate Valid()
      reads this
    {
      && |players| <= |log|
      && log[..|players|] == PlayerCalls(InitializeCall, players)
      && (hasTurnManager ==> TurnManagerStarted in log)
      && PassesFollowStart(log)
    }

    /** Locked, neither started nor finished; each player is initialised once, in list order. */
    constructor (mode: GameMode, cells: seq<Cell>, players: seq<Player>)
      ensures this.mode == mode && this.cells == cells && this.players == players
      ensures !started && !finished && screenLocked
      ensures !hasRenderer && !hasTurnManager && listeners == []
      ensures log == PlayerCalls(InitializeCall, players)
      ensures Valid()
    {
      this.mode := mode;
      this.cells := cells;
      this.players := players;
      hasRenderer := false;
      hasTurnManager := false;
      started := false;
      finished := false;
      screenLocked := true;
      listeners := [];
      var calls := CallPlayers(InitializeCall, players);
      log := calls;
      new;
      assert log[..|players|] == log;
    }

    /** Appends calls to collaborators other than the turn manager; a pass needs a started one. */
    method Emit(more: seq<Event>)
      requires Valid()
      requires TurnManagerStarted !in more
      requires TurnPassed in more ==> TurnManagerStarted in log
      modifies this`log
      ensures Valid()
      ensures log == old(log) + more
    {
      ExtendKeepsPassOrder(log, more);
      assert (log + more)[..|players|] == log[..|players|];
      log := log + more;
    }

    method SetGameRenderer()
      requires Valid()
      modifies this`hasRenderer, this`log
      ensures Valid() && hasRenderer
      ensures log == old(log) + [MapRendered]
    {
      hasRenderer := true;
      UpdateMap();
    }

    method Start()
      requires Valid() && hasRenderer
      modifies this`started, this`finished, this`log
      ensures Valid() && started && !finished
      ensures log == old(log) + [MapRendered, InitializationStarted]
    {
      started := true;
      finished := false;
      UpdateMap();
      Emit([InitializationStarted]);
    }

    /** Locks the screen, restarts every player, then resets and redraws the map, then re-runs Initialization. */
    method Restart()
      requires Valid() && hasRenderer
      modifies this`finished, this`screenLocked, this`log
      ensures Valid() && !finished && screenLocked
      ensures log == old(log) + [ButtonsLocked] + PlayerCalls(RestartCall, players)
                     + [MapRestarted, MapRendered, InitializationStarted]
    {
      finished := false;
      LockScreen();
      var calls := CallPlayers(RestartCall, players);
      Emit(calls + [MapRestarted]);
      UpdateMap();
      Emit([InitializationStarted]);
    }

    method LockScreen()
      requires Valid() && hasRenderer
      modifies this`screenLocked, this`log
      ensures Valid() && screenLocked
      ensures log == old(log) + [ButtonsLocked]
    {
      screenLocked := true;
      Emit([ButtonsLocked]);
    }

    /** Unlocks for either argument; the renderer hears of it only when `unlockButtons` holds. */
    method UnlockScreen(unlockButtons: bool)
      requires Valid() && (unlockButtons ==> hasRenderer)
      modifies this`screenLocked, this`log
      ensures Valid() && !screenLocked
      ensures log == old(log) + if unlockButtons then [ButtonsUnlocked] else []
    {
      screenLocked := false;
      if unlockButtons {
        Emit([ButtonsUnlocked]);
      }
    }

    method UpdateMap()
      requires Valid() && hasRenderer
      modifies this`log
      ensures Valid()
      ensures log == old(log) + [MapRendered]
    {
      Emit([MapRendered]);
    }

    method UpdateMapWithMove(move: Move)
      requires Valid() && hasRenderer
      modifies this`log
      ensures Valid()
      ensures log == old(log) + [MoveRendered(move)]
    {
      Emit([MoveRendered(move)]);
    }

    method UpdateTurnNumber(turn: int)
      requires Valid() && hasRenderer
      modifies this`log
      ensures Valid()
      ensures log == old(log) + [TurnNumberRendered(turn)]
    {
      Emit([TurnNumberRendered(turn)]);
    }

    /** While locked nothing happens; otherwise the first cell at (x, y) goes to every listener. */
    method OnClick(x: int, y: int)
      requires Valid()
      modifies this`log
      ensures Valid()
      ensures log == old(log) + if screenLocked then [] else ClickDeliveries(cells, listeners, x, y)
    {
      if !screenLocked {
        var i := 0;
        while i < |cells|
          invariant 0 <= i <= |cells|
          invariant forall j :: 0 <= j < i ==> !At(cells[j], x, y)
          invariant Valid() && log == old(log)
        {
          var cell := cells[i];
          if cell.x == x && cell.y == y {
            NotifyListeners(cell);
            ClickDeliversFirstCell(cells, listeners, x, y, i);
            break;
          }
          i := i + 1;
        }
      }
    }

    /** Hands `cell` to each listener in turn, in registration order. */
    method NotifyListeners(cell: Cell)
      requires Valid()
      modifies this`log
      ensures Valid()
      ensures log == old(log) + Deliveries(listeners, cell)
    {
      var k := 0;
      while k < |listeners|
        invariant 0 <= k <= |listeners|
        invariant Valid()
        invariant log == old(log) + Deliveries(listeners[..k], cell)
      {
        Emit([CellSelected(listeners[k], cell)]);
        DeliveriesSnoc(listeners[..k], listeners[k], cell);
        assert listeners[..k + 1] == listeners[..k] + [listeners[k]];
        k := k + 1;
      }
      assert listeners[..k] == listeners;
    }

    /** Appends: earlier listeners keep their places and are notified first. */
    method AddOnCellSelectedListener(listener: Listener)
      requires Valid()
      modifies this`listeners
      ensures Valid()
      ensures listeners == old(listeners) + [listener]
    {
      listeners := listeners + [listener];
    }

    /** Creates a turn manager and starts it. */
    method GameInitialized()
      requires Valid()
      modifies this`hasTurnManager, this`log
      ensures Valid() && hasTurnManager
      ensures log == old(log) + [TurnManagerStarted]
    {
      ExtendKeepsPassOrder(log, [TurnManagerStarted]);
      assert (log + [TurnManagerStarted])[..|players|] == log[..|players|];
      log := log + [TurnManagerStarted];
      hasTurnManager := true;
    }

    method UpdateUnits()
      requires Valid() && hasRenderer
      modifies this`log
      ensures Valid()
      ensures log == old(log) + [MapUnitsUpdated, MapRendered]
    {
      Emit([MapUnitsUpdated]);
      UpdateMap();
    }

    method GameFinished(winner: Player)
      requires Valid() && hasRenderer
      modifies this`finished, this`log
      ensures Valid() && finished
      ensures log == old(log) + [EndMessageShown(ResultFor(winner), winner.borderColor)]
    {
      finished := true;
      if winner.isBlue {
        Emit([EndMessageShown(Blue, winner.borderColor)]);
      } else {
        Emit([EndMessageShown(Red, winner.borderColor)]);
      }
    }

    method GameTie()
      requires Valid() && hasRenderer
      modifies this`finished, this`log
      ensures Valid() && finished
      ensures log == old(log) + [EndMessageShown(Tie, Black)]
    {
      finished := true;
      Emit([EndMessageShown(Tie, Black)]);
    }

    /** Reaches the turn manager only when unlocked and one exists. */
    method PassTurn()
      requires Valid()
      modifies this`log
      ensures Valid()
      ensures log == old(log) + if !screenLocked && hasTurnManager then [TurnPassed] else []
    {
      if !screenLocked && hasTurnManager {
        Emit([TurnPassed]);
      }
    }
  }
}
