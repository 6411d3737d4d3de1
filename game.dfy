/** The misère subtraction game engine: NimGame with its turn state machine.
    The class holds the fields the source mutates; each of its methods is
    specified by a function on GameState, the value of those fields, and the
    rules of the game are proved about those functions. */
module Game {
  import opened Strategies

  const DEFAULT_INITIAL_PILE_SIZE: int := 13
  const DEFAULT_MAX_NIM_COUNT: int := 3

  datatype Status = Ongoing | PlayerWon | ComputerWon

  /** Which of takeTurn's two checks rejected a move. */
  datatype IllegalMoveReason = OutOfRange | ExceedsPile

  /** IllegalMoveException, WrongTurnException, and the runtime exception a
      strategy raises when its arithmetic or its random draw is undefined. */
  datatype GameError = IllegalMove(reason: IllegalMoveReason) | WrongTurn | StrategyFailure

  datatype Result<T> = Ok(value: T) | Err(error: GameError)

  /** The configuration and the running state of a NimGame. */
  datatype GameState = GameState(
    initialPileSize: int,
    maxNimCount: int,
    currentPileSize: int,
    isPlayersTurn: bool,
    lastComputerMove: int)

  /** A freshly constructed game: full pile, player's turn, no computer move yet. */
  function NewGame(initialPileSize: int, maxNimCount: int): (g: GameState)
    ensures g.initialPileSize == g.currentPileSize == initialPileSize && g.maxNimCount == maxNimCount
    ensures g.isPlayersTurn && g.lastComputerMove == 0
  {
    GameState(initialPileSize, maxNimCount, initialPileSize, true, 0)
  }

  /** The status of the game: an empty pile is won by whoever is to move next. */
  function StatusOf(g: GameState): (s: Status)
    ensures s == PlayerWon <==> g.currentPileSize == 0 && g.isPlayersTurn
    ensures s == ComputerWon <==> g.currentPileSize == 0 && !g.isPlayersTurn
    ensures s == Ongoing <==> g.currentPileSize != 0
  {
    if g.currentPileSize == 0 then
      if g.isPlayersTurn then PlayerWon else ComputerWon
    else
      Ongoing
  }

  /** A move the rules admit: between 1 and the maximum, and no more than the pile. */
  predicate LegalMove(g: GameState, nimCount: int)
  {
    1 <= nimCount <= g.maxNimCount && nimCount <= g.currentPileSize
  }

  /** The private takeTurn: both checks run before the pile and the turn change. */
  function ApplyMove(g: GameState, nimCount: int): (r: Result<GameState>)
    ensures r.Ok? <==> LegalMove(g, nimCount)
    ensures r.Err? ==> r.error == IllegalMove(if 1 <= nimCount <= g.maxNimCount then ExceedsPile else OutOfRange)
    ensures r.Ok? ==> 0 <= r.value.currentPileSize < g.currentPileSize
    ensures r.Ok? ==> r.value == g.(currentPileSize := g.currentPileSize - nimCount, isPlayersTurn := !g.isPlayersTurn)
  {
    if !(1 <= nimCount <= g.maxNimCount) then
      Err(IllegalMove(OutOfRange))
    else if nimCount > g.currentPileSize then
      Err(IllegalMove(ExceedsPile))
    else
      Ok(g.(currentPileSize := g.currentPileSize - nimCount, isPlayersTurn := !g.isPlayersTurn))
  }

  /** takePlayerTurn, as a function of the state before the move. */
  function PlayerMove(g: GameState, nimCount: int): (r: Result<GameState>)
    ensures !g.isPlayersTurn ==> r == Err(WrongTurn)
    ensures g.isPlayersTurn ==> r == ApplyMove(g, nimCount)
    ensures r.Ok? <==> g.isPlayersTurn && LegalMove(g, nimCount)
    ensures r.Ok? ==> r.value.currentPileSize == g.currentPileSize - nimCount && !r.value.isPlayersTurn
    ensures r.Ok? ==> r.value.lastComputerMove == g.lastComputerMove
                      && r.value.initialPileSize == g.initialPileSize && r.value.maxNimCount == g.maxNimCount
  {
    if !g.isPlayersTurn then Err(WrongTurn) else ApplyMove(g, nimCount)
  }

  /** takeComputerTurn: the strategy's count goes through the same checks,
      and lastComputerMove is written only once the move was accepted. */
  function ComputerMove(g: GameState, strategy: Strategy, draw: int): (r: Result<GameState>)
    requires strategy.Random? ==> ValidDraw(g.maxNimCount, draw)
    ensures g.isPlayersTurn ==> r == Err(WrongTurn)
    ensures !g.isPlayersTurn ==>
              var m := CalculateMove(strategy, g.currentPileSize, g.maxNimCount, draw);
              && (m.None? ==> r == Err(StrategyFailure))
              && (m.Some? ==> (r.Ok? <==> LegalMove(g, m.value)))
              && (m.Some? && r.Err? ==> r.error == ApplyMove(g, m.value).error)
              && (m.Some? && r.Ok? ==> r.value.lastComputerMove == m.value)
    ensures r.Ok? ==> !g.isPlayersTurn && r.value.isPlayersTurn
    ensures r.Ok? ==> 1 <= r.value.lastComputerMove <= g.maxNimCount
                      && r.value.currentPileSize == g.currentPileSize - r.value.lastComputerMove >= 0
                      && r.value.initialPileSize == g.initialPileSize && r.value.maxNimCount == g.maxNimCount
    ensures !g.isPlayersTurn && g.currentPileSize >= 1 && g.maxNimCount >= 1 && strategy.WinOriented? ==> r.Ok?
  {
    if g.isPlayersTurn then
      Err(WrongTurn)
    else
      match CalculateMove(strategy, g.currentPileSize, g.maxNimCount, draw)
      case None => Err(StrategyFailure)
      case Some(nimCount) =>
        match ApplyMove(g, nimCount)
        case Err(e) => Err(e)
        case Ok(g') => Ok(g'.(lastComputerMove := nimCount))
  }

  /** reset: back to the configured initial pile, the player to move. */
  function ResetState(g: GameState): (r: GameState)
    ensures r == NewGame(g.initialPileSize, g.maxNimCount)
  {
    g.(lastComputerMove := 0, currentPileSize := g.initialPileSize, isPlayersTurn := true)
  }

  /** The state a method leaves behind: the new state if the move was
      accepted, the old one untouched otherwise. */
  function After(g: GameState, r: Result<GameState>): GameState
  {
    if r.Ok? then r.value else g
  }

  /** What takePlayerTurn and takeComputerTurn return: the status after the
      move, or the error they throw. */
  function StatusResult(r: Result<GameState>): Result<Status>
  {
    if r.Ok? then Ok(StatusOf(r.value)) else Err(r.error)
  }

  class NimGame {
    var initialPileSize: int
    var maxNimCount: int
    var computerStrategy: Strategy
    var lastComputerMove: int
    var currentPileSize: int
    var isPlayersTurn: bool

    function State(): GameState
      reads this
    {
      GameState(initialPileSize, maxNimCount, currentPileSize, isPlayersTurn, lastComputerMove)
    }

    constructor (initialPileSize: int, maxNimCount: int)
      ensures State() == NewGame(initialPileSize, maxNimCount)
      ensures computerStrategy == WinOriented
    {
      this.initialPileSize := initialPileSize;
      this.maxNimCount := maxNimCount;
      computerStrategy := WinOriented;
      lastComputerMove := 0;
      currentPileSize := initialPileSize;
      isPlayersTurn := true;
    }

    /** checkGameStatus: reads the fields, changes nothing. */
    function CheckGameStatus(): (s: Status)
      reads this
      ensures s == PlayerWon <==> currentPileSize == 0 && isPlayersTurn
      ensures s == ComputerWon <==> currentPileSize == 0 && !isPlayersTurn
      ensures s == Ongoing <==> currentPileSize != 0
    {
      StatusOf(State())
    }

    method TakePlayerTurn(nimCount: int) returns (r: Result<Status>)
      modifies this
      ensures State() == After(old(State()), PlayerMove(old(State()), nimCount))
      ensures r == StatusResult(PlayerMove(old(State()), nimCount))
      ensures computerStrategy == old(computerStrategy)
    {
      if !isPlayersTurn {
        return Err(WrongTurn);
      }
      var outcome := TakeTurn(nimCount);
      if outcome.Err? {
        return Err(outcome.error);
      }
      r := Ok(CheckGameStatus());
    }

    method TakeComputerTurn(draw: int) returns (r: Result<Status>)
      requires computerStrategy.Random? ==> ValidDraw(maxNimCount, draw)
      modifies this
      ensures State() == After(old(State()), ComputerMove(old(State()), old(computerStrategy), draw))
      ensures r == StatusResult(ComputerMove(old(State()), old(computerStrategy), draw))
      ensures computerStrategy == old(computerStrategy)
    {
      if isPlayersTurn {
        return Err(WrongTurn);
      }
      var move := CalculateMove(computerStrategy, currentPileSize, maxNimCount, draw);
      if move.None? {
        return Err(StrategyFailure);
      }
      var nimCount := move.value;
      var outcome := TakeTurn(nimCount);
      if outcome.Err? {
        return Err(outcome.error);
      }
      lastComputerMove := nimCount;
      r := Ok(CheckGameStatus());
    }

    /** takeTurn: checks the count against the rules, then takes it off the
        pile and passes the turn; a rejected count changes nothing. */
    method TakeTurn(nimCount: int) returns (r: Result<int>)
      modifies this
      ensures State() == After(old(State()), ApplyMove(old(State()), nimCount))
      ensures r.Ok? == ApplyMove(old(State()), nimCount).Ok?
      ensures r.Err? ==> r.error == ApplyMove(old(State()), nimCount).error
      ensures r.Ok? ==> r.value == nimCount
      ensures computerStrategy == old(computerStrategy)
    {
      if !(1 <= nimCount <= maxNimCount) {
        return Err(IllegalMove(OutOfRange));
      }
      if nimCount > currentPileSize {
        return Err(IllegalMove(ExceedsPile));
      }
      currentPileSize := currentPileSize - nimCount;
      isPlayersTurn := !isPlayersTurn;
      r := Ok(nimCount);
    }

    method SetState(isPlayersTurn: bool, currentPileSize: int, lastComputerMove: int)
      modifies this
      ensures State() == old(State()).(isPlayersTurn := isPlayersTurn, currentPileSize := currentPileSize,
                                       lastComputerMove := lastComputerMove)
      ensures computerStrategy == old(computerStrategy)
    {
      this.isPlayersTurn := isPlayersTurn;
      this.currentPileSize := currentPileSize;
      this.lastComputerMove := lastComputerMove;
    }

    method Reset()
      modifies this
      ensures State() == ResetState(old(State()))
      ensures computerStrategy == old(computerStrategy)
    {
      lastComputerMove := 0;
      currentPileSize := initialPileSize;
      isPlayersTurn := true;
    }
  }

  // Properties of the rules.

  /** No move is accepted once the game is over, and while it is ongoing
      (on a non-negative pile, with a positive maximum) taking one token is. */
  lemma FinishedIffNoMove(g: GameState)
    requires g.currentPileSize >= 0 && g.maxNimCount >= 1
    ensures StatusOf(g) != Ongoing <==> forall n :: !LegalMove(g, n)
    ensures StatusOf(g) == Ongoing ==> ApplyMove(g, 1).Ok?
  {
    if StatusOf(g) == Ongoing {
      assert LegalMove(g, 1);
    }
  }

  /** A finished game stays finished: both kinds of turn are rejected and so
      leave the state as it is, until a reset. */
  lemma FinishedIsFinal(g: GameState, nimCount: int, strategy: Strategy, draw: int)
    requires StatusOf(g) != Ongoing
    requires strategy.Random? ==> ValidDraw(g.maxNimCount, draw)
    ensures PlayerMove(g, nimCount).Err?
    ensures ComputerMove(g, strategy, draw).Err?
  {
  }

  /** Turns alternate: in any one state at most one side may move; an
      accepted player move hands the turn to the computer, and an accepted
      computer move hands it back; neither side may move twice in a row. */
  lemma TurnsAlternate(g: GameState, nimCount: int, strategy: Strategy, draw: int)
    requires strategy.Random? ==> ValidDraw(g.maxNimCount, draw)
    ensures PlayerMove(g, nimCount).Ok? ==> ComputerMove(g, strategy, draw) == Err(WrongTurn)
    ensures ComputerMove(g, strategy, draw).Ok? ==> PlayerMove(g, nimCount) == Err(WrongTurn)
    ensures PlayerMove(g, nimCount).Ok? ==> PlayerMove(PlayerMove(g, nimCount).value, nimCount) == Err(WrongTurn)
    ensures PlayerMove(g, nimCount).Ok? ==> ComputerMove(PlayerMove(g, nimCount).value, strategy, draw) != Err(WrongTurn)
    ensures ComputerMove(g, strategy, draw).Ok? ==>
              && PlayerMove(ComputerMove(g, strategy, draw).value, nimCount) != Err(WrongTurn)
              && ComputerMove(ComputerMove(g, strategy, draw).value, strategy, draw) == Err(WrongTurn)
  {
  }

  /** A non-negative pile that does not exceed the initial pile stays so
      under every turn; setState and configureGame can break it, reset
      restores it. */
  ghost predicate WithinBounds(g: GameState)
  {
    0 <= g.currentPileSize <= g.initialPileSize
  }

  lemma TurnsKeepBounds(g: GameState, nimCount: int, strategy: Strategy, draw: int)
    requires WithinBounds(g)
    requires strategy.Random? ==> ValidDraw(g.maxNimCount, draw)
    ensures WithinBounds(After(g, PlayerMove(g, nimCount)))
    ensures WithinBounds(After(g, ComputerMove(g, strategy, draw)))
    ensures g.initialPileSize >= 0 ==> WithinBounds(ResetState(g))
  {
  }

  /** Reset is idempotent and starts an ongoing game when the initial pile
      is not empty. */
  lemma ResetIdempotent(g: GameState)
    ensures ResetState(ResetState(g)) == ResetState(g)
    ensures g.initialPileSize != 0 ==> StatusOf(ResetState(g)) == Ongoing
  {
  }

  /** Worked values from the default game. */
  lemma GameExamples()
    ensures var g := NewGame(DEFAULT_INITIAL_PILE_SIZE, DEFAULT_MAX_NIM_COUNT);
            && StatusOf(g) == Ongoing
            && PlayerMove(g, 0) == Err(IllegalMove(OutOfRange))
            && PlayerMove(g, -3) == Err(IllegalMove(OutOfRange))
            && PlayerMove(g, 4) == Err(IllegalMove(OutOfRange))
            && PlayerMove(g, 3) == Ok(g.(currentPileSize := 10, isPlayersTurn := false))
            && ComputerMove(g, WinOriented, 0) == Err(WrongTurn)
    ensures var g := NewGame(DEFAULT_INITIAL_PILE_SIZE, DEFAULT_MAX_NIM_COUNT).(currentPileSize := 2);
            PlayerMove(g, 3) == Err(IllegalMove(ExceedsPile))
    ensures var g := NewGame(DEFAULT_INITIAL_PILE_SIZE, DEFAULT_MAX_NIM_COUNT).(currentPileSize := 3);
            && StatusOf(PlayerMove(g, 3).value) == ComputerWon
            && var g' := ComputerMove(PlayerMove(g, 2).value, WinOriented, 0).value;
               StatusOf(g') == PlayerWon && g'.lastComputerMove == 1 && g'.currentPileSize == 0
  {
    var g := NewGame(DEFAULT_INITIAL_PILE_SIZE, DEFAULT_MAX_NIM_COUNT).(currentPileSize := 3);
    assert WinOrientedMove(1, 3) == 1 by { WinOrientedExamples(); }
  }
}
