/** NimService: drives one NimGame from the player's side (a player move,
    then the computer's reply while the game goes on), projects its state for
    the client, and copies it to and from a single stored snapshot. The store
    is a field holding at most one NimPersistence record. */
module Service {
  import opened Strategies
  import opened Game

  /** The persisted record (its singleton key is implicit in the store). */
  datatype NimPersistence = NimPersistence(
    initialPileSize: int,
    maxNimCount: int,
    lastComputerMove: int,
    currentPileSize: int,
    isPlayersTurn: bool)

  /** What the client sees of the game. */
  datatype NimState = NimState(pile: int, status: Status, maxNimCount: int, lastComputerMove: int)

  /** A configuration request; nothing in the core validates its values. */
  datatype NimConfig = NimConfig(initialPileSize: int, maxNimCount: int)

  /** What one takePlayerTurn request does to the game: it completes, and the
      state is persisted and returned, or it throws, and the game keeps
      whatever moves were already applied while the store is left alone. */
  datatype TurnOutcome = Completed(game: GameState) | Failed(game: GameState, error: GameError)

  /** persistGame: every field of the game copied into the record. */
  function Snapshot(g: GameState): (p: NimPersistence)
    ensures p.initialPileSize == g.initialPileSize && p.maxNimCount == g.maxNimCount
    ensures p.currentPileSize == g.currentPileSize && p.isPlayersTurn == g.isPlayersTurn
    ensures p.lastComputerMove == g.lastComputerMove
  {
    NimPersistence(g.initialPileSize, g.maxNimCount, g.lastComputerMove, g.currentPileSize, g.isPlayersTurn)
  }

  /** init: a stored record is restored field by field; without one the
      service starts a default game. */
  function Restore(stored: Option<NimPersistence>): (g: GameState)
    ensures stored.Some? ==> Snapshot(g) == stored.value
    ensures stored.None? ==> g == NewGame(DEFAULT_INITIAL_PILE_SIZE, DEFAULT_MAX_NIM_COUNT)
  {
    match stored
    case None => NewGame(DEFAULT_INITIAL_PILE_SIZE, DEFAULT_MAX_NIM_COUNT)
    case Some(p) =>
      NewGame(p.initialPileSize, p.maxNimCount)
        .(isPlayersTurn := p.isPlayersTurn, currentPileSize := p.currentPileSize, lastComputerMove := p.lastComputerMove)
  }

  /** currentState, as a function of the game state. */
  function StateOf(g: GameState): (s: NimState)
    ensures s.pile == g.currentPileSize && s.maxNimCount == g.maxNimCount
    ensures s.lastComputerMove == g.lastComputerMove
    ensures s.status == Ongoing <==> g.currentPileSize != 0
    ensures s.status == PlayerWon <==> g.currentPileSize == 0 && g.isPlayersTurn
  {
    NimState(g.currentPileSize, StatusOf(g), g.maxNimCount, g.lastComputerMove)
  }

  /** configureGame: only the two configuration values change. */
  function Configure(g: GameState, config: NimConfig): (r: GameState)
    ensures r.currentPileSize == g.currentPileSize && r.isPlayersTurn == g.isPlayersTurn
    ensures r.lastComputerMove == g.lastComputerMove
    ensures r.initialPileSize == config.initialPileSize && r.maxNimCount == config.maxNimCount
  {
    g.(initialPileSize := config.initialPileSize, maxNimCount := config.maxNimCount)
  }

  /** takePlayerTurn: the player's move, then the computer's reply only if the
      player's move left the game ongoing. */
  function ServiceTurn(g: GameState, strategy: Strategy, nimCount: int, draw: int): (o: TurnOutcome)
    requires strategy.Random? ==> ValidDraw(g.maxNimCount, draw)
    ensures !g.isPlayersTurn ==> o == Failed(g, WrongTurn)
    ensures o.Completed? ==> o.game.isPlayersTurn || StatusOf(o.game) == ComputerWon
    ensures o.game.currentPileSize <= g.currentPileSize
  {
    match PlayerMove(g, nimCount)
    case Err(e) => Failed(g, e)
    case Ok(g1) =>
      if StatusOf(g1) != Ongoing then
        Completed(g1)
      else
        match ComputerMove(g1, strategy, draw)
        case Err(e) => Failed(g1, e)
        case Ok(g2) => Completed(g2)
  }

  /** The client's answer to a takePlayerTurn request. */
  function TurnResponse(o: TurnOutcome): Result<NimState>
  {
    if o.Completed? then Ok(StateOf(o.game)) else Err(o.error)
  }

  class NimService {
    const nimGame: NimGame
    var store: Option<NimPersistence>

    constructor (stored: Option<NimPersistence>)
      ensures store == stored
      ensures nimGame.State() == Restore(stored) && nimGame.computerStrategy == WinOriented
      ensures fresh(nimGame)
    {
      store := stored;
      match stored
      case None =>
        nimGame := new NimGame(DEFAULT_INITIAL_PILE_SIZE, DEFAULT_MAX_NIM_COUNT);
      case Some(p) =>
        var game := new NimGame(p.initialPileSize, p.maxNimCount);
        game.SetState(p.isPlayersTurn, p.currentPileSize, p.lastComputerMove);
        nimGame := game;
    }

    /** currentState: a read-only projection of the game. */
    function CurrentState(): (s: NimState)
      reads nimGame
      ensures s.pile == nimGame.currentPileSize && s.maxNimCount == nimGame.maxNimCount
      ensures s.lastComputerMove == nimGame.lastComputerMove
      ensures s.status == nimGame.CheckGameStatus()
      ensures s.status == PlayerWon <==> nimGame.currentPileSize == 0 && nimGame.isPlayersTurn
      ensures s.status == ComputerWon <==> nimGame.currentPileSize == 0 && !nimGame.isPlayersTurn
      ensures s.status == Ongoing <==> nimGame.currentPileSize != 0
    {
      StateOf(nimGame.State())
    }

    method TakePlayerTurn(nimCount: int, draw: int) returns (r: Result<NimState>)
      requires nimGame.computerStrategy.Random? ==> ValidDraw(nimGame.maxNimCount, draw)
      modifies this, nimGame
      ensures var o := ServiceTurn(old(nimGame.State()), old(nimGame.computerStrategy), nimCount, draw);
              && nimGame.State() == o.game
              && r == TurnResponse(o)
              && store == (if o.Completed? then Some(Snapshot(o.game)) else old(store))
      ensures nimGame.computerStrategy == old(nimGame.computerStrategy)
    {
      var status := nimGame.TakePlayerTurn(nimCount);
      if status.Err? {
        return Err(status.error);
      }
      if status.value == Ongoing {
        var reply := nimGame.TakeComputerTurn(draw);
        if reply.Err? {
          return Err(reply.error);
        }
      }
      PersistGame();
      r := Ok(CurrentState());
    }

    method ResetGame() returns (s: NimState)
      modifies this, nimGame
      ensures nimGame.State() == ResetState(old(nimGame.State()))
      ensures store == Some(Snapshot(nimGame.State()))
      ensures s == StateOf(nimGame.State())
      ensures nimGame.computerStrategy == old(nimGame.computerStrategy)
    {
      nimGame.Reset();
      PersistGame();
      s := CurrentState();
    }

    method ConfigureGame(config: NimConfig)
      modifies this, nimGame
      ensures nimGame.State() == Configure(old(nimGame.State()), config)
      ensures store == Some(Snapshot(nimGame.State()))
      ensures nimGame.computerStrategy == old(nimGame.computerStrategy)
    {
      nimGame.initialPileSize := config.initialPileSize;
      nimGame.maxNimCount := config.maxNimCount;
      PersistGame();
    }

    /** persistGame: the stored record is overwritten with the game's fields. */
    method PersistGame()
      modifies this
      ensures store == Some(Snapshot(nimGame.State()))
    {
      var persistence := NimPersistence(0, 0, 0, 0, false);
      if store.Some? {
        persistence := store.value;
      }
      persistence := persistence.(currentPileSize := nimGame.currentPileSize);
      persistence := persistence.(isPlayersTurn := nimGame.isPlayersTurn);
      persistence := persistence.(lastComputerMove := nimGame.lastComputerMove);
      persistence := persistence.(initialPileSize := nimGame.initialPileSize);
      persistence := persistence.(maxNimCount := nimGame.maxNimCount);
      store := Some(persistence);
    }
  }

  // Persistence.

  /** Restoring the snapshot persistGame writes gives back the same game,
      and persisting a restored game writes back the same record. */
  lemma SnapshotRoundTrip(g: GameState, p: NimPersistence)
    ensures Restore(Some(Snapshot(g))) == g
    ensures Snapshot(Restore(Some(p))) == p
  {
  }

  /** Without a stored record the game is the default one. */
  lemma DefaultGame()
    ensures Restore(None) == GameState(13, 3, 13, true, 0)
    ensures StateOf(Restore(None)) == NimState(13, Ongoing, 3, 0)
  {
  }

  // Sequencing of the two turns.

  /** A rejected player move is reported, with the game untouched. */
  lemma RejectedMoveChangesNothing(g: GameState, strategy: Strategy, nimCount: int, draw: int)
    requires strategy.Random? ==> ValidDraw(g.maxNimCount, draw)
    requires !g.isPlayersTurn || !LegalMove(g, nimCount)
    ensures ServiceTurn(g, strategy, nimCount, draw) == Failed(g, PlayerMove(g, nimCount).error)
  {
  }

  /** A player move that ends the game gets no reply: the computer's last
      move stays as it was and the game is won by the computer. */
  lemma FinishingMoveGetsNoReply(g: GameState, strategy: Strategy, nimCount: int, draw: int)
    requires strategy.Random? ==> ValidDraw(g.maxNimCount, draw)
    requires g.isPlayersTurn && LegalMove(g, nimCount) && nimCount == g.currentPileSize
    ensures var o := ServiceTurn(g, strategy, nimCount, draw);
            o.Completed? && o.game.lastComputerMove == g.lastComputerMove
            && o.game.currentPileSize == 0 && StatusOf(o.game) == ComputerWon
  {
  }

  /** A player move that leaves tokens is answered: with the win-oriented
      strategy always, with the random one whenever its range is non-empty;
      afterwards it is the player's turn and the computer has taken at least
      one token. The only reply that can fail is the random one with a
      maximum of 1, and then the player's move stays applied. */
  lemma OngoingMoveGetsReply(g: GameState, strategy: Strategy, nimCount: int, draw: int)
    requires strategy.Random? ==> ValidDraw(g.maxNimCount, draw)
    requires g.isPlayersTurn && LegalMove(g, nimCount) && nimCount < g.currentPileSize
    ensures var o := ServiceTurn(g, strategy, nimCount, draw);
            o.Failed? <==> strategy.Random? && g.maxNimCount == 1
    ensures var o := ServiceTurn(g, strategy, nimCount, draw);
            o.Completed? ==> o.game.isPlayersTurn && o.game.lastComputerMove >= 1
                             && o.game.currentPileSize == g.currentPileSize - nimCount - o.game.lastComputerMove
    ensures var o := ServiceTurn(g, strategy, nimCount, draw);
            o.Failed? ==> o == Failed(PlayerMove(g, nimCount).value, StrategyFailure)
  {
    var g1 := PlayerMove(g, nimCount).value;
    assert StatusOf(g1) == Ongoing;
    if strategy.Random? && g.maxNimCount >= 2 {
      StrategyProposesLegalMove(strategy, g1.currentPileSize, g1.maxNimCount, draw);
    }
  }

  /** The pile never grows during a request, and a request that goes through
      takes at least one token. */
  lemma ServiceTurnShrinksPile(g: GameState, strategy: Strategy, nimCount: int, draw: int)
    requires strategy.Random? ==> ValidDraw(g.maxNimCount, draw)
    ensures var o := ServiceTurn(g, strategy, nimCount, draw);
            && o.game.currentPileSize <= g.currentPileSize
            && (o.Completed? ==> o.game.currentPileSize < g.currentPileSize)
            && o.game.initialPileSize == g.initialPileSize && o.game.maxNimCount == g.maxNimCount
  {
  }

  /** configureGame leaves the running game alone; the next reset starts the
      configured game. */
  lemma ConfigureTakesEffectOnReset(g: GameState, config: NimConfig)
    ensures StateOf(Configure(g, config)) == StateOf(g).(maxNimCount := config.maxNimCount)
    ensures config.initialPileSize >= 1 ==>
              StateOf(ResetState(Configure(g, config))) == NimState(config.initialPileSize, Ongoing, config.maxNimCount, 0)
  {
  }

  // The win-oriented strategy against any sequence of requests.

  /** The player is to move on a pile that is 1 modulo max + 1: a lost
      position in the misère game when the computer answers well. */
  ghost predicate PlayerLoses(g: GameState)
  {
    && g.isPlayersTurn && g.maxNimCount >= 1 && g.currentPileSize >= 1
    && g.currentPileSize % (g.maxNimCount + 1) == 1
  }

  /** Every move from a pile that is 1 modulo max + 1 leaves a pile that is
      not, unless it empties the pile. */
  lemma MoveLeavesLosingResidue(pile: int, maxNimCount: int, nimCount: int)
    requires maxNimCount >= 1 && 1 <= nimCount <= maxNimCount && nimCount < pile
    requires pile % (maxNimCount + 1) == 1
    ensures (pile - nimCount) % (maxNimCount + 1) != 1
  {
    var m := maxNimCount + 1;
    var q := pile / m;
    assert pile == q * m + 1;
    if nimCount == 1 {
      ModUnique(pile - nimCount, m, q, 0);
    } else {
      MulSucc(q - 1, m);
      ModUnique(pile - nimCount, m, q - 1, m + 1 - nimCount);
    }
  }

  /** A player move from a pile that is 1 modulo max + 1, answered by the
      win-oriented strategy, leaves a non-empty pile that is 1 modulo max + 1. */
  lemma ReplyRestoresLosingResidue(pile: int, maxNimCount: int, nimCount: int)
    requires maxNimCount >= 1 && 1 <= nimCount <= maxNimCount && nimCount < pile
    requires pile % (maxNimCount + 1) == 1
    ensures var rest := pile - nimCount;
            && 1 <= WinOrientedMove(rest, maxNimCount) < rest
            && (rest - WinOrientedMove(rest, maxNimCount)) % (maxNimCount + 1) == 1
  {
    var rest := pile - nimCount;
    MoveLeavesLosingResidue(pile, maxNimCount, nimCount);
    WinOrientedReachesLosingResidue(rest, maxNimCount);
    assert 0 % (maxNimCount + 1) == 0;
  }

  /** One request from a lost position, answered by the win-oriented strategy,
      ends in a computer win or in another lost position for the player. */
  lemma WinOrientedKeepsPlayerLosing(g: GameState, nimCount: int, draw: int)
    requires PlayerLoses(g)
    ensures var o := ServiceTurn(g, WinOriented, nimCount, draw);
            PlayerLoses(o.game) || StatusOf(o.game) == ComputerWon
  {
    if LegalMove(g, nimCount) {
      var g1 := PlayerMove(g, nimCount).value;
      if g1.currentPileSize != 0 {
        ReplyRestoresLosingResidue(g.currentPileSize, g.maxNimCount, nimCount);
        var move := WinOrientedMove(g1.currentPileSize, g1.maxNimCount);
        var g2 := g1.(currentPileSize := g1.currentPileSize - move, isPlayersTurn := true, lastComputerMove := move);
        assert ComputerMove(g1, WinOriented, draw) == Ok(g2);
        assert ServiceTurn(g, WinOriented, nimCount, draw) == Completed(g2);
      }
    }
  }

  /** A won game is answered by rejecting every further move. */
  lemma ComputerWonIsFinal(g: GameState, strategy: Strategy, nimCount: int, draw: int)
    requires strategy.Random? ==> ValidDraw(g.maxNimCount, draw)
    requires StatusOf(g) == ComputerWon
    ensures ServiceTurn(g, strategy, nimCount, draw) == Failed(g, WrongTurn)
  {
  }

  /** The game after the player sends the given counts one request at a
      time against the win-oriented strategy; a rejected request leaves the
      game as it was, as in the service. */
  function PlayAgainstWinOriented(g: GameState, moves: seq<int>): GameState
    decreases |moves|
  {
    if moves == [] then g
    else PlayAgainstWinOriented(ServiceTurn(g, WinOriented, moves[0], 0).game, moves[1..])
  }

  /** From a lost position, whatever the player sends, the player never wins. */
  lemma {:induction false} PlayerNeverWinsFromLosingPosition(g: GameState, moves: seq<int>)
    requires PlayerLoses(g) || StatusOf(g) == ComputerWon
    ensures var h := PlayAgainstWinOriented(g, moves);
            (PlayerLoses(h) || StatusOf(h) == ComputerWon) && StatusOf(h) != PlayerWon
    decreases |moves|
  {
    if moves != [] {
      if PlayerLoses(g) {
        WinOrientedKeepsPlayerLosing(g, moves[0], 0);
      } else {
        ComputerWonIsFinal(g, WinOriented, moves[0], 0);
      }
      PlayerNeverWinsFromLosingPosition(ServiceTurn(g, WinOriented, moves[0], 0).game, moves[1..]);
    }
  }

  /** The default game (13 tokens, at most 3) starts in a lost position for
      the player, so against the win-oriented strategy the player never wins
      it, whatever the sequence of requests. */
  lemma DefaultGameIsNeverWonByPlayer(moves: seq<int>)
    ensures StatusOf(PlayAgainstWinOriented(Restore(None), moves)) != PlayerWon
  {
    assert PlayerLoses(Restore(None));
    PlayerNeverWinsFromLosingPosition(Restore(None), moves);
  }

  /** The pile never grows over a sequence of requests. */
  lemma {:induction false} PlayNeverGrowsPile(g: GameState, moves: seq<int>)
    ensures PlayAgainstWinOriented(g, moves).currentPileSize <= g.currentPileSize
    decreases |moves|
  {
    if moves != [] {
      ServiceTurnShrinksPile(g, WinOriented, moves[0], 0);
      PlayNeverGrowsPile(ServiceTurn(g, WinOriented, moves[0], 0).game, moves[1..]);
    }
  }

  /** The worked request of the default game: the player takes 3, the
      win-oriented reply takes 1 from the remaining 10. */
  lemma ServiceExamples()
    ensures ServiceTurn(Restore(None), WinOriented, 3, 0) == Completed(GameState(13, 3, 9, true, 1))
    ensures TurnResponse(ServiceTurn(Restore(None), WinOriented, 3, 0)) == Ok(NimState(9, Ongoing, 3, 1))
    ensures StateOf(ResetState(Configure(Restore(None), NimConfig(10, 5)))) == NimState(10, Ongoing, 5, 0)
  {
    WinOrientedExamples();
  }
}
