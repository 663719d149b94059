/** A game of Sets in one channel: its board, the players' scores and
    whether it is still running. */
module Games {
  import opened Cards
  import opened Judging
  import opened Boards

  /** A player's score after a batch worth `delta`: a player not yet in
      the table starts from 0. */
  function Credit(scores: map<string, int>, name: string, delta: int): (r: map<string, int>)
    ensures r.Keys == scores.Keys + {name}
    ensures name in scores ==> r[name] == scores[name] + delta
    ensures name !in scores ==> r[name] == delta
    ensures forall n :: n in scores && n != name ==> r[n] == scores[n]
  {
    scores[name := (if name in scores then scores[name] else 0) + delta]
  }

  /** Points as shown to the players: the colour, the sign written before
      the number ("+" or nothing; a negative number carries its own "-"),
      and the number. */
  datatype FormattedPoints = FormattedPoints(color: IrcColor, sign: string, points: int)

  /** Red for a loss, yellow for nothing, green for a gain, and a leading
      "+" on a gain only when asked for. */
  function FormatPoints(points: int, plus: bool): (r: FormattedPoints)
    ensures r.points == points
    ensures r.color == Red <==> points < 0
    ensures r.color == Yellow <==> points == 0
    ensures r.color == Green <==> points > 0
    ensures r.sign == "+" <==> points > 0 && plus
    ensures r.sign == "" <==> !(points > 0 && plus)
  {
    if points < 0 then FormattedPoints(Red, "", points)
    else if points == 0 then FormattedPoints(Yellow, "", points)
    else FormattedPoints(Green, if plus then "+" else "", points)
  }

  class Game {
    const level: Level
    const board: Board
    var scores: map<string, int>
    var isRunning: bool

    /** The game's board is a board of its level in play. */
    ghost predicate BoardInPlay()
      reads this, board
    {
      board.Valid() && board.level == level
    }

    /** The board is in play, and a running game still has Sets to find. */
    ghost predicate Valid()
      reads this, board
    {
      BoardInPlay() && (isRunning ==> |board.sets| > 0)
    }

    /** A new game: a board for the dealt cards, nobody has scored yet, and
        the game is running. */
    constructor (level: Level, cards: seq<Card>)
      requires |cards| == NUM_CARDS && Lists.Distinct(cards) && HasASet(level, cards)
      ensures Valid() && fresh(board)
      ensures this.level == level && board.cards == cards
      ensures board.setCount == 0 && board.foundSets == [] && board.sets == board.allSets
      ensures scores == map[] && isRunning
    {
      this.level := level;
      scores := map[];
      isRunning := false;
      board := new Board(level, cards);
      isRunning := true;
    }

    /** How many Sets are still to be found. */
    function NotFoundSetsCount(): (n: int)
      reads this, board
      requires BoardInPlay()
      ensures n == board.totalNumSets - board.setCount && 0 <= n <= board.totalNumSets
    {
      |board.sets|
    }

    /** Some Set is still to be found. */
    function NotFoundSetsExist(): (r: bool)
      reads this, board
      requires BoardInPlay()
      ensures r <==> board.setCount < board.totalNumSets
      ensures !r ==> |board.foundSets| == board.totalNumSets
    {
      NotFoundSetsCount() > 0
    }

    /** Ends the game. */
    method GameOver()
      requires BoardInPlay()
      modifies this`isRunning
      ensures Valid() && !isRunning
    {
      isRunning := false;
    }

    /** A player's batch of guesses: judged on the board, the points added
        to the player's score, and the game ended when a guess of the batch
        found the last Set. An empty batch does nothing. */
    method Answer(guesses: seq<string>, name: string)
      requires Valid() && WellFormed(guesses)
      modifies this, board
      ensures Valid()
      ensures guesses == [] ==>
        board.State() == old(board.State()) && scores == old(scores) && isRunning == old(isRunning)
      ensures guesses != [] ==>
        var b := JudgeAll(old(board.State()), guesses);
        board.State() == b.pool &&
        scores == Credit(old(scores), name, b.tally.scoreDelta) &&
        isRunning == (old(isRunning) && !(b.tally.good != [] && b.pool.notFound == []))
      ensures old(isRunning) && !isRunning ==> board.setCount == board.totalNumSets
    {
      if guesses != [] {
        var found, missed, dups, invalid, scoreDelta := board.CheckAnswer(guesses);
        var credited := scores;
        if name !in credited {
          credited := credited[name := 0];
        }
        credited := credited[name := credited[name] + scoreDelta];
        assert credited == Credit(scores, name, scoreDelta);
        scores := credited;
        if found == [] {
          NoGoodGuessNoChange(old(board.State()), guesses);
        }
        if found != [] && !NotFoundSetsExist() {
          GameOver();
        }
      }
    }
  }

  /** Starting a game: deal from the draws and, when a board with a Set
      could be dealt, a running game on it; otherwise no game. */
  method StartGame(level: Level, draws: seq<Card>) returns (g: Option<Game>)
    requires forall c :: c in draws ==> InDomain(level, c)
    ensures g.None? <==> DealFrom(level, draws, 0).None?
    ensures g.Some? ==> g.value.board.cards == DealFrom(level, draws, 0).value
    ensures g.Some? ==> fresh(g.value) && g.value.Valid() && g.value.isRunning && g.value.scores == map[]
    ensures g.Some? ==> fresh(g.value.board) && g.value.board.sets == g.value.board.allSets
    ensures g.Some? ==> g.value.board.foundSets == [] && g.value.board.setCount == 0
    ensures g.Some? ==> g.value.level == level
    ensures g.Some? ==> forall c :: c in g.value.board.cards ==> c in draws && InDomain(level, c)
    ensures |draws| >= NUM_CARDS && Lists.Distinct(draws[..NUM_CARDS]) && HasASet(level, draws[..NUM_CARDS]) ==>
      g.Some? && g.value.board.cards == draws[..NUM_CARDS]
  {
    var dealt := Deal(level, draws);
    if dealt.None? {
      return None;
    }
    var game := new Game(level, dealt.value);
    g := Some(game);
  }
}
