/** The browser copy of the game: the NumberGuessingGame class of
    web-version/script.js, with its page updates left out. The state is five
    fields; "over" is not a flag of its own but gameStarted turned back to
    false by endGame. The value type State and the functions over it say what
    each method does. */
module WebGame {
  import opened JsText

  datatype State = State(
    targetNumber: int,
    attempts: int,
    maxAttempts: int,
    isEasy: bool,
    gameStarted: bool)

  datatype Direction = Lower | Higher

  /** What makeGuess returns. */
  datatype GuessResult =
    | NotStarted
    | InvalidNumber
    | Success(attemptsUsed: int)
    | GameOver(attemptsUsed: int)
    | Hint(direction: Direction, attemptsRemaining: int)
  {
    predicate IsError() { NotStarted? || InvalidNumber? }
  }

  /** The kind of message submitGuess shows, with the number it names. */
  datatype Shown =
    | AskForNumber
    | Congratulate
    | RevealTarget(targetNumber: int)
    | TargetIsLower(guess: int)
    | TargetIsHigher(guess: int)

  /** The target as getGameState reports it: null, or the number. */
  datatype Visible = Null | Number(value: int)

  datatype GameState = GameState(
    gameStarted: bool,
    attempts: int,
    maxAttempts: int,
    difficulty: string,
    targetNumber: Visible)

  /** The invariant the page keeps: the attempts stay within the budget,
      and a running game has a target in 1..100 and an attempt left. */
  ghost predicate Valid(st: State)
  {
    && (st.maxAttempts == 0 || st.maxAttempts == 7 || st.maxAttempts == 10)
    && 0 <= st.attempts <= st.maxAttempts
    && (st.gameStarted ==> 1 <= st.targetNumber <= 100 && st.attempts >= 1)
  }

  /** The constructor's state: nothing started, easy selected. */
  function Initial(): (st: State)
    ensures Valid(st) && !st.gameStarted && st.isEasy && st.attempts == 0
  {
    State(0, 0, 0, true, false)
  }

  /** startGame, with the target drawn by the caller. */
  function Start(st: State, target: int): (r: State)
    requires 1 <= target <= 100
    ensures r.gameStarted && r.targetNumber == target && r.isEasy == st.isEasy
    ensures r.maxAttempts == (if st.isEasy then 10 else 7) && r.attempts == r.maxAttempts
    ensures Valid(r)
  {
    var max := if st.isEasy then 10 else 7;
    st.(gameStarted := true, targetNumber := target, maxAttempts := max, attempts := max)
  }

  /** toggleDifficulty: only the difficulty flips. */
  function Toggle(st: State): (r: State)
    ensures r.isEasy == !st.isEasy
    ensures r.(isEasy := st.isEasy) == st
    ensures Valid(st) ==> Valid(r)
  {
    st.(isEasy := !st.isEasy)
  }

  /** endGame: the game stops taking guesses. */
  function Ended(st: State): (r: State)
    ensures !r.gameStarted && r.(gameStarted := st.gameStarted) == st
    ensures Valid(st) ==> Valid(r)
  {
    st.(gameStarted := false)
  }

  /** resetGame: the attempts go back to 0. The page only offers it after
      endGame, when no game is running. */
  function Reset(st: State): (r: State)
    requires !st.gameStarted
    ensures r.attempts == 0 && r.(attempts := st.attempts) == st
    ensures Valid(st) ==> Valid(r)
  {
    st.(attempts := 0)
  }

  /** makeGuess, given what parseInt made of the guess. */
  function Guess(st: State, p: ParsedInt): (res: (State, GuessResult))
    ensures res.1 == NotStarted <==> !st.gameStarted
    ensures res.1 == InvalidNumber <==> st.gameStarted && p.NaN?
    ensures res.1.IsError() ==> res.0 == st
    // there is no range check: every integer costs an attempt
    ensures !res.1.IsError() ==> p.Int? && res.0.attempts == st.attempts - 1
    ensures !res.1.IsError() ==>
      res.0 == st.(attempts := st.attempts - 1, gameStarted := res.0.gameStarted)
    // a correct guess wins, even with the last attempt
    ensures res.1.Success? <==> st.gameStarted && p == Int(st.targetNumber)
    ensures res.1.Success? ==> res.1.attemptsUsed == st.maxAttempts - res.0.attempts
    ensures res.1.GameOver? <==> st.gameStarted && p.Int? && p.value != st.targetNumber && st.attempts <= 1
    ensures res.1.GameOver? ==> res.1.attemptsUsed == st.maxAttempts
    // a win or a loss ends the game, a hint keeps it running
    ensures res.1.Success? || res.1.GameOver? ==> !res.0.gameStarted
    ensures res.1.Hint? ==> res.0.gameStarted && res.1.attemptsRemaining == res.0.attempts
    ensures res.1.Hint? ==> (res.1.direction == Lower <==> p.value > st.targetNumber)
    ensures res.1.Hint? ==> p.value != st.targetNumber
    ensures Valid(st) ==> Valid(res.0)
  {
    if !st.gameStarted then (st, NotStarted)
    else if p.NaN? then (st, InvalidNumber)
    else
      var n, a := p.value, st.attempts - 1;
      if n == st.targetNumber then
        (Ended(st.(attempts := a)), Success(st.maxAttempts - a))
      else if a <= 0 then
        (Ended(st.(attempts := a)), GameOver(st.maxAttempts))
      else if n > st.targetNumber then
        (st.(attempts := a), Hint(Lower, a))
      else
        (st.(attempts := a), Hint(Higher, a))
  }

  /** submitGuess, the Submit button's handler, given what parseInt made of
      the input field. The button is enabled only while a game runs. */
  function Submit(st: State, p: ParsedInt): (res: (State, Shown))
    requires st.gameStarted
    // the same state change as makeGuess, in the same order
    ensures res.0 == Guess(st, p).0
    ensures res.1 == AskForNumber <==> p.NaN?
    ensures res.1 == Congratulate <==> Guess(st, p).1.Success?
    ensures res.1.RevealTarget? <==> Guess(st, p).1.GameOver?
    ensures res.1.RevealTarget? ==> res.1.targetNumber == st.targetNumber
    ensures res.1.TargetIsLower? ==> Guess(st, p).1 == Hint(Lower, res.0.attempts) && p == Int(res.1.guess)
    ensures res.1.TargetIsHigher? ==> Guess(st, p).1 == Hint(Higher, res.0.attempts) && p == Int(res.1.guess)
  {
    if p.NaN? then (st, AskForNumber)
    else
      var n, a := p.value, st.attempts - 1;
      if n == st.targetNumber then
        (Ended(st.(attempts := a)), Congratulate)
      else if a <= 0 then
        (Ended(st.(attempts := a)), RevealTarget(st.targetNumber))
      else if n > st.targetNumber then
        (st.(attempts := a), TargetIsLower(n))
      else
        (st.(attempts := a), TargetIsHigher(n))
  }

  /** getGameState: the target is shown while a game runs and null
      otherwise. */
  function GameStateOf(st: State): (g: GameState)
    ensures g.targetNumber.Number? <==> st.gameStarted
    ensures g.targetNumber.Number? ==> g.targetNumber.value == st.targetNumber
    ensures g.difficulty == "Easy" <==> st.isEasy
    ensures g.difficulty == "Hard" <==> !st.isEasy
    ensures g.gameStarted == st.gameStarted && g.attempts == st.attempts && g.maxAttempts == st.maxAttempts
  {
    GameState(st.gameStarted, st.attempts, st.maxAttempts, if st.isEasy then "Easy" else "Hard",
              if st.gameStarted then Number(st.targetNumber) else Null)
  }

  // ---------------------------------------------------------------------
  // Sequences of guesses

  /** The state and the results after makeGuess is called on each raw guess
      in turn. */
  function Play(st: State, guesses: seq<string>): (State, seq<GuessResult>)
    decreases |guesses|
  {
    if guesses == [] then (st, [])
    else
      var (st1, r) := Guess(st, ParseInt(guesses[0]));
      var (st2, rs) := Play(st1, guesses[1..]);
      (st2, [r] + rs)
  }

  /** After endGame, every makeGuess is refused with "not started" and
      changes nothing. */
  lemma {:induction false} EndedRefusesGuesses(st: State, guesses: seq<string>)
    requires !st.gameStarted
    ensures Play(st, guesses).0 == st
    ensures Play(st, guesses).1 == seq(|guesses|, i => NotStarted)
    decreases |guesses|
  {
    if guesses != [] {
      EndedRefusesGuesses(st, guesses[1..]);
    }
  }

  /** The invariant holds after any sequence of guesses, and no guess is
      accepted once the game has ended: the attempts only fall while the
      game runs, and the game ends when they reach 0. */
  lemma {:induction false} PlayKeepsValid(st: State, guesses: seq<string>)
    requires Valid(st)
    ensures Valid(Play(st, guesses).0)
    ensures |Play(st, guesses).1| == |guesses|
    ensures Play(st, guesses).0.attempts <= st.attempts
    decreases |guesses|
  {
    if guesses != [] {
      var (st1, r) := Guess(st, ParseInt(guesses[0]));
      PlayKeepsValid(st1, guesses[1..]);
    }
  }

  class NumberGuessingGame {
    var targetNumber: int
    var attempts: int
    var maxAttempts: int
    var isEasy: bool
    var gameStarted: bool

    ghost function Model(): State
      reads this
    {
      State(targetNumber, attempts, maxAttempts, isEasy, gameStarted)
    }

    constructor ()
      ensures Model() == Initial()
    {
      targetNumber := 0;
      attempts := 0;
      maxAttempts := 0;
      isEasy := true;
      gameStarted := false;
    }

    method StartGame(target: int)
      requires 1 <= target <= 100
      modifies this
      ensures Model() == Start(old(Model()), target)
    {
      gameStarted := true;
      targetNumber := target;
      maxAttempts := if isEasy then 10 else 7;
      attempts := maxAttempts;
    }

    method ToggleDifficulty()
      modifies this
      ensures Model() == Toggle(old(Model()))
    {
      isEasy := !isEasy;
    }

    method SubmitGuess(input: string) returns (shown: Shown)
      requires gameStarted
      modifies this
      ensures (Model(), shown) == Submit(old(Model()), ParseInt(input))
    {
      var guess := ParseInt(input);
      if guess.NaN? {
        return AskForNumber;
      }
      attempts := attempts - 1;
      if guess.value == targetNumber {
        shown := Congratulate;
        EndGame();
      } else if attempts <= 0 {
        shown := RevealTarget(targetNumber);
        EndGame();
      } else if guess.value > targetNumber {
        shown := TargetIsLower(guess.value);
      } else {
        shown := TargetIsHigher(guess.value);
      }
    }

    method EndGame()
      modifies this
      ensures Model() == Ended(old(Model()))
    {
      gameStarted := false;
    }

    method ResetGame()
      requires !gameStarted
      modifies this
      ensures Model() == Reset(old(Model()))
    {
      attempts := 0;
    }

    function GetGameState(): (g: GameState)
      reads this
      ensures g == GameStateOf(Model())
    {
      GameState(gameStarted, attempts, maxAttempts, if isEasy then "Easy" else "Hard",
                if gameStarted then Number(targetNumber) else Null)
    }

    method MakeGuess(guess: string) returns (r: GuessResult)
      modifies this
      ensures (Model(), r) == Guess(old(Model()), ParseInt(guess))
    {
      if !gameStarted {
        return NotStarted;
      }
      var numGuess := ParseInt(guess);
      if numGuess.NaN? {
        return InvalidNumber;
      }
      attempts := attempts - 1;
      if numGuess.value == targetNumber {
        EndGame();
        r := Success(maxAttempts - attempts);
      } else if attempts <= 0 {
        EndGame();
        r := GameOver(maxAttempts);
      } else if numGuess.value > targetNumber {
        r := Hint(Lower, attempts);
      } else {
        r := Hint(Higher, attempts);
      }
    }
  }
}
