/** One player's game on the API server: the GameSession class of
    api-server/server.js. A session is built with a difficulty and a secret
    target, started, given guesses until it is won or the attempts run out,
    and asked for its status. The value type Session and the functions over
    it say what each method does; the class carries the fields the server
    updates in place. */
module GameSessions {
  import opened JsText

  datatype Session = Session(
    sessionId: string,
    targetNumber: int,
    maxAttempts: int,
    difficulty: string,
    attempts: int,
    gameStarted: bool,
    gameOver: bool,
    won: bool)

  /** What startGame reports. */
  datatype StartInfo = StartInfo(attemptsRemaining: int, difficulty: string)

  datatype Direction = Lower | Higher

  /** What makeGuess reports: one of three errors, a win, a loss, or a hint. */
  datatype GuessResult =
    | NotStarted
    | AlreadyOver
    | InvalidNumber
    | Win(attemptsUsed: int)
    | Loss(attemptsUsed: int, targetNumber: int)
    | Hint(direction: Direction, attemptsRemaining: int, lastGuess: int)
  {
    predicate IsError() { NotStarted? || AlreadyOver? || InvalidNumber? }
  }

  /** The target as getStatus shows it: the string 'hidden', or the number. */
  datatype Target = Hidden | Revealed(number: int)

  datatype Status = Status(
    sessionId: string,
    gameStarted: bool,
    gameOver: bool,
    won: bool,
    attempts: int,
    maxAttempts: int,
    difficulty: string,
    targetNumber: Target)

  /** The attempt budget: 10 for "easy", 7 for every other difficulty. */
  function MaxAttemptsFor(difficulty: string): int
  {
    if difficulty == "easy" then 10 else 7
  }

  /** The invariant every session the server hands out keeps. */
  ghost predicate Consistent(s: Session)
  {
    && 1 <= s.targetNumber <= 100
    && s.maxAttempts == MaxAttemptsFor(s.difficulty)
    && 0 <= s.attempts <= s.maxAttempts
    && (s.won ==> s.gameOver)
    && (s.gameOver ==> s.gameStarted)
    && (!s.gameOver ==> s.attempts >= 1)
    && (s.gameOver && !s.won ==> s.attempts == 0)
  }

  /** A game still taking guesses. */
  predicate Open(s: Session)
  {
    s.gameStarted && !s.gameOver
  }

  /** A guess makeGuess accepts: parseInt gave an integer in 1..100. */
  predicate InRange(p: ParsedInt)
  {
    p.Int? && 1 <= p.value <= 100
  }

  /** The constructor: the target comes from the caller (the server draws it
      with Math.random). */
  function NewSession(sessionId: string, difficulty: string, target: int): (s: Session)
    requires 1 <= target <= 100
    ensures Consistent(s)
    ensures s.maxAttempts == 10 <==> difficulty == "easy"
    ensures s.maxAttempts == 7 <==> difficulty != "easy"
    ensures s.attempts == s.maxAttempts
    ensures s.sessionId == sessionId && s.difficulty == difficulty && s.targetNumber == target
    ensures !s.gameStarted && !s.gameOver && !s.won
  {
    var max := MaxAttemptsFor(difficulty);
    Session(sessionId, target, max, difficulty, max, false, false, false)
  }

  /** startGame: raises the started flag and clears the outcome, but keeps
      the target and the remaining attempts as they are. */
  function Started(s: Session): (r: Session)
    ensures Open(r) && !r.won
    ensures r.attempts == s.attempts && r.targetNumber == s.targetNumber
    ensures r.sessionId == s.sessionId && r.maxAttempts == s.maxAttempts && r.difficulty == s.difficulty
    ensures Consistent(s) && s.attempts >= 1 ==> Consistent(r)
  {
    s.(gameStarted := true, gameOver := false, won := false)
  }

  /** makeGuess, given what parseInt made of the guess. */
  function Guess(s: Session, p: ParsedInt): (res: (Session, GuessResult))
    // the three errors, checked in this order, leave every field as it was
    ensures res.1 == NotStarted <==> !s.gameStarted
    ensures res.1 == AlreadyOver <==> s.gameStarted && s.gameOver
    ensures res.1 == InvalidNumber <==> Open(s) && !InRange(p)
    ensures res.1.IsError() ==> res.0 == s
    // an accepted guess costs exactly one attempt and touches nothing but
    // the attempts and the outcome flags
    ensures !res.1.IsError() ==>
      res.0 == s.(attempts := s.attempts - 1, gameOver := res.0.gameOver, won := res.0.won)
    // a correct guess wins, even with the last attempt
    ensures res.1.Win? <==> Open(s) && p.Int? && p.value == s.targetNumber && InRange(p)
    ensures res.1.Win? ==> res.0.won && res.0.gameOver && res.1.attemptsUsed == s.maxAttempts - res.0.attempts
    // a wrong guess with the last attempt loses and reveals the target
    ensures res.1.Loss? <==> Open(s) && InRange(p) && p.value != s.targetNumber && s.attempts <= 1
    ensures res.1.Loss? ==> res.0.gameOver && res.0.won == s.won && res.1 == Loss(s.maxAttempts, s.targetNumber)
    // otherwise the game stays open and the hint points at the target
    ensures res.1.Hint? ==> Open(res.0) && res.1.attemptsRemaining == res.0.attempts >= 1
    ensures res.1.Hint? ==> p == Int(res.1.lastGuess) && res.1.lastGuess != s.targetNumber
    ensures res.1.Hint? ==> (res.1.direction == Lower <==> res.1.lastGuess > s.targetNumber)
    ensures Consistent(s) ==> Consistent(res.0)
  {
    if !s.gameStarted then (s, NotStarted)
    else if s.gameOver then (s, AlreadyOver)
    else if !InRange(p) then (s, InvalidNumber)
    else
      var n, a := p.value, s.attempts - 1;
      if n == s.targetNumber then
        (s.(attempts := a, gameOver := true, won := true), Win(s.maxAttempts - a))
      else if a <= 0 then
        (s.(attempts := a, gameOver := true), Loss(s.maxAttempts, s.targetNumber))
      else if n > s.targetNumber then
        (s.(attempts := a), Hint(Lower, a, n))
      else
        (s.(attempts := a), Hint(Higher, a, n))
  }

  /** getStatus: every field as it is, the target only once the game is over. */
  function StatusOf(s: Session): (st: Status)
    ensures st.targetNumber.Revealed? <==> s.gameOver
    ensures st.targetNumber.Revealed? ==> st.targetNumber.number == s.targetNumber
    ensures st.sessionId == s.sessionId && st.attempts == s.attempts && st.maxAttempts == s.maxAttempts
    ensures st.gameStarted == s.gameStarted && st.gameOver == s.gameOver && st.won == s.won
    ensures st.difficulty == s.difficulty
  {
    Status(s.sessionId, s.gameStarted, s.gameOver, s.won, s.attempts, s.maxAttempts, s.difficulty,
           if s.gameOver then Revealed(s.targetNumber) else Hidden)
  }

  // ---------------------------------------------------------------------
  // Sequences of guesses

  /** The session and the results after makeGuess is called on each raw
      guess in turn. */
  function Play(s: Session, guesses: seq<string>): (Session, seq<GuessResult>)
    decreases |guesses|
  {
    if guesses == [] then (s, [])
    else
      var (s1, r) := Guess(s, ParseInt(guesses[0]));
      var (s2, rs) := Play(s1, guesses[1..]);
      (s2, [r] + rs)
  }

  /** The number of results that are not errors. */
  function Accepted(rs: seq<GuessResult>): nat
  {
    if rs == [] then 0 else (if rs[0].IsError() then 0 else 1) + Accepted(rs[1..])
  }

  /** Every accepted guess costs one attempt and no error costs any; the
      invariant holds after any sequence of guesses, so the remaining
      attempts stay within [0, maxAttempts]. */
  lemma {:induction false} PlayCountsAttempts(s: Session, guesses: seq<string>)
    requires Consistent(s)
    ensures Consistent(Play(s, guesses).0)
    ensures |Play(s, guesses).1| == |guesses|
    ensures Play(s, guesses).0.attempts == s.attempts - Accepted(Play(s, guesses).1)
    decreases |guesses|
  {
    if guesses != [] {
      var (s1, r) := Guess(s, ParseInt(guesses[0]));
      PlayCountsAttempts(s1, guesses[1..]);
    }
  }

  /** Once a game is over, no guess changes anything and each one is
      answered with the "already over" error. */
  lemma {:induction false} OverIsFinal(s: Session, guesses: seq<string>)
    requires s.gameStarted && s.gameOver
    ensures Play(s, guesses).0 == s
    ensures Play(s, guesses).1 == seq(|guesses|, i => AlreadyOver)
  {
    if guesses != [] {
      OverIsFinal(s, guesses[1..]);
    }
  }

  /** A guess accepted by the range check that misses the target. */
  predicate Miss(s: Session, guess: string)
  {
    InRange(ParseInt(guess)) && ParseInt(guess).value != s.targetNumber
  }

  /** As many misses as there are attempts left: every answer but the last
      is a hint, the last is a loss that reveals the target, and the game
      ends lost with no attempts left. */
  lemma {:induction false} MissesExhaust(s: Session, guesses: seq<string>)
    requires Consistent(s) && Open(s)
    requires |guesses| == s.attempts
    requires forall i :: 0 <= i < |guesses| ==> Miss(s, guesses[i])
    ensures var (end, rs) := Play(s, guesses);
      && end == s.(attempts := 0, gameOver := true)
      && |rs| == |guesses|
      && rs[|rs| - 1] == Loss(s.maxAttempts, s.targetNumber)
      && forall i :: 0 <= i < |rs| - 1 ==> rs[i].Hint?
    decreases |guesses|
  {
    var (s1, r) := Guess(s, ParseInt(guesses[0]));
    if |guesses| > 1 {
      assert forall i :: 0 <= i < |guesses| - 1 ==> guesses[1..][i] == guesses[i + 1];
      MissesExhaust(s1, guesses[1..]);
      var (end, rs) := Play(s1, guesses[1..]);
      assert Play(s, guesses).1 == [r] + rs;
    }
  }

  /** startGame keeps the attempts as they are, so a lost session that is
      started again takes one more guess and ends with -1 attempts. The
      server never does this: every start builds a fresh session. */
  lemma RestartAfterLoss(s: Session, guess: string)
    requires Consistent(s) && s.gameOver && !s.won
    requires Miss(s, guess)
    ensures Guess(Started(s), ParseInt(guess)).0.attempts == -1
    ensures !Consistent(Guess(Started(s), ParseInt(guess)).0)
  {
  }

  class GameSession {
    const sessionId: string
    const targetNumber: int
    const maxAttempts: int
    const difficulty: string
    var attempts: int
    var gameStarted: bool
    var gameOver: bool
    var won: bool

    ghost function Model(): Session
      reads this
    {
      Session(sessionId, targetNumber, maxAttempts, difficulty, attempts, gameStarted, gameOver, won)
    }

    constructor (sessionId: string, difficulty: string, target: int)
      requires 1 <= target <= 100
      ensures Model() == NewSession(sessionId, difficulty, target)
    {
      var max := if difficulty == "easy" then 10 else 7;
      this.sessionId := sessionId;
      this.targetNumber := target;
      this.maxAttempts := max;
      this.attempts := max;
      this.difficulty := difficulty;
      this.gameStarted := false;
      this.gameOver := false;
      this.won := false;
    }

    method StartGame() returns (info: StartInfo)
      modifies this
      ensures Model() == Started(old(Model()))
      ensures info == StartInfo(attempts, difficulty)
    {
      gameStarted := true;
      gameOver := false;
      won := false;
      info := StartInfo(attempts, difficulty);
    }

    method MakeGuess(guess: string) returns (r: GuessResult)
      modifies this
      ensures (Model(), r) == Guess(old(Model()), ParseInt(guess))
    {
      if !gameStarted {
        return NotStarted;
      }
      if gameOver {
        return AlreadyOver;
      }
      var numGuess := ParseInt(guess);
      if numGuess.NaN? || numGuess.value < 1 || numGuess.value > 100 {
        return InvalidNumber;
      }
      attempts := attempts - 1;
      if numGuess.value == targetNumber {
        gameOver := true;
        won := true;
        r := Win(maxAttempts - attempts);
      } else if attempts <= 0 {
        gameOver := true;
        r := Loss(maxAttempts, targetNumber);
      } else if numGuess.value > targetNumber {
        r := Hint(Lower, attempts, numGuess.value);
      } else {
        r := Hint(Higher, attempts, numGuess.value);
      }
    }

    function GetStatus(): (st: Status)
      reads this
      ensures st == StatusOf(Model())
    {
      Status(sessionId, gameStarted, gameOver, won, attempts, maxAttempts, difficulty,
             if gameOver then Revealed(targetNumber) else Hidden)
    }
  }

  /** An easy game with target 50: 70 is too high, 30 too low, 50 wins
      with three attempts used, and a further guess is refused. */
  method EasyGameWithTarget50()
  {
    var g := new GameSession("player", "easy", 50);
    var info := g.StartGame();
    assert info.attemptsRemaining == 10;
    var r := MakeNumericGuess(g, 70);
    assert r == Hint(Lower, 9, 70);
    r := MakeNumericGuess(g, 30);
    assert r == Hint(Higher, 8, 30);
    r := MakeNumericGuess(g, 50);
    assert r == Win(3);
    var st := g.GetStatus();
    assert st.won && st.targetNumber == Revealed(50);
    r := MakeNumericGuess(g, 50);
    assert r == AlreadyOver;
  }

  /** A hard game with target 1 and seven misses ends lost. */
  method HardGameLost()
  {
    var g := new GameSession("player", "hard", 1);
    var info := g.StartGame();
    var r := MakeNumericGuess(g, 100);
    assert r == Hint(Lower, 6, 100);
    r := MakeNumericGuess(g, 99);
    r := MakeNumericGuess(g, 98);
    r := MakeNumericGuess(g, 97);
    r := MakeNumericGuess(g, 96);
    r := MakeNumericGuess(g, 95);
    assert r == Hint(Lower, 1, 95);
    r := MakeNumericGuess(g, 94);
    assert r == Loss(7, 1);
    assert g.gameOver && !g.won && g.attempts == 0;
  }

  /** makeGuess called with a Number, as the chatbot route does: makeGuess
      converts it to its decimal string before parsing it again. */
  method MakeNumericGuess(g: GameSession, n: int) returns (r: GuessResult)
    modifies g
    ensures (g.Model(), r) == Guess(old(g.Model()), Int(n))
  {
    ParseIntOfNumberString(n, []);
    var text := NumberToString(n);
    assert text + [] == text;
    r := g.MakeGuess(text);
  }
}
