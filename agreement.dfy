/** The server's GameSession and the page's NumberGuessingGame implement the
    same game. On guesses that parse to NaN or to an integer in 1..100 they
    give answers that Agree pairs, step by step; they part on integers
    outside 1..100, which only the server refuses, on when the target is
    shown, and on a finished game, which the server refuses as already over
    and the page as not started. The server's answers also carry the target
    of a loss and the guess of a hint, which the page's do not. */
module Agreement {
  import opened JsText
  import Server = GameSessions
  import Web = WebGame

  /** A server session and a page state that describe the same game: the
      page runs exactly while the server's session takes guesses. */
  predicate Corresponds(s: Server.Session, w: Web.State)
  {
    && w.gameStarted == Server.Open(s)
    && w.targetNumber == s.targetNumber
    && w.attempts == s.attempts
    && w.maxAttempts == s.maxAttempts
  }

  /** Results that tell the player the same thing. */
  predicate Agree(r: Server.GuessResult, wr: Web.GuessResult)
  {
    match r
    case NotStarted => wr == Web.NotStarted
    case AlreadyOver => wr == Web.NotStarted
    case InvalidNumber => wr == Web.InvalidNumber
    case Win(used) => wr == Web.Success(used)
    case Loss(used, _) => wr == Web.GameOver(used)
    case Hint(d, left, _) => wr == Web.Hint(if d == Server.Lower then Web.Lower else Web.Higher, left)
  }

  /** The guesses on which the two copies behave alike. */
  predicate SharedInput(guess: string)
  {
    ParseInt(guess).NaN? || Server.InRange(ParseInt(guess))
  }

  /** A game both copies start with the same target and difficulty begins in
      corresponding states. */
  lemma StartsCorrespond(id: string, difficulty: string, target: int, w: Web.State)
    requires 1 <= target <= 100 && (w.isEasy <==> difficulty == "easy")
    ensures Corresponds(Server.Started(Server.NewSession(id, difficulty, target)), Web.Start(w, target))
  {
  }

  /** One guess: answers that Agree pairs, and the states still correspond. */
  lemma StepAgrees(s: Server.Session, w: Web.State, guess: string)
    requires Corresponds(s, w) && Server.Consistent(s)
    requires SharedInput(guess) || !Server.Open(s)
    ensures Agree(Server.Guess(s, ParseInt(guess)).1, Web.Guess(w, ParseInt(guess)).1)
    ensures Corresponds(Server.Guess(s, ParseInt(guess)).0, Web.Guess(w, ParseInt(guess)).0)
  {
  }

  /** Any sequence of shared guesses: the copies give answers that Agree
      pairs, one by one, and end in corresponding states. */
  lemma {:induction false} CopiesAgree(s: Server.Session, w: Web.State, guesses: seq<string>)
    requires Corresponds(s, w) && Server.Consistent(s)
    requires forall i :: 0 <= i < |guesses| ==> SharedInput(guesses[i])
    ensures Corresponds(Server.Play(s, guesses).0, Web.Play(w, guesses).0)
    ensures |Server.Play(s, guesses).1| == |Web.Play(w, guesses).1| == |guesses|
    ensures forall i :: 0 <= i < |guesses| ==> Agree(Server.Play(s, guesses).1[i], Web.Play(w, guesses).1[i])
    decreases |guesses|
  {
    if guesses != [] {
      var p := ParseInt(guesses[0]);
      StepAgrees(s, w, guesses[0]);
      var (s1, r) := Server.Guess(s, p);
      var (w1, wr) := Web.Guess(w, p);
      assert forall i :: 0 <= i < |guesses| - 1 ==> guesses[1..][i] == guesses[i + 1];
      CopiesAgree(s1, w1, guesses[1..]);
    }
  }

  /** An integer outside 1..100 is refused by the server at no cost, and
      costs the page an attempt. */
  lemma OutOfRangeDiverges(s: Server.Session, w: Web.State, n: int)
    requires Corresponds(s, w) && Server.Consistent(s) && Server.Open(s)
    requires n < 1 || n > 100
    ensures Server.Guess(s, Int(n)) == (s, Server.InvalidNumber)
    ensures Web.Guess(w, Int(n)).0.attempts == w.attempts - 1
  {
  }

  /** After a won or lost game the server refuses a guess as already over,
      the page, whose endGame cleared gameStarted, as not started. */
  lemma FinishedDiverges(s: Server.Session, w: Web.State, p: ParsedInt)
    requires Corresponds(s, w) && s.gameStarted && s.gameOver
    ensures Server.Guess(s, p) == (s, Server.AlreadyOver)
    ensures Web.Guess(w, p) == (w, Web.NotStarted)
  {
  }

  /** While a game runs the server hides the target and the page shows it. */
  lemma RunningTargetDiverges(s: Server.Session, w: Web.State)
    requires Corresponds(s, w) && Server.Open(s)
    ensures Server.StatusOf(s).targetNumber == Server.Hidden
    ensures Web.GameStateOf(w).targetNumber == Web.Number(s.targetNumber)
  {
  }
}
