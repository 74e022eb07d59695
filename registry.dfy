/** The in-memory store of api-server/server.js: the gameSessions Map from
    session id to GameSession, and the routes that read and change it
    (start, guess, status, delete, the session list and the chatbot). HTTP
    is left out; each route becomes a method that returns what the route
    answers, with the 400 and 404 answers as failures. */
module SessionRegistry {
  import opened JsText
  import opened GameSessions
  import opened Chatbot

  /** Why a route refused a request: a missing field (400) or an unknown
      session (404). */
  datatype Failure = MissingSessionId | MissingGuess | SessionNotFound

  datatype Reply<T> = Ok(value: T) | Fail(failure: Failure)

  /** What the chatbot route answers. */
  datatype ChatReply =
    | Rejected
    | GameStarted(info: StartInfo)
    | Guessed(result: GuessResult)
    | Reported(status: Status)
    | Instructions
    | NotUnderstood

  class Registry {
    var sessions: map<string, GameSession>

    /** Every session is stored under its own id (so no two ids share a
        session object) and keeps the session invariant. */
    ghost predicate Valid()
      reads this, sessions.Values
    {
      forall id :: id in sessions ==> sessions[id].sessionId == id && Consistent(sessions[id].Model())
    }

    /** The store as a map from id to session value. */
    ghost function Snapshot(): map<string, Session>
      reads this, sessions.Values
    {
      map id | id in sessions :: sessions[id].Model()
    }

    constructor ()
      ensures Valid() && Snapshot() == map[]
    {
      sessions := map[];
    }

    /** new GameSession, gameSessions.set and startGame, as both the start
        route and the chatbot route do them: any session under the id is
        replaced by a fresh started one. */
    method Create(id: string, difficulty: string, target: int) returns (info: StartInfo)
      requires Valid() && 1 <= target <= 100
      modifies this
      ensures Valid()
      ensures Snapshot() == old(Snapshot())[id := Started(NewSession(id, difficulty, target))]
      ensures info == StartInfo(MaxAttemptsFor(difficulty), difficulty)
    {
      ghost var before := Snapshot();
      var game := new GameSession(id, difficulty, target);
      info := game.StartGame();
      ghost var created := game.Model();
      sessions := sessions[id := game];
      forall k | k in sessions
        ensures k in Snapshot() && Snapshot()[k] == before[id := created][k]
        ensures sessions[k].sessionId == k && Consistent(sessions[k].Model())
      {
        if k != id {
          assert sessions[k] == old(sessions[k]);
        }
      }
      assert Snapshot() == before[id := created];
    }

    /** POST /api/game/start. */
    method Start(id: string, difficulty: string, target: int) returns (r: Reply<StartInfo>)
      requires Valid() && 1 <= target <= 100
      modifies this
      ensures Valid()
      ensures id == [] ==> r == Fail(MissingSessionId) && Snapshot() == old(Snapshot())
      ensures id != [] ==> r == Ok(StartInfo(MaxAttemptsFor(difficulty), difficulty))
      ensures id != [] ==> Snapshot() == old(Snapshot())[id := Started(NewSession(id, difficulty, target))]
    {
      if id == [] {
        return Fail(MissingSessionId);
      }
      var info := Create(id, difficulty, target);
      r := Ok(info);
    }

    /** POST /api/game/guess. */
    method MakeGuess(id: string, guess: string) returns (r: Reply<GuessResult>)
      requires Valid()
      modifies sessions.Values
      ensures Valid() && sessions == old(sessions)
      ensures id == [] ==> r == Fail(MissingSessionId)
      ensures id != [] && guess == [] ==> r == Fail(MissingGuess)
      ensures id != [] && guess != [] && id !in sessions ==> r == Fail(SessionNotFound)
      ensures r.Fail? ==> Snapshot() == old(Snapshot())
      ensures id != [] && guess != [] && id in sessions ==>
        var (s, g) := Guess(old(Snapshot())[id], ParseInt(guess));
        r == Ok(g) && Snapshot() == old(Snapshot())[id := s]
    {
      if id == [] {
        return Fail(MissingSessionId);
      }
      if guess == [] {
        return Fail(MissingGuess);
      }
      if id !in sessions {
        return Fail(SessionNotFound);
      }
      var game := sessions[id];
      var g := game.MakeGuess(guess);
      r := Ok(g);
      assert forall k :: k in sessions && k != id ==> sessions[k] != game;
    }

    /** The chatbot's guess: makeGuess on the stored session with the
        Number parseInt read from the message. */
    method ChatGuess(id: string, n: int) returns (g: GuessResult)
      requires Valid() && id in sessions
      modifies sessions.Values
      ensures Valid() && sessions == old(sessions)
      ensures var (s, r) := Guess(old(Snapshot())[id], Int(n));
        g == r && Snapshot() == old(Snapshot())[id := s]
    {
      ghost var before := Snapshot();
      var game := sessions[id];
      g := MakeNumericGuess(game, n);
      forall k | k in sessions
        ensures Snapshot()[k] == before[id := game.Model()][k]
      {
        if k != id {
          assert sessions[k] != game;
        }
      }
      assert Snapshot() == before[id := game.Model()];
    }

    /** GET /api/game/status/:sessionId. */
    function GetStatus(id: string): (r: Reply<Status>)
      reads this, sessions.Values
      requires Valid()
      ensures id !in sessions <==> r == Fail(SessionNotFound)
      ensures id in sessions ==> r == Ok(StatusOf(sessions[id].Model()))
      ensures id in sessions ==> r.value.sessionId == id
      ensures id in sessions ==> (r.value.targetNumber.Revealed? <==> sessions[id].gameOver)
      ensures id in sessions ==> 0 <= r.value.attempts <= r.value.maxAttempts
    {
      if id in sessions then Ok(sessions[id].GetStatus()) else Fail(SessionNotFound)
    }

    /** DELETE /api/game/:sessionId: true exactly when a session was removed. */
    method Delete(id: string) returns (deleted: bool)
      requires Valid()
      modifies this
      ensures Valid()
      ensures deleted <==> id in old(sessions)
      ensures Snapshot() == old(Snapshot()) - {id}
    {
      deleted := id in sessions;
      sessions := sessions - {id};
    }

    /** GET /api/game/sessions: the status of every stored session, by id. */
    function ListSessions(): (r: map<string, Status>)
      reads this, sessions.Values
      requires Valid()
      ensures r.Keys == sessions.Keys
      ensures forall id :: id in r ==> r[id].sessionId == id && r[id] == StatusOf(sessions[id].Model())
    {
      map id | id in sessions :: sessions[id].GetStatus()
    }

    /** POST /api/chatbot. The target for a session this call creates comes
        from the caller. */
    method Chat(id: string, message: string, difficulty: string, target: int) returns (reply: ChatReply)
      requires Valid() && 1 <= target <= 100
      modifies this, sessions.Values
      ensures Valid()
      ensures match Route(id, message, id in old(sessions))
        case Reject =>
          reply == Rejected && Snapshot() == old(Snapshot())
        case StartFirstGame =>
          && reply == GameStarted(StartInfo(MaxAttemptsFor(difficulty), difficulty))
          && Snapshot() == old(Snapshot())[id := Started(NewSession(id, difficulty, target))]
        case Restart =>
          && reply == GameStarted(StartInfo(MaxAttemptsFor(difficulty), difficulty))
          && Snapshot() == old(Snapshot())[id := Started(NewSession(id, difficulty, target))]
        case GuessNumber(n) =>
          var (s, g) := Guess(old(Snapshot())[id], Int(n));
          reply == Guessed(g) && Snapshot() == old(Snapshot())[id := s]
        case ShowStatus =>
          reply == Reported(StatusOf(old(Snapshot())[id])) && Snapshot() == old(Snapshot())
        case ShowHelp =>
          reply == Instructions && Snapshot() == old(Snapshot())
        case Fallback =>
          reply == NotUnderstood && Snapshot() == old(Snapshot())
    {
      var command := Route(id, message, id in sessions);
      match command
      case Reject =>
        reply := Rejected;
      case StartFirstGame =>
        var info := Create(id, difficulty, target);
        reply := GameStarted(info);
      case Restart =>
        var info := Create(id, difficulty, target);
        reply := GameStarted(info);
      case GuessNumber(n) =>
        var g := ChatGuess(id, n);
        reply := Guessed(g);
      case ShowStatus =>
        reply := Reported(sessions[id].GetStatus());
      case ShowHelp =>
        reply := Instructions;
      case Fallback =>
        reply := NotUnderstood;
    }
  }

  /** Deleting an unknown id reports false; deleting a known one reports
      true, after which its status is not found and the other sessions are
      as they were. */
  method DeleteThenStatus(reg: Registry, id: string) returns (deleted: bool, status: Reply<Status>)
    requires reg.Valid()
    modifies reg
    ensures deleted <==> id in old(reg.sessions)
    ensures status == Fail(SessionNotFound)
    ensures reg.Snapshot() == old(reg.Snapshot()) - {id}
  {
    deleted := reg.Delete(id);
    status := reg.GetStatus(id);
  }
}
