/** The routing decision of the chatbot endpoint of api-server/server.js:
    which of the game's operations a free-text message asks for. */
module Chatbot {
  import opened JsText

  datatype Command =
    | Reject          // the session id or the message is missing
    | StartFirstGame  // no session under this id yet
    | GuessNumber(n: int)
    | Restart         // "start" or "new game"
    | ShowStatus      // "status" or "info"
    | ShowHelp        // "help"
    | Fallback

  /** The message mentions a keyword, ignoring the case of ASCII letters. */
  predicate Mentions(message: string, keyword: string)
  {
    Includes(ToLowerCase(message), keyword)
  }

  /** The command for a message, given whether the registry holds a session
      under the id. The first test that succeeds decides: missing input,
      unknown session, a number, "start"/"new game", "status"/"info",
      "help", and the fallback. */
  function Route(sessionId: string, message: string, known: bool): (c: Command)
    ensures c == Reject <==> sessionId == [] || message == []
    ensures c == StartFirstGame <==> sessionId != [] && message != [] && !known
    ensures c.GuessNumber? <==> sessionId != [] && message != [] && known && ParseInt(message).Int?
    ensures c.GuessNumber? ==> ParseInt(message) == Int(c.n)
    ensures c == Restart <==>
      sessionId != [] && known && ParseInt(message).NaN?
      && (Mentions(message, "start") || Mentions(message, "new game"))
    ensures c == ShowStatus ==> Mentions(message, "status") || Mentions(message, "info")
    ensures c == ShowHelp ==> Mentions(message, "help")
    ensures c == ShowHelp || c == ShowStatus || c == Fallback ==>
      sessionId != [] && known && ParseInt(message).NaN?
      && !Mentions(message, "start") && !Mentions(message, "new game")
    ensures c == ShowHelp || c == Fallback ==>
      !Mentions(message, "status") && !Mentions(message, "info")
    ensures c == Fallback ==> message != [] && !Mentions(message, "help")
  {
    var p := ParseInt(message);
    var restart := Mentions(message, "start") || Mentions(message, "new game");
    var status := Mentions(message, "status") || Mentions(message, "info");
    var help := Mentions(message, "help");
    if sessionId == [] || message == [] then Reject
    else if !known then StartFirstGame
    else if p.Int? then GuessNumber(p.value)
    else if restart then Restart
    else if status then ShowStatus
    else if help then ShowHelp
    else Fallback
  }

  /** The routing ignores the case of ASCII letters: a message written in
      capitals is routed as the same message in small letters. */
  lemma RouteIgnoresCase(sessionId: string, message: string, known: bool)
    ensures Route(sessionId, ToUpperCase(message), known) == Route(sessionId, message, known)
  {
    ParseIntIgnoresCase(message);
    LowerOfUpper(message);
  }

  /** A message that parses as a number is a guess, whatever words follow
      it: "42 start" guesses 42 and does not restart the game. */
  lemma NumberBeforeKeywords(sessionId: string, n: int, words: string)
    requires sessionId != []
    requires words == [] || !IsDigitIn(words[0], 10)
    requires n == 0 && words != [] ==> words[0] != 'x' && words[0] != 'X'
    ensures Route(sessionId, NumberToString(n) + words, true) == GuessNumber(n)
  {
    ParseIntOfNumberString(n, words);
  }
}
