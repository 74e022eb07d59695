# Number-guessing game, modelled in Dafny

The system is a number-guessing game that exists in two copies. In the API
server (`api-server/server.js`), each player has a `GameSession` object. A
session holds a secret target in 1..100, an attempt budget (10 for the
difficulty `"easy"`, 7 for any other value), the attempts left, and three
flags: started, over and won. The server keeps the sessions in a `Map`
keyed by session id. Its routes start a game, take a guess, report the
status, delete a session and list every session. A chatbot route reads
free text and decides which of these the text asks for.

The browser copy (`web-version/script.js`) is the class `NumberGuessingGame`.
It runs the same game on the page. It has no range check and no "over"
flag: a finished game is one whose `gameStarted` flag `endGame` has turned
back to false.

Modules and files:

- `js_text.dfy`, module `JsText`: the string built-ins the game relies on.
  `parseInt` without a radix follows ECMA-262, section 19.2.5: it skips
  leading white space, reads an optional sign, treats a `0x`/`0X` prefix as
  hexadecimal, reads the longest run of digits, and gives NaN when the run
  is empty. The module also has `toLowerCase`, `includes`, and the decimal
  string of an integral Number.
- `game_session.dfy`, module `GameSessions`: the server's session as a value
  (`Session`), the functions that say what each method does to it, lemmas
  about sequences of guesses, and the class `GameSession`. The class methods
  update the fields in place and are proved equal to those functions.
- `chatbot.dfy`, module `Chatbot`: the chatbot's routing decision, as a pure
  function from the session id, the message and "is the id known?" to a
  command.
- `registry.dfy`, module `SessionRegistry`: the class `Registry` around the
  map of sessions, with one method per route. Each method states the new
  map of session values in terms of the old one.
- `web_game.dfy`, module `WebGame`: the browser copy, as a value (`State`),
  its functions and lemmas, and the class `NumberGuessingGame`.
- `agreement.dfy`, module `Agreement`: on every guess that parses to NaN or
  to an integer in 1..100, the two copies give answers that `Agree` pairs.
  `Agree` pairs results of the same kind, and also pairs the server's
  "already over" with the page's "not started". It ignores the target of a
  loss and the guess of a hint, which only the server returns. The copies
  differ on integers outside 1..100 and on when the target is shown. They
  also differ on a finished game, which the server refuses as already over
  and the page as not started.

The server's `startGame` only sets the flags. It does not reset the
attempts and does not draw a new target. The model follows the code. The
session invariant `Consistent` says:

- the target is in 1..100;
- the budget is the one the difficulty sets;
- `0 <= attempts <= maxAttempts`;
- `won ==> gameOver` and `gameOver ==> gameStarted`;
- every game that is not over, started or not, has an attempt left;
- a lost game has 0 attempts.

`startGame` therefore keeps the invariant only when an attempt is left.
`GameSessions.RestartAfterLoss` shows what happens otherwise: a lost session
that is started again goes to -1 attempts on its next miss. The server never
reaches this, because every start builds a fresh session
(`Registry.Create`). So every session the registry holds keeps the
invariant (`Registry.Valid`).

## Model

| member | source | states |
|---|---|---|
| `GameSessions.NewSession` | api-server/server.js:18-27 | a new session has 10 attempts exactly when the difficulty is "easy" and 7 otherwise, starts with all its attempts, is not started, over or won, and keeps the session invariant |
| `GameSessions.GameSession.constructor` | api-server/server.js:18-27 | the constructed object's fields are those of `NewSession` for the given id, difficulty and target |
| `GameSessions.Started` | api-server/server.js:29-38 | starting opens the game and clears the won flag, keeps the attempts and the target as they were, and keeps the invariant when an attempt is left |
| `GameSessions.GameSession.StartGame` | api-server/server.js:29-38 | updates the fields as `Started` says and reports the remaining attempts and the difficulty |
| `GameSessions.Guess` | api-server/server.js:40-88 | not started, already over and invalid input (NaN or outside 1..100) are reported in that order and leave every field unchanged; an accepted guess costs exactly one attempt and changes nothing else but the outcome flags; a correct guess wins even on the last attempt, with attemptsUsed = maxAttempts - attempts; a miss on the last attempt loses and reveals the target; otherwise the hint says lower exactly when the guess is above the target and the game stays open; the invariant is kept |
| `GameSessions.GameSession.MakeGuess` | api-server/server.js:40-88 | the fields and the result are exactly those `Guess` gives for parseInt of the input |
| `GameSessions.MakeNumericGuess` | api-server/server.js:219-221 | makeGuess called with a Number, which it turns back into its decimal string, acts as `Guess` on that very integer |
| `GameSessions.StatusOf` | api-server/server.js:90-101 | the status repeats every field and reveals the target exactly when the game is over, otherwise reports it hidden |
| `GameSessions.GameSession.GetStatus` | api-server/server.js:90-101 | reads the object without changing it and gives `StatusOf` of its fields |
| `GameSessions.PlayCountsAttempts` | api-server/server.js:54-72 | after any sequence of guesses the invariant still holds and the attempts have dropped by exactly the number of accepted guesses |
| `GameSessions.OverIsFinal` | api-server/server.js:45-47 | once a game is over, every further guess is refused as already over and nothing changes |
| `GameSessions.MissesExhaust` | api-server/server.js:54-72 | as many in-range misses as there are attempts left give hints and then a final loss that reveals the target, leaving the game over, not won, with 0 attempts |
| `GameSessions.RestartAfterLoss` | api-server/server.js:29-32 | starting a lost session again keeps 0 attempts, so the next miss leaves -1 attempts and breaks the invariant |
| `JsText.ParseInt` | api-server/server.js:49 | text that is empty after the white space is NaN; a number starts, after the white space, with a sign or a decimal digit; only a leading minus sign gives a negative number |
| `JsText.NumberToString` | api-server/server.js:221 | the decimal text of an integer is non-empty, starts with "-" exactly when the integer is negative, has only decimal digits after the sign, and has no leading zero except in "0" itself |
| `JsText.ParseIntOfNumberString` | api-server/server.js:49-50 | parseInt reads back the decimal string of every integer and ignores what follows a non-digit, except that "0" followed by x or X is a hexadecimal prefix |
| `JsText.ParseIntSkipsWhiteSpace` | api-server/server.js:49 | leading white space never changes what parseInt reads |
| `JsText.ParseIntNeedsADigit` | api-server/server.js:49-52 | a text with no decimal digit parses to NaN and so is an invalid guess |
| `JsText.ToLowerCase` | api-server/server.js:231 | lower-casing keeps the length and maps each character through ASCII lower-casing |
| `JsText.Includes` | api-server/server.js:232 | includes holds exactly when the keyword occurs at some position of the text |
| `Chatbot.Route` | api-server/server.js:196-267 | the command follows the fixed order: missing id or message, unknown session, integer-parsable message, "start"/"new game", "status"/"info", "help", fallback; each command holds exactly when every earlier test fails and its own succeeds |
| `Chatbot.RouteIgnoresCase` | api-server/server.js:231-254 | a message in capital letters is routed exactly like the same message in small letters |
| `Chatbot.NumberBeforeKeywords` | api-server/server.js:218-232 | a message that starts with a number is a guess of that number even when keywords follow it |
| `SessionRegistry.Registry.constructor` | api-server/server.js:14 | the registry starts empty and valid |
| `SessionRegistry.Registry.Create` | api-server/server.js:119-122 | creating replaces whatever session the id had with a fresh started one and leaves every other entry as it was |
| `SessionRegistry.Registry.Start` | api-server/server.js:112-128 | a missing id is refused and changes nothing; otherwise the id gets a fresh started session and the reply carries its full attempt budget |
| `SessionRegistry.Registry.MakeGuess` | api-server/server.js:131-153 | a missing id, a missing guess or an unknown id is refused and leaves the map unchanged; otherwise only that session changes, as `Guess` says |
| `SessionRegistry.Registry.GetStatus` | api-server/server.js:156-168 | an unknown id is not found; a known one gets `StatusOf` its stored session, which carries the id, reveals the target exactly when that game is over and reports attempts within the budget |
| `SessionRegistry.Registry.Delete` | api-server/server.js:171-179 | reports true exactly when the id was present and removes that entry only |
| `SessionRegistry.DeleteThenStatus` | api-server/server.js:171-179 | after a delete the status of that id is not found and the other sessions are unchanged |
| `SessionRegistry.Registry.ListSessions` | api-server/server.js:182-193 | lists one status per stored id, each carrying that id |
| `SessionRegistry.Registry.ChatGuess` | api-server/server.js:219-221 | makeGuess with the parsed Number changes only that id's session, as `Guess` on that integer says, and keeps every session valid |
| `SessionRegistry.Registry.Chat` | api-server/server.js:196-268 | carries out the command `Route` chooses: a fresh session on start or restart, the session's `Guess` on a number, its status on status or info, and no change otherwise |
| `WebGame.Initial` | web-version/script.js:2-11 | the page starts with no game running, easy selected and 0 attempts, within the invariant |
| `WebGame.NumberGuessingGame.constructor` | web-version/script.js:2-11 | the constructed object's fields are the `Initial` state |
| `WebGame.Start` | web-version/script.js:49-66 | starting runs a game with the given target, 10 attempts if easy is selected and 7 otherwise, and all attempts left |
| `WebGame.NumberGuessingGame.StartGame` | web-version/script.js:49-66 | updates the fields as `Start` says |
| `WebGame.Toggle` | web-version/script.js:68-71 | toggling flips the difficulty and leaves the target, the attempts, the budget and the running flag alone |
| `WebGame.NumberGuessingGame.ToggleDifficulty` | web-version/script.js:68-71 | updates the fields as `Toggle` says |
| `WebGame.Submit` | web-version/script.js:73-97 | submitting changes the state exactly as makeGuess does; NaN asks for a number, a correct guess congratulates, a last miss reveals the target, otherwise it shows lower or higher |
| `WebGame.NumberGuessingGame.SubmitGuess` | web-version/script.js:73-97 | the fields and the message shown are those `Submit` gives |
| `WebGame.Ended` | web-version/script.js:113-118 | ending stops the game and changes nothing else |
| `WebGame.NumberGuessingGame.EndGame` | web-version/script.js:113-118 | updates the fields as `Ended` says |
| `WebGame.Reset` | web-version/script.js:120-130 | resetting sets the attempts to 0 and changes nothing else |
| `WebGame.NumberGuessingGame.ResetGame` | web-version/script.js:120-130 | updates the fields as `Reset` says |
| `WebGame.GameStateOf` | web-version/script.js:141-149 | the target is shown exactly while a game runs and is null otherwise; the difficulty reads "Easy" exactly when easy is selected |
| `WebGame.NumberGuessingGame.GetGameState` | web-version/script.js:141-149 | reads the object without changing it and gives `GameStateOf` of its fields |
| `WebGame.Guess` | web-version/script.js:151-195 | not started and NaN are refused without change; every integer, in range or not, costs one attempt; a correct guess succeeds even on the last attempt; a last miss is game over; a win or a loss ends the game and a hint keeps it running |
| `WebGame.NumberGuessingGame.MakeGuess` | web-version/script.js:151-195 | the fields and the result are exactly those `Guess` gives for parseInt of the input |
| `WebGame.EndedRefusesGuesses` | web-version/script.js:151-154 | after endGame every later makeGuess is refused as not started and changes nothing |
| `WebGame.PlayKeepsValid` | web-version/script.js:161-179 | the invariant holds after any sequence of guesses and the attempts never rise |
| `Agreement.StepAgrees` | web-version/script.js:151-195 | on a guess that is NaN or in 1..100, the page's makeGuess gives an answer that `Agree` pairs with the server's, and the two states still correspond |
| `Agreement.CopiesAgree` | api-server/server.js:40-88 | over any sequence of such guesses the two copies give answers that `Agree` pairs, one by one, and end in corresponding states |
| `Agreement.StartsCorrespond` | web-version/script.js:49-59 | a game both copies start with the same target and difficulty begins in corresponding states: same target, budget and attempts, and taking guesses |
| `Agreement.FinishedDiverges` | api-server/server.js:45-47 | after a won or lost game the server refuses every guess as already over, while the page, whose endGame cleared gameStarted, refuses it as not started; neither changes state |
| `Agreement.OutOfRangeDiverges` | api-server/server.js:50 | an integer outside 1..100 is refused by the server at no cost but costs the page an attempt |
| `Agreement.RunningTargetDiverges` | web-version/script.js:147 | while a game runs the server's status hides the target and the page's state shows it |

## Left out

- The Express plumbing: middleware, CORS, body parsing, the health route, the error and 404 handlers and `app.listen`. It is HTTP input and output, not game logic. HTTP status codes become the `Fail` results of the registry methods.
- The message strings and emoji of every reply. Results carry only their kind and their numbers.
- `Math.random`: every operation that creates a game takes the target as a parameter in 1..100. How good the randomness is cannot be verified.
- The page's DOM work: element lookup, event binding, `showResult`, `clearResult`, `updateAttemptsDisplay`, the help modal, clearing the input field and the `DOMContentLoaded` hook. `SubmitGuess` returns the kind of message `showResult` would show.
- WebGame.NumberGuessingGame.SubmitGuess: requires a running game. The source has no such check; the page enables the Submit button only between `startGame` and `endGame`.
- WebGame.NumberGuessingGame.ResetGame: requires that no game is running. The page enables the Continue button only after `endGame`.
- The other buttons' disabled state is not modelled. `StartGame` and `ToggleDifficulty` may therefore be called at any time, which the page does not allow.
- GamePanel.java, HelpWindow.java and test-api.js are not part of this model. The first is a separate Swing copy of the game with different rules, the second a static text window, and the third a client that only prints responses.
- Concurrent requests for the same session id. The model is sequential.
- JavaScript Numbers are unbounded integers here. In JavaScript, parseInt returns a Number, which loses precision above 2^53 (about 16 digits): `parseInt("9007199254740993")` is 9007199254740992. `String(n)` writes integers of 10^21 and more in exponent form, so the chatbot's second parse of such a number would read its first digit only.
- JsText.ToLowerCase: lower-cases ASCII letters only. This loses nothing for the chatbot: its keywords ("start", "new game", "status", "info", "help") are ASCII, and no non-ASCII character lower-cases to an ASCII letter except U+0130 and U+212A (Kelvin sign), which become "i̇" and "k". U+212A can complete no keyword. U+0130 gives "i" followed by a combining dot, which cannot be followed by "nfo" in the keyword "info". So ASCII-only lower-casing finds exactly the matches full lower-casing finds. The model's characters are Unicode scalar values rather than UTF-16 code units.
- SessionRegistry.Registry.MakeGuess: the guess is the request's text. A JSON number is taken as its decimal string, and a numeric guess of 0, which the route refuses as missing, is not distinguished from the text "0".
- SessionRegistry.Registry.ListSessions: gives a map from id to status. The order in which the `Map` was filled is not kept.
- The difficulty is a string, and the routes' default of `"easy"` is left to the caller.
