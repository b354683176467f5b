# Lucas Lichess Bridge, modelled in Dafny

Lucas Chess speaks UCI to this program as though it were a chess engine. The program plays every game on lichess.org. A `go` command does not start a search. It sends the human's last move to Lichess, waits for the bot opponent's reply, and answers with that reply as the `bestmove`.

The repository ships two programs, and this model covers both:

- **`UCIbridgeForLucas.py`, class `LichessBridge`**
  - One object reads UCI lines from standard input and dispatches on the first word.
  - It keeps the game settings, the connection, the bound game, the colour and a mirror board.
  - It submits moves and reads the opponent's moves from a game stream.
  - Each search starts the game stream, whose events fill an internal move queue and confirm the colour before the search decides whether the human's move must be sent.
  - The search then drains that queue until a move counting more than the local moves arrives, the game ends, the stop flag is raised or the move timeout runs out.
- **`UCIbriderForLucasPreCompiled.py`, the packaged variant**
  - A reader thread answers `uci` and `isready` by itself and forwards every other non-blank line to a command queue.
  - The `LichessWorker` drains that queue one command at a time.
  - Options are a dictionary of typed values.
  - It finds or creates a game, and waits for the bot's move by polling the game export. A `stop` or `quit` arriving on the command queue interrupts the wait.
  - All replies go to a response queue, and a final `QUIT_SIGNAL` ends the writer.

## Modules

| file | module | models |
|---|---|---|
| `base.dfy` | `Base` | `Option` and small sequence facts |
| `text.dfy` | `Text` | the Python `str` operations both programs are built from: `strip()`, `split()`, `split(sep, 1)`, `lower()`, `replace`, `in`/`index`, clamped slicing, `int()` and `str()` |
| `chess.dfy` | `Chess` | the mirror board as a starting setup plus the list of moves pushed: side to move, ply count, last move, replaying a move list up to the first illegal move |
| `uci.dfy` | `Uci` | the shape of the lines both programs write: `info string` notices, `id`/`option` declarations, the null move `bestmove 0000` |
| `bridge.dfy` | `Bridge` | class `LichessBridge` |
| `reader.dfy` | `Reader` | `stdin_reader_thread` and the two global queues (class `Queues`) |
| `worker.dfy` | `Worker` | class `LichessWorker` |

Each class has the fields of its Python class and a `State()` snapshot.

- Every method that changes state ensures `State() == XSpec(old(State()), inputs)`.
- `XSpec` is a pure function. The lemmas state what the program promises about it.
- The loops of the source stay loops, each with its invariant:
  - replaying moves;
  - the poll loops around the game list, the game export and the move queue;
  - consuming stream events;
  - the reader's line loop;
  - the worker's and the bridge's command loops.
- Lichess answers become input values, one per remote call.
- A sequence of answers stands for a sequence of polls.
- Chess legality and FEN parsing belong to the python-chess library. They come in as a `Rules` value, whose `legal` and `fenOk` are arbitrary functions.

## Model

| member | source | states |
|---|---|---|
| Text.LowerKeepsSpaces | UCIbridgeForLucas.py:152 | lower-casing a character never changes whether it is white space, so a line and its lower-cased form have the same words |
| Text.LowerConcat | UCIbridgeForLucas.py:213 | `lower()` of a concatenation is the concatenation of the lower-cased parts |
| Text.SkipSpaces | UCIbridgeForLucas.py:147 | the index reached is the first non-space at or after the start, or the end; everything skipped is white space |
| Text.SkipSpacesBack | UCIbridgeForLucas.py:147 | walking back from an end stops just after the last non-space, or at the lower bound; everything passed is white space |
| Text.StripEnd | UCIbridgeForLucas.py:147 | the end of the retained part never precedes its start |
| Text.Strip | UCIbriderForLucasPreCompiled.py:58 | `strip()` returns a contiguous middle slice; everything removed on either side is white space; a non-empty result starts and ends with a non-space |
| Text.StripKeeps | UCIbriderForLucasPreCompiled.py:58 | text without leading or trailing white space is left unchanged |
| Text.StripIdempotent | UCIbriderForLucasPreCompiled.py:58 | stripping twice is stripping once |
| Text.Slice | UCIbridgeForLucas.py:217-218 | a Python slice with out-of-range bounds clamped: its length is `min(b, len) - a` or 0, and element `i` is `s[a + i]` |
| Text.FindFrom | UCIbridgeForLucas.py:215-216 | the result is the first occurrence at or after the start; None means no occurrence anywhere from the start |
| Text.Find | UCIbridgeForLucas.py:215-216 | `index` returns the first occurrence; None exactly when `in` is false |
| Text.FindFirst | UCIbridgeForLucas.py:216 | an occurrence with no earlier occurrence is what `index` returns |
| Text.SplitOnce | UCIbriderForLucasPreCompiled.py:369 | `split(sep, 1)` gives one part, the whole text, exactly when `sep` is absent; otherwise two parts that rejoin around the first `sep` |
| Text.ReplaceAbsent | UCIbriderForLucasPreCompiled.py:370 | `replace` of a pattern that does not occur returns the text unchanged |
| Text.WordLength | UCIbridgeForLucas.py:152 | the first word is the longest space-free prefix, ended by white space or the end of the text |
| Text.Split | UCIbridgeForLucas.py:323 | `split()` yields non-empty words free of white space, and yields nothing exactly when the text is blank |
| Text.WordLengthOfWord | UCIbridgeForLucas.py:152 | a word followed by white space or nothing is read as the whole first word |
| Text.SplitUnwords | UCIbridgeForLucas.py:323 | round trip: splitting words joined by single spaces returns those words |
| Text.ParseInt | UCIbridgeForLucas.py:255 | `int()` fails on blank text and on text whose first non-space is not a digit or a sign |
| Text.NatToStringDigits | UCIbridgeForLucas.py:424 | the decimal text of a natural number is non-empty, all digits, and reads back as that number |
| Text.ParseIntOfBody | UCIbridgeForLucas.py:255 | `int()` of a digit body, with underscores between digits allowed, is that body's value |
| Text.ParseIntOfNegative | UCIbridgeForLucas.py:255 | `int()` of a minus sign and a digit body is the negated value |
| Text.ParseIntRoundTrip | UCIbridgeForLucas.py:255 | round trip: `int(str(n)) == n` for every integer |
| Chess.PushFlipsTurn | UCIbridgeForLucas.py:325 | pushing a move passes the turn to the other side |
| Chess.ReplayMoves | UCIbriderForLucasPreCompiled.py:155-157 | the move loop computes the replay specification: the board reached and whether a move failed |
| Chess.Accepted | UCIbridgeForLucas.py:324-325 | the number of moves accepted before the first illegal one never exceeds the list |
| Chess.ReplayKeepsLegalPrefix | UCIbridgeForLucas.py:320-328 | the move loop pushes exactly the legal prefix, stops at the first illegal move, and fails exactly when a move was rejected |
| Chess.AllLegalReplaysAll | UCIbridgeForLucas.py:324-325 | when every move is legal in turn, all are pushed and nothing fails |
| Uci.IdLineDeclares | UCIbridgeForLucas.py:191-192 | an `id` line is a declaration |
| Uci.OptionLineDeclares | UCIbridgeForLucas.py:194-206 | an `option name` line is a declaration |
| Uci.DeclarationIsNoHandshake | UCIbridgeForLucas.py:208 | no declaration can be mistaken for `uciok` or `readyok` |
| Uci.InfoIsInfo | UCIbridgeForLucas.py:94-95 | `info()` writes an `info string` line |
| Uci.AppendsInfoTrans | UCIbridgeForLucas.py:94-95 | adding notices, then more notices, only adds notices |
| Uci.AppendsInfoOne | UCIbridgeForLucas.py:94-95 | one `info()` call adds one notice and nothing else |
| Uci.FindValueMarker | UCIbridgeForLucas.py:215-216 | in `setoption name N value V` with a one-word name, the `value` marker is found right after the name |
| Uci.NoMarkerInName | UCIbridgeForLucas.py:215-216 | no earlier position of such a line holds the `value` marker |
| Bridge.CommandIsFirstWord | UCIbridgeForLucas.py:152-172 | the command kind is the lower-cased first word of the line, whatever follows it |
| Bridge.QuitIndex | UCIbridgeForLucas.py:168-170 | the main loop handles exactly the lines before the first `quit`, and that line is a `quit` |
| Bridge.UciBlockEndsWithUciok | UCIbridgeForLucas.py:188-209 | the `uci` reply is twelve declarations, none of them `uciok`, and then `uciok` |
| Bridge.LowerNoSpace | UCIbridgeForLucas.py:226 | lower-casing a one-word name keeps it one word |
| Bridge.ParseSetOptionNameValue | UCIbridgeForLucas.py:213-224 | `setoption name N value V` parses to name N and value `V.strip()`, whatever spaces V holds |
| Bridge.ValuePartOf | UCIbridgeForLucas.py:218 | the value is read from seven characters past the marker |
| Bridge.LowerSetOptionLine | UCIbridgeForLucas.py:213 | lower-casing the line lower-cases the name and the value in place |
| Bridge.NamePartOf | UCIbridgeForLucas.py:217-220 | the slice between `setoption` and the marker, stripped and without `name `, is the name |
| Bridge.ParseSetOptionNoValue | UCIbridgeForLucas.py:221-224 | a line without a `value` clause sets the option to the empty string |
| Bridge.Clamp | UCIbridgeForLucas.py:255 | `max(lo, min(hi, n))` is within the bounds, is `n` when `n` is in range, and is the nearer bound otherwise |
| Bridge.KeyOf | UCIbridgeForLucas.py:226-270 | the option is recognised exactly when its lower-cased name is one the handler tests; it is the token exactly for `lichesstoken` |
| Bridge.SpinValue | UCIbridgeForLucas.py:254-264 | a value `int()` rejects leaves the setting as it was, because the handler catches the error; a parsed one is clamped and kept when in range |
| Bridge.ComboValue | UCIbridgeForLucas.py:240-252 | a combo takes the lower-cased value when it is one of the choices and otherwise keeps the old one, so it always stays a valid choice |
| Bridge.CheckValue | UCIbridgeForLucas.py:266-273 | a check option is true exactly for `true`, `1` or `on`, in any case |
| Bridge.ApplyOption | UCIbridgeForLucas.py:230-273 | each recognised option changes its own setting and nothing else; an unknown one changes nothing; settings in their ranges stay in their ranges |
| Bridge.DefaultsValid | UCIbridgeForLucas.py:101-113 | the initial settings are within the declared ranges and choices |
| Bridge.IsReadyWithoutToken | UCIbridgeForLucas.py:278-289 | without a token, every `isready` adds exactly one `readyok` and changes nothing else, whatever Lichess would answer |
| Bridge.IsReadyReplies | UCIbridgeForLucas.py:278-289 | `isready` always ends with `readyok`, preceded only by notices from the connection attempt |
| Bridge.PositionKeepsLegalPrefix | UCIbridgeForLucas.py:303-328 | `position` resets the board, applies the FEN when it parses, then pushes the legal prefix of the listed moves and stops at the first illegal one |
| Bridge.GoWithoutToken | UCIbridgeForLucas.py:330-338 | without a token, `go` starts no search, raises the stop flag, writes the error notice and the null move, and does not depend on Lichess |
| Bridge.MatchFrom | UCIbridgeForLucas.py:399-404 | the result is the first ongoing game against the opponent, compared case-insensitively; None means no such game |
| Bridge.FindExistingBindsFirstMatch | UCIbridgeForLucas.py:393-418 | a game is found exactly when one is against the configured opponent; the first such game is bound, with its colour |
| Bridge.Params | UCIbridgeForLucas.py:440-453 | the challenge names the opponent, the rated flag and the colour; it adds a variant only when that is not standard; a real-time clock of minutes times 60 seconds, with the increment passed separately; correspondence games get days |
| Bridge.NoPlusInDigits | UCIbridgeForLucas.py:424 | a number's decimal text holds no `+` |
| Bridge.TimeDescReadsBack | UCIbridgeForLucas.py:423-424 | round trip: the `minutes+increment` description splits back into the two numbers |
| Bridge.EventStepEnqueuesOneMove | UCIbridgeForLucas.py:550-595 | one stream event enqueues at most one move, and only when the move count rose; only `gameFull` sets the colour, from the white player's id |
| Bridge.StreamRunAt | UCIbridgeForLucas.py:544-548 | the stream loop's output from event `i` is that event's messages followed by the rest's |
| Bridge.PrependMove | UCIbridgeForLucas.py:591-595 | a move with a higher count before an increasing queue keeps it increasing |
| Bridge.StreamUpdatesIncrease | UCIbridgeForLucas.py:576-595 | game-state events enqueue moves with strictly increasing counts, all above the last known count, and never change the colour |
| Bridge.StreamMovesIncrease | UCIbridgeForLucas.py:535-603 | a stream whose only `gameFull` comes first enqueues strictly increasing move counts, and that `gameFull` fixes the colour |
| Bridge.StreamEndsLast | UCIbridgeForLucas.py:579-601 | a game-over or error message is always the last thing the stream enqueues |
| Bridge.StreamMovesNamed | UCIbridgeForLucas.py:567-594 | every move the stream enqueues is a word of the server's move list, never the empty text |
| Bridge.RepeatedEventIgnored | UCIbridgeForLucas.py:585-595 | an event other than `gameFull` delivered twice in a row enqueues exactly what it enqueues once, and leaves the same colour |
| Bridge.HumanMove | UCIbridgeForLucas.py:645-662 | there is a human move to send exactly when the board has moves, its last move is not the null move `0000` (a false condition), and the side to move is not known to be ours; it is the board's last move |
| Bridge.WaitConsumesPrefix | UCIbridgeForLucas.py:691-733 | the wait consumes a prefix of the move queue of stale messages, up to the message that ends it; an answer is a move whose count exceeds the expected one |
| Bridge.StaleMovesSkipped | UCIbridgeForLucas.py:700-713 | stale moves in front of the queue only cost one poll each: with no stop or timeout among those polls, the wait goes on exactly as if they had not been queued |
| Bridge.WaitAnswersFirstFresh | UCIbridgeForLucas.py:695-713 | when only stale moves precede the first move counting more than expected, and the wait reaches it before the stop flag and the timeout, that move is the answer and the later messages stay queued |
| Bridge.WaitTouchesLittle | UCIbridgeForLucas.py:691-733 | the wait changes only the move queue, notices and, on game over, clears the bound game; it yields a move exactly when a fresh move arrived |
| Bridge.PollAppendsInfo | UCIbridgeForLucas.py:488-523 | polling for the challenge to be accepted writes only notices |
| Bridge.EnsureGameAppendsInfo | UCIbridgeForLucas.py:630-638 | finding or creating a game writes only notices |
| Bridge.SendStepAppendsInfo | UCIbridgeForLucas.py:641-662 | sending the human move writes only notices |
| Bridge.PlayEndsWithOneBestmove | UCIbridgeForLucas.py:626-689 | a search writes notices and then exactly one `bestmove` line, on every path |
| Bridge.AnswerEndsWithBestmove | UCIbridgeForLucas.py:664-681 | waiting for the opponent ends with one `bestmove`: the move, or the null move |
| Bridge.SendStepQueue | UCIbridgeForLucas.py:640-642 | after steps 2 to 4 the queue is the old one followed by everything the stream enqueued for a bound game; named moves stay named |
| Bridge.PlayRelaysFreshMove | UCIbridgeForLucas.py:626-681 | on a bound game, when the queue after the stream holds a move counting more than the local moves behind only stale moves, and the wait reaches it before the stop flag and the timeout, the search answers `bestmove` with that move, pushes it when legal, keeps the game and leaves the later messages queued |
| Bridge.AnswerRelaysFreshMove | UCIbridgeForLucas.py:664-681 | steps 5 and 6 answer `bestmove` with the first fresh move behind stale ones, push it when legal and keep the rest of the queue |
| Bridge.GoRelaysFreshMove | UCIbridgeForLucas.py:330-350 | a `go` with a token, a connection and a bound game answers `bestmove` with the first fresh move the stream delivered, under the conditions of `PlayRelaysFreshMove` |
| Bridge.AnswerKeepsNamed | UCIbridgeForLucas.py:700-711 | the wait only takes messages off the front of the queue |
| Bridge.PlayKeepsNamed | UCIbridgeForLucas.py:626-689 | after a search every queued move still names a move |
| Bridge.GoKeepsNamed | UCIbridgeForLucas.py:330-350 | after `go` every queued move still names a move |
| Bridge.OtherLinesKeepQueue | UCIbridgeForLucas.py:140-172 | lines other than `go` keep the queue, except `ucinewgame`, which empties it |
| Bridge.LineKeepsNamed | UCIbridgeForLucas.py:140-172 | no line puts an empty move text on the queue |
| Bridge.RunKeepsNamed | UCIbridgeForLucas.py:140-172 | from the empty queue `__init__` leaves, every move any search receives names a move |
| Bridge.RunLinesNext | UCIbridgeForLucas.py:140-172 | handling one more line is one more step of the line-by-line specification |
| Bridge.PollKeepsSettings | UCIbridgeForLucas.py:488-523 | polling never changes the settings or the move queue |
| Bridge.ChallengeKeepsSettings | UCIbridgeForLucas.py:420-486 | creating a challenge never changes the settings or the move queue |
| Bridge.EnsureGameKeepsSettings | UCIbridgeForLucas.py:630-638 | finding or creating a game never changes the settings or the move queue |
| Bridge.AnswerKeepsSettings | UCIbridgeForLucas.py:664-681 | waiting for the answer never changes the settings |
| Bridge.PlayKeepsSettings | UCIbridgeForLucas.py:626-689 | a search never changes the settings |
| Bridge.GoKeepsSettings | UCIbridgeForLucas.py:330-350 | `go` never changes the settings |
| Bridge.LineKeepsValidSettings | UCIbridgeForLucas.py:147-172 | every command keeps the settings in range, and only `setoption` changes them |
| Bridge.RunKeepsValidSettings | UCIbridgeForLucas.py:137-183 | every sequence of lines keeps the settings within range; starting from the defaults, no session reaches an out-of-range setting |
| Bridge.LichessBridge.constructor | UCIbridgeForLucas.py:101-132 | a new bridge has the default settings, no connection, no game, the initial board and empty queues |
| Bridge.LichessBridge.Send | UCIbridgeForLucas.py:90-92 | `send` appends the line to the output |
| Bridge.LichessBridge.HandleUci | UCIbridgeForLucas.py:188-209 | `uci` writes the declaration block built from the current settings |
| Bridge.LichessBridge.HandleSetOption | UCIbridgeForLucas.py:211-276 | `setoption` applies the parsed option to the state |
| Bridge.LichessBridge.SetOptionField | UCIbridgeForLucas.py:230-273 | one recognised option updates its field; setting the token also drops the client and the user name |
| Bridge.LichessBridge.Connect | UCIbridgeForLucas.py:363-391 | without a token nothing happens; otherwise Lichess's answer either records the account with a login notice, or drops the client, with a notice when the token is rejected |
| Bridge.LichessBridge.HandleIsReady | UCIbridgeForLucas.py:278-289 | `isready` connects first when a token is set and no client exists, then writes `readyok` |
| Bridge.LichessBridge.ClearQueue | UCIbridgeForLucas.py:738-747 | clearing empties the move queue and reports how many messages it dropped |
| Bridge.LichessBridge.HandleUciNewGame | UCIbridgeForLucas.py:291-301 | `ucinewgame` stops the threads, resets the board, unbinds the game and the colour, and clears the move queue |
| Bridge.LichessBridge.HandlePosition | UCIbridgeForLucas.py:303-328 | `position` sets the board to the position the line describes |
| Bridge.LichessBridge.PushListedMoves | UCIbridgeForLucas.py:320-328 | the moves after ` moves ` are pushed until the first illegal one |
| Bridge.LichessBridge.SetStart | UCIbridgeForLucas.py:306-318 | the board is reset and then set to the FEN when the FEN parses |
| Bridge.LichessBridge.PushMoves | UCIbridgeForLucas.py:324-325 | the move loop leaves the board the replay specification gives |
| Bridge.LichessBridge.HandleStop | UCIbridgeForLucas.py:352-358 | `stop` raises the stop flag and changes nothing else |
| Bridge.LichessBridge.HandleGo | UCIbridgeForLucas.py:330-350 | `go` refuses with the null move without a token or a connection, and otherwise clears the stop flag and starts the search |
| Bridge.LichessBridge.FindExistingGame | UCIbridgeForLucas.py:393-418 | the game list binds the first game against the opponent, or leaves the state as it was when there is none or the call fails |
| Bridge.LichessBridge.PollForGameStart | UCIbridgeForLucas.py:488-523 | the poll loop ends bound to the accepted game, or unbound after the stop flag or 30 polls |
| Bridge.LichessBridge.CreateChallenge | UCIbridgeForLucas.py:420-486 | the challenge sent carries the parameters of the current settings; an immediate game is bound, otherwise the loop polls for acceptance |
| Bridge.LichessBridge.StreamWorker | UCIbridgeForLucas.py:535-603 | the stream loop enqueues what the stream specification gives for the events, up to the first end |
| Bridge.LichessBridge.StreamEventAt | UCIbridgeForLucas.py:544-548 | one loop turn enqueues that event's messages and leaves the remainder of the stream's output to come |
| Bridge.LichessBridge.HandleEvent | UCIbridgeForLucas.py:550-595 | one event enqueues its messages, updates the colour on `gameFull`, and finishes on a terminal status |
| Bridge.LichessBridge.SendMove | UCIbridgeForLucas.py:605-621 | without a bound game nothing is sent; otherwise it reports whether Lichess accepted the move, announces a rejection, and changes nothing else |
| Bridge.LichessBridge.WaitForMove | UCIbridgeForLucas.py:691-733 | the wait loop takes messages off the queue until a fresh move, game over, a stream error, the stop flag or the time budget |
| Bridge.LichessBridge.Play | UCIbridgeForLucas.py:626-689 | the search ensures a game, runs the stream, sends the human move if there is one given the colour the stream confirmed, then answers; it returns the move it sent |
| Bridge.LichessBridge.EnsureGame | UCIbridgeForLucas.py:631-638 | an unbound bridge looks for an existing game and otherwise challenges |
| Bridge.LichessBridge.SendHumanMove | UCIbridgeForLucas.py:641-662 | the stream is started and runs over its events, and the board's last move is then submitted when it is the human's by the colour the stream left |
| Bridge.LichessBridge.Answer | UCIbridgeForLucas.py:664-681 | the bot's move is pushed and sent as `bestmove`; otherwise the null move is sent |
| Bridge.LichessBridge.Cleanup | UCIbridgeForLucas.py:761-772 | clean-up raises the stop flag and ends the stream, and changes nothing else |
| Bridge.LichessBridge.HandleLine | UCIbridgeForLucas.py:140-172 | one line is dispatched as the line specification says; it asks to quit exactly on `quit`, and then changes nothing |
| Bridge.LichessBridge.Run | UCIbridgeForLucas.py:137-183 | the main loop handles exactly the lines before the first `quit`, each as the line specification says, then cleans up |
| Reader.Classify | UCIbriderForLucasPreCompiled.py:58-81 | a forwarded command is the stripped line itself, never empty, `uci` or `isready` |
| Reader.Queues.constructor | UCIbriderForLucasPreCompiled.py:46-47 | both global queues start empty |
| Reader.ReadStdin | UCIbriderForLucasPreCompiled.py:50-83 | the reader adds every line's reply to the response queue and every forwarded line to the command queue, in order, and then `quit` |
| Reader.RouteStep | UCIbriderForLucasPreCompiled.py:56-81 | reading one more line adds only that line's reply and forward |
| Reader.ForwardedCommands | UCIbriderForLucasPreCompiled.py:58-81 | every command the worker receives from the reader is non-empty, already stripped, and neither `uci` nor `isready` |
| Reader.ForwardedLine | UCIbriderForLucasPreCompiled.py:79-81 | a single forwarded line has that form |
| Reader.CommandsInOrder | UCIbriderForLucasPreCompiled.py:79-81 | lines are forwarded in arrival order: the commands of two stretches of input are their concatenation |
| Reader.EveryLineRouted | UCIbriderForLucasPreCompiled.py:58-81 | every input line is forwarded, answered or ignored as blank, so nothing is lost |
| Reader.RepliesCounted | UCIbriderForLucasPreCompiled.py:63-78 | the response queue holds exactly one `readyok` per `isready` line and one `uciok` per `uci` line |
| Reader.ReplyCounts | UCIbriderForLucasPreCompiled.py:63-78 | one line's reply holds `readyok` exactly for `isready` and `uciok` exactly for `uci` |
| Reader.UciReplyCounts | UCIbriderForLucasPreCompiled.py:63-76 | the `uci` reply holds one `uciok` and no `readyok` |
| Reader.HandshakeCounts | UCIbriderForLucasPreCompiled.py:63-76 | declarations, then `uciok`, then a notice hold one `uciok` and no `readyok` |
| Reader.HeaderDeclares | UCIbriderForLucasPreCompiled.py:64-74 | every line of the `uci` reply before `uciok` is a declaration |
| Worker.InitialTyped | UCIbriderForLucasPreCompiled.py:88-96 | the initial options give Minutes, Increment and Rated integer values (a Python bool is an int) and the rest strings |
| Worker.ErrorIsInfo | UCIbriderForLucasPreCompiled.py:39-43 | `log_error` adds exactly one notice |
| Worker.PrefixDispatch | UCIbriderForLucasPreCompiled.py:111-124 | a command is dispatched on its prefix, so `gofish` counts as `go`; only the exact `quit` quits, and `stop` outside a wait is unhandled |
| Worker.NoPrefixInWord | UCIbriderForLucasPreCompiled.py:370 | a one-word name never contains the `setoption name ` prefix |
| Worker.ParseAssignmentNameValue | UCIbriderForLucasPreCompiled.py:369-371 | `setoption name N value V` parses to name N and value `V.strip()` |
| Worker.NameAfterPrefix | UCIbriderForLucasPreCompiled.py:370 | removing the prefix and stripping leaves the name |
| Worker.ParseAssignmentNoValue | UCIbriderForLucasPreCompiled.py:369-371 | without ` value ` the value is empty and the name is what is left once the prefix is removed |
| Worker.ConvertedByType | UCIbriderForLucasPreCompiled.py:383-390 | a value is converted by the type of the stored option: `int()` for integers (failing when it raises), as given for strings; the stored type never changes |
| Worker.ActionsKeepOptions | UCIbriderForLucasPreCompiled.py:375-381 | the VerifyConnection and Resign buttons change no option and no command |
| Worker.UnknownOptionIgnored | UCIbriderForLucasPreCompiled.py:396-397 | an unknown option name changes nothing |
| Worker.OptionStored | UCIbriderForLucasPreCompiled.py:383-399 | a known option stores the converted value, or logs a parse error and keeps the options when conversion fails |
| Worker.SetOptionStores | UCIbriderForLucasPreCompiled.py:383-395 | a known option that is not a button takes the store path |
| Worker.IntOptionUnclamped | UCIbriderForLucasPreCompiled.py:385-386 | Minutes and Increment take any integer as given; they are not clamped |
| Worker.RatedTrueRaises | UCIbriderForLucasPreCompiled.py:385-386 | `Rated` = `true` fails, because the bool default takes the `int()` branch; the parse error is logged |
| Worker.RatedOneIsInt | UCIbriderForLucasPreCompiled.py:385-386 | `Rated` = `1` stores the integer 1 |
| Worker.UpdateKeepsTyped | UCIbriderForLucasPreCompiled.py:383-390 | storing a value of the option's type keeps every option typed |
| Worker.SetOptionKeepsQueue | UCIbriderForLucasPreCompiled.py:367-399 | `setoption` never touches the command queue |
| Worker.SetOptionKeepsTypes | UCIbriderForLucasPreCompiled.py:367-399 | `setoption` keeps every option with its type |
| Worker.StoreKeepsTypes | UCIbriderForLucasPreCompiled.py:383-395 | storing an option, including the token and its authentication, keeps every option typed |
| Worker.StoreOptions | UCIbriderForLucasPreCompiled.py:383-395 | storing changes exactly the named option, to its converted value, or nothing |
| Worker.ValidateOnlyResponds | UCIbriderForLucasPreCompiled.py:414-436 | validation writes notices only; it writes exactly one when not connected |
| Worker.AuthenticateOutcome | UCIbriderForLucasPreCompiled.py:401-412 | authentication connects exactly when Lichess accepts the token, records the account id then, and writes only notices |
| Worker.ResignClearsGame | UCIbriderForLucasPreCompiled.py:438-447 | resigning always unbinds the game; a notice is written exactly when a game was bound, the worker was connected and the resignation succeeded |
| Worker.NewGameResets | UCIbriderForLucasPreCompiled.py:132-137 | `ucinewgame` resigns, unbinds, clears the colour and resets the board, keeping options and connection |
| Worker.PositionKeepsOptions | UCIbriderForLucasPreCompiled.py:139-160 | `position` changes only the board and the notices |
| Worker.PlanKeepsOptions | UCIbriderForLucasPreCompiled.py:144-157 | applying a parsed position changes only the board and the notices |
| Worker.PositionKeepsLegalPrefix | UCIbriderForLucasPreCompiled.py:144-160 | the board is the start position plus the legal prefix of the moves; an error is logged exactly when a move was rejected |
| Worker.PositionBareMovesResets | UCIbriderForLucasPreCompiled.py:142-160 | `position startpos moves` with no moves resets the board and then logs an error, as written |
| Worker.BareMovesArgument | UCIbriderForLucasPreCompiled.py:142 | the argument of that command is `startpos moves` |
| Worker.BareMovesMalformed | UCIbriderForLucasPreCompiled.py:146-148 | `startpos moves` has no `moves ` separator to split on |
| Worker.MatchFrom | UCIbriderForLucasPreCompiled.py:232-242 | the result is the first game matching the target id, or the opponent when there is no target; None means no match |
| Worker.CheckWithTarget | UCIbriderForLucasPreCompiled.py:208-236 | with a target id, a game is found exactly when it was exported or listed, it is bound to that id, and nothing else changes |
| Worker.CheckByName | UCIbriderForLucasPreCompiled.py:232-247 | without a target, the first listed game against the opponent, compared case-insensitively, is bound with its colour; without one nothing changes |
| Worker.AutoColor | UCIbriderForLucasPreCompiled.py:263-266 | `Auto` challenges with the colour of the side not to move |
| Worker.ParamsClock | UCIbriderForLucasPreCompiled.py:271-281 | a clock is sent exactly for the `Realtime` mode, in seconds from Minutes; lower-case `realtime` gets no clock; opponent and rated are passed on |
| Worker.StartAppendsInfo | UCIbriderForLucasPreCompiled.py:306-313 | waiting for the game to start changes only the game, the colour and the notices |
| Worker.FindOrCreateAppendsInfo | UCIbriderForLucasPreCompiled.py:201-313 | finding or creating a game changes only the game, the colour and the notices |
| Worker.ExportBindingKeepsColor | UCIbriderForLucasPreCompiled.py:208-217 | a target game confirmed by its export is bound without changing the colour |
| Worker.Observe | UCIbriderForLucasPreCompiled.py:334-356 | one export poll ends the wait only with a new move or a finished game |
| Worker.BotWait | UCIbriderForLucasPreCompiled.py:323-362 | the wait never adds commands to the queue |
| Worker.WaitMovesForward | UCIbriderForLucasPreCompiled.py:334-352 | a move is reported only when some polled export holds a newer move list ending in it |
| Worker.ObserveNewerLine | UCIbriderForLucasPreCompiled.py:336-351 | an export whose whole move list is accepted and longer than the local game is observed as its last move |
| Worker.WaitRelaysNewerExport | UCIbriderForLucasPreCompiled.py:320-362 | the converse of `WaitMovesForward`: with no `stop` or `quit` taken up to poll `j`, no export before poll `j` ending the wait, and a newer move list ending in `m` at poll `j`, the wait reports `m` having taken one command a poll |
| Worker.WaitSpecRelays | UCIbriderForLucasPreCompiled.py:315-365 | under the same conditions the wait reports `m`, pushes it on the local board and takes one command a poll |
| Worker.WaitEndsAtFirstObservation | UCIbriderForLucasPreCompiled.py:323-362 | with no `stop` or `quit` taken up to poll `j` and nothing observed before it, the observation at poll `j` is how the wait ends, one command taken a poll |
| Worker.ObserveEndStatus | UCIbriderForLucasPreCompiled.py:336-356 | an export that replays, has no more plies than the local game and an end status is observed as the game's end |
| Worker.WaitSpecGameOver | UCIbriderForLucasPreCompiled.py:353-356 | under the polling conditions of `WaitSpecRelays`, an end status without newer moves answers "0000" and leaves the board as it was |
| Worker.WaitRunsOut | UCIbriderForLucasPreCompiled.py:323-365 | with no interruption and nothing observed, the wait times out after its last poll, one command taken a poll |
| Worker.WaitSpecTimesOut | UCIbriderForLucasPreCompiled.py:364-365 | after 600 polls without interruption or observation the wait logs the timeout error and answers "0000", the board unchanged |
| Worker.WaitSpecInterrupted | UCIbriderForLucasPreCompiled.py:325-330 | a pending `stop` or `quit` aborts the wait at once with "0000", taking that command |
| Worker.WaitConsumesPrefix | UCIbriderForLucasPreCompiled.py:324-330 | the wait takes a prefix of the command queue, at most one per poll, and it is interrupted exactly when the last command taken is `stop` or `quit` |
| Worker.WaitOutcome | UCIbriderForLucasPreCompiled.py:315-365 | the wait writes only notices; it returns the null move with the board unchanged, or a move pushed onto the board |
| Worker.HumanMoveIsOwn | UCIbriderForLucasPreCompiled.py:184-185 | the move sent is the board's last, played by our colour |
| Worker.InfoIsNotBestmove | UCIbriderForLucasPreCompiled.py:172-174 | a notice is never a `bestmove` line |
| Worker.DiscoveredAppendsInfo | UCIbriderForLucasPreCompiled.py:172-174 | discovery changes only the game, the colour and the notices |
| Worker.AnsweredAfter | UCIbriderForLucasPreCompiled.py:195-199 | notices followed by one `bestmove` count as an answer |
| Worker.AnswerOutcome | UCIbriderForLucasPreCompiled.py:195-199 | answering writes one final `bestmove`, with the board unchanged for the null move or advanced by exactly the move sent |
| Worker.InfoLineNotBestmove | UCIbriderForLucasPreCompiled.py:40-43 | no `info string` line is a `bestmove` |
| Worker.AnsweredTrans | UCIbriderForLucasPreCompiled.py:162-199 | notices before an answer keep it an answer |
| Worker.InfoIsNoAnswer | UCIbriderForLucasPreCompiled.py:162-199 | notices alone are not an answer |
| Worker.SendOutcome | UCIbriderForLucasPreCompiled.py:184-193 | a rejected human move ends `go` with notices only; otherwise `go` is answered with exactly one `bestmove` |
| Worker.AnswerRelays | UCIbriderForLucasPreCompiled.py:195-199 | under the conditions of `WaitSpecRelays`, step 4 ends with `bestmove m` and the local board gains `m` |
| Worker.GoRelaysNewerExport | UCIbriderForLucasPreCompiled.py:162-199 | a connected `go` with a game, whose human move Lichess does not refuse, ends with `bestmove m` and pushes `m` when no `stop` or `quit` is taken up to poll `j`, no earlier export ends the wait and the export at poll `j` is a newer move list ending in `m` |
| Worker.GoOutcome | UCIbriderForLucasPreCompiled.py:162-199 | `go` is answered with exactly one `bestmove`, the null move included, unless Lichess refuses the human's move, which ends it with notices only; the board moves only by the move announced |
| Worker.GoTakesFromQueue | UCIbriderForLucasPreCompiled.py:162-199 | `go` only ever takes commands from the queue |
| Worker.StepShrinksQueue | UCIbriderForLucasPreCompiled.py:109-124 | handling a command never lengthens the command queue |
| Worker.StepKeepsTypes | UCIbriderForLucasPreCompiled.py:109-124 | handling a command keeps every option with its type |
| Worker.RunOutcome | UCIbriderForLucasPreCompiled.py:103-126 | the run ends with `QUIT_SIGNAL` as the last response on `quit`, or with the queue drained; options stay typed |
| Worker.RunEndsWithSignal | UCIbriderForLucasPreCompiled.py:115-117 | a run that quits ends with `QUIT_SIGNAL` |
| Worker.RunDrains | UCIbriderForLucasPreCompiled.py:107-124 | a run that does not quit leaves the command queue empty |
| Worker.RunKeepsTypes | UCIbriderForLucasPreCompiled.py:103-126 | a whole run keeps every option with its type |
| Worker.LichessWorker.constructor | UCIbriderForLucasPreCompiled.py:87-101 | a new worker has the initial options, no connection, no game and the initial board, and shares the global queues |
| Worker.LichessWorker.Respond | UCIbriderForLucasPreCompiled.py:124 | a response is appended to the response queue |
| Worker.LichessWorker.LogError | UCIbriderForLucasPreCompiled.py:39-43 | `log_error` appends its notice |
| Worker.LichessWorker.ResignCurrentGame | UCIbriderForLucasPreCompiled.py:438-447 | resigning follows the resign specification |
| Worker.LichessWorker.HandleUciNewGame | UCIbriderForLucasPreCompiled.py:132-137 | `ucinewgame` follows the new-game specification |
| Worker.LichessWorker.HandlePosition | UCIbriderForLucasPreCompiled.py:139-160 | `position` follows the position specification |
| Worker.LichessWorker.ApplyPlan | UCIbriderForLucasPreCompiled.py:144-157 | a parsed position is applied as specified |
| Worker.LichessWorker.PushMoves | UCIbriderForLucasPreCompiled.py:155-157 | the move loop pushes the legal prefix and logs an error when a move was rejected |
| Worker.LichessWorker.Authenticate | UCIbriderForLucasPreCompiled.py:401-412 | authentication follows its specification |
| Worker.LichessWorker.ValidateConnection | UCIbriderForLucasPreCompiled.py:414-436 | validation only writes to the response queue |
| Worker.LichessWorker.HandleSetOption | UCIbriderForLucasPreCompiled.py:367-399 | `setoption` follows its specification |
| Worker.LichessWorker.StoreOption | UCIbriderForLucasPreCompiled.py:383-395 | storing a known option follows its specification |
| Worker.LichessWorker.CheckOngoing | UCIbriderForLucasPreCompiled.py:204-247 | the check loop binds the game the specification finds, and reports whether it found one |
| Worker.LichessWorker.AwaitGameStart | UCIbriderForLucasPreCompiled.py:306-313 | waiting for the challenge to start polls as specified, at most 30 times |
| Worker.LichessWorker.FindOrCreateGame | UCIbriderForLucasPreCompiled.py:201-313 | an existing game is reused, otherwise the challenge sent carries the parameters of the current options |
| Worker.LichessWorker.ObserveExport | UCIbriderForLucasPreCompiled.py:334-356 | replaying one export gives the observation the specification gives |
| Worker.LichessWorker.WaitForBotMove | UCIbriderForLucasPreCompiled.py:315-365 | the wait follows its specification: by `WaitMovesForward` it reports a move only from a polled newer move list ending in it, and by `WaitSpecRelays` it reports and pushes `m` whenever the first export to end the wait, reached before any `stop` or `quit`, is a newer move list ending in `m` |
| Worker.LichessWorker.PollExports | UCIbriderForLucasPreCompiled.py:320-362 | the poll loop consumes commands as specified, at most 600 polls, and writes no response |
| Worker.LichessWorker.HandleGo | UCIbriderForLucasPreCompiled.py:162-199 | `go` follows its specification |
| Worker.LichessWorker.Discover | UCIbriderForLucasPreCompiled.py:172-174 | discovery follows its specification |
| Worker.LichessWorker.SendHumanMove | UCIbriderForLucasPreCompiled.py:183-193 | sending the human move follows its specification |
| Worker.LichessWorker.AnswerGo | UCIbriderForLucasPreCompiled.py:195-199 | answering follows its specification |
| Worker.LichessWorker.Step | UCIbriderForLucasPreCompiled.py:109-124 | one command is handled as the step specification says |
| Worker.LichessWorker.Run | UCIbriderForLucasPreCompiled.py:103-126 | the worker loop handles the queued commands as the run specification says |

## Left out

- Threads.
  - The bridge's search thread runs to completion inside `go`. The stream thread runs inside the search, right after it is started, over the events the server sends by then; those events all reach the queue before the search reads the colour, as the half-second pause after starting the thread intends.
  - In the worker, commands that arrive during a wait are modelled as already queued.
  - Locks, `join` timeouts and daemon flags are not modelled.
- Sleeps and timeouts become poll budgets:
  - 30 polls for a challenge to be accepted, in both programs;
  - 600 export polls for the bot's move in the worker;
  - a budget parameter standing for the bridge's `MOVE_TIMEOUT`.
- Lichess (berserk) calls are inputs, one value per call.
  - A poll beyond the given answers behaves as a failing call.
  - The JSON dictionaries and objects berserk returns become one datatype per kind of answer.
  - Entries with a missing `gameId` or player field are not modelled.
  - In the worker, a dict reply whose `status` is `declined` is the declined case; any other reply is `Issued`, with the `id` of a dict reply, and a raised error is `CreateFailed`.
  - In the bridge, a reply holding `game` is the immediate start, any other reply is a created challenge, a `ResponseError` is a refusal, and any other error a plain failure.
- Chess rules, FEN parsing and `board.fen()` belong to python-chess. They come in as an arbitrary `Rules` value, and `set_fen` is taken to change nothing when it fails.
- Logging to the log file, timestamps and the tracebacks `log_error` writes are not modelled. Only the lines written to standard output are.
- The catch-all exception handlers around the bridge's main loop (177-180), the bridge's `_play` (683-687) and the worker's loop (125-126) are not modelled: no modelled step raises outside the handlers that are modelled.
- Text.Lower: only ASCII letters are folded, where Python's `lower()` folds all of Unicode.
- Text.ParseInt: only ASCII digits are accepted, where Python's `int()` also takes other Unicode decimal digits.
- Worker.LichessWorker.Run: an empty command queue ends the run, where the source blocks waiting for more commands.
- Bridge.LichessBridge.SendHumanMove: the stream counts as active for the whole search; `_start_stream`'s check for an already running stream thread is not modelled, so every search runs its own stream from a move count of 0 over the events it is given, where the source keeps one stream thread and its count across the searches of a game. Events that arrive while the search is already waiting are modelled as arriving before the wait.
- Bridge.LichessBridge.Cleanup: the resignation attempted on the way out writes nothing, and only its effect on the stop flag and the stream is modelled.
- The global `DEBUG` switch of the bridge is the `debug` field of its settings.
- Out of scope:
  - the writer loop in `main` that prints the response queue;
  - the PyInstaller copy of the worker and its `worker_thread_main` set-up;
  - the test and stub scripts.

### Behaviour worth knowing

- The worker does not clamp Minutes and Increment: `setoption` stores `int(value)` as given (UCIbriderForLucasPreCompiled.py:385-386, `Worker.IntOptionUnclamped`), although the `uci` reply declares the ranges 1-180 and 0-180 (lines 70-71).
- The worker cannot set `Rated` to `true`. Its default `False` (line 95) is an `int` in Python, so the `int()` branch at lines 385-386 runs before the `bool` branch at 387-388 and raises (`Worker.RatedTrueRaises`). This is recorded as behaviour, not corrected.
- The packaged variant's `isready` is answered by the reader thread at once (lines 77-78); it never connects to Lichess.
- The worker dispatches commands by prefix (lines 112-124): `gofish` runs `go`, and only the exact `quit` quits.
- The bridge ignores a null move `0000` as the human's move: `last_move` is false for it at UCIbridgeForLucas.py:659, although `push_uci` at line 325 accepts it on the board (`Bridge.HumanMove`).
