/**
 * UCIbriderForLucasPreCompiled.py, class LichessWorker: the thread that
 * drains the command queue, keeps the options dictionary and the local board,
 * and turns a `go` into a game on Lichess and the opponent's reply.
 *
 * As for the other bridge, the worker's state is a `WorkerState`, each handler
 * is specified by a pure function of the old state and of the remote replies
 * it receives (given as data), and the class `LichessWorker` implements the
 * handlers against those functions. The response queue and the command queue
 * are the reader's `Queues`; the worker appends to the first and takes from
 * the second, also while it waits for a move.
 */
module Worker {

  import opened Base
  import opened Text
  import opened Chess
  import opened Uci
  import opened Reader

  /** Polls for the opponent's move (one a second for ten minutes). */
  const MovePolls: nat := 600

  /** Polls for a challenge to turn into a game. */
  const StartPolls: nat := 30

  // ===========================================================================
  // Messages
  // ===========================================================================

  /** The fixed parts of the lines the worker writes for the GUI. */
  const TokenReceived: String := "WORKER: Token received. Authenticating..."
  const AuthSuccessful: String := "WORKER: Auth successful as "
  const AuthFailed: String := "Lichess authentication failed. Check token and connection."
  const NoTokenSet: String := "[ERROR] No token set. Please set LichessToken first."
  const Validating: String := "Validating connection..."
  const LoggedInAs: String := "[SUCCESS] Logged in as: "
  const OpponentFound: String := "[SUCCESS] Opponent '"
  const OpponentMissing: String := "[WARNING] Opponent '"
  const NotFoundOrInvalid: String := "' not found or invalid."
  const ValidationFailed: String := "[ERROR] Validation failed: "
  const ResignedGame: String := "Resigned game "
  const GameStarted: String := "Game started: "
  const FoundAndResumed: String := "Found and resumed game: "
  const Challenging: String := "Challenging "
  const ChallengeDeclined: String := "Challenge DECLINED by opponent."
  const ChallengeFailed: String := "Failed to create Lichess challenge: "
  const ChallengeSent: String := "Challenge sent. Waiting for acceptance..."
  const WaitingFor: String := "WORKER: Waiting for "
  const ToMove: String := " to move..."
  const SentMove: String := "Sent move "
  const ToLichess: String := " to Lichess."
  const MoveRejected: String := "Lichess rejected move "
  const WaitTimedOut: String := "Timed out waiting for bot move."
  const TokenMissing: String := "ERROR: LichessToken not set or invalid. Configure in engine options."
  const NoGame: String := "ERROR: Could not start a game. Check opponent name and settings."
  const ParseFailed: String := "Failed to parse setoption command: "
  const PositionFailed: String := "Failed to process position command: "
  const UnhandledCommand: String := "WORKER: Unhandled command: "
  const QuitSignal: String := "QUIT_SIGNAL"

  // ===========================================================================
  // Options
  // ===========================================================================

  /** A value of the options dictionary: a Python `str`, `int` or `bool`. */
  datatype Value = Str(s: String) | Int(n: int) | Flag(b: bool)

  /** `isinstance(v, int)`: true for a `bool` as well, since `bool` is a subclass of `int`. */
  predicate IsInt(v: Value) {
    v.Int? || v.Flag?
  }

  /** Python's `str(v)`. */
  function Display(v: Value): String {
    match v
    case Str(s) => s
    case Int(n) => IntToString(n)
    case Flag(b) => if b then "True" else "False"
  }

  const OptionNames: set<String> :=
    {"LichessToken", "ChallengeColor", "Opponent", "TimeMode", "Minutes", "Increment", "Rated"}

  /** The options whose initial value is an `int` (a `bool` for Rated). */
  const IntOptions: set<String> := {"Minutes", "Increment", "Rated"}

  const InitialOptions: map<String, Value> := map[
    "LichessToken" := Str(""), "ChallengeColor" := Str("Auto"), "Opponent" := Str("maia1"),
    "TimeMode" := Str("Realtime"), "Minutes" := Int(5), "Increment" := Int(3), "Rated" := Flag(false)]

  /** `options[name]`; every name the worker reads is always present. */
  function Get(options: map<String, Value>, name: String): Value {
    if name in options then options[name] else Str("")
  }

  function Opponent(options: map<String, Value>): String {
    Display(Get(options, "Opponent"))
  }

  /** The dictionary has the seven names, and each keeps the type class it started with. */
  predicate Typed(options: map<String, Value>) {
    options.Keys == OptionNames
    && forall name :: name in options ==> (IsInt(options[name]) <==> name in IntOptions)
  }

  lemma InitialTyped()
    ensures Typed(InitialOptions)
  {
    assert InitialOptions.Keys == OptionNames;
  }

  // ===========================================================================
  // State
  // ===========================================================================

  /**
   * The worker's fields (`connected` is `self.client` being set) and the two
   * queues.
   */
  datatype WorkerState = WorkerState(
    options: map<String, Value>, connected: bool, username: Option<String>,
    board: Board, gameId: Option<String>, myColor: Option<Side>,
    responses: seq<String>, commands: seq<String>)

  /** `RESPONSE_QUEUE.put(line)`. */
  function Put(ws: WorkerState, line: String): WorkerState {
    ws.(responses := ws.responses + [line])
  }

  /** The line `log_error(msg)` puts on the response queue. */
  function ErrorLine(msg: String): String {
    Info("ERROR: " + msg)
  }

  lemma ErrorIsInfo(a: seq<String>, msg: String)
    ensures AppendsInfo(a, a + [ErrorLine(msg)])
  {
    AppendsInfoOne(a, "ERROR: " + msg);
  }

  /** `log_error(msg)`: its one visible effect is an error line for the GUI. */
  function Error(ws: WorkerState, msg: String): WorkerState {
    Put(ws, ErrorLine(msg))
  }

  /** The remote calls a command may make, with their results given as data. */
  datatype Account = Authorized(id: String) | AccountError(reason: String)

  /** One `check_ongoing` call: whether `games.export(target)` returned data, and `get_ongoing()` (None where it raised). */
  datatype Poll = Poll(exported: bool, games: Option<seq<OngoingGame>>)

  /** An entry of `get_ongoing()`. */
  datatype OngoingGame = OngoingGame(gameId: String, color: String, opponent: String)

  /** `challenges.create`: declined, created (with the id of a dict reply, if any), or raised. */
  datatype Challenge = Declined | Issued(id: Option<String>) | CreateFailed(error: String)

  /** One `games.export(game_id, moves=True)` during the wait: its moves and status, or a failure. */
  datatype Export = Exported(moves: String, status: Option<String>) | ExportFailed

  datatype Discovery = Discovery(ongoing: Poll, challenge: Challenge, polls: seq<Poll>)

  /**
   * Everything one command may receive from Lichess: the account (for
   * authentication and validation), whether the opponent's public data loads,
   * whether a resign succeeds, the replies of game discovery, whether the
   * human's move is accepted, and the export snapshots of the wait.
   */
  datatype Remote = Remote(
    account: Account, opponentFound: bool, resignOk: bool, discovery: Discovery,
    sendOk: bool, exports: seq<Export>)

  // ===========================================================================
  // run: prefix dispatch
  // ===========================================================================

  datatype Job = QuitJob | NewGameJob | PositionJob | GoJob | SetOptionJob | Unhandled

  /** `run`: "quit" exactly, otherwise the first matching prefix. */
  function JobOf(command: String): Job {
    if command == "quit" then QuitJob
    else if StartsWith(command, "ucinewgame") then NewGameJob
    else if StartsWith(command, "position") then PositionJob
    else if StartsWith(command, "go") then GoJob
    else if StartsWith(command, "setoption") then SetOptionJob
    else Unhandled
  }

  /** Each command word selects its handler whatever follows it; "stop" and "quit now" are unhandled. */
  lemma PrefixDispatch(rest: String)
    ensures JobOf("ucinewgame" + rest) == NewGameJob
    ensures JobOf("position" + rest) == PositionJob
    ensures JobOf("go" + rest) == GoJob
    ensures JobOf("setoption" + rest) == SetOptionJob
    ensures JobOf("stop") == Unhandled && JobOf("quit now") == Unhandled
  {
    assert ("ucinewgame" + rest)[..10] == "ucinewgame";
    assert ("position" + rest)[0] == 'p' && ("position" + rest)[..8] == "position";
    assert ("go" + rest)[0] == 'g' && ("go" + rest)[..2] == "go";
    assert ("setoption" + rest)[0] == 's' && ("setoption" + rest)[..9] == "setoption";
    assert "stop"[..2] != "go";
    assert "quit now"[..2] != "go";
  }

  /** The line a command no handler takes produces. */
  function UnhandledSpec(ws: WorkerState, command: String): WorkerState {
    Put(ws, Info(UnhandledCommand + command))
  }

  // ===========================================================================
  // setoption
  // ===========================================================================

  datatype Assignment = Assignment(name: String, value: String)

  /**
   * `_handle_setoption`'s parsing: split once on " value " (case-sensitive);
   * the name is the first part with every "setoption name " removed, stripped;
   * the value is the second part stripped, or "" without one.
   */
  function ParseAssignment(command: String): Assignment {
    var parts := SplitOnce(command, " value ");
    Assignment(Strip(ReplaceAll(parts[0], "setoption name ", "")), if |parts| > 1 then Strip(parts[1]) else "")
  }

  /** A word without white space holds no "setoption name ". */
  lemma NoPrefixInWord(n: String)
    requires NoSpace(n)
    ensures !Contains(n, "setoption name ")
  {
    forall j | 0 <= j <= |n|
      ensures !OccursAt(n, "setoption name ", j)
    {
      if j + 15 <= |n| {
        assert n[j..j + 15][9] == n[j + 9];
      }
    }
  }

  /**
   * For `setoption name N value V` with a one-word name N other than "value",
   * the name is N and the value is V stripped, inner spaces kept.
   */
  lemma ParseAssignmentNameValue(n: String, v: String)
    requires n != [] && NoSpace(n) && n != "value"
    ensures ParseAssignment("setoption name " + n + " value " + v) == Assignment(n, Strip(v))
  {
    var line := "setoption name " + n + " value " + v;
    var pos := 15 + |n|;
    FindValueMarker(n, v);
    var parts := SplitOnce(line, " value ");
    assert parts[0] == line[..pos] == "setoption name " + n;
    assert parts[1] == line[pos + 7..] == v;
    NameAfterPrefix(n);
  }

  /** Removing "setoption name " from `setoption name N` leaves the one-word name N. */
  lemma NameAfterPrefix(n: String)
    requires n != [] && NoSpace(n)
    ensures Strip(ReplaceAll("setoption name " + n, "setoption name ", "")) == n
  {
    NoPrefixInWord(n);
    ReplaceAbsent(n, "setoption name ", "");
    assert ("setoption name " + n)[..15] == "setoption name ";
    assert ("setoption name " + n)[15..] == n;
    StripKeeps(n);
  }

  /** Without " value ", the value is "" and the name is the whole line less "setoption name ". */
  lemma ParseAssignmentNoValue(command: String)
    requires !Contains(command, " value ")
    ensures ParseAssignment(command) == Assignment(Strip(ReplaceAll(command, "setoption name ", "")), "")
  {
  }

  /** What `setoption` stores for `value` over `current`, by the type of `current`; None where `int()` raises. */
  function Converted(current: Value, value: String): Option<Value> {
    if IsInt(current) then
      match ParseInt(value)
      case Some(n) => Some(Int(n))
      case None => None
    else if current.Flag? then Some(Flag(Lower(value) == "true"))
    else Some(Str(value))
  }

  /** Type-directed update: ints take `int(value)` unclamped, strings take the value verbatim; the bool branch is never taken. */
  lemma ConvertedByType(current: Value, value: String)
    ensures IsInt(current) ==> Converted(current, value) == (if ParseInt(value).Some? then Some(Int(ParseInt(value).value)) else None)
    ensures current.Str? ==> Converted(current, value) == Some(Str(value))
    ensures forall v :: Converted(current, value) == Some(v) ==> !v.Flag? && (IsInt(v) <==> IsInt(current))
  {
  }

  /** What a `setoption` name designates: a button, an option of the dictionary, or nothing. */
  datatype Setting = VerifyButton | ResignButton | Option | Ignored

  function SettingOf(name: String, options: map<String, Value>): Setting {
    if name == "VerifyConnection" then VerifyButton
    else if name == "Resign" then ResignButton
    else if name in options then Option
    else Ignored
  }

  /** `_handle_setoption`. */
  function SetOptionSpec(ws: WorkerState, command: String, remote: Remote): WorkerState {
    var a := ParseAssignment(command);
    match SettingOf(a.name, ws.options)
    case VerifyButton => ValidateSpec(ws, remote.account, remote.opponentFound)
    case ResignButton => ResignSpec(ws, remote.resignOk)
    case Option => StoreSpec(ws, command, a, remote.account)
    case Ignored => ws
  }

  /** Storing into an option of the dictionary, then authenticating when a token was given. */
  function StoreSpec(ws: WorkerState, command: String, a: Assignment, account: Account): WorkerState {
    match Converted(Get(ws.options, a.name), a.value)
    case None => Error(ws, ParseFailed + command)
    case Some(v) =>
      var stored := ws.(options := ws.options[a.name := v]);
      if a.name == "LichessToken" && a.value != "" then AuthenticateSpec(stored, account) else stored
  }

  /** `_authenticate`: a client is kept, with the account's id, exactly when the account loads. */
  function AuthenticateSpec(ws: WorkerState, account: Account): WorkerState {
    var w := Put(ws, Info(TokenReceived));
    match account
    case Authorized(id) => Put(w.(connected := true, username := Some(id)), Info(AuthSuccessful + id + "."))
    case AccountError(_) =>
      Error(w.(connected := false, username := None), AuthFailed)
  }

  /** `_validate_connection`: only lines for the GUI. */
  function ValidateSpec(ws: WorkerState, account: Account, opponentFound: bool): WorkerState {
    if !ws.connected then Put(ws, Info(NoTokenSet))
    else
      var w := Put(ws, Info(Validating));
      match account
      case Authorized(id) =>
        var w2 := Put(w, Info(LoggedInAs + id));
        var opp := Opponent(ws.options);
        if opponentFound then Put(w2, Info(OpponentFound + opp + "' found."))
        else Put(w2, Info(OpponentMissing + opp + NotFoundOrInvalid))
      case AccountError(e) => Put(w, Info(ValidationFailed + e))
  }

  /** `_resign_current_game`: resign when there is a game and a client; the game is forgotten either way. */
  function ResignSpec(ws: WorkerState, resignOk: bool): WorkerState {
    var w := if Bound(ws.gameId) && ws.connected && resignOk then Put(ws, Info(ResignedGame + ws.gameId.value)) else ws;
    w.(gameId := None)
  }

  /** `_handle_ucinewgame`: resign, then a fresh board and no colour. */
  function NewGameSpec(ws: WorkerState, resignOk: bool): WorkerState {
    ResignSpec(ws, resignOk).(board := Initial, myColor := None)
  }

  /** The buttons are actions: VerifyConnection and Resign never touch the options. */
  lemma ActionsKeepOptions(ws: WorkerState, command: String, remote: Remote)
    requires ParseAssignment(command).name in {"VerifyConnection", "Resign"}
    ensures SetOptionSpec(ws, command, remote).options == ws.options
    ensures SetOptionSpec(ws, command, remote).commands == ws.commands
  {
  }

  /** A name that is neither a button nor an option changes nothing. */
  lemma UnknownOptionIgnored(ws: WorkerState, command: String, remote: Remote)
    requires ParseAssignment(command).name !in ws.options
    requires ParseAssignment(command).name !in {"VerifyConnection", "Resign"}
    ensures SetOptionSpec(ws, command, remote) == ws
  {
  }

  /**
   * An option other than the token is stored as converted, or, where `int()`
   * raises, left alone with an error line; nothing else changes.
   */
  lemma OptionStored(ws: WorkerState, command: String, a: Assignment, account: Account)
    requires a.name in ws.options && a.name != "LichessToken"
    ensures var r := StoreSpec(ws, command, a, account);
      match Converted(ws.options[a.name], a.value)
      case Some(v) => r == ws.(options := ws.options[a.name := v])
      case None => r == ws.(responses := ws.responses + [ErrorLine(ParseFailed + command)])
  {
  }

  /** A `setoption` naming an option of the dictionary is a store. */
  lemma SetOptionStores(ws: WorkerState, command: String, a: Assignment, remote: Remote)
    requires ParseAssignment(command) == a && SettingOf(a.name, ws.options) == Option
    ensures SetOptionSpec(ws, command, remote) == StoreSpec(ws, command, a, remote.account)
  {
  }

  /**
   * Minutes and Increment are not clamped: a command that assigns the decimal
   * form of any integer, 0 and negative numbers included, stores it.
   */
  lemma IntOptionUnclamped(ws: WorkerState, command: String, name: String, n: int, remote: Remote)
    requires name in {"Minutes", "Increment"} && name in ws.options && ws.options[name].Int?
    requires ParseAssignment(command) == Assignment(name, IntToString(n))
    ensures SetOptionSpec(ws, command, remote) == ws.(options := ws.options[name := Int(n)])
  {
    SetOptionStores(ws, command, ParseAssignment(command), remote);
    ParseIntRoundTrip(n);
  }

  /**
   * Rated starts as a `bool`, which Python counts as an `int`, so the value
   * "true" goes through `int()`, raises, and leaves Rated as it was with an
   * error line; "1" stores the integer 1.
   */
  lemma RatedTrueRaises(ws: WorkerState, command: String, remote: Remote)
    requires "Rated" in ws.options && IsInt(ws.options["Rated"])
    requires ParseAssignment(command) == Assignment("Rated", "true")
    ensures SetOptionSpec(ws, command, remote) == Error(ws, ParseFailed + command)
  {
    SetOptionStores(ws, command, ParseAssignment(command), remote);
    StripKeeps("true");
    assert !IsDigit("true"[0]);
  }

  lemma RatedOneIsInt(ws: WorkerState, command: String, remote: Remote)
    requires "Rated" in ws.options && IsInt(ws.options["Rated"])
    requires ParseAssignment(command) == Assignment("Rated", "1")
    ensures SetOptionSpec(ws, command, remote) == ws.(options := ws.options["Rated" := Int(1)])
  {
    SetOptionStores(ws, command, ParseAssignment(command), remote);
    ParseIntRoundTrip(1);
  }

  /** Overwriting an option with a value of its type class keeps the dictionary typed. */
  lemma UpdateKeepsTyped(options: map<String, Value>, name: String, v: Value)
    requires Typed(options) && name in options
    requires IsInt(v) <==> IsInt(options[name])
    ensures Typed(options[name := v])
  {
    assert options[name := v].Keys == options.Keys;
  }

  /** `setoption` never touches the command queue. */
  lemma SetOptionKeepsQueue(ws: WorkerState, command: String, remote: Remote)
    ensures SetOptionSpec(ws, command, remote).commands == ws.commands
  {
    var a := ParseAssignment(command);
    match SettingOf(a.name, ws.options)
    case VerifyButton =>
      ValidateOnlyResponds(ws, remote.account, remote.opponentFound);
    case ResignButton =>
      ResignClearsGame(ws, remote.resignOk);
    case Ignored =>
    case Option =>
      var c := Converted(Get(ws.options, a.name), a.value);
      if c.Some? {
        AuthenticateOutcome(ws.(options := ws.options[a.name := c.value]), remote.account);
      }
  }

  /** Every `setoption` keeps the dictionary's names and each option's type class. */
  lemma SetOptionKeepsTypes(ws: WorkerState, command: String, remote: Remote)
    requires Typed(ws.options)
    ensures Typed(SetOptionSpec(ws, command, remote).options)
  {
    var a := ParseAssignment(command);
    match SettingOf(a.name, ws.options)
    case VerifyButton =>
      ValidateOnlyResponds(ws, remote.account, remote.opponentFound);
    case ResignButton =>
      ResignClearsGame(ws, remote.resignOk);
    case Ignored =>
    case Option =>
      SetOptionStores(ws, command, a, remote);
      StoreKeepsTypes(ws, command, a, remote.account);
  }

  lemma StoreKeepsTypes(ws: WorkerState, command: String, a: Assignment, account: Account)
    requires Typed(ws.options) && a.name in ws.options
    ensures Typed(StoreSpec(ws, command, a, account).options)
  {
    StoreOptions(ws, command, a, account);
    var c := Converted(ws.options[a.name], a.value);
    if c.Some? {
      ConvertedByType(ws.options[a.name], a.value);
      UpdateKeepsTyped(ws.options, a.name, c.value);
    }
  }

  /** A store changes the one option named, to its converted value, or nothing. */
  lemma StoreOptions(ws: WorkerState, command: String, a: Assignment, account: Account)
    requires a.name in ws.options
    ensures var c := Converted(ws.options[a.name], a.value);
      StoreSpec(ws, command, a, account).options == if c.Some? then ws.options[a.name := c.value] else ws.options
  {
    var c := Converted(ws.options[a.name], a.value);
    if c.Some? {
      AuthenticateOutcome(ws.(options := ws.options[a.name := c.value]), account);
    }
  }

  /** Validation writes lines for the GUI and changes nothing else. */
  lemma ValidateOnlyResponds(ws: WorkerState, account: Account, opponentFound: bool)
    ensures var r := ValidateSpec(ws, account, opponentFound);
      r.(responses := ws.responses) == ws && AppendsInfo(ws.responses, r.responses)
      && (!ws.connected <==> |r.responses| == |ws.responses| + 1)
  {
    var r := ValidateSpec(ws, account, opponentFound);
    if !ws.connected {
      AppendsInfoOne(ws.responses, NoTokenSet);
    } else {
      var w := Put(ws, Info(Validating));
      AppendsInfoOne(ws.responses, Validating);
      match account
      case Authorized(id) =>
        var w2 := Put(w, Info(LoggedInAs + id));
        AppendsInfoOne(w.responses, LoggedInAs + id);
        AppendsInfoTrans(ws.responses, w.responses, w2.responses);
        var opp := Opponent(ws.options);
        if opponentFound {
          AppendsInfoOne(w2.responses, OpponentFound + opp + "' found.");
        } else {
          AppendsInfoOne(w2.responses, OpponentMissing + opp + NotFoundOrInvalid);
        }
        AppendsInfoTrans(ws.responses, w2.responses, r.responses);
      case AccountError(e) =>
        AppendsInfoOne(w.responses, ValidationFailed + e);
        AppendsInfoTrans(ws.responses, w.responses, r.responses);
    }
  }

  /** After a token is given, the worker holds a client exactly when its account loaded, under that account's id. */
  lemma AuthenticateOutcome(ws: WorkerState, account: Account)
    ensures var r := AuthenticateSpec(ws, account);
      && (r.connected <==> account.Authorized?)
      && r.username == (if account.Authorized? then Some(account.id) else None)
      && AppendsInfo(ws.responses, r.responses)
      && r.(connected := ws.connected, username := ws.username, responses := ws.responses) == ws
  {
    var w := Put(ws, Info(TokenReceived));
    AppendsInfoOne(ws.responses, TokenReceived);
    match account
    case Authorized(id) =>
      AppendsInfoOne(w.responses, AuthSuccessful + id + ".");
      AppendsInfoTrans(ws.responses, w.responses, AuthenticateSpec(ws, account).responses);
    case AccountError(_) =>
      ErrorIsInfo(w.responses, AuthFailed);
      AppendsInfoTrans(ws.responses, w.responses, AuthenticateSpec(ws, account).responses);
  }

  /** Resigning always forgets the game and touches nothing but the game id and the responses. */
  lemma ResignClearsGame(ws: WorkerState, resignOk: bool)
    ensures var r := ResignSpec(ws, resignOk);
      && r.gameId == None
      && r.(gameId := ws.gameId, responses := ws.responses) == ws
      && (|r.responses| > |ws.responses| <==> Bound(ws.gameId) && ws.connected && resignOk)
      && AppendsInfo(ws.responses, r.responses)
  {
    if Bound(ws.gameId) && ws.connected && resignOk {
      AppendsInfoOne(ws.responses, ResignedGame + ws.gameId.value);
    }
  }

  /** `ucinewgame` leaves no game, no colour and the initial board, options and client untouched. */
  lemma NewGameResets(ws: WorkerState, resignOk: bool)
    ensures var r := NewGameSpec(ws, resignOk);
      && r.gameId == None && r.myColor == None && r.board == Initial
      && r.options == ws.options && r.connected == ws.connected && r.username == ws.username
      && r.commands == ws.commands && AppendsInfo(ws.responses, r.responses)
  {
    ResignClearsGame(ws, resignOk);
  }

  // ===========================================================================
  // position
  // ===========================================================================

  /** What the argument of `position` asks for: a FEN or not, and the text of the moves; Malformed where the split raises. */
  datatype Plan = Plan(fen: Option<String>, moves: String) | Malformed

  /**
   * "startpos" anywhere: the moves are what follows the first "moves " (an
   * IndexError when "moves" appears without a following space); otherwise
   * "fen" anywhere: the FEN is the text before the first "moves " with every
   * "fen " removed, the moves what follows it.
   */
  function PlanOf(arg: String): Plan {
    if Contains(arg, "startpos") then
      if Contains(arg, "moves") then
        var ps := SplitOnce(arg, "moves ");
        if |ps| > 1 then Plan(None, ps[1]) else Malformed
      else Plan(None, "")
    else if Contains(arg, "fen") then
      var ps := SplitOnce(arg, "moves ");
      Plan(Some(ReplaceAll(ps[0], "fen ", "")), if |ps| > 1 then ps[1] else "")
    else Plan(None, "")
  }

  function PositionError(ws: WorkerState, command: String): WorkerState {
    Error(ws, PositionFailed + command)
  }

  /**
   * `_handle_position`: with an argument, reset the board, then carry out its
   * plan; without one, nothing.
   */
  function PositionSpec(ws: WorkerState, command: String, rules: Rules): WorkerState {
    var parts := SplitOnce(command, " ");
    if |parts| <= 1 then ws else PlanSpec(ws, command, PlanOf(parts[1]), rules)
  }

  /**
   * Set the FEN if the plan has one, then push the moves in order; anything
   * raised stops the command with an error line, keeping the board as far as
   * it got (initial when the split or the FEN failed).
   */
  function PlanSpec(ws: WorkerState, command: String, plan: Plan, rules: Rules): WorkerState {
    var reset := ws.(board := Initial);
    match plan
    case Malformed => PositionError(reset, command)
    case Plan(fen, moves) =>
      var start := if fen.Some? then SetFen(rules, fen.value) else Some(Initial);
      if start.None? then PositionError(reset, command)
      else
        var replay := PushAll(rules, start.value, Split(moves));
        var w := ws.(board := replay.board);
        if replay.failed then PositionError(w, command) else w
  }

  /** `position` changes only the board, and writes at most an error line. */
  lemma PositionKeepsOptions(ws: WorkerState, command: String, rules: Rules)
    ensures var r := PositionSpec(ws, command, rules);
      r.(board := ws.board, responses := ws.responses) == ws && AppendsInfo(ws.responses, r.responses)
  {
    var parts := SplitOnce(command, " ");
    if |parts| > 1 {
      PlanKeepsOptions(ws, command, PlanOf(parts[1]), rules);
    } else {
      assert ws.responses[..|ws.responses|] == ws.responses;
    }
  }

  lemma PlanKeepsOptions(ws: WorkerState, command: String, plan: Plan, rules: Rules)
    ensures var r := PlanSpec(ws, command, plan, rules);
      r.(board := ws.board, responses := ws.responses) == ws && AppendsInfo(ws.responses, r.responses)
  {
    var r := PlanSpec(ws, command, plan, rules);
    if r.responses == ws.responses {
      assert ws.responses[..|ws.responses|] == ws.responses;
    } else {
      ErrorIsInfo(ws.responses, PositionFailed + command);
    }
  }

  /**
   * After `position`, the board is the requested start with the longest legal
   * prefix of the moves pushed, and an error line is added exactly when a move
   * was illegal.
   */
  lemma PositionKeepsLegalPrefix(ws: WorkerState, command: String, fen: Option<String>, moves: String, rules: Rules)
    requires fen.Some? ==> rules.fenOk(fen.value)
    ensures var start := if fen.Some? then Board(FromFen(fen.value), []) else Initial;
      var ms := Split(moves);
      var k := Chess.Accepted(rules, start, ms);
      var r := PlanSpec(ws, command, Plan(fen, moves), rules);
      && r.board == After(start, ms, k)
      && (forall j :: 0 <= j < k ==> rules.legal(After(start, ms, j), ms[j]))
      && (k < |ms| ==> !rules.legal(r.board, ms[k]))
      && r.responses == ws.responses + (if k < |ms| then [ErrorLine(PositionFailed + command)] else [])
      && r.(board := ws.board, responses := ws.responses) == ws
  {
    var start := if fen.Some? then Board(FromFen(fen.value), []) else Initial;
    ReplayKeepsLegalPrefix(rules, start, Split(moves));
  }

  /** "position startpos moves" with no move after it raises after the reset: the board is left initial. */
  lemma PositionBareMovesResets(ws: WorkerState, rules: Rules)
    ensures PositionSpec(ws, "position startpos moves", rules)
      == PositionError(ws.(board := Initial), "position startpos moves")
  {
    BareMovesArgument();
    BareMovesMalformed();
  }

  /** The argument of `position startpos moves` is "startpos moves". */
  lemma BareMovesArgument()
    ensures var parts := SplitOnce("position startpos moves", " ");
      |parts| == 2 && parts[1] == "startpos moves"
  {
    var command := "position startpos moves";
    assert OccursAt(command, " ", 8);
    forall j | 0 <= j < 8
      ensures !OccursAt(command, " ", j)
    {
      assert command[j..j + 1][0] == command[j];
    }
    FindFirst(command, " ", 8);
  }

  /** "startpos moves" names "moves" with no "moves " after it: the split raises. */
  lemma BareMovesMalformed()
    ensures PlanOf("startpos moves") == Malformed
  {
    var arg := "startpos moves";
    assert OccursAt(arg, "startpos", 0);
    assert OccursAt(arg, "moves", 9);
    forall j | 0 <= j <= |arg|
      ensures !OccursAt(arg, "moves ", j)
    {
      if j + 6 <= |arg| {
        assert arg[j..j + 6][0] == arg[j] != 'm';
      }
    }
  }

  // ===========================================================================
  // _find_or_create_game: check_ongoing, colour, challenge parameters
  // ===========================================================================

  /** `chess.WHITE if g_color == 'white' else chess.BLACK`. */
  function ColorOf(color: String): Side {
    if color == "white" then White else Black
  }

  /**
   * Whether `check_ongoing` takes a listed game: by id alone when it has a
   * target, by the opponent's name (non-empty, compared lower-cased) otherwise.
   */
  predicate Matches(g: OngoingGame, target: Option<String>, opponent: String) {
    if Bound(target) then g.gameId == target.value
    else g.opponent != [] && Lower(g.opponent) == Lower(opponent)
  }

  /** The first listed game from `k` on that matches. */
  function MatchFrom(games: seq<OngoingGame>, target: Option<String>, opponent: String, k: nat): (r: Option<nat>)
    requires k <= |games|
    ensures r.Some? ==> k <= r.value < |games| && Matches(games[r.value], target, opponent)
    ensures r.Some? ==> forall j :: k <= j < r.value ==> !Matches(games[j], target, opponent)
    ensures r.None? ==> forall j :: k <= j < |games| ==> !Matches(games[j], target, opponent)
    decreases |games| - k
  {
    if k == |games| then None
    else if Matches(games[k], target, opponent) then Some(k)
    else MatchFrom(games, target, opponent, k + 1)
  }

  /** What `check_ongoing` leaves: the state, and whether it found a game. */
  datatype Checked = Checked(state: WorkerState, found: bool)

  /**
   * `check_ongoing(target)`: a target whose export returns data is bound
   * directly (its colour left as it was); otherwise the first matching listed
   * game is bound with its colour; a failing `get_ongoing` finds nothing.
   */
  function CheckOngoingSpec(ws: WorkerState, target: Option<String>, poll: Poll): Checked {
    if Bound(target) && poll.exported then Checked(ws.(gameId := target), true)
    else
      match poll.games
      case None => Checked(ws, false)
      case Some(games) =>
        match MatchFrom(games, target, Opponent(ws.options), 0)
        case None => Checked(ws, false)
        case Some(k) => Checked(ws.(gameId := Some(games[k].gameId), myColor := Some(ColorOf(games[k].color))), true)
  }

  /**
   * With a target, only that id is ever bound, whether by export or from the
   * list; the opponent's name plays no part.
   */
  lemma CheckWithTarget(ws: WorkerState, target: Option<String>, poll: Poll)
    requires Bound(target)
    ensures var c := CheckOngoingSpec(ws, target, poll);
      && (c.found ==> c.state.gameId == target)
      && (c.found <==> poll.exported || (poll.games.Some? && exists g :: g in poll.games.value && g.gameId == target.value))
      && c.state.(gameId := ws.gameId, myColor := ws.myColor) == ws
  {
    var c := CheckOngoingSpec(ws, target, poll);
    if !poll.exported && poll.games.Some? {
      var games := poll.games.value;
      var m := MatchFrom(games, target, Opponent(ws.options), 0);
      if m.None? {
        forall g | g in games
          ensures g.gameId != target.value
        {
          var j :| 0 <= j < |games| && games[j] == g;
          assert !Matches(games[j], target, Opponent(ws.options));
        }
      } else {
        assert games[m.value] in games;
      }
    }
  }

  /**
   * Without a target, the first listed game whose opponent has the configured
   * name, ignoring case, is bound, White exactly when its colour is "white";
   * with no such game nothing changes.
   */
  lemma CheckByName(ws: WorkerState, poll: Poll, games: seq<OngoingGame>)
    requires poll.games == Some(games)
    ensures var c := CheckOngoingSpec(ws, None, poll);
      var opp := Opponent(ws.options);
      && (c.found <==> exists k :: 0 <= k < |games| && games[k].opponent != [] && Lower(games[k].opponent) == Lower(opp))
      && (c.found ==> exists k :: (0 <= k < |games|
            && games[k].opponent != [] && Lower(games[k].opponent) == Lower(opp)
            && (forall j :: 0 <= j < k ==> !(games[j].opponent != [] && Lower(games[j].opponent) == Lower(opp)))
            && c.state == ws.(gameId := Some(games[k].gameId), myColor := Some(if games[k].color == "white" then White else Black))))
      && (!c.found ==> c.state == ws)
  {
    var opp := Opponent(ws.options);
    var m := MatchFrom(games, None, opp, 0);
    if m.Some? {
      var k := m.value;
      assert Matches(games[k], None, opp);
      forall j | 0 <= j < k
        ensures !(games[j].opponent != [] && Lower(games[j].opponent) == Lower(opp))
      {
        assert !Matches(games[j], None, opp);
      }
    } else {
      forall k | 0 <= k < |games|
        ensures !(games[k].opponent != [] && Lower(games[k].opponent) == Lower(opp))
      {
        assert !Matches(games[k], None, opp);
      }
    }
  }

  /** `str(self.game_id)`. */
  function IdText(id: Option<String>): String {
    match id
    case Some(s) => s
    case None => "None"
  }

  /** The answer of `check_ongoing` at poll `i`: beyond the replies given, every call fails. */
  function PollAt(polls: seq<Poll>, i: nat): Poll {
    if i < |polls| then polls[i] else Poll(false, None)
  }

  /** The loop of up to thirty `check_ongoing(target_id=challenge_id)` calls. */
  function StartSpec(ws: WorkerState, target: Option<String>, polls: seq<Poll>, i: nat): WorkerState
    decreases StartPolls - i
  {
    if i >= StartPolls then ws
    else
      var c := CheckOngoingSpec(ws, target, PollAt(polls, i));
      if c.found then Put(c.state, Info(GameStarted + IdText(c.state.gameId)))
      else StartSpec(ws, target, polls, i + 1)
  }

  /**
   * The challenge colour: with ChallengeColor "Auto", black when White is to
   * move and white otherwise (the bot takes the side to move); any other
   * setting lower-cased.
   */
  function ColorParam(options: map<String, Value>, board: Board): String {
    if Get(options, "ChallengeColor") == Str("Auto") then (if Turn(board) == White then "black" else "white")
    else Lower(Display(Get(options, "ChallengeColor")))
  }

  /** Python's `v * 60` and `v` for an `int` or `bool` option (the dictionary never holds a `str` there). */
  function AsInt(v: Value): int {
    match v
    case Int(n) => n
    case Flag(b) => if b then 1 else 0
    case Str(_) => 0
  }

  datatype Clock = Clock(limit: int, increment: int)

  /** The keyword arguments of `challenges.create`. */
  datatype ChallengeParams = ChallengeParams(username: String, rated: Value, color: String, clock: Option<Clock>)

  /** The parameters: a clock of Minutes * 60 seconds plus Increment only for TimeMode exactly "Realtime". */
  function ParamsOf(options: map<String, Value>, board: Board): ChallengeParams {
    ChallengeParams(
      Opponent(options), Get(options, "Rated"), ColorParam(options, board),
      if Get(options, "TimeMode") == Str("Realtime")
      then Some(Clock(AsInt(Get(options, "Minutes")) * 60, AsInt(Get(options, "Increment"))))
      else None)
  }

  /** With "Auto", the challenger takes the side not to move, so the bot is asked to move first. */
  lemma AutoColor(options: map<String, Value>, board: Board)
    requires Get(options, "ChallengeColor") == Str("Auto")
    ensures ColorParam(options, board) in {"white", "black"}
    ensures ColorParam(options, board) == "black" <==> Turn(board) == White
  {
  }

  /** The clock is sent exactly for "Realtime", spelled so ("realtime" sends none). */
  lemma ParamsClock(options: map<String, Value>, board: Board)
    ensures var p := ParamsOf(options, board);
      && (p.clock.Some? <==> Get(options, "TimeMode") == Str("Realtime"))
      && (p.clock.Some? && Get(options, "Minutes").Int? ==> p.clock.value.limit == Get(options, "Minutes").n * 60)
      && (Get(options, "TimeMode") == Str("realtime") ==> p.clock.None?)
      && p.username == Opponent(options) && p.rated == Get(options, "Rated")
  {
    assert Str("realtime") != Str("Realtime") by {
      assert "realtime"[0] != "Realtime"[0];
    }
  }

  /**
   * `_find_or_create_game`: resume a game against the opponent if one is
   * listed; otherwise challenge, and poll for the challenge to start.
   */
  function FindOrCreateSpec(ws: WorkerState, d: Discovery): WorkerState {
    var c := CheckOngoingSpec(ws, None, d.ongoing);
    if c.found then Put(c.state, Info(FoundAndResumed + IdText(c.state.gameId)))
    else
      var w := Put(ws, Info(Challenging + Opponent(ws.options) + "..."));
      match d.challenge
      case Declined => Put(w, Info(ChallengeDeclined))
      case CreateFailed(e) => Error(w, ChallengeFailed + e)
      case Issued(id) => StartSpec(Put(w, Info(ChallengeSent)), id, d.polls, 0)
  }

  /** The start polls only add information lines and may bind a game and a colour. */
  lemma {:induction false} StartAppendsInfo(ws: WorkerState, target: Option<String>, polls: seq<Poll>, i: nat)
    ensures var r := StartSpec(ws, target, polls, i);
      AppendsInfo(ws.responses, r.responses) && r.(gameId := ws.gameId, myColor := ws.myColor, responses := ws.responses) == ws
    decreases StartPolls - i
  {
    if i < StartPolls {
      var c := CheckOngoingSpec(ws, target, PollAt(polls, i));
      if c.found {
        AppendsInfoOne(ws.responses, GameStarted + IdText(c.state.gameId));
      } else {
        StartAppendsInfo(ws, target, polls, i + 1);
      }
    } else {
      assert ws.responses[..|ws.responses|] == ws.responses;
    }
  }

  /** Discovery only adds information lines and may bind a game and a colour; nothing else changes. */
  lemma FindOrCreateAppendsInfo(ws: WorkerState, d: Discovery)
    ensures var r := FindOrCreateSpec(ws, d);
      AppendsInfo(ws.responses, r.responses) && r.(gameId := ws.gameId, myColor := ws.myColor, responses := ws.responses) == ws
  {
    var c := CheckOngoingSpec(ws, None, d.ongoing);
    if c.found {
      AppendsInfoOne(ws.responses, FoundAndResumed + IdText(c.state.gameId));
    } else {
      var w := Put(ws, Info(Challenging + Opponent(ws.options) + "..."));
      AppendsInfoOne(ws.responses, Challenging + Opponent(ws.options) + "...");
      var r := FindOrCreateSpec(ws, d);
      match d.challenge
      case Declined =>
        AppendsInfoOne(w.responses, ChallengeDeclined);
        AppendsInfoTrans(ws.responses, w.responses, r.responses);
      case CreateFailed(e) =>
        ErrorIsInfo(w.responses, ChallengeFailed + e);
        AppendsInfoTrans(ws.responses, w.responses, r.responses);
      case Issued(id) =>
        var w2 := Put(w, Info(ChallengeSent));
        AppendsInfoOne(w.responses, ChallengeSent);
        AppendsInfoTrans(ws.responses, w.responses, w2.responses);
        StartAppendsInfo(w2, id, d.polls, 0);
        AppendsInfoTrans(ws.responses, w2.responses, r.responses);
    }
  }

  /**
   * A game bound through the direct export of the challenge keeps whatever
   * colour the worker had: after a `ucinewgame` that is none.
   */
  lemma ExportBindingKeepsColor(ws: WorkerState, id: String, polls: seq<Poll>)
    requires id != [] && polls != [] && polls[0].exported
    ensures var r := StartSpec(ws, Some(id), polls, 0);
      r.gameId == Some(id) && r.myColor == ws.myColor
  {
  }

  // ===========================================================================
  // _wait_for_bot_move
  // ===========================================================================

  /** The statuses that end the wait without a move. */
  const EndStatuses: set<String> := {"mate", "resign", "outoftime", "draw", "aborted"}

  /** The commands that abort the wait. */
  predicate Interrupts(command: String) {
    command == "stop" || command == "quit"
  }

  datatype WaitEnd = Moved(uci: String) | Interrupted | GameOver | TimedOut

  /** How the wait ended, and the commands it left in the queue. */
  datatype Waited = Waited(end: WaitEnd, rest: seq<String>)

  /** The export at poll `i`: beyond the snapshots given, every call fails. */
  function ExportAt(exports: seq<Export>, i: nat): Export {
    if i < |exports| then exports[i] else ExportFailed
  }

  /**
   * One export: its moves replayed on a fresh board (a rejected move raises,
   * and the poll counts as an error); more plies than at the start is the
   * opponent's move, the last one; otherwise an end status stops the wait.
   */
  function Observe(e: Export, start: nat, rules: Rules): (r: Option<WaitEnd>)
    ensures r.Some? ==> r.value.Moved? || r.value == GameOver
  {
    match e
    case ExportFailed => None
    case Exported(moves, status) =>
      var r := PushAll(rules, Initial, Split(moves));
      if r.failed then None
      else if Ply(r.board) > start && r.board.moves != [] then Some(Moved(r.board.moves[|r.board.moves| - 1]))
      else if status.Some? && status.value in EndStatuses then Some(GameOver)
      else None
  }

  /**
   * The polling loop from poll `i`: a queued command is taken at every poll,
   * "stop" and "quit" abort, any other is dropped; after the last poll the
   * wait times out.
   */
  function BotWait(commands: seq<String>, start: nat, exports: seq<Export>, rules: Rules, i: nat): (w: Waited)
    ensures |w.rest| <= |commands|
    decreases MovePolls - i
  {
    if i >= MovePolls then Waited(TimedOut, commands)
    else if commands != [] && Interrupts(commands[0]) then Waited(Interrupted, commands[1..])
    else
      var rest := if commands == [] then [] else commands[1..];
      match Observe(ExportAt(exports, i), start, rules)
      case Some(end) => Waited(end, rest)
      case None => BotWait(rest, start, exports, rules, i + 1)
  }

  /** The moves of an export that the wait takes as the opponent's reply `m`. */
  predicate NewerLine(ms: seq<String>, start: nat, rules: Rules, m: String) {
    && Accepted(rules, Initial, ms) == |ms|
    && |ms| > start
    && m == ms[|ms| - 1]
  }

  /**
   * The wait reports a move only from an export whose whole move list the
   * rules accept and which is longer than the local game: the move is its last.
   */
  lemma {:induction false} WaitMovesForward(commands: seq<String>, start: nat, exports: seq<Export>, rules: Rules, i: nat)
    ensures var w := BotWait(commands, start, exports, rules, i);
      w.end.Moved? ==> exists j :: (i <= j < MovePolls && j < |exports| && exports[j].Exported?
        && NewerLine(Split(exports[j].moves), start, rules, w.end.uci))
    decreases MovePolls - i
  {
    if i < MovePolls && !(commands != [] && Interrupts(commands[0])) {
      var rest := if commands == [] then [] else commands[1..];
      var o := Observe(ExportAt(exports, i), start, rules);
      if o.Some? && o.value.Moved? {
        var ms := Split(exports[i].moves);
        ReplayKeepsLegalPrefix(rules, Initial, ms);
        assert ms[..|ms|] == ms;
      } else if o.None? {
        WaitMovesForward(rest, start, exports, rules, i + 1);
      }
    }
  }

  /**
   * The wait takes a prefix of the queue, at most one command a poll; it was
   * interrupted exactly when the last command it took is "stop" or "quit",
   * and every other command it took is dropped.
   */
  lemma {:induction false} WaitConsumesPrefix(commands: seq<String>, start: nat, exports: seq<Export>, rules: Rules, i: nat)
    requires i <= MovePolls
    ensures var w := BotWait(commands, start, exports, rules, i);
      var k := |commands| - |w.rest|;
      && w.rest == commands[k..]
      && k <= MovePolls - i
      && (w.end == Interrupted <==> (k > 0 && Interrupts(commands[k - 1])))
      && forall j :: 0 <= j < k - 1 ==> !Interrupts(commands[j])
    decreases MovePolls - i
  {
    if i < MovePolls && !(commands != [] && Interrupts(commands[0])) {
      var rest := if commands == [] then [] else commands[1..];
      var o := Observe(ExportAt(exports, i), start, rules);
      if o.None? {
        WaitConsumesPrefix(rest, start, exports, rules, i + 1);
        var w := BotWait(rest, start, exports, rules, i + 1);
        if commands != [] {
          var k := |rest| - |w.rest|;
          assert rest[k..] == commands[k + 1..];
          forall j | 0 <= j < k
            ensures !Interrupts(commands[j])
          {
            if j > 0 {
              assert commands[j] == rest[j - 1];
            }
          }
          if k > 0 {
            assert commands[k] == rest[k - 1];
          }
        }
      }
    }
  }

  /** An export whose move list the wait takes as the reply `m` is observed as that move. */
  lemma ObserveNewerLine(moves: String, status: Option<String>, start: nat, rules: Rules, m: String)
    requires NewerLine(Split(moves), start, rules, m)
    ensures Observe(Exported(moves, status), start, rules) == Some(Moved(m))
  {
    var ms := Split(moves);
    ReplayKeepsLegalPrefix(rules, Initial, ms);
    assert ms[..|ms|] == ms;
  }

  /** The commands a wait of `polls` polls takes from `commands`, one a poll. */
  function TakenAfter(commands: seq<String>, polls: nat): seq<String> {
    if polls < |commands| then commands[polls..] else []
  }

  /**
   * The converse of `WaitMovesForward`: when no command taken up to poll `j`
   * interrupts, no export before poll `j` ends the wait, and the export at
   * poll `j` is a newer line whose last move is `m`, the wait reports `m`,
   * having taken one command a poll.
   */
  lemma {:induction false} WaitRelaysNewerExport(commands: seq<String>, start: nat, exports: seq<Export>, rules: Rules,
                                               i: nat, j: nat, m: String)
    requires i <= j < MovePolls
    requires forall p :: 0 <= p <= j - i && p < |commands| ==> !Interrupts(commands[p])
    requires forall p :: i <= p < j ==> Observe(ExportAt(exports, p), start, rules) == None
    requires j < |exports| && exports[j].Exported? && NewerLine(Split(exports[j].moves), start, rules, m)
    ensures BotWait(commands, start, exports, rules, i) == Waited(Moved(m), TakenAfter(commands, j - i + 1))
    decreases j - i
  {
    var rest := if commands == [] then [] else commands[1..];
    if i == j {
      ObserveNewerLine(exports[j].moves, exports[j].status, start, rules, m);
    } else {
      assert Observe(ExportAt(exports, i), start, rules) == None;
      forall p | 0 <= p <= j - (i + 1) && p < |rest|
        ensures !Interrupts(rest[p])
      {
        assert rest[p] == commands[p + 1];
      }
      WaitRelaysNewerExport(rest, start, exports, rules, i + 1, j, m);
      if commands != [] {
        assert TakenAfter(rest, j - i) == TakenAfter(commands, j - i + 1);
      }
    }
  }

  /**
   * `_wait_for_bot_move` relays the opponent's move: under the conditions of
   * `WaitRelaysNewerExport` from the local board's ply, it reports `m`,
   * pushes it on the local board and takes one command a poll.
   */
  lemma WaitSpecRelays(ws: WorkerState, exports: seq<Export>, rules: Rules, j: nat, m: String)
    requires j < MovePolls
    requires forall p :: 0 <= p <= j && p < |ws.commands| ==> !Interrupts(ws.commands[p])
    requires forall p :: 0 <= p < j ==> Observe(ExportAt(exports, p), Ply(ws.board), rules) == None
    requires j < |exports| && exports[j].Exported? && NewerLine(Split(exports[j].moves), Ply(ws.board), rules, m)
    ensures WaitSpec(ws, exports, rules)
         == Answer(ws.(commands := TakenAfter(ws.commands, j + 1), board := Push(ws.board, m)), m)
  {
    WaitRelaysNewerExport(ws.commands, Ply(ws.board), exports, rules, 0, j, m);
  }

  /**
   * The wait ends on the first poll that observes something: when no command
   * taken up to poll `j` interrupts and no export before poll `j` ends the
   * wait, the observation at poll `j` is how it ends, one command taken a poll.
   */
  lemma {:induction false} WaitEndsAtFirstObservation(commands: seq<String>, start: nat, exports: seq<Export>, rules: Rules,
                                                    i: nat, j: nat, end: WaitEnd)
    requires i <= j < MovePolls
    requires forall p :: 0 <= p <= j - i && p < |commands| ==> !Interrupts(commands[p])
    requires forall p :: i <= p < j ==> Observe(ExportAt(exports, p), start, rules) == None
    requires Observe(ExportAt(exports, j), start, rules) == Some(end)
    ensures BotWait(commands, start, exports, rules, i) == Waited(end, TakenAfter(commands, j - i + 1))
    decreases j - i
  {
    var rest := if commands == [] then [] else commands[1..];
    if i < j {
      forall p | 0 <= p <= j - (i + 1) && p < |rest|
        ensures !Interrupts(rest[p])
      {
        assert rest[p] == commands[p + 1];
      }
      WaitEndsAtFirstObservation(rest, start, exports, rules, i + 1, j, end);
      if commands != [] {
        assert TakenAfter(rest, j - i) == TakenAfter(commands, j - i + 1);
      }
    }
  }

  /**
   * An export whose moves all replay, are no more than the local plies and
   * whose status is an end status is observed as the game's end.
   */
  lemma ObserveEndStatus(moves: String, status: Option<String>, start: nat, rules: Rules)
    requires Accepted(rules, Initial, Split(moves)) == |Split(moves)| && |Split(moves)| <= start
    requires status.Some? && status.value in EndStatuses
    ensures Observe(Exported(moves, status), start, rules) == Some(GameOver)
  {
    var ms := Split(moves);
    ReplayKeepsLegalPrefix(rules, Initial, ms);
    assert ms[..|ms|] == ms;
  }

  /**
   * The wait returns "0000" on an end status: under the polling conditions of
   * `WaitSpecRelays`, an export at poll `j` with no newer moves and an end
   * status leaves the board as it was and answers the null move.
   */
  lemma WaitSpecGameOver(ws: WorkerState, exports: seq<Export>, rules: Rules, j: nat)
    requires j < MovePolls
    requires forall p :: 0 <= p <= j && p < |ws.commands| ==> !Interrupts(ws.commands[p])
    requires forall p :: 0 <= p < j ==> Observe(ExportAt(exports, p), Ply(ws.board), rules) == None
    requires j < |exports| && exports[j].Exported?
    requires var ms := Split(exports[j].moves); Accepted(rules, Initial, ms) == |ms| && |ms| <= Ply(ws.board)
    requires exports[j].status.Some? && exports[j].status.value in EndStatuses
    ensures WaitSpec(ws, exports, rules) == Answer(ws.(commands := TakenAfter(ws.commands, j + 1)), "0000")
  {
    ObserveEndStatus(exports[j].moves, exports[j].status, Ply(ws.board), rules);
    WaitEndsAtFirstObservation(ws.commands, Ply(ws.board), exports, rules, 0, j, GameOver);
  }

  /** With no interruption and nothing observed, the wait times out after its last poll. */
  lemma {:induction false} WaitRunsOut(commands: seq<String>, start: nat, exports: seq<Export>, rules: Rules, i: nat)
    requires i <= MovePolls
    requires forall p :: 0 <= p < MovePolls - i && p < |commands| ==> !Interrupts(commands[p])
    requires forall p :: i <= p < MovePolls ==> Observe(ExportAt(exports, p), start, rules) == None
    ensures BotWait(commands, start, exports, rules, i) == Waited(TimedOut, TakenAfter(commands, MovePolls - i))
    decreases MovePolls - i
  {
    if i == MovePolls {
      assert commands[0..] == commands;
    } else {
      var rest := if commands == [] then [] else commands[1..];
      forall p | 0 <= p < MovePolls - (i + 1) && p < |rest|
        ensures !Interrupts(rest[p])
      {
        assert rest[p] == commands[p + 1];
      }
      WaitRunsOut(rest, start, exports, rules, i + 1);
      if commands != [] {
        assert TakenAfter(rest, MovePolls - i - 1) == TakenAfter(commands, MovePolls - i);
      }
    }
  }

  /**
   * The wait returns "0000" after 600 polls: when no command taken
   * interrupts and no export ends it, it logs the timeout error and leaves
   * the board as it was.
   */
  lemma WaitSpecTimesOut(ws: WorkerState, exports: seq<Export>, rules: Rules)
    requires forall p :: 0 <= p < MovePolls && p < |ws.commands| ==> !Interrupts(ws.commands[p])
    requires forall p :: 0 <= p < MovePolls ==> Observe(ExportAt(exports, p), Ply(ws.board), rules) == None
    ensures WaitSpec(ws, exports, rules) == Answer(Error(ws.(commands := TakenAfter(ws.commands, MovePolls)), WaitTimedOut), "0000")
  {
    WaitRunsOut(ws.commands, Ply(ws.board), exports, rules, 0);
  }

  /** A pending "stop" or "quit" at the head of the queue aborts the wait at once with "0000". */
  lemma WaitSpecInterrupted(ws: WorkerState, exports: seq<Export>, rules: Rules)
    requires ws.commands != [] && Interrupts(ws.commands[0])
    ensures WaitSpec(ws, exports, rules) == Answer(ws.(commands := ws.commands[1..]), "0000")
  {
  }

  /** The worker after the wait, and the move it reports ("0000" for none). */
  datatype Answer = Answer(state: WorkerState, best: String)

  /**
   * `_wait_for_bot_move` from the local board's ply: a move is pushed on the
   * local board and reported, a timeout logs an error; the commands taken
   * leave the queue.
   */
  function WaitSpec(ws: WorkerState, exports: seq<Export>, rules: Rules): Answer {
    var w := BotWait(ws.commands, Ply(ws.board), exports, rules, 0);
    var taken := ws.(commands := w.rest);
    match w.end
    case Moved(m) => Answer(taken.(board := Push(taken.board, m)), m)
    case TimedOut => Answer(Error(taken, WaitTimedOut), "0000")
    case _ => Answer(taken, "0000")
  }

  /**
   * The wait writes only information lines and changes only the board and
   * the queue: the board gains exactly the reported move, or stays as it was
   * and the answer is "0000".
   */
  lemma WaitOutcome(ws: WorkerState, exports: seq<Export>, rules: Rules)
    ensures var a := WaitSpec(ws, exports, rules);
      && AppendsInfo(ws.responses, a.state.responses)
      && a.state.(board := ws.board, responses := ws.responses, commands := ws.commands) == ws
      && ((a.state.board == ws.board && a.best == "0000") || a.state.board == Push(ws.board, a.best))
  {
    var w := BotWait(ws.commands, Ply(ws.board), exports, rules, 0);
    if w.end == TimedOut {
      ErrorIsInfo(ws.responses, WaitTimedOut);
    } else {
      assert ws.responses[..|ws.responses|] == ws.responses;
    }
  }

  // ===========================================================================
  // _handle_go
  // ===========================================================================

  /**
   * The human's move to send: the last move on the board, when the worker
   * knows its colour and the opponent is to move.
   */
  function HumanMove(ws: WorkerState): Option<String> {
    if ws.myColor.Some? && Turn(ws.board) != ws.myColor.value then LastMove(ws.board) else None
  }

  /** The move sent is the worker's own side's: it was that side's turn before it. */
  lemma HumanMoveIsOwn(ws: WorkerState)
    requires HumanMove(ws).Some?
    ensures var n := |ws.board.moves|;
      && n > 0 && HumanMove(ws).value == ws.board.moves[n - 1]
      && Turn(Board(ws.board.setup, ws.board.moves[..n - 1])) == ws.myColor.value
  {
    var n := |ws.board.moves|;
    var prev := Board(ws.board.setup, ws.board.moves[..n - 1]);
    assert Push(prev, ws.board.moves[n - 1]) == ws.board;
    PushFlipsTurn(prev, ws.board.moves[n - 1]);
  }

  /** The state `go` works on: the bound game, or the outcome of discovery. */
  function Discovered(ws: WorkerState, d: Discovery): WorkerState {
    if Bound(ws.gameId) then ws else FindOrCreateSpec(ws, d)
  }

  /** Step 4 of `go`: announce the wait, wait, relay the answer. */
  function AnswerSpec(ws: WorkerState, exports: seq<Export>, rules: Rules): WorkerState {
    var w := Put(ws, Info(WaitingFor + Opponent(ws.options) + ToMove));
    var a := WaitSpec(w, exports, rules);
    Put(a.state, "bestmove " + a.best)
  }

  /** Step 3 of `go`: send the human's move if one is due, then answer unless Lichess refused it. */
  function SendSpec(ws: WorkerState, remote: Remote, rules: Rules): WorkerState {
    match HumanMove(ws)
    case None => AnswerSpec(ws, remote.exports, rules)
    case Some(m) =>
      if remote.sendOk then AnswerSpec(Put(ws, Info(SentMove + m + ToLichess)), remote.exports, rules)
      else Error(ws, MoveRejected + m)
  }

  /** `_handle_go(command)`. */
  function GoSpec(ws: WorkerState, command: String, remote: Remote, rules: Rules): WorkerState {
    if Contains(command, "ponder") then ws
    else if !ws.connected then
      Put(Put(ws, Info(TokenMissing)), NullMove)
    else
      var w := Discovered(ws, remote.discovery);
      if !Bound(w.gameId) then Put(Put(w, Info(NoGame)), NullMove)
      else SendSpec(w, remote, rules)
  }

  /** A `bestmove` line. */
  predicate IsBestmove(line: String) {
    StartsWith(line, "bestmove ")
  }

  /** `after` is `before`, information lines, and one `bestmove` line last. */
  predicate Answered(before: seq<String>, after: seq<String>) {
    |before| < |after| && AppendsInfo(before, after[..|after| - 1]) && IsBestmove(after[|after| - 1])
  }

  /** Lichess refused the human's move, and `go` gives no answer. */
  predicate Rejected(ws: WorkerState, remote: Remote) {
    var w := Discovered(ws, remote.discovery);
    ws.connected && Bound(w.gameId) && HumanMove(w).Some? && !remote.sendOk
  }

  lemma InfoIsNotBestmove(msg: String)
    ensures !IsBestmove(Info(msg))
  {
    assert Info(msg)[0] != "bestmove "[0];
  }

  lemma DiscoveredAppendsInfo(ws: WorkerState, d: Discovery)
    ensures var w := Discovered(ws, d);
      AppendsInfo(ws.responses, w.responses) && w.(gameId := ws.gameId, myColor := ws.myColor, responses := ws.responses) == ws
  {
    if Bound(ws.gameId) {
      assert ws.responses[..|ws.responses|] == ws.responses;
    } else {
      FindOrCreateAppendsInfo(ws, d);
    }
  }

  /** A `bestmove` after information lines, past `before`. */
  lemma AnsweredAfter(before: seq<String>, mid: seq<String>, best: String)
    requires AppendsInfo(before, mid)
    ensures Answered(before, mid + ["bestmove " + best])
  {
    assert (mid + ["bestmove " + best])[..|mid|] == mid;
    assert ("bestmove " + best)[..9] == "bestmove ";
  }

  /** The answer of step 4: a `bestmove` for the reported move after information lines. */
  lemma AnswerOutcome(ws: WorkerState, exports: seq<Export>, rules: Rules)
    ensures var r := AnswerSpec(ws, exports, rules);
      && Answered(ws.responses, r.responses)
      && r.(board := ws.board, responses := ws.responses, commands := ws.commands) == ws
      && ((r.board == ws.board && r.responses[|r.responses| - 1] == NullMove)
          || exists m :: r.board == Push(ws.board, m) && r.responses[|r.responses| - 1] == "bestmove " + m)
  {
    var w := Put(ws, Info(WaitingFor + Opponent(ws.options) + ToMove));
    AppendsInfoOne(ws.responses, WaitingFor + Opponent(ws.options) + ToMove);
    var a := WaitSpec(w, exports, rules);
    WaitOutcome(w, exports, rules);
    AppendsInfoTrans(ws.responses, w.responses, a.state.responses);
    AnsweredAfter(ws.responses, a.state.responses, a.best);
  }

  /** An information line is not a `bestmove` line. */
  lemma InfoLineNotBestmove(line: String)
    requires IsInfo(line)
    ensures !IsBestmove(line)
  {
    assert line[0] == "info string "[0];
  }

  lemma AnsweredTrans(a: seq<String>, b: seq<String>, c: seq<String>)
    requires AppendsInfo(a, b) && Answered(b, c)
    ensures Answered(a, c)
  {
    AppendsInfoTrans(a, b, c[..|c| - 1]);
  }

  /** Information lines past `before`, at least one, are no answer. */
  lemma InfoIsNoAnswer(before: seq<String>, after: seq<String>)
    requires AppendsInfo(before, after) && |before| < |after|
    ensures !Answered(before, after)
  {
    InfoLineNotBestmove(after[|after| - 1]);
  }

  /** Steps 3 and 4: a refused move ends `go` with an error line; otherwise it is answered. */
  lemma SendOutcome(w: WorkerState, remote: Remote, rules: Rules)
    ensures var r := SendSpec(w, remote, rules);
      && (HumanMove(w).Some? && !remote.sendOk ==>
            AppendsInfo(w.responses, r.responses) && |w.responses| < |r.responses| && r.commands == w.commands && r.board == w.board)
      && (!(HumanMove(w).Some? && !remote.sendOk) ==> Answered(w.responses, r.responses))
      && r.options == w.options && r.connected == w.connected && r.username == w.username
      && (r.board == w.board || exists m :: r.board == Push(w.board, m) && r.responses[|r.responses| - 1] == "bestmove " + m)
  {
    match HumanMove(w)
    case None =>
      AnswerOutcome(w, remote.exports, rules);
    case Some(m) =>
      if remote.sendOk {
        var w2 := Put(w, Info(SentMove + m + ToLichess));
        AppendsInfoOne(w.responses, SentMove + m + ToLichess);
        AnswerOutcome(w2, remote.exports, rules);
        AnsweredTrans(w.responses, w2.responses, SendSpec(w, remote, rules).responses);
      } else {
        ErrorIsInfo(w.responses, MoveRejected + m);
      }
  }

  /**
   * Outside pondering, `go` answers with exactly one `bestmove` line, after
   * information lines, unless Lichess refused the human's move, in which case
   * it writes only information lines. It never touches the options, the
   * connection or the account, and the board gains at most the reported move.
   */
  lemma GoOutcome(ws: WorkerState, command: String, remote: Remote, rules: Rules)
    requires !Contains(command, "ponder")
    ensures var r := GoSpec(ws, command, remote, rules);
      && (Answered(ws.responses, r.responses) <==> !Rejected(ws, remote))
      && (Rejected(ws, remote) ==> AppendsInfo(ws.responses, r.responses) && r.commands == ws.commands)
      && r.options == ws.options && r.connected == ws.connected && r.username == ws.username
      && (r.board == ws.board || exists m :: r.board == Push(ws.board, m) && r.responses[|r.responses| - 1] == "bestmove " + m)
  {
    if !ws.connected {
      var w := Put(ws, Info(TokenMissing));
      AppendsInfoOne(ws.responses, TokenMissing);
      AnsweredAfter(ws.responses, w.responses, "0000");
    } else {
      var w := Discovered(ws, remote.discovery);
      DiscoveredAppendsInfo(ws, remote.discovery);
      if !Bound(w.gameId) {
        var w2 := Put(w, Info(NoGame));
        AppendsInfoOne(w.responses, NoGame);
        AppendsInfoTrans(ws.responses, w.responses, w2.responses);
        AnsweredAfter(ws.responses, w2.responses, "0000");
      } else {
        var r := SendSpec(w, remote, rules);
        SendOutcome(w, remote, rules);
        if Rejected(ws, remote) {
          AppendsInfoTrans(ws.responses, w.responses, r.responses);
          InfoIsNoAnswer(ws.responses, r.responses);
        } else {
          AnsweredTrans(ws.responses, w.responses, r.responses);
        }
      }
    }
  }

  /** Step 4 relays the move the wait reports, under the conditions of `WaitSpecRelays`. */
  lemma AnswerRelays(ws: WorkerState, exports: seq<Export>, rules: Rules, j: nat, m: String)
    requires j < MovePolls
    requires forall p :: 0 <= p <= j && p < |ws.commands| ==> !Interrupts(ws.commands[p])
    requires forall p :: 0 <= p < j ==> Observe(ExportAt(exports, p), Ply(ws.board), rules) == None
    requires j < |exports| && exports[j].Exported? && NewerLine(Split(exports[j].moves), Ply(ws.board), rules, m)
    ensures var r := AnswerSpec(ws, exports, rules);
      && |r.responses| > 0 && r.responses[|r.responses| - 1] == "bestmove " + m
      && r.board == Push(ws.board, m) && r.commands == TakenAfter(ws.commands, j + 1)
  {
    var w := Put(ws, Info(WaitingFor + Opponent(ws.options) + ToMove));
    WaitSpecRelays(w, exports, rules, j, m);
  }

  /**
   * End to end, `go` relays the opponent's move: on a connected worker with a
   * game, where Lichess does not refuse the human's move, when no command
   * taken up to poll `j` is "stop" or "quit", no export before poll `j` ends
   * the wait and the export at poll `j` is a newer line ending in `m`, the
   * last line written is `bestmove m` and the local board gains `m`.
   */
  lemma GoRelaysNewerExport(ws: WorkerState, command: String, remote: Remote, rules: Rules, j: nat, m: String)
    requires !Contains(command, "ponder") && ws.connected
    requires Bound(Discovered(ws, remote.discovery).gameId) && !Rejected(ws, remote)
    requires j < MovePolls
    requires forall p :: 0 <= p <= j && p < |ws.commands| ==> !Interrupts(ws.commands[p])
    requires forall p :: 0 <= p < j ==> Observe(ExportAt(remote.exports, p), Ply(ws.board), rules) == None
    requires j < |remote.exports| && remote.exports[j].Exported?
    requires NewerLine(Split(remote.exports[j].moves), Ply(ws.board), rules, m)
    ensures var r := GoSpec(ws, command, remote, rules);
      && |r.responses| > 0 && r.responses[|r.responses| - 1] == "bestmove " + m
      && r.board == Push(ws.board, m) && r.commands == TakenAfter(ws.commands, j + 1)
  {
    var w := Discovered(ws, remote.discovery);
    DiscoveredAppendsInfo(ws, remote.discovery);
    assert w.board == ws.board && w.commands == ws.commands;
    match HumanMove(w)
    case None =>
      AnswerRelays(w, remote.exports, rules, j, m);
    case Some(h) =>
      AnswerRelays(Put(w, Info(SentMove + h + ToLichess)), remote.exports, rules, j, m);
  }

  /** `go` only takes commands from the queue (while it waits), never adds any. */
  lemma GoTakesFromQueue(ws: WorkerState, command: String, remote: Remote, rules: Rules)
    ensures |GoSpec(ws, command, remote, rules).commands| <= |ws.commands|
  {
    if !Contains(command, "ponder") && ws.connected {
      DiscoveredAppendsInfo(ws, remote.discovery);
    }
  }

  // ===========================================================================
  // run
  // ===========================================================================

  /** One command taken off the queue, handed to its handler. */
  function StepSpec(ws: WorkerState, command: String, remote: Remote, rules: Rules): WorkerState {
    match JobOf(command)
    case QuitJob => Put(ws, QuitSignal)
    case NewGameJob => NewGameSpec(ws, remote.resignOk)
    case PositionJob => PositionSpec(ws, command, rules)
    case GoJob => GoSpec(ws, command, remote, rules)
    case SetOptionJob => SetOptionSpec(ws, command, remote)
    case Unhandled => UnhandledSpec(ws, command)
  }

  /** No handler adds commands to the queue; `go` may take some from it. */
  lemma StepShrinksQueue(ws: WorkerState, command: String, remote: Remote, rules: Rules)
    ensures |StepSpec(ws, command, remote, rules).commands| <= |ws.commands|
  {
    match JobOf(command)
    case QuitJob =>
    case NewGameJob => NewGameResets(ws, remote.resignOk);
    case PositionJob => PositionKeepsOptions(ws, command, rules);
    case GoJob => GoTakesFromQueue(ws, command, remote, rules);
    case SetOptionJob => SetOptionKeepsQueue(ws, command, remote);
    case Unhandled =>
  }

  /** The remote replies for the `n`-th command: beyond those given, every call fails. */
  function RemoteAt(remotes: seq<Remote>, n: nat): Remote {
    if n < |remotes| then remotes[n]
    else Remote(AccountError(""), false, false, Discovery(Poll(false, None), CreateFailed(""), []), false, [])
  }

  /** The state when the loop stops, and whether it stopped on "quit". */
  datatype Ran = Ran(state: WorkerState, quit: bool)

  /**
   * `run`: take commands until "quit"; an empty queue ends the model's run
   * (the thread would block on it).
   */
  function RunSpec(ws: WorkerState, remotes: seq<Remote>, rules: Rules, n: nat): Ran
    decreases |ws.commands|
  {
    if ws.commands == [] then Ran(ws, false)
    else
      var command := ws.commands[0];
      var w := ws.(commands := ws.commands[1..]);
      var next := StepSpec(w, command, RemoteAt(remotes, n), rules);
      if JobOf(command) == QuitJob then Ran(next, true)
      else
        StepShrinksQueue(w, command, RemoteAt(remotes, n), rules);
        RunSpec(next, remotes, rules, n + 1)
  }

  /** No handler changes which names the dictionary has or the type class of any option. */
  lemma StepKeepsTypes(ws: WorkerState, command: String, remote: Remote, rules: Rules)
    requires Typed(ws.options)
    ensures Typed(StepSpec(ws, command, remote, rules).options)
  {
    match JobOf(command)
    case NewGameJob => NewGameResets(ws, remote.resignOk);
    case PositionJob => PositionKeepsOptions(ws, command, rules);
    case GoJob =>
      if !Contains(command, "ponder") {
        GoOutcome(ws, command, remote, rules);
      }
    case SetOptionJob => SetOptionKeepsTypes(ws, command, remote);
    case _ =>
  }

  /**
   * The run stops on "quit", with QUIT_SIGNAL as the last response, or with
   * the queue drained; the options stay typed throughout.
   */
  lemma RunOutcome(ws: WorkerState, remotes: seq<Remote>, rules: Rules, n: nat)
    requires Typed(ws.options)
    ensures var r := RunSpec(ws, remotes, rules, n);
      && (r.quit ==> |r.state.responses| > 0 && r.state.responses[|r.state.responses| - 1] == QuitSignal)
      && (!r.quit ==> r.state.commands == [])
      && Typed(r.state.options)
  {
    RunEndsWithSignal(ws, remotes, rules, n);
    RunDrains(ws, remotes, rules, n);
    RunKeepsTypes(ws, remotes, rules, n);
  }

  /** A run that stopped on "quit" last wrote QUIT_SIGNAL. */
  lemma {:induction false} RunEndsWithSignal(ws: WorkerState, remotes: seq<Remote>, rules: Rules, n: nat)
    ensures var r := RunSpec(ws, remotes, rules, n);
      r.quit ==> |r.state.responses| > 0 && r.state.responses[|r.state.responses| - 1] == QuitSignal
    decreases |ws.commands|
  {
    if ws.commands != [] {
      var command := ws.commands[0];
      var w := ws.(commands := ws.commands[1..]);
      var next := StepSpec(w, command, RemoteAt(remotes, n), rules);
      if JobOf(command) == QuitJob {
        assert next == Put(w, QuitSignal);
        assert RunSpec(ws, remotes, rules, n) == Ran(next, true);
      } else {
        StepShrinksQueue(w, command, RemoteAt(remotes, n), rules);
        assert RunSpec(ws, remotes, rules, n) == RunSpec(next, remotes, rules, n + 1);
        RunEndsWithSignal(next, remotes, rules, n + 1);
      }
    }
  }

  /** A run that did not stop on "quit" emptied the queue. */
  lemma {:induction false} RunDrains(ws: WorkerState, remotes: seq<Remote>, rules: Rules, n: nat)
    ensures var r := RunSpec(ws, remotes, rules, n);
      !r.quit ==> r.state.commands == []
    decreases |ws.commands|
  {
    if ws.commands != [] {
      var command := ws.commands[0];
      var w := ws.(commands := ws.commands[1..]);
      if JobOf(command) != QuitJob {
        var next := StepSpec(w, command, RemoteAt(remotes, n), rules);
        StepShrinksQueue(w, command, RemoteAt(remotes, n), rules);
        RunDrains(next, remotes, rules, n + 1);
      }
    }
  }

  /** Every option keeps its type class through the whole run. */
  lemma {:induction false} RunKeepsTypes(ws: WorkerState, remotes: seq<Remote>, rules: Rules, n: nat)
    requires Typed(ws.options)
    ensures Typed(RunSpec(ws, remotes, rules, n).state.options)
    decreases |ws.commands|
  {
    if ws.commands != [] {
      var command := ws.commands[0];
      var w := ws.(commands := ws.commands[1..]);
      var next := StepSpec(w, command, RemoteAt(remotes, n), rules);
      StepKeepsTypes(w, command, RemoteAt(remotes, n), rules);
      if JobOf(command) != QuitJob {
        StepShrinksQueue(w, command, RemoteAt(remotes, n), rules);
        RunKeepsTypes(next, remotes, rules, n + 1);
      }
    }
  }

  // ===========================================================================
  // The worker object
  // ===========================================================================

  /**
   * `LichessWorker`; `connected` stands for `self.client` being set. The
   * queues are shared with the reader thread (a `Queues` object both hold).
   */
  class LichessWorker {
    var options: map<String, Value>
    var connected: bool
    var myUsername: Option<String>
    var board: Board
    var gameId: Option<String>
    var myColor: Option<Side>
    const queues: Queues

    function State(): WorkerState
      reads this, queues
    {
      WorkerState(options, connected, myUsername, board, gameId, myColor, queues.responses, queues.commands)
    }

    /** `__init__`: the default options, no client, the initial board, no game. */
    constructor (q: Queues)
      ensures queues == q
      ensures State() == WorkerState(InitialOptions, false, None, Initial, None, None, q.responses, q.commands)
      ensures Typed(options)
    {
      options := InitialOptions;
      connected, myUsername := false, None;
      board, gameId, myColor := Initial, None, None;
      queues := q;
      InitialTyped();
    }

    /** `RESPONSE_QUEUE.put(line)`. */
    method Respond(line: String)
      modifies queues
      ensures State() == Put(old(State()), line)
    {
      queues.responses := queues.responses + [line];
    }

    /** `log_error(msg)`. */
    method LogError(msg: String)
      modifies queues
      ensures State() == Error(old(State()), msg)
    {
      Respond(ErrorLine(msg));
    }

    /** `_resign_current_game`; `resignOk` is whether `board.resign` succeeds. */
    method ResignCurrentGame(resignOk: bool)
      modifies this, queues
      ensures State() == ResignSpec(old(State()), resignOk)
    {
      if gameId.Some? && gameId.value != "" && connected && resignOk {
        Respond(Info(ResignedGame + gameId.value));
      }
      gameId := None;
    }

    method HandleUciNewGame(resignOk: bool)
      modifies this, queues
      ensures State() == NewGameSpec(old(State()), resignOk)
    {
      ResignCurrentGame(resignOk);
      board := Initial;
      gameId := None;
      myColor := None;
    }

    /** `_handle_position`: with an argument, reset the board and carry out the plan. */
    method HandlePosition(command: String, rules: Rules)
      modifies this, queues
      ensures State() == PositionSpec(old(State()), command, rules)
    {
      var parts := SplitOnce(command, " ");
      if |parts| > 1 {
        ApplyPlan(command, PlanOf(parts[1]), rules);
      }
    }

    /** Set the FEN the plan names, if any, then push its moves. */
    method ApplyPlan(command: String, plan: Plan, rules: Rules)
      modifies this, queues
      ensures State() == PlanSpec(old(State()), command, plan, rules)
    {
      board := Initial;
      if plan.Malformed? {
        LogError(PositionFailed + command);
        return;
      }
      if plan.fen.Some? {
        var fenBoard := SetFen(rules, plan.fen.value);
        if fenBoard.None? {
          LogError(PositionFailed + command);
          return;
        }
        board := fenBoard.value;
      }
      PushMoves(command, Split(plan.moves), rules);
    }

    /** The `push_uci` loop on the worker's own board: each move is pushed in place; the first illegal one stops it. */
    method PushMoves(command: String, ms: seq<String>, rules: Rules)
      modifies this, queues
      ensures var replay := PushAll(rules, old(board), ms);
        var w := old(State()).(board := replay.board);
        State() == if replay.failed then PositionError(w, command) else w
    {
      ghost var start := board;
      var i := 0;
      while i < |ms|
        invariant i <= |ms|
        invariant PushAll(rules, board, ms[i..]) == PushAll(rules, start, ms)
        invariant State() == old(State()).(board := board)
      {
        if !rules.legal(board, ms[i]) {
          LogError(PositionFailed + command);
          return;
        }
        assert ms[i..][1..] == ms[i + 1..];
        board := Push(board, ms[i]);
        i := i + 1;
      }
    }

    /** `_authenticate`; `account` is what `account.get()` returns or raises. */
    method Authenticate(account: Account)
      modifies this, queues
      ensures State() == AuthenticateSpec(old(State()), account)
    {
      Respond(Info(TokenReceived));
      match account
      case Authorized(id) =>
        connected := true;
        myUsername := Some(id);
        Respond(Info(AuthSuccessful + id + "."));
      case AccountError(_) =>
        connected := false;
        myUsername := None;
        LogError(AuthFailed);
    }

    /** `_validate_connection`. */
    method ValidateConnection(account: Account, opponentFound: bool)
      modifies queues
      ensures State() == ValidateSpec(old(State()), account, opponentFound)
    {
      if !connected {
        Respond(Info(NoTokenSet));
        return;
      }
      Respond(Info(Validating));
      match account
      case Authorized(id) =>
        Respond(Info(LoggedInAs + id));
        var opp := Opponent(options);
        if opponentFound {
          Respond(Info(OpponentFound + opp + "' found."));
        } else {
          Respond(Info(OpponentMissing + opp + NotFoundOrInvalid));
        }
      case AccountError(e) =>
        Respond(Info(ValidationFailed + e));
    }

    /** `_handle_setoption`. */
    method HandleSetOption(command: String, remote: Remote)
      modifies this, queues
      ensures State() == SetOptionSpec(old(State()), command, remote)
    {
      var a := ParseAssignment(command);
      if a.name == "VerifyConnection" {
        ValidateConnection(remote.account, remote.opponentFound);
        return;
      }
      if a.name == "Resign" {
        ResignCurrentGame(remote.resignOk);
        return;
      }
      if a.name in options {
        StoreOption(command, a, remote.account);
      }
    }

    /** The assignment into the dictionary, with its conversion, and the authentication a token starts. */
    method StoreOption(command: String, a: Assignment, account: Account)
      requires a.name in options
      modifies this, queues
      ensures State() == StoreSpec(old(State()), command, a, account)
    {
      var v := Converted(options[a.name], a.value);
      if v.None? {
        LogError(ParseFailed + command);
        return;
      }
      options := options[a.name := v.value];
      if a.name == "LichessToken" && a.value != "" {
        Authenticate(account);
      }
    }

    /** `check_ongoing(target_id)`, against one answer of the remote calls. */
    method CheckOngoing(target: Option<String>, poll: Poll) returns (found: bool)
      modifies this
      ensures Checked(State(), found) == CheckOngoingSpec(old(State()), target, poll)
    {
      if target.Some? && target.value != "" && poll.exported {
        gameId := target;
        return true;
      }
      if poll.games.None? {
        return false;
      }
      var games := poll.games.value;
      var opp := Opponent(options);
      var i := 0;
      while i < |games|
        invariant i <= |games|
        invariant MatchFrom(games, target, opp, i) == MatchFrom(games, target, opp, 0)
        invariant State() == old(State())
      {
        var g := games[i];
        if target.Some? && target.value != "" {
          if g.gameId == target.value {
            gameId := Some(g.gameId);
            myColor := Some(ColorOf(g.color));
            return true;
          }
        }
        if !(target.Some? && target.value != "") && g.opponent != [] && Lower(g.opponent) == Lower(opp) {
          gameId := Some(g.gameId);
          myColor := Some(ColorOf(g.color));
          return true;
        }
        i := i + 1;
      }
      found := false;
    }

    /** The loop of `check_ongoing(target_id=challenge_id)` calls after a challenge was sent. */
    method AwaitGameStart(target: Option<String>, polls: seq<Poll>)
      modifies this, queues
      ensures State() == StartSpec(old(State()), target, polls, 0)
    {
      var i := 0;
      while i < StartPolls
        invariant i <= StartPolls
        invariant State() == old(State())
        invariant StartSpec(old(State()), target, polls, i) == StartSpec(old(State()), target, polls, 0)
      {
        var found := CheckOngoing(target, PollAt(polls, i));
        if found {
          Respond(Info(GameStarted + IdText(gameId)));
          return;
        }
        i := i + 1;
      }
    }

    /**
     * `_find_or_create_game`; `sent` is the parameter set handed to
     * `challenges.create`, None when a game was resumed.
     */
    method FindOrCreateGame(d: Discovery) returns (sent: Option<ChallengeParams>)
      modifies this, queues
      ensures State() == FindOrCreateSpec(old(State()), d)
      ensures sent == if CheckOngoingSpec(old(State()), None, d.ongoing).found then None else Some(ParamsOf(old(options), old(board)))
    {
      var found := CheckOngoing(None, d.ongoing);
      if found {
        Respond(Info(FoundAndResumed + IdText(gameId)));
        return None;
      }
      Respond(Info(Challenging + Opponent(options) + "..."));
      sent := Some(ParamsOf(options, board));
      match d.challenge
      case Declined =>
        Respond(Info(ChallengeDeclined));
      case CreateFailed(e) =>
        LogError(ChallengeFailed + e);
      case Issued(id) =>
        Respond(Info(ChallengeSent));
        AwaitGameStart(id, d.polls);
    }

    /** One export checked on a temporary board rebuilt from its moves. */
    static method ObserveExport(e: Export, start: nat, rules: Rules) returns (o: Option<WaitEnd>)
      ensures o == Observe(e, start, rules)
    {
      if e.ExportFailed? {
        return None;
      }
      var replay := ReplayMoves(rules, Initial, Split(e.moves));
      if replay.failed {
        return None;
      }
      var temp := replay.board;
      if Ply(temp) > start && temp.moves != [] {
        return Some(Moved(temp.moves[|temp.moves| - 1]));
      }
      if e.status.Some? && e.status.value in EndStatuses {
        return Some(GameOver);
      }
      return None;
    }

    /** `_wait_for_bot_move`; `exports` are the snapshots `games.export` returns, one per poll. */
    method WaitForBotMove(exports: seq<Export>, rules: Rules) returns (best: String)
      modifies this, queues
      ensures Answer(State(), best) == WaitSpec(old(State()), exports, rules)
    {
      var end := PollExports(exports, rules, Ply(board));
      match end
      case Moved(m) =>
        board := Push(board, m);
        best := m;
      case TimedOut =>
        LogError(WaitTimedOut);
        best := "0000";
      case _ =>
        best := "0000";
    }

    /** The polling loop of `_wait_for_bot_move`: how the wait ends, and what it took from the queue. */
    method PollExports(exports: seq<Export>, rules: Rules, start: nat) returns (end: WaitEnd)
      modifies queues
      ensures Waited(end, queues.commands) == BotWait(old(queues.commands), start, exports, rules, 0)
      ensures queues.responses == old(queues.responses)
    {
      var retries := 0;
      while retries < MovePolls
        invariant retries <= MovePolls
        invariant BotWait(queues.commands, start, exports, rules, retries) == BotWait(old(queues.commands), start, exports, rules, 0)
        invariant queues.responses == old(queues.responses)
      {
        ghost var pending := queues.commands;
        if queues.commands != [] {
          var command := queues.commands[0];
          queues.commands := queues.commands[1..];
          if command == "stop" || command == "quit" {
            return Interrupted;
          }
        }
        var o := ObserveExport(ExportAt(exports, retries), start, rules);
        if o.Some? {
          return o.value;
        }
        assert BotWait(pending, start, exports, rules, retries) == BotWait(queues.commands, start, exports, rules, retries + 1);
        retries := retries + 1;
      }
      return TimedOut;
    }

    /** `_handle_go(command)`. */
    method HandleGo(command: String, remote: Remote, rules: Rules)
      modifies this, queues
      ensures State() == GoSpec(old(State()), command, remote, rules)
    {
      if Contains(command, "ponder") {
        return;
      }
      if !connected {
        Respond(Info(TokenMissing));
        Respond(NullMove);
        return;
      }
      Discover(remote.discovery);
      if !(gameId.Some? && gameId.value != "") {
        Respond(Info(NoGame));
        Respond(NullMove);
        return;
      }
      SendHumanMove(remote, rules);
    }

    /** Step 1 of `go`: find or create a game when none is bound. */
    method Discover(d: Discovery)
      modifies this, queues
      ensures State() == Discovered(old(State()), d)
    {
      if !(gameId.Some? && gameId.value != "") {
        var _ := FindOrCreateGame(d);
      }
    }

    /** Step 3 of `go`: send the human's move when one is due; a refused move ends the command. */
    method SendHumanMove(remote: Remote, rules: Rules)
      modifies this, queues
      ensures State() == SendSpec(old(State()), remote, rules)
    {
      if myColor.Some? && Turn(board) != myColor.value && board.moves != [] {
        var last := board.moves[|board.moves| - 1];
        if !remote.sendOk {
          LogError(MoveRejected + last);
          return;
        }
        Respond(Info(SentMove + last + ToLichess));
      }
      AnswerGo(remote.exports, rules);
    }

    /** Step 4 of `go`: wait for the opponent and relay its move. */
    method AnswerGo(exports: seq<Export>, rules: Rules)
      modifies this, queues
      ensures State() == AnswerSpec(old(State()), exports, rules)
    {
      Respond(Info(WaitingFor + Opponent(options) + ToMove));
      var best := WaitForBotMove(exports, rules);
      Respond("bestmove " + best);
    }

    /** The body of `run`'s loop for one command taken from the queue. */
    method Step(command: String, remote: Remote, rules: Rules)
      modifies this, queues
      ensures State() == StepSpec(old(State()), command, remote, rules)
    {
      match JobOf(command)
      case QuitJob => Respond(QuitSignal);
      case NewGameJob => HandleUciNewGame(remote.resignOk);
      case PositionJob => HandlePosition(command, rules);
      case GoJob => HandleGo(command, remote, rules);
      case SetOptionJob => HandleSetOption(command, remote);
      case Unhandled => Respond(Info(UnhandledCommand + command));
    }

    /**
     * `run`: take each command off the queue and handle it, stopping after
     * "quit"; `remotes[n]` answers the remote calls of the `n`-th command.
     * The model stops when the queue is empty, where the thread would block.
     */
    method Run(remotes: seq<Remote>, rules: Rules) returns (quit: bool)
      modifies this, queues
      ensures Ran(State(), quit) == RunSpec(old(State()), remotes, rules, 0)
    {
      var n := 0;
      while queues.commands != []
        invariant RunSpec(State(), remotes, rules, n) == RunSpec(old(State()), remotes, rules, 0)
        decreases |queues.commands|
      {
        var command := queues.commands[0];
        queues.commands := queues.commands[1..];
        ghost var popped := State();
        Step(command, RemoteAt(remotes, n), rules);
        StepShrinksQueue(popped, command, RemoteAt(remotes, n), rules);
        if command == "quit" {
          return true;
        }
        n := n + 1;
      }
      quit := false;
    }
  }
}
