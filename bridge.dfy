/**
 * UCIbridgeForLucas.py, class LichessBridge: a UCI engine front whose "search"
 * is waiting for a remote opponent's move.
 *
 * The state of a bridge is `BridgeState`; every handler is specified by a pure
 * function from the old state (and the remote replies it received, given as
 * data) to the new one, and the class `LichessBridge` implements each handler
 * imperatively against that function. Lines written to standard output with
 * `send` accumulate in `out`; the messages the stream thread hands to the
 * search thread accumulate in `moveQueue`.
 */
module Bridge {

  import opened Base
  import opened Text
  import opened Chess
  import opened Uci

  const Version: String := "3.1"

  /** CHALLENGE_TIMEOUT (30 s) divided by CHALLENGE_POLL_INTERVAL (1 s): the polls for acceptance. */
  const ChallengePolls: nat := 30

  /** The UCI options of the bridge (the module-level DEBUG flag included). */
  datatype Settings = Settings(
    token: String, opponent: String, playAs: String, variant: String, timeMode: String,
    minutes: int, increment: int, days: int, rated: bool, debug: bool)

  const Defaults: Settings := Settings("", "maia1", "random", "standard", "realtime", 5, 3, 1, false, true)

  const PlayAsChoices: set<String> := {"white", "black", "random"}
  const TimeModes: set<String> := {"realtime", "correspondence", "unlimited"}
  const TrueWords: set<String> := {"true", "1", "on"}

  /** The option names `setoption` acts on (compared lower-cased). */
  const KnownOptions: set<String> :=
    {"lichesstoken", "opponent", "playas", "variant", "timemode", "minutes", "increment", "days", "rated", "debug"}

  /** The ranges the spin options are clamped to and the combo options are limited to. */
  predicate ValidSettings(st: Settings) {
    && 1 <= st.minutes <= 180 && 0 <= st.increment <= 180 && 1 <= st.days <= 14
    && st.playAs in PlayAsChoices && st.timeMode in TimeModes
  }

  /** A message from the stream thread to the search thread (the tuples put on `move_queue`). */
  datatype Msg = MoveMsg(uci: String, count: nat) | GameOverMsg(status: String, winner: String) | ErrorMsg(text: String)

  datatype BridgeState = BridgeState(
    settings: Settings, connected: bool, myUsername: String, gameId: Option<String>,
    myColor: Option<Side>, board: Board, stopFlag: bool, streamActive: bool,
    moveQueue: seq<Msg>, out: seq<String>)

  // ===========================================================================
  // Messages
  // ===========================================================================

  /** The fixed parts of the lines the bridge writes for the GUI. */
  const LoggedIn: String := "Logged in as "
  const LoginFailed: String := "Login failed - check token"
  const TokenUnset: String := "ERROR: Set LichessToken in Parameters"
  const ConnectionFailed: String := "ERROR: Connection failed"
  const ResumingGame: String := "Resuming game vs "
  const ChallengeTimedOut: String := "Challenge timed out"
  const ProfileHint: String := "'s profile for accepted settings"
  const PlayingAs: String := "Playing as "
  const Challenging: String := "Challenging "
  const StartedGame: String := "Game started!"
  const WaitingForBot: String := "Waiting for bot to accept..."
  const ChallengeRefused: String := "Challenge failed: "
  const RejectedMove: String := "Move rejected: "
  const GameOverText: String := "Game over: "
  const OpponentTimedOut: String := "Timeout waiting for opponent"
  const SendingMove: String := "Sending your move..."
  const WaitingFor: String := "Waiting for "

  // ===========================================================================
  // run: dispatch on the first word
  // ===========================================================================

  datatype Command = Blank | Uci | SetOption | IsReady | NewGame | Position | Go | Stop | Quit | Unknown(word: String)

  /** The command kind of one input line: empty after stripping, or its first word lower-cased. */
  function CommandOf(line: String): Command {
    var t := Strip(line);
    if t == [] then Blank
    else
      assert !IsSpace(t[0]);
      KindOf(Lower(Split(t)[0]))
  }

  function KindOf(w: String): Command {
    if w == "uci" then Uci
    else if w == "setoption" then SetOption
    else if w == "isready" then IsReady
    else if w == "ucinewgame" then NewGame
    else if w == "position" then Position
    else if w == "go" then Go
    else if w == "stop" then Stop
    else if w == "quit" then Quit
    else Unknown(w)
  }

  /** Only the first word matters, whatever its case and whatever follows it. */
  lemma CommandIsFirstWord(w: String, rest: String)
    requires w != [] && NoSpace(w)
    requires rest == [] || IsSpace(rest[0])
    ensures CommandOf(w + rest) == KindOf(Lower(w))
  {
    var line := w + rest;
    assert line[0] == w[0];
    var t := Strip(line);
    assert StripStart(line) == 0 by {
      assert !IsSpace(line[0]);
    }
    assert !IsSpace(line[|w| - 1]);
    assert |t| >= |w|;
    assert t == w + t[|w|..];
    assert t[|w|..] == [] || IsSpace(t[|w|..][0]) by {
      if t[|w|..] != [] {
        assert t[|w|..][0] == line[|w|] == rest[0];
      }
    }
    WordLengthOfWord(w, t[|w|..]);
    assert t[..|w|] == w;
  }

  /** The index of the first line that is `quit`, or the number of lines. */
  function QuitIndex(lines: seq<String>): (k: nat)
    ensures k <= |lines|
    ensures forall j :: 0 <= j < k ==> CommandOf(lines[j]) != Quit
    ensures k < |lines| ==> CommandOf(lines[k]) == Quit
    decreases |lines|
  {
    if lines == [] then 0
    else if CommandOf(lines[0]) == Quit then 0
    else 1 + QuitIndex(lines[1..])
  }

  // ===========================================================================
  // uci
  // ===========================================================================

  function CheckWord(b: bool): String {
    if b then "true" else "false"
  }

  /** `_handle_uci`: the identity, the option list with the current defaults, then `uciok`. */
  function UciBlock(st: Settings): seq<String> {
    UciHeader(st) + ["uciok"]
  }

  /** The identity and option declarations of the handshake, with the current defaults. */
  function UciHeader(st: Settings): seq<String> {
    var opts := UciOptions(st);
    [IdLine("name", "Lichess Bridge v" + Version), IdLine("author", "Human-Bot Bridge")]
      + seq(|opts|, i requires 0 <= i < |opts| => OptionLine(opts[i].0, opts[i].1))
  }

  /** The choices the combo options declare. */
  const PlayAsVars: String := " var white var black var random"
  const VariantVars: String :=
    " var standard var chess960 var crazyhouse var antichess var atomic var horde var kingOfTheHill var racingKings var threeCheck"
  const TimeModeVars: String := " var realtime var correspondence var unlimited"

  /** Each option's name and type declaration, defaults taken from the settings. */
  function UciOptions(st: Settings): seq<(String, String)> {
    [ ("LichessToken", "string default "),
      ("Opponent", "string default " + st.opponent),
      ("PlayAs", "combo default " + st.playAs + PlayAsVars),
      ("Variant", "combo default " + st.variant + VariantVars),
      ("TimeMode", "combo default " + st.timeMode + TimeModeVars),
      ("Minutes", "spin default " + IntToString(st.minutes) + " min 1 max 180"),
      ("Increment", "spin default " + IntToString(st.increment) + " min 0 max 180"),
      ("Days", "spin default " + IntToString(st.days) + " min 1 max 14"),
      ("Rated", "check default " + CheckWord(st.rated)),
      ("Debug", "check default " + CheckWord(st.debug)) ]
  }

  /** The handshake ends with `uciok`, and every line before it is a declaration, so `uciok` appears nowhere else. */
  lemma UciBlockEndsWithUciok(st: Settings)
    ensures |UciBlock(st)| == 13 && UciBlock(st)[12] == "uciok"
    ensures forall k :: 0 <= k < 12 ==> IsDeclaration(UciBlock(st)[k]) && UciBlock(st)[k] != "uciok"
  {
    var h := UciHeader(st);
    var opts := UciOptions(st);
    assert |h| == 12;
    forall k | 0 <= k < 12
      ensures IsDeclaration(UciBlock(st)[k]) && UciBlock(st)[k] != "uciok"
    {
      assert UciBlock(st)[k] == h[k];
      if k == 0 {
        IdLineDeclares("name", "Lichess Bridge v" + Version);
      } else if k == 1 {
        IdLineDeclares("author", "Human-Bot Bridge");
      } else {
        assert h[k] == OptionLine(opts[k - 2].0, opts[k - 2].1);
        OptionLineDeclares(opts[k - 2].0, opts[k - 2].1);
      }
      DeclarationIsNoHandshake(h[k]);
    }
  }

  // ===========================================================================
  // setoption
  // ===========================================================================

  datatype Assignment = Assignment(name: String, value: String)

  function DropName(part: String): String {
    if StartsWith(Lower(part), "name ") then part[5..] else part
  }

  /**
   * `_handle_setoption`'s parsing. With " value " found in the lower-cased line,
   * the name is the text from offset 10 (after "setoption ") to that first
   * occurrence, stripped and without a leading "name "; the value is the rest
   * of the line after it, stripped. With no " value ", the value is empty.
   */
  function ParseSetOption(line: String): Assignment {
    match Find(Lower(line), " value ")
    case Some(pos) =>
      Assignment(DropName(Strip(Slice(line, 10, pos))), Strip(From(line, pos + 7)))
    case None =>
      Assignment(DropName(Strip(From(line, 10))), "")
  }

  lemma LowerNoSpace(w: String)
    requires NoSpace(w)
    ensures NoSpace(Lower(w))
  {
    forall i | 0 <= i < |w|
      ensures !IsSpace(Lower(w)[i])
    {
      LowerKeepsSpaces(w[i]);
    }
  }

  /**
   * For `setoption name N value V` with a one-word name N other than "value",
   * the name is N and the value is V stripped, inner spaces kept.
   */
  lemma ParseSetOptionNameValue(n: String, v: String)
    requires n != [] && NoSpace(n) && Lower(n) != "value"
    ensures ParseSetOption("setoption name " + n + " value " + v) == Assignment(n, Strip(v))
  {
    var line := "setoption name " + n + " value " + v;
    assert Find(Lower(line), " value ") == Some(15 + |n|) by {
      LowerSetOptionLine(n, v);
      LowerNoSpace(n);
      FindValueMarker(Lower(n), Lower(v));
    }
    NamePartOf(n, v);
    ValuePartOf(n, v);
  }

  /** The value part of `setoption name N value V` is V. */
  lemma ValuePartOf(n: String, v: String)
    ensures From("setoption name " + n + " value " + v, 15 + |n| + 7) == v
  {
    var line := "setoption name " + n + " value " + v;
    assert line[15 + |n| + 7..] == v;
  }

  /** Lower-casing `setoption name N value V` lower-cases N and V only. */
  lemma LowerSetOptionLine(n: String, v: String)
    ensures Lower("setoption name " + n + " value " + v) == "setoption name " + Lower(n) + " value " + Lower(v)
  {
    LowerConcat("setoption name " + n + " value ", v);
    LowerConcat("setoption name " + n, " value ");
    LowerConcat("setoption name ", n);
    assert Lower("setoption name ") == "setoption name ";
    assert Lower(" value ") == " value ";
  }

  /** The name part of `setoption name N value V`, past "setoption ", gives back N. */
  lemma NamePartOf(n: String, v: String)
    requires n != [] && NoSpace(n)
    ensures DropName(Strip(Slice("setoption name " + n + " value " + v, 10, 15 + |n|))) == n
  {
    var namePart := Slice("setoption name " + n + " value " + v, 10, 15 + |n|);
    assert namePart == "name " + n;
    StripKeeps(namePart);
    assert Lower(namePart)[..5] == "name ";
    assert namePart[5..] == n;
  }

  /** Without " value ", the value is empty. */
  lemma ParseSetOptionNoValue(line: String)
    requires !Contains(Lower(line), " value ")
    ensures ParseSetOption(line).value == ""
  {
  }

  /** `max(lo, min(hi, n))`. */
  function Clamp(lo: int, hi: int, n: int): (r: int)
    requires lo <= hi
    ensures lo <= r <= hi
    ensures lo <= n <= hi ==> r == n
    ensures n < lo ==> r == lo
    ensures hi < n ==> r == hi
  {
    if n < lo then lo else if hi < n then hi else n
  }

  /** The options `setoption` knows, by name. */
  datatype OptionKey =
    TokenKey | OpponentKey | PlayAsKey | VariantKey | TimeModeKey
    | MinutesKey | IncrementKey | DaysKey | RatedKey | DebugKey | OtherKey

  /** The option a `setoption` name designates, compared lower-cased. */
  function KeyOf(name: String): (k: OptionKey)
    ensures k != OtherKey <==> Lower(name) in KnownOptions
    ensures k == TokenKey <==> Lower(name) == "lichesstoken"
  {
    var key := Lower(name);
    if key == "lichesstoken" then TokenKey
    else if key == "opponent" then OpponentKey
    else if key == "playas" then PlayAsKey
    else if key == "variant" then VariantKey
    else if key == "timemode" then TimeModeKey
    else if key == "minutes" then MinutesKey
    else if key == "increment" then IncrementKey
    else if key == "days" then DaysKey
    else if key == "rated" then RatedKey
    else if key == "debug" then DebugKey
    else OtherKey
  }

  /**
   * A spin option's new value: the parsed integer clamped to `[lo, hi]`, or the
   * old value when `int()` raises.
   */
  function SpinValue(lo: int, hi: int, current: int, value: String): (r: int)
    requires lo <= hi
    ensures ParseInt(value).None? ==> r == current
    ensures ParseInt(value).Some? ==> lo <= r <= hi
    ensures ParseInt(value).Some? && lo <= ParseInt(value).value <= hi ==> r == ParseInt(value).value
    ensures lo <= current <= hi ==> lo <= r <= hi
  {
    match ParseInt(value)
    case Some(n) => Clamp(lo, hi, n)
    case None => current
  }

  /** A combo option's new value: the lower-cased value when it is one of the choices, else the old value. */
  function ComboValue(choices: set<String>, current: String, value: String): (r: String)
    ensures Lower(value) in choices ==> r == Lower(value)
    ensures Lower(value) !in choices ==> r == current
    ensures current in choices ==> r in choices
  {
    if Lower(value) in choices then Lower(value) else current
  }

  /** A check option's new value: whether the lower-cased value is "true", "1" or "on". */
  function CheckValue(value: String): (r: bool)
    ensures r <==> Lower(value) == "true" || Lower(value) == "1" || Lower(value) == "on"
  {
    Lower(value) in TrueWords
  }

  /**
   * The effect of `_handle_setoption` on the option fields, given the option
   * and the parsed value: the designated field alone changes, and unknown
   * names change nothing.
   */
  function ApplyOption(st: Settings, key: OptionKey, value: String): (r: Settings)
    ensures key == TokenKey ==> r == st.(token := value)
    ensures key == OpponentKey ==> r == st.(opponent := Strip(value))
    ensures key == VariantKey ==> r == st.(variant := value)
    ensures key == PlayAsKey ==> r == st.(playAs := ComboValue(PlayAsChoices, st.playAs, value))
    ensures key == TimeModeKey ==> r == st.(timeMode := ComboValue(TimeModes, st.timeMode, value))
    ensures key == MinutesKey ==> r == st.(minutes := SpinValue(1, 180, st.minutes, value))
    ensures key == IncrementKey ==> r == st.(increment := SpinValue(0, 180, st.increment, value))
    ensures key == DaysKey ==> r == st.(days := SpinValue(1, 14, st.days, value))
    ensures key == RatedKey ==> r == st.(rated := CheckValue(value))
    ensures key == DebugKey ==> r == st.(debug := CheckValue(value))
    ensures key == OtherKey ==> r == st
    ensures ValidSettings(st) ==> ValidSettings(r)
  {
    match key
    case TokenKey => st.(token := value)
    case OpponentKey => st.(opponent := Strip(value))
    case PlayAsKey => st.(playAs := ComboValue(PlayAsChoices, st.playAs, value))
    case VariantKey => st.(variant := value)
    case TimeModeKey => st.(timeMode := ComboValue(TimeModes, st.timeMode, value))
    case MinutesKey => st.(minutes := SpinValue(1, 180, st.minutes, value))
    case IncrementKey => st.(increment := SpinValue(0, 180, st.increment, value))
    case DaysKey => st.(days := SpinValue(1, 14, st.days, value))
    case RatedKey => st.(rated := CheckValue(value))
    case DebugKey => st.(debug := CheckValue(value))
    case OtherKey => st
  }

  /** The defaults satisfy the option ranges, so every reachable configuration does. */
  lemma DefaultsValid()
    ensures ValidSettings(Defaults)
  {
  }

  /** `_handle_setoption`: the option update; a new token also drops the client and the user name. */
  function SetOptionSpec(s: BridgeState, line: String): BridgeState {
    var p := ParseSetOption(line);
    SetOptionValue(s, KeyOf(p.name), p.value)
  }

  function SetOptionValue(s: BridgeState, key: OptionKey, value: String): BridgeState {
    var st := ApplyOption(s.settings, key, value);
    if key == TokenKey then s.(settings := st, connected := false, myUsername := "")
    else s.(settings := st)
  }

  // ===========================================================================
  // connection and isready
  // ===========================================================================

  /** The reply to `account.get()`: the account id, a ResponseError, or another failure. */
  datatype AuthReply = Account(id: String) | AuthRejected | AuthFailed

  /** `_connect`: the new state and whether it succeeded. */
  function ConnectSpec(s: BridgeState, auth: AuthReply): (BridgeState, bool) {
    if s.settings.token == "" then (s, false)
    else
      match auth
      case Account(id) =>
        (s.(connected := true, myUsername := id, out := s.out + [Info(LoggedIn + id)]), true)
      case AuthRejected =>
        (s.(connected := false, out := s.out + [Info(LoginFailed)]), false)
      case AuthFailed =>
        (s.(connected := false), false)
  }

  /** `_handle_isready`: connect when a token is set and no client exists, then `readyok`. */
  function IsReadySpec(s: BridgeState, auth: AuthReply): BridgeState {
    var s1 := if s.settings.token != "" && !s.connected then ConnectSpec(s, auth).0 else s;
    s1.(out := s1.out + ["readyok"])
  }

  /** `isready` repeated once per reply. */
  function IsReadyAll(s: BridgeState, auths: seq<AuthReply>): BridgeState
    decreases |auths|
  {
    if auths == [] then s else IsReadyAll(IsReadySpec(s, auths[0]), auths[1..])
  }

  /** Before a token is set, each `isready` writes exactly one `readyok` and changes nothing else. */
  lemma {:induction false} IsReadyWithoutToken(s: BridgeState, auths: seq<AuthReply>)
    requires s.settings.token == ""
    ensures IsReadyAll(s, auths) == s.(out := s.out + seq(|auths|, _ => "readyok"))
    decreases |auths|
  {
    if auths != [] {
      var s1 := IsReadySpec(s, auths[0]);
      assert s1 == s.(out := s.out + ["readyok"]);
      IsReadyWithoutToken(s1, auths[1..]);
      assert s.out + ["readyok"] + seq(|auths| - 1, _ => "readyok") == s.out + seq(|auths|, _ => "readyok");
    } else {
      assert s.out + seq(0, _ => "readyok") == s.out;
    }
  }

  /** Every `isready` ends with one `readyok`, preceded by at most the login notice. */
  lemma IsReadyReplies(s: BridgeState, auth: AuthReply)
    ensures var r := IsReadySpec(s, auth);
      |r.out| > |s.out| && r.out[|r.out| - 1] == "readyok" && AppendsInfo(s.out, r.out[..|r.out| - 1])
  {
    var r := IsReadySpec(s, auth);
    if s.settings.token != "" && !s.connected {
      match auth
      case Account(id) => AppendsInfoOne(s.out, LoggedIn + id);
      case AuthRejected => AppendsInfoOne(s.out, LoginFailed);
      case AuthFailed =>
    }
    assert r.out[..|r.out| - 1] == IsReadySpecPrefix(s, auth);
  }

  function IsReadySpecPrefix(s: BridgeState, auth: AuthReply): seq<String> {
    if s.settings.token != "" && !s.connected then ConnectSpec(s, auth).0.out else s.out
  }

  // ===========================================================================
  // ucinewgame, position, go
  // ===========================================================================

  /** `_handle_ucinewgame`: stop both threads, reset board and game, empty the move queue. */
  function NewGameSpec(s: BridgeState): BridgeState {
    s.(stopFlag := true, streamActive := false, board := Initial, gameId := None, myColor := None, moveQueue := [])
  }

  /** The board `position` starts from: the initial one, or the FEN's when one is given and accepted. */
  function PositionStart(rules: Rules, line: String): Board {
    var low := Lower(line);
    match Find(low, "fen ")
    case None => Initial
    case Some(i) =>
      var fenEnd := match Find(low, " moves") case Some(j) => j case None => |line|;
      SetFen(rules, Strip(Slice(line, i + 4, fenEnd))).GetOr(Initial)
  }

  /** The moves `position` lists: the words after the first " moves ". */
  function PositionMoves(line: String): seq<String> {
    match Find(Lower(line), " moves ")
    case None => []
    case Some(j) => Split(From(line, j + 7))
  }

  /** `_handle_position`: reset, apply the FEN, then push the listed moves until one is rejected. */
  function PositionBoard(rules: Rules, line: String): Board {
    PushAll(rules, PositionStart(rules, line), PositionMoves(line)).board
  }

  /**
   * Whatever the previous board, `position` leaves exactly the legal prefix of
   * its move list on top of its starting board (which has no moves of its own).
   */
  lemma PositionKeepsLegalPrefix(rules: Rules, line: String)
    ensures var start, ms := PositionStart(rules, line), PositionMoves(line);
      var k := Chess.Accepted(rules, start, ms);
      && start.moves == []
      && PositionBoard(rules, line) == Board(start.setup, ms[..k])
      && (k < |ms| ==> !rules.legal(PositionBoard(rules, line), ms[k]))
  {
    var start, ms := PositionStart(rules, line), PositionMoves(line);
    ReplayKeepsLegalPrefix(rules, start, ms);
    assert [] + ms[..Chess.Accepted(rules, start, ms)] == ms[..Chess.Accepted(rules, start, ms)];
  }

  /** `_handle_go`: stop any search, then the token and connection guards; true when the search starts. */
  function GoSpec(s: BridgeState, auth: AuthReply): (BridgeState, bool) {
    var s0 := s.(stopFlag := true);
    if s.settings.token == "" then
      (s0.(out := s0.out + [Info(TokenUnset), NullMove]), false)
    else if !s.connected then
      var c := ConnectSpec(s0, auth);
      if !c.1 then (c.0.(out := c.0.out + [Info(ConnectionFailed), NullMove]), false)
      else (c.0.(stopFlag := false), true)
    else (s0.(stopFlag := false), true)
  }

  /**
   * `go` without a token answers an error notice and the null move, and
   * contacts nobody: the result does not depend on the server's reply.
   */
  lemma GoWithoutToken(s: BridgeState, a1: AuthReply, a2: AuthReply)
    requires s.settings.token == ""
    ensures GoSpec(s, a1) == GoSpec(s, a2)
    ensures GoSpec(s, a1).0 == s.(stopFlag := true, out := s.out + [Info(TokenUnset), NullMove])
    ensures !GoSpec(s, a1).1
  {
  }

  // ===========================================================================
  // game discovery and challenge
  // ===========================================================================

  /** One entry of `games.get_ongoing()`. */
  datatype OngoingGame = OngoingGame(gameId: String, color: String, opponent: String)

  function ColorOf(color: String): Side {
    if color == "white" then White else Black
  }

  predicate Against(g: OngoingGame, opponent: String) {
    Lower(g.opponent) == Lower(opponent)
  }

  /** The first game whose opponent is `opponent`, compared case-insensitively. */
  function MatchFrom(games: seq<OngoingGame>, opponent: String, k: nat): (r: Option<nat>)
    requires k <= |games|
    ensures r.Some? ==> k <= r.value < |games| && Against(games[r.value], opponent)
    ensures r.Some? ==> forall j :: k <= j < r.value ==> !Against(games[j], opponent)
    ensures r.None? ==> forall j :: k <= j < |games| ==> !Against(games[j], opponent)
    decreases |games| - k
  {
    if k == |games| then None
    else if Against(games[k], opponent) then Some(k)
    else MatchFrom(games, opponent, k + 1)
  }

  function MatchIndex(games: seq<OngoingGame>, opponent: String): Option<nat> {
    MatchFrom(games, opponent, 0)
  }

  /** `_find_existing_game`: bind the first game against the configured opponent. */
  function FindExistingSpec(s: BridgeState, ongoing: Option<seq<OngoingGame>>): (BridgeState, bool) {
    match ongoing
    case None => (s, false)
    case Some(games) =>
      match MatchIndex(games, s.settings.opponent)
      case None => (s, false)
      case Some(i) =>
        (s.(gameId := Some(games[i].gameId), myColor := Some(ColorOf(games[i].color)),
            out := s.out + [Info(ResumingGame + s.settings.opponent)]), true)
  }

  /** A discovered game is one against the configured opponent, and it is the first such game. */
  lemma FindExistingBindsFirstMatch(s: BridgeState, games: seq<OngoingGame>)
    ensures var r := FindExistingSpec(s, Some(games));
      r.1 <==> exists i :: 0 <= i < |games| && Against(games[i], s.settings.opponent)
    ensures var r := FindExistingSpec(s, Some(games));
      r.1 ==> exists i :: (&& 0 <= i < |games| && Against(games[i], s.settings.opponent)
                           && (forall j :: 0 <= j < i ==> !Against(games[j], s.settings.opponent))
                           && r.0.gameId == Some(games[i].gameId)
                           && (r.0.myColor == Some(White) <==> games[i].color == "white"))
  {
    var r := MatchIndex(games, s.settings.opponent);
    if r.Some? {
      assert Against(games[r.value], s.settings.opponent);
    }
  }

  /** The parameters of `challenges.create`. */
  datatype ChallengeParams = ChallengeParams(
    username: String, rated: bool, color: String, variant: Option<String>,
    clockLimit: Option<int>, clockIncrement: Option<int>, days: Option<int>)

  /**
   * `_create_challenge`'s parameters: the variant only when it is not
   * "standard" in any case; a clock for realtime, days for correspondence,
   * neither for unlimited.
   */
  function Params(st: Settings): (p: ChallengeParams)
    ensures p.username == st.opponent && p.rated == st.rated && p.color == st.playAs
    ensures p.variant.Some? <==> Lower(st.variant) != "standard"
    ensures p.variant.Some? ==> p.variant.value == st.variant
    ensures p.clockLimit.Some? <==> st.timeMode == "realtime"
    ensures p.clockIncrement.Some? <==> st.timeMode == "realtime"
    ensures p.clockLimit.Some? ==> p.clockLimit.value == st.minutes * 60 && p.clockIncrement.value == st.increment
    ensures p.days.Some? <==> st.timeMode == "correspondence"
    ensures p.days.Some? ==> p.days.value == st.days
  {
    var clock := st.timeMode == "realtime";
    ChallengeParams(
      st.opponent, st.rated, st.playAs,
      if Lower(st.variant) != "standard" then Some(st.variant) else None,
      if clock then Some(st.minutes * 60) else None,
      if clock then Some(st.increment) else None,
      if st.timeMode == "correspondence" then Some(st.days) else None)
  }

  /** `time_desc`: "M+I", "D days" or "unlimited". */
  function TimeDesc(st: Settings): String {
    if st.timeMode == "realtime" then IntToString(st.minutes) + "+" + IntToString(st.increment)
    else if st.timeMode == "correspondence" then IntToString(st.days) + " days"
    else "unlimited"
  }

  lemma NoPlusInDigits(n: nat)
    ensures forall i :: 0 <= i < |NatToString(n)| ==> NatToString(n)[i] != '+'
  {
    NatToStringDigits(n);
  }

  /** A realtime description reads back as the minutes and the increment. */
  lemma TimeDescReadsBack(st: Settings)
    requires st.timeMode == "realtime" && st.minutes >= 0
    ensures var parts := SplitOnce(TimeDesc(st), "+");
      |parts| == 2 && ParseInt(parts[0]) == Some(st.minutes) && ParseInt(parts[1]) == Some(st.increment)
  {
    var m := IntToString(st.minutes);
    var d := TimeDesc(st);
    NoPlusInDigits(st.minutes);
    assert OccursAt(d, "+", |m|);
    forall j | 0 <= j < |m|
      ensures !OccursAt(d, "+", j)
    {
      assert d[j] == m[j];
    }
    FindFirst(d, "+", |m|);
    assert d[..|m|] == m;
    assert d[|m| + 1..] == IntToString(st.increment);
    ParseIntRoundTrip(st.minutes);
    ParseIntRoundTrip(st.increment);
  }

  /** What `challenges.create` answered: an immediate game, a pending challenge, a ResponseError, or another failure. */
  datatype ChallengeReply = GameStarted(id: Option<String>, color: Option<String>) | Created | Refused(error: String) | Failed

  predicate Stopped(stopAt: Option<nat>, i: nat) {
    stopAt.Some? && stopAt.value <= i
  }

  /** The reply of poll `i`, a failing call once the given replies run out. */
  function PollAt(polls: seq<Option<seq<OngoingGame>>>, i: nat): Option<seq<OngoingGame>> {
    if i < |polls| then polls[i] else None
  }

  /** `_poll_for_game_start` from poll `i` on: stop flag, then the first game against the opponent. */
  function PollSpec(s: BridgeState, polls: seq<Option<seq<OngoingGame>>>, stopAt: Option<nat>, i: nat): (BridgeState, bool)
    decreases ChallengePolls - i
  {
    if i >= ChallengePolls then
      (s.(out := s.out + [Info(ChallengeTimedOut),
                          Info("Check " + s.settings.opponent + ProfileHint)]), false)
    else if Stopped(stopAt, i) then (s, false)
    else
      var reply := PollAt(polls, i);
      if reply.Some? && MatchIndex(reply.value, s.settings.opponent).Some? then
        var g := reply.value[MatchIndex(reply.value, s.settings.opponent).value];
        (s.(gameId := Some(g.gameId), myColor := Some(ColorOf(g.color)), out := s.out + [Info(PlayingAs + g.color)]), true)
      else PollSpec(s, polls, stopAt, i + 1)
  }

  /** `_create_challenge`: announce, send the parameters, then bind, poll or give up. */
  function ChallengeSpec(s: BridgeState, reply: ChallengeReply, polls: seq<Option<seq<OngoingGame>>>, stopAt: Option<nat>): (BridgeState, bool) {
    var st := s.settings;
    var s1 := s.(out := s.out + [Info(Challenging + st.opponent + " (" + TimeDesc(st) + ")...")]);
    match reply
    case GameStarted(id, color) =>
      (s1.(gameId := id, myColor := if color.Some? then Some(ColorOf(color.value)) else s1.myColor,
           out := s1.out + [Info(StartedGame)]), true)
    case Created => PollSpec(s1.(out := s1.out + [Info(WaitingForBot)]), polls, stopAt, 0)
    case Refused(e) => (s1.(out := s1.out + [Info(ChallengeRefused + e)]), false)
    case Failed => (s1, false)
  }

  // ===========================================================================
  // the stream thread
  // ===========================================================================

  /** One event of `board.stream_game_state`: its type, status (absent means started), moves, white id and winner. */
  datatype StreamEvent = StreamEvent(kind: String, status: Option<String>, moves: String, whiteId: String, winner: String)

  /** How the stream ended after its events: closed, or raising with an error text. */
  datatype StreamEnd = Closed | Broken(error: String)

  /** The messages a stream run enqueues and the colour it leaves. */
  datatype StreamOut = StreamOut(msgs: seq<Msg>, color: Option<Side>)

  predicate Terminal(status: String) {
    status != "created" && status != "started"
  }

  /** What the stream does with one event: go on with some messages, the new count and colour, or finish with one. */
  datatype Step = Continue(msgs: seq<Msg>, last: nat, color: Option<Side>) | Finish(msg: Msg)

  /**
   * One event of `_stream_worker`, with `last` the running `last_move_count`
   * and `color` the current `my_color`: the full state sets the colour and
   * the count and enqueues its last move; a state update past the count
   * enqueues its last move, a terminal status ends the stream; other
   * events are ignored.
   */
  function EventStep(e: StreamEvent, username: String, last: nat, color: Option<Side>): Step {
    if e.kind == "gameFull" then
      var ms := Split(e.moves);
      var c := if Lower(e.whiteId) == Lower(username) then White else Black;
      Continue(if |ms| > 0 then [MoveMsg(ms[|ms| - 1], |ms|)] else [], |ms|, Some(c))
    else if e.kind == "gameState" then
      var status := e.status.GetOr("started");
      if Terminal(status) then Finish(GameOverMsg(status, e.winner))
      else
        var ms := Split(e.moves);
        if |ms| > last then Continue([MoveMsg(ms[|ms| - 1], |ms|)], |ms|, color) else Continue([], last, color)
    else Continue([], last, color)
  }

  /** A step enqueues at most one message, a move message carrying the new count; only the full state changes the colour or lowers the count. */
  lemma EventStepEnqueuesOneMove(e: StreamEvent, username: String, last: nat, color: Option<Side>)
    ensures var st := EventStep(e, username, last, color);
      st.Continue? ==>
        && |st.msgs| <= 1
        && (forall a :: 0 <= a < |st.msgs| ==> st.msgs[a].MoveMsg? && st.msgs[a].count == st.last)
        && (e.kind != "gameFull" ==> st.color == color && (st.msgs == [] ==> st.last == last) && (st.msgs != [] ==> st.last > last))
        && (e.kind == "gameFull" ==> st.color == Some(if Lower(e.whiteId) == Lower(username) then White else Black))
  {
  }

  /** The stream's run over the events, from `last_move_count` = `last` and colour `color`. */
  function StreamRun(events: seq<StreamEvent>, username: String, active: bool, last: nat,
                     color: Option<Side>, end: StreamEnd): StreamOut
    decreases |events|
  {
    if events == [] then StreamOut(if end.Broken? then [ErrorMsg(end.error)] else [], color)
    else if !active then StreamOut([], color)
    else
      match EventStep(events[0], username, last, color)
      case Finish(m) => StreamOut([m], color)
      case Continue(ms, l, c) =>
        var rest := StreamRun(events[1..], username, active, l, c, end);
        StreamOut(ms + rest.msgs, rest.color)
  }

  /** `_stream_worker`: nothing without a game id, otherwise the run from `last_move_count = 0`. */
  function StreamSpec(s: BridgeState, events: seq<StreamEvent>, end: StreamEnd): BridgeState {
    if !Bound(s.gameId) then s
    else
      var r := StreamRun(events, s.myUsername, s.streamActive, 0, s.myColor, end);
      s.(moveQueue := s.moveQueue + r.msgs, myColor := r.color)
  }

  /** An active stream's run from event `i`, when that event does not finish it: the step's messages, then the run from `i + 1`. */
  lemma StreamRunAt(events: seq<StreamEvent>, i: nat, username: String, last: nat, color: Option<Side>, end: StreamEnd, q: seq<Msg>)
    requires i < |events|
    requires EventStep(events[i], username, last, color).Continue?
    ensures var st := EventStep(events[i], username, last, color);
      var rest := StreamRun(events[i + 1..], username, true, st.last, st.color, end);
      && StreamRun(events[i..], username, true, last, color, end).msgs == st.msgs + rest.msgs
      && StreamRun(events[i..], username, true, last, color, end).color == rest.color
      && q + StreamRun(events[i..], username, true, last, color, end).msgs == (q + st.msgs) + rest.msgs
  {
    assert events[i..][0] == events[i] && events[i..][1..] == events[i + 1..];
    var st := EventStep(events[i], username, last, color);
    ConcatAssoc(q, st.msgs, StreamRun(events[i + 1..], username, true, st.last, st.color, end).msgs);
  }

  predicate NoGameFull(events: seq<StreamEvent>) {
    forall j :: 0 <= j < |events| ==> events[j].kind != "gameFull"
  }

  /** Every move message counts more than `n` moves. */
  predicate Above(q: seq<Msg>, n: nat) {
    forall a :: 0 <= a < |q| && q[a].MoveMsg? ==> q[a].count > n
  }

  /** Move messages in strictly increasing move count: no move is enqueued twice. */
  predicate Increasing(q: seq<Msg>) {
    forall a, b :: 0 <= a < b < |q| && q[a].MoveMsg? && q[b].MoveMsg? ==> q[a].count < q[b].count
  }

  /** Messages other than moves come last. */
  predicate MovesFirst(q: seq<Msg>) {
    forall a :: 0 <= a < |q| && !q[a].MoveMsg? ==> a == |q| - 1
  }

  lemma PrependMove(ms: seq<Msg>, rest: seq<Msg>, l: nat, last: nat)
    requires |ms| <= 1 && forall a :: 0 <= a < |ms| ==> ms[a].MoveMsg? && ms[a].count == l
    requires ms != [] ==> l > last
    requires ms == [] ==> l == last
    requires Above(rest, l) && Increasing(rest) && MovesFirst(rest)
    ensures Above(ms + rest, last) && Increasing(ms + rest) && MovesFirst(ms + rest)
  {
    var q := ms + rest;
    if ms != [] {
      assert q[0] == ms[0];
      forall a | 1 <= a < |q|
        ensures q[a] == rest[a - 1]
      {
      }
    } else {
      assert q == rest;
    }
  }

  lemma {:induction false} StreamUpdatesIncrease(events: seq<StreamEvent>, username: String, active: bool,
                                               last: nat, color: Option<Side>, end: StreamEnd)
    requires NoGameFull(events)
    ensures var r := StreamRun(events, username, active, last, color, end);
      Above(r.msgs, last) && Increasing(r.msgs) && MovesFirst(r.msgs) && r.color == color
    decreases |events|
  {
    if events != [] && active {
      var st := EventStep(events[0], username, last, color);
      EventStepEnqueuesOneMove(events[0], username, last, color);
      assert events[0].kind != "gameFull";
      if st.Continue? {
        assert NoGameFull(events[1..]) by {
          forall j | 0 <= j < |events[1..]|
            ensures events[1..][j].kind != "gameFull"
          {
            assert events[1..][j] == events[j + 1];
          }
        }
        var rest := StreamRun(events[1..], username, active, st.last, st.color, end);
        StreamUpdatesIncrease(events[1..], username, active, st.last, st.color, end);
        PrependMove(st.msgs, rest.msgs, st.last, last);
      }
    }
  }

  /**
   * Duplicate safety: when only the first event may be the full state, the
   * stream enqueues moves in strictly increasing move count and anything
   * else only last, and the colour it leaves is the one the full state
   * confirmed (white exactly when the white player's id is the user name,
   * ignoring case).
   */
  lemma StreamMovesIncrease(events: seq<StreamEvent>, username: String, color: Option<Side>, end: StreamEnd)
    requires events != [] && NoGameFull(events[1..])
    ensures var r := StreamRun(events, username, true, 0, color, end);
      && Increasing(r.msgs) && MovesFirst(r.msgs)
      && (events[0].kind == "gameFull" ==>
            r.color == Some(if Lower(events[0].whiteId) == Lower(username) then White else Black))
  {
    var st := EventStep(events[0], username, 0, color);
    EventStepEnqueuesOneMove(events[0], username, 0, color);
    if st.Continue? {
      var rest := StreamRun(events[1..], username, true, st.last, st.color, end);
      StreamUpdatesIncrease(events[1..], username, true, st.last, st.color, end);
      if st.msgs != [] {
        assert st.last > 0;
      }
      PrependMove(st.msgs, rest.msgs, st.last, if st.msgs == [] then st.last else 0);
    }
  }

  /** A game-over or error message is the last thing a stream enqueues. */
  lemma {:induction false} StreamEndsLast(events: seq<StreamEvent>, username: String, active: bool,
                                        last: nat, color: Option<Side>, end: StreamEnd)
    ensures MovesFirst(StreamRun(events, username, active, last, color, end).msgs)
    decreases |events|
  {
    if events != [] && active {
      var st := EventStep(events[0], username, last, color);
      EventStepEnqueuesOneMove(events[0], username, last, color);
      if st.Continue? {
        var q := StreamRun(events, username, active, last, color, end).msgs;
        var rest := StreamRun(events[1..], username, active, st.last, st.color, end).msgs;
        StreamEndsLast(events[1..], username, active, st.last, st.color, end);
        assert q == st.msgs + rest;
        forall a | 0 <= a < |q| && !q[a].MoveMsg?
          ensures a == |q| - 1
        {
          assert a >= |st.msgs|;
          assert q[a] == rest[a - |st.msgs|];
        }
      }
    }
  }

  /** Move messages name a move: their UCI text is not empty. */
  predicate Named(q: seq<Msg>) {
    forall a :: 0 <= a < |q| && q[a].MoveMsg? ==> q[a].uci != []
  }

  lemma NamedConcat(p: seq<Msg>, q: seq<Msg>)
    requires Named(p) && Named(q)
    ensures Named(p + q)
  {
    forall a | 0 <= a < |p + q| && (p + q)[a].MoveMsg?
      ensures (p + q)[a].uci != []
    {
      if a < |p| {
        assert (p + q)[a] == p[a];
      } else {
        assert (p + q)[a] == q[a - |p|];
      }
    }
  }

  lemma NamedSuffix(q: seq<Msg>, k: nat)
    requires Named(q) && k <= |q|
    ensures Named(q[k..])
  {
    forall a | 0 <= a < |q[k..]| && q[k..][a].MoveMsg?
      ensures q[k..][a].uci != []
    {
      assert q[k..][a] == q[k + a];
    }
  }

  /** Every move the stream enqueues is a word of the server's move list, so never the empty text. */
  lemma {:induction false} StreamMovesNamed(events: seq<StreamEvent>, username: String, active: bool,
                                          last: nat, color: Option<Side>, end: StreamEnd)
    ensures Named(StreamRun(events, username, active, last, color, end).msgs)
    decreases |events|
  {
    if events != [] && active {
      var st := EventStep(events[0], username, last, color);
      if st.Continue? {
        StreamMovesNamed(events[1..], username, active, st.last, st.color, end);
        NamedConcat(st.msgs, StreamRun(events[1..], username, active, st.last, st.color, end).msgs);
      }
    }
  }

  /**
   * Duplicate safety for repeated events: an event other than the full state
   * delivered twice in a row enqueues exactly what it enqueues once, and the
   * stream ends in the same colour.
   */
  lemma {:induction false} RepeatedEventIgnored(events: seq<StreamEvent>, i: nat, username: String, active: bool,
                                              last: nat, color: Option<Side>, end: StreamEnd)
    requires i < |events| && events[i].kind != "gameFull"
    ensures StreamRun(events[..i + 1] + events[i..], username, active, last, color, end)
         == StreamRun(events, username, active, last, color, end)
    decreases i
  {
    var dup := events[..i + 1] + events[i..];
    assert dup[0] == events[0];
    var st := EventStep(events[0], username, last, color);
    if !active {
    } else if i == 0 {
      assert dup[1..] == events;
      if st.Continue? {
        assert EventStep(events[0], username, st.last, st.color) == Continue([], st.last, st.color);
      }
    } else {
      assert dup[1..] == events[1..][..i] + events[1..][i - 1..];
      if st.Continue? {
        RepeatedEventIgnored(events[1..], i - 1, username, active, st.last, st.color, end);
      }
    }
  }

  // ===========================================================================
  // the search thread: _play, _send_move, _wait_for_move
  // ===========================================================================

  /** What `board.make_move` answered: accepted, a ResponseError, or another failure. */
  datatype SendReply = MoveAccepted | MoveRejected(error: String) | SendFailed

  /** `_send_move`: nothing without a game; a rejection is announced. */
  function SendMoveSpec(s: BridgeState, reply: SendReply): (BridgeState, bool) {
    if !Bound(s.gameId) then (s, false)
    else
      match reply
      case MoveAccepted => (s, true)
      case MoveRejected(e) => (s.(out := s.out + [Info(RejectedMove + e)]), false)
      case SendFailed => (s, false)
  }

  /**
   * `_play` step 4: the human's move is sent when the bridge does not hold
   * the move locally (`my_color` unset counts as not holding it) and there is
   * a move to send: the last move on the board, unless it is the null move,
   * which is false as a condition.
   */
  function HumanMove(b: Board, myColor: Option<Side>): (r: Option<String>)
    ensures r.Some? <==> myColor != Some(Turn(b)) && b.moves != [] && b.moves[|b.moves| - 1] != NullUci
    ensures r.Some? ==> r.value == b.moves[|b.moves| - 1]
    ensures myColor == None && LastMove(b) != Some(NullUci) ==> r == LastMove(b)
  {
    if myColor != Some(Turn(b)) && LastMove(b) != Some(NullUci) then LastMove(b) else None
  }

  /** How a wait ends: with a move, the game over, a stream error, the stop flag, or the timeout. */
  datatype WaitEnd = Answered(uci: String) | GameEnded(status: String) | StreamError | Halted | TimedOut

  /** What is left on the queue when the wait ends, and how it ended. */
  datatype WaitOut = WaitOut(rest: seq<Msg>, end: WaitEnd)

  /**
   * `_wait_for_move`'s loop from poll `i` of `budget` (MOVE_TIMEOUT as a number
   * of queue polls) on the queue `q`: the stop flag first, then the next queued
   * message; a move counting at most `expected` is stale and skipped.
   */
  function WaitRun(q: seq<Msg>, expected: nat, budget: nat, stopAt: Option<nat>, i: nat): WaitOut
    decreases budget - i
  {
    if i >= budget then WaitOut(q, TimedOut)
    else if Stopped(stopAt, i) then WaitOut(q, Halted)
    else if q == [] then WaitRun(q, expected, budget, stopAt, i + 1)
    else
      match q[0]
      case MoveMsg(uci, count) =>
        if count > expected then WaitOut(q[1..], Answered(uci)) else WaitRun(q[1..], expected, budget, stopAt, i + 1)
      case GameOverMsg(status, _) => WaitOut(q[1..], GameEnded(status))
      case ErrorMsg(_) => WaitOut(q[1..], StreamError)
  }

  /** `_wait_for_move`: the wait, its notices, and the game id dropped on game over. */
  function WaitSpec(s: BridgeState, expected: nat, budget: nat, stopAt: Option<nat>): (BridgeState, Option<String>) {
    var w := WaitRun(s.moveQueue, expected, budget, stopAt, 0);
    var s1 := s.(moveQueue := w.rest);
    match w.end
    case Answered(m) => (s1, Some(m))
    case GameEnded(status) => (s1.(out := s1.out + [Info(GameOverText + status)], gameId := None), None)
    case TimedOut => (s1.(out := s1.out + [Info(OpponentTimedOut)]), None)
    case _ => (s1, None)
  }

  /** A move message that is not newer than `expected` moves. */
  predicate Stale(m: Msg, expected: nat) {
    m.MoveMsg? && m.count <= expected
  }

  /**
   * The wait consumes a prefix of the queue: every message it skipped was a
   * stale move, and the last one it took is what it ended on; a move comes
   * out only from a move message counting more than `expected`.
   */
  lemma {:induction false} WaitConsumesPrefix(q: seq<Msg>, expected: nat, budget: nat, stopAt: Option<nat>, i: nat)
    ensures var r := WaitRun(q, expected, budget, stopAt, i);
      var k := |q| - |r.rest|;
      && |r.rest| <= |q| && r.rest == q[k..]
      && (forall j :: 0 <= j < k - 1 ==> Stale(q[j], expected))
      && ((r.end.Halted? || r.end.TimedOut?) && k > 0 ==> Stale(q[k - 1], expected))
      && (r.end.Answered? ==> k > 0 && q[k - 1].MoveMsg? && q[k - 1].uci == r.end.uci && q[k - 1].count > expected)
      && (r.end.GameEnded? ==> k > 0 && q[k - 1].GameOverMsg? && q[k - 1].status == r.end.status)
      && (r.end.StreamError? ==> k > 0 && q[k - 1].ErrorMsg?)
    decreases budget - i
  {
    if i < budget && !Stopped(stopAt, i) {
      if q == [] {
        WaitConsumesPrefix(q, expected, budget, stopAt, i + 1);
      } else if Stale(q[0], expected) {
        var r := WaitRun(q[1..], expected, budget, stopAt, i + 1);
        WaitConsumesPrefix(q[1..], expected, budget, stopAt, i + 1);
        var k := |q| - |r.rest|;
        assert q[1..][k - 1..] == q[k..];
        forall j | 0 <= j < k - 1
          ensures Stale(q[j], expected)
        {
          if j > 0 {
            assert q[j] == q[1..][j - 1];
          }
        }
        if k > 1 {
          assert q[k - 1] == q[1..][k - 2];
        }
      }
    } else {
      assert q[0..] == q;
    }
  }

  /**
   * The wait writes only informational lines and changes nothing but the queue,
   * the output and, on game over only, the game id, which it then drops.
   */
  lemma WaitTouchesLittle(s: BridgeState, expected: nat, budget: nat, stopAt: Option<nat>)
    ensures var (r, m) := WaitSpec(s, expected, budget, stopAt);
      && r == s.(moveQueue := r.moveQueue, out := r.out, gameId := r.gameId)
      && AppendsInfo(s.out, r.out)
      && (r.gameId != s.gameId ==> r.gameId == None)
      && (m.Some? <==> WaitRun(s.moveQueue, expected, budget, stopAt, 0).end.Answered?)
  {
    var w := WaitRun(s.moveQueue, expected, budget, stopAt, 0);
    match w.end
    case GameEnded(status) => AppendsInfoOne(s.out, GameOverText + status);
    case TimedOut => AppendsInfoOne(s.out, OpponentTimedOut);
    case _ => assert s.out[..|s.out|] == s.out;
  }

  /**
   * Stale moves only cost polls: a run of them in front of the queue is
   * skipped, one poll each, when neither the stop flag nor the timeout comes
   * first, and the wait then goes on as if they had never been queued.
   */
  lemma {:induction false} StaleMovesSkipped(p: seq<Msg>, q: seq<Msg>, expected: nat, budget: nat,
                                           stopAt: Option<nat>, i: nat)
    requires forall j :: 0 <= j < |p| ==> Stale(p[j], expected)
    requires i + |p| <= budget && (stopAt.None? || stopAt.value >= i + |p|)
    ensures WaitRun(p + q, expected, budget, stopAt, i) == WaitRun(q, expected, budget, stopAt, i + |p|)
    decreases |p|
  {
    if p == [] {
      assert p + q == q;
    } else {
      assert (p + q)[0] == p[0] && (p + q)[1..] == p[1..] + q;
      assert forall j :: 0 <= j < |p[1..]| ==> p[1..][j] == p[j + 1];
      StaleMovesSkipped(p[1..], q, expected, budget, stopAt, i + 1);
    }
  }

  /**
   * The wait answers the first fresh move: when only stale moves come before
   * the first move message counting more than `expected`, and the wait
   * reaches it before the stop flag or the timeout, that move is the answer
   * and the messages after it stay queued.
   */
  lemma WaitAnswersFirstFresh(q: seq<Msg>, expected: nat, budget: nat, stopAt: Option<nat>, k: nat)
    requires k < |q| && q[k].MoveMsg? && q[k].count > expected
    requires forall j :: 0 <= j < k ==> Stale(q[j], expected)
    requires k < budget && (stopAt.None? || stopAt.value > k)
    ensures WaitRun(q, expected, budget, stopAt, 0) == WaitOut(q[k + 1..], Answered(q[k].uci))
  {
    assert q == q[..k] + q[k..];
    StaleMovesSkipped(q[..k], q[k..], expected, budget, stopAt, 0);
    assert q[k..][0] == q[k] && q[k..][1..] == q[k + 1..];
  }

  /** The remote data one search sees, in the order `_play` consults it. */
  datatype PlayEnv = PlayEnv(
    ongoing: Option<seq<OngoingGame>>, challenge: ChallengeReply, polls: seq<Option<seq<OngoingGame>>>,
    pollStop: Option<nat>, events: seq<StreamEvent>, streamEnd: StreamEnd,
    send: SendReply, waitBudget: nat, waitStop: Option<nat>)

  /** `_play` step 1: the bound game, else a discovered one, else a challenged one. */
  function EnsureGameSpec(s: BridgeState, env: PlayEnv): (BridgeState, bool) {
    if Bound(s.gameId) then (s, true)
    else
      var f := FindExistingSpec(s, env.ongoing);
      if f.1 then f else ChallengeSpec(f.0, env.challenge, env.polls, env.pollStop)
  }

  /**
   * `_play` step 2: the stream is marked active and its thread runs over the
   * events it is sent; they all reach the queue before step 3 looks at the
   * colour, as the half-second pause after starting the thread intends.
   */
  function StartStreamSpec(s: BridgeState, env: PlayEnv): BridgeState {
    StreamSpec(s.(streamActive := true), env.events, env.streamEnd)
  }

  /** `_play` steps 2 to 4: start the stream, then send the human's move when it is due. */
  function SendStepSpec(s: BridgeState, env: PlayEnv): BridgeState {
    var s2 := StartStreamSpec(s, env);
    if HumanMove(s2.board, s2.myColor).Some? then
      SendMoveSpec(s2.(out := s2.out + [Info(SendingMove)]), env.send).0
    else s2
  }

  /** `_play` steps 5 and 6: wait for a move counting more than the local moves, then answer it. */
  function AnswerSpec(s: BridgeState, env: PlayEnv, rules: Rules): BridgeState {
    var s4 := s.(out := s.out + [Info(WaitingFor + s.settings.opponent + "...")]);
    var w := WaitSpec(s4, |s.board.moves|, env.waitBudget, env.waitStop);
    var s5 := w.0;
    if w.1.Some? && w.1.value != "" then
      var s6 := if rules.legal(s5.board, w.1.value) then s5.(board := Push(s5.board, w.1.value)) else s5;
      s6.(out := s6.out + ["bestmove " + w.1.value])
    else s5.(out := s5.out + [NullMove])
  }

  /** `_play`: the whole search. */
  function PlaySpec(s: BridgeState, env: PlayEnv, rules: Rules): BridgeState {
    var g := EnsureGameSpec(s, env);
    if !g.1 then g.0.(out := g.0.out + [NullMove])
    else AnswerSpec(SendStepSpec(g.0, env), env, rules)
  }

  lemma PollAppendsInfo(s: BridgeState, polls: seq<Option<seq<OngoingGame>>>, stopAt: Option<nat>, i: nat)
    ensures AppendsInfo(s.out, PollSpec(s, polls, stopAt, i).0.out)
    decreases ChallengePolls - i
  {
    if i >= ChallengePolls {
      var a := s.out + [Info(ChallengeTimedOut)];
      AppendsInfoOne(s.out, ChallengeTimedOut);
      AppendsInfoOne(a, "Check " + s.settings.opponent + ProfileHint);
      AppendsInfoTrans(s.out, a, PollSpec(s, polls, stopAt, i).0.out);
    } else if !Stopped(stopAt, i) {
      var reply := PollAt(polls, i);
      if reply.Some? && MatchIndex(reply.value, s.settings.opponent).Some? {
        var g := reply.value[MatchIndex(reply.value, s.settings.opponent).value];
        AppendsInfoOne(s.out, PlayingAs + g.color);
      } else {
        PollAppendsInfo(s, polls, stopAt, i + 1);
      }
    }
  }

  lemma EnsureGameAppendsInfo(s: BridgeState, env: PlayEnv)
    ensures AppendsInfo(s.out, EnsureGameSpec(s, env).0.out)
  {
    if !Bound(s.gameId) {
      var f := FindExistingSpec(s, env.ongoing);
      if f.1 {
        AppendsInfoOne(s.out, ResumingGame + s.settings.opponent);
      } else {
        var st := s.settings;
        var a := s.out + [Info(Challenging + st.opponent + " (" + TimeDesc(st) + ")...")];
        AppendsInfoOne(s.out, Challenging + st.opponent + " (" + TimeDesc(st) + ")...");
        var s1 := s.(out := a);
        match env.challenge
        case GameStarted(_, _) =>
          AppendsInfoOne(a, StartedGame);
          AppendsInfoTrans(s.out, a, EnsureGameSpec(s, env).0.out);
        case Created =>
          var b := a + [Info(WaitingForBot)];
          AppendsInfoOne(a, WaitingForBot);
          PollAppendsInfo(s1.(out := b), env.polls, env.pollStop, 0);
          AppendsInfoTrans(s.out, a, b);
          AppendsInfoTrans(s.out, b, EnsureGameSpec(s, env).0.out);
        case Refused(e) =>
          AppendsInfoOne(a, ChallengeRefused + e);
          AppendsInfoTrans(s.out, a, EnsureGameSpec(s, env).0.out);
        case Failed =>
      }
    } else {
      assert s.out[..|s.out|] == s.out;
    }
  }

  lemma SendStepAppendsInfo(s: BridgeState, env: PlayEnv)
    ensures AppendsInfo(s.out, SendStepSpec(s, env).out)
  {
    var s2 := StartStreamSpec(s, env);
    if HumanMove(s2.board, s2.myColor).Some? {
      var a := s.out + [Info(SendingMove)];
      AppendsInfoOne(s.out, SendingMove);
      if Bound(s.gameId) && env.send.MoveRejected? {
        AppendsInfoOne(a, RejectedMove + env.send.error);
        AppendsInfoTrans(s.out, a, SendStepSpec(s, env).out);
      }
    } else {
      assert s.out[..|s.out|] == s.out;
    }
  }

  /**
   * Every search ends with exactly one `bestmove` line: what it writes is
   * informational lines followed by one `bestmove`, and a move other than the
   * null move is one the wait accepted.
   */
  lemma PlayEndsWithOneBestmove(s: BridgeState, env: PlayEnv, rules: Rules)
    ensures var r := PlaySpec(s, env, rules);
      |r.out| > |s.out| && AppendsInfo(s.out, r.out[..|r.out| - 1])
      && StartsWith(r.out[|r.out| - 1], "bestmove ")
  {
    var r := PlaySpec(s, env, rules);
    var g := EnsureGameSpec(s, env);
    EnsureGameAppendsInfo(s, env);
    if !g.1 {
      assert r.out[..|r.out| - 1] == g.0.out;
      assert r.out[|r.out| - 1][..9] == "bestmove ";
    } else {
      var s3 := SendStepSpec(g.0, env);
      SendStepAppendsInfo(g.0, env);
      AnswerEndsWithBestmove(s3, env, rules);
      AppendsInfoTrans(s.out, g.0.out, s3.out);
      AppendsInfoTrans(s.out, s3.out, r.out[..|r.out| - 1]);
    }
  }

  /** The answer after the wait: informational lines, then one `bestmove`. */
  lemma AnswerEndsWithBestmove(s: BridgeState, env: PlayEnv, rules: Rules)
    ensures var r := AnswerSpec(s, env, rules);
      |r.out| > |s.out| && AppendsInfo(s.out, r.out[..|r.out| - 1])
      && StartsWith(r.out[|r.out| - 1], "bestmove ")
  {
    var r := AnswerSpec(s, env, rules);
    var s4 := s.(out := s.out + [Info(WaitingFor + s.settings.opponent + "...")]);
    AppendsInfoOne(s.out, WaitingFor + s.settings.opponent + "...");
    var w := WaitSpec(s4, |s.board.moves|, env.waitBudget, env.waitStop);
    WaitTouchesLittle(s4, |s.board.moves|, env.waitBudget, env.waitStop);
    assert r.out[..|r.out| - 1] == w.0.out;
    AppendsInfoTrans(s.out, s4.out, w.0.out);
    if w.1.Some? && w.1.value != "" {
      assert r.out[|r.out| - 1] == "bestmove " + w.1.value;
      assert r.out[|r.out| - 1][..9] == "bestmove ";
    } else {
      assert r.out[|r.out| - 1][..9] == "bestmove ";
    }
  }

  /** The search's queue after the stream: the old one followed by what the stream enqueued. */
  lemma SendStepQueue(s: BridgeState, env: PlayEnv)
    ensures var q := SendStepSpec(s, env).moveQueue;
      && q == s.moveQueue + (if Bound(s.gameId)
                             then StreamRun(env.events, s.myUsername, true, 0, s.myColor, env.streamEnd).msgs
                             else [])
      && (Named(s.moveQueue) ==> Named(q))
  {
    var r := StreamRun(env.events, s.myUsername, true, 0, s.myColor, env.streamEnd);
    StreamMovesNamed(env.events, s.myUsername, true, 0, s.myColor, env.streamEnd);
    if !Bound(s.gameId) {
      assert s.moveQueue + [] == s.moveQueue;
    } else if Named(s.moveQueue) {
      NamedConcat(s.moveQueue, r.msgs);
    }
  }

  /**
   * A search on a bound game relays the opponent's move: when the queue after
   * the stream holds a move counting more than the local moves, preceded only
   * by stale moves, and the wait reaches it before the stop flag or the
   * timeout, the search pushes that move when it is legal, answers
   * `bestmove` with it, keeps the game, and leaves the later messages queued.
   */
  lemma PlayRelaysFreshMove(s: BridgeState, env: PlayEnv, rules: Rules, k: nat)
    requires Bound(s.gameId) && Named(s.moveQueue)
    requires var q := SendStepSpec(s, env).moveQueue;
      && k < |q| && q[k].MoveMsg? && q[k].count > |s.board.moves|
      && (forall j :: 0 <= j < k ==> Stale(q[j], |s.board.moves|))
    requires k < env.waitBudget && (env.waitStop.None? || env.waitStop.value > k)
    ensures var q := SendStepSpec(s, env).moveQueue;
      var m := q[k].uci;
      var r := PlaySpec(s, env, rules);
      && |r.out| > 0 && r.out[|r.out| - 1] == "bestmove " + m
      && r.board == (if rules.legal(s.board, m) then Push(s.board, m) else s.board)
      && r.moveQueue == q[k + 1..]
      && r.gameId == s.gameId
  {
    var s3 := SendStepSpec(s, env);
    SendStepQueue(s, env);
    assert EnsureGameSpec(s, env) == (s, true);
    assert s3.board == s.board && s3.gameId == s.gameId;
    AnswerRelaysFreshMove(s3, env, rules, k);
  }

  /** The answer step of `PlayRelaysFreshMove`, on the queue the wait starts from. */
  lemma AnswerRelaysFreshMove(s: BridgeState, env: PlayEnv, rules: Rules, k: nat)
    requires var q := s.moveQueue;
      && k < |q| && q[k].MoveMsg? && q[k].count > |s.board.moves| && q[k].uci != []
      && (forall j :: 0 <= j < k ==> Stale(q[j], |s.board.moves|))
    requires k < env.waitBudget && (env.waitStop.None? || env.waitStop.value > k)
    ensures var m := s.moveQueue[k].uci;
      var r := AnswerSpec(s, env, rules);
      && |r.out| > 0 && r.out[|r.out| - 1] == "bestmove " + m
      && r.board == (if rules.legal(s.board, m) then Push(s.board, m) else s.board)
      && r.moveQueue == s.moveQueue[k + 1..]
      && r.gameId == s.gameId
  {
    WaitAnswersFirstFresh(s.moveQueue, |s.board.moves|, env.waitBudget, env.waitStop, k);
  }

  lemma PlayKeepsNamed(s: BridgeState, env: PlayEnv, rules: Rules)
    requires Named(s.moveQueue)
    ensures Named(PlaySpec(s, env, rules).moveQueue)
  {
    var g := EnsureGameSpec(s, env);
    EnsureGameKeepsSettings(s, env);
    if g.1 {
      var s3 := SendStepSpec(g.0, env);
      SendStepQueue(g.0, env);
      AnswerKeepsNamed(s3, env, rules);
    }
  }

  /** The wait takes messages off the front of the queue and adds none. */
  lemma AnswerKeepsNamed(s: BridgeState, env: PlayEnv, rules: Rules)
    requires Named(s.moveQueue)
    ensures Named(AnswerSpec(s, env, rules).moveQueue)
  {
    var s4 := s.(out := s.out + [Info(WaitingFor + s.settings.opponent + "...")]);
    var w := WaitRun(s.moveQueue, |s.board.moves|, env.waitBudget, env.waitStop, 0);
    assert WaitSpec(s4, |s.board.moves|, env.waitBudget, env.waitStop).0.moveQueue == w.rest;
    assert AnswerSpec(s, env, rules).moveQueue == w.rest;
    WaitConsumesPrefix(s.moveQueue, |s.board.moves|, env.waitBudget, env.waitStop, 0);
    NamedSuffix(s.moveQueue, |s.moveQueue| - |w.rest|);
  }

  // ===========================================================================
  // run: one line after another
  // ===========================================================================

  /** The remote data one input line may consult: the login reply, and the search's. */
  datatype LineEnv = LineEnv(auth: AuthReply, play: PlayEnv)

  /** The remote data of line `k`; past the given ones, every call fails. */
  function EnvAt(envs: seq<LineEnv>, k: nat): LineEnv {
    if k < |envs| then envs[k] else LineEnv(AuthFailed, PlayEnv(None, Failed, [], None, [], Closed, SendFailed, 0, None))
  }

  /**
   * One line of `run`: the handler its first word selects, given the stripped
   * line; a `go` that passes its guards runs the search to its end. Blank
   * lines, unknown words and `quit` itself change nothing.
   */
  function LineSpec(s: BridgeState, line: String, env: LineEnv, rules: Rules): BridgeState {
    var t := Strip(line);
    match CommandOf(line)
    case Uci => s.(out := s.out + UciBlock(s.settings))
    case SetOption => SetOptionSpec(s, t)
    case IsReady => IsReadySpec(s, env.auth)
    case NewGame => NewGameSpec(s)
    case Position => s.(board := PositionBoard(rules, t))
    case Go => GoLine(s, env, rules)
    case Stop => s.(stopFlag := true)
    case _ => s
  }

  /** A `go` line: the guards, then the search when they pass. */
  function GoLine(s: BridgeState, env: LineEnv, rules: Rules): BridgeState {
    var g := GoSpec(s, env.auth);
    if g.1 then PlaySpec(g.0, env.play, rules) else g.0
  }

  /** The lines handled in order, line `k` with the remote data `EnvAt(envs, k)`. */
  function RunLines(s: BridgeState, lines: seq<String>, envs: seq<LineEnv>, rules: Rules): BridgeState
    decreases |lines|
  {
    if lines == [] then s
    else LineSpec(RunLines(s, lines[..|lines| - 1], envs, rules), lines[|lines| - 1], EnvAt(envs, |lines| - 1), rules)
  }

  lemma RunLinesNext(s: BridgeState, lines: seq<String>, envs: seq<LineEnv>, rules: Rules, k: nat)
    requires k < |lines|
    ensures RunLines(s, lines[..k + 1], envs, rules) == LineSpec(RunLines(s, lines[..k], envs, rules), lines[k], EnvAt(envs, k), rules)
  {
    assert lines[..k + 1][..k] == lines[..k];
  }

  lemma PollKeepsSettings(s: BridgeState, polls: seq<Option<seq<OngoingGame>>>, stopAt: Option<nat>, i: nat)
    ensures PollSpec(s, polls, stopAt, i).0.settings == s.settings
    ensures PollSpec(s, polls, stopAt, i).0.moveQueue == s.moveQueue
    decreases ChallengePolls - i
  {
    if i < ChallengePolls && !Stopped(stopAt, i) {
      var reply := PollAt(polls, i);
      if !(reply.Some? && MatchIndex(reply.value, s.settings.opponent).Some?) {
        PollKeepsSettings(s, polls, stopAt, i + 1);
      }
    }
  }

  lemma ChallengeKeepsSettings(s: BridgeState, reply: ChallengeReply, polls: seq<Option<seq<OngoingGame>>>, stopAt: Option<nat>)
    ensures ChallengeSpec(s, reply, polls, stopAt).0.settings == s.settings
    ensures ChallengeSpec(s, reply, polls, stopAt).0.moveQueue == s.moveQueue
  {
    if reply.Created? {
      var st := s.settings;
      var s1 := s.(out := s.out + [Info(Challenging + st.opponent + " (" + TimeDesc(st) + ")...")]);
      PollKeepsSettings(s1.(out := s1.out + [Info(WaitingForBot)]), polls, stopAt, 0);
    }
  }

  lemma EnsureGameKeepsSettings(s: BridgeState, env: PlayEnv)
    ensures EnsureGameSpec(s, env).0.settings == s.settings
    ensures EnsureGameSpec(s, env).0.moveQueue == s.moveQueue
  {
    var f := FindExistingSpec(s, env.ongoing);
    ChallengeKeepsSettings(f.0, env.challenge, env.polls, env.pollStop);
  }

  /** A search changes no option. */
  lemma PlayKeepsSettings(s: BridgeState, env: PlayEnv, rules: Rules)
    ensures PlaySpec(s, env, rules).settings == s.settings
  {
    var g := EnsureGameSpec(s, env);
    EnsureGameKeepsSettings(s, env);
    if g.1 {
      var s3 := SendStepSpec(g.0, env);
      assert s3.settings == g.0.settings;
      AnswerKeepsSettings(s3, env, rules);
    }
  }

  lemma AnswerKeepsSettings(s: BridgeState, env: PlayEnv, rules: Rules)
    ensures AnswerSpec(s, env, rules).settings == s.settings
  {
    var s4 := s.(out := s.out + [Info(WaitingFor + s.settings.opponent + "...")]);
    assert WaitSpec(s4, |s.board.moves|, env.waitBudget, env.waitStop).0.settings == s.settings;
  }

  lemma GoKeepsSettings(s: BridgeState, env: LineEnv, rules: Rules)
    ensures GoLine(s, env, rules).settings == s.settings
  {
    var g := GoSpec(s, env.auth);
    if g.1 {
      PlayKeepsSettings(g.0, env.play, rules);
    }
  }

  /** Only `setoption` changes the options, and it keeps them within their ranges. */
  lemma LineKeepsValidSettings(s: BridgeState, line: String, env: LineEnv, rules: Rules)
    requires ValidSettings(s.settings)
    ensures ValidSettings(LineSpec(s, line, env, rules).settings)
    ensures CommandOf(line) != SetOption ==> LineSpec(s, line, env, rules).settings == s.settings
  {
    if CommandOf(line) == Go {
      GoLineIsSearch(s, line, env, rules);
      GoKeepsSettings(s, env, rules);
    } else if CommandOf(line) == SetOption {
      SetOptionLineValid(s, line, env, rules);
    } else {
      OtherLinesKeepSettings(s, line, env, rules);
    }
  }

  lemma GoLineIsSearch(s: BridgeState, line: String, env: LineEnv, rules: Rules)
    requires CommandOf(line) == Go
    ensures LineSpec(s, line, env, rules) == GoLine(s, env, rules)
  {
  }

  lemma SetOptionLineValid(s: BridgeState, line: String, env: LineEnv, rules: Rules)
    requires CommandOf(line) == SetOption && ValidSettings(s.settings)
    ensures ValidSettings(LineSpec(s, line, env, rules).settings)
  {
  }

  /** Lines other than `setoption` and `go` leave the options as they are. */
  lemma OtherLinesKeepSettings(s: BridgeState, line: String, env: LineEnv, rules: Rules)
    requires CommandOf(line) != SetOption && CommandOf(line) != Go
    ensures LineSpec(s, line, env, rules).settings == s.settings
  {
  }

  /**
   * The options stay within the ranges the handshake declares, whatever the
   * lines: with `DefaultsValid`, every configuration a session reaches respects them.
   */
  lemma {:induction false} RunKeepsValidSettings(s: BridgeState, lines: seq<String>, envs: seq<LineEnv>, rules: Rules)
    requires ValidSettings(s.settings)
    ensures ValidSettings(RunLines(s, lines, envs, rules).settings)
    decreases |lines|
  {
    if lines != [] {
      var init := lines[..|lines| - 1];
      RunKeepsValidSettings(s, init, envs, rules);
      LineKeepsValidSettings(RunLines(s, init, envs, rules), lines[|lines| - 1], EnvAt(envs, |lines| - 1), rules);
    }
  }

  /**
   * End to end, a `go` on a connected bridge with a token and a bound game
   * answers `bestmove m` with the first move that counts more than the local
   * moves, under the conditions of `PlayRelaysFreshMove`.
   */
  lemma GoRelaysFreshMove(s: BridgeState, env: LineEnv, rules: Rules, k: nat)
    requires s.settings.token != "" && s.connected && Bound(s.gameId) && Named(s.moveQueue)
    requires var q := SendStepSpec(s, env.play).moveQueue;
      && k < |q| && q[k].MoveMsg? && q[k].count > |s.board.moves|
      && (forall j :: 0 <= j < k ==> Stale(q[j], |s.board.moves|))
    requires k < env.play.waitBudget && (env.play.waitStop.None? || env.play.waitStop.value > k)
    ensures var m := SendStepSpec(s, env.play).moveQueue[k].uci;
      var r := GoLine(s, env, rules);
      && |r.out| > 0 && r.out[|r.out| - 1] == "bestmove " + m
      && r.board == (if rules.legal(s.board, m) then Push(s.board, m) else s.board)
  {
    var s0 := s.(stopFlag := false);
    assert GoSpec(s, env.auth) == (s0, true);
    SendStepQueue(s, env.play);
    SendStepQueue(s0, env.play);
    PlayRelaysFreshMove(s0, env.play, rules, k);
  }

  /** Every line leaves the queue's moves named: the stream adds only named moves, and nothing else adds any. */
  lemma LineKeepsNamed(s: BridgeState, line: String, env: LineEnv, rules: Rules)
    requires Named(s.moveQueue)
    ensures Named(LineSpec(s, line, env, rules).moveQueue)
  {
    if CommandOf(line) == Go {
      GoLineIsSearch(s, line, env, rules);
      GoKeepsNamed(s, env, rules);
    } else {
      OtherLinesKeepQueue(s, line, env, rules);
    }
  }

  lemma GoKeepsNamed(s: BridgeState, env: LineEnv, rules: Rules)
    requires Named(s.moveQueue)
    ensures Named(GoLine(s, env, rules).moveQueue)
  {
    var g := GoSpec(s, env.auth);
    if g.1 {
      PlayKeepsNamed(g.0, env.play, rules);
    }
  }

  /** Lines other than `go` keep the queue, except `ucinewgame`, which empties it. */
  lemma OtherLinesKeepQueue(s: BridgeState, line: String, env: LineEnv, rules: Rules)
    requires CommandOf(line) != Go
    ensures var q := LineSpec(s, line, env, rules).moveQueue;
      q == (if CommandOf(line) == NewGame then [] else s.moveQueue)
  {
  }

  /**
   * From an empty queue, as `__init__` leaves it, every move any search
   * receives names a move, which `PlayRelaysFreshMove` relies on.
   */
  lemma {:induction false} RunKeepsNamed(s: BridgeState, lines: seq<String>, envs: seq<LineEnv>, rules: Rules)
    requires Named(s.moveQueue)
    ensures Named(RunLines(s, lines, envs, rules).moveQueue)
    decreases |lines|
  {
    if lines != [] {
      var init := lines[..|lines| - 1];
      RunKeepsNamed(s, init, envs, rules);
      LineKeepsNamed(RunLines(s, init, envs, rules), lines[|lines| - 1], EnvAt(envs, |lines| - 1), rules);
    }
  }

  // ===========================================================================
  // the bridge object
  // ===========================================================================

  class LichessBridge {
    var settings: Settings
    var connected: bool
    var myUsername: String
    var gameId: Option<String>
    var myColor: Option<Side>
    var board: Board
    var stopFlag: bool
    var streamActive: bool
    var moveQueue: seq<Msg>
    var out: seq<String>

    function State(): BridgeState
      reads this
    {
      BridgeState(settings, connected, myUsername, gameId, myColor, board, stopFlag, streamActive, moveQueue, out)
    }

    /** `__init__`: the default options, no client, no game, the initial board. */
    constructor ()
      ensures State() == BridgeState(Defaults, false, "", None, None, Initial, false, false, [], [])
      ensures ValidSettings(settings)
    {
      settings := Defaults;
      connected, myUsername, gameId, myColor, board := false, "", None, None, Initial;
      stopFlag, streamActive, moveQueue, out := false, false, [], [];
    }

    method Send(line: String)
      modifies this
      ensures State() == old(State()).(out := old(out) + [line])
    {
      out := out + [line];
    }

    method HandleUci()
      modifies this
      ensures State() == old(State()).(out := old(out) + UciBlock(old(settings)))
    {
      out := out + UciBlock(settings);
    }

    method HandleSetOption(line: String)
      modifies this
      ensures State() == SetOptionSpec(old(State()), line)
    {
      var p := ParseSetOption(line);
      SetOptionField(KeyOf(p.name), p.value);
    }

    /** The assignment `_handle_setoption` makes for one option. */
    method SetOptionField(key: OptionKey, value: String)
      modifies this
      ensures State() == SetOptionValue(old(State()), key, value)
    {
      settings := ApplyOption(settings, key, value);
      if key == TokenKey {
        connected := false;
        myUsername := "";
      }
    }

    method Connect(auth: AuthReply) returns (ok: bool)
      modifies this
      ensures (State(), ok) == ConnectSpec(old(State()), auth)
    {
      if settings.token == "" {
        return false;
      }
      match auth
      case Account(id) =>
        connected := true;
        myUsername := id;
        out := out + [Info(LoggedIn + id)];
        ok := true;
      case AuthRejected =>
        connected := false;
        out := out + [Info(LoginFailed)];
        ok := false;
      case AuthFailed =>
        connected := false;
        ok := false;
    }

    method HandleIsReady(auth: AuthReply)
      modifies this
      ensures State() == IsReadySpec(old(State()), auth)
    {
      if settings.token != "" && !connected {
        var _ := Connect(auth);
      }
      out := out + ["readyok"];
    }

    /** `_clear_queue`: drains the move queue, returning how many messages it dropped. */
    method ClearQueue() returns (count: nat)
      modifies this
      ensures count == |old(moveQueue)|
      ensures State() == old(State()).(moveQueue := [])
    {
      count := 0;
      while moveQueue != []
        invariant count + |moveQueue| == |old(moveQueue)|
        invariant State() == old(State()).(moveQueue := moveQueue)
        decreases |moveQueue|
      {
        moveQueue := moveQueue[1..];
        count := count + 1;
      }
    }

    method HandleUciNewGame()
      modifies this
      ensures State() == NewGameSpec(old(State()))
    {
      stopFlag := true;
      streamActive := false;
      board := Initial;
      gameId := None;
      myColor := None;
      var _ := ClearQueue();
    }

    method HandlePosition(line: String, rules: Rules)
      modifies this
      ensures State() == old(State()).(board := PositionBoard(rules, line))
    {
      SetStart(line, rules);
      PushListedMoves(line, rules);
    }

    /** Push the moves `position` lists after " moves ", if any. */
    method PushListedMoves(line: String, rules: Rules)
      modifies this
      ensures State() == old(State()).(board := PushAll(rules, old(board), PositionMoves(line)).board)
    {
      var movesAt := Find(Lower(line), " moves ");
      if movesAt.Some? {
        PushMoves(Split(From(line, movesAt.value + 7)), rules);
      }
    }

    /** Reset the board, then set the FEN `position` names, if `set_fen` accepts it. */
    method SetStart(line: String, rules: Rules)
      modifies this
      ensures State() == old(State()).(board := PositionStart(rules, line))
    {
      board := Initial;
      var low := Lower(line);
      var fen := Find(low, "fen ");
      if fen.Some? {
        var moves := Find(low, " moves");
        var fenEnd := if moves.Some? then moves.value else |line|;
        var fenBoard := SetFen(rules, Strip(Slice(line, fen.value + 4, fenEnd)));
        if fenBoard.Some? {
          board := fenBoard.value;
        }
      }
    }

    /** `push_uci` for each move in turn, stopping at the first one the rules reject. */
    method PushMoves(ms: seq<String>, rules: Rules)
      modifies this
      ensures State() == old(State()).(board := PushAll(rules, old(board), ms).board)
    {
      var i := 0;
      while i < |ms|
        invariant 0 <= i <= |ms|
        invariant PushAll(rules, board, ms[i..]) == PushAll(rules, old(board), ms)
        invariant State() == old(State()).(board := board)
      {
        assert ms[i..][0] == ms[i] && ms[i..][1..] == ms[i + 1..];
        if !rules.legal(board, ms[i]) {
          break;
        }
        board := Push(board, ms[i]);
        i := i + 1;
      }
    }

    method HandleStop()
      modifies this
      ensures State() == old(State()).(stopFlag := true)
    {
      stopFlag := true;
    }

    method HandleGo(auth: AuthReply) returns (started: bool)
      modifies this
      ensures (State(), started) == GoSpec(old(State()), auth)
    {
      HandleStop();
      if settings.token == "" {
        out := out + [Info(TokenUnset), NullMove];
        return false;
      }
      if !connected {
        var ok := Connect(auth);
        if !ok {
          out := out + [Info(ConnectionFailed), NullMove];
          return false;
        }
      }
      stopFlag := false;
      started := true;
    }

    method FindExistingGame(ongoing: Option<seq<OngoingGame>>) returns (found: bool)
      modifies this
      ensures (State(), found) == FindExistingSpec(old(State()), ongoing)
    {
      if ongoing.None? {
        return false;
      }
      var games := ongoing.value;
      var i := 0;
      while i < |games|
        invariant 0 <= i <= |games|
        invariant forall j :: 0 <= j < i ==> !Against(games[j], settings.opponent)
        invariant State() == old(State())
      {
        if Lower(games[i].opponent) == Lower(settings.opponent) {
          gameId := Some(games[i].gameId);
          myColor := Some(if games[i].color == "white" then White else Black);
          out := out + [Info(ResumingGame + settings.opponent)];
          return true;
        }
        i := i + 1;
      }
      found := false;
    }

    method PollForGameStart(polls: seq<Option<seq<OngoingGame>>>, stopAt: Option<nat>) returns (ok: bool)
      modifies this
      ensures (State(), ok) == PollSpec(old(State()), polls, stopAt, 0)
    {
      var i := 0;
      while i < ChallengePolls
        invariant 0 <= i <= ChallengePolls
        invariant PollSpec(State(), polls, stopAt, i) == PollSpec(old(State()), polls, stopAt, 0)
      {
        if Stopped(stopAt, i) {
          return false;
        }
        var reply := PollAt(polls, i);
        if reply.Some? {
          var games := reply.value;
          var j := 0;
          while j < |games|
            invariant 0 <= j <= |games|
            invariant forall k :: 0 <= k < j ==> !Against(games[k], settings.opponent)
          {
            if Lower(games[j].opponent) == Lower(settings.opponent) {
              gameId := Some(games[j].gameId);
              myColor := Some(ColorOf(games[j].color));
              out := out + [Info(PlayingAs + games[j].color)];
              return true;
            }
            j := j + 1;
          }
        }
        i := i + 1;
      }
      out := out + [Info(ChallengeTimedOut), Info("Check " + settings.opponent + ProfileHint)];
      ok := false;
    }

    /** `_create_challenge`; `sent` is the parameter set handed to `challenges.create`. */
    method CreateChallenge(reply: ChallengeReply, polls: seq<Option<seq<OngoingGame>>>, stopAt: Option<nat>)
      returns (ok: bool, sent: ChallengeParams)
      modifies this
      ensures sent == Params(old(settings))
      ensures (State(), ok) == ChallengeSpec(old(State()), reply, polls, stopAt)
    {
      var st := settings;
      out := out + [Info(Challenging + settings.opponent + " (" + TimeDesc(st) + ")...")];
      sent := Params(st);
      match reply
      case GameStarted(id, color) =>
        gameId := id;
        if color.Some? {
          myColor := Some(ColorOf(color.value));
        }
        out := out + [Info(StartedGame)];
        ok := true;
      case Created =>
        out := out + [Info(WaitingForBot)];
        ok := PollForGameStart(polls, stopAt);
      case Refused(e) =>
        out := out + [Info(ChallengeRefused + e)];
        ok := false;
      case Failed =>
        ok := false;
    }

    /** The body of the stream thread, over the events the server streams and how the stream ends. */
    method StreamWorker(events: seq<StreamEvent>, end: StreamEnd)
      modifies this
      ensures State() == StreamSpec(old(State()), events, end)
    {
      if !Bound(gameId) {
        return;
      }
      ghost var r := StreamRun(events, myUsername, streamActive, 0, myColor, end);
      var lastMoveCount: nat := 0;
      var i := 0;
      assert events[0..] == events;
      while i < |events|
        invariant 0 <= i <= |events|
        invariant var rest := StreamRun(events[i..], myUsername, streamActive, lastMoveCount, myColor, end);
          moveQueue + rest.msgs == old(moveQueue) + r.msgs && rest.color == r.color
        invariant State() == old(State()).(moveQueue := moveQueue, myColor := myColor)
      {
        var stop;
        lastMoveCount, stop := StreamEventAt(events, i, lastMoveCount, end);
        if stop {
          return;
        }
        i := i + 1;
      }
      assert events[i..] == [];
      if end.Broken? {
        moveQueue := moveQueue + [ErrorMsg(end.error)];
      }
    }

    /**
     * One pass of the stream loop over event `i`: leave when the stream is no
     * longer active, else handle the event. Either the run is over (`stop`)
     * and its messages are enqueued, or what was enqueued plus the run from
     * `i + 1` is the run from `i`.
     */
    method StreamEventAt(events: seq<StreamEvent>, i: nat, last: nat, end: StreamEnd) returns (newLast: nat, stop: bool)
      requires i < |events|
      modifies this
      ensures var run := StreamRun(events[i..], old(myUsername), old(streamActive), last, old(myColor), end);
        var rest := StreamRun(events[i + 1..], myUsername, streamActive, newLast, myColor, end);
        && State() == old(State()).(moveQueue := moveQueue, myColor := myColor)
        && (stop ==> moveQueue == old(moveQueue) + run.msgs && myColor == run.color)
        && (!stop ==> moveQueue + rest.msgs == old(moveQueue) + run.msgs && rest.color == run.color)
    {
      if !streamActive {
        assert events[i..] != [];
        return last, true;
      }
      ghost var st := EventStep(events[i], myUsername, last, myColor);
      if st.Finish? {
        assert events[i..][0] == events[i];
      } else {
        StreamRunAt(events, i, myUsername, last, myColor, end, moveQueue);
      }
      newLast, stop := HandleEvent(events[i], last);
    }

    /** One event of the stream thread's loop, with `last` the running move count; `finished` on a terminal status. */
    method HandleEvent(e: StreamEvent, last: nat) returns (newLast: nat, finished: bool)
      modifies this
      ensures var st := EventStep(e, old(myUsername), last, old(myColor));
        && finished == st.Finish?
        && (st.Finish? ==> State() == old(State()).(moveQueue := old(moveQueue) + [st.msg]))
        && (st.Continue? ==>
              (newLast == st.last && State() == old(State()).(moveQueue := old(moveQueue) + st.msgs, myColor := st.color)))
    {
      newLast, finished := last, false;
      if e.kind == "gameFull" {
        myColor := Some(if Lower(e.whiteId) == Lower(myUsername) then White else Black);
        var ms := Split(e.moves);
        newLast := |ms|;
        if newLast > 0 {
          moveQueue := moveQueue + [MoveMsg(ms[|ms| - 1], newLast)];
        }
      } else if e.kind == "gameState" {
        var status := e.status.GetOr("started");
        if status != "created" && status != "started" {
          moveQueue := moveQueue + [GameOverMsg(status, e.winner)];
          return newLast, true;
        }
        var ms := Split(e.moves);
        if |ms| > last {
          moveQueue := moveQueue + [MoveMsg(ms[|ms| - 1], |ms|)];
          newLast := |ms|;
        }
      }
    }

    method SendMove(reply: SendReply) returns (ok: bool)
      modifies this
      ensures (State(), ok) == SendMoveSpec(old(State()), reply)
    {
      if !Bound(gameId) {
        return false;
      }
      match reply
      case MoveAccepted => ok := true;
      case MoveRejected(e) =>
        out := out + [Info(RejectedMove + e)];
        ok := false;
      case SendFailed => ok := false;
    }

    method WaitForMove(expected: nat, budget: nat, stopAt: Option<nat>) returns (move: Option<String>)
      modifies this
      ensures (State(), move) == WaitSpec(old(State()), expected, budget, stopAt)
    {
      var i := 0;
      while i < budget
        invariant 0 <= i <= budget
        invariant WaitRun(moveQueue, expected, budget, stopAt, i) == WaitRun(old(moveQueue), expected, budget, stopAt, 0)
        invariant State() == old(State()).(moveQueue := moveQueue)
      {
        if Stopped(stopAt, i) {
          return None;
        }
        if moveQueue != [] {
          var msg := moveQueue[0];
          moveQueue := moveQueue[1..];
          match msg
          case MoveMsg(uci, count) =>
            if count > expected {
              return Some(uci);
            }
          case GameOverMsg(status, _) =>
            out := out + [Info(GameOverText + status)];
            gameId := None;
            return None;
          case ErrorMsg(_) =>
            return None;
        }
        i := i + 1;
      }
      out := out + [Info(OpponentTimedOut)];
      move := None;
    }

    /** `_play`, the body of the search thread; `sent` is the move handed to `board.make_move`, if any. */
    method Play(env: PlayEnv, rules: Rules) returns (sent: Option<String>)
      modifies this
      ensures sent == (var g := EnsureGameSpec(old(State()), env);
                       if g.1 then HumanMove(g.0.board, StartStreamSpec(g.0, env).myColor) else None)
      ensures State() == PlaySpec(old(State()), env, rules)
    {
      sent := None;
      var ok := EnsureGame(env);
      if !ok {
        out := out + [NullMove];
        return;
      }
      sent := SendHumanMove(env);
      Answer(env, rules);
    }

    /** `_play` step 1: keep the bound game, or find one against the opponent, or challenge. */
    method EnsureGame(env: PlayEnv) returns (ok: bool)
      modifies this
      ensures (State(), ok) == EnsureGameSpec(old(State()), env)
    {
      if Bound(gameId) {
        return true;
      }
      ok := FindExistingGame(env.ongoing);
      if !ok {
        var params;
        ok, params := CreateChallenge(env.challenge, env.polls, env.pollStop);
      }
    }

    /** `_play` steps 2 to 4: start the stream and send the human's move when the bridge does not hold it. */
    method SendHumanMove(env: PlayEnv) returns (sent: Option<String>)
      modifies this
      ensures sent == HumanMove(old(board), StartStreamSpec(old(State()), env).myColor)
      ensures State() == SendStepSpec(old(State()), env)
    {
      streamActive := true;
      StreamWorker(env.events, env.streamEnd);
      var myTurnLocally := myColor == Some(Turn(board));
      sent := None;
      if !myTurnLocally && board.moves != [] && board.moves[|board.moves| - 1] != NullUci {
        sent := Some(board.moves[|board.moves| - 1]);
        out := out + [Info(SendingMove)];
        var _ := SendMove(env.send);
      }
    }

    /** `_play` steps 5 and 6: wait for a move newer than the local ones, push it when legal, answer it. */
    method Answer(env: PlayEnv, rules: Rules)
      modifies this
      ensures State() == AnswerSpec(old(State()), env, rules)
    {
      var localMoveCount := |board.moves|;
      out := out + [Info(WaitingFor + settings.opponent + "...")];
      var botMove := WaitForMove(localMoveCount, env.waitBudget, env.waitStop);
      if botMove.Some? && botMove.value != "" {
        if rules.legal(board, botMove.value) {
          board := Push(board, botMove.value);
        }
        out := out + ["bestmove " + botMove.value];
      } else {
        out := out + [NullMove];
      }
    }

    /** `_stop_threads` followed by the `_cleanup` resign, which writes nothing. */
    method Cleanup()
      modifies this
      ensures State() == old(State()).(stopFlag := true, streamActive := false)
    {
      stopFlag := true;
      streamActive := false;
    }

    /** One line of `run`: strip, skip blanks, dispatch on the first word; true on `quit`. */
    method HandleLine(line: String, env: LineEnv, rules: Rules) returns (quit: bool)
      modifies this
      ensures quit <==> CommandOf(line) == Quit
      ensures quit ==> State() == old(State())
      ensures State() == LineSpec(old(State()), line, env, rules)
    {
      quit := false;
      var t := Strip(line);
      match CommandOf(line)
      case Blank =>
      case Uci => HandleUci();
      case SetOption => HandleSetOption(t);
      case IsReady => HandleIsReady(env.auth);
      case NewGame => HandleUciNewGame();
      case Position => HandlePosition(t, rules);
      case Go =>
        var started := HandleGo(env.auth);
        if started {
          var _ := Play(env.play, rules);
        }
      case Stop => HandleStop();
      case Quit => quit := true;
      case Unknown(_) =>
    }

    /**
     * `run`: handle the lines in order up to and including the first `quit`
     * (or all of them, at end of input), then clean up; returns how many lines
     * were handled before `quit`.
     */
    method Run(lines: seq<String>, envs: seq<LineEnv>, rules: Rules) returns (handled: nat)
      modifies this
      ensures handled == QuitIndex(lines)
      ensures State() == RunLines(old(State()), lines[..handled], envs, rules).(stopFlag := true, streamActive := false)
    {
      handled := 0;
      while handled < |lines|
        invariant 0 <= handled <= |lines|
        invariant QuitIndex(lines[handled..]) + handled == QuitIndex(lines)
        invariant State() == RunLines(old(State()), lines[..handled], envs, rules)
      {
        RunLinesNext(old(State()), lines, envs, rules, handled);
        var quit := HandleLine(lines[handled], EnvAt(envs, handled), rules);
        if quit {
          break;
        }
        assert lines[handled..][1..] == lines[handled + 1..];
        handled := handled + 1;
      }
      Cleanup();
    }
  }
}
