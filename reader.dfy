/**
 * UCIbriderForLucasPreCompiled.py, `stdin_reader_thread` and the two global
 * queues. The reader answers `uci` and `isready` itself, straight into the
 * response queue, and forwards every other non-empty line, stripped, to the
 * command queue the worker drains; at end of input it forwards "quit".
 *
 * Standard input is the sequence of lines read; the path of the log file,
 * which the source derives from the executable's directory and the process
 * id, is a parameter.
 */
module Reader {

  import opened Base
  import opened Text
  import opened Uci

  /** The declarations of the fixed reply to `uci`. */
  const UciHeader: seq<String> := [
    IdLine("name", "Lucas Lichess Bridge by tidypy"),
    IdLine("author", "tidypy"),
    OptionLine("LichessToken", "string default"),
    OptionLine("ChallengeColor", "combo default Auto var Auto var White var Black"),
    OptionLine("Opponent", "string default maia1"),
    OptionLine("TimeMode", "combo default Realtime var Realtime var Correspondence"),
    OptionLine("Minutes", "spin default 5 min 1 max 180"),
    OptionLine("Increment", "spin default 3 min 0 max 180"),
    OptionLine("Rated", "check default false"),
    OptionLine("VerifyConnection", "button"),
    OptionLine("Resign", "button")]

  /** The fixed reply to `uci`, ending with "uciok". */
  const UciReply: seq<String> := UciHeader + ["uciok"]

  /** The line that follows the `uci` reply. */
  function LogfileLine(logFile: String): String {
    Info("Logfile located at: " + logFile)
  }

  /** What the reader does with one line. */
  datatype Route = Ignore | AnswerUci | AnswerReady | Forward(command: String)

  /** The route of a stripped line, compared exactly. */
  function Classify(command: String): (r: Route)
    ensures r.Forward? ==> r.command == command && command != [] && command != "uci" && command != "isready"
  {
    if command == [] then Ignore
    else if command == "uci" then AnswerUci
    else if command == "isready" then AnswerReady
    else Forward(command)
  }

  /** The route of one input line. */
  function RouteOf(line: String): Route {
    Classify(Strip(line))
  }

  /** What a route adds to the response queue. */
  function ReplyOf(route: Route, logFile: String): seq<String> {
    match route
    case AnswerUci => UciReply + [LogfileLine(logFile)]
    case AnswerReady => ["readyok"]
    case _ => []
  }

  /** What a route adds to the command queue. */
  function ForwardOf(route: Route): seq<String> {
    if route.Forward? then [route.command] else []
  }

  /** Everything the reader puts on the response queue for `lines`, in order. */
  function Responses(lines: seq<String>, logFile: String): seq<String> {
    if lines == [] then []
    else Responses(lines[..|lines| - 1], logFile) + ReplyOf(RouteOf(lines[|lines| - 1]), logFile)
  }

  /** Everything the reader forwards to the command queue for `lines`, before end of input. */
  function Commands(lines: seq<String>): seq<String> {
    if lines == [] then []
    else Commands(lines[..|lines| - 1]) + ForwardOf(RouteOf(lines[|lines| - 1]))
  }

  /** How many of `lines` take `route`. */
  function CountLines(lines: seq<String>, route: Route): nat {
    if lines == [] then 0
    else CountLines(lines[..|lines| - 1], route) + (if RouteOf(lines[|lines| - 1]) == route then 1 else 0)
  }

  /** The two global queues, `RESPONSE_QUEUE` and `COMMAND_QUEUE`, as the lines put on them so far. */
  class Queues {
    var responses: seq<String>
    var commands: seq<String>

    constructor ()
      ensures responses == [] && commands == []
    {
      responses := [];
      commands := [];
    }
  }

  /** `stdin_reader_thread`: route every line, then forward "quit" at end of input. */
  method ReadStdin(q: Queues, lines: seq<String>, logFile: String)
    modifies q
    ensures q.responses == old(q.responses) + Responses(lines, logFile)
    ensures q.commands == old(q.commands) + Commands(lines) + ["quit"]
  {
    for i := 0 to |lines|
      invariant q.responses == old(q.responses) + Responses(lines[..i], logFile)
      invariant q.commands == old(q.commands) + Commands(lines[..i])
    {
      RouteStep(lines, i, logFile);
      ConcatAssoc(old(q.responses), Responses(lines[..i], logFile), ReplyOf(RouteOf(lines[i]), logFile));
      ConcatAssoc(old(q.commands), Commands(lines[..i]), ForwardOf(RouteOf(lines[i])));
      match RouteOf(lines[i])
      case Ignore =>
      case AnswerUci =>
        q.responses := q.responses + ReplyOf(AnswerUci, logFile);
      case AnswerReady =>
        q.responses := q.responses + ["readyok"];
      case Forward(command) =>
        q.commands := q.commands + [command];
    }
    assert lines[..|lines|] == lines;
    q.commands := q.commands + ["quit"];
  }

  /** Reading one more line adds its route's reply and forward. */
  lemma RouteStep(lines: seq<String>, i: nat, logFile: String)
    requires i < |lines|
    ensures Responses(lines[..i + 1], logFile) == Responses(lines[..i], logFile) + ReplyOf(RouteOf(lines[i]), logFile)
    ensures Commands(lines[..i + 1]) == Commands(lines[..i]) + ForwardOf(RouteOf(lines[i]))
  {
    assert lines[..i + 1][..i] == lines[..i];
  }

  /** Every forwarded command is non-empty, already stripped, and neither `uci` nor `isready`. */
  lemma {:induction false} ForwardedCommands(lines: seq<String>)
    ensures forall c :: c in Commands(lines) ==> Forwardable(c)
  {
    if lines != [] {
      var init := lines[..|lines| - 1];
      ForwardedCommands(init);
      ForwardedLine(lines[|lines| - 1]);
      assert Commands(lines) == Commands(init) + ForwardOf(RouteOf(lines[|lines| - 1]));
    }
  }

  /** What the command queue may receive: non-empty, stripped, neither `uci` nor `isready`. */
  predicate Forwardable(c: String) {
    c != [] && Strip(c) == c && c != "uci" && c != "isready"
  }

  lemma ForwardedLine(line: String)
    ensures forall c :: c in ForwardOf(RouteOf(line)) ==> Forwardable(c)
  {
    StripIdempotent(line);
  }

  /** Lines are forwarded in arrival order: the commands of a concatenation are the concatenation. */
  lemma {:induction false} CommandsInOrder(a: seq<String>, b: seq<String>)
    ensures Commands(a + b) == Commands(a) + Commands(b)
    decreases |b|
  {
    if b == [] {
      assert a + b == a;
    } else {
      var b0 := b[..|b| - 1];
      var last := ForwardOf(RouteOf(b[|b| - 1]));
      assert (a + b)[..|a + b| - 1] == a + b0;
      assert (a + b)[|a + b| - 1] == b[|b| - 1];
      assert Commands(a + b) == Commands(a + b0) + last;
      assert Commands(b) == Commands(b0) + last;
      CommandsInOrder(a, b0);
      ConcatAssoc(Commands(a), Commands(b0), last);
    }
  }

  /** Nothing is lost: every non-blank line is answered directly or forwarded. */
  lemma {:induction false} EveryLineRouted(lines: seq<String>)
    ensures |Commands(lines)| + CountLines(lines, AnswerUci) + CountLines(lines, AnswerReady) + CountLines(lines, Ignore)
      == |lines|
  {
    if lines != [] {
      EveryLineRouted(lines[..|lines| - 1]);
    }
  }

  /**
   * The response queue holds exactly one "readyok" per `isready` line and one
   * "uciok" per `uci` line.
   */
  lemma {:induction false} RepliesCounted(lines: seq<String>, logFile: String)
    ensures multiset(Responses(lines, logFile))["readyok"] == CountLines(lines, AnswerReady)
    ensures multiset(Responses(lines, logFile))["uciok"] == CountLines(lines, AnswerUci)
  {
    if lines != [] {
      var init := lines[..|lines| - 1];
      var route := RouteOf(lines[|lines| - 1]);
      RepliesCounted(init, logFile);
      ReplyCounts(route, logFile);
      var before := Responses(init, logFile);
      var reply := ReplyOf(route, logFile);
      assert multiset(before + reply) == multiset(before) + multiset(reply);
    }
  }

  /** One line's reply holds a "readyok" exactly for `isready` and a "uciok" exactly for `uci`. */
  lemma ReplyCounts(route: Route, logFile: String)
    ensures multiset(ReplyOf(route, logFile))["readyok"] == (if route == AnswerReady then 1 else 0)
    ensures multiset(ReplyOf(route, logFile))["uciok"] == (if route == AnswerUci then 1 else 0)
  {
    match route
    case AnswerUci => UciReplyCounts(logFile);
    case AnswerReady =>
      assert |"readyok"| != |"uciok"|;
    case _ =>
  }

  /** The `uci` reply holds one "uciok" and no "readyok". */
  lemma UciReplyCounts(logFile: String)
    ensures multiset(ReplyOf(AnswerUci, logFile))["readyok"] == 0
    ensures multiset(ReplyOf(AnswerUci, logFile))["uciok"] == 1
  {
    var log := LogfileLine(logFile);
    assert log[0] == "info string "[0] && "uciok"[0] == 'u' && "readyok"[0] == 'r';
    forall k | 0 <= k < |UciHeader|
      ensures UciHeader[k] != "uciok" && UciHeader[k] != "readyok"
    {
      HeaderDeclares(k);
      DeclarationIsNoHandshake(UciHeader[k]);
    }
    HandshakeCounts(UciHeader, log);
  }

  /** Lines that are not handshake words, then "uciok", then one more such line. */
  lemma HandshakeCounts(header: seq<String>, log: String)
    requires forall k :: 0 <= k < |header| ==> header[k] != "uciok" && header[k] != "readyok"
    requires log != "uciok" && log != "readyok"
    ensures multiset(header + ["uciok"] + [log])["readyok"] == 0
    ensures multiset(header + ["uciok"] + [log])["uciok"] == 1
  {
    assert "uciok" !in header && "readyok" !in header;
    assert multiset(header + ["uciok"] + [log]) == multiset(header) + multiset{"uciok"} + multiset{log};
  }

  /** Every line of the header is a declaration. */
  lemma HeaderDeclares(k: nat)
    requires k < |UciHeader|
    ensures IsDeclaration(UciHeader[k])
  {
    if k == 0 { IdLineDeclares("name", "Lucas Lichess Bridge by tidypy"); }
    else if k == 1 { IdLineDeclares("author", "tidypy"); }
    else if k == 2 { OptionLineDeclares("LichessToken", "string default"); }
    else if k == 3 { OptionLineDeclares("ChallengeColor", "combo default Auto var Auto var White var Black"); }
    else if k == 4 { OptionLineDeclares("Opponent", "string default maia1"); }
    else if k == 5 { OptionLineDeclares("TimeMode", "combo default Realtime var Realtime var Correspondence"); }
    else if k == 6 { OptionLineDeclares("Minutes", "spin default 5 min 1 max 180"); }
    else if k == 7 { OptionLineDeclares("Increment", "spin default 3 min 0 max 180"); }
    else if k == 8 { OptionLineDeclares("Rated", "check default false"); }
    else if k == 9 { OptionLineDeclares("VerifyConnection", "button"); }
    else { OptionLineDeclares("Resign", "button"); }
  }
}
