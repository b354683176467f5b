/**
 * The shape of the lines both bridges write to the GUI: informational
 * `info string` lines and the `bestmove` line that answers a `go`.
 */
module Uci {

  import opened Base
  import opened Text

  /** An informational UCI line carrying `msg`. */
  function Info(msg: String): String {
    "info string " + msg
  }

  /** The null move in UCI notation. */
  const NullUci: String := "0000"

  /** The null move answer, written when no move can be reported. */
  const NullMove: String := "bestmove 0000"

  /** An `id` line of the `uci` reply. */
  function IdLine(field: String, value: String): String {
    "id " + field + " " + value
  }

  /** An `option` line of the `uci` reply: the option's name, then its type and the rest of its declaration. */
  function OptionLine(name: String, decl: String): String {
    "option name " + name + " type " + decl
  }

  /** A declaration line of the `uci` reply: an `id` line or an `option` line. */
  predicate IsDeclaration(line: String) {
    StartsWith(line, "id ") || StartsWith(line, "option name ")
  }

  lemma IdLineDeclares(field: String, value: String)
    ensures IsDeclaration(IdLine(field, value))
  {
    assert IdLine(field, value)[..3] == "id ";
  }

  lemma OptionLineDeclares(name: String, decl: String)
    ensures IsDeclaration(OptionLine(name, decl))
  {
    assert OptionLine(name, decl)[..12] == "option name ";
  }

  /** No declaration line is one of the handshake words. */
  lemma DeclarationIsNoHandshake(line: String)
    requires IsDeclaration(line)
    ensures line != "uciok" && line != "readyok"
  {
    if StartsWith(line, "id ") {
      assert line[0] == line[..3][0] == 'i';
    } else {
      assert line[0] == line[..12][0] == 'o';
    }
    assert "uciok"[0] == 'u' && "readyok"[0] == 'r';
  }

  predicate IsInfo(line: String) {
    StartsWith(line, "info string ")
  }

  /** `after` is `before` followed only by informational lines. */
  predicate AppendsInfo(before: seq<String>, after: seq<String>) {
    |before| <= |after| && after[..|before|] == before
    && forall k :: |before| <= k < |after| ==> IsInfo(after[k])
  }

  lemma InfoIsInfo(msg: String)
    ensures IsInfo(Info(msg))
  {
    assert Info(msg)[..12] == "info string ";
  }

  lemma AppendsInfoTrans(a: seq<String>, b: seq<String>, c: seq<String>)
    requires AppendsInfo(a, b) && AppendsInfo(b, c)
    ensures AppendsInfo(a, c)
  {
    assert c[..|b|][..|a|] == c[..|a|];
  }

  lemma AppendsInfoOne(a: seq<String>, msg: String)
    ensures AppendsInfo(a, a + [Info(msg)])
  {
    InfoIsInfo(msg);
    assert (a + [Info(msg)])[..|a|] == a;
  }

  /** In `setoption name N value T` with a one-word name N other than "value", the first " value " follows N. */
  lemma FindValueMarker(ln: String, tail: String)
    requires ln != [] && NoSpace(ln) && ln != "value"
    ensures Find("setoption name " + ln + " value " + tail, " value ") == Some(15 + |ln|)
  {
    var line := "setoption name " + ln + " value " + tail;
    var pos := 15 + |ln|;
    assert line[pos..pos + 7] == " value ";
    forall j | 0 <= j < pos
      ensures !OccursAt(line, " value ", j)
    {
      NoMarkerInName(ln, tail, j);
    }
    FindFirst(line, " value ", pos);
  }

  /** No " value " starts inside `setoption name N` for a one-word name N other than "value". */
  lemma NoMarkerInName(ln: String, tail: String, j: nat)
    requires ln != [] && NoSpace(ln) && ln != "value"
    requires j < 15 + |ln|
    ensures !OccursAt("setoption name " + ln + " value " + tail, " value ", j)
  {
    var low := "setoption name " + ln + " value " + tail;
    var pat := " value ";
    if j + 7 <= |low| {
      var k: nat;
      if j >= 15 {
        k := 0;
        assert low[j] == ln[j - 15];
      } else if j == 14 {
        if |ln| >= 6 {
          k := 6;
          assert low[20] == ln[5];
        } else if |ln| == 5 {
          var i :| 0 <= i < 5 && ln[i] != "value"[i];
          k := i + 1;
          assert low[15 + i] == ln[i];
        } else {
          k := |ln| + 1;
          assert low[15 + |ln|] == ' ';
        }
      } else if j == 9 {
        k := 1;
        assert low[10] == 'n';
      } else {
        k := 0;
        assert low[j] == "setoption name "[j];
      }
      assert k < 7 && low[j + k] != pat[k];
      assert low[j..j + 7][k] == low[j + k];
    }
  }
}
