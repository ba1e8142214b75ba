/**
 * The text form of a stored call transcript: one "role: content" line per turn, the lines
 * separated by a newline (Python's "\n".join). The line splitter is its partner: it is
 * Python's str.split("\n"), and splitting the joined text gives the lines back.
 */
module SummaryFormat {

  /** One transcript turn as the voice platform sends it to the server. */
  datatype Turn = Turn(role: string, content: string)

  const Newline: char := '\n'

  predicate NoNewline(s: string)
  {
    forall i :: 0 <= i < |s| ==> s[i] != Newline
  }

  /** "role: content" */
  function TurnLine(t: Turn): (r: string)
    ensures |r| == |t.role| + 2 + |t.content|
    ensures r[..|t.role|] == t.role && r[|t.role|..|t.role| + 2] == ": " && r[|t.role| + 2..] == t.content
  {
    t.role + ": " + t.content
  }

  function TurnLines(ts: seq<Turn>): (r: seq<string>)
    ensures |r| == |ts|
  {
    if ts == [] then [] else [TurnLine(ts[0])] + TurnLines(ts[1..])
  }

  /**
   * Python's "\n".join(lines): the empty list joins to the empty string, and any other
   * list to a text that begins with its first line.
   */
  function JoinLines(lines: seq<string>): (r: string)
    ensures lines == [] ==> r == ""
    ensures lines != [] ==> |lines[0]| <= |r| && r[..|lines[0]|] == lines[0]
  {
    if |lines| == 0 then ""
    else if |lines| == 1 then lines[0]
    else lines[0] + [Newline] + JoinLines(lines[1..])
  }

  /**
   * The summary text the server stores for a transcript. Every line holds at least ": ",
   * so the text is empty exactly when the transcript is.
   */
  function SummaryText(ts: seq<Turn>): (r: string)
    ensures r == "" <==> ts == []
  {
    JoinLines(TurnLines(ts))
  }

  /** Python's s.split("\n"): always at least one piece, and "" splits to [""]. */
  function SplitLines(s: string): (r: seq<string>)
    ensures |r| >= 1
  {
    if s == [] then [""]
    else
      var rest := SplitLines(s[1..]);
      if s[0] == Newline then [""] + rest else [[s[0]] + rest[0]] + rest[1..]
  }

  /** A piece without newline splits to itself; a newline after it starts the next piece. */
  lemma {:induction false} SplitAfterPiece(x: string, s: string)
    requires NoNewline(x)
    ensures SplitLines(x) == [x]
    ensures SplitLines(x + [Newline] + s) == [x] + SplitLines(s)
  {
    if x == [] {
      assert x + [Newline] + s == [Newline] + s;
      assert ([Newline] + s)[1..] == s;
    } else {
      SplitAfterPiece(x[1..], s);
      assert (x + [Newline] + s)[1..] == x[1..] + [Newline] + s;
      assert [x[0]] + x[1..] == x;
    }
  }

  /** Joining, then splitting, gives back every line, in order, when no line holds a newline. */
  lemma {:induction false} SplitJoin(lines: seq<string>)
    requires |lines| >= 1
    requires forall i :: 0 <= i < |lines| ==> NoNewline(lines[i])
    ensures SplitLines(JoinLines(lines)) == lines
  {
    if |lines| == 1 {
      SplitAfterPiece(lines[0], "");
    } else {
      SplitJoin(lines[1..]);
      SplitAfterPiece(lines[0], JoinLines(lines[1..]));
      assert [lines[0]] + lines[1..] == lines;
    }
  }

  lemma {:induction false} TurnLinesAt(ts: seq<Turn>, i: nat)
    requires i < |ts|
    ensures TurnLines(ts)[i] == TurnLine(ts[i])
  {
    if i > 0 {
      TurnLinesAt(ts[1..], i - 1);
    }
  }

  /**
   * The stored summary text holds exactly one "role: content" line per turn, in turn order,
   * provided no role or content holds a newline of its own; an empty transcript gives "".
   */
  lemma SummaryLines(ts: seq<Turn>)
    requires forall i :: 0 <= i < |ts| ==> NoNewline(ts[i].role) && NoNewline(ts[i].content)
    ensures ts == [] ==> SummaryText(ts) == ""
    ensures ts != [] ==> |SplitLines(SummaryText(ts))| == |ts|
    ensures ts != [] ==> forall i :: 0 <= i < |ts| ==> SplitLines(SummaryText(ts))[i] == TurnLine(ts[i])
  {
    if ts != [] {
      var lines := TurnLines(ts);
      forall i | 0 <= i < |lines|
        ensures NoNewline(lines[i]) && lines[i] == TurnLine(ts[i])
      {
        TurnLinesAt(ts, i);
        var l := TurnLine(ts[i]);
        forall k | 0 <= k < |l| ensures l[k] != Newline {
          if k < |ts[i].role| {
            assert l[k] == ts[i].role[k];
          } else if k >= |ts[i].role| + 2 {
            assert l[k] == ts[i].content[k - |ts[i].role| - 2];
          }
        }
      }
      SplitJoin(lines);
    }
  }
}
