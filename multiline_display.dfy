/** The multiline layout of `DataDisplay.updateText` in ftexplorer/gui.py.

    With multiline off, the dump lines are shown joined as they are. With
    it on, a line holding '=' keeps everything up to and including its
    first '=' and lays out the value after it one character at a time. A
    nesting level starts at 1.
    - '(' raises the level and ends the output piece after itself.
    - ')' lowers the level if it is above 1, and ends the piece before
      itself.
    - ',' ends the piece after itself, but only while the level is above 1.
    Each new piece is indented by four spaces per level. No character of
    the line is dropped, and none is moved.

    The layout is specified by the scan functions below (Step, ScanValue,
    FormatLine, DisplayText), and the method UpdateText computes it the
    way the source does. */
module MultilineDisplay {
  import opened PyBuiltins

  const EQUALS: char := '='
  const OPEN: char := '('
  const CLOSE: char := ')'
  const COMMA: char := ','
  const NEWLINE: char := '\n'
  const SPACE: char := ' '

  /** One piece of output: its nesting level when it was started (0 for the
      first piece of a line, which carries no indentation) and its text. */
  datatype Piece = Piece(indent: nat, body: string)

  function Spaces(n: nat): (s: string)
    ensures |s| == n && forall k :: 0 <= k < n ==> s[k] == SPACE
  {
    seq(n, _ => SPACE)
  }

  /** A piece still being built: its indentation and its text so far. */
  function Open(p: Piece): string
  {
    Spaces(4 * p.indent) + p.body
  }

  /** A piece a break has ended. */
  function Broken(p: Piece): string
  {
    Open(p) + [NEWLINE]
  }

  /** The output entries of finished pieces. */
  function RenderDone(done: seq<Piece>): (out: seq<string>)
    ensures |out| == |done| && forall k :: 0 <= k < |done| ==> out[k] == Broken(done[k])
  {
    seq(|done|, k requires 0 <= k < |done| => Broken(done[k]))
  }

  /** The output entries of a scan: every piece but the current one ends
      with a line break. */
  function Render(s: Scan): (out: seq<string>)
    ensures |out| == |s.done| + 1
  {
    RenderDone(s.done) + [Open(s.current)]
  }

  /** The state of the per-line loop: `indent_level`, the pieces already
      appended to the output, and the piece in `chars`. */
  datatype Scan = Scan(level: nat, done: seq<Piece>, current: Piece)

  function AllPieces(s: Scan): seq<Piece>
  {
    s.done + [s.current]
  }

  /** The loop body for one character of the value. */
  function Step(s: Scan, c: char): Scan
  {
    if c == OPEN then
      Scan(s.level + 1, s.done + [Piece(s.current.indent, s.current.body + [c])], Piece(s.level + 1, []))
    else if c == CLOSE then
      var level := if s.level > 1 then s.level - 1 else s.level;
      Scan(level, s.done + [s.current], Piece(level, [c]))
    else if c == COMMA && s.level > 1 then
      Scan(s.level, s.done + [Piece(s.current.indent, s.current.body + [c])], Piece(s.level, []))
    else
      Scan(s.level, s.done, Piece(s.current.indent, s.current.body + [c]))
  }

  /** The state after the characters of `v`, left to right. */
  function ScanValue(start: Scan, v: string): Scan
    decreases |v|
  {
    if |v| == 0 then start else Step(ScanValue(start, v[..|v| - 1]), v[|v| - 1])
  }

  /** Level 1, nothing output, and `head` (the text up to and including the
      first '=') in the first piece. */
  function Start(head: string): Scan
  {
    Scan(1, [], Piece(0, head))
  }

  /** The output entries of one dump line. */
  function FormatLine(line: string): (out: seq<string>)
    ensures EQUALS !in line ==> out == [line]
    ensures |out| >= 1
  {
    var parts := SplitOnce(line, EQUALS);
    if |parts| == 1 then [line]
    else Render(ScanValue(Start(parts[0] + [EQUALS]), parts[1]))
  }

  /** The pieces a line holding '=' is laid out in. */
  function LinePieces(line: string): (pieces: seq<Piece>)
    requires EQUALS in line
    ensures |pieces| >= 1
  {
    var parts := SplitOnce(line, EQUALS);
    AllPieces(ScanValue(Start(parts[0] + [EQUALS]), parts[1]))
  }

  /** The output list of the multiline branch, line after line. */
  function FormatLines(data: seq<string>): seq<string>
    decreases |data|
  {
    if |data| == 0 then [] else FormatLines(data[..|data| - 1]) + FormatLine(data[|data| - 1])
  }

  /** The text shown for a node's dump lines. */
  function DisplayText(data: seq<string>, multiline: bool): string
  {
    if multiline then Concat(FormatLines(data)) else Concat(data)
  }

  /** The inner loop of the multiline branch: lays out `value` after
      `head`, the text up to and including the line's first '='. */
  method FormatAssignment(head: string, value: string) returns (output: seq<string>)
    ensures output == Render(ScanValue(Start(head), value))
  {
    output := [];
    var indentLevel: nat := 1;
    var chars := head;
    ghost var s := Start(head);
    for i := 0 to |value|
      invariant s == ScanValue(Start(head), value[..i])
      invariant indentLevel == s.level
      invariant chars == Open(s.current)
      invariant output == RenderDone(s.done)
    {
      assert value[..i + 1][..i] == value[..i];
      var c := value[i];
      ghost var next := Step(s, c);
      if c == OPEN {
        indentLevel := indentLevel + 1;
        chars := chars + [c] + [NEWLINE];
        assert chars == Broken(next.done[|s.done|]);
        output := output + [chars];
        chars := Spaces(indentLevel * 4);
      } else if c == CLOSE {
        if indentLevel > 1 {
          indentLevel := indentLevel - 1;
        }
        chars := chars + [NEWLINE];
        output := output + [chars];
        chars := Spaces(indentLevel * 4);
        chars := chars + [c];
      } else if c == COMMA && indentLevel > 1 {
        chars := chars + [c] + [NEWLINE];
        assert chars == Broken(next.done[|s.done|]);
        output := output + [chars];
        chars := Spaces(indentLevel * 4);
      } else {
        chars := chars + [c];
      }
      assert output == RenderDone(next.done);
      s := next;
    }
    assert value[..|value|] == value;
    output := output + [chars];
  }

  /** `updateText`, for a node whose dump lines are `data` and with the
      multiline toggle `doMultiline`. */
  method UpdateText(data: seq<string>, doMultiline: bool) returns (text: string)
    ensures text == DisplayText(data, doMultiline)
  {
    var output: seq<string> := [];
    if doMultiline {
      for n := 0 to |data|
        invariant output == FormatLines(data[..n])
      {
        assert data[..n + 1][..n] == data[..n];
        var line := data[n];
        var parts := SplitOnce(line, EQUALS);
        if |parts| == 1 {
          output := output + [line];
        } else {
          var pieces := FormatAssignment(parts[0] + [EQUALS], parts[1]);
          output := output + pieces;
        }
      }
      assert data[..|data|] == data;
    } else {
      output := data;
    }
    text := Concat(output);
  }

  // ---------------------------------------------------------------------
  // What the layout guarantees

  function Bodies(pieces: seq<Piece>): (bodies: seq<string>)
    ensures |bodies| == |pieces| && forall k :: 0 <= k < |pieces| ==> bodies[k] == pieces[k].body
  {
    seq(|pieces|, k requires 0 <= k < |pieces| => pieces[k].body)
  }

  predicate EndsWith(s: string, c: char)
  {
    |s| > 0 && s[|s| - 1] == c
  }

  /** The layout invariant of a scan that started from `head`: the level
      never drops below 1; the first piece is unindented and begins with
      `head`; every later piece is indented by its level; every break is
      justified by a '(' before it, a ')' after it, or a ',' before it at a
      level above 1; and past `head`, a '(' only ever ends a finished
      piece, a ')' only ever starts a later piece, and a ',' in a piece
      indented above level 1 only ever ends a finished piece. */
  ghost predicate Laid(s: Scan, head: string)
  {
    var ps := AllPieces(s);
    && s.level >= 1
    && ps[0].indent == 0
    && head <= ps[0].body
    && (forall k :: 1 <= k < |ps| ==> ps[k].indent >= 1)
    && (|s.done| == 0 ==> s.level == 1)
    && (|s.done| > 0 ==> s.current.indent == s.level)
    && (forall k :: 0 <= k < |s.done| ==>
          || EndsWith(s.done[k].body, OPEN)
          || (EndsWith(s.done[k].body, COMMA) && ps[k + 1].indent > 1)
          || (|ps[k + 1].body| > 0 && ps[k + 1].body[0] == CLOSE))
    && (forall k, i :: 0 <= k < |ps| && 0 <= i < |ps[k].body| && (k > 0 || i >= |head|) ==>
          && (ps[k].body[i] == OPEN ==> k < |s.done| && i == |ps[k].body| - 1)
          && (ps[k].body[i] == CLOSE ==> k > 0 && i == 0)
          && (ps[k].body[i] == COMMA && ps[k].indent > 1 ==> k < |s.done| && i == |ps[k].body| - 1))
  }

  /** A character that only extends the current piece. */
  lemma ExtendLaid(s: Scan, c: char, head: string)
    requires Laid(s, head)
    requires c != OPEN && c != CLOSE && !(c == COMMA && s.level > 1)
    ensures Laid(Step(s, c), head)
  {
    var ps := AllPieces(s);
    var qs := AllPieces(Step(s, c));
    assert |qs| == |ps|;
    assert forall k :: 0 <= k < |s.done| ==> qs[k] == ps[k];
    assert qs[|s.done|] == Piece(s.current.indent, s.current.body + [c]);
    assert head <= qs[0].body;
  }

  /** A character that ends the current piece after itself: '(' or, above
      level 1, ','. */
  lemma BreakAfterLaid(s: Scan, c: char, head: string)
    requires Laid(s, head)
    requires c == OPEN || (c == COMMA && s.level > 1)
    ensures Laid(Step(s, c), head)
  {
    var t := Step(s, c);
    var ps := AllPieces(s);
    var qs := AllPieces(t);
    var n := |s.done|;
    assert |qs| == n + 2;
    assert forall k :: 0 <= k < n ==> qs[k] == ps[k];
    assert qs[n] == Piece(s.current.indent, s.current.body + [c]);
    assert qs[n + 1] == Piece(t.level, []);
    assert head <= qs[0].body;
    forall k, i | 0 <= k < |qs| && 0 <= i < |qs[k].body| && (k > 0 || i >= |head|)
      ensures && (qs[k].body[i] == OPEN ==> k < |t.done| && i == |qs[k].body| - 1)
              && (qs[k].body[i] == CLOSE ==> k > 0 && i == 0)
              && (qs[k].body[i] == COMMA && qs[k].indent > 1 ==> k < |t.done| && i == |qs[k].body| - 1)
    {
      if k == n && i < |s.current.body| {
        assert qs[k].body[i] == ps[k].body[i];
      }
    }
  }

  /** ')' ends the current piece before itself. */
  lemma BreakBeforeLaid(s: Scan, head: string)
    requires Laid(s, head)
    ensures Laid(Step(s, CLOSE), head)
  {
    var t := Step(s, CLOSE);
    var ps := AllPieces(s);
    var qs := AllPieces(t);
    var n := |s.done|;
    assert |qs| == n + 2;
    assert forall k :: 0 <= k <= n ==> qs[k] == ps[k];
    assert qs[n + 1] == Piece(t.level, [CLOSE]);
  }

  lemma StepLaid(s: Scan, c: char, head: string)
    requires Laid(s, head)
    ensures Laid(Step(s, c), head)
  {
    if c == CLOSE {
      BreakBeforeLaid(s, head);
    } else if c == OPEN || (c == COMMA && s.level > 1) {
      BreakAfterLaid(s, c, head);
    } else {
      ExtendLaid(s, c, head);
    }
  }

  /** Laying out any value from a start state keeps the layout invariant. */
  lemma {:induction false} ScanLaid(head: string, v: string)
    ensures Laid(ScanValue(Start(head), v), head)
    decreases |v|
  {
    if |v| > 0 {
      ScanLaid(head, v[..|v| - 1]);
      StepLaid(ScanValue(Start(head), v[..|v| - 1]), v[|v| - 1], head);
    }
  }

  /** Everything a scan has consumed, in order. */
  function Text(s: Scan): string
  {
    Concat(Bodies(AllPieces(s)))
  }

  lemma TextOfPieces(done: seq<Piece>, p: Piece)
    ensures Concat(Bodies(done + [p])) == Concat(Bodies(done)) + p.body
  {
    assert Bodies(done + [p]) == Bodies(done) + [p.body];
    ConcatAppend(Bodies(done), [p.body]);
    assert Concat([p.body]) == p.body + Concat([]);
  }

  lemma StepText(s: Scan, c: char)
    ensures Text(Step(s, c)) == Text(s) + [c]
  {
    var t := Step(s, c);
    TextOfPieces(s.done, s.current);
    TextOfPieces(t.done, t.current);
    if c == OPEN || (c == COMMA && s.level > 1) {
      TextOfPieces(s.done, Piece(s.current.indent, s.current.body + [c]));
    } else if c == CLOSE {
      TextOfPieces(s.done, s.current);
    }
  }

  /** No character is dropped, added or moved: the pieces' texts, joined,
      are the head followed by the value. */
  lemma {:induction false} ScanText(head: string, v: string)
    ensures Text(ScanValue(Start(head), v)) == head + v
    decreases |v|
  {
    if |v| == 0 {
      TextOfPieces([], Piece(0, head));
    } else {
      var init := v[..|v| - 1];
      ScanText(head, init);
      StepText(ScanValue(Start(head), init), v[|v| - 1]);
      assert init + [v[|v| - 1]] == v;
    }
  }

  /** The nesting depth after the characters of `v`, counted on its own:
      it starts at 1, each '(' adds one, and each ')' takes one away unless
      the depth is already 1. */
  function Depth(v: string): (d: nat)
    ensures d >= 1
    decreases |v|
  {
    if |v| == 0 then 1
    else
      var d := Depth(v[..|v| - 1]);
      var c := v[|v| - 1];
      if c == OPEN then d + 1
      else if c == CLOSE && d > 1 then d - 1
      else d
  }

  predicate StartsWithClose(body: string)
  {
    |body| > 0 && body[0] == CLOSE
  }

  /** How many characters of the value lie before piece k begins, counting
      the ')' that begins a piece as before it: the point in the value at
      which piece k was opened. */
  function OpenedAt(ps: seq<Piece>, k: nat, head: string): int
    requires k < |ps|
  {
    |Concat(Bodies(ps[..k]))| - |head| + (if StartsWithClose(ps[k].body) then 1 else 0)
  }

  /** Piece k is indented by the depth of the value at the point where it
      was opened. */
  ghost predicate PieceFollowsDepth(ps: seq<Piece>, k: nat, head: string, v: string)
    requires k < |ps|
  {
    && 0 <= OpenedAt(ps, k, head) <= |v|
    && ps[k].indent == Depth(v[..OpenedAt(ps, k, head)])
  }

  /** Every piece after the first follows the depth, and the loop's level is
      the depth of the whole value. */
  ghost predicate IndentsFollowDepth(s: Scan, head: string, v: string)
  {
    var ps := AllPieces(s);
    && s.level == Depth(v)
    && forall k :: 1 <= k < |ps| ==> PieceFollowsDepth(ps, k, head, v)
  }

  /** A piece opened earlier keeps its indent and opening point when one
      more character is read. */
  lemma OldPieceFollowsDepth(ps: seq<Piece>, qs: seq<Piece>, k: nat, head: string, v: string, c: char)
    requires k < |ps| && k < |qs|
    requires qs[..k] == ps[..k] && qs[k].indent == ps[k].indent
    requires StartsWithClose(qs[k].body) == StartsWithClose(ps[k].body)
    requires PieceFollowsDepth(ps, k, head, v)
    ensures PieceFollowsDepth(qs, k, head, v + [c])
  {
    var n := OpenedAt(ps, k, head);
    assert OpenedAt(qs, k, head) == n;
    assert (v + [c])[..n] == v[..n];
  }

  /** A piece opened by the character just read is indented by the new
      depth. */
  lemma NewPieceFollowsDepth(qs: seq<Piece>, k: nat, head: string, w: string)
    requires k < |qs|
    requires OpenedAt(qs, k, head) == |w| && qs[k].indent == Depth(w)
    ensures PieceFollowsDepth(qs, k, head, w)
  {
    assert w[..|w|] == w;
  }

  lemma DepthStep(s: Scan, c: char, head: string, v: string)
    requires Text(s) == head + v
    requires IndentsFollowDepth(s, head, v)
    ensures IndentsFollowDepth(Step(s, c), head, v + [c])
  {
    var t := Step(s, c);
    var ps := AllPieces(s);
    var qs := AllPieces(t);
    var w := v + [c];
    var n := |s.done|;
    assert w[..|w| - 1] == v;
    assert t.level == Depth(w);
    forall k | 1 <= k <= n
      ensures PieceFollowsDepth(qs, k, head, w)
    {
      assert qs[..k] == ps[..k];
      OldPieceFollowsDepth(ps, qs, k, head, v, c);
    }
    if c == OPEN || (c == COMMA && s.level > 1) {
      assert qs[..n + 1] == s.done + [qs[n]];
      TextOfPieces(s.done, qs[n]);
      TextOfPieces(s.done, s.current);
      NewPieceFollowsDepth(qs, n + 1, head, w);
    } else if c == CLOSE {
      assert qs[..n + 1] == s.done + [s.current];
      TextOfPieces(s.done, s.current);
      NewPieceFollowsDepth(qs, n + 1, head, w);
    }
  }

  /** The indentation of every piece is the nesting depth, defined apart
      from the loop, at the point of the value where the piece was opened. */
  lemma {:induction false} ScanDepth(head: string, v: string)
    ensures IndentsFollowDepth(ScanValue(Start(head), v), head, v)
    decreases |v|
  {
    if |v| > 0 {
      var init := v[..|v| - 1];
      ScanDepth(head, init);
      ScanText(head, init);
      DepthStep(ScanValue(Start(head), init), v[|v| - 1], head, init);
      assert init + [v[|v| - 1]] == v;
    }
  }

  /** A line holding '=' is laid out as pieces, each output as four spaces
      per level of indentation, its text and, for all but the last, a line
      break. Without that layout the pieces give the line back. The first piece
      starts with the line up to and including its first '=' and is not
      indented; the breaks obey the rules of Laid. */
  lemma LinePiecesLayout(line: string)
    requires EQUALS in line
    ensures var ps := LinePieces(line);
            var head := line[..IndexOf(line, EQUALS) + 1];
            var out := FormatLine(line);
            && Concat(Bodies(ps)) == line
            && |out| == |ps|
            && (forall k :: 0 <= k < |ps| - 1 ==> out[k] == Spaces(4 * ps[k].indent) + ps[k].body + [NEWLINE])
            && out[|ps| - 1] == Spaces(4 * ps[|ps| - 1].indent) + ps[|ps| - 1].body
            && ps[0].indent == 0
            && head <= ps[0].body
            && forall k :: 1 <= k < |ps| ==> ps[k].indent >= 1
  {
    var parts := SplitOnce(line, EQUALS);
    var head := parts[0] + [EQUALS];
    ScanLaid(head, parts[1]);
    ScanText(head, parts[1]);
    RenderLayout(ScanValue(Start(head), parts[1]));
    HeadOfLine(line);
  }

  /** The rendered lines are the pieces, each indented, all but the last
      followed by a line break. */
  lemma RenderLayout(s: Scan)
    ensures var ps := AllPieces(s);
            var out := Render(s);
            && |out| == |ps|
            && (forall k :: 0 <= k < |ps| - 1 ==> out[k] == Spaces(4 * ps[k].indent) + ps[k].body + [NEWLINE])
            && out[|ps| - 1] == Spaces(4 * ps[|ps| - 1].indent) + ps[|ps| - 1].body
  {
  }

  /** The head of a line holding '=' is its text up to and including the
      first '='. */
  lemma HeadOfLine(line: string)
    requires EQUALS in line
    ensures var parts := SplitOnce(line, EQUALS);
            && IndexOf(line, EQUALS) == |parts[0]|
            && line[..IndexOf(line, EQUALS) + 1] == parts[0] + [EQUALS]
  {
    var parts := SplitOnce(line, EQUALS);
    assert forall k :: 0 <= k < |parts[0]| ==> line[k] == parts[0][k];
    assert IndexOf(line, EQUALS) == |parts[0]|;
    assert line[..|parts[0]| + 1] == parts[0] + [EQUALS];
  }

  /** Where breaks go in a line holding '=': each is justified, and past
      the head every '(' ends a piece, every ')' starts one, and every ','
      at a level above 1 ends one. */
  lemma LineBreaks(line: string)
    requires EQUALS in line
    ensures var ps := LinePieces(line);
            var headLength := IndexOf(line, EQUALS) + 1;
            && (forall k :: 0 <= k < |ps| - 1 ==>
                  || EndsWith(ps[k].body, OPEN)
                  || (EndsWith(ps[k].body, COMMA) && ps[k + 1].indent > 1)
                  || (|ps[k + 1].body| > 0 && ps[k + 1].body[0] == CLOSE))
            && (forall k, i :: 0 <= k < |ps| && 0 <= i < |ps[k].body| && (k > 0 || i >= headLength) ==>
                  && (ps[k].body[i] == OPEN ==> k < |ps| - 1 && i == |ps[k].body| - 1)
                  && (ps[k].body[i] == CLOSE ==> k > 0 && i == 0)
                  && (ps[k].body[i] == COMMA && ps[k].indent > 1 ==> k < |ps| - 1 && i == |ps[k].body| - 1))
  {
    var parts := SplitOnce(line, EQUALS);
    var head := parts[0] + [EQUALS];
    ScanLaid(head, parts[1]);
    assert forall k :: 0 <= k < |parts[0]| ==> line[k] == parts[0][k];
    assert IndexOf(line, EQUALS) == |parts[0]|;
  }

  /** Lines without '=' are shown unchanged: when no line holds one, the
      multiline text is the plain text. */
  lemma {:induction false} NoAssignmentsUnchanged(data: seq<string>)
    requires forall k :: 0 <= k < |data| ==> EQUALS !in data[k]
    ensures DisplayText(data, true) == DisplayText(data, false)
    ensures FormatLines(data) == data
    decreases |data|
  {
    if |data| > 0 {
      NoAssignmentsUnchanged(data[..|data| - 1]);
      assert data[..|data| - 1] + [data[|data| - 1]] == data;
    }
  }
}
