/** The text helpers of the sentence collection's tests
    (server/test/SentenceCollection.ts): `getText`, which cuts a range out
    of a text by pairing each line with the line breaks that follow it, and
    `makeChange`, which builds a content change with its range length; and
    the protocol's reading of a batch of content changes, applied one after
    the other, against which the tests state their expected texts. */
module TextEdits {
  import opened Wrappers
  import opened JsText
  import opened Positions

  predicate IsLineBreakChar(c: char)
  {
    c == '\r' || c == '\n'
  }

  /** No line break in `s`. */
  predicate NoBreaks(s: string)
  {
    forall i :: 0 <= i < |s| ==> !IsLineBreakChar(s[i])
  }

  // ---------------------------------------------------------------------
  // text.split(/\r\n|\n\r|\n/)
  // ---------------------------------------------------------------------

  /** The length of the separator `\r\n`, `\n\r` or `\n` matched at the head
      of `s`, alternatives tried in that order; 0 when none matches. */
  function SeparatorAt(s: string): (r: nat)
    ensures r <= |s|
    ensures r > 0 ==> s[0] == '\r' || s[0] == '\n'
  {
    if |s| >= 2 && s[0] == '\r' && s[1] == '\n' then 2
    else if |s| >= 2 && s[0] == '\n' && s[1] == '\r' then 2
    else if |s| >= 1 && s[0] == '\n' then 1
    else 0
  }

  function SplitLinesFrom(s: string, current: string): (r: seq<string>)
    requires '\n' !in current
    ensures |r| >= 1
    ensures forall i :: 0 <= i < |r| ==> '\n' !in r[i]
    decreases |s|
  {
    if s == [] then [current]
    else if SeparatorAt(s) > 0 then [current] + SplitLinesFrom(s[SeparatorAt(s)..], [])
    else SplitLinesFrom(s[1..], current + [s[0]])
  }

  /** `text.split(/\r\n|\n\r|\n/)`: the lines, none holding a `\n`. */
  function SplitLines(text: string): (r: seq<string>)
    ensures |r| >= 1
    ensures forall i :: 0 <= i < |r| ==> '\n' !in r[i]
  {
    SplitLinesFrom(text, [])
  }

  // ---------------------------------------------------------------------
  // text.split(/[^\r\n]+/), then shift()
  // ---------------------------------------------------------------------

  /** `s` without its longest prefix free of line breaks. */
  function DropText(s: string): (r: string)
    ensures |r| <= |s| && r == s[|s| - |r|..]
    ensures s != [] && !IsLineBreakChar(s[0]) ==> |r| < |s|
    ensures r == [] || IsLineBreakChar(r[0])
  {
    if s == [] || IsLineBreakChar(s[0]) then s else DropText(s[1..])
  }

  predicate OnlyBreaks(s: string)
  {
    forall i :: 0 <= i < |s| ==> IsLineBreakChar(s[i])
  }

  function SplitRunsFrom(s: string, current: string): (r: seq<string>)
    requires OnlyBreaks(current)
    ensures |r| >= 1
    ensures forall i :: 0 <= i < |r| ==> OnlyBreaks(r[i])
    decreases |s|
  {
    if s == [] then [current]
    else if IsLineBreakChar(s[0]) then SplitRunsFrom(s[1..], current + [s[0]])
    else [current] + SplitRunsFrom(DropText(s), [])
  }

  /** `newLines`: the runs of line breaks after each stretch of text. */
  function NewLines(text: string): (r: seq<string>)
    ensures forall i :: 0 <= i < |r| ==> OnlyBreaks(r[i])
  {
    SplitRunsFrom(text, [])[1..]
  }

  // ---------------------------------------------------------------------
  // getText and makeChange
  // ---------------------------------------------------------------------

  /** `lineAt(l)`: `lines[l] + newLines[l]`, where a missing entry reads as
      `undefined`; with both missing the sum is not a number, which has no
      `substring`. */
  function LineAt(lines: seq<string>, newLines: seq<string>, l: nat): (r: Result<string, string>)
    ensures r.Failure? <==> l >= |lines| && l >= |newLines|
    ensures l < |lines| && l < |newLines| ==> r == Success(lines[l] + newLines[l])
  {
    if l < |lines| && l < |newLines| then Success(lines[l] + newLines[l])
    else if l < |lines| then Success(lines[l] + "undefined")
    else if l < |newLines| then Success("undefined" + newLines[l])
    else Failure("TypeError: substring is not a function")
  }

  /** `newLines[k]` inside a string concatenation. */
  function BreaksAfter(newLines: seq<string>, k: nat): string
  {
    if k < |newLines| then newLines[k] else "undefined"
  }

  /** `lines.slice(from, to).map((l, idx) => l + newLines[idx + from]).join('')`. */
  function MiddleLines(lines: seq<string>, newLines: seq<string>, from: nat, to: nat): string
    decreases to - from
  {
    if from >= to || from >= |lines| then []
    else lines[from] + BreaksAfter(newLines, from) + MiddleLines(lines, newLines, from + 1, to)
  }

  /** The body of `getText`, given the lines and the line-break runs. */
  function GetTextOf(lines: seq<string>, newLines: seq<string>, range: Range): (r: Result<string, string>)
    ensures r.Failure? ==>
      (range.start.line >= |lines| && range.start.line >= |newLines|) ||
      (range.end.line >= |lines| && range.end.line >= |newLines|)
  {
    match LineAt(lines, newLines, range.start.line)
    case Failure(e) => Failure(e)
    case Success(first) =>
      if range.start.line == range.end.line then
        Success(Substring(first, range.start.character, range.end.character))
      else
        match LineAt(lines, newLines, range.end.line)
        case Failure(e) => Failure(e)
        case Success(last) =>
          Success(Substring(first, range.start.character, |first|) +
                  MiddleLines(lines, newLines, range.start.line + 1, range.end.line) +
                  Substring(last, 0, range.end.character))
  }

  /** `getText(text, range)`. */
  function GetText(text: string, range: Range): (r: Result<string, string>)
    ensures r.Failure? ==>
      (range.start.line >= |SplitLines(text)| && range.start.line >= |NewLines(text)|) ||
      (range.end.line >= |SplitLines(text)| && range.end.line >= |NewLines(text)|)
  {
    GetTextOf(SplitLines(text), NewLines(text), range)
  }

  /** A content change of the protocol, with its optional range length. */
  datatype ContentChange = ContentChange(range: Range, text: string, rangeLength: nat)

  /** `makeChange`: the change replacing the range by `text`, measured
      with `getText` on the text before the change. */
  function MakeChange(docText: string, startLine: nat, startCharacter: nat, endLine: nat, endCharacter: nat,
                      text: string): (r: Result<ContentChange, string>)
    ensures r.Success? <==> GetText(docText, Range(Position(startLine, startCharacter), Position(endLine, endCharacter))).Success?
    ensures r.Success? ==>
      r.value.range == Range(Position(startLine, startCharacter), Position(endLine, endCharacter)) &&
      r.value.text == text &&
      r.value.rangeLength == |GetText(docText, r.value.range).value|
  {
    var range := Range(Position(startLine, startCharacter), Position(endLine, endCharacter));
    match GetText(docText, range)
    case Failure(e) => Failure(e)
    case Success(t) => Success(ContentChange(range, text, |t|))
  }

  // ---------------------------------------------------------------------
  // The protocol's offsets and content changes
  // ---------------------------------------------------------------------

  /** The length of the first line of `s`, without its line break. */
  function LineContentLength(s: string): (r: nat)
    ensures r <= |s| && NoBreaks(s[..r])
    ensures r < |s| ==> IsLineBreakChar(s[r])
  {
    if s == [] || IsLineBreakChar(s[0]) then 0
    else
      var n := LineContentLength(s[1..]);
      assert s[..n + 1] == [s[0]] + s[1..][..n];
      n + 1
  }

  /** The length of the line break `\r\n`, `\r` or `\n` at the head of `s`. */
  function BreakLength(s: string): (r: nat)
    ensures r <= |s|
    ensures r == 0 <==> s == [] || !IsLineBreakChar(s[0])
  {
    if |s| >= 2 && s[0] == '\r' && s[1] == '\n' then 2
    else if |s| >= 1 && IsLineBreakChar(s[0]) then 1
    else 0
  }

  /** The offset of a position: a character past the end of its line
      stands for the line's end, a line past the last for the end of the
      text. */
  function OffsetAt(s: string, p: Position): (r: nat)
    ensures r <= |s|
    decreases |s|
  {
    var content := LineContentLength(s);
    var brk := BreakLength(s[content..]);
    if p.line == 0 then (if p.character <= content then p.character else content)
    else if brk == 0 then |s|
    else content + brk + OffsetAt(s[content + brk..], Position(p.line - 1, p.character))
  }

  /** One content change: the text between the offsets of the range's ends
      replaced by the new text. */
  function ApplyChange(text: string, change: ContentChange): (r: string)
    ensures OffsetAt(text, change.range.start) <= OffsetAt(text, change.range.end) ==>
      |r| == |text| - (OffsetAt(text, change.range.end) - OffsetAt(text, change.range.start)) + |change.text|
  {
    text[..OffsetAt(text, change.range.start)] + change.text + text[OffsetAt(text, change.range.end)..]
  }

  /** A batch of content changes, each applied to the text the previous
      ones produced. */
  function ApplyChanges(text: string, changes: seq<ContentChange>): string
    decreases |changes|
  {
    if changes == [] then text else ApplyChanges(ApplyChange(text, changes[0]), changes[1..])
  }

  /** Applying a batch at once or split in two successive batches gives
      the same text. */
  lemma {:induction false} ApplyChangesSplit(text: string, a: seq<ContentChange>, b: seq<ContentChange>)
    ensures ApplyChanges(text, a + b) == ApplyChanges(ApplyChanges(text, a), b)
    decreases |a|
  {
    if a != [] {
      assert (a + b)[1..] == a[1..] + b;
      ApplyChangesSplit(ApplyChange(text, a[0]), a[1..], b);
    } else {
      assert a + b == b;
    }
  }

  // ---------------------------------------------------------------------
  // Texts made of lines each ended by a newline
  // ---------------------------------------------------------------------

  /** A non-empty line without line breaks. */
  predicate PlainLine(l: string)
  {
    |l| > 0 && NoBreaks(l)
  }

  predicate PlainLines(ls: seq<string>)
  {
    forall i :: 0 <= i < |ls| ==> PlainLine(ls[i])
  }

  lemma PlainLinesTail(ls: seq<string>)
    requires PlainLines(ls) && ls != []
    ensures PlainLines(ls[1..])
  {
    assert forall i :: 0 <= i < |ls[1..]| ==> ls[1..][i] == ls[i + 1];
  }

  /** The lines, each followed by a newline. */
  function Terminated(ls: seq<string>): string
    decreases |ls|
  {
    if ls == [] then [] else ls[0] + "\n" + Terminated(ls[1..])
  }

  lemma {:induction false} TerminatedAppend(a: seq<string>, b: seq<string>)
    ensures Terminated(a + b) == Terminated(a) + Terminated(b)
    decreases |a|
  {
    if a == [] {
      assert a + b == b;
    } else {
      assert (a + b)[1..] == a[1..] + b;
      TerminatedAppend(a[1..], b);
    }
  }

  /** A terminated text starts with a line's first character, or is empty. */
  lemma TerminatedHead(ls: seq<string>)
    requires PlainLines(ls)
    ensures Terminated(ls) == [] || !IsLineBreakChar(Terminated(ls)[0])
  {
    if ls != [] {
      assert Terminated(ls)[0] == ls[0][0];
    }
  }

  /** The offset of a position of such a text, counted line by line. */
  function Offset(ls: seq<string>, p: Position): nat
    requires p.line <= |ls|
  {
    |Terminated(ls[..p.line])| + p.character
  }

  /** A position on a line, not past its last character, or the start of
      the empty line after the last newline. */
  predicate ValidPosition(ls: seq<string>, p: Position)
  {
    (p.line < |ls| && p.character <= |ls[p.line]|) || (p.line == |ls| && p.character == 0)
  }

  lemma {:induction false} SplitLinesAcrossText(l: string, rest: string, current: string)
    requires NoBreaks(l) && '\n' !in current
    ensures '\n' !in current + l
    ensures SplitLinesFrom(l + rest, current) == SplitLinesFrom(rest, current + l)
    decreases |l|
  {
    assert forall i :: 0 <= i < |current + l| ==> (current + l)[i] != '\n' by {
      forall i | 0 <= i < |current + l|
        ensures (current + l)[i] != '\n'
      {
        if i < |current| {
          assert (current + l)[i] == current[i] && current[i] in current;
        } else {
          assert (current + l)[i] == l[i - |current|];
        }
      }
    }
    if l == [] {
      assert l + rest == rest;
      assert current + l == current;
    } else {
      var s := l + rest;
      assert s[0] == l[0] && SeparatorAt(s) == 0;
      assert s[1..] == l[1..] + rest;
      assert current + [l[0]] + l[1..] == current + l;
      SplitLinesAcrossText(l[1..], rest, current + [l[0]]);
    }
  }

  /** Such a text splits back into its lines and the empty last line. */
  lemma {:induction false} SplitLinesTerminated(ls: seq<string>)
    requires PlainLines(ls)
    ensures SplitLines(Terminated(ls)) == ls + [[]]
    decreases |ls|
  {
    if ls != [] {
      var rest := Terminated(ls[1..]);
      PlainLinesTail(ls);
      TerminatedHead(ls[1..]);
      assert Terminated(ls) == ls[0] + ("\n" + rest);
      SplitLinesAcrossText(ls[0], "\n" + rest, []);
      assert [] + ls[0] == ls[0];
      assert SeparatorAt("\n" + rest) == 1;
      assert ("\n" + rest)[1..] == rest;
      SplitLinesTerminated(ls[1..]);
      assert ls == [ls[0]] + ls[1..];
    }
  }

  lemma {:induction false} DropTextAcrossLine(l: string, rest: string)
    requires NoBreaks(l)
    requires rest == [] || IsLineBreakChar(rest[0])
    ensures DropText(l + rest) == rest
    decreases |l|
  {
    if l == [] {
      assert l + rest == rest;
    } else {
      assert (l + rest)[0] == l[0];
      assert (l + rest)[1..] == l[1..] + rest;
      DropTextAcrossLine(l[1..], rest);
    }
  }

  /** `n` entries `"\n"`. */
  function Newlines(n: nat): (r: seq<string>)
    ensures |r| == n
    ensures forall i :: 0 <= i < n ==> r[i] == "\n"
  {
    if n == 0 then [] else Newlines(n - 1) + ["\n"]
  }

  /** One line of such a text: its text is dropped and its newline starts
      the next run. */
  lemma SplitRunsLine(l: string, rest: string, current: string)
    requires PlainLine(l) && OnlyBreaks(current)
    requires rest == [] || !IsLineBreakChar(rest[0])
    ensures SplitRunsFrom(l + ("\n" + rest), current) == [current] + SplitRunsFrom(rest, "\n")
  {
    var s := l + ("\n" + rest);
    assert s[0] == l[0];
    DropTextAcrossLine(l, "\n" + rest);
    var t := "\n" + rest;
    assert t[0] == '\n' && t[1..] == rest;
    assert SplitRunsFrom(t, []) == SplitRunsFrom(rest, [] + ['\n']);
    assert [] + ['\n'] == "\n";
  }

  lemma NewlinesCons(n: nat)
    requires n > 0
    ensures Newlines(n) == ["\n"] + Newlines(n - 1)
  {
    assert forall i :: 0 <= i < n ==> Newlines(n)[i] == (["\n"] + Newlines(n - 1))[i];
  }

  /** One step of the induction below: the runs of a text led by a line
      given the runs of the rest. */
  lemma SplitRunsStep(ls: seq<string>, current: string)
    requires PlainLines(ls) && OnlyBreaks(current) && ls != []
    requires SplitRunsFrom(Terminated(ls[1..]), "\n") == ["\n"] + Newlines(|ls| - 1)
    ensures SplitRunsFrom(Terminated(ls), current) == [current] + Newlines(|ls|)
  {
    assert Terminated(ls) == ls[0] + ("\n" + Terminated(ls[1..]));
    PlainLinesTail(ls);
    TerminatedHead(ls[1..]);
    SplitRunsLine(ls[0], Terminated(ls[1..]), current);
    NewlinesCons(|ls|);
  }

  lemma {:induction false} SplitRunsTerminated(ls: seq<string>, current: string)
    requires PlainLines(ls) && OnlyBreaks(current)
    ensures SplitRunsFrom(Terminated(ls), current) == [current] + Newlines(|ls|)
    decreases |ls|
  {
    if ls != [] {
      PlainLinesTail(ls);
      SplitRunsTerminated(ls[1..], "\n");
      SplitRunsStep(ls, current);
    } else {
      assert Newlines(0) == [];
    }
  }

  /** The line breaks of such a text: one `"\n"` per line. */
  lemma NewLinesTerminated(ls: seq<string>)
    requires PlainLines(ls)
    ensures NewLines(Terminated(ls)) == Newlines(|ls|)
  {
    SplitRunsTerminated(ls, []);
  }

  /** The middle lines with their newlines are the terminated lines
      between the two. */
  lemma {:induction false} MiddleLinesTerminated(ls: seq<string>, from: nat, to: nat)
    requires from <= to <= |ls|
    ensures MiddleLines(ls + [[]], Newlines(|ls|), from, to) == Terminated(ls[from..to])
    decreases |ls| - from
  {
    if from < to {
      MiddleLinesTerminated(ls, from + 1, to);
      assert (ls + [[]])[from] == ls[from];
      assert ls[from..to][1..] == ls[from + 1..to];
    } else {
      assert ls[from..to] == [];
    }
  }

  lemma LineContentOfLine(l: string, rest: string)
    requires NoBreaks(l)
    requires rest == [] || IsLineBreakChar(rest[0])
    ensures LineContentLength(l + rest) == |l|
    decreases |l|
  {
    if l != [] {
      assert (l + rest)[1..] == l[1..] + rest;
      LineContentOfLine(l[1..], rest);
    } else {
      assert l + rest == rest;
    }
  }

  /** A plain line, its newline and a text that does not start with a
      line break, as the protocol's offsets read them. */
  lemma FirstLineOf(l: string, rest: string)
    requires PlainLine(l)
    requires rest == [] || !IsLineBreakChar(rest[0])
    ensures LineContentLength(l + ("\n" + rest)) == |l|
    ensures BreakLength((l + ("\n" + rest))[|l|..]) == 1
    ensures (l + ("\n" + rest))[|l| + 1..] == rest
  {
    LineContentOfLine(l, "\n" + rest);
    assert (l + ("\n" + rest))[|l|..] == "\n" + rest;
  }

  /** The first line of such a text: its content, one line break, and the
      rest of the lines. */
  lemma FirstLineOfTerminated(ls: seq<string>)
    requires PlainLines(ls) && ls != []
    ensures |ls[0]| + 1 <= |Terminated(ls)|
    ensures LineContentLength(Terminated(ls)) == |ls[0]|
    ensures BreakLength(Terminated(ls)[|ls[0]|..]) == 1
    ensures Terminated(ls)[|ls[0]| + 1..] == Terminated(ls[1..])
  {
    assert Terminated(ls) == ls[0] + ("\n" + Terminated(ls[1..]));
    PlainLinesTail(ls);
    TerminatedHead(ls[1..]);
    FirstLineOf(ls[0], Terminated(ls[1..]));
  }

  /** Counted line by line, a position past the first line lies the first
      line and its newline further on. */
  lemma OffsetTail(ls: seq<string>, p: Position)
    requires 0 < p.line <= |ls|
    ensures Offset(ls, p) == |ls[0]| + 1 + Offset(ls[1..], Position(p.line - 1, p.character))
  {
    assert ls[..p.line] == [ls[0]] + ls[1..][..p.line - 1];
    assert ([ls[0]] + ls[1..][..p.line - 1])[1..] == ls[1..][..p.line - 1];
  }

  /** The protocol's offset of a valid position of such a text is its
      offset counted line by line. */
  lemma {:induction false} OffsetAtTerminated(ls: seq<string>, p: Position)
    requires PlainLines(ls) && ValidPosition(ls, p)
    ensures OffsetAt(Terminated(ls), p) == Offset(ls, p)
    decreases |ls|
  {
    if ls == [] {
      assert ls[..0] == [];
    } else {
      FirstLineOfTerminated(ls);
      assert ls[..0] == [];
      if p.line > 0 {
        PlainLinesTail(ls);
        OffsetAtTerminated(ls[1..], Position(p.line - 1, p.character));
        OffsetTail(ls, p);
      }
    }
  }

  lemma SliceAcross<T>(x: seq<T>, y: seq<T>, i: nat, j: nat)
    requires i <= |x| && j <= |y|
    ensures (x + y)[i..|x| + j] == x[i..] + y[..j]
  {
  }

  lemma DropAcross<T>(x: seq<T>, y: seq<T>, k: nat)
    requires k <= |y|
    ensures (x + y)[|x| + k..] == y[k..]
  {
  }

  lemma TakeAcross<T>(x: seq<T>, y: seq<T>, k: nat)
    requires k <= |y|
    ensures (x + y)[..|x| + k] == x + y[..k]
  {
  }

  /** The lines before `l2` are those before `l1`, line `l1`, and the ones
      between. */
  lemma TerminatedPrefixes(ls: seq<string>, l1: nat, l2: nat)
    requires l1 < l2 <= |ls|
    ensures Terminated(ls[..l2]) == Terminated(ls[..l1]) + (ls[l1] + "\n") + Terminated(ls[l1 + 1..l2])
  {
    assert ls[..l2] == ls[..l1] + ([ls[l1]] + ls[l1 + 1..l2]);
    TerminatedAppend(ls[..l1], [ls[l1]] + ls[l1 + 1..l2]);
    assert ([ls[l1]] + ls[l1 + 1..l2])[1..] == ls[l1 + 1..l2];
  }

  /** A text is its lines before `l` and its lines from `l` on. */
  lemma TerminatedSplit(ls: seq<string>, l: nat)
    requires l <= |ls|
    ensures Terminated(ls) == Terminated(ls[..l]) + Terminated(ls[l..])
  {
    assert ls == ls[..l] + ls[l..];
    TerminatedAppend(ls[..l], ls[l..]);
  }

  /** What `getText` takes from the line of a valid position up to its
      character is the text from that line on, cut at the character. */
  lemma LineHead(ls: seq<string>, l: nat, c: nat)
    requires ValidPosition(ls, Position(l, c))
    ensures LineAt(ls + [[]], Newlines(|ls|), l).Success?
    ensures c <= |Terminated(ls[l..])|
    ensures Substring(LineAt(ls + [[]], Newlines(|ls|), l).value, 0, c) == Terminated(ls[l..])[..c]
  {
    var line := LineAt(ls + [[]], Newlines(|ls|), l).value;
    if l < |ls| {
      assert line == ls[l] + "\n";
      assert Terminated(ls[l..]) == line + Terminated(ls[l + 1..]) by {
        assert ls[l..][1..] == ls[l + 1..];
      }
      assert Terminated(ls[l..])[..c] == line[..c];
    } else {
      assert line == [] + "undefined";
      assert ls[l..] == [];
    }
  }

  /** On a text of plain lines each ended by a newline, `getText` returns
      exactly the text between the protocol's offsets of the range's ends,
      so the `rangeLength` of `makeChange` is their distance. */
  lemma GetTextIsSlice(ls: seq<string>, range: Range)
    requires PlainLines(ls)
    requires ValidPosition(ls, range.start) && ValidPosition(ls, range.end)
    requires BeforeOrEqual(range.start, range.end)
    ensures var text := Terminated(ls);
      OffsetAt(text, range.start) <= OffsetAt(text, range.end) &&
      GetText(text, range) == Success(text[OffsetAt(text, range.start)..OffsetAt(text, range.end)])
  {
    OffsetAtTerminated(ls, range.start);
    OffsetAtTerminated(ls, range.end);
    SplitLinesTerminated(ls);
    NewLinesTerminated(ls);
    GetTextOfIsSlice(ls, range);
  }

  lemma GetTextOfIsSlice(ls: seq<string>, range: Range)
    requires ValidPosition(ls, range.start) && ValidPosition(ls, range.end)
    requires BeforeOrEqual(range.start, range.end)
    ensures Offset(ls, range.start) <= Offset(ls, range.end) <= |Terminated(ls)| &&
      GetTextOf(ls + [[]], Newlines(|ls|), range) == Success(Terminated(ls)[Offset(ls, range.start)..Offset(ls, range.end)])
  {
    if range.start.line == range.end.line {
      GetTextOneLine(ls, range.start.line, range.start.character, range.end.character);
    } else {
      GetTextManyLines(ls, range.start.line, range.start.character, range.end.line, range.end.character);
    }
  }

  lemma SliceShift<T>(x: seq<T>, y: seq<T>, i: nat, j: nat)
    requires i <= j <= |y|
    ensures (x + y)[|x| + i..|x| + j] == y[i..j]
  {
  }

  /** The line of a position of such a text as `getText` reads it. */
  lemma LineAtTerminated(ls: seq<string>, l: nat)
    requires l < |ls|
    ensures LineAt(ls + [[]], Newlines(|ls|), l) == Success(ls[l] + "\n")
  {
  }

  /** What `getText` takes for a range on one line. */
  lemma GetTextOfOneLine(ls: seq<string>, l: nat, c1: nat, c2: nat)
    requires ValidPosition(ls, Position(l, c1)) && ValidPosition(ls, Position(l, c2)) && c1 <= c2
    ensures c2 <= |Terminated(ls[l..])|
    ensures GetTextOf(ls + [[]], Newlines(|ls|), Range(Position(l, c1), Position(l, c2)))
         == Success(Terminated(ls[l..])[c1..c2])
  {
    LineHead(ls, l, c2);
    var line := LineAt(ls + [[]], Newlines(|ls|), l).value;
    assert Substring(line, c1, c2) == Substring(line, 0, c2)[c1..];
  }

  /** The text between the offsets of two positions on one line. */
  lemma OneLineSlice(ls: seq<string>, l: nat, c1: nat, c2: nat)
    requires l <= |ls| && c1 <= c2 <= |Terminated(ls[l..])|
    ensures Offset(ls, Position(l, c2)) <= |Terminated(ls)|
    ensures Terminated(ls)[Offset(ls, Position(l, c1))..Offset(ls, Position(l, c2))] == Terminated(ls[l..])[c1..c2]
  {
    var head := Terminated(ls[..l]);
    var tail := Terminated(ls[l..]);
    assert Terminated(ls) == head + tail by {
      TerminatedSplit(ls, l);
    }
    assert Offset(ls, Position(l, c1)) == |head| + c1 && Offset(ls, Position(l, c2)) == |head| + c2;
    SliceOfSplit(Terminated(ls), head, tail, c1, c2);
  }

  lemma SliceOfSplit<T>(t: seq<T>, head: seq<T>, tail: seq<T>, c1: nat, c2: nat)
    requires t == head + tail && c1 <= c2 <= |tail|
    ensures |head| + c2 <= |t| && t[|head| + c1..|head| + c2] == tail[c1..c2]
  {
  }

  lemma GetTextOneLine(ls: seq<string>, l: nat, c1: nat, c2: nat)
    requires ValidPosition(ls, Position(l, c1)) && ValidPosition(ls, Position(l, c2)) && c1 <= c2
    ensures Offset(ls, Position(l, c2)) <= |Terminated(ls)| &&
      GetTextOf(ls + [[]], Newlines(|ls|), Range(Position(l, c1), Position(l, c2)))
        == Success(Terminated(ls)[Offset(ls, Position(l, c1))..Offset(ls, Position(l, c2))])
  {
    GetTextOfOneLine(ls, l, c1, c2);
    OneLineSlice(ls, l, c1, c2);
  }

  /** What `getText` assembles for a range over several lines: the rest of
      the first line, the lines between, and the head of the last. */
  lemma GetTextOfManyLines(ls: seq<string>, l1: nat, c1: nat, l2: nat, c2: nat)
    requires l1 < l2 && ValidPosition(ls, Position(l1, c1)) && ValidPosition(ls, Position(l2, c2))
    ensures c1 <= |ls[l1] + "\n"| && c2 <= |Terminated(ls[l2..])|
    ensures GetTextOf(ls + [[]], Newlines(|ls|), Range(Position(l1, c1), Position(l2, c2)))
        == Success((ls[l1] + "\n")[c1..] + Terminated(ls[l1 + 1..l2]) + Terminated(ls[l2..])[..c2])
  {
    LineHead(ls, l2, c2);
    LineAtTerminated(ls, l1);
    MiddleLinesTerminated(ls, l1 + 1, l2);
    GetTextOfParts(ls + [[]], Newlines(|ls|), Range(Position(l1, c1), Position(l2, c2)),
      ls[l1] + "\n", LineAt(ls + [[]], Newlines(|ls|), l2).value);
  }

  /** `getText` over several lines, given its first and last lines. */
  lemma GetTextOfParts(lines: seq<string>, newLines: seq<string>, range: Range, first: string, last: string)
    requires range.start.line != range.end.line
    requires range.start.character <= |first| && range.end.character <= |last|
    requires LineAt(lines, newLines, range.start.line) == Success(first)
    requires LineAt(lines, newLines, range.end.line) == Success(last)
    ensures GetTextOf(lines, newLines, range)
         == Success(first[range.start.character..] + MiddleLines(lines, newLines, range.start.line + 1, range.end.line)
                    + last[..range.end.character])
  {
    assert Substring(first, range.start.character, |first|) == first[range.start.character..];
    assert Substring(last, 0, range.end.character) == last[..range.end.character];
  }

  lemma GetTextManyLines(ls: seq<string>, l1: nat, c1: nat, l2: nat, c2: nat)
    requires l1 < l2 && ValidPosition(ls, Position(l1, c1)) && ValidPosition(ls, Position(l2, c2))
    ensures Offset(ls, Position(l1, c1)) <= Offset(ls, Position(l2, c2)) <= |Terminated(ls)| &&
      GetTextOf(ls + [[]], Newlines(|ls|), Range(Position(l1, c1), Position(l2, c2)))
        == Success(Terminated(ls)[Offset(ls, Position(l1, c1))..Offset(ls, Position(l2, c2))])
  {
    GetTextOfManyLines(ls, l1, c1, l2, c2);
    ManyLinesSlice(ls, l1, c1, l2, c2);
  }

  /** The text between the offsets of two positions on different lines is
      the rest of the first line, the lines between, and the head of the
      last. */
  lemma ManyLinesSlice(ls: seq<string>, l1: nat, c1: nat, l2: nat, c2: nat)
    requires l1 < l2 && ValidPosition(ls, Position(l1, c1)) && ValidPosition(ls, Position(l2, c2))
    ensures c1 <= |ls[l1] + "\n"| && c2 <= |Terminated(ls[l2..])|
    ensures Offset(ls, Position(l1, c1)) <= Offset(ls, Position(l2, c2)) <= |Terminated(ls)|
    ensures Terminated(ls)[Offset(ls, Position(l1, c1))..Offset(ls, Position(l2, c2))]
         == (ls[l1] + "\n")[c1..] + Terminated(ls[l1 + 1..l2]) + Terminated(ls[l2..])[..c2]
  {
    var first := ls[l1] + "\n";
    var head := Terminated(ls[..l1]);
    var middle := Terminated(ls[l1 + 1..l2]);
    var tail := Terminated(ls[l2..]);
    TailBound(ls, l2, c2);
    TerminatedAcross(ls, l1, l2);
    SliceOfFour(head, first, middle, tail, c1, c2);
  }

  lemma SliceOfFour<T>(head: seq<T>, first: seq<T>, middle: seq<T>, tail: seq<T>, c1: nat, c2: nat)
    requires c1 <= |first| && c2 <= |tail|
    ensures ((head + first) + (middle + tail))[|head| + c1..|head + first| + |middle| + c2]
         == first[c1..] + middle + tail[..c2]
  {
    SliceAcross(head + first, middle + tail, |head| + c1, |middle| + c2);
    DropAcross(head, first, c1);
    TakeAcross(middle, tail, c2);
  }

  /** A valid position's character lies within the text from its line on. */
  lemma TailBound(ls: seq<string>, l: nat, c: nat)
    requires ValidPosition(ls, Position(l, c))
    ensures c <= |Terminated(ls[l..])|
  {
    if l < |ls| {
      assert ls[l..][0] == ls[l];
    }
  }

  /** The text around two lines `l1 < l2`. */
  lemma TerminatedAcross(ls: seq<string>, l1: nat, l2: nat)
    requires l1 < l2 <= |ls|
    ensures Terminated(ls) == (Terminated(ls[..l1]) + (ls[l1] + "\n")) + (Terminated(ls[l1 + 1..l2]) + Terminated(ls[l2..]))
    ensures |Terminated(ls[..l2])| == |Terminated(ls[..l1])| + |ls[l1] + "\n"| + |Terminated(ls[l1 + 1..l2])|
  {
    TerminatedPrefixes(ls, l1, l2);
    TerminatedSplit(ls, l2);
  }

  /** `makeChange` measures what `getText` cuts out. */
  lemma MakeChangeOfText(docText: string, range: Range, text: string, got: string)
    requires GetText(docText, range) == Success(got)
    ensures MakeChange(docText, range.start.line, range.start.character, range.end.line, range.end.character, text)
         == Success(ContentChange(range, text, |got|))
  {
    assert Range(Position(range.start.line, range.start.character), Position(range.end.line, range.end.character)) == range;
  }

  /** `makeChange` on such a text measures the distance `len` between the
      offsets of the range's ends. */
  lemma MakeChangeMeasures(ls: seq<string>, range: Range, text: string, len: nat)
    requires PlainLines(ls)
    requires ValidPosition(ls, range.start) && ValidPosition(ls, range.end)
    requires BeforeOrEqual(range.start, range.end)
    requires Offset(ls, range.start) + len == Offset(ls, range.end)
    ensures MakeChange(Terminated(ls), range.start.line, range.start.character, range.end.line, range.end.character, text)
         == Success(ContentChange(range, text, len))
  {
    var t := Terminated(ls);
    var s, e := Offset(ls, range.start), Offset(ls, range.end);
    assert s <= e <= |t| && GetText(t, range) == Success(t[s..e]) by {
      GetTextIsSlice(ls, range);
      OffsetAtTerminated(ls, range.start);
      OffsetAtTerminated(ls, range.end);
    }
    assert |t[s..e]| == len;
    MakeChangeOfText(t, range, text, t[s..e]);
  }

  // ---------------------------------------------------------------------
  // The expectations of the tests
  // ---------------------------------------------------------------------

  lemma TerminatedOne(a: string)
    ensures Terminated([a]) == a + "\n"
  {
    assert [a][1..] == [];
  }

  lemma TerminatedTwo(a: string, b: string)
    ensures Terminated([a, b]) == a + "\n" + (b + "\n")
  {
    assert [a, b][1..] == [b];
    TerminatedOne(b);
  }

  /** Offsets on the first two lines. */
  lemma OffsetFirstLine(ls: seq<string>, c: nat)
    ensures Offset(ls, Position(0, c)) == c
  {
    assert ls[..0] == [];
  }

  lemma OffsetSecondLine(ls: seq<string>, c: nat)
    requires 1 <= |ls|
    ensures Offset(ls, Position(1, c)) == |ls[0]| + 1 + c
  {
    assert ls[..1] == [ls[0]];
    TerminatedOne(ls[0]);
  }

  /** A content change on such a text replaces the text between the
      offsets of its range's ends, counted line by line. */
  lemma ApplyChangeTerminated(ls: seq<string>, change: ContentChange)
    requires PlainLines(ls)
    requires ValidPosition(ls, change.range.start) && ValidPosition(ls, change.range.end)
    ensures Offset(ls, change.range.start) <= |Terminated(ls)| && Offset(ls, change.range.end) <= |Terminated(ls)|
    ensures ApplyChange(Terminated(ls), change)
         == Terminated(ls)[..Offset(ls, change.range.start)] + change.text + Terminated(ls)[Offset(ls, change.range.end)..]
  {
    OffsetAtTerminated(ls, change.range.start);
    OffsetAtTerminated(ls, change.range.end);
  }

  lemma CutOuter<T>(x: seq<T>, y: seq<T>, z: seq<T>, w: seq<T>)
    ensures (x + y + (z + w))[..|x|] == x
    ensures (x + y + (z + w))[|x| + |y| + |z|..] == w
  {
  }

  /** The changes `makeChange` builds for moving the second of two lines
      up: delete from the end of the first line to the end of the second,
      measuring the second line and its newline, then insert the second
      line at the start. */
  lemma SwapDownChanges(a: string, b: string)
    requires PlainLine(a) && PlainLine(b)
    ensures MakeChange(Terminated([a, b]), 0, |a|, 1, |b|, "")
         == Success(ContentChange(Range(Position(0, |a|), Position(1, |b|)), "", |b| + 1))
    ensures MakeChange(Terminated([a]), 0, 0, 0, 0, b + "\n")
         == Success(ContentChange(Range(Position(0, 0), Position(0, 0)), b + "\n", 0))
  {
    SwapDownDeleteChange(a, b);
    SwapDownInsertChange(a, b);
  }

  lemma SwapDownDeleteChange(a: string, b: string)
    requires PlainLine(a) && PlainLine(b)
    ensures MakeChange(Terminated([a, b]), 0, |a|, 1, |b|, "")
         == Success(ContentChange(Range(Position(0, |a|), Position(1, |b|)), "", |b| + 1))
  {
    var ls := [a, b];
    var range := Range(Position(0, |a|), Position(1, |b|));
    assert PlainLines(ls);
    assert Offset(ls, range.start) + (|b| + 1) == Offset(ls, range.end) by {
      OffsetFirstLine(ls, |a|);
      OffsetSecondLine(ls, |b|);
    }
    MakeChangeMeasures(ls, range, "", |b| + 1);
  }

  lemma SwapDownInsertChange(a: string, b: string)
    requires PlainLine(a) && PlainLine(b)
    ensures MakeChange(Terminated([a]), 0, 0, 0, 0, b + "\n")
         == Success(ContentChange(Range(Position(0, 0), Position(0, 0)), b + "\n", 0))
  {
    var ls := [a];
    var range := Range(Position(0, 0), Position(0, 0));
    assert PlainLines(ls);
    MakeChangeMeasures(ls, range, b + "\n", 0);
  }

  lemma SwapDownDelete(a: string, b: string)
    requires PlainLine(a) && PlainLine(b)
    ensures ApplyChange(Terminated([a, b]), ContentChange(Range(Position(0, |a|), Position(1, |b|)), "", |b| + 1))
         == Terminated([a])
  {
    assert PlainLines([a, b]);
    OffsetFirstLine([a, b], |a|);
    OffsetSecondLine([a, b], |b|);
    ApplyChangeTerminated([a, b], ContentChange(Range(Position(0, |a|), Position(1, |b|)), "", |b| + 1));
    TerminatedOne(a);
    TerminatedTwo(a, b);
    CutOuter(a, "\n", b, "\n");
  }

  lemma SwapDownInsert(a: string, b: string)
    requires PlainLine(a) && PlainLine(b)
    ensures ApplyChange(Terminated([a]), ContentChange(Range(Position(0, 0), Position(0, 0)), b + "\n", 0))
         == Terminated([b, a])
  {
    assert PlainLines([a]);
    OffsetFirstLine([a], 0);
    ApplyChangeTerminated([a], ContentChange(Range(Position(0, 0), Position(0, 0)), b + "\n", 0));
    TerminatedOne(a);
    TerminatedTwo(b, a);
  }

  /** The two changes for moving the second line up, applied in one batch
      or in two. */
  lemma SwapDownBatches(a: string, b: string)
    requires PlainLine(a) && PlainLine(b)
    ensures var first := ContentChange(Range(Position(0, |a|), Position(1, |b|)), "", |b| + 1);
      var second := ContentChange(Range(Position(0, 0), Position(0, 0)), b + "\n", 0);
      ApplyChanges(Terminated([a, b]), [first]) == Terminated([a]) &&
      ApplyChanges(Terminated([a]), [second]) == Terminated([b, a]) &&
      ApplyChanges(Terminated([a, b]), [first, second]) == Terminated([b, a])
  {
    var first := ContentChange(Range(Position(0, |a|), Position(1, |b|)), "", |b| + 1);
    var second := ContentChange(Range(Position(0, 0), Position(0, 0)), b + "\n", 0);
    SwapDownDelete(a, b);
    SwapDownInsert(a, b);
    assert [first, second][1..] == [second];
    assert [first][1..] == [] && [second][1..] == [];
  }

  /** Moving the second of two lines up, in one batch or in two, swaps
      them; the range lengths `makeChange` measures are the second line's
      length plus one, and 0. */
  lemma SwapDown(a: string, b: string)
    requires PlainLine(a) && PlainLine(b)
    ensures var first := MakeChange(Terminated([a, b]), 0, |a|, 1, |b|, "");
      var second := MakeChange(Terminated([a]), 0, 0, 0, 0, b + "\n");
      first.Success? && second.Success? &&
      first.value.rangeLength == |b| + 1 && second.value.rangeLength == 0 &&
      ApplyChanges(Terminated([a, b]), [first.value]) == Terminated([a]) &&
      ApplyChanges(Terminated([a]), [second.value]) == Terminated([b, a]) &&
      ApplyChanges(Terminated([a, b]), [first.value, second.value]) == Terminated([b, a])
  {
    SwapDownChanges(a, b);
    SwapDownBatches(a, b);
  }

  /** The changes for moving the second of two lines up: insert a copy of
      the first line after the second, then delete the first line, its
      length measured on the first line alone. */
  lemma SwapUpChanges(a: string, b: string)
    requires PlainLine(a) && PlainLine(b)
    ensures MakeChange(Terminated([a, b]), 1, |b|, 1, |b|, "\n" + a)
         == Success(ContentChange(Range(Position(1, |b|), Position(1, |b|)), "\n" + a, 0))
    ensures MakeChange(Terminated([a]), 0, 0, 1, 0, "")
         == Success(ContentChange(Range(Position(0, 0), Position(1, 0)), "", |a| + 1))
  {
    SwapUpInsertChange(a, b);
    SwapUpDeleteChange(a);
  }

  lemma SwapUpInsertChange(a: string, b: string)
    requires PlainLine(a) && PlainLine(b)
    ensures MakeChange(Terminated([a, b]), 1, |b|, 1, |b|, "\n" + a)
         == Success(ContentChange(Range(Position(1, |b|), Position(1, |b|)), "\n" + a, 0))
  {
    var ls := [a, b];
    var range := Range(Position(1, |b|), Position(1, |b|));
    assert PlainLines(ls);
    MakeChangeMeasures(ls, range, "\n" + a, 0);
  }

  lemma SwapUpDeleteChange(a: string)
    requires PlainLine(a)
    ensures MakeChange(Terminated([a]), 0, 0, 1, 0, "")
         == Success(ContentChange(Range(Position(0, 0), Position(1, 0)), "", |a| + 1))
  {
    var ls := [a];
    var range := Range(Position(0, 0), Position(1, 0));
    assert PlainLines(ls);
    assert Offset(ls, range.start) + (|a| + 1) == Offset(ls, range.end) by {
      OffsetFirstLine(ls, 0);
      OffsetSecondLine(ls, 0);
    }
    MakeChangeMeasures(ls, range, "", |a| + 1);
  }

  lemma SwapUpInsert(a: string, b: string)
    requires PlainLine(a) && PlainLine(b)
    ensures ApplyChange(Terminated([a, b]), ContentChange(Range(Position(1, |b|), Position(1, |b|)), "\n" + a, 0))
         == Terminated([a, b, a])
  {
    var ls := [a, b];
    var change := ContentChange(Range(Position(1, |b|), Position(1, |b|)), "\n" + a, 0);
    var at := |a| + 1 + |b|;
    assert PlainLines(ls);
    assert Offset(ls, change.range.start) == at by {
      OffsetSecondLine(ls, |b|);
    }
    ApplyChangeTerminated(ls, change);
    assert ApplyChange(Terminated(ls), change) == a + "\n" + (b + ("\n" + a) + "\n") by {
      TerminatedTwo(a, b);
      InsertBeforeLast(a, "\n", b, "\n", "\n" + a);
    }
    assert Terminated([a, b, a]) == a + "\n" + (b + "\n" + (a + "\n")) by {
      assert [a, b, a][1..] == [b, a];
      TerminatedTwo(b, a);
    }
    AppendAround(b, "\n", a);
  }

  lemma InsertBeforeLast<T>(x: seq<T>, y: seq<T>, z: seq<T>, w: seq<T>, u: seq<T>)
    ensures (x + y + (z + w))[..|x| + |y| + |z|] + u + (x + y + (z + w))[|x| + |y| + |z|..] == x + y + (z + u + w)
  {
    assert (x + y + (z + w))[..|x| + |y| + |z|] == x + y + z;
    assert (x + y + (z + w))[|x| + |y| + |z|..] == w;
  }

  lemma AppendAround<T>(z: seq<T>, w: seq<T>, a: seq<T>)
    ensures z + (w + a) + w == z + w + (a + w)
  {
  }

  lemma SwapUpDelete(a: string, b: string)
    requires PlainLine(a) && PlainLine(b)
    ensures ApplyChange(Terminated([a, b, a]), ContentChange(Range(Position(0, 0), Position(1, 0)), "", |a| + 1))
         == Terminated([b, a])
  {
    assert PlainLines([a, b, a]);
    OffsetFirstLine([a, b, a], 0);
    OffsetSecondLine([a, b, a], 0);
    ApplyChangeTerminated([a, b, a], ContentChange(Range(Position(0, 0), Position(1, 0)), "", |a| + 1));
    assert Terminated([a, b, a]) == a + "\n" + Terminated([b, a]) by {
      assert [a, b, a][1..] == [b, a];
    }
    assert (a + "\n" + Terminated([b, a]))[|a| + 1..] == Terminated([b, a]);
  }

  lemma SwapUpBatches(a: string, b: string)
    requires PlainLine(a) && PlainLine(b)
    ensures var first := ContentChange(Range(Position(1, |b|), Position(1, |b|)), "\n" + a, 0);
      var second := ContentChange(Range(Position(0, 0), Position(1, 0)), "", |a| + 1);
      ApplyChanges(Terminated([a, b]), [first]) == Terminated([a, b, a]) &&
      ApplyChanges(Terminated([a, b, a]), [second]) == Terminated([b, a])
  {
    var first := ContentChange(Range(Position(1, |b|), Position(1, |b|)), "\n" + a, 0);
    var second := ContentChange(Range(Position(0, 0), Position(1, 0)), "", |a| + 1);
    SwapUpInsert(a, b);
    SwapUpDelete(a, b);
    assert [first][1..] == [] && [second][1..] == [];
  }

  /** Moving the second of two lines up, in two batches, swaps them; the
      deletion is measured on the first line alone, as the tests do. */
  lemma SwapUp(a: string, b: string)
    requires PlainLine(a) && PlainLine(b)
    ensures var first := MakeChange(Terminated([a, b]), 1, |b|, 1, |b|, "\n" + a);
      first.Success? &&
      ApplyChanges(Terminated([a, b]), [first.value]) == Terminated([a, b, a]) &&
      var second := MakeChange(Terminated([a]), 0, 0, 1, 0, "");
      second.Success? && second.value.rangeLength == |a| + 1 &&
      ApplyChanges(Terminated([a, b, a]), [second.value]) == Terminated([b, a])
  {
    SwapUpChanges(a, b);
    SwapUpBatches(a, b);
  }

  const Goal := "Goal True."
  const Pose := "pose True."

  /** The "down" cases of the tests on "Goal True.\npose True.\n": one
      batch and two batches both give "pose True.\nGoal True.\n". */
  lemma SwapLinesDown()
    ensures var first := MakeChange(Goal + "\n" + Pose + "\n", 0, 10, 1, 10, "");
      var second := MakeChange(Goal + "\n", 0, 0, 0, 0, Pose + "\n");
      first.Success? && second.Success? &&
      ApplyChanges(Goal + "\n" + Pose + "\n", [first.value, second.value]) == Pose + "\n" + Goal + "\n" &&
      ApplyChanges(ApplyChanges(Goal + "\n" + Pose + "\n", [first.value]), [second.value]) == Pose + "\n" + Goal + "\n"
  {
    assert PlainLine(Goal) && PlainLine(Pose);
    assert |Goal| == 10 && |Pose| == 10;
    TerminatedOne(Goal);
    TerminatedTwo(Goal, Pose);
    TerminatedTwo(Pose, Goal);
    assert Goal + "\n" + Pose + "\n" == Terminated([Goal, Pose]);
    assert Pose + "\n" + Goal + "\n" == Terminated([Pose, Goal]);
    SwapDown(Goal, Pose);
  }

  /** The "up" case of the tests. */
  lemma SwapLinesUp()
    ensures var first := MakeChange(Goal + "\n" + Pose + "\n", 1, 10, 1, 10, "\n" + Goal);
      first.Success? &&
      ApplyChanges(Goal + "\n" + Pose + "\n", [first.value]) == Goal + "\n" + Pose + "\n" + Goal + "\n" &&
      var second := MakeChange(Goal + "\n", 0, 0, 1, 0, "");
      second.Success? &&
      ApplyChanges(Goal + "\n" + Pose + "\n" + Goal + "\n", [second.value]) == Pose + "\n" + Goal + "\n"
  {
    assert PlainLine(Goal) && PlainLine(Pose);
    assert |Goal| == 10 && |Pose| == 10;
    TerminatedOne(Goal);
    TerminatedTwo(Goal, Pose);
    TerminatedTwo(Pose, Goal);
    assert Goal + "\n" == Terminated([Goal]);
    assert Terminated([Goal, Pose, Goal]) == Goal + "\n" + Terminated([Pose, Goal]) by {
      assert [Goal, Pose, Goal][1..] == [Pose, Goal];
    }
    assert Goal + "\n" + Pose + "\n" == Terminated([Goal, Pose]);
    assert Goal + "\n" + Pose + "\n" + Goal + "\n" == Terminated([Goal, Pose, Goal]);
    assert Pose + "\n" + Goal + "\n" == Terminated([Pose, Goal]);
    SwapUp(Goal, Pose);
  }
}
