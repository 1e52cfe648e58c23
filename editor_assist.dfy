/** The indentation arithmetic of the editor helpers
    (client/src/EditorAssist.ts, `makeIndent`): an indentation given as a
    column count or as the text of an existing indent is turned into the
    indent string the editor's formatting options call for. */
module EditorAssist {
  import opened Wrappers

  datatype FormattingOptions = FormattingOptions(tabSize: nat, insertSpaces: bool)

  /** An indentation: an existing indent's text, or a column count. */
  datatype IndentInput = IndentText(text: string) | IndentColumns(columns: nat)

  datatype Indent = Indent(indent: string, columns: nat)

  /** `c.repeat(n)`. */
  function Repeat(c: char, n: nat): (r: string)
    ensures |r| == n
    ensures forall i :: 0 <= i < n ==> r[i] == c
  {
    if n == 0 then [] else [c] + Repeat(c, n - 1)
  }

  /** Every tab replaced by `tabSize` spaces. */
  function ExpandTabs(s: string, tabSize: nat): (r: string)
    ensures '\t' !in s ==> r == s
    ensures tabSize == 1 ==> |r| == |s|
  {
    if s == [] then []
    else (if s[0] == '\t' then Repeat(' ', tabSize) else [s[0]]) + ExpandTabs(s[1..], tabSize)
  }

  lemma {:induction false} ExpandTabsAppend(a: string, b: string, tabSize: nat)
    ensures ExpandTabs(a + b, tabSize) == ExpandTabs(a, tabSize) + ExpandTabs(b, tabSize)
    decreases |a|
  {
    if a == [] {
      assert a + b == b;
    } else {
      assert (a + b)[1..] == a[1..] + b;
      ExpandTabsAppend(a[1..], b, tabSize);
    }
  }

  /** `n` tabs expand to `n * tabSize` columns. */
  lemma {:induction false} ExpandTabsWidth(n: nat, tabSize: nat)
    ensures |ExpandTabs(Repeat('\t', n), tabSize)| == n * tabSize
    decreases n
  {
    if n > 0 {
      assert Repeat('\t', n)[1..] == Repeat('\t', n - 1);
      ExpandTabsWidth(n - 1, tabSize);
      assert |ExpandTabs(Repeat('\t', n), tabSize)| == tabSize + (n - 1) * tabSize;
      assert tabSize + (n - 1) * tabSize == n * tabSize by {
        MulPred(n, tabSize);
      }
    }
  }

  lemma MulPred(n: nat, t: nat)
    requires n > 0
    ensures t + (n - 1) * t == n * t
  {
  }

  lemma DivMod(c: nat, t: nat)
    requires t > 0
    ensures (c / t) * t + c % t == c
  {
  }

  /** The indent is only tabs followed by spaces. */
  predicate TabsThenSpaces(s: string)
  {
    forall i, j :: 0 <= i < j < |s| ==> s[i] == ' ' ==> s[j] == ' '
  }

  predicate IndentChars(s: string)
  {
    forall i :: 0 <= i < |s| ==> s[i] == ' ' || s[i] == '\t'
  }

  lemma TabsThenSpacesRepeat(tabs: nat, spaces: nat)
    ensures TabsThenSpaces(Repeat('\t', tabs) + Repeat(' ', spaces))
    ensures IndentChars(Repeat('\t', tabs) + Repeat(' ', spaces))
  {
    var s := Repeat('\t', tabs) + Repeat(' ', spaces);
    assert forall i :: 0 <= i < |s| ==> s[i] == (if i < tabs then '\t' else ' ');
  }

  /** `makeIndent`.  Without `insertSpaces` and with a tab size of 0, the
      number of tabs is `columns / 0`: infinite for a positive count, which
      `repeat` rejects with a range error, and not a number for 0, which
      `repeat` takes as 0. */
  function MakeIndent(indent: IndentInput, options: FormattingOptions): (r: Result<Indent, string>)
    ensures indent.IndentColumns? && r.Success? ==> r.value.columns == indent.columns
    ensures indent.IndentText? && r.Success? ==> r.value.columns == |ExpandTabs(indent.text, options.tabSize)|
    ensures r.Failure? <==>
      !options.insertSpaces && options.tabSize == 0 &&
      (if indent.IndentColumns? then indent.columns else |ExpandTabs(indent.text, options.tabSize)|) > 0
    ensures r.Success? && options.insertSpaces ==>
      |r.value.indent| == r.value.columns && forall i :: 0 <= i < |r.value.indent| ==> r.value.indent[i] == ' '
    ensures r.Success? ==> TabsThenSpaces(r.value.indent) && IndentChars(r.value.indent)
  {
    var columns := if indent.IndentText? then |ExpandTabs(indent.text, options.tabSize)| else indent.columns;
    if options.insertSpaces then
      Success(Indent(SpacesIndent(columns), columns))
    else if options.tabSize == 0 then
      if columns == 0 then Success(Indent([], 0)) else Failure("RangeError: Invalid count value: Infinity")
    else
      Success(Indent(TabbedIndent(columns, options.tabSize), columns))
  }

  /** An indent of spaces only. */
  function SpacesIndent(columns: nat): (r: string)
    ensures |r| == columns && forall i :: 0 <= i < |r| ==> r[i] == ' '
    ensures TabsThenSpaces(r) && IndentChars(r)
  {
    TabsThenSpacesRepeat(0, columns);
    assert Repeat('\t', 0) + Repeat(' ', columns) == Repeat(' ', columns);
    Repeat(' ', columns)
  }

  /** As many tabs as fit, then the remaining columns as spaces. */
  function TabbedIndent(columns: nat, tabSize: nat): (r: string)
    requires tabSize > 0
    ensures TabsThenSpaces(r) && IndentChars(r)
  {
    TabsThenSpacesRepeat(columns / tabSize, columns % tabSize);
    Repeat('\t', columns / tabSize) + Repeat(' ', columns % tabSize)
  }

  /** The indent expands back to exactly `columns` columns. */
  lemma MakeIndentWidth(indent: IndentInput, options: FormattingOptions)
    requires MakeIndent(indent, options).Success?
    ensures |ExpandTabs(MakeIndent(indent, options).value.indent, options.tabSize)| == MakeIndent(indent, options).value.columns
  {
    var r := MakeIndent(indent, options).value;
    var columns := r.columns;
    if options.insertSpaces {
      assert forall i :: 0 <= i < |r.indent| ==> r.indent[i] != '\t';
    } else if options.tabSize > 0 {
      var tabs := Repeat('\t', columns / options.tabSize);
      var spaces := Repeat(' ', columns % options.tabSize);
      assert r.indent == tabs + spaces;
      ExpandTabsAppend(tabs, spaces, options.tabSize);
      ExpandTabsWidth(columns / options.tabSize, options.tabSize);
      DivMod(columns, options.tabSize);
      assert forall i :: 0 <= i < |spaces| ==> spaces[i] != '\t';
    }
  }

  /** Feeding the indent back in gives the same column count. */
  lemma MakeIndentRoundTrip(indent: IndentInput, options: FormattingOptions)
    requires MakeIndent(indent, options).Success?
    ensures MakeIndent(IndentText(MakeIndent(indent, options).value.indent), options).Success?
    ensures MakeIndent(IndentText(MakeIndent(indent, options).value.indent), options).value.columns
         == MakeIndent(indent, options).value.columns
  {
    MakeIndentWidth(indent, options);
  }
}
