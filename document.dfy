/** The document's own bookkeeping around the prover's state machine
    (server/src/document.ts): routing and sorting an edit batch, building
    the highlight lists, generating the command sequence to send, tagging
    results with the focus, building queries and choosing diagnostic
    ranges.  The state machine, the sentence collection and the sentence
    parser are parameters. */
module Document {
  import opened Wrappers
  import opened Positions
  import opened JsText
  import opened Protocol
  import opened AnnotatedText
  import Lib = AnnotatedText

  // ---------------------------------------------------------------------
  // applyTextEdits: sorting the batch
  // ---------------------------------------------------------------------

  /** A change event with its range and replacement text. */
  datatype ContentChange = ContentChange(range: Range, text: string)

  /** `positionIsAfter(a, b)`: `a` comes strictly after `b`. */
  predicate PositionIsAfter(a: Position, b: Position)
  {
    Before(b, a)
  }

  /** Later start positions come first. */
  predicate LaterFirst(cs: seq<ContentChange>)
  {
    forall i, j :: 0 <= i < j < |cs| ==> !PositionIsAfter(cs[j].range.start, cs[i].range.start)
  }

  lemma NotAfterTransitive(a: Position, b: Position, c: Position)
    requires !PositionIsAfter(a, b) && !PositionIsAfter(b, c)
    ensures !PositionIsAfter(a, c)
  {
  }

  /** Places `c` before the first change that does not start after it. */
  function InsertChange(c: ContentChange, cs: seq<ContentChange>): (r: seq<ContentChange>)
    ensures multiset(r) == multiset(cs) + multiset{c}
    ensures |r| == |cs| + 1
    ensures r[0] == c || (cs != [] && r[0] == cs[0])
    decreases |cs|
  {
    if cs == [] || !PositionIsAfter(cs[0].range.start, c.range.start) then
      [c] + cs
    else
      assert cs == [cs[0]] + cs[1..];
      [cs[0]] + InsertChange(c, cs[1..])
  }

  /** Inserting into a batch ordered later-first keeps it ordered. */
  lemma {:induction false} InsertChangeSorted(c: ContentChange, cs: seq<ContentChange>)
    requires LaterFirst(cs)
    ensures LaterFirst(InsertChange(c, cs))
    decreases |cs|
  {
    if cs == [] || !PositionIsAfter(cs[0].range.start, c.range.start) {
      if cs != [] {
        forall j | 0 < j < |cs| + 1
          ensures !PositionIsAfter(([c] + cs)[j].range.start, c.range.start)
        {
          NotAfterTransitive(cs[j - 1].range.start, cs[0].range.start, c.range.start);
        }
      }
    } else {
      var rest := InsertChange(c, cs[1..]);
      assert LaterFirst(cs[1..]);
      InsertChangeSorted(c, cs[1..]);
      forall j | 0 <= j < |rest|
        ensures !PositionIsAfter(rest[j].range.start, cs[0].range.start)
      {
        assert rest[j] in multiset(rest);
        if rest[j] != c {
          assert rest[j] in multiset(cs[1..]);
          var k :| 0 <= k < |cs[1..]| && cs[1..][k] == rest[j];
          assert cs[k + 1] == rest[j];
        }
      }
      assert InsertChange(c, cs) == [cs[0]] + rest;
    }
  }

  /** The batch sorted so that later start positions come first. */
  function SortChanges(cs: seq<ContentChange>): (r: seq<ContentChange>)
    ensures multiset(r) == multiset(cs) && LaterFirst(r)
    decreases |cs|
  {
    if cs == [] then []
    else
      assert cs == [cs[0]] + cs[1..];
      InsertChangeSorted(cs[0], SortChanges(cs[1..]));
      InsertChange(cs[0], SortChanges(cs[1..]))
  }

  /** Where a batch goes: unsorted to the sentence collection; sorted to
      the state machine, only while it runs. */
  datatype EditRouting = EditRouting(toCollection: seq<ContentChange>, toStm: Option<seq<ContentChange>>)

  /** The routing of `applyTextEdits`. */
  function ApplyTextEdits(changes: seq<ContentChange>, stmRunning: bool): (r: EditRouting)
    ensures r.toCollection == changes
    ensures r.toStm.Some? <==> stmRunning
    ensures r.toStm.Some? ==> multiset(r.toStm.value) == multiset(changes) && LaterFirst(r.toStm.value)
  {
    EditRouting(changes, if stmRunning then Some(SortChanges(changes)) else None)
  }

  // ---------------------------------------------------------------------
  // Highlights
  // ---------------------------------------------------------------------

  /** The status the state machine reports for a sentence. */
  datatype StateStatus = Parsing | Processing | Processed | Error | Axiom | Incomplete

  /** `sentenceToHighlightType`. */
  function SentenceToHighlightType(status: StateStatus): HighlightType
  {
    match status
    case Axiom => HighlightType.Axiom
    case Error => HighlightType.StateError
    case Parsing => HighlightType.Parsing
    case Processing => HighlightType.Processing
    case Incomplete => HighlightType.Incomplete
    case Processed => HighlightType.Processed
  }

  /** The six statuses land in six distinct highlight lists, so every list
      is used. */
  lemma HighlightListsDistinct(a: StateStatus, b: StateStatus, h: HighlightType)
    ensures HighlightIndex(SentenceToHighlightType(a)) == HighlightIndex(SentenceToHighlightType(b)) ==> a == b
    ensures exists s :: SentenceToHighlightType(s) == h
  {
    match h
    case StateError => assert SentenceToHighlightType(StateStatus.Error) == h;
    case Parsing => assert SentenceToHighlightType(StateStatus.Parsing) == h;
    case Processing => assert SentenceToHighlightType(StateStatus.Processing) == h;
    case Incomplete => assert SentenceToHighlightType(StateStatus.Incomplete) == h;
    case Processed => assert SentenceToHighlightType(StateStatus.Processed) == h;
    case Axiom => assert SentenceToHighlightType(StateStatus.Axiom) == h;
  }

  /** A sentence as the state machine lists it. */
  datatype StmSentence = StmSentence(range: Range, status: StateStatus)

  function ListOf(s: StmSentence): nat
  {
    HighlightIndex(SentenceToHighlightType(s.status))
  }

  function EmptyHighlights(): seq<seq<Range>>
  {
    [[], [], [], [], [], []]
  }

  /** One sentence added to its list: it extends the list's last range when
      that range ends where the sentence starts, and is appended otherwise. */
  function AddHighlight(hl: seq<seq<Range>>, s: StmSentence): (r: seq<seq<Range>>)
    requires |hl| == 6
    ensures |r| == 6
    ensures forall u :: 0 <= u < 6 && u != ListOf(s) ==> r[u] == hl[u]
    ensures var rs := hl[ListOf(s)];
      |rs| > 0 && rs[|rs| - 1].end == s.range.start ==>
        r[ListOf(s)] == rs[..|rs| - 1] + [Range(rs[|rs| - 1].start, s.range.end)]
    ensures var rs := hl[ListOf(s)];
      !(|rs| > 0 && rs[|rs| - 1].end == s.range.start) ==> r[ListOf(s)] == rs + [s.range]
  {
    var t := ListOf(s);
    var rs := hl[t];
    if |rs| > 0 && rs[|rs| - 1].end == s.range.start then
      hl[t := rs[..|rs| - 1] + [Range(rs[|rs| - 1].start, s.range.end)]]
    else
      hl[t := rs + [Range(s.range.start, s.range.end)]]
  }

  /** The highlight lists of a sequence of sentences, in order. */
  function HighlightsOf(ss: seq<StmSentence>): (r: seq<seq<Range>>)
    ensures |r| == 6
    decreases |ss|
  {
    if ss == [] then EmptyHighlights() else AddHighlight(HighlightsOf(ss[..|ss| - 1]), ss[|ss| - 1])
  }

  /** No range of `rs` ends where the next one starts. */
  predicate Coalesced(rs: seq<Range>)
  {
    forall j :: 0 <= j < |rs| - 1 ==> rs[j].end != rs[j + 1].start
  }

  /** Adjacent sentences of one status are always merged: in every list no
      range ends where the next one starts. */
  lemma {:induction false} HighlightsCoalesced(ss: seq<StmSentence>)
    ensures forall t :: 0 <= t < 6 ==> Coalesced(HighlightsOf(ss)[t])
    decreases |ss|
  {
    if ss != [] {
      var init, s := ss[..|ss| - 1], ss[|ss| - 1];
      HighlightsCoalesced(init);
      var hl: seq<seq<Range>> := HighlightsOf(init);
      var r: seq<seq<Range>> := HighlightsOf(ss);
      assert r == AddHighlight(hl, s);
      var t := ListOf(s);
      var rs: seq<Range> := hl[t];
      assert Coalesced(rs);
      forall j | 0 <= j < |r[t]| - 1
        ensures r[t][j].end != r[t][j + 1].start
      {
        if j < |rs| - 1 {
          assert r[t][j] == rs[j] && r[t][j + 1].start == rs[j + 1].start;
        }
      }
    }
  }

  /** `r` contains `s`. */
  predicate Covers(r: Range, s: Range)
  {
    BeforeOrEqual(r.start, s.start) && BeforeOrEqual(s.end, r.end)
  }

  predicate WellOrdered(r: Range)
  {
    BeforeOrEqual(r.start, r.end)
  }

  /** The number of sentences that go to list `t`. */
  function CountFor(ss: seq<StmSentence>, t: nat): nat
    decreases |ss|
  {
    if ss == [] then 0 else CountFor(ss[..|ss| - 1], t) + (if ListOf(ss[|ss| - 1]) == t then 1 else 0)
  }

  /** A list never holds more ranges than there are sentences with its
      status. */
  lemma {:induction false} HighlightsCount(ss: seq<StmSentence>, t: nat)
    requires t < 6
    ensures |HighlightsOf(ss)[t]| <= CountFor(ss, t)
    decreases |ss|
  {
    if ss != [] {
      HighlightsCount(ss[..|ss| - 1], t);
    }
  }

  /** Some range of `rs` contains `x`. */
  predicate CoveredIn(rs: seq<Range>, x: Range)
  {
    exists j :: 0 <= j < |rs| && Covers(rs[j], x)
  }

  /** With well-ordered sentence ranges, every range in the lists is
      well-ordered and every sentence's range is covered by a range of the
      list for its status. */
  lemma {:induction false} HighlightsCover(ss: seq<StmSentence>)
    requires forall k :: 0 <= k < |ss| ==> WellOrdered(ss[k].range)
    ensures forall t, j :: 0 <= t < 6 && 0 <= j < |HighlightsOf(ss)[t]| ==> WellOrdered(HighlightsOf(ss)[t][j])
    ensures forall k :: 0 <= k < |ss| ==> CoveredIn(HighlightsOf(ss)[ListOf(ss[k])], ss[k].range)
    decreases |ss|
  {
    if ss != [] {
      var init, s := ss[..|ss| - 1], ss[|ss| - 1];
      HighlightsCover(init);
      var hl := HighlightsOf(init);
      var r := HighlightsOf(ss);
      var t := ListOf(s);
      var rs := hl[t];
      assert r == AddHighlight(hl, s);
      var merged := |rs| > 0 && rs[|rs| - 1].end == s.range.start;
      forall u, j | 0 <= u < 6 && 0 <= j < |r[u]|
        ensures WellOrdered(r[u][j])
      {
        if u == t && merged && j == |rs| - 1 {
          assert WellOrdered(rs[j]);
        } else if u == t && !merged && j == |rs| {
        } else {
          assert r[u][j] == hl[u][j];
        }
      }
      forall k | 0 <= k < |ss|
        ensures CoveredIn(r[ListOf(ss[k])], ss[k].range)
      {
        var u := ListOf(ss[k]);
        if k == |ss| - 1 {
          if merged {
            assert Covers(r[t][|rs| - 1], s.range);
          } else {
            assert Covers(r[t][|rs|], s.range);
          }
        } else {
          assert ss[k] == init[k];
          assert CoveredIn(hl[u], init[k].range);
          var j :| 0 <= j < |hl[u]| && Covers(hl[u][j], init[k].range);
          if u == t && merged && j == |rs| - 1 {
            assert r[u][j] == Range(rs[j].start, s.range.end);
            assert Covers(r[u][j], ss[k].range);
          } else {
            assert r[u][j] == hl[u][j];
          }
        }
      }
    }
  }

  // ---------------------------------------------------------------------
  // commandSequenceGenerator
  // ---------------------------------------------------------------------

  /** A yielded command: its text and its range in the document. */
  datatype Command = Command(text: string, range: Range)

  /** The offsets a command spans. */
  datatype Span = Span(start: nat, next: nat)

  /** The offset the generator stops at: the document's end, or the given
      end position clamped to it. */
  function EndOffset(text: string, offsetAt: Position -> nat, end: Option<Position>): (r: nat)
    ensures r <= |text|
    ensures end.None? ==> r == |text|
    ensures end.Some? ==> r == if offsetAt(end.value) < |text| then offsetAt(end.value) else |text|
  {
    match end
    case None => |text|
    case Some(e) => if offsetAt(e) < |text| then offsetAt(e) else |text|
  }

  /** One step of the generator: the parser is asked for the length of the
      command at `current`, over `text.substr(current, endOffset)` (the end
      offset is passed as a length).  A positive length, or a command that
      runs past the end offset, is yielded; otherwise the generator stops. */
  function NextOffset(text: string, endOffset: nat, current: nat, parse: string -> int): (r: Option<nat>)
    ensures r.Some? ==> r.value > current || r.value > endOffset
  {
    var commandLength := parse(Substr(text, current, endOffset));
    var nextOffset := current + commandLength;
    if commandLength > 0 || nextOffset > endOffset then Some(nextOffset) else None
  }

  /** The spans yielded by at most `demand` requests. */
  function GeneratedSpans(text: string, endOffset: nat, current: nat, parse: string -> int, demand: nat): (r: seq<Span>)
    ensures |r| <= demand
    ensures r != [] ==> r[0].start == current
    ensures forall i :: 0 <= i < |r| - 1 ==> r[i].next == r[i + 1].start
    decreases demand
  {
    if demand == 0 then []
    else match NextOffset(text, endOffset, current, parse)
      case None => []
      case Some(n) => [Span(current, n)] + GeneratedSpans(text, endOffset, n, parse, demand - 1)
  }

  /** The spans of `commandSequenceGenerator(begin, end)` for `demand`
      requests: nothing when the start is at or past the end offset. */
  function CommandSpans(text: string, offsetAt: Position -> nat, parse: string -> int,
                        begin: Position, end: Option<Position>, demand: nat): (r: seq<Span>)
    ensures offsetAt(begin) >= EndOffset(text, offsetAt, end) ==> r == []
    ensures r != [] ==> r[0].start == offsetAt(begin)
    ensures forall i :: 0 <= i < |r| - 1 ==> r[i].next == r[i + 1].start
  {
    var endOffset := EndOffset(text, offsetAt, end);
    if offsetAt(begin) >= endOffset then [] else GeneratedSpans(text, endOffset, offsetAt(begin), parse, demand)
  }

  function CommandOf(text: string, positionAt: nat -> Position, sp: Span): Command
  {
    Command(Substring(text, sp.start, sp.next), Range(positionAt(sp.start), positionAt(sp.next)))
  }

  function CommandsOf(text: string, positionAt: nat -> Position, spans: seq<Span>): (r: seq<Command>)
    ensures |r| == |spans|
  {
    seq(|spans|, i requires 0 <= i < |spans| => CommandOf(text, positionAt, spans[i]))
  }

  /** The ranges marked as parsing: a yielded command counts as accepted
      once the next one is requested, and all of them once the generator
      has finished. */
  function RangesOf(text: string, positionAt: nat -> Position, spans: seq<Span>): (r: seq<Range>)
    ensures |r| == |spans|
  {
    seq(|spans|, i requires 0 <= i < |spans| => CommandOf(text, positionAt, spans[i]).range)
  }

  lemma RangesOfSnoc(text: string, positionAt: nat -> Position, spans: seq<Span>, sp: Span)
    ensures RangesOf(text, positionAt, spans + [sp]) == RangesOf(text, positionAt, spans) + [CommandOf(text, positionAt, sp).range]
  {
  }

  /** The commands counted as accepted: each one is accepted when the next
      is requested, and all of them once the generator has finished before
      the last request. */
  function Accepted(spans: seq<Span>, demand: nat): (r: seq<Span>)
    requires |spans| <= demand
    ensures r <= spans
    ensures |spans| < demand ==> r == spans
    ensures |spans| == demand > 0 ==> |r| == demand - 1
  {
    if |spans| == demand && demand > 0 then spans[..demand - 1] else spans
  }

  lemma CommandsOfSnoc(text: string, positionAt: nat -> Position, spans: seq<Span>, sp: Span)
    ensures CommandsOf(text, positionAt, spans + [sp]) == CommandsOf(text, positionAt, spans) + [CommandOf(text, positionAt, sp)]
  {
  }

  /** Accepting one more command adds its range, except for the last one
      requested. */
  lemma AcceptedSnoc(text: string, positionAt: nat -> Position, spans: seq<Span>, sp: Span, demand: nat)
    requires |spans| < demand
    ensures RangesOf(text, positionAt, Accepted(spans + [sp], demand))
         == if |spans| + 1 < demand then RangesOf(text, positionAt, Accepted(spans, demand)) + [CommandOf(text, positionAt, sp).range]
            else RangesOf(text, positionAt, Accepted(spans, demand))
  {
    assert (spans + [sp])[..|spans|] == spans;
    RangesOfSnoc(text, positionAt, spans, sp);
  }

  lemma GeneratedStep(text: string, endOffset: nat, current: nat, parse: string -> int, demand: nat)
    ensures demand == 0 || NextOffset(text, endOffset, current, parse).None? ==>
      GeneratedSpans(text, endOffset, current, parse, demand) == []
    ensures demand > 0 && NextOffset(text, endOffset, current, parse).Some? ==>
      GeneratedSpans(text, endOffset, current, parse, demand)
      == [Span(current, NextOffset(text, endOffset, current, parse).value)]
         + GeneratedSpans(text, endOffset, NextOffset(text, endOffset, current, parse).value, parse, demand - 1)
  {
  }

  /** One more span yielded: it moves from the pending spans to the ones
      pulled. */
  lemma GeneratedSnoc(all: seq<Span>, spans: seq<Span>, text: string, endOffset: nat, current: nat, parse: string -> int, demand: nat)
    requires demand > 0 && NextOffset(text, endOffset, current, parse).Some?
    requires all == spans + GeneratedSpans(text, endOffset, current, parse, demand)
    ensures all == (spans + [Span(current, NextOffset(text, endOffset, current, parse).value)])
                   + GeneratedSpans(text, endOffset, NextOffset(text, endOffset, current, parse).value, parse, demand - 1)
  {
    GeneratedStep(text, endOffset, current, parse, demand);
    var n := NextOffset(text, endOffset, current, parse).value;
    Reassociate(spans, [Span(current, n)], GeneratedSpans(text, endOffset, n, parse, demand - 1));
  }

  /** No span is pending once the demand is met or the parser stops. */
  lemma GeneratedDone(all: seq<Span>, spans: seq<Span>, text: string, endOffset: nat, current: nat, parse: string -> int, demand: nat)
    requires demand == 0 || NextOffset(text, endOffset, current, parse).None?
    requires all == spans + GeneratedSpans(text, endOffset, current, parse, demand)
    ensures all == spans
  {
    GeneratedStep(text, endOffset, current, parse, demand);
    assert spans + [] == spans;
  }

  lemma Reassociate<T>(a: seq<T>, b: seq<T>, c: seq<T>)
    ensures a + (b + c) == (a + b) + c
  {
  }

  /** A parser that reports lengths within its input. */
  ghost predicate ParserWithinInput(parse: string -> int)
  {
    forall s :: 0 <= parse(s) <= |s|
  }

  /** With such a parser, every span lies within the document and runs
      forwards. */
  lemma {:induction false} SpansWithinText(text: string, endOffset: nat, current: nat, parse: string -> int, demand: nat)
    requires ParserWithinInput(parse) && current <= |text|
    ensures forall i :: 0 <= i < |GeneratedSpans(text, endOffset, current, parse, demand)| ==>
      GeneratedSpans(text, endOffset, current, parse, demand)[i].start <= GeneratedSpans(text, endOffset, current, parse, demand)[i].next <= |text|
    decreases demand
  {
    if demand > 0 {
      var sub := Substr(text, current, endOffset);
      assert 0 <= parse(sub) <= |sub|;
      match NextOffset(text, endOffset, current, parse)
      case None =>
      case Some(n) =>
        SpansWithinText(text, endOffset, n, parse, demand - 1);
    }
  }

  /** Contiguous forward spans within the document: the command texts
      concatenate to the document text from the first start to the last end. */
  lemma {:induction false} CommandTextsConcatenate(text: string, positionAt: nat -> Position, spans: seq<Span>)
    requires spans != []
    requires forall i :: 0 <= i < |spans| ==> spans[i].start <= spans[i].next <= |text|
    requires forall i :: 0 <= i < |spans| - 1 ==> spans[i].next == spans[i + 1].start
    ensures spans[0].start <= spans[|spans| - 1].next &&
      Lib.Join(seq(|spans|, i requires 0 <= i < |spans| => CommandsOf(text, positionAt, spans)[i].text))
      == text[spans[0].start..spans[|spans| - 1].next]
    decreases |spans|
  {
    var texts := seq(|spans|, i requires 0 <= i < |spans| => CommandsOf(text, positionAt, spans)[i].text);
    assert texts[0] == text[spans[0].start..spans[0].next];
    if |spans| > 1 {
      var rest := spans[1..];
      CommandTextsConcatenate(text, positionAt, rest);
      var restTexts := seq(|rest|, i requires 0 <= i < |rest| => CommandsOf(text, positionAt, rest)[i].text);
      assert texts[1..] == restTexts;
      assert text[spans[0].start..spans[0].next] + text[rest[0].start..rest[|rest| - 1].next]
          == text[spans[0].start..spans[|spans| - 1].next];
    } else {
      assert texts[1..] == [];
    }
  }

  /** The generator's commands, under a parser reporting lengths within its
      input, are contiguous, start at `begin`, and their texts are exactly
      the document text they cover. */
  lemma CommandSequenceCoversText(text: string, offsetAt: Position -> nat, positionAt: nat -> Position,
                                  parse: string -> int, begin: Position, end: Option<Position>, demand: nat)
    requires ParserWithinInput(parse)
    ensures var spans := CommandSpans(text, offsetAt, parse, begin, end, demand);
      spans != [] ==>
        offsetAt(begin) <= spans[|spans| - 1].next <= |text| &&
        Lib.Join(seq(|spans|, i requires 0 <= i < |spans| => CommandsOf(text, positionAt, spans)[i].text))
        == text[offsetAt(begin)..spans[|spans| - 1].next]
  {
    var spans := CommandSpans(text, offsetAt, parse, begin, end, demand);
    if spans != [] {
      var endOffset := EndOffset(text, offsetAt, end);
      SpansWithinText(text, endOffset, offsetAt(begin), parse, demand);
      CommandTextsConcatenate(text, positionAt, spans);
    }
  }

  // ---------------------------------------------------------------------
  // toGoal, query, diagnostics
  // ---------------------------------------------------------------------

  /** A result with its focus removed, to compare payloads. */
  function Unfocused(r: CommandResult): CommandResult
  {
    match r
    case NotRunningResult(_, _) => r
    case BusyResult(_) => BusyResult(None)
    case FailureResult(f, _) => FailureResult(f, None)
    case ProofViewResult(_) => r
    case InterruptedResult(range, _) => InterruptedResult(range, None)
    case NoProofResult(_) => NoProofResult(None)
  }

  function FocusOf(r: CommandResult): Option<Position>
  {
    match r
    case NotRunningResult(_, _) => None
    case ProofViewResult(v) => Some(v.focus)
    case BusyResult(f) => f
    case FailureResult(_, f) => f
    case InterruptedResult(_, f) => f
    case NoProofResult(f) => f
  }

  /** `toGoal`: `{focus, ...goal}` -- the state machine's focus, unless the
      result already has one of its own (a proof view), which wins. */
  function ToGoal(goal: CommandResult, stmRunning: bool, stmFocus: Position): (r: CommandResult)
    ensures goal.NotRunningResult? ==> r == goal
    ensures !goal.NotRunningResult? && !stmRunning ==> r == NotRunningResult(NotStarted, None)
    ensures !goal.NotRunningResult? && stmRunning ==>
      Unfocused(r) == Unfocused(goal) &&
      FocusOf(r) == Some(if goal.ProofViewResult? then goal.view.focus else stmFocus)
  {
    if goal.NotRunningResult? then goal
    else if !stmRunning then NotRunningResult(NotStarted, None)
    else match goal
      case BusyResult(_) => BusyResult(Some(stmFocus))
      case FailureResult(f, _) => FailureResult(f, Some(stmFocus))
      case ProofViewResult(_) => goal
      case InterruptedResult(range, _) => InterruptedResult(range, Some(stmFocus))
      case NoProofResult(_) => NoProofResult(Some(stmFocus))
  }

  datatype QueryKind = Locate | Check | Print | Search | About | SearchAbout

  function QueryCommand(kind: QueryKind): string
  {
    match kind
    case Locate => "Locate"
    case Check => "Check"
    case Print => "Print"
    case Search => "Search"
    case About => "About"
    case SearchAbout => "SearchAbout"
  }

  /** The answer and the query texts sent to the prover, in order. */
  datatype QueryOutcome = QueryOutcome(answer: Result<string, string>, sent: seq<string>)

  const NotRunningMessage := "Coq is not running"

  /** `query`: the prover's `doQuery` is a parameter whose failure is the
      rejected promise. */
  function Query(stmRunning: bool, kind: QueryKind, term: string, doQuery: string -> Result<string, string>): (r: QueryOutcome)
    ensures !stmRunning ==> r == QueryOutcome(Success(NotRunningMessage), [])
    ensures stmRunning ==> |r.sent| >= 1 && r.sent[0] == QueryCommand(kind) + " " + term + "."
    ensures stmRunning ==> r.answer == doQuery(r.sent[|r.sent| - 1])
    ensures stmRunning && |r.sent| == 2 ==>
      kind == Locate && doQuery(r.sent[0]).Failure? && r.sent[1] == "Locate \"" + term + "\"."
    ensures stmRunning && (kind != Locate || doQuery(r.sent[0]).Success?) ==> |r.sent| == 1
  {
    if !stmRunning then QueryOutcome(Success(NotRunningMessage), [])
    else
      var first := QueryCommand(kind) + " " + term + ".";
      if kind == Locate && doQuery(first).Failure? then
        var quoted := "Locate \"" + term + "\".";
        QueryOutcome(doQuery(quoted), [first, quoted])
      else QueryOutcome(doQuery(first), [first])
  }

  datatype DiagnosticSeverity = SeverityError | SeverityWarning | SeverityInformation | SeverityHint

  /** A diagnostic as the state machine reports it. */
  datatype StmDiagnostic = StmDiagnostic(message: AnnotatedText, range: Option<Range>, sentence: Range, severity: DiagnosticSeverity)

  datatype Diagnostic = Diagnostic(range: Range, message: string, severity: DiagnosticSeverity, source: string)

  /** The error's own range when it has one, the sentence's otherwise; the
      message in its display form. */
  function ToDiagnostic(d: StmDiagnostic): (r: Diagnostic)
    ensures d.range.Some? ==> r.range == d.range.value
    ensures d.range.None? ==> r.range == d.sentence
    ensures r.message == Lib.TextToDisplayString(d.message) && r.severity == d.severity && r.source == "coqtop"
  {
    Diagnostic(if d.range.Some? then d.range.value else d.sentence, Lib.TextToDisplayString(d.message), d.severity, "coqtop")
  }

  // ---------------------------------------------------------------------
  // The document object
  // ---------------------------------------------------------------------

  /** The part of the document's state the modelled operations read and
      write: whether the state machine runs, and the ranges marked as
      being parsed. */
  class CoqDocument {
    var stmRunning: bool
    var parsingRanges: seq<Range>

    constructor (stmRunning: bool)
      ensures this.stmRunning == stmRunning && parsingRanges == []
    {
      this.stmRunning := stmRunning;
      parsingRanges := [];
    }

    /** `createHighlights`. */
    method CreateHighlights(sentences: seq<StmSentence>) returns (ranges: seq<seq<Range>>)
      ensures ranges == if stmRunning then HighlightsOf(sentences) else EmptyHighlights()
    {
      ranges := [[], [], [], [], [], []];
      if !stmRunning {
        return;
      }
      var i := 0;
      while i < |sentences|
        invariant 0 <= i <= |sentences|
        invariant ranges == HighlightsOf(sentences[..i])
      {
        var sent := sentences[i];
        var t := HighlightIndex(SentenceToHighlightType(sent.status));
        var list := ranges[t];
        if |list| > 0 && list[|list| - 1].end == sent.range.start {
          list := list[..|list| - 1] + [list[|list| - 1].(end := sent.range.end)];
        } else {
          list := list + [Range(sent.range.start, sent.range.end)];
        }
        ranges := ranges[t := list];
        assert sentences[..i + 1][..i] == sentences[..i];
        i := i + 1;
      }
      assert sentences[..i] == sentences;
    }

    /** The highlights sent: the created ones, with the ranges marked as
        parsing added to the parsing list. */
    method UpdateHighlights(sentences: seq<StmSentence>) returns (ranges: seq<seq<Range>>)
      ensures |ranges| == 6
      ensures forall t :: 0 <= t < 6 && t != HighlightIndex(HighlightType.Parsing) ==>
        ranges[t] == (if stmRunning then HighlightsOf(sentences) else EmptyHighlights())[t]
      ensures ranges[HighlightIndex(HighlightType.Parsing)]
           == (if stmRunning then HighlightsOf(sentences) else EmptyHighlights())[HighlightIndex(HighlightType.Parsing)] + parsingRanges
    {
      ranges := CreateHighlights(sentences);
      var p := HighlightIndex(HighlightType.Parsing);
      ranges := ranges[p := ranges[p] + parsingRanges];
    }

    /** `commandSequenceGenerator(begin, end, highlight)`, asked for
        `demand` commands: the yielded commands, with the accepted ones'
        ranges marked as parsing when `highlight` is set. */
    method CommandSequence(text: string, offsetAt: Position -> nat, positionAt: nat -> Position, parse: string -> int,
                           begin: Position, end: Option<Position>, highlight: bool, demand: nat)
      returns (commands: seq<Command>)
      modifies this
      ensures stmRunning == old(stmRunning)
      ensures commands == CommandsOf(text, positionAt, CommandSpans(text, offsetAt, parse, begin, end, demand))
      ensures parsingRanges == old(parsingRanges) +
        (if highlight then RangesOf(text, positionAt, Accepted(CommandSpans(text, offsetAt, parse, begin, end, demand), demand)) else [])
    {
      var endOffset := EndOffset(text, offsetAt, end);
      if offsetAt(begin) >= endOffset {
        commands := [];
      } else {
        commands := Pull(text, positionAt, parse, endOffset, offsetAt(begin), highlight, demand);
      }
    }

    /** The generator's loop, from `currentOffset` on. */
    method Pull(text: string, positionAt: nat -> Position, parse: string -> int,
                endOffset: nat, start: nat, highlight: bool, demand: nat)
      returns (commands: seq<Command>)
      modifies this
      ensures stmRunning == old(stmRunning)
      ensures commands == CommandsOf(text, positionAt, GeneratedSpans(text, endOffset, start, parse, demand))
      ensures parsingRanges == old(parsingRanges) +
        (if highlight then RangesOf(text, positionAt, Accepted(GeneratedSpans(text, endOffset, start, parse, demand), demand)) else [])
    {
      ghost var all := GeneratedSpans(text, endOffset, start, parse, demand);
      var currentOffset := start;
      commands := [];
      ghost var spans: seq<Span> := [];
      var pulls := 0;
      while pulls < demand
        invariant pulls <= demand && |spans| == pulls
        invariant all == spans + GeneratedSpans(text, endOffset, currentOffset, parse, demand - pulls)
        invariant commands == CommandsOf(text, positionAt, spans)
        invariant stmRunning == old(stmRunning)
        invariant parsingRanges == old(parsingRanges) + (if highlight then RangesOf(text, positionAt, Accepted(spans, demand)) else [])
      {
        var next := NextOffset(text, endOffset, currentOffset, parse);
        if next.None? {
          break;
        }
        var sp := Span(currentOffset, next.value);
        GeneratedSnoc(all, spans, text, endOffset, currentOffset, parse, demand - pulls);
        CommandsOfSnoc(text, positionAt, spans, sp);
        var command := CommandOf(text, positionAt, sp);
        MarkAccepted(text, positionAt, spans, pulls, sp, demand, highlight, old(parsingRanges));
        commands := commands + [command];
        spans := spans + [sp];
        currentOffset := next.value;
        pulls := pulls + 1;
      }
      GeneratedDone(all, spans, text, endOffset, currentOffset, parse, demand - pulls);
    }

    /** Requesting the command after `spans`: the range of the last one
        yielded is pushed when the generator is resumed, that is, when one
        more command is requested. */
    method MarkAccepted(text: string, positionAt: nat -> Position, ghost spans: seq<Span>, pulls: nat, sp: Span,
                        demand: nat, highlight: bool, ghost before: seq<Range>)
      requires |spans| == pulls < demand
      requires parsingRanges == before + (if highlight then RangesOf(text, positionAt, Accepted(spans, demand)) else [])
      modifies this
      ensures stmRunning == old(stmRunning)
      ensures parsingRanges == before + (if highlight then RangesOf(text, positionAt, Accepted(spans + [sp], demand)) else [])
    {
      AcceptedSnoc(text, positionAt, spans, sp, demand);
      if pulls + 1 < demand && highlight {
        MarkParsing(CommandOf(text, positionAt, sp).range);
      }
    }

    method MarkParsing(range: Range)
      modifies this
      ensures stmRunning == old(stmRunning) && parsingRanges == old(parsingRanges) + [range]
    {
      parsingRanges := parsingRanges + [range];
    }

    /** `updateDiagnostics`: nothing is sent while the state machine is
        stopped; otherwise one diagnostic per reported one, in order. */
    method UpdateDiagnostics(reported: seq<StmDiagnostic>) returns (sent: Option<seq<Diagnostic>>)
      ensures !stmRunning ==> sent.None?
      ensures stmRunning ==>
        sent.Some? && |sent.value| == |reported| &&
        forall i :: 0 <= i < |reported| ==> sent.value[i] == ToDiagnostic(reported[i])
    {
      if !stmRunning {
        return None;
      }
      var diagnostics: seq<Diagnostic> := [];
      var i := 0;
      while i < |reported|
        invariant 0 <= i <= |reported| && |diagnostics| == i
        invariant forall j :: 0 <= j < i ==> diagnostics[j] == ToDiagnostic(reported[j])
      {
        var d := reported[i];
        var range := d.sentence;
        if d.range.Some? {
          range := d.range.value;
        }
        diagnostics := diagnostics + [Diagnostic(range, Lib.TextToDisplayString(d.message), d.severity, "coqtop")];
        i := i + 1;
      }
      return Some(diagnostics);
    }
  }
}
