/** The pure and stateful helpers of the hover provider
    (client/src/HoverProvider.ts): matching a closing parenthesis, and the
    memo of recent hover queries, which is refreshed by age before each
    lookup. */
module HoverProvider {
  import opened Wrappers

  // ---------------------------------------------------------------------
  // findClosingParenthese
  // ---------------------------------------------------------------------

  /** Opening minus closing parentheses in `s`. */
  function Depth(s: string): int
  {
    if s == [] then 0
    else Depth(s[..|s| - 1]) + DepthChange(s[|s| - 1])
  }

  function DepthChange(c: char): int
  {
    if c == '(' then 1 else if c == ')' then -1 else 0
  }

  /** The depth after reading `str[start..i]` inclusive of index `i`. */
  function DepthAt(str: string, start: nat, i: nat): int
    requires start <= i < |str|
  {
    Depth(str[start..i + 1])
  }

  /** `findClosingParenthese`: the first index from `start` on at which the
      running depth drops below zero. */
  method FindClosingParenthese(str: string, start: nat) returns (r: Option<nat>)
    ensures r.Some? ==>
      start <= r.value < |str| && str[r.value] == ')' && DepthAt(str, start, r.value) < 0 &&
      forall j :: start <= j < r.value ==> DepthAt(str, start, j) >= 0
    ensures r.None? ==> forall j :: start <= j < |str| ==> DepthAt(str, start, j) >= 0
  {
    var depth := 0;
    var i := start;
    while i < |str|
      invariant start <= i && (start <= |str| ==> i <= |str|)
      invariant i <= |str| ==> depth == Depth(str[start..i])
      invariant depth >= 0
      invariant forall j :: start <= j < i && j < |str| ==> DepthAt(str, start, j) >= 0
    {
      assert str[start..i + 1][..i - start] == str[start..i];
      if str[i] == '(' {
        depth := depth + 1;
      }
      if str[i] == ')' {
        depth := depth - 1;
      }
      if depth < 0 {
        return Some(i);
      }
      i := i + 1;
    }
    return None;
  }

  /** Only the parentheses of a string. */
  function Parens(s: string): (r: string)
    ensures forall i :: 0 <= i < |r| ==> r[i] == '(' || r[i] == ')'
    ensures |r| <= |s|
  {
    if s == [] then []
    else Parens(s[..|s| - 1]) + (if s[|s| - 1] == '(' || s[|s| - 1] == ')' then [s[|s| - 1]] else [])
  }

  /** Characters other than parentheses never change the depth, hence
      never the index found. */
  lemma {:induction false} DepthOnlyParens(s: string)
    ensures Depth(s) == Depth(Parens(s))
    decreases |s|
  {
    if s != [] {
      var init := s[..|s| - 1];
      var c := s[|s| - 1];
      assert Depth(s) == Depth(init) + DepthChange(c);
      DepthOnlyParens(init);
      if c == '(' || c == ')' {
        var p := Parens(init) + [c];
        assert Parens(s) == p;
        assert p[..|p| - 1] == Parens(init) && p[|p| - 1] == c;
        assert Depth(p) == Depth(Parens(init)) + DepthChange(c);
      } else {
        assert Parens(s) == Parens(init) + [];
        assert Parens(init) + [] == Parens(init);
      }
    }
  }

  // ---------------------------------------------------------------------
  // The memo of recent queries
  // ---------------------------------------------------------------------

  const QueryRedoDelay := 2000

  /** A formatted hover. */
  datatype Hover = Hover(contents: seq<string>)

  datatype QueryMethod = CheckQuery | LocateQuery | AboutQuery

  datatype QueryRecord = QueryRecord(input: string, time: int, output: Hover)

  /** `filterOld`: at most two seconds old. */
  predicate FilterOld(now: int, q: QueryRecord)
  {
    now - q.time <= QueryRedoDelay
  }

  /** `recent_queries.filter(filterOld)`. */
  function KeepRecent(qs: seq<QueryRecord>, now: int): (r: seq<QueryRecord>)
    ensures forall q :: q in r <==> q in qs && FilterOld(now, q)
    ensures |r| <= |qs|
  {
    if qs == [] then []
    else KeepRecent(qs[..|qs| - 1], now) + (if FilterOld(now, qs[|qs| - 1]) then [qs[|qs| - 1]] else [])
  }

  /** The first record for `input`. */
  function FirstFor(qs: seq<QueryRecord>, input: string): (r: Option<QueryRecord>)
    ensures r.Some? ==> r.value in qs && r.value.input == input
    ensures r.None? ==> forall q :: q in qs ==> q.input != input
  {
    if qs == [] then None
    else if qs[0].input == input then Some(qs[0])
    else FirstFor(qs[1..], input)
  }

  /** A call to the prover's hover query for a method and a text. */
  datatype HoverQuery = HoverQuery(kind: QueryMethod, text: string)

  /** What `query_input` does: the answer, the queries it sent, and the new
      memo. */
  datatype MemoStep = MemoStep(answer: Option<Hover>, sent: seq<HoverQuery>, recent: seq<QueryRecord>)

  function IsNotation(input: string): bool
  {
    |input| > 0 && input[0] == '"'
  }

  /** `query_input`, with the time and the prover's formatted answer as
      parameters. */
  function QueryInputSpec(recent: seq<QueryRecord>, input: string, now: int, hoverFunction: QueryMethod,
                          query: HoverQuery -> Option<Hover>): (r: MemoStep)
    ensures FirstFor(KeepRecent(recent, now), input).Some? ==>
      r == MemoStep(Some(FirstFor(KeepRecent(recent, now), input).value.output), [], KeepRecent(recent, now))
    ensures FirstFor(KeepRecent(recent, now), input).None? ==>
      1 <= |r.sent| <= 2 &&
      r.sent[0] == HoverQuery(if IsNotation(input) then LocateQuery else hoverFunction, input) &&
      r.answer == query(r.sent[|r.sent| - 1]) &&
      (|r.sent| == 2 <==> query(r.sent[0]).None? && !IsNotation(input)) &&
      (|r.sent| == 2 ==> r.sent[1] == HoverQuery(LocateQuery, "\"" + input + "\"")) &&
      r.recent == KeepRecent(recent, now) + (if r.answer.Some? then [QueryRecord(input, now, r.answer.value)] else [])
  {
    var kept := KeepRecent(recent, now);
    match FirstFor(kept, input)
    case Some(hit) => MemoStep(Some(hit.output), [], kept)
    case None =>
      var first := HoverQuery(if IsNotation(input) then LocateQuery else hoverFunction, input);
      var sent := if query(first).None? && !IsNotation(input)
        then [first, HoverQuery(LocateQuery, "\"" + input + "\"")]
        else [first];
      var answer := query(sent[|sent| - 1]);
      MemoStep(answer, sent, kept + (if answer.Some? then [QueryRecord(input, now, answer.value)] else []))
  }

  /** Asking again within two seconds of a query the prover answered
      gives the same answer without querying the prover. */
  lemma RepeatedQueryHitsMemo(recent: seq<QueryRecord>, input: string, now: int, later: int, hoverFunction: QueryMethod,
                              query: HoverQuery -> Option<Hover>, query2: HoverQuery -> Option<Hover>)
    requires QueryInputSpec(recent, input, now, hoverFunction, query).sent != []
    requires QueryInputSpec(recent, input, now, hoverFunction, query).answer.Some?
    requires now <= later <= now + QueryRedoDelay
    ensures var first := QueryInputSpec(recent, input, now, hoverFunction, query);
      var second := QueryInputSpec(first.recent, input, later, hoverFunction, query2);
      second.sent == [] && second.answer == first.answer
  {
    var first := QueryInputSpec(recent, input, now, hoverFunction, query);
    var kept0 := KeepRecent(recent, now);
    assert FirstFor(kept0, input).None?;
    var rec := QueryRecord(input, now, first.answer.value);
    assert first.recent == kept0 + [rec];
    var kept := KeepRecent(first.recent, later);
    assert rec in kept;
    var found := FirstFor(kept, input);
    assert found.value in first.recent;
    assert found.value !in kept0;
    assert found.value == rec;
  }

  /** The memo: `recent_queries`. */
  class HoverMemo {
    var recentQueries: seq<QueryRecord>

    constructor ()
      ensures recentQueries == []
    {
      recentQueries := [];
    }

    /** `query_input`. */
    method QueryInput(input: string, now: int, hoverFunction: QueryMethod, query: HoverQuery -> Option<Hover>)
      returns (answer: Option<Hover>, sent: seq<HoverQuery>)
      modifies this
      ensures MemoStep(answer, sent, recentQueries) == QueryInputSpec(old(recentQueries), input, now, hoverFunction, query)
    {
      recentQueries := KeepRecent(recentQueries, now);
      var hasQuery := FirstFor(recentQueries, input);
      if hasQuery.Some? {
        return Some(hasQuery.value.output), [];
      }
      var isNotation := IsNotation(input);
      var queryMethod := if isNotation then LocateQuery else hoverFunction;
      sent := [HoverQuery(queryMethod, input)];
      var response := query(HoverQuery(queryMethod, input));
      if response.None? && !isNotation {
        sent := sent + [HoverQuery(LocateQuery, "\"" + input + "\"")];
        response := query(HoverQuery(LocateQuery, "\"" + input + "\""));
      }
      if response.None? {
        return None, sent;
      }
      recentQueries := recentQueries + [QueryRecord(input, now, response.value)];
      return response, sent;
    }
  }
}
