/** Qualified identifiers and the scopes that sentences declare
    (server/src/sentence-model/Scopes.ts).  A scope declaration is an object
    whose symbol lists are pushed to; the lookups walk backwards over the
    chain of sentences, which is an arena of sentence records whose `prev`
    is an earlier index, each holding a snapshot of its scope. */
module Scopes {
  import opened Wrappers
  import opened Positions

  type QualId = seq<string>

  /** `a` is a trailing part of `b`. */
  predicate IsSuffix(a: QualId, b: QualId)
  {
    |a| <= |b| && b[|b| - |a|..] == a
  }

  // ---------------------------------------------------------------------
  // resolveQualId, matchQualId, qualIdEqual
  // ---------------------------------------------------------------------

  /** `resolveQualId`: `id2` names `id1` when it is a suffix of it, and the
      resolved name is then `id1` itself. */
  method ResolveQualId(id1: QualId, id2: QualId) returns (r: Option<QualId>)
    ensures r.None? <==> !IsSuffix(id2, id1)
    ensures r.Some? ==> r.value == id1
  {
    if |id2| > |id1| {
      return None;
    }
    var idx := 1;
    while idx <= |id2|
      invariant 1 <= idx <= |id2| + 1
      invariant id1[|id1| - (idx - 1)..] == id2[|id2| - (idx - 1)..]
    {
      if id1[|id1| - idx] != id2[|id2| - idx] {
        assert id1[|id1| - |id2|..][|id2| - idx] == id1[|id1| - idx];
        return None;
      }
      assert id1[|id1| - idx..] == [id1[|id1| - idx]] + id1[|id1| - (idx - 1)..];
      assert id2[|id2| - idx..] == [id2[|id2| - idx]] + id2[|id2| - (idx - 1)..];
      idx := idx + 1;
    }
    assert id1[..|id1| - |id2|] + id1[|id1| - |id2|..] == id1;
    r := Some(id1[..|id1| - idx + 1] + id2);
  }

  /** A successful `matchQualId`: `which` is 1 when the first argument was
      the longer, `id` is the shorter path and `prefix` what precedes it in
      the longer one. */
  datatype QualIdMatch = QualIdMatch(which: nat, prefix: QualId, id: QualId)

  /** The match of a shorter path against a longer one. */
  function SuffixMatch(which: nat, shorter: QualId, longer: QualId): (r: Option<QualIdMatch>)
    ensures r.Some? <==> IsSuffix(shorter, longer)
    ensures r.Some? ==> r.value.which == which && r.value.id == shorter && r.value.prefix + shorter == longer
  {
    if IsSuffix(shorter, longer) then
      assert longer[..|longer| - |shorter|] + longer[|longer| - |shorter|..] == longer;
      Some(QualIdMatch(which, longer[..|longer| - |shorter|], shorter))
    else None
  }

  /** Reference definition of `matchQualId`: the shorter path (the first on
      a tie) must be a suffix of the longer. */
  function MatchOf(x: QualId, y: QualId): (r: Option<QualIdMatch>)
    ensures r.Some? ==> r.value.which == (if |x| > |y| then 1 else 0)
    ensures r.Some? && |x| > |y| ==> r.value.prefix + r.value.id == x && r.value.id == y
    ensures r.Some? && |x| <= |y| ==> r.value.prefix + r.value.id == y && r.value.id == x
  {
    if |x| > |y| then SuffixMatch(1, y, x) else SuffixMatch(0, x, y)
  }

  /** Whether two paths match does not depend on the order they are given in. */
  lemma MatchSymmetric(x: QualId, y: QualId)
    ensures MatchOf(x, y).Some? <==> MatchOf(y, x).Some?
  {
    if |x| == |y| {
      assert IsSuffix(x, y) <==> x == y;
      assert IsSuffix(y, x) <==> x == y;
    }
  }

  /** `matchQualId`, as the index loop comparing the two paths from the end. */
  method MatchQualId(x: QualId, y: QualId) returns (r: Option<QualIdMatch>)
    ensures r == MatchOf(x, y)
  {
    if |x| > |y| {
      r := MatchFromEnd(1, y, x);
    } else {
      r := MatchFromEnd(0, x, y);
    }
  }

  /** The loop of `matchQualId`, once the shorter path is known. */
  method MatchFromEnd(which: nat, shorter: QualId, longer: QualId) returns (r: Option<QualIdMatch>)
    requires |shorter| <= |longer|
    ensures r == SuffixMatch(which, shorter, longer)
  {
    var idx := 1;
    while idx <= |shorter|
      invariant 1 <= idx <= |shorter| + 1
      invariant longer[|longer| - (idx - 1)..] == shorter[|shorter| - (idx - 1)..]
    {
      if shorter[|shorter| - idx] != longer[|longer| - idx] {
        assert longer[|longer| - |shorter|..][|shorter| - idx] == longer[|longer| - idx];
        return None;
      }
      assert longer[|longer| - idx..] == [longer[|longer| - idx]] + longer[|longer| - (idx - 1)..];
      assert shorter[|shorter| - idx..] == [shorter[|shorter| - idx]] + shorter[|shorter| - (idx - 1)..];
      idx := idx + 1;
    }
    r := Some(QualIdMatch(which, longer[..|longer| - idx + 1], shorter));
  }

  /** `qualIdEqual` is sequence equality. */
  method QualIdEqual(x: QualId, y: QualId) returns (r: bool)
    ensures r <==> x == y
  {
    if |x| != |y| {
      return false;
    }
    var idx := 0;
    while idx < |x|
      invariant 0 <= idx <= |x|
      invariant x[..idx] == y[..idx]
    {
      if x[idx] != y[idx] {
        return false;
      }
      idx := idx + 1;
    }
    assert x == x[..idx] && y == y[..idx];
    return true;
  }

  // ---------------------------------------------------------------------
  // Symbols and scope declarations
  // ---------------------------------------------------------------------

  datatype SymbolKind = Definition | Class | Inductive | Constructor | Module | Let | Section | Ltac | Assumption

  datatype Symbol = Symbol(identifier: string, range: Range, kind: SymbolKind)

  /** A lookup result; `source` is the index of the sentence that declared it. */
  datatype SymbolInformation = SymbolInformation(symbol: Symbol, id: QualId, source: nat, assumedPrefix: QualId)

  /** What a sentence opens or closes, if anything. */
  datatype ScopeNode = Begin(name: string, exports: bool) | End(name: string) | NoNode

  /** A snapshot of a scope declaration's state. */
  datatype ScopeValue = ScopeValue(
    source: nat, myId: QualId, node: ScopeNode,
    privateSymbols: seq<Symbol>, localSymbols: seq<Symbol>, exportSymbols: seq<Symbol>)

  /** `ScopeFlags`, as the bit set the source combines with `&` and `~`. */
  type ScopeFlags = bv3

  const Private: ScopeFlags := 1
  const Local: ScopeFlags := 2
  const Export: ScopeFlags := 4
  const AllFlags: ScopeFlags := 7

  /** `isBegin(name?)`; an empty name counts as no name. */
  predicate IsBegin(sc: ScopeValue, name: Option<string>)
  {
    sc.node.Begin? && (name.None? || name.value == "" || name.value == sc.node.name)
  }

  /** `isEnd(name?)`; an empty name counts as no name. */
  predicate IsEnd(sc: ScopeValue, name: Option<string>)
  {
    sc.node.End? && (name.None? || name.value == "" || name.value == sc.node.name)
  }

  /** A scope declaration: the sentence that defined it, its own path, the
      node it opens or closes, and its three symbol lists. */
  class ScopeDeclaration {
    const source: nat
    const myId: QualId
    const node: ScopeNode
    var privateSymbols: seq<Symbol>
    var localSymbols: seq<Symbol>
    var exportSymbols: seq<Symbol>

    function Value(): ScopeValue
      reads this
    {
      ScopeValue(source, myId, node, privateSymbols, localSymbols, exportSymbols)
    }

    constructor (source: nat, myId: QualId, node: ScopeNode)
      ensures Value() == ScopeValue(source, myId, node, [], [], [])
    {
      this.source := source;
      this.myId := myId;
      this.node := node;
      privateSymbols := [];
      localSymbols := [];
      exportSymbols := [];
    }

    /** A section has no path of its own; its name is visible only inside it. */
    static method CreateSection(source: nat, name: string, range: Range) returns (r: ScopeDeclaration)
      ensures fresh(r)
      ensures r.Value() == ScopeValue(source, [], Begin(name, true), [Symbol(name, range, Section)], [], [])
    {
      r := new ScopeDeclaration(source, [], Begin(name, true));
      r.AddPrivateSymbol(Symbol(name, range, Section));
    }

    /** A module's own path is its name, which it exports. */
    static method CreateModule(source: nat, name: string, exports: bool, range: Range) returns (r: ScopeDeclaration)
      ensures fresh(r)
      ensures r.Value() == ScopeValue(source, [name], Begin(name, exports), [], [], [Symbol(name, range, Module)])
    {
      r := new ScopeDeclaration(source, [name], Begin(name, exports));
      r.AddExportSymbol(Symbol(name, range, Module));
    }

    static method CreateEnd(source: nat, name: string) returns (r: ScopeDeclaration)
      ensures fresh(r)
      ensures r.Value() == ScopeValue(source, [], End(name), [], [], [])
    {
      r := new ScopeDeclaration(source, [], End(name));
    }

    /** A definition exports its name, registered with the `Module` kind. */
    static method CreateDefinition(source: nat, name: string, range: Range) returns (r: ScopeDeclaration)
      ensures fresh(r)
      ensures r.Value() == ScopeValue(source, [], NoNode, [], [], [Symbol(name, range, Module)])
    {
      r := new ScopeDeclaration(source, [], NoNode);
      r.AddExportSymbol(Symbol(name, range, Module));
    }

    method AddPrivateSymbol(s: Symbol)
      modifies this
      ensures Value() == old(Value()).(privateSymbols := old(privateSymbols) + [s])
    {
      privateSymbols := privateSymbols + [s];
    }

    method AddLocalSymbol(s: Symbol)
      modifies this
      ensures Value() == old(Value()).(localSymbols := old(localSymbols) + [s])
    {
      localSymbols := localSymbols + [s];
    }

    method AddExportSymbol(s: Symbol)
      modifies this
      ensures Value() == old(Value()).(exportSymbols := old(exportSymbols) + [s])
    {
      exportSymbols := exportSymbols + [s];
    }
  }

  // ---------------------------------------------------------------------
  // Looking a path up in one scope
  // ---------------------------------------------------------------------

  /** The first symbol with the given identifier. */
  function FindSymbol(symbols: seq<Symbol>, name: string): (r: Option<nat>)
    ensures r.Some? ==> r.value < |symbols| && symbols[r.value].identifier == name
    ensures r.Some? ==> forall j :: 0 <= j < r.value ==> symbols[j].identifier != name
    ensures r.None? ==> forall j :: 0 <= j < |symbols| ==> symbols[j].identifier != name
    decreases |symbols|
  {
    if symbols == [] then None
    else if symbols[0].identifier == name then Some(0)
    else match FindSymbol(symbols[1..], name)
      case None => None
      case Some(k) => Some(k + 1)
  }

  /** Reference definition of `lookupSymbolInList`: the path without its last
      component must match the scope's own path, and the last component
      names the first symbol with that identifier.  An empty path has no
      last component and finds nothing. */
  function SymbolInList(sc: ScopeValue, id: QualId, symbols: seq<Symbol>): (r: Option<SymbolInformation>)
    ensures r.Some? ==> |id| > 0 && r.value.symbol in symbols && r.value.symbol.identifier == id[|id| - 1]
    ensures r.Some? ==> r.value.source == sc.source
  {
    if |id| == 0 then None
    else match MatchOf(id[..|id| - 1], sc.myId)
      case None => None
      case Some(m) =>
        match FindSymbol(symbols, id[|id| - 1])
        case None => None
        case Some(k) =>
          Some(SymbolInformation(symbols[k], m.id + [symbols[k].identifier], sc.source,
                                 if m.which == 1 then m.prefix else []))
  }

  /** A path is found in a list exactly when it is non-empty, its qualifier
      matches the scope's path and some symbol carries its last component. */
  lemma SymbolInListFound(sc: ScopeValue, id: QualId, symbols: seq<Symbol>)
    ensures SymbolInList(sc, id, symbols).Some? <==>
      |id| > 0 && MatchOf(id[..|id| - 1], sc.myId).Some? &&
      exists j :: 0 <= j < |symbols| && symbols[j].identifier == id[|id| - 1]
  {
  }

  /** `lookupSymbolInList`, as the loop over the symbols. */
  method LookupSymbolInList(sc: ScopeValue, id: QualId, symbols: seq<Symbol>) returns (r: Option<SymbolInformation>)
    ensures r == SymbolInList(sc, id, symbols)
  {
    var qualifier := if |id| == 0 then [] else id[..|id| - 1];
    var matched := MatchQualId(qualifier, sc.myId);
    if matched.None? {
      return None;
    }
    var assumedPrefix: QualId := [];
    if matched.value.which == 1 {
      assumedPrefix := matched.value.prefix;
    }
    var i := 0;
    while i < |symbols|
      invariant 0 <= i <= |symbols|
      invariant forall j :: 0 <= j < i ==> !(|id| > 0 && symbols[j].identifier == id[|id| - 1])
    {
      if |id| > 0 && id[|id| - 1] == symbols[i].identifier {
        return Some(SymbolInformation(symbols[i], matched.value.id + [symbols[i].identifier], sc.source, assumedPrefix));
      }
      i := i + 1;
    }
    return None;
  }

  /** Reference definition of `lookupHere`: the private, local and export
      lists, each only when its flag is set, in that order. */
  function HereSpec(sc: ScopeValue, id: QualId, flags: ScopeFlags): (r: Option<SymbolInformation>)
  {
    var p := if flags & Private != 0 then SymbolInList(sc, id, sc.privateSymbols) else None;
    if p.Some? then p
    else
      var l := if flags & Local != 0 then SymbolInList(sc, id, sc.localSymbols) else None;
      if l.Some? then l
      else if flags & Export != 0 then SymbolInList(sc, id, sc.exportSymbols) else None
  }

  /** A result comes from an enabled list, and an earlier enabled list that
      holds the path takes precedence over the later ones. */
  lemma HereSpecOrder(sc: ScopeValue, id: QualId, flags: ScopeFlags)
    ensures HereSpec(sc, id, flags).Some? ==>
      (flags & Private != 0 && HereSpec(sc, id, flags) == SymbolInList(sc, id, sc.privateSymbols)) ||
      (flags & Local != 0 && HereSpec(sc, id, flags) == SymbolInList(sc, id, sc.localSymbols)) ||
      (flags & Export != 0 && HereSpec(sc, id, flags) == SymbolInList(sc, id, sc.exportSymbols))
    ensures flags & Private != 0 && SymbolInList(sc, id, sc.privateSymbols).Some? ==>
      HereSpec(sc, id, flags) == SymbolInList(sc, id, sc.privateSymbols)
    ensures HereSpec(sc, id, flags).None? <==>
      (flags & Private == 0 || SymbolInList(sc, id, sc.privateSymbols).None?) &&
      (flags & Local == 0 || SymbolInList(sc, id, sc.localSymbols).None?) &&
      (flags & Export == 0 || SymbolInList(sc, id, sc.exportSymbols).None?)
  {
  }

  /** `lookupHere`. */
  method LookupHere(sc: ScopeValue, id: QualId, flags: ScopeFlags) returns (r: Option<SymbolInformation>)
    ensures r == HereSpec(sc, id, flags)
  {
    if flags & Private != 0 {
      r := LookupSymbolInList(sc, id, sc.privateSymbols);
      if r.Some? {
        return;
      }
    }
    if flags & Local != 0 {
      r := LookupSymbolInList(sc, id, sc.localSymbols);
      if r.Some? {
        return;
      }
    }
    if flags & Export != 0 {
      r := LookupSymbolInList(sc, id, sc.exportSymbols);
      if r.Some? {
        return;
      }
    }
    return None;
  }

  // ---------------------------------------------------------------------
  // The chain of sentences
  // ---------------------------------------------------------------------

  /** A sentence of the document: the previous sentence, if any, and the
      scope it declares, if any. */
  datatype Sentence = Sentence(prev: Option<nat>, scope: Option<ScopeValue>)

  /** Each sentence's predecessor comes earlier, and each scope records the
      sentence that holds it. */
  predicate WellFormed(arena: seq<Sentence>)
  {
    forall i :: 0 <= i < |arena| ==>
      (arena[i].prev.Some? ==> arena[i].prev.value < i) &&
      (arena[i].scope.Some? ==> arena[i].scope.value.source == i)
  }

  /** `getPreviousSentence`: the scope of the previous sentence. */
  function PreviousScope(arena: seq<Sentence>, sc: ScopeValue): (r: Option<ScopeValue>)
    requires WellFormed(arena) && sc.source < |arena|
    ensures r.Some? ==> r.value.source < sc.source
  {
    match arena[sc.source].prev
    case None => None
    case Some(p) => arena[p].scope
  }

  /** The scopes met walking backwards from `start`, nearest first. */
  function Chain(arena: seq<Sentence>, start: Option<ScopeValue>): (r: seq<ScopeValue>)
    requires WellFormed(arena) && (start.Some? ==> start.value.source < |arena|)
    ensures start.None? <==> r == []
    ensures start.Some? ==> r[0] == start.value
    ensures forall i :: 0 <= i < |r| ==> r[i].source < |arena|
    decreases if start.Some? then start.value.source + 1 else 0
  {
    match start
    case None => []
    case Some(sc) => [sc] + Chain(arena, PreviousScope(arena, sc))
  }

  /** Sentence indices strictly decrease along the chain. */
  lemma {:induction false} ChainDecreasing(arena: seq<Sentence>, start: Option<ScopeValue>)
    requires WellFormed(arena) && (start.Some? ==> start.value.source < |arena|)
    ensures forall i, j :: 0 <= i < j < |Chain(arena, start)| ==> Chain(arena, start)[i].source > Chain(arena, start)[j].source
    decreases if start.Some? then start.value.source + 1 else 0
  {
    if start.Some? {
      var sc := start.value;
      var rest := PreviousScope(arena, sc);
      ChainDecreasing(arena, rest);
      ChainBelow(arena, rest, sc.source);
    }
  }

  lemma {:induction false} ChainBelow(arena: seq<Sentence>, start: Option<ScopeValue>, bound: nat)
    requires WellFormed(arena) && (start.Some? ==> start.value.source < |arena|)
    requires start.Some? ==> start.value.source < bound
    ensures forall i :: 0 <= i < |Chain(arena, start)| ==> Chain(arena, start)[i].source < bound
    decreases if start.Some? then start.value.source + 1 else 0
  {
    if start.Some? {
      ChainBelow(arena, PreviousScope(arena, start.value), bound);
    }
  }

  // ---------------------------------------------------------------------
  // getParentScope and getPrefixes
  // ---------------------------------------------------------------------

  /** The nesting counter after stepping over one scope. */
  function NestAfter(n: nat, sc: ScopeValue): nat
  {
    if IsEnd(sc, None) then n + 1
    else if IsBegin(sc, None) && n > 0 then n - 1
    else n
  }

  /** The nesting counter after stepping over `xs`, nearest first. */
  function Nesting(xs: seq<ScopeValue>): nat
    decreases |xs|
  {
    if xs == [] then 0 else NestAfter(Nesting(xs[..|xs| - 1]), xs[|xs| - 1])
  }

  /** The scope at `k` opens a block that no end met on the way closes. */
  predicate Unmatched(xs: seq<ScopeValue>, k: nat)
    requires k < |xs|
  {
    IsBegin(xs[k], None) && Nesting(xs[..k]) == 0
  }

  function FirstUnmatched(xs: seq<ScopeValue>, from: nat): (r: Option<nat>)
    requires from <= |xs|
    ensures r.Some? ==> from <= r.value < |xs| && Unmatched(xs, r.value)
    ensures r.Some? ==> forall j :: from <= j < r.value ==> !Unmatched(xs, j)
    ensures r.None? ==> forall j :: from <= j < |xs| ==> !Unmatched(xs, j)
    decreases |xs| - from
  {
    if from == |xs| then None
    else if Unmatched(xs, from) then Some(from)
    else FirstUnmatched(xs, from + 1)
  }

  /** The enclosing scope: walking back from the previous sentence, the
      first begin not balanced by an end met on the way. */
  function ParentOf(arena: seq<Sentence>, sc: ScopeValue): (r: Option<ScopeValue>)
    requires WellFormed(arena) && sc.source < |arena|
    ensures r.Some? ==> IsBegin(r.value, None)
  {
    var xs := Chain(arena, PreviousScope(arena, sc));
    match FirstUnmatched(xs, 0)
    case None => None
    case Some(k) => Some(xs[k])
  }

  /** `getParentScope`, as the loop with the nesting counter. */
  method GetParentScope(arena: seq<Sentence>, sc: ScopeValue) returns (r: Option<ScopeValue>)
    requires WellFormed(arena) && sc.source < |arena|
    ensures r == ParentOf(arena, sc)
    ensures r.Some? ==> r.value.source < sc.source
  {
    var nesting := 0;
    var scope := PreviousScope(arena, sc);
    ghost var xs := Chain(arena, scope);
    ghost var k := 0;
    while scope.Some?
      invariant scope.Some? ==> scope.value.source < sc.source
      invariant k <= |xs| && Chain(arena, scope) == xs[k..]
      invariant nesting == Nesting(xs[..k])
      invariant FirstUnmatched(xs, 0) == FirstUnmatched(xs, k)
      decreases if scope.Some? then scope.value.source + 1 else 0
    {
      var s := scope.value;
      ChainStep(arena, s, xs, k);
      NestingStep(xs, k, nesting);
      if IsEnd(s, None) {
        nesting := nesting + 1;
      } else if IsBegin(s, None) && nesting > 0 {
        nesting := nesting - 1;
      } else if IsBegin(s, None) && nesting == 0 {
        return Some(s);
      }
      scope := PreviousScope(arena, s);
      k := k + 1;
    }
    return None;
  }

  /** Stepping over the scope at `k`: the counter it leaves, and whether
      it is where the search stops. */
  lemma NestingStep(xs: seq<ScopeValue>, k: nat, nesting: nat)
    requires k < |xs| && nesting == Nesting(xs[..k])
    ensures Nesting(xs[..k + 1]) == NestAfter(nesting, xs[k])
    ensures Unmatched(xs, k) <==> IsBegin(xs[k], None) && nesting == 0
    ensures Unmatched(xs, k) ==> FirstUnmatched(xs, k) == Some(k)
    ensures !Unmatched(xs, k) ==> FirstUnmatched(xs, k) == FirstUnmatched(xs, k + 1)
  {
    assert xs[..k + 1][..k] == xs[..k];
  }

  /** Every path of `ps` with `p` put in front. */
  function PrependAll(p: QualId, ps: seq<QualId>): (r: seq<QualId>)
    ensures |r| == |ps|
    ensures forall i :: 0 <= i < |ps| ==> r[i] == p + ps[i]
  {
    seq(|ps|, i requires 0 <= i < |ps| => p + ps[i])
  }

  /** `getPrefixes`.  The accumulator starts empty and every step maps or
      extends it by itself, so it stays empty and the result is always the
      single empty prefix. */
  method GetPrefixes(arena: seq<Sentence>, sc: ScopeValue) returns (r: seq<QualId>)
    requires WellFormed(arena) && sc.source < |arena|
    ensures r == [[]]
  {
    var prefixes: seq<QualId> := [];
    var scope := GetParentScope(arena, sc);
    while scope.Some?
      invariant prefixes == []
      invariant scope.Some? ==> scope.value.source < |arena|
      decreases if scope.Some? then scope.value.source + 1 else 0
    {
      var s := scope.value;
      if IsBegin(s, None) && s.node.exports {
        prefixes := prefixes + PrependAll(s.myId, prefixes);
      } else {
        prefixes := PrependAll(s.myId, prefixes);
      }
      scope := GetParentScope(arena, s);
    }
    if |prefixes| == 0 {
      r := [[]];
    } else {
      r := prefixes;
    }
  }

  /** The first of `mine` that also occurs in `theirs`. */
  function FindPrefix(mine: seq<QualId>, theirs: seq<QualId>): (r: Option<QualId>)
    ensures r.Some? ==> r.value in mine && r.value in theirs
    ensures r.None? ==> forall p :: p in mine ==> p !in theirs
    decreases |mine|
  {
    if mine == [] then None
    else if mine[0] in theirs then Some(mine[0])
    else FindPrefix(mine[1..], theirs)
  }

  /** `resolveSymbol`.  Since the scope's own prefixes are `[[]]`, a symbol
      survives exactly when the empty prefix is among `idPrefixes`, and it
      then keeps its path and loses its assumed prefix. */
  method ResolveSymbol(arena: seq<Sentence>, sc: ScopeValue, s: Option<SymbolInformation>, idPrefixes: seq<QualId>)
    returns (r: Option<SymbolInformation>)
    requires WellFormed(arena) && sc.source < |arena|
    ensures r == if s.Some? && [] in idPrefixes then Some(s.value.(assumedPrefix := [])) else None
  {
    if s.None? {
      return None;
    }
    var myPrefixes := GetPrefixes(arena, sc);
    var prefix := FindPrefix(myPrefixes, idPrefixes);
    if prefix.Some? {
      assert prefix.value == [];
      assert prefix.value + s.value.id == s.value.id;
      r := Some(s.value.(assumedPrefix := [], id := prefix.value + s.value.id));
    } else {
      r := None;
    }
  }

  // ---------------------------------------------------------------------
  // lookup
  // ---------------------------------------------------------------------

  /** The walk's flags and the stack of flags saved at each end. */
  datatype WalkState = WalkState(flags: ScopeFlags, flagStack: seq<ScopeFlags>)

  /** Stepping past one scope: Private is dropped after the first; an end
      saves the flags and hides Local; a begin restores what its end saved. */
  function WalkStep(ws: WalkState, sc: ScopeValue): WalkState
  {
    var flags := ws.flags & !Private;
    if IsEnd(sc, None) then WalkState(flags & !Local, ws.flagStack + [flags])
    else if IsBegin(sc, None) && |ws.flagStack| > 0 then
      WalkState(ws.flagStack[|ws.flagStack| - 1], ws.flagStack[..|ws.flagStack| - 1])
    else WalkState(flags, ws.flagStack)
  }

  /** The walk's state on reaching the scope at `k`. */
  function StateAt(xs: seq<ScopeValue>, flags: ScopeFlags, k: nat): WalkState
    requires k <= |xs|
    decreases k
  {
    if k == 0 then WalkState(flags, []) else WalkStep(StateAt(xs, flags, k - 1), xs[k - 1])
  }

  /** What one scope contributes to the results. */
  function ResultAt(sc: ScopeValue, id: QualId, flags: ScopeFlags): seq<SymbolInformation>
  {
    match HereSpec(sc, id, flags)
    case None => []
    case Some(s) => [s.(assumedPrefix := [])]
  }

  /** The results of the first `k` scopes of the walk. */
  function ResultsUpTo(xs: seq<ScopeValue>, id: QualId, flags: ScopeFlags, k: nat): seq<SymbolInformation>
    requires k <= |xs|
    decreases k
  {
    if k == 0 then []
    else ResultsUpTo(xs, id, flags, k - 1) + ResultAt(xs[k - 1], id, StateAt(xs, flags, k - 1).flags)
  }

  function LookupSpec(arena: seq<Sentence>, sc: ScopeValue, id: QualId, flags: ScopeFlags): seq<SymbolInformation>
    requires WellFormed(arena) && sc.source < |arena|
  {
    var xs := Chain(arena, Some(sc));
    ResultsUpTo(xs, id, flags, |xs|)
  }

  /** `lookup`, as the backward walk over the sentences. */
  method Lookup(arena: seq<Sentence>, sc: ScopeValue, id: QualId, flags: ScopeFlags) returns (results: seq<SymbolInformation>)
    requires WellFormed(arena) && sc.source < |arena|
    ensures results == LookupSpec(arena, sc, id, flags)
  {
    var idPrefixes := GetPrefixes(arena, sc);
    results := [];
    var scope: Option<ScopeValue> := Some(sc);
    var currentFlags := flags;
    var flagStack: seq<ScopeFlags> := [];
    ghost var xs := Chain(arena, scope);
    ghost var k := 0;
    while scope.Some?
      invariant scope.Some? ==> scope.value.source < |arena|
      invariant k <= |xs| && Chain(arena, scope) == xs[k..]
      invariant WalkState(currentFlags, flagStack) == StateAt(xs, flags, k)
      invariant results == ResultsUpTo(xs, id, flags, k)
      decreases if scope.Some? then scope.value.source + 1 else 0
    {
      var s := scope.value;
      ChainStep(arena, s, xs, k);
      results, currentFlags, flagStack := VisitScope(arena, s, id, idPrefixes, results, currentFlags, flagStack);
      assert results == ResultsUpTo(xs, id, flags, k + 1);
      assert WalkState(currentFlags, flagStack) == StateAt(xs, flags, k + 1);
      scope := PreviousScope(arena, s);
      k := k + 1;
    }
  }

  /** One step back along a chain. */
  lemma ChainStep(arena: seq<Sentence>, s: ScopeValue, xs: seq<ScopeValue>, k: nat)
    requires WellFormed(arena) && s.source < |arena|
    requires k <= |xs| && Chain(arena, Some(s)) == xs[k..]
    ensures k < |xs| && xs[k] == s
    ensures Chain(arena, PreviousScope(arena, s)) == xs[k + 1..]
  {
    assert xs[k..][1..] == xs[k + 1..];
  }

  /** What `resolveSymbol` makes of the symbol found in one scope is that
      scope's contribution to the results. */
  lemma ResolvedIsResultAt(sc: ScopeValue, id: QualId, flags: ScopeFlags, idPrefixes: seq<QualId>,
                           result: Option<SymbolInformation>)
    requires idPrefixes == [[]]
    requires result == if HereSpec(sc, id, flags).Some? && [] in idPrefixes
      then Some(HereSpec(sc, id, flags).value.(assumedPrefix := [])) else None
    ensures ResultAt(sc, id, flags) == if result.Some? then [result.value] else []
  {
    assert [] in idPrefixes by {
      assert idPrefixes[0] == [];
    }
  }

  /** One step of `lookup`: the symbol the scope holds, resolved and added
      to the results, then the flag updates. */
  method VisitScope(arena: seq<Sentence>, s: ScopeValue, id: QualId, idPrefixes: seq<QualId>,
                    results: seq<SymbolInformation>, currentFlags: ScopeFlags, flagStack: seq<ScopeFlags>)
    returns (results': seq<SymbolInformation>, flags: ScopeFlags, stack: seq<ScopeFlags>)
    requires WellFormed(arena) && s.source < |arena| && idPrefixes == [[]]
    ensures results' == results + ResultAt(s, id, currentFlags)
    ensures WalkState(flags, stack) == WalkStep(WalkState(currentFlags, flagStack), s)
  {
    var here := LookupHere(s, id, currentFlags);
    var result := ResolveSymbol(arena, s, here, idPrefixes);
    ResolvedIsResultAt(s, id, currentFlags, idPrefixes, result);
    results' := results;
    if result.Some? {
      results' := results' + [result.value];
    }
    flags, stack := StepFlags(currentFlags, flagStack, s);
  }

  /** The flag updates of one step of `lookup`. */
  method StepFlags(currentFlags: ScopeFlags, flagStack: seq<ScopeFlags>, s: ScopeValue)
    returns (flags: ScopeFlags, stack: seq<ScopeFlags>)
    ensures WalkState(flags, stack) == WalkStep(WalkState(currentFlags, flagStack), s)
  {
    flags, stack := currentFlags & !Private, flagStack;
    if IsEnd(s, None) {
      stack := stack + [flags];
      flags := flags & !Local;
    } else if IsBegin(s, None) && |stack| > 0 {
      flags := stack[|stack| - 1];
      stack := stack[..|stack| - 1];
    }
  }

  /** Private symbols are searched only in the scope the lookup starts from:
      past it, neither the flags nor any saved flags carry Private. */
  lemma {:induction false} PrivateOnlyFirst(xs: seq<ScopeValue>, flags: ScopeFlags, k: nat)
    requires 1 <= k <= |xs|
    ensures StateAt(xs, flags, k).flags & Private == 0
    ensures forall i :: 0 <= i < |StateAt(xs, flags, k).flagStack| ==> StateAt(xs, flags, k).flagStack[i] & Private == 0
    decreases k
  {
    if k > 1 {
      PrivateOnlyFirst(xs, flags, k - 1);
    }
  }

  /** Results come out in walk order, each from a scope further back than
      the one before. */
  lemma {:induction false} ResultsInWalkOrder(xs: seq<ScopeValue>, id: QualId, flags: ScopeFlags, k: nat)
    requires k <= |xs|
    requires forall i, j :: 0 <= i < j < |xs| ==> xs[i].source > xs[j].source
    ensures k > 0 ==> forall i :: 0 <= i < |ResultsUpTo(xs, id, flags, k)| ==>
      ResultsUpTo(xs, id, flags, k)[i].source >= xs[k - 1].source
    ensures forall i, j :: 0 <= i < j < |ResultsUpTo(xs, id, flags, k)| ==>
      ResultsUpTo(xs, id, flags, k)[i].source > ResultsUpTo(xs, id, flags, k)[j].source
    decreases k
  {
    if k > 0 {
      ResultsInWalkOrder(xs, id, flags, k - 1);
      var here := ResultAt(xs[k - 1], id, StateAt(xs, flags, k - 1).flags);
      assert forall i :: 0 <= i < |here| ==> here[i].source == xs[k - 1].source;
    }
  }

  /** `lookup` lists its results nearest first: their sentences strictly
      decrease. */
  lemma LookupNearestFirst(arena: seq<Sentence>, sc: ScopeValue, id: QualId, flags: ScopeFlags)
    requires WellFormed(arena) && sc.source < |arena|
    ensures forall i, j :: 0 <= i < j < |LookupSpec(arena, sc, id, flags)| ==>
      LookupSpec(arena, sc, id, flags)[i].source > LookupSpec(arena, sc, id, flags)[j].source
  {
    var xs := Chain(arena, Some(sc));
    ChainDecreasing(arena, Some(sc));
    ResultsInWalkOrder(xs, id, flags, |xs|);
  }

  /** One step changes the stack only at its top. */
  lemma WalkStepKeepsBottom(ws: WalkState, sc: ScopeValue, len: nat)
    requires len <= |ws.flagStack| && len <= |WalkStep(ws, sc).flagStack|
    ensures WalkStep(ws, sc).flagStack[..len] == ws.flagStack[..len]
  {
  }

  /** While the walk is inside the block an end opened, the flags saved by
      that end stay on the stack below anything pushed later. */
  lemma {:induction false} StackKeepsSaved(xs: seq<ScopeValue>, flags: ScopeFlags, i: nat, m: nat)
    requires i < m <= |xs| && IsEnd(xs[i], None)
    requires forall n :: i < n <= m ==> |StateAt(xs, flags, n).flagStack| > |StateAt(xs, flags, i).flagStack|
    ensures StateAt(xs, flags, m).flagStack[..|StateAt(xs, flags, i).flagStack| + 1]
         == StateAt(xs, flags, i).flagStack + [StateAt(xs, flags, i).flags & !Private]
    decreases m
  {
    var wi := StateAt(xs, flags, i);
    var len := |wi.flagStack| + 1;
    if m > i + 1 {
      StackKeepsSaved(xs, flags, i, m - 1);
      assert |StateAt(xs, flags, m - 1).flagStack| > len - 1;
      assert |StateAt(xs, flags, m).flagStack| > len - 1;
      WalkStepKeepsBottom(StateAt(xs, flags, m - 1), xs[m - 1], len);
    } else {
      assert StateAt(xs, flags, m) == WalkStep(wi, xs[i]);
    }
  }

  /** An end hides the Local symbols of the scopes inside the block it
      closes; once the walk passes the begin that matches it, the flags are
      those it had on reaching the end, without Private, and the saved
      stack is as it was. */
  lemma MatchedEndRestores(xs: seq<ScopeValue>, flags: ScopeFlags, i: nat, j: nat)
    requires i < j < |xs| && IsEnd(xs[i], None) && IsBegin(xs[j], None)
    requires forall n :: i < n <= j ==> |StateAt(xs, flags, n).flagStack| > |StateAt(xs, flags, i).flagStack|
    requires |StateAt(xs, flags, j).flagStack| == |StateAt(xs, flags, i).flagStack| + 1
    ensures StateAt(xs, flags, i + 1).flags & Local == 0
    ensures StateAt(xs, flags, j + 1)
         == WalkState(StateAt(xs, flags, i).flags & !Private, StateAt(xs, flags, i).flagStack)
  {
    StackKeepsSaved(xs, flags, i, j);
    var st := StateAt(xs, flags, j).flagStack;
    assert st == st[..|st|];
  }

  /** Inside a section, its own name is found among the private symbols
      with an unqualified path; without the Private flag it is not found. */
  lemma SectionNameResolves(source: nat, name: string, range: Range)
    ensures var sc := ScopeValue(source, [], Begin(name, true), [Symbol(name, range, Section)], [], []);
      HereSpec(sc, [name], AllFlags) == Some(SymbolInformation(Symbol(name, range, Section), [name], source, [])) &&
      HereSpec(sc, [name], Local | Export) == None
  {
    var sym := Symbol(name, range, Section);
    var sc := ScopeValue(source, [], Begin(name, true), [sym], [], []);
    assert [name][..0] == [];
    assert [] + [name] == [name];
    assert MatchOf([], []) == Some(QualIdMatch(0, [], []));
    assert FindSymbol([sym], name) == Some(0);
    assert SymbolInList(sc, [name], [sym]) == Some(SymbolInformation(sym, [name], source, []));
    assert AllFlags & Private != 0;
    assert (Local | Export) & Private == 0;
  }

  /** A module's name is found among its exports, unqualified or qualified
      by the module itself, with nothing assumed about the prefix. */
  lemma ModuleNameResolves(source: nat, name: string, exports: bool, range: Range)
    ensures var sc := ScopeValue(source, [name], Begin(name, exports), [], [], [Symbol(name, range, Module)]);
      HereSpec(sc, [name], Export) == Some(SymbolInformation(Symbol(name, range, Module), [name], source, [])) &&
      HereSpec(sc, [name, name], Export) == Some(SymbolInformation(Symbol(name, range, Module), [name, name], source, []))
  {
    assert [name][..0] == [];
    assert [name, name][..1] == [name];
    assert [name][1..] == [];
    assert [name][..1] == [name];
    assert [name][..0] == [];
    assert IsSuffix([], [name]);
    assert IsSuffix([name], [name]);
    assert MatchOf([], [name]) == Some(QualIdMatch(0, [name], []));
    assert MatchOf([name], [name]) == Some(QualIdMatch(0, [], [name]));
    assert [] + [name] == [name];
    assert [name] + [name] == [name, name];
  }
}
