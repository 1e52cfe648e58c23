/** The response side of the prover's XML protocol
    (server/src/coqtop/xml-protocol/coq-xml.ts): entity escaping for outgoing
    text, and the stack machine that turns the tokenizer's open-tag, close-tag
    and text events into one event per completed top-level element.  The SAX
    tokenizer is replaced by the event sequence it produces, and the per-tag
    deserializer is a function the stream is given. */
module CoqXml {
  import opened Wrappers
  import opened AnnotatedText

  // ---------------------------------------------------------------------
  // escapeXml
  // ---------------------------------------------------------------------

  predicate IsXmlSpecial(c: char)
  {
    c == '<' || c == '>' || c == '&' || c == '\'' || c == '"'
  }

  /** The predefined entity of XML 1.0 (section 4.6) for a special character;
      any other character stands for itself. */
  function Entity(c: char): (r: string)
    ensures !IsXmlSpecial(c) ==> r == [c]
    ensures IsXmlSpecial(c) ==> |r| >= 4 && r[0] == '&' && r[|r| - 1] == ';'
  {
    match c
    case '<' => "&lt;"
    case '>' => "&gt;"
    case '&' => "&amp;"
    case '\'' => "&apos;"
    case '"' => "&quot;"
    case _ => [c]
  }

  /** `escapeXml`: every special character replaced by its entity. */
  function EscapeXml(unsafe: string): (r: string)
    ensures forall i :: 0 <= i < |r| ==> r[i] != '<' && r[i] != '>' && r[i] != '\'' && r[i] != '"'
    ensures |r| >= |unsafe|
    decreases |unsafe|
  {
    if unsafe == [] then [] else Entity(unsafe[0]) + EscapeXml(unsafe[1..])
  }

  /** The special character whose entity `s` starts with, if any. */
  function DecodeEntity(s: string): (r: Option<char>)
    ensures r.Some? ==> IsXmlSpecial(r.value) && |Entity(r.value)| <= |s|
  {
    if |s| >= 4 && s[0] == '&' && s[1] == 'l' && s[2] == 't' && s[3] == ';' then Some('<')
    else if |s| >= 4 && s[0] == '&' && s[1] == 'g' && s[2] == 't' && s[3] == ';' then Some('>')
    else if |s| >= 5 && s[0] == '&' && s[1] == 'a' && s[2] == 'm' && s[3] == 'p' && s[4] == ';' then Some('&')
    else if |s| >= 6 && s[0] == '&' && s[1] == 'a' && s[2] == 'p' && s[3] == 'o' && s[4] == 's' && s[5] == ';' then Some('\'')
    else if |s| >= 6 && s[0] == '&' && s[1] == 'q' && s[2] == 'u' && s[3] == 'o' && s[4] == 't' && s[5] == ';' then Some('"')
    else None
  }

  /** Decodes the five predefined entities, leaving everything else as it is. */
  function UnescapeXml(s: string): string
    decreases |s|
  {
    if s == [] then []
    else match DecodeEntity(s)
      case Some(c) => [c] + UnescapeXml(s[|Entity(c)|..])
      case None => [s[0]] + UnescapeXml(s[1..])
  }

  /** An escaped character followed by more text decodes to that character. */
  lemma DecodeEntityOf(c: char, rest: string)
    ensures DecodeEntity(Entity(c) + rest) == if IsXmlSpecial(c) then Some(c) else None
  {
    var s := Entity(c) + rest;
    assert forall i :: 0 <= i < |Entity(c)| ==> s[i] == Entity(c)[i];
  }

  /** Decoding the entities restores the escaped text. */
  lemma {:induction false} UnescapeEscapeXml(s: string)
    ensures UnescapeXml(EscapeXml(s)) == s
    decreases |s|
  {
    if s != [] {
      var e, rest := Entity(s[0]), EscapeXml(s[1..]);
      UnescapeEscapeXml(s[1..]);
      DecodeEntityOf(s[0], rest);
      assert (e + rest)[|e|..] == rest;
      assert !IsXmlSpecial(s[0]) ==> (e + rest)[0] == s[0] && (e + rest)[1..] == rest;
      assert [s[0]] + s[1..] == s;
    }
  }

  /** Text without special characters is left unchanged. */
  lemma {:induction false} EscapeXmlPlain(s: string)
    requires forall i :: 0 <= i < |s| ==> !IsXmlSpecial(s[i])
    ensures EscapeXml(s) == s
    decreases |s|
  {
    if s != [] {
      EscapeXmlPlain(s[1..]);
    }
  }

  // ---------------------------------------------------------------------
  // XmlStream: values and events
  // ---------------------------------------------------------------------

  type Attributes = map<string, string>

  /** What a generic node's `$children` array holds: raw text, a child's
      deserialized value, or the rich text built from a `richpp` element. */
  datatype Child<V> = TextChild(text: string) | ValueChild(value: V) | RichChild(rich: AnnotatedText)

  /** A generic element under construction: `$name`, `$`, `$children`, and
      the named properties set on it as children close (`newTop[tagName]`). */
  datatype GenericNode<V> = GenericNode(
    name: string, attributes: Attributes, children: seq<Child<V>>, fields: map<string, Child<V>>)

  /** A scoped text under construction in rich mode; its `text` array. */
  datatype RichNode = RichNode(scope: string, attributes: Attributes, items: seq<AnnotatedText>)

  function RichNodeText(n: RichNode): AnnotatedText
  {
    Scoped(n.scope, n.attributes, Items(n.items))
  }

  datatype XmlEvent = OpenTag(name: string, attributes: Attributes) | CloseTag(name: string) | Text(text: string)

  /** The events the stream emits: `response` with the tag and value,
      `response: <tag>` with the value, and `error`. */
  datatype Emission<V> =
    | Response(tag: string, value: V)
    | TaggedResponse(event: string, value: V)
    | Error(message: string)

  /** The stream's fields, plus `broken`: set when a handler throws (a rich
      text closed with no generic element to attach it to), after which the
      tokenizer's pipe is dead and no further event is handled. */
  datatype StreamState<V> = StreamState(
    stack: seq<GenericNode<V>>,
    textStack: seq<RichNode>,
    annotateTextMode: bool,
    emitted: seq<Emission<V>>,
    broken: bool)

  const RootTag := "coqtoproot"
  const RichTag := "richpp"
  const TooManyClosingTags := "malformed XML input stream has too many closing tags"

  function InitialState<V>(): StreamState<V>
  {
    StreamState([], [], false, [], false)
  }

  /** Rich mode is on exactly when a rich text is under construction. */
  predicate ValidState<V>(st: StreamState<V>)
  {
    st.broken || (st.annotateTextMode <==> |st.textStack| > 0)
  }

  function AddChild<V>(n: GenericNode<V>, c: Child<V>): GenericNode<V>
  {
    n.(children := n.children + [c])
  }

  function AddField<V>(n: GenericNode<V>, field: string, c: Child<V>): GenericNode<V>
  {
    n.(children := n.children + [c], fields := n.fields[field := c])
  }

  function AddItem(n: RichNode, t: AnnotatedText): RichNode
  {
    n.(items := n.items + [t])
  }

  function StepOpen<V>(st: StreamState<V>, name: string, attrs: Attributes): StreamState<V>
  {
    if name == RootTag then st
    else if st.annotateTextMode then st.(textStack := st.textStack + [RichNode(name, attrs, [])])
    else if name == RichTag then st.(annotateTextMode := true, textStack := [RichNode("", attrs, [])])
    else st.(stack := st.stack + [GenericNode(name, attrs, [], map[])])
  }

  function StepClose<V>(d: GenericNode<V> -> V, st: StreamState<V>, name: string): StreamState<V>
    requires ValidState(st) && !st.broken
  {
    if name == RootTag then
      st.(emitted := st.emitted + [Error(TooManyClosingTags)])
    else if st.annotateTextMode then
      var current := RichNodeText(st.textStack[|st.textStack| - 1]);
      var rest := st.textStack[..|st.textStack| - 1];
      if |rest| > 0 then
        st.(textStack := rest[..|rest| - 1] + [AddItem(rest[|rest| - 1], current)])
      else if |st.stack| == 0 then
        st.(textStack := rest, broken := true)
      else
        var top := st.stack[|st.stack| - 1];
        st.(stack := st.stack[..|st.stack| - 1] + [AddField(top, RichTag, RichChild(current))],
            textStack := rest, annotateTextMode := false)
    else if |st.stack| == 0 then st
    else
      var top := st.stack[|st.stack| - 1];
      var rest := st.stack[..|st.stack| - 1];
      var value := d(top);
      if |rest| > 0 then
        st.(stack := rest[..|rest| - 1] + [AddField(rest[|rest| - 1], top.name, ValueChild(value))],
            annotateTextMode := if name == RichTag then false else st.annotateTextMode)
      else
        st.(stack := rest,
            emitted := st.emitted + [Response(top.name, value), TaggedResponse("response: " + top.name, value)])
  }

  function StepText<V>(st: StreamState<V>, text: string): StreamState<V>
    requires ValidState(st) && !st.broken
  {
    if st.annotateTextMode then
      var n := |st.textStack|;
      st.(textStack := st.textStack[..n - 1] + [AddItem(st.textStack[n - 1], Plain(text))])
    else if |st.stack| > 0 then
      var n := |st.stack|;
      st.(stack := st.stack[..n - 1] + [AddChild(st.stack[n - 1], TextChild(text))])
    else st
  }

  /** One tokenizer event handled by the stream. */
  function Step<V>(d: GenericNode<V> -> V, st: StreamState<V>, e: XmlEvent): (r: StreamState<V>)
    requires ValidState(st)
    ensures ValidState(r)
    ensures |st.emitted| <= |r.emitted| && r.emitted[..|st.emitted|] == st.emitted
    ensures st.broken ==> r == st
  {
    if st.broken then st
    else match e
      case OpenTag(name, attrs) => StepOpen(st, name, attrs)
      case CloseTag(name) => StepClose(d, st, name)
      case Text(text) => StepText(st, text)
  }

  /** A sequence of events handled in order. */
  function Run<V>(d: GenericNode<V> -> V, st: StreamState<V>, es: seq<XmlEvent>): (r: StreamState<V>)
    requires ValidState(st)
    ensures ValidState(r)
    ensures |st.emitted| <= |r.emitted| && r.emitted[..|st.emitted|] == st.emitted
    decreases |es|
  {
    if es == [] then st else Run(d, Step(d, st, es[0]), es[1..])
  }

  /** Feeding the events in two chunks gives the same state, and so the same
      emissions, as feeding them at once. */
  lemma {:induction false} RunSplit<V>(d: GenericNode<V> -> V, st: StreamState<V>, a: seq<XmlEvent>, b: seq<XmlEvent>)
    requires ValidState(st)
    ensures Run(d, st, a + b) == Run(d, Run(d, st, a), b)
    decreases |a|
  {
    if a == [] {
      assert a + b == b;
    } else {
      assert (a + b)[0] == a[0];
      assert (a + b)[1..] == a[1..] + b;
      RunSplit(d, Step(d, st, a[0]), a[1..], b);
    }
  }

  /** Running from position `i`: the event there, then the rest. */
  lemma RunFrom<V>(d: GenericNode<V> -> V, st: StreamState<V>, es: seq<XmlEvent>, i: nat)
    requires ValidState(st) && i < |es|
    ensures Run(d, st, es[i..]) == Run(d, Step(d, st, es[i]), es[i + 1..])
  {
    assert es[i..][1..] == es[i + 1..];
  }

  /** The synthetic root opens without effect; closing it reports an error
      and leaves both stacks alone. */
  lemma RootTagEvents<V>(d: GenericNode<V> -> V, st: StreamState<V>, attrs: Attributes)
    requires ValidState(st) && !st.broken
    ensures Step(d, st, OpenTag(RootTag, attrs)) == st
    ensures Step(d, st, CloseTag(RootTag)) == st.(emitted := st.emitted + [Error(TooManyClosingTags)])
  {
  }

  /** A close with nothing open outside rich mode is ignored, and so is text. */
  lemma EmptyStackIgnored<V>(d: GenericNode<V> -> V, st: StreamState<V>, name: string, text: string)
    requires ValidState(st) && !st.broken && !st.annotateTextMode && st.stack == []
    requires name != RootTag
    ensures Step(d, st, CloseTag(name)) == st
    ensures Step(d, st, Text(text)) == st
  {
  }

  // ---------------------------------------------------------------------
  // Well-nested input: what a complete element does to the stream
  // ---------------------------------------------------------------------

  /** A well-nested piece of input, as the tokenizer would report it. */
  datatype XmlTree = Element(name: string, attributes: Attributes, children: seq<XmlTree>) | TextNode(text: string)

  /** Concatenation of a sequence of sequences. */
  function Concat<T>(xss: seq<seq<T>>): seq<T>
    decreases |xss|
  {
    if xss == [] then [] else Concat(xss[..|xss| - 1]) + xss[|xss| - 1]
  }

  /** The tokenizer events of a well-nested tree. */
  function Events(t: XmlTree): seq<XmlEvent>
    decreases t
  {
    match t
    case TextNode(s) => [Text(s)]
    case Element(n, a, cs) =>
      [OpenTag(n, a)] + Concat(seq(|cs|, i requires 0 <= i < |cs| => Events(cs[i]))) + [CloseTag(n)]
  }

  function ChildEvents(cs: seq<XmlTree>): seq<XmlEvent>
  {
    Concat(seq(|cs|, i requires 0 <= i < |cs| => Events(cs[i])))
  }

  lemma ChildEventsSnoc(cs: seq<XmlTree>, k: nat)
    requires 0 < k <= |cs|
    ensures ChildEvents(cs[..k]) == ChildEvents(cs[..k - 1]) + Events(cs[k - 1])
  {
    var xs := seq(k, i requires 0 <= i < k => Events(cs[i]));
    assert seq(|cs[..k]|, i requires 0 <= i < |cs[..k]| => Events(cs[..k][i])) == xs;
    assert xs[..k - 1] == seq(|cs[..k - 1]|, i requires 0 <= i < |cs[..k - 1]| => Events(cs[..k - 1][i]));
  }

  /** No element is named like the synthetic root. */
  predicate NoRootTag(t: XmlTree)
    decreases t
  {
    match t
    case TextNode(_) => true
    case Element(n, _, cs) => n != RootTag && forall i :: 0 <= i < |cs| ==> NoRootTag(cs[i])
  }

  /** A tree that may appear inside a generic element: generic elements,
      text, and `richpp` elements whose content is rich text. */
  predicate GenericChild(t: XmlTree)
    decreases t
  {
    match t
    case TextNode(_) => true
    case Element(n, _, cs) =>
      n != RootTag &&
      if n == RichTag then forall i :: 0 <= i < |cs| ==> NoRootTag(cs[i])
      else forall i :: 0 <= i < |cs| ==> GenericChild(cs[i])
  }

  /** A complete top-level protocol element. */
  predicate TopLevelElement(t: XmlTree)
  {
    t.Element? && t.name != RichTag && GenericChild(t)
  }

  /** The annotated text a tree becomes in rich mode: elements are scopes
      labelled by their tag, text is plain. */
  function RichItem(t: XmlTree): AnnotatedText
    decreases t
  {
    match t
    case TextNode(s) => Plain(s)
    case Element(n, a, cs) => Scoped(n, a, Items(seq(|cs|, i requires 0 <= i < |cs| => RichItem(cs[i]))))
  }

  function RichItems(cs: seq<XmlTree>): seq<AnnotatedText>
  {
    seq(|cs|, i requires 0 <= i < |cs| => RichItem(cs[i]))
  }

  /** The text a `richpp` element becomes: a scope with an empty label. */
  function RichRoot(a: Attributes, cs: seq<XmlTree>): AnnotatedText
  {
    Scoped("", a, Items(seq(|cs|, i requires 0 <= i < |cs| => RichItem(cs[i]))))
  }

  /** What a complete child does to its parent: the entry appended to
      `$children`, and the property it sets, if any. */
  datatype Effect<V> = Effect(child: Child<V>, field: Option<string>)

  function ApplyEffect<V>(n: GenericNode<V>, e: Effect<V>): GenericNode<V>
  {
    if e.field.Some? then AddField(n, e.field.value, e.child) else AddChild(n, e.child)
  }

  function ApplyEffects<V>(n: GenericNode<V>, es: seq<Effect<V>>): GenericNode<V>
    decreases |es|
  {
    if es == [] then n else ApplyEffect(ApplyEffects(n, es[..|es| - 1]), es[|es| - 1])
  }

  lemma {:induction false} ApplyEffectsKeepsName<V>(n: GenericNode<V>, es: seq<Effect<V>>)
    ensures ApplyEffects(n, es).name == n.name && ApplyEffects(n, es).attributes == n.attributes
    decreases |es|
  {
    if es != [] {
      ApplyEffectsKeepsName(n, es[..|es| - 1]);
    }
  }

  function ChildEffect<V>(d: GenericNode<V> -> V, t: XmlTree): Effect<V>
    decreases t, 1
  {
    match t
    case TextNode(s) => Effect(TextChild(s), None)
    case Element(n, a, cs) =>
      if n == RichTag then Effect(RichChild(RichRoot(a, cs)), Some(RichTag))
      else Effect(ValueChild(d(BuiltNode(d, t))), Some(n))
  }

  /** The generic node the stream hands to the deserializer when `t` closes. */
  function BuiltNode<V>(d: GenericNode<V> -> V, t: XmlTree): GenericNode<V>
    requires t.Element?
    decreases t, 0
  {
    ApplyEffects(GenericNode(t.name, t.attributes, [], map[]),
      seq(|t.children|, i requires 0 <= i < |t.children| => ChildEffect(d, t.children[i])))
  }

  function Last<T>(s: seq<T>): T
    requires s != []
  {
    s[|s| - 1]
  }

  function Init<T>(s: seq<T>): seq<T>
    requires s != []
  {
    s[..|s| - 1]
  }

  /** An element's events: its open tag, its children's events, its close tag. */
  lemma ElementRunSplit<V>(d: GenericNode<V> -> V, st: StreamState<V>, t: XmlTree)
    requires ValidState(st) && t.Element?
    ensures Run(d, st, Events(t))
         == Run(d, Run(d, Step(d, st, OpenTag(t.name, t.attributes)), ChildEvents(t.children)), [CloseTag(t.name)])
  {
    var open, close := [OpenTag(t.name, t.attributes)], [CloseTag(t.name)];
    assert Events(t) == open + ChildEvents(t.children) + close;
    RunSplit(d, st, open + ChildEvents(t.children), close);
    RunSplit(d, st, open, ChildEvents(t.children));
    assert Run(d, st, open) == Step(d, st, OpenTag(t.name, t.attributes));
  }

  /** Closing a scope in rich mode adds its text to the scope around it. */
  lemma RichClose<V>(d: GenericNode<V> -> V, st: StreamState<V>, n: string, a: Attributes, items: seq<AnnotatedText>)
    requires ValidState(st) && !st.broken && st.annotateTextMode && n != RootTag
    ensures var st2 := st.(textStack := st.textStack + [RichNode(n, a, items)]);
      Run(d, st2, [CloseTag(n)])
      == st.(textStack := Init(st.textStack) + [AddItem(Last(st.textStack), Scoped(n, a, Items(items)))])
  {
    var st2 := st.(textStack := st.textStack + [RichNode(n, a, items)]);
    assert Run(d, st2, [CloseTag(n)]) == Step(d, st2, CloseTag(n));
    assert st2.textStack[..|st2.textStack| - 1] == st.textStack;
  }

  /** In rich mode, a complete tree adds its rich text to the innermost scope. */
  lemma {:induction false} RichTreeRun<V>(d: GenericNode<V> -> V, st: StreamState<V>, t: XmlTree)
    requires ValidState(st) && !st.broken && st.annotateTextMode && NoRootTag(t)
    ensures Run(d, st, Events(t))
         == st.(textStack := Init(st.textStack) + [AddItem(Last(st.textStack), RichItem(t))])
    decreases t, 1
  {
    match t
    case TextNode(s) =>
      assert Run(d, st, Events(t)) == Run(d, Step(d, st, Text(s)), []);
    case Element(n, a, cs) =>
      ElementRunSplit(d, st, t);
      var st1 := Step(d, st, OpenTag(n, a));
      assert st1 == st.(textStack := st.textStack + [RichNode(n, a, [])]);
      RichChildrenRun(d, st1, t, |cs|);
      assert cs[..|cs|] == cs;
      var items := RichItems(cs);
      InitLastSnoc(st.textStack, RichNode(n, a, []));
      assert [] + items == items;
      RichClose(d, st, n, a, items);
  }

  /** In rich mode, the first `k` children of `t` add their rich text, in
      order, to the innermost scope. */
  lemma {:induction false} RichChildrenRun<V>(d: GenericNode<V> -> V, st: StreamState<V>, t: XmlTree, k: nat)
    requires ValidState(st) && !st.broken && st.annotateTextMode
    requires t.Element? && k <= |t.children|
    requires forall i :: 0 <= i < |t.children| ==> NoRootTag(t.children[i])
    ensures Run(d, st, ChildEvents(t.children[..k]))
         == st.(textStack := Init(st.textStack) + [Last(st.textStack).(items := Last(st.textStack).items
              + RichItems(t.children[..k]))])
    decreases t, 0, k
  {
    var cs := t.children;
    var top := Last(st.textStack);
    if k == 0 {
      assert ChildEvents(cs[..0]) == [];
      assert |RichItems(cs[..0])| == 0;
      assert top.items + [] == top.items;
      assert top.(items := top.items) == top;
      assert Init(st.textStack) + [top] == st.textStack;
    } else {
      RichChildrenRun(d, st, t, k - 1);
      var st1 := Run(d, st, ChildEvents(cs[..k - 1]));
      RichTreeRun(d, st1, cs[k - 1]);
      RichChildrenSnoc(d, st, t, k);
    }
  }

  /** The step of the induction above: one more child adds one more item. */
  lemma RichChildrenSnoc<V>(d: GenericNode<V> -> V, st: StreamState<V>, t: XmlTree, k: nat)
    requires ValidState(st) && st.textStack != []
    requires t.Element? && 0 < k <= |t.children|
    requires Run(d, st, ChildEvents(t.children[..k - 1]))
          == st.(textStack := Init(st.textStack) + [Last(st.textStack).(items := Last(st.textStack).items
               + RichItems(t.children[..k - 1]))])
    requires var st1 := Run(d, st, ChildEvents(t.children[..k - 1]));
      Run(d, st1, Events(t.children[k - 1]))
      == st1.(textStack := Init(st1.textStack) + [AddItem(Last(st1.textStack), RichItem(t.children[k - 1]))])
    ensures Run(d, st, ChildEvents(t.children[..k]))
         == st.(textStack := Init(st.textStack) + [Last(st.textStack).(items := Last(st.textStack).items
              + RichItems(t.children[..k]))])
  {
    var cs := t.children;
    var top := Last(st.textStack);
    ChildEventsSnoc(cs, k);
    RunSplit(d, st, ChildEvents(cs[..k - 1]), Events(cs[k - 1]));
    InitLastSnoc(Init(st.textStack), top.(items := top.items + RichItems(cs[..k - 1])));
    RichItemsSnoc(top.items, cs, k);
  }

  lemma RichItemsSnoc(items: seq<AnnotatedText>, cs: seq<XmlTree>, k: nat)
    requires 0 < k <= |cs|
    ensures items + RichItems(cs[..k - 1]) + [RichItem(cs[k - 1])] == items + RichItems(cs[..k])
  {
    assert RichItems(cs[..k - 1]) + [RichItem(cs[k - 1])] == RichItems(cs[..k]);
  }

  function Effects<V>(d: GenericNode<V> -> V, cs: seq<XmlTree>): seq<Effect<V>>
  {
    seq(|cs|, i requires 0 <= i < |cs| => ChildEffect(d, cs[i]))
  }

  /** Outside rich mode, with an element open, a complete child changes only
      the innermost open element, by its effect. */
  lemma {:induction false} GenericChildRun<V>(d: GenericNode<V> -> V, st: StreamState<V>, t: XmlTree)
    requires ValidState(st) && !st.broken && !st.annotateTextMode && st.stack != [] && GenericChild(t)
    ensures Run(d, st, Events(t)) == st.(stack := Init(st.stack) + [ApplyEffect(Last(st.stack), ChildEffect(d, t))])
    decreases t, 3
  {
    match t
    case TextNode(s) =>
      assert Run(d, st, Events(t)) == Run(d, Step(d, st, Text(s)), []);
    case Element(n, a, cs) =>
      if n == RichTag {
        var open := [OpenTag(n, a)];
        var close := [CloseTag(n)];
        assert Events(t) == open + ChildEvents(cs) + close;
        RunSplit(d, st, open + ChildEvents(cs), close);
        RunSplit(d, st, open, ChildEvents(cs));
        var st1 := Run(d, st, open);
        assert st1 == Step(d, st, OpenTag(n, a));
        assert st1 == st.(annotateTextMode := true, textStack := [RichNode("", a, [])]);
        RichChildrenRun(d, st1, t, |cs|);
        assert cs[..|cs|] == cs;
        var st2 := Run(d, st1, ChildEvents(cs));
        assert [] + RichItems(cs) == RichItems(cs);
        assert st2 == st1.(textStack := [RichNode("", a, RichItems(cs))]);
        assert Run(d, st2, close) == Step(d, st2, CloseTag(n));
      } else {
        GenericElementRun(d, st, t);
      }
  }

  /** Outside rich mode, a complete generic element is built from its
      children and deserialized; its value becomes a property of the
      enclosing element or, at the top level, a pair of responses. */
  lemma {:induction false} GenericElementRun<V>(d: GenericNode<V> -> V, st: StreamState<V>, t: XmlTree)
    requires ValidState(st) && !st.broken && !st.annotateTextMode
    requires t.Element? && t.name != RichTag && GenericChild(t)
    ensures st.stack != [] ==>
      Run(d, st, Events(t))
      == st.(stack := Init(st.stack) + [AddField(Last(st.stack), t.name, ValueChild(d(BuiltNode(d, t))))])
    ensures st.stack == [] ==>
      Run(d, st, Events(t))
      == st.(emitted := st.emitted + [Response(t.name, d(BuiltNode(d, t))),
                                      TaggedResponse("response: " + t.name, d(BuiltNode(d, t)))])
    decreases t, 2
  {
    var n, a, cs := t.name, t.attributes, t.children;
    var open := [OpenTag(n, a)];
    var close := [CloseTag(n)];
    assert Events(t) == open + ChildEvents(cs) + close;
    RunSplit(d, st, open + ChildEvents(cs), close);
    RunSplit(d, st, open, ChildEvents(cs));
    var st1 := Run(d, st, open);
    assert st1 == Step(d, st, OpenTag(n, a));
    var empty := GenericNode(n, a, [], map[]);
    assert st1 == st.(stack := st.stack + [empty]);
    GenericChildrenRun(d, st1, t, |cs|);
    assert cs[..|cs|] == cs;
    assert Effects(d, cs) == seq(|cs|, i requires 0 <= i < |cs| => ChildEffect(d, cs[i]));
    assert ApplyEffects(empty, Effects(d, cs)) == BuiltNode(d, t);
    ApplyEffectsKeepsName(empty, Effects(d, cs));
    var st2 := Run(d, st1, ChildEvents(cs));
    assert Init(st1.stack) == st.stack;
    assert st2 == st.(stack := st.stack + [BuiltNode(d, t)]);
    assert Run(d, st2, close) == Step(d, st2, CloseTag(n));
  }

  /** Outside rich mode, the first `k` children of a generic element apply
      their effects, in order, to the innermost open element. */
  lemma {:induction false} GenericChildrenRun<V>(d: GenericNode<V> -> V, st: StreamState<V>, t: XmlTree, k: nat)
    requires ValidState(st) && !st.broken && !st.annotateTextMode && st.stack != []
    requires t.Element? && t.name != RichTag && GenericChild(t) && k <= |t.children|
    ensures Run(d, st, ChildEvents(t.children[..k]))
         == st.(stack := Init(st.stack) + [ApplyEffects(Last(st.stack), Effects(d, t.children[..k]))])
    decreases t, 1, k
  {
    var cs := t.children;
    if k == 0 {
      assert ChildEvents(cs[..0]) == [];
      assert Effects(d, cs[..0]) == [];
      assert Init(st.stack) + [Last(st.stack)] == st.stack;
    } else {
      GenericChildrenRun(d, st, t, k - 1);
      var st1 := Run(d, st, ChildEvents(cs[..k - 1]));
      assert GenericChild(cs[k - 1]);
      GenericChildRun(d, st1, cs[k - 1]);
      GenericChildrenSnoc(d, st, t, k);
    }
  }

  /** The step of the induction above: one more child applies one more
      effect. */
  lemma GenericChildrenSnoc<V>(d: GenericNode<V> -> V, st: StreamState<V>, t: XmlTree, k: nat)
    requires ValidState(st) && st.stack != []
    requires t.Element? && 0 < k <= |t.children|
    requires Run(d, st, ChildEvents(t.children[..k - 1]))
          == st.(stack := Init(st.stack) + [ApplyEffects(Last(st.stack), Effects(d, t.children[..k - 1]))])
    requires var st1 := Run(d, st, ChildEvents(t.children[..k - 1]));
      Run(d, st1, Events(t.children[k - 1]))
      == st1.(stack := Init(st1.stack) + [ApplyEffect(Last(st1.stack), ChildEffect(d, t.children[k - 1]))])
    ensures Run(d, st, ChildEvents(t.children[..k]))
         == st.(stack := Init(st.stack) + [ApplyEffects(Last(st.stack), Effects(d, t.children[..k]))])
  {
    var cs := t.children;
    ChildEventsSnoc(cs, k);
    RunSplit(d, st, ChildEvents(cs[..k - 1]), Events(cs[k - 1]));
    var es := Effects(d, cs[..k]);
    assert es[..k - 1] == Effects(d, cs[..k - 1]);
    assert es[k - 1] == ChildEffect(d, cs[k - 1]);
    InitLastSnoc(Init(st.stack), ApplyEffects(Last(st.stack), Effects(d, cs[..k - 1])));
  }

  lemma InitLastSnoc<T>(s: seq<T>, x: T)
    ensures Init(s + [x]) == s && Last(s + [x]) == x
  {
  }

  /** The responses a sequence of complete top-level elements produces. */
  function ResponsesFor<V>(d: GenericNode<V> -> V, ts: seq<XmlTree>): seq<Emission<V>>
    requires forall i :: 0 <= i < |ts| ==> TopLevelElement(ts[i])
    decreases |ts|
  {
    if ts == [] then []
    else
      var t := ts[|ts| - 1];
      assert TopLevelElement(t);
      ResponsesFor(d, Init(ts)) + [Response(t.name, d(BuiltNode(d, t))), TaggedResponse("response: " + t.name, d(BuiltNode(d, t)))]
  }

  /** Each top-level element yields exactly one plain and one tagged
      response, in input order, both carrying its deserialized value. */
  lemma {:induction false} ResponsesForShape<V>(d: GenericNode<V> -> V, ts: seq<XmlTree>)
    requires forall i :: 0 <= i < |ts| ==> TopLevelElement(ts[i])
    ensures |ResponsesFor(d, ts)| == 2 * |ts|
    ensures forall i :: 0 <= i < |ts| ==>
      ResponsesFor(d, ts)[2 * i] == Response(ts[i].name, d(BuiltNode(d, ts[i]))) &&
      ResponsesFor(d, ts)[2 * i + 1] == TaggedResponse("response: " + ts[i].name, d(BuiltNode(d, ts[i])))
    decreases |ts|
  {
    if ts != [] {
      ResponsesForShape(d, Init(ts));
      var t := ts[|ts| - 1];
      var r := ResponsesFor(d, ts);
      assert r == ResponsesFor(d, Init(ts)) + [Response(t.name, d(BuiltNode(d, t))),
                                               TaggedResponse("response: " + t.name, d(BuiltNode(d, t)))];
      forall i | 0 <= i < |ts| - 1
        ensures r[2 * i] == Response(ts[i].name, d(BuiltNode(d, ts[i])))
        ensures r[2 * i + 1] == TaggedResponse("response: " + ts[i].name, d(BuiltNode(d, ts[i])))
      {
        assert ts[i] == Init(ts)[i];
      }
    }
  }

  /** A stream of complete top-level elements, fed from the initial state,
      emits exactly their responses and returns to an idle state. */
  lemma {:induction false} TopLevelRun<V>(d: GenericNode<V> -> V, st: StreamState<V>, ts: seq<XmlTree>)
    requires ValidState(st) && !st.broken && !st.annotateTextMode && st.stack == []
    requires forall i :: 0 <= i < |ts| ==> TopLevelElement(ts[i])
    ensures Run(d, st, ChildEvents(ts)) == st.(emitted := st.emitted + ResponsesFor(d, ts))
    decreases |ts|
  {
    if ts == [] {
      assert ChildEvents(ts) == [];
      assert st.emitted + [] == st.emitted;
    } else {
      var k := |ts|;
      ChildEventsSnoc(ts, k);
      assert ts[..k] == ts;
      assert ts[..k - 1] == Init(ts);
      RunSplit(d, st, ChildEvents(Init(ts)), Events(ts[k - 1]));
      TopLevelRun(d, st, Init(ts));
      var st1 := Run(d, st, ChildEvents(Init(ts)));
      GenericElementRun(d, st1, ts[k - 1]);
    }
  }

  // ---------------------------------------------------------------------
  // XmlStream: the object
  // ---------------------------------------------------------------------

  /** The stream object.  Each handler updates the fields in place and is
      proved to perform exactly one `Step` of the state machine above, so
      every lemma about `Run` holds of the object fed the same events. */
  class XmlStream<V> {
    const deserializer: GenericNode<V> -> V
    var stack: seq<GenericNode<V>>
    var textStack: seq<RichNode>
    var annotateTextMode: bool
    var emitted: seq<Emission<V>>
    var broken: bool

    function State(): StreamState<V>
      reads this
    {
      StreamState(stack, textStack, annotateTextMode, emitted, broken)
    }

    ghost predicate Valid()
      reads this
    {
      ValidState(State())
    }

    /** Writes the synthetic root element first, which leaves the stream idle. */
    constructor (deserializer: GenericNode<V> -> V)
      ensures Valid() && this.deserializer == deserializer
      ensures State() == InitialState()
    {
      this.deserializer := deserializer;
      stack := [];
      textStack := [];
      annotateTextMode := false;
      emitted := [];
      broken := false;
      new;
      OnOpenTag(RootTag, map[]);
    }

    method OnOpenTag(name: string, attributes: Attributes)
      requires Valid()
      modifies this
      ensures Valid() && State() == Step(deserializer, old(State()), OpenTag(name, attributes))
    {
      if broken || name == RootTag {
        return;
      }
      if annotateTextMode {
        textStack := textStack + [RichNode(name, attributes, [])];
      } else if name == RichTag {
        annotateTextMode := true;
        textStack := [RichNode("", attributes, [])];
      } else {
        stack := stack + [GenericNode(name, attributes, [], map[])];
      }
    }

    method OnCloseTag(closingTagName: string)
      requires Valid()
      modifies this
      ensures Valid() && State() == Step(deserializer, old(State()), CloseTag(closingTagName))
    {
      if broken {
        return;
      }
      if closingTagName == RootTag {
        emitted := emitted + [Error(TooManyClosingTags)];
        return;
      }
      if annotateTextMode {
        var current := RichNodeText(textStack[|textStack| - 1]);
        textStack := textStack[..|textStack| - 1];
        if |textStack| > 0 {
          var top := textStack[|textStack| - 1];
          textStack := textStack[..|textStack| - 1] + [AddItem(top, current)];
        } else if |stack| == 0 {
          // the parent lookup fails: the handler throws and the pipe stops
          broken := true;
        } else {
          var newTop := stack[|stack| - 1];
          stack := stack[..|stack| - 1] + [AddField(newTop, RichTag, RichChild(current))];
          annotateTextMode := false;
        }
      } else if |stack| == 0 {
        return;
      } else {
        var currentTop := stack[|stack| - 1];
        stack := stack[..|stack| - 1];
        var value := deserializer(currentTop);
        if |stack| > 0 {
          var newTop := stack[|stack| - 1];
          stack := stack[..|stack| - 1] + [AddField(newTop, currentTop.name, ValueChild(value))];
          if closingTagName == RichTag {
            annotateTextMode := false;
          }
        } else {
          emitted := emitted + [Response(currentTop.name, value), TaggedResponse("response: " + currentTop.name, value)];
        }
      }
    }

    method OnText(text: string)
      requires Valid()
      modifies this
      ensures Valid() && State() == Step(deserializer, old(State()), Text(text))
    {
      if broken {
        return;
      }
      if annotateTextMode {
        var top := textStack[|textStack| - 1];
        textStack := textStack[..|textStack| - 1] + [AddItem(top, Plain(text))];
      } else if |stack| > 0 {
        var top := stack[|stack| - 1];
        stack := stack[..|stack| - 1] + [AddChild(top, TextChild(text))];
      }
    }

    /** The tokenizer's events, delivered one by one to the handlers. */
    method Consume(events: seq<XmlEvent>)
      requires Valid()
      modifies this
      ensures Valid() && State() == Run(deserializer, old(State()), events)
    {
      var i := 0;
      while i < |events|
        invariant 0 <= i <= |events| && Valid()
        invariant Run(deserializer, old(State()), events) == Run(deserializer, State(), events[i..])
      {
        var e := events[i];
        RunFrom(deserializer, State(), events, i);
        match e {
          case OpenTag(name, attributes) => OnOpenTag(name, attributes);
          case CloseTag(name) => OnCloseTag(name);
          case Text(text) => OnText(text);
        }
        i := i + 1;
      }
    }
  }
}
