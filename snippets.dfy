/** Version-gated completion tables (server/src/Snippets.ts): which table
    items a prover version offers, how an item becomes a completion, the
    trigger snippets that open a second level of completions, and the
    per-version caches of the built tables.  The long literal tables are a
    parameter; the matching of a typed prefix against the triggers, which
    goes through a regular expression, is an oracle. */
module Snippets {
  import opened Wrappers
  import opened JsText
  import opened SemVer

  datatype InsertTextFormat = PlainTextFormat | SnippetFormat

  /** The command a completion runs once accepted. */
  datatype CompletionCommand = CompletionCommand(command: string, title: string)

  const TriggerSuggest := CompletionCommand("editor.action.triggerSuggest", "Trigger Suggest")

  /** A completion item of kind Snippet; `deprecated` stands for the
      Deprecated tag. */
  datatype CompletionItem = CompletionItem(
    name: string, detail: Option<string>, documentation: Option<string>,
    insertText: string, insertTextFormat: Option<InsertTextFormat>,
    command: Option<CompletionCommand>, deprecated: bool)

  /** A table entry; the version fields hold the versions their range
      strings denote, and an empty string is no value. */
  datatype TriggerSnippet = TriggerSnippet(
    name: string, insertText: Option<string>, completion: Option<seq<CompletionItem>>,
    detail: Option<string>, documentation: Option<string>,
    addedIn: Option<Version>, removedIn: Option<Version>, deprecatedIn: Option<Version>)

  /** A string field taken as a condition: set and non-empty. */
  predicate Truthy(s: Option<string>)
  {
    s.Some? && s.value != []
  }

  /** `snippetSentence`. */
  function SnippetSentence(version: Option<Version>, item: TriggerSnippet): (r: CompletionItem)
    ensures r.name == item.name && r.detail == item.detail && r.documentation == item.documentation
    ensures Truthy(item.insertText) ==> r.insertText == item.insertText.value && r.insertTextFormat == Some(SnippetFormat)
    ensures !Truthy(item.insertText) ==> r.insertText == item.name + "." && r.insertTextFormat.None?
    ensures r.command.Some? <==> item.completion.Some?
    ensures r.command.Some? ==> r.command.value == TriggerSuggest
    ensures r.deprecated <==> version.Some? && item.deprecatedIn.Some? && AtLeast(version.value, item.deprecatedIn.value)
  {
    var useInsertText := Truthy(item.insertText);
    CompletionItem(
      item.name, item.detail, item.documentation,
      if useInsertText then item.insertText.value else item.name + ".",
      if useInsertText then Some(SnippetFormat) else None,
      if item.completion.Some? then Some(TriggerSuggest) else None,
      version.Some? && item.deprecatedIn.Some? && AtLeast(version.value, item.deprecatedIn.value))
  }

  /** `checkVersion`. */
  function CheckVersion(version: Option<Version>, item: TriggerSnippet): (r: bool)
    ensures version.None? ==> r
    ensures version.Some? ==>
      (r <==> !(item.addedIn.Some? && Less(version.value, item.addedIn.value)) &&
              !(item.removedIn.Some? && AtLeast(version.value, item.removedIn.value)))
  {
    if version.None? then true
    else if item.addedIn.Some? && Less(version.value, item.addedIn.value) then false
    else if item.removedIn.Some? && AtLeast(version.value, item.removedIn.value) then false
    else true
  }

  /** An item with both bounds is offered exactly inside the half-open
      window between them. */
  lemma CheckVersionWindow(v: Version, item: TriggerSnippet)
    requires item.addedIn.Some? && item.removedIn.Some?
    ensures CheckVersion(Some(v), item) <==> AtLeast(v, item.addedIn.value) && Less(v, item.removedIn.value)
  {
  }

  /** Versions before an item's removal that have reached its addition
      accept it; moving within the window keeps it accepted. */
  lemma CheckVersionConvex(a: Version, b: Version, c: Version, item: TriggerSnippet)
    requires CheckVersion(Some(a), item) && CheckVersion(Some(c), item)
    requires !Less(b, a) && !Less(c, b)
    ensures CheckVersion(Some(b), item)
  {
    if item.addedIn.Some? {
      LessIsStrictTotalOrder(a, item.addedIn.value, b);
      LessIsStrictTotalOrder(item.addedIn.value, a, b);
      LessIsStrictTotalOrder(b, a, item.addedIn.value);
    }
    if item.removedIn.Some? {
      LessIsStrictTotalOrder(c, b, item.removedIn.value);
      LessIsStrictTotalOrder(b, c, item.removedIn.value);
      LessIsStrictTotalOrder(item.removedIn.value, b, c);
    }
  }

  /** `items.filter(p)`. */
  function Filter<T(!new)>(p: T -> bool, items: seq<T>): (r: seq<T>)
    ensures forall x :: x in r <==> x in items && p(x)
    ensures |r| <= |items|
  {
    if items == [] then []
    else Filter(p, items[..|items| - 1]) + (if p(items[|items| - 1]) then [items[|items| - 1]] else [])
  }

  /** Filtering keeps the table order: it distributes over concatenation. */
  lemma {:induction false} FilterAppend<T(!new)>(p: T -> bool, a: seq<T>, b: seq<T>)
    ensures Filter(p, a + b) == Filter(p, a) + Filter(p, b)
    decreases |b|
  {
    if b != [] {
      var init := b[..|b| - 1];
      assert (a + b)[..|a + b| - 1] == a + init;
      FilterAppend(p, a, init);
    } else {
      assert a + b == a;
    }
  }

  /** `items.filter((item) => checkVersion(version, item))`. */
  function Offered(version: Option<Version>, items: seq<TriggerSnippet>): (r: seq<TriggerSnippet>)
    ensures forall x :: x in r <==> x in items && CheckVersion(version, x)
  {
    Filter(x => CheckVersion(version, x), items)
  }

  /** `items.map((item) => snippetSentence(version, item))`. */
  function Sentences(version: Option<Version>, items: seq<TriggerSnippet>): (r: seq<CompletionItem>)
    ensures |r| == |items|
    ensures forall i :: 0 <= i < |items| ==> r[i] == SnippetSentence(version, items[i])
  {
    seq(|items|, i requires 0 <= i < |items| => SnippetSentence(version, items[i]))
  }

  function StripInsertText(items: seq<TriggerSnippet>): (r: seq<TriggerSnippet>)
    ensures |r| == |items|
    ensures forall i :: 0 <= i < |items| ==> r[i] == items[i].(insertText := None)
  {
    seq(|items|, i requires 0 <= i < |items| => items[i].(insertText := None))
  }

  const QualidPlaceholder := " ${1:qualid}."

  function WithQualid(items: seq<TriggerSnippet>): (r: seq<TriggerSnippet>)
    ensures |r| == |items|
    ensures forall i :: 0 <= i < |items| ==> r[i] == items[i].(insertText := Some(items[i].name + QualidPlaceholder))
  {
    seq(|items|, i requires 0 <= i < |items| => items[i].(insertText := Some(items[i].name + QualidPlaceholder)))
  }

  /** The literal tables of the module. */
  datatype SnippetTables = SnippetTables(
    options: seq<TriggerSnippet>, printTable: seq<TriggerSnippet>, show: seq<TriggerSnippet>,
    hint: seq<TriggerSnippet>, tactic: seq<TriggerSnippet>)

  function Plain(name: string, addedIn: Option<Version>): TriggerSnippet
  {
    TriggerSnippet(name, None, None, None, None, addedIn, None, None)
  }

  /** `rawTableSnippets`. */
  const RawTableSnippets: seq<TriggerSnippet> := [
    Plain("Keep Equalities", Some(MinorVersion(8, 15))),
    Plain("Printing Coercion", None),
    Plain("Printing Constructor", None),
    Plain("Printing If", None),
    Plain("Printing Let", None),
    Plain("Printing Record", None),
    Plain("Search Blacklist", None)
  ]

  function Trigger(name: string, insertText: string, completion: Option<seq<CompletionItem>>, detail: Option<string>): TriggerSnippet
  {
    TriggerSnippet(name, Some(insertText), completion, detail, None, None, None, None)
  }

  /** The completion lists `buildTriggerSnippets` attaches to its
      triggers, each the sentences of the items the version accepts. */
  datatype TriggerLists = TriggerLists(
    options: seq<CompletionItem>, rawOptions: seq<CompletionItem>, rawTable: seq<CompletionItem>,
    table: seq<CompletionItem>, printItems: seq<CompletionItem>, show: seq<CompletionItem>, hint: seq<CompletionItem>)

  /** The option items with their insert texts removed. */
  function RawOptionsItems(tables: SnippetTables, version: Option<Version>): (r: seq<CompletionItem>)
    ensures |r| == |Offered(version, tables.options)|
    ensures forall i :: 0 <= i < |r| ==>
      r[i].name == Offered(version, tables.options)[i].name &&
      r[i].insertText == Offered(version, tables.options)[i].name + "." &&
      r[i].insertTextFormat.None?
  {
    Sentences(version, StripInsertText(Offered(version, tables.options)))
  }

  /** The raw table items inserting their label and a `qualid` placeholder. */
  function TableItems(version: Option<Version>): (r: seq<CompletionItem>)
    ensures |r| == |Offered(version, RawTableSnippets)|
    ensures forall i :: 0 <= i < |r| ==>
      r[i].name == Offered(version, RawTableSnippets)[i].name &&
      r[i].insertText == Offered(version, RawTableSnippets)[i].name + QualidPlaceholder &&
      r[i].insertTextFormat == Some(SnippetFormat)
  {
    var offered := Offered(version, RawTableSnippets);
    var items := WithQualid(offered);
    forall i | 0 <= i < |items|
      ensures Truthy(items[i].insertText)
    {
      assert |items[i].insertText.value| > 0;
    }
    Sentences(version, items)
  }

  function BuildTriggerLists(tables: SnippetTables, version: Option<Version>): TriggerLists
  {
    TriggerLists(
      Sentences(version, Offered(version, tables.options)),
      RawOptionsItems(tables, version),
      Sentences(version, Offered(version, RawTableSnippets)),
      TableItems(version),
      Sentences(version, Offered(version, tables.printTable)),
      Sentences(version, Offered(version, tables.show)),
      Sentences(version, Offered(version, tables.hint)))
  }

  /** The Set, Unset, Test, Add and Remove triggers. */
  function OptionTriggers(c: TriggerLists): (r: seq<TriggerSnippet>)
    ensures |r| == 7
    ensures forall i :: 0 <= i < |r| ==> Truthy(r[i].insertText)
    ensures r[1].completion == r[3].completion == Some(c.rawOptions)
    ensures r[5].completion == r[6].completion == Some(c.table)
  {
    [
      Trigger("Set...", "Set ", Some(c.options), Some("Set coqtop options")),
      Trigger("Unset...", "Unset ", Some(c.rawOptions), Some("Unset coqtop options")),
      Trigger("Local Set...", "Local Set ", Some(c.options), None),
      Trigger("Global Unset...", "Global Unset ", Some(c.rawOptions), None),
      Trigger("Test...", "Test ", Some(c.rawOptions + c.rawTable), None),
      Trigger("Add...", "Add ", Some(c.table), None),
      Trigger("Remove...", "Remove ", Some(c.table), None)
    ]
  }

  /** The Print, Show and Hint triggers. */
  function HintTriggers(c: TriggerLists): (r: seq<TriggerSnippet>)
    ensures |r| == 6
    ensures forall i :: 0 <= i < |r| ==> Truthy(r[i].insertText)
  {
    [
      Trigger("Print...", "Print ", Some(c.printItems), None),
      Trigger("Show...", "Show ", Some(c.show), None),
      Trigger("Hint...", "Hint ", Some(c.hint), None),
      Trigger("Local Hint...", "Local Hint ", Some(c.hint), None),
      Trigger("Global Hint...", "Global Hint ", Some(c.hint), None),
      Trigger("Export Hint...", "#[export] Hint ", Some(c.hint), None)
    ]
  }

  /** The Arguments triggers, which carry no completion list. */
  const ArgumentsTriggers: seq<TriggerSnippet> := [
    Trigger("Arguments", "Arguments ${1:qualid} ${2:possibly_bracketed_idents …}.", None, None),
    Trigger("Local Arguments", "Local Arguments ${1:qualid} ${2:possibly_bracketed_idents …}.", None, None),
    Trigger("Global Arguments", "Global Arguments ${1:qualid} ${2:possibly_bracketed_idents …}.", None, None)
  ]

  /** The trigger table for given completion lists. */
  function TriggerTable(c: TriggerLists): (r: seq<TriggerSnippet>)
    ensures |r| == 16
    ensures forall i :: 0 <= i < |r| ==> Truthy(r[i].insertText)
    ensures r[1].completion == r[3].completion == Some(c.rawOptions)
    ensures r[5].completion == r[6].completion == Some(c.table)
  {
    var options, hints := OptionTriggers(c), HintTriggers(c);
    assert forall i :: 0 <= i < |ArgumentsTriggers| ==> Truthy(ArgumentsTriggers[i].insertText);
    options + hints + ArgumentsTriggers
  }

  /** `buildTriggerSnippets`: Unset and Global Unset offer the accepted
      options inserting their label and a period as plain text; Add and
      Remove offer the accepted raw table items with a `qualid`
      placeholder. */
  function BuildTriggerSnippets(tables: SnippetTables, version: Option<Version>): (r: seq<TriggerSnippet>)
    ensures |r| == 16
    ensures forall i :: 0 <= i < |r| ==> Truthy(r[i].insertText)
    ensures r[1].completion == r[3].completion == Some(RawOptionsItems(tables, version))
    ensures r[5].completion == r[6].completion == Some(TableItems(version))
  {
    TriggerTable(BuildTriggerLists(tables, version))
  }

  /** `Keep Equalities` is offered to Add exactly from 8.15 on. */
  lemma KeepEqualitiesFrom815(v: Version)
    ensures Plain("Keep Equalities", Some(MinorVersion(8, 15))) in Offered(Some(v), RawTableSnippets)
        <==> AtLeast(v, MinorVersion(8, 15))
  {
  }

  predicate InsertTextStartsWith(prefix: string, t: TriggerSnippet)
  {
    t.insertText.Some? && StartsWith(t.insertText.value, prefix)
  }

  /** `triggers.filter((trigger) => trigger.insertText.startsWith(prefix))`. */
  function MatchingTriggers(triggers: seq<TriggerSnippet>, prefix: string): (r: seq<TriggerSnippet>)
    ensures forall t :: t in r <==> t in triggers && InsertTextStartsWith(prefix, t)
  {
    Filter(t => InsertTextStartsWith(prefix, t), triggers)
  }

  /** The result of a completion request: an array of items, a completion
      list, or `undefined` (a trigger without completions). */
  datatype CompletionResult = ItemArray(items: seq<CompletionItem>) | CompletionList(items: seq<CompletionItem>, isIncomplete: bool) | Undefined

  /** `getTriggerCompletions`. */
  function GetTriggerCompletions(triggers: seq<TriggerSnippet>, prefix: string, version: Option<Version>): (r: CompletionResult)
    ensures r.CompletionList? && r.isIncomplete
    ensures r.items == Sentences(version, MatchingTriggers(triggers, prefix))
  {
    CompletionList(Sentences(version, MatchingTriggers(triggers, prefix)), true)
  }

  /** The characters `escapeRegExp` escapes. */
  predicate IsRegExpSpecial(c: char)
  {
    c in "-[]/{}()*+?.\\^$|"
  }

  /** `escapeRegExp`. */
  function EscapeRegExp(s: string): (r: string)
    ensures |r| >= |s|
    ensures (forall i :: 0 <= i < |s| ==> !IsRegExpSpecial(s[i])) ==> r == s
  {
    if s == [] then []
    else (if IsRegExpSpecial(s[0]) then ['\\', s[0]] else [s[0]]) + EscapeRegExp(s[1..])
  }

  /** Dropping the backslash in front of each escaped character. */
  function UnescapeRegExp(s: string): string
    decreases |s|
  {
    if s == [] then []
    else if s[0] == '\\' && |s| >= 2 then [s[1]] + UnescapeRegExp(s[2..])
    else [s[0]] + UnescapeRegExp(s[1..])
  }

  /** Removing the escapes restores the input: escaping loses nothing, so
      the trigger texts are matched literally. */
  lemma {:induction false} UnescapeEscapeRegExp(s: string)
    ensures UnescapeRegExp(EscapeRegExp(s)) == s
    decreases |s|
  {
    if s != [] {
      UnescapeEscapeRegExp(s[1..]);
      var e := EscapeRegExp(s);
      if IsRegExpSpecial(s[0]) {
        assert e[2..] == EscapeRegExp(s[1..]);
      } else {
        assert e[1..] == EscapeRegExp(s[1..]);
      }
      assert [s[0]] + s[1..] == s;
    }
  }

  // ---------------------------------------------------------------------
  // The completion entry points and their per-version caches
  // ---------------------------------------------------------------------

  /** `buildTacticSnippets`. */
  function BuildTacticSnippets(tables: SnippetTables, version: Option<Version>): (r: seq<CompletionItem>)
    ensures |r| == |Offered(version, tables.tactic)|
    ensures forall i :: 0 <= i < |r| ==>
      r[i].name == Offered(version, tables.tactic)[i].name && r[i].command.None? == Offered(version, tables.tactic)[i].completion.None?
  {
    Sentences(version, Offered(version, tables.tactic))
  }

  /** The answer of `getSnippetCompletions` for a non-empty prefix, given
      the version's triggers.  `findTrigger` stands for the regular
      expression built from the triggers' escaped insert texts: the index
      of the trigger the prefix ends with, if any. */
  function TriggerAnswer(triggers: seq<TriggerSnippet>, prefix: string, version: Option<Version>,
                         findTrigger: (string, seq<TriggerSnippet>) -> Option<nat>): (r: CompletionResult)
    ensures r.CompletionList? ==>
      r.isIncomplete &&
      forall c :: c in r.items <==>
        exists t :: t in triggers && InsertTextStartsWith(Trim(prefix), t) && c == SnippetSentence(version, t)
    ensures r.Undefined? ==> findTrigger(prefix, triggers).Some?
    ensures r.ItemArray? ==>
      var found := findTrigger(prefix, triggers);
      found.Some? && found.value < |triggers| && triggers[found.value].completion == Some(r.items)
  {
    var found := findTrigger(prefix, triggers);
    if found.Some? && found.value < |triggers| then
      match triggers[found.value].completion
      case Some(items) => ItemArray(items)
      case None => Undefined
    else
      GetTriggerCompletionsMembers(triggers, Trim(prefix), version);
      GetTriggerCompletions(triggers, Trim(prefix), version)
  }

  /** The trigger completions are exactly the sentences of the triggers
      whose insert text starts with the prefix. */
  lemma GetTriggerCompletionsMembers(triggers: seq<TriggerSnippet>, prefix: string, version: Option<Version>)
    ensures forall c :: c in GetTriggerCompletions(triggers, prefix, version).items <==>
      exists t :: t in triggers && InsertTextStartsWith(prefix, t) && c == SnippetSentence(version, t)
  {
    var matching := MatchingTriggers(triggers, prefix);
    var items := GetTriggerCompletions(triggers, prefix, version).items;
    forall c | c in items
      ensures exists t :: t in triggers && InsertTextStartsWith(prefix, t) && c == SnippetSentence(version, t)
    {
      var i :| 0 <= i < |items| && items[i] == c;
      assert matching[i] in matching;
    }
    forall t | t in triggers && InsertTextStartsWith(prefix, t)
      ensures SnippetSentence(version, t) in items
    {
      var i :| 0 <= i < |matching| && matching[i] == t;
      assert items[i] == SnippetSentence(version, t);
    }
  }

  /** The answer of `getTacticCompletions`. */
  function TacticCompletions(tables: SnippetTables, prefix: string, version: Option<Version>): (r: CompletionResult)
    ensures r.ItemArray?
    ensures prefix == [] ==> r.items == []
    ensures prefix != [] ==> |r.items| == |Offered(version, tables.tactic)|
  {
    if prefix == [] then ItemArray([]) else ItemArray(BuildTacticSnippets(tables, version))
  }

  /** The module-level map `triggerSnippets`, filled on first use of a
      version by `build`, which is `buildTriggerSnippets` over the tables. */
  class TriggerCache {
    const build: Option<Version> -> seq<TriggerSnippet>
    var triggerSnippets: map<Option<Version>, seq<TriggerSnippet>>

    /** Every cached table is the one built for its version. */
    predicate Valid()
      reads this
    {
      forall v :: v in triggerSnippets ==> triggerSnippets[v] == build(v)
    }

    constructor (tables: SnippetTables)
      ensures forall v :: build(v) == BuildTriggerSnippets(tables, v)
      ensures triggerSnippets == map[]
      ensures Valid()
    {
      build := v => BuildTriggerSnippets(tables, v);
      triggerSnippets := map[];
    }

    /** `triggerSnippets.get(version)`, built and stored on first use. */
    method CachedTriggers(version: Option<Version>) returns (triggers: seq<TriggerSnippet>)
      requires Valid()
      modifies this
      ensures Valid()
      ensures triggers == build(version)
      ensures triggerSnippets.Keys == old(triggerSnippets).Keys + {version}
    {
      if version in triggerSnippets {
        triggers := triggerSnippets[version];
        assert old(triggerSnippets).Keys + {version} == triggerSnippets.Keys;
      } else {
        triggers := build(version);
        triggerSnippets := triggerSnippets[version := triggers];
      }
    }

    /** `getSnippetCompletions`: the answer is that of the version's built
        triggers whatever was cached before, so repeated calls agree; an
        empty prefix leaves the cache as it was. */
    method GetSnippetCompletions(prefix: string, version: Option<Version>,
                                 findTrigger: (string, seq<TriggerSnippet>) -> Option<nat>) returns (r: CompletionResult)
      requires Valid()
      modifies this
      ensures Valid()
      ensures r == if prefix == [] then ItemArray([]) else TriggerAnswer(build(version), prefix, version, findTrigger)
      ensures triggerSnippets.Keys == old(triggerSnippets).Keys + (if prefix == [] then {} else {version})
    {
      if prefix == [] {
        return ItemArray([]);
      }
      var triggers := CachedTriggers(version);
      var found := findTrigger(prefix, triggers);
      if found.Some? && found.value < |triggers| {
        var trigger := triggers[found.value];
        if trigger.completion.Some? {
          r := ItemArray(trigger.completion.value);
        } else {
          r := Undefined;
        }
      } else {
        r := GetTriggerCompletions(triggers, Trim(prefix), version);
      }
    }
  }

  /** The module-level map `tacticCompletions`, filled on first use of a
      version. */
  class TacticCache {
    const tables: SnippetTables
    var tacticCompletions: map<Option<Version>, seq<CompletionItem>>

    /** Every cached list is the one built for its version. */
    predicate Valid()
      reads this
    {
      forall v :: v in tacticCompletions ==> tacticCompletions[v] == BuildTacticSnippets(tables, v)
    }

    constructor (tables: SnippetTables)
      ensures this.tables == tables && tacticCompletions == map[]
      ensures Valid()
    {
      this.tables := tables;
      tacticCompletions := map[];
    }

    /** `getTacticCompletions`. */
    method GetTacticCompletions(prefix: string, version: Option<Version>) returns (r: CompletionResult)
      requires Valid()
      modifies this
      ensures Valid()
      ensures r == TacticCompletions(tables, prefix, version)
      ensures tacticCompletions.Keys == old(tacticCompletions).Keys + (if prefix == [] then {} else {version})
    {
      if prefix == [] {
        return ItemArray([]);
      }
      if version !in tacticCompletions {
        tacticCompletions := tacticCompletions[version := BuildTacticSnippets(tables, version)];
      }
      return ItemArray(tacticCompletions[version]);
    }
  }
}
