# vscoq core, modelled in Dafny

This project models the sequential core of vscoq, the Visual Studio Code
extension for the Coq proof assistant: the logic that runs between the
editor and the prover process and needs no editor, socket or prover to
be stated. One Dafny module stands for each source file.

- **Annotated text** (`AnnotatedText`, `ClientAnnotatedText`): the
  prover's rich text is a string, an annotation with an optional diff and
  substitution, a scoped text, or an array of these. The module folds it
  in order into a plain string and into a display string that honours
  substitutions. The client's copy of the folds is proved equal to the
  library's.
- **Prettify-symbols mode** (`PrettifySymbolsMode`): the module-level
  enabled flag, the change event it fires, and the post-pass. The
  post-pass turns the leftmost run of four non-breaking spaces into a tab
  and every other non-breaking space into a space.
- **XML response stream** (`CoqXml`): `escapeXml` over the five
  predefined entities of section 4.6 of XML 1.0, and `XmlStream`. The
  stream is a stack machine driven by open-tag, close-tag and text events.
  Its rich-text mode builds annotated text from `richpp` elements, and it
  emits one plain and one tagged `response` per completed top-level
  element. The handlers are a class whose state is proved equal to a step
  function; the properties are proved about that function.
- **Scopes** (`Scopes`): suffix matching of qualified identifiers, scope
  declarations and their symbol lists, and the backward walk over the
  chain of sentences. The walk balances begin/end nesting, keeps a stack
  of flags, and resolves a symbol at each scope (`lookup`,
  `getParentScope`, `getPrefixes`, `resolveSymbol`).
- **Document bookkeeping** (`Document`): the ordering of an edit batch
  for the state machine, and the six highlight lists with their range
  coalescing. It also covers the contiguous command-sequence generator
  (the sentence parser is a parameter), the parsing-range marks, and the
  `toGoal`, `query` and diagnostic-range helpers.
- **Text-edit oracle** (`TextEdits`): the test helpers `getText` and
  `makeChange`, modelled with their exact split semantics. Content changes
  are applied in order, as in the Language Server Protocol's
  `textDocument/didChange`. The modelled test scenarios move a line down
  and up, and they end in the texts the tests assert.
- **Version-gated completion tables** (`Snippets`, `SemVer`):
  `checkVersion` applies the window [addedIn, removedIn) under Semantic
  Versioning 2.0.0 precedence (section 11). The module also covers
  completion items with deprecation tags, `escapeRegExp`, the trigger
  table and prefix matching, and the per-version caches as classes over
  maps.
- **Small helpers**: the goal counts, display state and pane cycling of
  the goal view (`CoqView`), and the indentation arithmetic of
  `makeIndent` (`EditorAssist`). Also the parenthesis matcher and the
  two-second memo of hover queries (`HoverProvider`), and the numeric
  highlight types (`Protocol`).
- **Prover process wrapper** (`CoqTop8`): the command line and channel
  addresses, the version fallback, and the process flags kept by
  `isRunning`, `dispose`, the exit handlers and `coqInterrupt`.

`JsText` holds the JavaScript string primitives the code relies on:
`substring` with its clamping and swapping, `substr`, `trim`, `split` and
the decimal rendering of numbers. `Positions` and `Wrappers` hold the
protocol positions and the Option/Result types.

## Model

| member | source | states |
|---|---|---|
| AnnotatedText.GuardsExclusive | lib/src/AnnotatedText.ts:23-29 | a value is never both a scoped text and a text annotation; `isTextAnnotation` holds exactly for annotations, and `isScopedText` exactly for scoped texts |
| AnnotatedText.JoinAppend | lib/src/AnnotatedText.ts:34-35 | joining the parts of two arrays gives the join of the first followed by the join of the second |
| AnnotatedText.DisplayEqualsPlainWithoutSubstitutions | lib/src/AnnotatedText.ts:31-55 | on a value with no substitution anywhere, the display fold equals the plain fold |
| AnnotatedText.DisplayIsPlainOfSubstituted | lib/src/AnnotatedText.ts:43-55 | the display fold is the plain fold of the value with every non-empty substitution put in place of its text, and that value carries no substitutions |
| AnnotatedText.SubstitutionWins | lib/src/AnnotatedText.ts:31-55 | a non-empty substitution is displayed instead of the text; an empty or missing substitution shows the text; the plain fold always shows the text |
| AnnotatedText.FoldsDistribute | lib/src/AnnotatedText.ts:31-47 | both folds of the concatenation of two arrays are the folds of the first followed by those of the second |
| AnnotatedText.ScopeTransparent | lib/src/AnnotatedText.ts:36-40 | scope name and attributes are ignored: both folds of a scoped text are the folds of its inner text |
| ClientAnnotatedText.GuardsOverlap | client/src/AnnotatedText.ts:5-11 | the client's two guards both hold exactly on a scoped text whose inner text is a plain string; there the library's annotation guard fails, and the library's guard implies the client's |
| ClientAnnotatedText.SameAsLibrary | client/src/AnnotatedText.ts:13-37 | on every value the client's plain and display folds compute the same strings as the library's |
| PrettifySymbolsMode.SpacesForNbsp | client/src/prettify-symbols-mode.ts:43 | the space pass keeps the length, turns every non-breaking space into a space, and leaves every other character in place |
| PrettifySymbolsMode.FirstQuad | client/src/prettify-symbols-mode.ts:43 | a found index starts a run of four non-breaking spaces |
| PrettifySymbolsMode.FirstQuadIsLeftmost | client/src/prettify-symbols-mode.ts:43 | the run found is the leftmost one, and none is missed |
| PrettifySymbolsMode.ReplaceFirstQuadAt | client/src/prettify-symbols-mode.ts:43 | without the global flag only the leftmost run of four becomes a tab and everything else is unchanged; with no run the string is unchanged |
| PrettifySymbolsMode.SpacesForNbspAppend | client/src/prettify-symbols-mode.ts:43 | the space pass distributes over concatenation |
| PrettifySymbolsMode.PrettyString | client/src/prettify-symbols-mode.ts:43 | the post-pass output holds no non-breaking space |
| PrettifySymbolsMode.PrettyStringIdentity | client/src/prettify-symbols-mode.ts:40-43 | a fold without non-breaking spaces is returned unchanged |
| PrettifySymbolsMode.PrettyStringSpec | client/src/prettify-symbols-mode.ts:43 | the post-pass is the leftmost quad made a tab, then every remaining non-breaking space made a space |
| PrettifySymbolsMode.PrettifySymbols.constructor | client/src/prettify-symbols-mode.ts:24-28 | the mode starts disabled, with no event fired |
| PrettifySymbolsMode.PrettifySymbols.OnPrettifySymbolsModeEnabledChange | client/src/prettify-symbols-mode.ts:32-37 | reporting the current value fires nothing; a different value is stored and fired exactly once |
| PrettifySymbolsMode.PrettifySymbols.PrettyTextToString | client/src/prettify-symbols-mode.ts:39-44 | the output has no non-breaking space; disabled, it is the post-pass of the plain fold; enabled, of the plain fold of the text with its substitutions applied; without substitutions the switch makes no difference |
| CoqXml.Entity | server/src/coqtop/xml-protocol/coq-xml.ts:28-39 | an ordinary character stands for itself; a special one becomes an entity `&...;` |
| CoqXml.EscapeXml | server/src/coqtop/xml-protocol/coq-xml.ts:28-39 | the escaped text holds none of `< > ' "` and is no shorter than the input |
| CoqXml.DecodeEntity | server/src/coqtop/xml-protocol/coq-xml.ts:28-39 | a decoded entity names a special character and fits in the text |
| CoqXml.DecodeEntityOf | server/src/coqtop/xml-protocol/coq-xml.ts:28-39 | an escaped character followed by any text decodes back to that character, and an ordinary one decodes as no entity |
| CoqXml.UnescapeEscapeXml | server/src/coqtop/xml-protocol/coq-xml.ts:28-39 | decoding the five entities restores the escaped input |
| CoqXml.EscapeXmlPlain | server/src/coqtop/xml-protocol/coq-xml.ts:28-39 | text without special characters is unchanged |
| CoqXml.Step | server/src/coqtop/xml-protocol/coq-xml.ts:87-161 | a handled event keeps rich mode on exactly while a rich text is under construction, only extends the emitted events, and leaves a broken stream as it is |
| CoqXml.Run | server/src/coqtop/xml-protocol/coq-xml.ts:87-161 | a sequence of events keeps the state valid and only extends the emitted events |
| CoqXml.RunSplit | server/src/coqtop/xml-protocol/coq-xml.ts:87-161 | feeding the events in two chunks gives the same state, and so the same emissions, as feeding them at once |
| CoqXml.RootTagEvents | server/src/coqtop/xml-protocol/coq-xml.ts:87-112 | opening the synthetic root changes nothing; closing it reports the too-many-closing-tags error and changes nothing else |
| CoqXml.EmptyStackIgnored | server/src/coqtop/xml-protocol/coq-xml.ts:130-160 | outside rich mode with nothing open, a close and a text are ignored |
| CoqXml.RichClose | server/src/coqtop/xml-protocol/coq-xml.ts:114-122 | in rich mode, closing a scope appends its text to the scope around it |
| CoqXml.RichTreeRun | server/src/coqtop/xml-protocol/coq-xml.ts:91-157 | in rich mode, a complete tree adds its annotated text (elements become scopes, text stays text) to the innermost scope |
| CoqXml.RichChildrenRun | server/src/coqtop/xml-protocol/coq-xml.ts:114-122 | in rich mode, complete children add their texts in order |
| CoqXml.GenericChildRun | server/src/coqtop/xml-protocol/coq-xml.ts:91-160 | outside rich mode, a complete child changes only the open parent: text is appended, an element's deserialized value is appended and stored under its name, and a `richpp` element's text is appended and stored as `richpp` |
| CoqXml.GenericElementRun | server/src/coqtop/xml-protocol/coq-xml.ts:98-147 | a complete element is built from its children's effects; with a parent it joins the parent, without one it emits one `response` and one `response: <name>` |
| CoqXml.GenericChildrenRun | server/src/coqtop/xml-protocol/coq-xml.ts:133-147 | outside rich mode, complete children apply their effects to the open element in order |
| CoqXml.ApplyEffectsKeepsName | server/src/coqtop/xml-protocol/coq-xml.ts:133-147 | children never change an element's name or attributes |
| CoqXml.ResponsesForShape | server/src/coqtop/xml-protocol/coq-xml.ts:144-147 | each top-level element gives exactly two emissions: `response` with its value, then the tagged `response: <name>` |
| CoqXml.TopLevelRun | server/src/coqtop/xml-protocol/coq-xml.ts:98-147 | a stream of complete top-level elements fed to an idle stream emits exactly their responses, in order, and returns to idle |
| CoqXml.XmlStream.constructor | server/src/coqtop/xml-protocol/coq-xml.ts:41-78 | writing the synthetic root leaves the stream in the initial idle state |
| CoqXml.XmlStream.OnOpenTag | server/src/coqtop/xml-protocol/coq-xml.ts:87-106 | the fields after the handler are the step of an open-tag event |
| CoqXml.XmlStream.OnCloseTag | server/src/coqtop/xml-protocol/coq-xml.ts:108-149 | the fields after the handler are the step of a close-tag event |
| CoqXml.XmlStream.OnText | server/src/coqtop/xml-protocol/coq-xml.ts:151-161 | the fields after the handler are the step of a text event |
| CoqXml.XmlStream.Consume | server/src/coqtop/xml-protocol/coq-xml.ts:72-74 | delivering the tokenizer's events one by one leaves the state of running them all |
| Scopes.ResolveQualId | server/src/sentence-model/Scopes.ts:9-20 | null exactly when the second path is not a suffix of the first (including when it is longer); otherwise the first path |
| Scopes.SuffixMatch | server/src/sentence-model/Scopes.ts:23-39 | a match exists exactly when the shorter path is a suffix; then prefix followed by id is the longer path |
| Scopes.MatchOf | server/src/sentence-model/Scopes.ts:23-39 | `which` is 1 exactly when the first path is strictly longer; prefix followed by id gives the longer path and id is the shorter |
| Scopes.MatchSymmetric | server/src/sentence-model/Scopes.ts:23-39 | whether two paths match does not depend on their order |
| Scopes.MatchQualId | server/src/sentence-model/Scopes.ts:23-39 | the index loop computes the reference match |
| Scopes.MatchFromEnd | server/src/sentence-model/Scopes.ts:28-38 | comparing from the end computes the suffix match |
| Scopes.QualIdEqual | server/src/sentence-model/Scopes.ts:52-60 | true exactly when the two paths are equal |
| Scopes.ScopeDeclaration.constructor | server/src/sentence-model/Scopes.ts:95-102 | a declaration starts with its source, path and node, and empty symbol lists |
| Scopes.ScopeDeclaration.CreateSection | server/src/sentence-model/Scopes.ts:104-108 | a section has an empty path of its own and its name as its one private symbol |
| Scopes.ScopeDeclaration.CreateModule | server/src/sentence-model/Scopes.ts:110-114 | a module's path is its name, which is its one exported symbol |
| Scopes.ScopeDeclaration.CreateEnd | server/src/sentence-model/Scopes.ts:116-119 | an end carries its name and no symbols |
| Scopes.ScopeDeclaration.CreateDefinition | server/src/sentence-model/Scopes.ts:121-125 | a definition exports its name |
| Scopes.ScopeDeclaration.AddPrivateSymbol | server/src/sentence-model/Scopes.ts:127-129 | the symbol is appended to the private list and nothing else changes |
| Scopes.ScopeDeclaration.AddLocalSymbol | server/src/sentence-model/Scopes.ts:131-133 | the symbol is appended to the local list and nothing else changes |
| Scopes.ScopeDeclaration.AddExportSymbol | server/src/sentence-model/Scopes.ts:135-137 | the symbol is appended to the export list and nothing else changes |
| Scopes.FindSymbol | server/src/sentence-model/Scopes.ts:147-155 | the index of the first symbol with the name, or none when no symbol has it |
| Scopes.SymbolInList | server/src/sentence-model/Scopes.ts:139-157 | a found symbol is in the list, named by the last component of the path, and attributed to the scope's sentence |
| Scopes.SymbolInListFound | server/src/sentence-model/Scopes.ts:139-157 | a path is found exactly when it is non-empty, its qualifier resolves against the scope's own path, and some symbol has its last component |
| Scopes.LookupSymbolInList | server/src/sentence-model/Scopes.ts:139-157 | the loop computes the reference search |
| Scopes.HereSpecOrder | server/src/sentence-model/Scopes.ts:159-176 | a result comes from an enabled list; an enabled private hit wins; nothing is found exactly when no enabled list has the path |
| Scopes.LookupHere | server/src/sentence-model/Scopes.ts:159-176 | private, then local, then export lists, each only when its flag is set, first match wins |
| Scopes.PreviousScope | server/src/sentence-model/Scopes.ts:178-183 | the previous sentence's scope comes strictly earlier |
| Scopes.Chain | server/src/sentence-model/Scopes.ts:178-183 | the walk starts at the given scope and visits only sentences of the document |
| Scopes.ChainDecreasing | server/src/sentence-model/Scopes.ts:178-183 | sentence indices strictly decrease along the walk, so it ends |
| Scopes.FirstUnmatched | server/src/sentence-model/Scopes.ts:193-207 | the first scope on the walk that opens a block no end met before it closes, and none earlier |
| Scopes.ParentOf | server/src/sentence-model/Scopes.ts:193-207 | a parent found is a begin |
| Scopes.GetParentScope | server/src/sentence-model/Scopes.ts:193-207 | the nesting-counter loop returns the first unmatched begin walking back from the previous sentence, or null |
| Scopes.NestingStep | server/src/sentence-model/Scopes.ts:196-204 | stepping over one scope updates the counter, and a scope is unmatched exactly when it is a begin met at nesting 0 |
| Scopes.PrependAll | server/src/sentence-model/Scopes.ts:213-216 | every path gets the prefix in front, in order |
| Scopes.GetPrefixes | server/src/sentence-model/Scopes.ts:209-223 | always `[[]]`: the accumulator starts empty, so every step maps or extends `[[]]` |
| Scopes.FindPrefix | server/src/sentence-model/Scopes.ts:225-236 | the first of one list found in the other, or none when they share nothing |
| Scopes.ResolveSymbol | server/src/sentence-model/Scopes.ts:225-236 | a symbol resolves exactly when the empty prefix is offered, and then its assumed prefix is reset to empty |
| Scopes.ChainStep | server/src/sentence-model/Scopes.ts:247-259 | one step back along the walk moves to the rest of the chain |
| Scopes.ResolvedIsResultAt | server/src/sentence-model/Scopes.ts:238-250 | what one scope contributes is its resolved symbol, if any |
| Scopes.VisitScope | server/src/sentence-model/Scopes.ts:248-258 | one step of the walk adds the scope's result and updates flags and stack |
| Scopes.StepFlags | server/src/sentence-model/Scopes.ts:252-258 | the flag update of one step: Private cleared; an end pushes the flags and clears Local; a begin restores from a non-empty stack |
| Scopes.Lookup | server/src/sentence-model/Scopes.ts:242-263 | the backward walk computes the reference lookup |
| Scopes.PrivateOnlyFirst | server/src/sentence-model/Scopes.ts:251-252 | after the first scope Private is off, in the flags and in every saved entry |
| Scopes.ResultsInWalkOrder | server/src/sentence-model/Scopes.ts:242-263 | results come out in walk order, each from a sentence further back than the one before |
| Scopes.LookupNearestFirst | server/src/sentence-model/Scopes.ts:242-263 | the results' sentences strictly decrease: nearest first |
| Scopes.WalkStepKeepsBottom | server/src/sentence-model/Scopes.ts:254-258 | one step changes the flag stack only at its top |
| Scopes.StackKeepsSaved | server/src/sentence-model/Scopes.ts:254-258 | while inside the block an end opened, the flags it saved stay on the stack |
| Scopes.MatchedEndRestores | server/src/sentence-model/Scopes.ts:254-258 | an end hides Local symbols inside its block, and the matching begin restores the flags saved at the end |
| Scopes.SectionNameResolves | server/src/sentence-model/Scopes.ts:104-108 | inside a section its own name is found among the private symbols |
| Scopes.ModuleNameResolves | server/src/sentence-model/Scopes.ts:110-114 | a module's name is found among its exports, unqualified or qualified by the module |
| Document.NotAfterTransitive | server/src/document.ts:80-83 | "not after" on positions is transitive |
| Document.InsertChange | server/src/document.ts:80-83 | inserting a change adds exactly that change to the batch |
| Document.InsertChangeSorted | server/src/document.ts:80-83 | inserting into a batch ordered later-first keeps it ordered |
| Document.SortChanges | server/src/document.ts:80-83 | the sorted batch is a permutation of the batch with later start positions first |
| Document.ApplyTextEdits | server/src/document.ts:78-90 | the sentence collection gets the batch unsorted; the state machine gets a sorted permutation, exactly when it is running |
| Document.HighlightListsDistinct | server/src/document.ts:144-153 | the six statuses land in six distinct highlight lists, and every list is reached |
| Document.AddHighlight | server/src/document.ts:161-167 | only the sentence's status list changes; its last range is extended to the sentence's end exactly when it ends where the sentence starts, otherwise the sentence's range is appended |
| Document.HighlightsOf | server/src/document.ts:161-167 | the highlights of any sentences are six lists |
| Document.HighlightsCount | server/src/document.ts:161-169 | a list never holds more ranges than there are sentences with its status |
| Document.HighlightsCover | server/src/document.ts:161-169 | every sentence range is covered by some range of its status's list, and merged ranges stay well ordered |
| Document.HighlightsCoalesced | server/src/document.ts:161-169 | adjacent ranges are always merged: in no list does a range end where the next one starts |
| Document.EndOffset | server/src/document.ts:240-243 | the end offset is the document length by default and is clamped to it otherwise |
| Document.NextOffset | server/src/document.ts:250-252 | a step that yields moves past the current offset or past the end |
| Document.GeneratedSpans | server/src/document.ts:249-266 | at most the demanded number of spans, starting at the current offset, each starting where the previous ended |
| Document.CommandSpans | server/src/document.ts:237-269 | nothing when begin is not before the end; otherwise contiguous spans from begin |
| Document.Accepted | server/src/document.ts:259-264 | a command counts as accepted once the next is asked for: all when the demand is not met, all but the last otherwise |
| Document.SpansWithinText | server/src/document.ts:249-266 | with a parser reporting lengths within its input, every span lies forward inside the document |
| Document.CommandTextsConcatenate | server/src/document.ts:253-256 | the texts of contiguous spans concatenate to the document text they span |
| Document.CommandSequenceCoversText | server/src/document.ts:237-273 | the generator's command texts concatenate to the document substring from begin to where they stop |
| Document.ToGoal | server/src/document.ts:288-295 | a not-running result passes through; with the state machine stopped the result is not-running; otherwise the payload is kept and the focus is the state machine's, except a proof view's own |
| Document.Query | server/src/document.ts:402-418 | stopped: "Coq is not running" and nothing sent; otherwise `<Command> term.` is sent, the answer is the last reply, and only a failed locate is retried with the term quoted |
| Document.ToDiagnostic | server/src/document.ts:304-309 | the error's own range when it has one, the sentence's otherwise; the message is the display fold; the source is `coqtop` |
| Document.CoqDocument.constructor | server/src/document.ts:62 | no parsing ranges are marked at first |
| Document.CoqDocument.CreateHighlights | server/src/document.ts:156-170 | the loop builds the coalesced lists of the sentences, or six empty lists when stopped |
| Document.CoqDocument.UpdateHighlights | server/src/document.ts:180-187 | the created lists, with the marked parsing ranges appended to the Parsing list |
| Document.CoqDocument.CommandSequence | server/src/document.ts:237-273 | the commands yielded for the demand are those of the generator's spans, and with `highlight` the accepted ones' ranges are marked |
| Document.CoqDocument.Pull | server/src/document.ts:249-267 | the loop yields the commands of the generated spans and marks the accepted ranges |
| Document.CoqDocument.MarkAccepted | server/src/document.ts:259-264 | asking for one more command marks the previous one's range |
| Document.CoqDocument.MarkParsing | server/src/document.ts:262 | the range is appended to the parsing ranges |
| Document.CoqDocument.UpdateDiagnostics | server/src/document.ts:297-314 | nothing is sent while stopped; otherwise one diagnostic per reported one, in order |
| TextEdits.SplitLines | server/test/SentenceCollection.ts:13 | at least one line, none holding a `\n` |
| TextEdits.NewLines | server/test/SentenceCollection.ts:14-15 | every entry is a run of line breaks |
| TextEdits.LineAt | server/test/SentenceCollection.ts:16 | fails exactly when both arrays lack the line; otherwise the line followed by its breaks |
| TextEdits.GetTextOf | server/test/SentenceCollection.ts:16-23 | failure only when a range end's line is missing from both arrays |
| TextEdits.GetText | server/test/SentenceCollection.ts:12-24 | failure only when a range end's line is missing |
| TextEdits.MakeChange | server/test/SentenceCollection.ts:38-45 | the change succeeds exactly when `getText` does, carries the range and text, and measures `getText` over the range |
| TextEdits.OffsetAt | server/test/SentenceCollection.ts:38-45 | an offset never lies past the end of the text |
| TextEdits.ApplyChange | server/test/SentenceCollection.ts:52-53 | a change replaces the text between the offsets of its range's ends |
| TextEdits.ApplyChangesSplit | server/test/SentenceCollection.ts:67-84 | a batch applied at once and split into two successive batches give the same text |
| TextEdits.SplitLinesTerminated | server/test/SentenceCollection.ts:13 | a text of newline-ended lines splits back into its lines plus an empty last line |
| TextEdits.NewLinesTerminated | server/test/SentenceCollection.ts:14-15 | such a text has one `"\n"` run per line |
| TextEdits.OffsetAtTerminated | server/test/SentenceCollection.ts:38-45 | on such a text, the protocol offset of a valid position is counted line by line |
| TextEdits.GetTextIsSlice | server/test/SentenceCollection.ts:12-24 | on such a text, `getText` over an ordered valid range is the text between the offsets of its ends |
| TextEdits.GetTextOneLine | server/test/SentenceCollection.ts:18-19 | on one line, `getText` is the substring between the two characters |
| TextEdits.GetTextManyLines | server/test/SentenceCollection.ts:20-23 | over several lines, `getText` is the first line's tail, the middle lines with their newlines and the last line's head |
| TextEdits.MakeChangeMeasures | server/test/SentenceCollection.ts:38-45 | on such a text, `makeChange` measures the distance between the offsets of the range's ends |
| TextEdits.ApplyChangeTerminated | server/test/SentenceCollection.ts:52-53 | on such a text, a change replaces exactly the text between the line-by-line offsets |
| TextEdits.SwapDown | server/test/SentenceCollection.ts:67-84 | deleting from the end of the first line to the end of the second, then inserting the second line at the start, swaps two lines in one batch or in two |
| TextEdits.SwapUp | server/test/SentenceCollection.ts:86-93 | appending a copy of the first line, then deleting the first line measured on the one-line text, swaps two lines |
| TextEdits.SwapLinesDown | server/test/SentenceCollection.ts:67-84 | on "Goal True.\npose True.\n" the down changes yield "pose True.\nGoal True.\n", in one batch and in two |
| TextEdits.SwapLinesUp | server/test/SentenceCollection.ts:86-93 | the up changes yield the three-line text and then "pose True.\nGoal True.\n" |
| Snippets.SnippetSentence | server/src/Snippets.ts:16-40 | without insert text the item inserts `label.` in plain format, otherwise the insert text as a snippet; the trigger-suggest command exactly when it has a completion; deprecated exactly when a version is set and reaches `deprecatredIn` |
| Snippets.CheckVersion | server/src/Snippets.ts:42-53 | a missing version accepts everything; otherwise rejected exactly before `addedIn` or from `removedIn` on |
| Snippets.CheckVersionWindow | server/src/Snippets.ts:46-52 | with both bounds, accepted exactly inside [addedIn, removedIn) |
| Snippets.CheckVersionConvex | server/src/Snippets.ts:46-52 | a version between two accepted ones is accepted |
| Snippets.Filter | server/src/Snippets.ts:336-358 | exactly the items satisfying the predicate |
| Snippets.FilterAppend | server/src/Snippets.ts:336-358 | filtering keeps table order: it distributes over concatenation |
| Snippets.Offered | server/src/Snippets.ts:336-358 | exactly the items the version accepts |
| Snippets.Sentences | server/src/Snippets.ts:336-358 | one completion item per table item, in order |
| Snippets.StripInsertText | server/src/Snippets.ts:338 | the same items with their insert text removed |
| Snippets.WithQualid | server/src/Snippets.ts:348 | each item inserts its label followed by a `qualid` placeholder |
| Snippets.RawOptionsItems | server/src/Snippets.ts:336-339 | the accepted option items, insert text removed, as completion items |
| Snippets.TableItems | server/src/Snippets.ts:346-349 | the accepted raw table items inserting their label and a `qualid` placeholder |
| Snippets.OptionTriggers | server/src/Snippets.ts:361-367 | the seven option triggers all insert text; Unset and Global Unset offer the option items; Add and Remove offer the table items |
| Snippets.HintTriggers | server/src/Snippets.ts:368-373 | the six print and hint triggers all insert text |
| Snippets.TriggerTable | server/src/Snippets.ts:360-377 | sixteen triggers, all inserting text, with the option and table lists where the source puts them |
| Snippets.BuildTriggerSnippets | server/src/Snippets.ts:335-378 | the version's sixteen triggers, with Unset and Global Unset offering the option items and Add and Remove the table items |
| Snippets.KeepEqualitiesFrom815 | server/src/Snippets.ts:238 | `Keep Equalities` is offered exactly from 8.15 on |
| Snippets.MatchingTriggers | server/src/Snippets.ts:400-403 | exactly the triggers whose insert text starts with the prefix |
| Snippets.GetTriggerCompletions | server/src/Snippets.ts:398-406 | an incomplete list of the completion items of the matching triggers, in table order |
| Snippets.GetTriggerCompletionsMembers | server/src/Snippets.ts:398-406 | a completion is offered exactly when it is the item of a matching trigger |
| Snippets.EscapeRegExp | server/src/Snippets.ts:409-411 | no shorter than the input; text without special characters is unchanged |
| Snippets.UnescapeEscapeRegExp | server/src/Snippets.ts:409-411 | removing the backslashes restores the input: escaping loses nothing |
| Snippets.BuildTacticSnippets | server/src/Snippets.ts:735-739 | one completion item per accepted tactic, in order |
| Snippets.TriggerAnswer | server/src/Snippets.ts:422-426 | a recognised trigger answers its completion list, or undefined when it has none; otherwise an incomplete list of exactly the items of the triggers whose insert text starts with the trimmed prefix |
| Snippets.TacticCompletions | server/src/Snippets.ts:741-750 | an empty prefix gets no items; otherwise the accepted tactics |
| Snippets.TriggerCache.constructor | server/src/Snippets.ts:386 | the cache starts empty and builds each version's table |
| Snippets.TriggerCache.CachedTriggers | server/src/Snippets.ts:417-420 | the table returned is the one built for the version, and only that version is added |
| Snippets.TriggerCache.GetSnippetCompletions | server/src/Snippets.ts:413-427 | an empty prefix gets `[]` and caches nothing; otherwise the answer for the version's built table, which is then cached |
| Snippets.TacticCache.constructor | server/src/Snippets.ts:733 | the cache starts empty |
| Snippets.TacticCache.GetTacticCompletions | server/src/Snippets.ts:741-750 | the answer is the version's tactic completions whether cached or not, and only a non-empty prefix caches |
| SemVer.LessIsStrictTotalOrder | server/src/Snippets.ts:46-52 | version precedence is irreflexive, asymmetric, transitive and total |
| CoqView.GetDisplayState | client/src/CoqView.ts:8-21 | Error exactly for failure and interrupted, Proof exactly for proof view, Top exactly for no-proof, not-running and busy |
| CoqView.CountUnfocusedGoalStack | client/src/CoqView.ts:23-28 | 0 for no stack, and at least the goals before and after the focus otherwise |
| CoqView.CountUnfocusedIsAllLevels | client/src/CoqView.ts:23-28 | the count is the number of goals on all levels of the stack |
| CoqView.CountAllGoals | client/src/CoqView.ts:30-40 | 0 for anything but a proof view, and at least the focused, abandoned and shelved goals for one |
| CoqView.CountAllGoalsIsAllLists | client/src/CoqView.ts:30-40 | the count of a proof view is the total size of its goal lists |
| CoqView.AdjacentPane | client/src/CoqView.ts:42-48 | One goes to Two, Two to Three, anything else to One |
| CoqView.AdjacentPaneCycles | client/src/CoqView.ts:42-48 | on One, Two and Three the map cycles with period 3 and has no fixed point |
| EditorAssist.Repeat | client/src/EditorAssist.ts:81-89 | the character repeated `n` times |
| EditorAssist.ExpandTabs | client/src/EditorAssist.ts:81 | text without tabs is unchanged |
| EditorAssist.ExpandTabsAppend | client/src/EditorAssist.ts:81 | tab expansion distributes over concatenation |
| EditorAssist.ExpandTabsWidth | client/src/EditorAssist.ts:81 | `n` tabs expand to `n * tabSize` columns |
| EditorAssist.MakeIndent | client/src/EditorAssist.ts:79-90 | columns are the expanded length of a text or the number given; spaces only with `insertSpaces`; the indent is tabs then spaces; a range error exactly for a positive column count with tab size 0 |
| EditorAssist.TabbedIndent | client/src/EditorAssist.ts:88-89 | the tabbed indent is tabs followed by spaces |
| EditorAssist.MakeIndentWidth | client/src/EditorAssist.ts:79-90 | the indent expands back to exactly its column count |
| EditorAssist.MakeIndentRoundTrip | client/src/EditorAssist.ts:79-90 | feeding the indent back in gives the same column count |
| HoverProvider.FindClosingParenthese | client/src/HoverProvider.ts:64-73 | the first index from `start` where the depth goes negative, which holds `)`; null exactly when it never does |
| HoverProvider.Parens | client/src/HoverProvider.ts:68-69 | only the parentheses of a string |
| HoverProvider.DepthOnlyParens | client/src/HoverProvider.ts:68-69 | characters other than parentheses never change the depth |
| HoverProvider.KeepRecent | client/src/HoverProvider.ts:228-248 | a record is kept exactly when it is at most two seconds old |
| HoverProvider.FirstFor | client/src/HoverProvider.ts:249 | the first record for the input, or none when no record has it |
| HoverProvider.QueryInputSpec | client/src/HoverProvider.ts:244-266 | a hit answers from the memo and sends nothing; a miss sends the query (a locate for notations), retries a quoted locate when an identifier gets no answer, and records only an answer |
| HoverProvider.RepeatedQueryHitsMemo | client/src/HoverProvider.ts:244-266 | asking again within two seconds of an answered query gives the same answer without querying |
| HoverProvider.HoverMemo.constructor | client/src/HoverProvider.ts:227 | the memo starts empty |
| HoverProvider.HoverMemo.QueryInput | client/src/HoverProvider.ts:244-266 | the answer, the queries sent and the new memo are those of the specification |
| Protocol.HighlightIndex | lib/src/protocol.ts:178-180 | every highlight type indexes one of six lists |
| Protocol.HighlightIndexInjective | lib/src/protocol.ts:178-180 | distinct highlight types index distinct lists |
| JsText.Clamp | server/src/document.ts:255 | indices are clamped into the string, in-range ones unchanged |
| JsText.Substring | server/src/document.ts:255 | `substring` of ordered in-range bounds is the slice, of reversed ones the swapped slice |
| JsText.Substr | server/src/document.ts:250 | `substr` takes `length` characters from `start`, nothing past the end |
| JsText.TrimStart | server/src/Snippets.ts:426 | a suffix of the input not starting with whitespace |
| JsText.TrimEnd | server/src/Snippets.ts:426 | a prefix of the input not ending with whitespace |
| JsText.NatToString | server/src/coqtop/CoqTop8.ts:148-149 | a non-empty string of digits |
| JsText.DecimalOfNatToString | server/src/coqtop/CoqTop8.ts:148-149 | reading the rendering back gives the number |
| JsText.SplitPiece | server/test/SentenceCollection.ts:13 | a piece without the separator splits off whole |
| CoqTop8.ScriptPath | server/src/coqtop/CoqTop8.ts:207-213 | a path exactly for a `file` URI |
| CoqTop8.AddressArgParses | server/src/coqtop/CoqTop8.ts:148-149 | `host:readPort:writePort` splits back into the host and the two ports |
| CoqTop8.TopFileArgs | server/src/coqtop/CoqTop8.ts:216-220 | `-topfile <path>` exactly from 8.10 on with a `file` script |
| CoqTop8.ChannelArgs | server/src/coqtop/CoqTop8.ts:221-239 | four arguments, the main address second and the control address fourth |
| CoqTop8.SpawnCoqTop | server/src/coqtop/CoqTop8.ts:215-242 | the IDE top-level binary from 8.9 on, the older one before; the channel arguments open the command line |
| CoqTop8.IdeSlaveOnlyBefore89 | server/src/coqtop/CoqTop8.ts:221-239 | `-ideslave` is passed exactly before 8.9, and then no `-topfile` |
| CoqTop8.NewerArgs | server/src/coqtop/CoqTop8.ts:221-229 | from 8.9 on there is no `-ideslave` |
| CoqTop8.OlderArgs | server/src/coqtop/CoqTop8.ts:230-239 | before 8.9 `-ideslave` is passed and `-topfile` is not |
| CoqTop8.TopFileLast | server/src/coqtop/CoqTop8.ts:221-229 | with the newer binary, the topfile arguments close the command line |
| CoqTop8.TopFileImpliesIdeTop | server/src/coqtop/CoqTop8.ts:216-222 | a `-topfile` argument implies the newer binary |
| CoqTop8.CoqTop.constructor | server/src/coqtop/CoqTop8.ts:56-79 | no process, no sockets, disconnected, nothing recorded |
| CoqTop8.CoqTop.IsRunning | server/src/coqtop/CoqTop8.ts:77-79 | true exactly while a process is held |
| CoqTop8.CoqTop.Dispose | server/src/coqtop/CoqTop8.ts:56-75 | `onClosed(false)` is reported only when a process was running and a callback is set; afterwards there is no process and no socket |
| CoqTop8.CoqTop.StartCoq | server/src/coqtop/CoqTop8.ts:81-103 | fails unless disconnected; otherwise the detected version or 8.10, and the command line for it is spawned |
| CoqTop8.CoqTop.RecordSpawn | server/src/coqtop/CoqTop8.ts:168-169 | the version is stored, a process is held and the command line is recorded |
| CoqTop8.CoqTop.OnProcessEnded | server/src/coqtop/CoqTop8.ts:168-193 | a running process with a callback reports `onClosed` with the error flag and the rendered code (number, `null` or `Error`), then again through `dispose`; afterwards there is no process and no socket |
| CoqTop8.CoqTop.CoqInterrupt | server/src/coqtop/CoqTop8.ts:244-253 | returns whether a process was held, and SIGINT is sent exactly then |
| CoqTop8.IntToString | server/src/coqtop/CoqTop8.ts:172-192 | a non-empty rendering of a numeric exit code |
| CoqTop8.CodeToString | server/src/coqtop/CoqTop8.ts:172-192 | the string concatenation of what a handler receives: a number, `null` for a signal, or an `Error` as `Error: <message>` |
| CoqTop8.CodeToStringInjective | server/src/coqtop/CoqTop8.ts:172-192 | the closing message identifies the code: distinct exit codes, `null` and errors are reported differently |
| CoqTop8.IntToStringInjective | server/src/coqtop/CoqTop8.ts:172-192 | distinct numeric exit codes render differently |

## Left out

- Strings: a Dafny `char` stands for one UTF-16 code unit. Characters outside the Basic Multilingual Plane, which JavaScript counts as two code units, are not represented as such, so lengths, offsets, `substr` spans, LSP `character` positions, indent columns and parenthesis indices agree with the source only on text inside the Basic Multilingual Plane.
- The SAX tokenizer is an input sequence of open-tag, close-tag and text events, and the deserializer is a function parameter. Their own code is not part of this model.
- The prover's state machine, `SentenceCollection`, `FeedbackSync` and the sentence parser are not part of this model. The state machine appears as its running flag, its sentences, its diagnostics, its focus and its `doQuery` reply. The parser appears as a length function.
- Sockets, `spawn`, process events, SIGINT delivery and the async/await sequencing in `CoqTop8.ts`, `document.ts` and `HoverProvider.ts` are I/O and concurrency. Spawned command lines, sent signals and `onClosed` calls are recorded in sequences instead.
- `Date.now()` is a parameter of the hover memo.
- HoverProvider.HoverMemo.QueryInput: the record stores the time the call began, not a second clock reading taken after the awaited query.
- Functions whose meaning is the JavaScript regular-expression engine are not modelled: `getTriggerSnippet` and `buildTriggerRegexp`; `compactify`, `formatCheck`, `formatLocate`, `formatAbout`, `coqIdOrNotationFromRange` and `provideHover`; `formatCloseProof`, `formatAlignAfterBullet` and `reload`. The trigger search is a parameter `findTrigger`, and the formatted hover answer is the reply of a query function.
- The hundreds of literal entries of the option, flag, tactic and command tables are a parameter record. `rawTableSnippets` and the trigger table are transcribed.
- SemVer: the caches' maps are keyed by `SemVer` objects, that is by object identity. They are modelled as keyed by version values, so the same version given twice hits the cache.
- SemVer: `semver.coerce`, the parsing of version strings and pre-release or build parts are not modelled; versions are (major, minor, patch) triples.
- Document.CoqDocument.UpdateDiagnostics: the document's own parse errors that `getErrors()` appends are not included.
- Document.CoqDocument.UpdateHighlights: the debounce through `FeedbackSync` is not modelled; the highlights are returned directly.
- Document.ContentChange: every change carries a range. A whole-document change without a range has no representation, because `getChangeEventRange` in lib/src/text-util.ts, which turns it into a range, is not part of this model.
- Document.SortChanges: the comparator never returns 0, so the engine's order for changes with equal starts is left open. The model fixes one such order and proves only what any order satisfies: a permutation, later starts first.
- Document.CoqDocument.CommandSequence: the generator is pulled for a given number of commands instead of lazily. The parser is given `substr(current, endOffset)`, which takes a length and not an end offset, so it may see text past the end offset; the model keeps this.
- CoqXml.XmlStream.OnCloseTag: the error the handler throws when an outermost `richpp` closes with no generic element open is modelled as a terminal `broken` state that ignores all later events.
- CoqTop8.CoqTop.Dispose: the base class's `dispose`, killing and disconnecting the process, and destroying the sockets are I/O; only the flags and lists are modelled.
- TextEdits: the sentence-list assertions of the tests depend on the sentence parser and `SentenceCollection`, which are not part of this model. Only the text assertions are modelled.
- TextEdits.ApplyChange: offsets are the Language Server Protocol's: a character past its line's end stops at the line break, and a line past the last gives the text's end.
- `client/src/Highlights.ts`, `client/src/HtmlLtacProf.ts`, `html_views/src/ltacprof/ltacprof.ts` and `html_views/src/goals/ui-util.ts` are VS Code decorations, web servers, DOM rendering and floating-point timing.
- `lib/src/settings.ts` and `lib/src/coqview.ts` hold only declarations. Of `lib/src/protocol.ts`, only the types the core uses are mirrored.
- `client/src/Refman.ts` is not part of this model, and neither are the webpack configurations.
