# LR(0) parser generator: a verified model

This project models the core of the LR(0) parser generator of the repository
MahletSolomon/LR-0- (TypeScript). It covers the whole path from the rows a user types into the
grammar editor down to the parse trace:

- **Grammar builders.** `buildGrammarFromRows` (src/lib/grammar-utils.ts) collects every row
  error before it gives up. The editor's own `buildGrammar` (src/components/grammar/GrammarEditor.tsx)
  stops at the first one.
- **Tokenizers.** There are two: `getTokens` in src/lib/compiler/grammar.ts, and
  `getTokens`/`splitGrammar` in src/utils/parse.ts.
- **The canonical LR(0) pipeline** (src/core/lr0, src/core/parse):
  - item helpers and signatures;
  - `augmentGrammar` with its fresh `S'`;
  - the `closure`/`gotoSet` worklists;
  - the canonical collection built by `buildLR0Automaton`;
  - the transition index;
  - `buildLR0ParseTable`, with first-writer-wins conflict recording and the `isLR0` flag;
  - the bounded shift/reduce machine `runLRParse`.
- **The older duplicate of the same pipeline** in src/lib/compiler (`lr0.ts`, `parser.ts`). This
  is the one the editor calls. It differs observably in four ways:
  - `S'` is not checked for collisions;
  - conflicts are classified by a different rule;
  - there is no `isLR0` flag;
  - the parser has no conflict gate and no underflow check.

Each stage that works by updating state step by step is a method with loops. Each such method
is proved equal to a function that states the stage's result. The properties the source
promises are then lemmas about those functions:
- closures are closed, least, sorted and idempotent;
- the automaton's states have distinct signatures and are numbered in discovery order;
- occupied table cells are never overwritten, and the flag is set exactly when there are no conflicts;
- every parse step is numbered and shaped as the source records it;
- the tokens joined give back the input without its white space (for the src/utils/parse.ts tokenizer, the input without its white space and its unrecognised characters);
- the builders report exactly the rows they should, and number the productions consecutively.

State ids `"S" + k` are the numbers k. JavaScript `Set`s and `Map`s, whose iteration order is
observable, are duplicate-free sequences in insertion order. `Map`s that are only read with
`get` are Dafny maps.

## Model

| member | source | states |
|---|---|---|
| Items.NextSymbol | src/core/lr0/items.ts:4-12 | the result is defined exactly when the production id exists and the dot is before the end of its right side, and it is then `right[dot]` |
| Items.AdvanceDot | src/core/lr0/items.ts:14-19 | the production id is kept and the dot moves by exactly one |
| Items.AdvanceOverNext | src/core/lr0/items.ts:4-19 | advancing over the next symbol x gives a valid item whose dot has just crossed x |
| Items.KeyWith | src/core/lr0/items.ts:21-23 | an item key is never empty |
| Items.KeyWithInjective | src/core/lr0/items.ts:21-23 | with a non-digit separator, equal keys mean equal items |
| Items.ItemKey | src/core/lr0/items.ts:21-23 | the key splits at its `@` into two decimal numerals, and these read back as the production id and the dot |
| Items.ItemKeyInjective | src/core/lr0/items.ts:21-23 | `itemKey` is injective: equal keys exactly when equal items |
| Items.Keys | src/core/lr0/items.ts:25-27 | the keys list has one key per item, in order |
| Items.KeysPermutation | src/core/lr0/items.ts:25-27 | permuted item lists have permuted key lists |
| Items.SignaturePermutation | src/core/lr0/items.ts:25-30 | the signature does not depend on the order of the item list |
| Items.SortedKeysPlain | src/core/lr0/items.ts:25-30 | the sorted keys are non-empty and hold no `\|`, so the joined signature can be split back |
| Items.KeysCover | src/core/lr0/items.ts:21-30 | equal key multisets mean every item of one list is in the other |
| Items.SignatureDeterminesItems | src/core/lr0/items.ts:21-30 | equal signatures mean the same set of items |
| Items.SignatureIffSameItems | src/core/lr0/items.ts:21-30 | for duplicate-free lists and a separator that is neither a digit nor `\|`, equal signatures exactly when the same items |
| Items.ItemsSignature | src/core/lr0/items.ts:25-30 | two duplicate-free lists have the same signature exactly when they hold the same items |
| Items.JoinEnds | src/core/lr0/items.ts:36-37 | a space-joined list of plain symbols starts with the first symbol's first character and ends with the last symbol's last |
| Items.RenderDotFirst | src/core/lr0/items.ts:36-48 | with the dot at the front, the trimmed rendering is `• b1 … bn` |
| Items.RenderDotLast | src/core/lr0/items.ts:36-48 | with the dot at the end, the trimmed rendering is `a1 … an •` |
| Items.RenderDotInside | src/core/lr0/items.ts:36-48 | with the dot inside, the rendering is the symbols before the dot, the bullet, then the rest, single-spaced |
| Items.ItemToString | src/core/lr0/items.ts:32-51 | a known production renders as `A -> ` followed by text that holds the bullet; an unknown one as `[` + its item key + `]` |
| Items.ItemToStringShape | src/core/lr0/items.ts:32-51 | an empty right side renders as `A -> •`; otherwise `A -> ` then the symbols before the dot, `•`, and the rest |
| Augment.Primes | src/core/lr0/augment.ts:8-11 | k primes are a string of length k made only of `'` |
| Augment.MaxLen | src/core/lr0/augment.ts:9 | every symbol of the list is at most that long (the bound that makes the loop finish) |
| Augment.FreshStartPrime | src/core/lr0/augment.ts:7-11 | the start symbol followed by the fewest primes, at least one, that name neither a non-terminal nor a terminal |
| Augment.AugmentGrammar | src/core/lr0/augment.ts:4-41 | fresh `S'`; production 0 is `S' -> [start]`; production i+1 is original production i with id i+1; terminals unchanged; non-terminals gain `S'` at the end; the original start is kept |
| Augment.AugmentedWellIndexed | src/core/lr0/augment.ts:15-28 | after augmentation every production id equals its position |
| Augment.FreshStartIsNew | src/core/lr0/augment.ts:8-32 | adding the fresh `S'` keeps the non-terminals duplicate-free |
| ClosureGoto.NonTerminalAfterDot | src/core/lr0/closureGoto.ts:40-43 | defined exactly when the item has a next symbol that is a non-empty non-terminal, and it is then that symbol |
| ClosureGoto.DerivedLeast | src/core/lr0/closureGoto.ts:38-56 | every item the worklist derived from the seeds lies in every closed superset of the seeds |
| ClosureGoto.StrictlySortedUnique | src/core/lr0/closureGoto.ts:59-62 | two lists sorted by (prodId, dot) without repeats that hold the same items are equal |
| ClosureGoto.ClosureUnique | src/core/lr0/closureGoto.ts:15-63 | the sorted closure of a seed set is unique |
| ClosureGoto.ClosureIdempotent | src/core/lr0/closureGoto.ts:15-63 | closing a closure again gives the same list |
| ClosureGoto.IdsWithLeft | src/core/lr0/closureGoto.ts:30-36 | the ids listed for a left side are exactly the productions with that left side |
| ClosureGoto.IndexByLhs | src/core/lr0/closureGoto.ts:30-36 | `prodsByLhs` gives, for every symbol, the ids of its productions in order, and nothing for other symbols |
| ClosureGoto.AddSeeds | src/core/lr0/closureGoto.ts:21-27 | the map and the queue hold the seeds once each, in first-occurrence order |
| ClosureGoto.AddStarts | src/core/lr0/closureGoto.ts:44-54 | the expansion appends, without repeats, exactly the missing `B -> . γ` items of the listed ids, and queues them |
| ClosureGoto.ProcessHead | src/core/lr0/closureGoto.ts:38-56 | one iteration keeps the worklist invariant and shrinks the unseen items or else the queue |
| ClosureGoto.Closure | src/core/lr0/closureGoto.ts:15-63 | the result holds the seeds, is closed under expansion, lies in every closed superset, has every non-seed item justified by an expansion, and is sorted by (prodId, dot) without repeats |
| ClosureGoto.SortedClosure | src/core/lr0/closureGoto.ts:58-62 | sorting the finished map keeps the closure's items and makes it strictly sorted |
| ClosureGoto.Moved | src/core/lr0/closureGoto.ts:71-78 | the moved list is never longer than the item list |
| ClosureGoto.MovedElems | src/core/lr0/closureGoto.ts:71-78 | an item is moved exactly when it is the advance of an item whose next symbol is x |
| ClosureGoto.MovedEmpty | src/core/lr0/closureGoto.ts:80-82 | nothing moves exactly when no item has x after its dot |
| ClosureGoto.MovedValid | src/core/lr0/closureGoto.ts:71-78 | each moved item is valid and its dot has just crossed x |
| ClosureGoto.GotoSet | src/core/lr0/closureGoto.ts:70-85 | `[]` exactly when nothing moves, and otherwise the sorted closure of the moved items |
| ClosureGoto.GotoUnique | src/core/lr0/closureGoto.ts:70-85 | the goto of a list on a symbol is unique |
| Canonical.NextSymbols | src/core/lr0/canonical.ts:49-55 | the symbol set has no repeats |
| Canonical.NextSymbolsElems | src/core/lr0/canonical.ts:49-55 | a symbol is in the set exactly when it is the non-empty next symbol of some item |
| Canonical.CollectSymbols | src/core/lr0/canonical.ts:49-55 | the loop collects exactly the symbol set, in first-occurrence order |
| Canonical.NextSymbolMoves | src/core/lr0/canonical.ts:58-61 | the goto on a collected symbol always moves an item, so the `continue` is never taken |
| Canonical.OutSymbolsElems | src/core/lr0/canonical.ts:78-83 | a symbol leaves state k exactly when some transition from k carries it |
| Canonical.ClosureValid | src/core/lr0/closureGoto.ts:15-63 | the closure of valid items holds only valid items |
| Canonical.SameSignatureSameItems | src/core/lr0/canonical.ts:63-64 | two sorted item lists with the same signature are the same list |
| Canonical.DistinctItemSets | src/core/lr0/canonical.ts:63-76 | signed states with distinct signatures hold distinct item sets |
| Canonical.StatesBounded | src/core/lr0/canonical.ts:44-85 | the number of states never exceeds the number of sets of valid items, which bounds the loop |
| Canonical.GotoFor | src/core/lr0/canonical.ts:59 | the goto of a state's items is the `gotoSet` result |
| Canonical.ClosureFor | src/core/lr0/canonical.ts:27 | the initial closure is the sorted closure of the seed list |
| Canonical.GotoTargetOk | src/core/lr0/canonical.ts:58-61 | the goto on a collected symbol is non-empty, strictly sorted and made of valid items |
| Canonical.AddTarget | src/core/lr0/canonical.ts:59-83 | one symbol keeps the inner invariant, and a new state is queued only when one is added |
| Canonical.AddTargets | src/core/lr0/canonical.ts:58-84 | after the loop over the collected symbols, the current state has exactly one transition per symbol, in symbol order; states are only added, and the queue changes only when a state is added |
| Canonical.ReuseTarget | src/core/lr0/canonical.ts:64-83 | a known signature changes nothing but the transitions, which get `(c, sym, id of the state with that signature)` appended; the inner invariant is kept |
| Canonical.NewTarget | src/core/lr0/canonical.ts:67-83 | a new signature appends state `n` (the counter) with the goto items to the states and the queue, maps the signature to `n`, appends the transition `(c, sym, n)` and adds one to the counter; the inner invariant is kept |
| Canonical.ProcessState | src/core/lr0/canonical.ts:44-85 | one dequeued state keeps the outer invariant and adds a state or shrinks the queue |
| Canonical.StartBuilder | src/core/lr0/canonical.ts:26-42 | the only state is `S0`, the closure of `S' -> . S`, signed; it alone is in the map (with id 0) and in the queue; there are no transitions and the counter is 1 |
| Canonical.BuildCollection | src/core/lr0/canonical.ts:26-85 | the result is the canonical collection: `S0` is the closure of `S' -> . S`; states are numbered in order, non-empty, sorted, valid, signed and pairwise distinct; each transition leads to the goto of its source; every state has one transition per collected symbol; every later state is reached from an earlier one; states are numbered in the order they are first entered; transitions are grouped by source |
| Canonical.FirstArrivalsInOrder | src/core/lr0/canonical.ts:66-83 | for states 1 <= k < m, the first transition into k comes before the first transition into m: ids follow the breadth-first discovery order |
| Canonical.TransitionOnSymbol | src/core/lr0/canonical.ts:49-83 | a state has a transition on x exactly when x follows a dot in its items |
| Canonical.TransitionsDeterministic | src/core/lr0/canonical.ts:49-83 | no state has two transitions on the same symbol |
| Canonical.StatesHoldDistinctItemSets | src/core/lr0/canonical.ts:63-76 | no two states of the collection hold the same item set |
| Canonical.BuildLR0Automaton | src/core/lr0/canonical.ts:12-95 | no start symbol and no productions give their error texts; otherwise no errors, and the automaton is the augmented grammar with its canonical collection |
| OrderedMaps.MapKeys | src/core/lr0/transitionIndex.ts:13 | one key per entry, in insertion order |
| OrderedMaps.MapGet | src/core/lr0/transitionIndex.ts:13 | defined exactly for the keys present |
| OrderedMaps.MapPutGet | src/core/lr0/transitionIndex.ts:13 | after `set(k, v)` the key k reads v and every other key reads as before |
| OrderedMaps.MapPutKeys | src/core/lr0/transitionIndex.ts:13 | `set` keeps the key order, and appends a new key at the end |
| TransitionIndex.FirstSymbols | src/core/lr0/transitionIndex.ts:9-14 | the symbols of a source have no repeats |
| TransitionIndex.IndexStep | src/core/lr0/transitionIndex.ts:9-14 | one transition keeps the lookup equal to the index of the transitions seen so far |
| TransitionIndex.BuildTransitionLookup | src/core/lr0/transitionIndex.ts:6-17 | the lookup has a row exactly for each source state; its keys are the symbols in first-occurrence order; each reads the target of the last such transition |
| TransitionIndex.NoSourceNoSymbols | src/core/lr0/transitionIndex.ts:10-13 | a state with no outgoing transition has no symbols |
| TransitionIndex.LastTargetDefined | src/core/lr0/transitionIndex.ts:13 | a target is recorded for (k, x) exactly when some transition goes from k on x |
| TransitionIndex.LastTargetLatest | src/core/lr0/transitionIndex.ts:13 | the recorded target comes from the last transition from k on x (later writes win) |
| TransitionIndex.FirstSymbolsElems | src/core/lr0/transitionIndex.ts:13 | x is a key of k's row exactly when some transition goes from k on x |
| TableCells.CoreKind | src/core/lr0/buildTable.ts:39-42 | shift/reduce exactly when one side shifts and the other reduces; otherwise reduce/reduce |
| TableCells.Causes | src/core/lr0/buildTable.ts:48-61 | the listed causes are exactly the state's items that justify the existing entry |
| TableCells.Render | src/core/lr0/buildTable.ts:53-63 | one rendered string per item, in order |
| TableCells.FindState | src/core/lr0/buildTable.ts:46 | a found state is listed with that id; nothing is found exactly when no state has it |
| TableCells.Write | src/core/lr0/buildTable.ts:15-81 | a free cell takes the entry and no other cell changes; an occupied cell is kept; the row exists afterwards; a conflict is added exactly when the cell held a different entry |
| TableCells.FillAppend | src/core/lr0/buildTable.ts:15-81 | replaying two call lists is replaying the first, then the second |
| TableCells.FirstAtSpec | src/core/lr0/buildTable.ts:22-80 | the first call on a cell is undefined exactly when no call writes it, and otherwise names the earliest one |
| TableCells.FillFirst | src/core/lr0/buildTable.ts:22-80 | first writer wins: every cell holds the entry of the first call on it |
| TableCells.FillKeepsCell | src/core/lr0/buildTable.ts:76-80 | an occupied cell is never overwritten |
| TableCells.FillRows | src/core/lr0/buildTable.ts:16-18 | a state has an action row exactly when some call was made on it |
| TableCells.FillConflictsMatch | src/core/lr0/buildTable.ts:65-76 | each recorded conflict names the entry its cell still holds |
| TableCells.WriteRecords | src/core/lr0/buildTable.ts:15-81 | after a call, its cell holds its entry or a conflict names it |
| TableCells.FillRecordsAll | src/core/lr0/buildTable.ts:15-81 | no call is lost: each left its entry in its cell or a conflict naming it |
| TableCells.ConflictsFromAttempts | src/core/lr0/buildTable.ts:65-75 | every conflict names a call that was made |
| TableCells.ConsistentNoConflicts | src/core/lr0/buildTable.ts:22-31 | calls that agree on every cell they share record no conflict |
| TableCells.NoConflictsConsistent | src/core/lr0/buildTable.ts:22-75 | no conflict means calls on the same cell agree |
| TableCells.NoConflictsIffConsistent | src/core/lr0/buildTable.ts:134 | the conflict list is empty exactly when calls on a shared cell always agree |
| BuildTable.FirstCausing | src/core/lr0/buildTable.ts:93-96 | the found item has the symbol after its dot; none is found exactly when no item does |
| BuildTable.CollectCauses | src/core/lr0/buildTable.ts:49-61 | the scan returns the rendered causes of the existing entry, in item order |
| BuildTable.SetAction | src/core/lr0/buildTable.ts:15-81 | the helper is one `Write` of the call |
| BuildTable.GotoPut | src/core/lr0/buildTable.ts:100-104 | adding a goto cell keeps every cell matching the last transition, and adds exactly that cell |
| BuildTable.RowEntry | src/core/lr0/buildTable.ts:89-105 | one transition entry makes its shift call (terminal with a causing item) or sets its goto cell (non-terminal other than `S'`) |
| BuildTable.ProcessRow | src/core/lr0/buildTable.ts:88-106 | a state's transitions make their shift calls in key order and add exactly its goto cells |
| BuildTable.ReduceAll | src/core/lr0/buildTable.ts:121-124 | one reduce call per terminal, then `$`, in order |
| BuildTable.ProcessItems | src/core/lr0/buildTable.ts:109-126 | the items make their accept or reduce calls, in order |
| BuildTable.ProcessState | src/core/lr0/buildTable.ts:84-128 | each state adds its calls to the replay and its goto cells to the table |
| BuildTable.BuildLR0ParseTable | src/core/lr0/buildTable.ts:6-136 | the action table and the conflicts replay every call in order; `isLR0` exactly when no conflict; goto cells are exactly the non-terminal transitions other than on `S'`, each holding the last target |
| TableProps.ShiftAttemptsOk | src/core/lr0/buildTable.ts:89-99 | every shift call is on its own state, with one of its items after whose dot the terminal comes, and the target of the transition |
| TableProps.ReduceAttemptsIn | src/core/lr0/buildTable.ts:119-124 | the reduce calls of an item are exactly one per target symbol |
| TableProps.ItemAttemptOk | src/core/lr0/buildTable.ts:109-125 | an item's calls are justified: accept for a completed `S'` item, reduce for any other completed item |
| TableProps.ItemAttemptsOk | src/core/lr0/buildTable.ts:109-126 | every call of a state's items is on that state, from one of its items, and justified |
| TableProps.StateAttemptsOk | src/core/lr0/buildTable.ts:84-128 | every call the builder makes is justified by a state item |
| TableProps.ReduceAttempted | src/core/lr0/buildTable.ts:119-124 | every completed non-`S'` item calls reduce on every terminal and `$` |
| TableProps.AcceptAttempted | src/core/lr0/buildTable.ts:112-116 | every completed `S'` item calls accept on `$` |
| TableProps.ShiftAttempted | src/core/lr0/buildTable.ts:89-99 | every terminal transition with a causing item calls shift to the last target |
| TableProps.TableEntriesJustified | src/core/lr0/buildTable.ts:6-136 | each cell holds the first call's entry, and that call is justified |
| TableProps.TableRecordsAll | src/core/lr0/buildTable.ts:6-136 | every call left its entry or a conflict naming it |
| TableProps.TableConflicts | src/core/lr0/buildTable.ts:65-134 | conflicts name kept entries and calls that were made, and `isLR0` holds exactly when every shared cell gets one entry |
| ParseRun.FindProduction | src/core/parse/runLRParse.ts:79 | the first production with that id; none exactly when no production has it |
| ParseRun.Symbols | src/core/parse/runLRParse.ts:33-112 | the symbols above `S0`, one per entry, in stack order |
| ParseRun.Step | src/core/parse/runLRParse.ts:41-120 | the step is logged with its number, stack and input; the entry is the action cell of the top state and lookahead; a move keeps `S0` at the bottom and consumes at most the front token; accept ends the run exactly on an accept cell |
| ParseRun.ReduceMove | src/core/parse/runLRParse.ts:85-112 | underflow exactly when the pop would remove `S0`; otherwise as many entries as the right side has are popped and the left side is pushed with the goto of the uncovered top, or the goto error is reported |
| ParseRun.Iteration | src/core/parse/runLRParse.ts:41-120 | one loop pass either ends the run with its result or moves to the next configuration of the same run |
| ParseRun.ParseLoop | src/core/parse/runLRParse.ts:33-123 | the loop from `[S0]` is the run function, `Max steps exceeded` after 1000 iterations |
| ParseRun.RunLRParse | src/core/parse/runLRParse.ts:6-124 | `runLRParse` is the outcome function |
| ParseRun.RunTrace | src/core/parse/runLRParse.ts:40-123 | the run is never blocked, extends the trace without rewriting it and numbers it from 1, with well-formed stacks and input suffixes and at most 1000 entries |
| ParseRun.RunEnding | src/core/parse/runLRParse.ts:114-123 | an accepted run's last entry found accept; the step bound stops a run only after 1000 entries |
| ParseRun.OutcomeShape | src/core/parse/runLRParse.ts:6-124 | blocked exactly when the table is not LR(0), with an empty trace; otherwise the trace is numbered from 1 over the words plus `$`, at most 1000 entries, and an accepted run ends on accept |
| ParseRun.SymbolsPush | src/core/parse/runLRParse.ts:74 | pushing a symbol appends it to the stack's symbols |
| ParseRun.SymbolsPrefix | src/core/parse/runLRParse.ts:96-98 | popping entries drops the same number of symbols |
| ParseRun.StepForm | src/core/parse/runLRParse.ts:69-112 | a shift keeps the sentential form; a reduce replaces as many top symbols as the right side has by the left side |
| ParseRun.AcceptOnlyAtEnd | src/core/parse/runLRParse.ts:114-118 | with a table built by `buildLR0ParseTable`, acceptance happens only on lookahead `$`, which is the final end marker when the input has no `$` word |
| Strings.Words | src/core/parse/runLRParse.ts:22 | the words are non-empty, hold no white space, and together are the input without its white space |
| CompilerItems.CompilerNextSymbol | src/lib/compiler/lr0.ts:57-63 | the same as the canonical `nextSymbol` on an existing production; defined exactly when the dot is before the end |
| CompilerItems.Advance | src/lib/compiler/lr0.ts:66-68 | the same as the canonical `advanceDot` |
| CompilerItems.CompilerSignature | src/lib/compiler/lr0.ts:71-77 | two duplicate-free lists have the same signature exactly when they hold the same items |
| CompilerItems.CompilerSignaturePermutation | src/lib/compiler/lr0.ts:71-77 | the signature does not depend on the order of the items |
| CompilerItems.FormatDotFirst | src/lib/compiler/lr0.ts:89-91 | with the dot first, the text has two spaces after the arrow: `A ->  • b1 … bn` |
| CompilerItems.FormatDotLast | src/lib/compiler/lr0.ts:89-91 | with the dot last, the trailing space is trimmed: `A -> a1 … an •` |
| CompilerItems.FormatDotInside | src/lib/compiler/lr0.ts:89-91 | with the dot inside, `A -> a1 … • … bn`, single-spaced |
| CompilerItems.FormatItem | src/lib/compiler/lr0.ts:80-92 | the rendering always holds the bullet |
| CompilerItems.FormatItemShape | src/lib/compiler/lr0.ts:80-92 | an empty right side renders `A -> •`; otherwise one of the three shapes by the dot's place |
| CompilerItems.FormatItemVersusItemToString | src/lib/compiler/lr0.ts:80-92 | `formatItem` and `itemToString` agree except with the dot before a non-empty right side |
| CompilerItems.CompilerAugment | src/lib/compiler/lr0.ts:98-125 | `S'` is the start plus one prime; production 0 is `S' -> S`; the others are renumbered from 1; `S'` is added to the non-terminals only if it is new |
| CompilerItems.CompilerAugmentCollides | src/lib/compiler/lr0.ts:99-115 | when `S'` is already a non-terminal it is reused and the non-terminals do not change |
| CompilerItems.CompilerAugmentWellIndexed | src/lib/compiler/lr0.ts:110-112 | every production id equals its position |
| CompilerItems.AddLeftStarts | src/lib/compiler/lr0.ts:141-152 | the scan appends, without repeats, exactly the missing `B -> . γ` items and queues them |
| CompilerItems.CompilerProcessHead | src/lib/compiler/lr0.ts:134-154 | one iteration keeps the worklist invariant and makes progress |
| CompilerItems.CompilerClosure | src/lib/compiler/lr0.ts:129-158 | the result is the closure, sorted; the seeds keep their repeats and each added item appears once; duplicate-free seeds give the canonical closure |
| CompilerItems.SeedsCounted | src/lib/compiler/lr0.ts:130-131 | the sorted result repeats the seeds as given and the added items once |
| CompilerItems.MovedDistinct | src/lib/compiler/lr0.ts:165-169 | duplicate-free items move to duplicate-free items |
| CompilerItems.CompilerGoto | src/lib/compiler/lr0.ts:162-173 | `[]` exactly when nothing moves; otherwise the closure of the moved items, the canonical goto for duplicate-free items |
| CompilerLR0.CompilerBuildAutomaton | src/lib/compiler/lr0.ts:177-241 | the grammar is the unchecked augmentation and the states and transitions are its canonical collection, with the states numbered in the order they are first entered |
| CompilerLR0.CompilerKind | src/lib/compiler/lr0.ts:265 | shift/reduce exactly when either side shifts |
| CompilerLR0.AddAction | src/lib/compiler/lr0.ts:250-273 | a free cell takes the entry; an occupied cell is kept and a different entry adds a conflict |
| CompilerLR0.ReplayAppend | src/lib/compiler/lr0.ts:250-273 | replaying two call lists is replaying one after the other |
| CompilerLR0.AsAttempts | src/lib/compiler/lr0.ts:250 | calls become table writes one for one |
| CompilerLR0.RelabelAll | src/lib/compiler/lr0.ts:262-267 | one compiler conflict per conflict, in order |
| CompilerLR0.AddActionIsWrite | src/lib/compiler/lr0.ts:250-273 | `addAction` writes cells as `setAction` does, its conflicts relabelled |
| CompilerLR0.ReplayIsRelabelledFill | src/lib/compiler/lr0.ts:250-273 | the whole replay equals the canonical replay up to relabelled conflicts |
| CompilerLR0.TransitionCallsIn | src/lib/compiler/lr0.ts:276-284 | the transition pass calls shift exactly for the terminal transitions |
| CompilerLR0.TransitionsPass | src/lib/compiler/lr0.ts:276-284 | terminal transitions make their shift calls; all others, `S'` included, set goto cells holding the last target |
| CompilerLR0.ReduceEach | src/lib/compiler/lr0.ts:300-303 | one reduce call per terminal, then `$` |
| CompilerLR0.ItemsPass | src/lib/compiler/lr0.ts:288-306 | completed items call accept (for `S'`) or reduce, in order |
| CompilerLR0.CompilerBuildTable | src/lib/compiler/lr0.ts:244-310 | the actions and conflicts replay transition calls and then item calls; goto cells are exactly the non-terminal transitions |
| CompilerLR0.KindRulesDiffer | src/lib/compiler/lr0.ts:265 | the two kind rules differ exactly when a shift clashes with a shift, or a shift and an accept clash in either order |
| CompilerLR0.CompilerTableCells | src/lib/compiler/lr0.ts:250-273 | first writer wins, and there is no conflict exactly when the calls on each cell agree |
| CompilerParser.RenderStack | src/lib/compiler/parser.ts:45 | one string per state: `S0` first, then each symbol with its state |
| CompilerParser.Step | src/lib/compiler/parser.ts:38-102 | the step is logged with its id, rendered stack and buffer; a move keeps the stacks aligned and consumes at most the front token; accept ends the run exactly on an accept cell |
| CompilerParser.ReduceMove | src/lib/compiler/parser.ts:75-97 | popping the whole stack or a missing goto give the goto error; otherwise the left side is pushed with the goto of the uncovered top |
| CompilerParser.PopBoth | src/lib/compiler/parser.ts:78-81 | popping n entries from each stack, an emptied stack staying empty |
| CompilerParser.Reducing | src/lib/compiler/parser.ts:70-97 | the reduce branch fails exactly when the reduce move does, else gives its configuration |
| CompilerParser.Iteration | src/lib/compiler/parser.ts:30-103 | one loop pass ends the run with its result or moves to the next configuration |
| CompilerParser.Parse | src/lib/compiler/parser.ts:11-106 | `parse` is the outcome function |
| CompilerParser.RunSteps | src/lib/compiler/parser.ts:30-103 | the steps are numbered from 1, each stack starts with `S0`, the inputs are suffixes of the buffer, and there are at most 1000 |
| CompilerParser.RunPrefix | src/lib/compiler/parser.ts:42-48 | logged steps are never rewritten |
| CompilerParser.RunEnding | src/lib/compiler/parser.ts:32-102 | an accepted run's last step is `Accept`; the guard stops a run only after 1000 steps |
| CompilerParser.OutcomeShape | src/lib/compiler/parser.ts:11-106 | the run's steps are well-formed over the tokens plus `$`, and an accepted run ends with `Accept` |
| CompilerParser.StepForm | src/lib/compiler/parser.ts:63-97 | a shift keeps the sentential form; a reduce replaces the top symbols by the left side |
| CompilerTokens.RunLen | src/lib/compiler/grammar.ts:60-63 | the run stops at the first delimiter or the end |
| CompilerTokens.ReadRun | src/lib/compiler/grammar.ts:60-63 | the inner loop stops at the end of the run |
| CompilerTokens.NextTokens | src/lib/compiler/grammar.ts:43-71 | white space is skipped, a single character is its own token, and otherwise the run is one token |
| CompilerTokens.GetTokens | src/lib/compiler/grammar.ts:35-74 | the loop returns the token list of the specifying function |
| CompilerTokens.TokensOk | src/lib/compiler/grammar.ts:35-74 | every token is one single character or a non-empty run without delimiters |
| CompilerTokens.TokensConcat | src/lib/compiler/grammar.ts:35-74 | the tokens joined are the input without its white space |
| CompilerTokens.RunToken | src/lib/compiler/grammar.ts:60-67 | a run ended by a delimiter is one token |
| CompilerTokens.TokensAreWords | src/lib/compiler/grammar.ts:35-74 | without single-character tokens the result is the white-space split |
| UtilsParse.TrimAll | src/utils/parse.ts:8 | one trimmed segment per piece, in order |
| UtilsParse.FilterKeepsAll | src/utils/parse.ts:9 | the filter `s.length > 0 \|\| s === ""` keeps every segment |
| UtilsParse.SplitGrammar | src/utils/parse.ts:6-10 | the result is the pieces between the bars, each trimmed, and nothing is dropped |
| UtilsParse.SplitGrammarSegments | src/utils/parse.ts:6-10 | one segment more than there are bars; the pieces joined with bars give the input back; each segment holds no bar and has no white space at either end |
| UtilsParse.TrimInside | src/utils/parse.ts:8 | trimming adds no character |
| UtilsParse.VarRun | src/utils/parse.ts:35-39 | the run is the longest prefix of `isVar` characters |
| UtilsParse.StepAsWritten | src/utils/parse.ts:22-43 | one pass as written moves `i` forward, and leaves it in place exactly on a character outside white space, `SINGLE` and `isVar` |
| UtilsParse.StallAsWritten | src/utils/parse.ts:22-44 | as written, an unrecognised character ahead means the loop never ends, for any number of passes |
| UtilsParse.StallExample | src/utils/parse.ts:22-44 | as written, the input `a $` never finishes |
| UtilsParse.AsWrittenOnAlphabet | src/utils/parse.ts:22-44 | as written, an input of recognised characters finishes within its length in passes, with the corrected token list |
| UtilsParse.RunAsWritten | src/utils/parse.ts:22-44 | the loop as written, run for a bounded number of passes: when it finishes, the tokens it started with are a prefix of those it returns |
| UtilsParse.AsWrittenSomeToken | src/utils/parse.ts:22-44 | as written, an input that starts with a non-blank character either never finishes or produces a token |
| UtilsParse.TrimmedAsWritten | src/lib/grammar-utils.ts:117-144 | as written, a non-empty trimmed alternative never gives an empty token list, so `Invalid characters in RHS` cannot be reported |
| UtilsParse.NextTokens | src/utils/parse.ts:24-43 | white space and unrecognised characters are stepped over, a `SINGLE` character is its own token, and an `isVar` run is one token |
| UtilsParse.ReadVar | src/utils/parse.ts:36-39 | the inner loop stops at the end of the `isVar` run |
| UtilsParse.GetTokens | src/utils/parse.ts:12-47 | the corrected loop returns the specified token list |
| UtilsParse.TokensOk | src/utils/parse.ts:12-47 | every token is one `SINGLE` character or a non-empty `isVar` run |
| UtilsParse.TokensEmpty | src/lib/grammar-utils.ts:136 | no tokens exactly when no character is `SINGLE` or `isVar` |
| UtilsParse.TokensConcat | src/utils/parse.ts:12-47 | the tokens joined are the input's `SINGLE` and `isVar` characters, in order |
| UtilsParse.TokensConcatOnAlphabet | src/utils/parse.ts:12-47 | on recognised characters, the tokens joined are the input without its white space |
| UtilsParse.RunToken | src/utils/parse.ts:35-42 | an `isVar` run ended by another character is one token |
| UtilsParse.FrontChar | src/utils/parse.ts:24-33 | a skipped or unrecognised first character adds no token; a `SINGLE` one is a token |
| GrammarRows.NumberedAppend | src/lib/grammar-utils.ts:146-151 | pushing the next rule with the next id keeps the production list numbered |
| GrammarRows.AddTerminals | src/lib/grammar-utils.ts:154-158 | the terminals gain exactly the tokens that are not non-terminals, new ones appended in order, without repeats |
| GrammarRows.AddTerminalsLoop | src/lib/grammar-utils.ts:154-158 | the `forEach` adds the terminals as specified |
| GrammarRows.InSomeRightAppend | src/lib/grammar-utils.ts:146-151 | a symbol is on some right side after the push exactly when it was before or is on the new one |
| GrammarRows.PushTerminals | src/lib/grammar-utils.ts:146-158 | adding a production and its terminals keeps the terminals exactly the right-side symbols that are not non-terminals |
| GrammarRows.PushEpsilon | src/lib/grammar-utils.ts:106-113 | an epsilon production keeps the terminals as they are |
| GrammarUtils.AddAlternatives | src/lib/grammar-utils.ts:116-159 | the alternatives loop is the specifying function |
| GrammarUtils.FirstPass | src/lib/grammar-utils.ts:29-87 | the first loop computes the errors, `lhsMap` and `nonTerminals` of the specifying function |
| GrammarUtils.SecondPass | src/lib/grammar-utils.ts:99-160 | the second loop computes the productions, terminals and added errors of the specifying function |
| GrammarUtils.BuildGrammarFromRows | src/lib/grammar-utils.ts:23-175 | `buildGrammarFromRows` is the specifying function |
| GrammarUtilsProps.CheckRowTables | src/lib/grammar-utils.ts:63-85 | a new non-empty left side is mapped to its row and appended to the non-terminals; any other row leaves both alone |
| GrammarUtilsProps.ValidateMap | src/lib/grammar-utils.ts:30-87 | the non-terminals are the distinct non-empty left sides in order, the keys of `lhsMap` are the same, and each maps to the id of the first row that has it |
| GrammarUtilsProps.AltsNumbered | src/lib/grammar-utils.ts:116-159 | the alternatives add their rules with consecutive ids |
| GrammarUtilsProps.EpsNumbered | src/lib/grammar-utils.ts:106-113 | the epsilon production takes the next id |
| GrammarUtilsProps.RowNumbered | src/lib/grammar-utils.ts:101-160 | each row adds its epsilon rule and then its alternatives, with consecutive ids |
| GrammarUtilsProps.RowsNumbered | src/lib/grammar-utils.ts:100-160 | the productions are the rows' rules, numbered from 0 |
| GrammarUtilsProps.ProductionsNumbered | src/lib/grammar-utils.ts:100-160 | production k is rule k of the rows with id k |
| GrammarUtilsProps.AltsTerminals | src/lib/grammar-utils.ts:153-158 | the alternatives keep the terminals exactly the right-side symbols that are not non-terminals |
| GrammarUtilsProps.RowsTerminals | src/lib/grammar-utils.ts:101-160 | the rows keep the terminals exactly the inferred ones |
| GrammarUtilsProps.TerminalsInferred | src/lib/grammar-utils.ts:153-158 | the terminals are exactly the right-side symbols that are not non-terminals, each once |
| GrammarUtilsProps.RowsKeepErrors | src/lib/grammar-utils.ts:101-160 | the second pass only appends errors |
| GrammarUtilsProps.AltsKeepErrors | src/lib/grammar-utils.ts:116-159 | alternatives only append errors |
| GrammarUtilsProps.BuildOutcome | src/lib/grammar-utils.ts:89-175 | no rows give no grammar and no errors; otherwise there is a grammar exactly when neither pass found an error, and then it starts at the first row's non-empty left side, with the first pass's non-terminals and the second pass's productions and terminals; the first pass's errors come first |
| GrammarUtilsProps.FirstRowChecked | src/lib/grammar-utils.ts:44 | an empty first left side is always an error |
| GrammarUtilsProps.CheckRowKeepsErrors | src/lib/grammar-utils.ts:32-87 | a row's check only appends errors |
| GrammarUtilsErrors.ValidatePrefixErrors | src/lib/grammar-utils.ts:32-87 | the errors of a prefix of the rows stay at the front of the list |
| GrammarUtilsErrors.CheckRowFlags | src/lib/grammar-utils.ts:36-81 | a row adds its empty, spaces and duplicate errors when they apply, and makes sure the original row has a duplicate error |
| GrammarUtilsErrors.FirstWithUnique | src/lib/grammar-utils.ts:83 | only one row is the first with a given left side |
| GrammarUtilsErrors.RowFlagged | src/lib/grammar-utils.ts:32-87 | every row with an empty left side (with content, or first), with spaces, or repeating an earlier left side gets that error |
| GrammarUtilsErrors.FirstWithPrefix | src/lib/grammar-utils.ts:83 | the first row with x in a prefix is the first row with x |
| GrammarUtilsErrors.MapOriginal | src/lib/grammar-utils.ts:71-83 | before a later row is checked, `lhsMap` sends x to the first row that has it |
| GrammarUtilsErrors.OriginalFlagged | src/lib/grammar-utils.ts:70-81 | the first row with a repeated left side gets a duplicate error |
| GrammarUtilsErrors.JustifiedExtend | src/lib/grammar-utils.ts:32-87 | a justified error stays justified when rows are added |
| GrammarUtilsErrors.CheckRowNew | src/lib/grammar-utils.ts:36-81 | the errors a row can add are its empty, spaces or duplicate error, or the original row's duplicate error |
| GrammarUtilsErrors.FirstPassSound | src/lib/grammar-utils.ts:32-87 | every first-pass error is on the left-hand side field and has a cause among the rows |
| GrammarUtilsErrors.AltStepError | src/lib/grammar-utils.ts:117-144 | an alternative adds `Invalid characters in RHS` exactly when it is non-blank and has no token character |
| GrammarUtilsErrors.AltsPrefixErrors | src/lib/grammar-utils.ts:116-159 | the errors of earlier alternatives stay at the front |
| GrammarUtilsErrors.RowsPrefixErrors | src/lib/grammar-utils.ts:101-160 | the errors of earlier rows stay at the front |
| GrammarUtilsErrors.AltFlagged | src/lib/grammar-utils.ts:136-144 | every untokenizable alternative of a row with a left side is reported with its index |
| GrammarUtilsErrors.AltsSound | src/lib/grammar-utils.ts:136-144 | every error an alternative adds is an untokenizable alternative of that row, at its index |
| GrammarUtilsErrors.RowsSound | src/lib/grammar-utils.ts:101-160 | every second-pass error is an untokenizable alternative of a row with a left side |
| GrammarUtilsErrors.ErrorsSound | src/lib/grammar-utils.ts:23-175 | every reported error has its cause among the rows |
| GrammarUtilsErrors.HasDuplicateAppend | src/lib/grammar-utils.ts:74 | the `some(... includes("Duplicate"))` test after a push is the test before it or the new error |
| GrammarUtilsErrors.DuplicateOnceAppend | src/lib/grammar-utils.ts:74-80 | pushing a duplicate error only onto an id without one keeps one per id |
| GrammarUtilsErrors.CheckRowDuplicateOnce | src/lib/grammar-utils.ts:63-81 | a row's check adds at most one duplicate error per id |
| GrammarUtilsErrors.DuplicatesFlaggedOnce | src/lib/grammar-utils.ts:63-81 | with distinct row ids, no row gets two duplicate errors |
| GrammarUtilsErrors.DollarFlagged | src/lib/grammar-utils.ts:117-144 | with the corrected tokenizer, the alternative `$` is reported as invalid |
| GrammarEditor.CollectLhsSticky | src/components/grammar/GrammarEditor.tsx:74-80 | once a row throws, the whole pass throws that error |
| GrammarEditor.FirstPass | src/components/grammar/GrammarEditor.tsx:74-80 | the first `forEach` returns the left sides or throws like the specifying function |
| GrammarEditor.PushAlternative | src/components/grammar/GrammarEditor.tsx:97-113 | one alternative is pushed as specified |
| GrammarEditor.PushAlternatives | src/components/grammar/GrammarEditor.tsx:97-113 | the alternatives loop is the specifying function |
| GrammarEditor.SecondPass | src/components/grammar/GrammarEditor.tsx:85-114 | the second `forEach` is the specifying function, from `pid = 1` |
| GrammarEditor.BuildGrammar | src/components/grammar/GrammarEditor.tsx:65-122 | `buildGrammar` is the specifying function |
| GrammarEditorProps.Lhss | src/components/grammar/GrammarEditor.tsx:75 | one trimmed left side per row, in order |
| GrammarEditorProps.RowOkPrefix | src/components/grammar/GrammarEditor.tsx:74-80 | a row's checks do not depend on later rows |
| GrammarEditorProps.FirstPassOutcome | src/components/grammar/GrammarEditor.tsx:74-80 | the pass succeeds exactly when every row passes, then with the distinct left sides in order; otherwise it throws the first bad row's error |
| GrammarEditorProps.AltsNumbered | src/components/grammar/GrammarEditor.tsx:97-113 | the alternatives add their rules with consecutive ids |
| GrammarEditorProps.EpsNumbered | src/components/grammar/GrammarEditor.tsx:88-95 | the epsilon production takes the next id |
| GrammarEditorProps.RowNumbered | src/components/grammar/GrammarEditor.tsx:85-114 | a row adds its epsilon rule and then its alternatives with consecutive ids |
| GrammarEditorProps.RowsNumbered | src/components/grammar/GrammarEditor.tsx:85-114 | the productions are the rows' rules, numbered from 1 |
| GrammarEditorProps.AltsTerminals | src/components/grammar/GrammarEditor.tsx:103-105 | the alternatives keep the terminals exactly the inferred ones |
| GrammarEditorProps.RowsTerminals | src/components/grammar/GrammarEditor.tsx:85-114 | the rows keep the terminals exactly the inferred ones |
| GrammarEditorProps.EditorOutcome | src/components/grammar/GrammarEditor.tsx:65-122 | no rows throw `Grammar is empty`; otherwise a grammar exactly when every row passes, else the first bad row's error; the grammar starts at the first left side, its non-terminals are the distinct left sides in order, production k is rule k with id k + 1, and the terminals are inferred |

## Left out
- Message and action texts are kept as data or as rendering functions. Only their structure is stated: conflict `msg` and `causedBy` texts, trace action texts, the `raw` production strings and the row error messages.
- Thrown exceptions are results. `runLRParse`'s `Production … not found` and the compiler parser's `TypeError` on a `find(...)!` that finds nothing become `Thrown`. The editor's `throw new Error(...)` becomes `Err`.
- `states.find(...)!` in `buildLR0ParseTable` is `FindState`. Every state id the table reads names a state, so the model never takes the `undefined` path.
- `rows.indexOf(row) === 0` in src/lib/grammar-utils.ts is modelled as "the row is at position 0". The two agree when the row objects are distinct, which the editor guarantees by creating each row afresh.
- The `message.includes("Duplicate")` test is modelled as "the error has the duplicate kind". Only duplicate errors carry that word.
- The `if (originalId)` test is modelled as "the stored row id is not the empty string", which is how JavaScript reads a string as a condition.
- JavaScript's `/\s/` and `trim` use a fixed list of white-space characters. The model uses that list in `Strings.IsWhitespace`; no Unicode normalisation is modelled.
- Two branches that cannot be taken are left out of the methods. The model proves that neither can be taken. The first is the `else i++` of src/lib/compiler/grammar.ts:68-71; it is excluded by `assert false`. The second is the skip of an empty goto at src/core/lr0/canonical.ts:61; `Canonical.GotoTargetOk` proves that the goto on a collected symbol is never empty.
- The test scripts (src/core/lr0/test.ts, src/core/lr0/test-table.ts, src/core/parse/test-parse.ts) only log to the console. Their concrete grammars and inputs are not evaluated as lemmas: `S -> a S | b` having no conflicts, the expression grammar having one, and `a a b` being accepted.
- UtilsParse.RunAsWritten: the as-written tokenizer loop does not terminate on some inputs, so it is stated with a bound on the number of passes. "It never finishes" is proved for every bound.
- `buildGrammarFromRows` is modelled with the corrected tokenizer `UtilsParse.Tokens`, which steps over an unrecognised character (see Findings). With the tokenizer as written, the call never returns on such a row.
- The React editor and everything it renders are out of scope: state hooks, `ProductionRow`, the parse table, conflict and trace views, the mermaid automaton graph, the about page and the footer.
- No parse tree is modelled, because none of the modelled code builds one.
- Row ids are opaque strings, and no UUIDs are generated.
- Browser I/O and timers are out of scope.

## Findings
| source | as written | input that shows it | evidently intended | confidence | as-written member | corrected member |
|---|---|---|---|---|---|---|
| src/utils/parse.ts:22-44 | the loop has no branch for a character that is neither white space, in `SINGLE` nor `isVar`, so `i` stays where it is and the loop never ends; `buildGrammarFromRows` then never returns, and its `Invalid characters in RHS` check cannot be reached | the alternative `a $` (or a row whose alternative is `$`) | step over, or report, such a character, so that the `Invalid characters in RHS` error can fire | not executed | UtilsParse.StallExample (with UtilsParse.StallAsWritten and UtilsParse.TrimmedAsWritten) | UtilsParse.GetTokens (with UtilsParse.TokensEmpty and GrammarUtilsErrors.DollarFlagged) |
