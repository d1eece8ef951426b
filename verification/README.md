# A verified model of the PureCARD constrained decoder

PureCARD masks, at every step of a language model's decoding, the tokens that cannot lead to a valid Pure query. Its
claim is that a fast cached mask equals a simple language-theoretic set. This project models the decoder's core and
proves that claim, with the layers it is built from:

| file | models |
|---|---|
| `Bytes.dfy`, `Automaton.dfy`, `Transitions.dfy` | byte classes, the transition function, and what one transition can do |
| `Runs.dfy`, `Completion.dfy`, `StackScan.dfy` | whole runs, their shortest completions, and the frame stack as a plain bracket scan |
| `Syntax.dfy`, `Spelling.dfy`, `Reading.dfy` | the language as sentences of lexemes, and that the automaton reads those and no others |
| `Trees.dfy`, `Grammar.dfy` | the published grammar as trees, how it is printed, and that every query of it is accepted |
| `Words.dfy`, `BitMask.dfy` | the token mask as 64-bit words |
| `Pda.dfy`, `CompiledGrammar.dfy`, `Decoding.dfy` | the automaton driver, the per-state token partition, and what sampling from it produces |
| `Lexemes.dfy`, `Scope.dfy`, `ScopeTracker.dfy` | lexemes, the scope machine as functions on its state, and the class that updates that state in place |
| `Tokenization.dfy`, `Segments.dfy`, `GapTokens.dfy`, `GapCuts.dfy`, `HarmlessCuts.dfy` | the scope machine against the cutting of the stream into tokens |
| `Lockstep.dfy`, `Scoping.dfy`, `Quoting.dfy`, `Columns.dfy`, `WholeRuns.dfy` | what holds of the scope machine over every run, and of any part of one |
| `Lexical.dfy`, `Bindings.dfy` | what the scope machine holds anywhere in a run, read off the lexemes without its stacks |
| `Trie.dfy`, `Model.dfy`, `Resolution.dfy`, `Narrow.dfy` | the byte trie, the schema's members and what they resolve to, and the memoized schema overlay |
| `Navigation.dfy`, `Lambdas.dfy` | where a dot leads: fused with its name or apart, and from a lambda's variable |
| `DotMasks.dfy`, `StaleDots.dfy` | the same as the masks show it, and runs on which a dot reads what an earlier navigation left |
| `Fragments.dfy` | the mask over the bytes of a name, token by token |
| `Positions.dfy`, `RowColumns.dfy` | the mask at each narrowed position, in terms of the schema, the recorded columns and the bytes of a token |
| `Session.dfy`, `SelfCheck.dfy` | the decode session and the tokenizer self-check |
| `CivilDate.dfy` | the day-to-date conversion of the build tasks |

The main results:

- The reported mask without a schema is exactly the set of tokens after which the query can still be completed; a
  shortest completion has `Need(state)` bytes plus one per open frame, never more than five beyond the frames
  (`DecoderSession.MaskMeaning`, `MaskBitIffCompletable`, `ShortestCompletion`). Runs sampled from the mask and ended
  by an allowed end-of-stream bit are exactly the segmentations of accepted queries (`GeneratedIffAccepted`).
- The automaton reads exactly one language, stated without its transitions: a byte string is accepted if and only if
  it spells a sentence, lexeme by lexeme, with whitespace behind it (`AcceptedIffSentence`). Every query of the
  published grammar is such a sentence however it is spaced (`QueriesAreAccepted`, `PrintedQueriesAreAccepted`).
- The cached partition with its re-probed ids is brute force over the live stack (`CachedMaskIsBruteForce`).
- The scope machine does not depend on tokenization for every cut but those that show (`OnlyVisibleCutsMatter`), and
  over structural tokens the cuts that show are known exactly, both ways (`TokensUnseenIffInvisible`). It stays in
  lockstep with the automaton (`EveryRunIsLocked`), and anywhere in any run, wherever the tokens begin and end, it
  restores its bindings and its pipeline state from a delimiter to its match (`RunRestoresBindings`,
  `RunRestoresBody`, `RunKeepsBody`).
- What that state is anywhere in a run is fixed by the lexemes before it, with no stack: which columns are recorded
  (`RunRecords`), what every variable stands for (`RunBindsLexically`), and where a string must name a column
  (`ColumnRuleIff`).
- A member resolves to the first entry of its name in the order of inheritance, entry by entry (`ResolvesToTheFirst`),
  and at every narrowed position the mask is known exactly from the schema, the columns and a token's bytes
  (`SourceMask`, `MemberMask`, `RowMask`, `ColumnMask`, `OperandMask`; inside a name `OpenNameMask`, fused with a dot
  `FusedNameMask`).
- Over every sequence of calls the memoized overlay equals a fresh one (`DecoderSession.AllowedMask`, through
  `NarrowCache.Valid`).
- The mask never cuts off a legal name: wherever names are narrowed, each token of each way to cut a legal name is in
  the mask of the configuration and scope its predecessors lead to (`NamesAreNeverCutOff`). A live token that finishes
  the name is in the mask if and only if it passes the fused rule (`NamesCanBeFinished`), which can only object to a
  dot and an identifier, behind a member or behind a source name that began like `let`; both objections are reached
  (`PhantomFinisherIsCleared`, `StaleLetFinisherIsCleared`).
- Where a dot leads is known before it is read, whether it comes alone or fused with a name (`DotLeads`); fusing it
  matters to the masks in exactly one case, which is reached (`FusionMattersToMasksIffStale`, `StaleDotIsReached`).
- `self_check` passes exactly when every sample is greedily segmentable and accepted, and its failure is unique and
  means what it says (`SelfCheck`, `FailureIsUnique`, `DeadEndIsFinal`).

Specification functions over values (`Run`, `Observed`, `Judge`, `L1Mask`, `L2Mask`) say what each stateful method
must compute; the classes (`Pda`, `BitMask`, `CompiledGrammar`, `Trie`, `ScopeTracker`, `NarrowCache`,
`DecoderSession`) are proved against them, and the lemmas are about those functions. The handlers of `ScopeTracker`
are such refinement steps: each updates the fields as its transition in `Scope.dfy` says, and what is proved of the
transitions is listed below.

## Hypotheses

- The vocabulary with its end-of-stream bit fits in 32-bit ids (`CompiledGrammar.Valid`). Beyond that the source's
  `as u32` conversions truncate.
- The end-of-stream bit is one past the last token, not the `eos` id the host passes to the vocabulary; the source
  never consults the latter.
- The scope machine is driven by whole tokens. `accept_byte` moves the automaton alone, so `DecoderSession` remembers
  in the ghost field `tracked` whether the tracker saw the whole stream; the lockstep part of its invariant is stated
  for such streams only.

## Where the code and its documentation differ

- `BitMask`'s documentation says that no path sets a padding bit. `copy_from` does when its source is longer than its
  target and holds a bit in the last copied word past the target's length. `CopyCanSetPadding` gives the input and
  `CopyStaysCleanIff` the exact condition. All of the decoder's own copies are between masks of one length, where the
  claim holds.
- `flush_gap`'s documentation says that only pipes and the `let` identifier read a gap's anchor, and alike. Openers
  read it too, and none of the three reads all anchors alike: `{|` in one token opens a block, in two the pipe begins
  a lambda body (`BlockOpeningShows`, on a run from the start of a stream). A cut between two structural bytes shows
  exactly when it splits a token that matters, or puts an opener, a pipe or an identifier behind an anchor that it
  reads differently (`Invisible`). A split `&&` does not matter, nor does a split comparison once an earlier lexeme
  of the gap has used up the identifier before it.
- `fused_nav_position`'s documentation says that it mirrors `on_dot`. When it reports no target, `on_dot` may still
  read an earlier variable or an earlier navigation that nothing has cleared: behind any open lexeme that does not
  navigate (a string, number or date, or an identifier that follows neither a dollar nor a dot), or behind a member
  step with no class to start from (`StaleTarget`). There a fused `.name` is kept whatever it names, while `name`
  after a dot of its own must name a member. `StaleDotIsReached` reaches such a state with `|C->f(x|$x+y`, and
  `FusionMattersToMasksIffStale` shows that it is the only way the two can differ.
- The scope module's documentation says that a position it cannot type passes through. Behind a source path the same
  leftovers count: after `{|C->f(x|$x.a);E` a dot leads to the members of the class that `a` led to in the statement
  before, and the mask behind that dot clears the identifiers that class lacks, `all` among them
  (`StaleSourceDotIsReached`). The position is unconstrained exactly when nothing is left over
  (`SourceDotIsFreeIffNothingIsLeft`). After `{|C->f(x|$x.a);l`, while `l` may still become `let`, the fused pass
  reads the same leftover and clears a live dot and identifier (`StaleLetFinisherIsCleared`).
- The grammar documentation says that a bare `x.name` and a header `$x|` are rejected. Both are accepted
  (`StrayNamesAreAccepted`).
- In the grammar documentation's lexis a date takes any `-` and `:` that follow it, so an operator behind a date needs
  a space where the expression grammar asks for none: `%2018-$x.n` is refused (`GluedDatesAreRefused`). `Print` puts
  that space, and no other than those that keep two lexemes from reading as one and the one behind `let`.
- A comment on the state behind a leading minus says that `-.5` dies; the code reads it, and so do the sentences.
- The schema documentation narrows every operand of a typed comparison. The code leaves the operands of booleans and
  dates alone, and any operand that stands right behind a lone `<` or `>`, where it may still become `<=` or `>=`;
  `OperandMask` says exactly what is kept.
- The cache documentation speaks of walking afresh at cursors inside an identifier; the code memoizes those masks per
  cursor node as well, and so does the model.

## Model

| member | source | states |
|---|---|---|
| `Transitions.FrameRule` | src/grammar/pda.rs:583-1038 | a transition that lives with no stack top is the same under every stack top, and pops nothing |
| `Transitions.StepMoves` | src/grammar/pda.rs:489-547 | outside strings a byte moves a frame exactly when it is a delimiter, an opener pushing its own frame and a closer popping its match; quotes alone open and leave strings; only blanks stay at the start |
| `Transitions.StepTurns` | src/grammar/pda.rs:347-365 | a lexeme is entered from a structural position by a byte that is no delimiter, and left for one; no byte goes from one lexeme class into another; only a quote enters a string |
| `Transitions.StepKeepsTopFits` | src/grammar/pda.rs:504-547 | the run invariant: inside a multiplicity the stack top is a bracket, after a block statement it is a block brace, and the value hub that may close has a frame to close |
| `Transitions.NeedFallsByOne` | src/grammar/pda.rs:583-1038 | no byte pays more than one unit of what a state still owes, and frames cost one more |
| `Transitions.PayingPays` | src/grammar/pda.rs:583-1038 | every state that owes bytes has a byte that pays one unit, under every stack top |
| `Transitions.PaidStateCloses` | src/grammar/pda.rs:489-497 | a state that owes nothing is closed by the closer of any stack top that fits it |
| `Transitions.ValueTerminalIffPaid` | src/grammar/pda.rs:1147-1153 | with no frame open, a space lands in the value hub exactly from the states that owe nothing |
| `Runs.RunConcat` | src/grammar/pda.rs:1094-1118 | running over a concatenation is running over its parts in turn, dying where either dies |
| `Runs.RunOver` | src/grammar/pda.rs:1230-1266 | a run that survives over its own stack survives over any ambient stack beneath it, ending in the same local configuration |
| `Completion.ClosingAccepts` | src/grammar/pda.rs:1147-1153 | every reachable configuration is closed by an explicit byte string, of exactly the length it owes |
| `Completion.NoShorterCompletion` | src/grammar/pda.rs:583-1038 | no byte string shorter than that reaches acceptance |
| `Completion.LiveIffCompletable` | src/grammar/pda.rs:1094-1118 | a byte string is live exactly when some continuation makes it an accepted query: there are no traps |
| `Completion.ShortestCompletion` | src/grammar/pda.rs:1147-1153 | the least completion has exactly the owed length, at most five bytes beyond the open frames |
| `Completion.FiveExtraBytesAreNeeded` | src/grammar/pda.rs:556-572 | the bound of five is met: `let ` at a block statement leaves five bytes beyond the frames to pay |
| `Completion.FiveExtraBytesAreReached` | src/grammar/pda.rs:556-572 | on a query: whatever completes `{\|let ` has at least five bytes beyond the brace that closes its one frame |
| `StackScan.StackIsScan` | src/grammar/pda.rs:1094-1118 | in every run the frame stack is what a scan that toggles on quotes and matches brackets outside them leaves |
| `StackScan.AcceptedIsBalanced` | src/grammar/pda.rs:1147-1153 | accepted queries are balanced outside strings, with no string left open |
| `StackScan.RunQuotesAndBraces` | src/grammar/pda.rs:622-646 | the quote count is odd exactly inside a string; a block brace sits only at the bottom, and only when the first non-blank byte is that brace |
| `Reading.AcceptedIffSentence` | src/grammar/pda.rs:583-1038 | both ways: the accepted byte strings are exactly the spellings of sentences, defined by which lexeme may follow which, how delimiters nest and which gaps keep lexemes apart, without the transitions |
| `Reading.EveryRunReads` | src/grammar/pda.rs:583-1038 | every live byte string is the beginning of a sentence, part by part, and leaves the automaton where that beginning does |
| `Spelling.SentencesAreAccepted` | src/grammar/pda.rs:583-1038 | every sentence is accepted, with any whitespace behind it |
| `Grammar.QueriesAreAccepted` | docs/spec/grammar.md:13-162 | every query of the published grammar is accepted, with any whitespace its lexemes allow between them: both envelopes, every step, typed binders, every comparison, connective and arithmetic operator, and every literal |
| `Grammar.PrintedQueriesAreAccepted` | docs/spec/grammar.md:262-299 | so is every query as it is printed, those with `~` columns included |
| `Grammar.StrayNamesAreAccepted` | docs/spec/grammar.md:168 | the claim that stray bare names are rejected fails: any pipeline filtered by `$x\|x.a` is accepted |
| `Grammar.GluedDatesAreRefused` | docs/spec/grammar.md:153-154 | behind a date a minus without a space is read as part of it, and no variable may follow |
| `PdaDriver.Pda.Advance` | src/grammar/pda.rs:1094-1118 | one byte moves the configuration as the transition function says, whose language `Reading.AcceptedIffSentence` fixes; a rejected byte changes nothing |
| `PdaDriver.Pda.IsAccepting` | src/grammar/pda.rs:1147-1153 | exactly the accepting configurations |
| `PdaDriver.Pda.Reset` | src/grammar/pda.rs:1157-1160 | back to the initial configuration |
| `PdaDriver.Pda.Admits` | src/grammar/pda.rs:1199-1221 | true exactly when the bytes survive from the live configuration, which is left alone |
| `PdaDriver.Pda.ProbeBytes` | src/grammar/pda.rs:1230-1266 | liveness of the replay, and whether a death on an empty local stack would be avoided under some frame |
| `PdaDriver.ProbeDecides` | src/grammar/pda.rs:1230-1266 | a survivor over the empty stack survives over every stack; a death that consulted no frame dies over every stack; a consulted death dies over the empty one |
| `PdaDriver.UnconsultedDeathIsFinal` | src/grammar/pda.rs:1230-1266 | a replay that dies without consulting the ambient stack dies over every ambient stack |
| `BitMasks.BitMask.Set` | src/mask.rs:66-72 | adds the id when it is in range, nothing else; padding stays clear |
| `BitMasks.BitMask.Clear` | src/mask.rs:76-82 | removes the id, nothing else |
| `BitMasks.BitMask.Test` | src/mask.rs:87-93 | membership, false for every id out of range |
| `BitMasks.BitMask.ClearAll` | src/mask.rs:96-98 | the empty set |
| `BitMasks.BitMask.Intersect` | src/mask.rs:103-107 | the word-wise meet over the overlap of the two masks |
| `BitMasks.MetIds` | src/mask.rs:103-107 | for masks of one length the word-wise meet is set intersection |
| `BitMasks.MetOnlyClears` | src/mask.rs:103-107 | for masks of any lengths the meet only clears bits, and so never sets a padding bit |
| `BitMasks.BitMask.CopyFrom` | src/mask.rs:114-118 | the word-wise overwrite of the overlap, for masks of any lengths |
| `BitMasks.CopyStaysCleanIff` | src/mask.rs:109-118 | the copy keeps padding clear exactly when the source holds no bit from the target's length to the end of the copied words |
| `BitMasks.CopyCanSetPadding` | src/mask.rs:20-28 | the input on which the documented padding claim fails |
| `BitMasks.IdsDetermine` | src/mask.rs:32-36 | two masks of one length with clear padding and the same members have the same words |
| `BitMasks.BitMask.PackLeBytesInto` | src/mask.rs:130-142 | ceil(len/8) bytes whose bit `id % 8` of byte `id / 8` is membership of `id`, for every id they hold and whatever the buffer held before |
| `BitMasks.BitMask.IterOnes` | src/mask.rs:151-156 | the members, strictly ascending, each once |
| `Words.HasWithBit` | src/mask.rs:66-72 | or-ing in a shifted one sets that bit of the word and no other |
| `Words.HasWithoutBit` | src/mask.rs:76-82 | and-ing with the complement of a shifted one clears that bit and no other |
| `Words.LeByteHas` | src/mask.rs:130-142 | bit `k` of little-endian byte `o` of a word is bit `8 * o + k` of the word |
| `Compiled.Build` | src/grammar/compiled.rs:106-124 | the survivors over the empty stack as a mask, and exactly the ids whose death consulted the stack |
| `Compiled.CompiledGrammar.CachedAt` | src/grammar/compiled.rs:97-99 | the partition of the state, built on the first visit into its own cell; a filled cell is returned unchanged |
| `Compiled.CachedMaskIsBruteForce` | src/grammar/compiled.rs:101-124 | for every state, live stack and vocabulary the cached survivors plus the re-probed deferred ids are exactly the tokens that survive from the live configuration |
| `Compiled.IndexIsDense` | src/grammar/pda.rs:281-331 | state indices are below the state count and no two states share one |
| `Decoding.MaskBitIffCompletable` | src/session.rs:115-157 | a token's bit is set exactly when consumed text, token and some continuation make an accepted query, and one continuation is at most five bytes longer than the stack after the token |
| `Decoding.EosBitIffAccepted` | src/session.rs:151-156 | the end-of-stream bit is set exactly when the consumed text is accepted |
| `Decoding.LiveStreamsGoOn` | src/session.rs:115-121 | a live stream is complete or has a live next byte |
| `Decoding.SampledIffSpellsLive` | src/session.rs:231-265 | a token run is drawn from successive masks exactly when its bytes run live |
| `Decoding.GeneratedIffAccepted` | src/session.rs:231-265 | runs drawn from the masks and ended by an allowed end-of-stream bit are exactly the segmentations of accepted strings |
| `Lexemes.UnquoteBytes` | src/schema/scope.rs:113-133 | strips the outer quotes when both are there, then undoubles |
| `Lexemes.QuoteBytes` | src/schema/narrow.rs:367-378 | the content with every quote doubled, between quotes |
| `Lexemes.UnquoteQuote` | src/schema/narrow.rs:367-378 | unquoting a quoted byte string gives it back, for all byte strings |
| `Lexemes.QuoteIsInjective` | src/schema/narrow.rs:367-378 | different columns are different quoted strings |
| `Lexemes.ClosedStringIsQuoted` | src/grammar/pda.rs:834-849 | every string lexeme the automaton closes is the quoting of its own unquoted content |
| `WholeRuns.RecordedColumnsAreRead` | src/schema/scope.rs:421-429 | over any run from the start of a stream each recorded column is the content of a string lexeme that is its quoting, or a name that was read, and each string lexeme's content is recorded |
| `Columns.DispatchEmits` | src/schema/scope.rs:496-545 | a lexeme appends its own content or name to the columns, or nothing; a string always appends its content, and which names are appended is `Lexical.RunRecords` |
| `Lexical.RunRecords` | src/schema/scope.rs:547-606 | over every run from the start of a stream the columns are, in order, exactly the contents of its strings and its column names: a name right behind a `~`, or where a value begins directly inside a `~[...]`, innermost meaning the last opener whose closer has not been read |
| `Lexical.ColumnRuleIff` | src/schema/scope.rs:820-871 | over every run, where a value begins with no comparison waiting: a string must name a column if and only if an open delimiter belongs to a call that refers to columns, none to one that establishes them, and the pipeline in force has its columns established; the calls are named in full |
| `Lexical.BodyIsAt` | src/schema/scope.rs:676-815 | the pipeline state before each lexeme of a run is the one read off the lexemes: a closer goes back to the first binder pipe of its own delimiter, and marks the columns established when its call establishes them |
| `Lexical.OpenersAreUnmatched` | src/schema/scope.rs:718-762 | the openers around a lexeme are exactly those before it whose closer has not been read |
| `Lexical.InnermostIsLast` | src/schema/scope.rs:718-762 | the innermost delimiter is the one whose opener everything behind it leaves open |
| `RowColumns.RowsOfferTheColumns` | src/session.rs:137-198 | over every run, behind the dot of a relation row: a live token that could be part of a name is in the mask if and only if it begins or ends one of the columns the lexemes record |
| `RowColumns.RecordedNamesAreOffered` | src/session.rs:137-198 | so every column name read earlier in the run may be read there, from its first fragment on |
| `Bindings.RunBindsLexically` | src/schema/scope.rs:663-815 | over every run what a variable stands for, a class, a relation row, something untyped or nothing, is what the binder pipe in force gives it, read off the lexemes with no save stack |
| `Tokenization.CutsDoNotMatter` | src/schema/scope.rs:342-415 | observing two pieces leaves the whole tracker, open lexeme included, as observing their concatenation does, for every cut inside or at the edge of a lexeme |
| `HarmlessCuts.InvisibleCutDoesNotMatter` | src/schema/scope.rs:342-465 | the same for every cut between two structural bytes that splits no token that matters and behind which every byte of the gap reads its anchor as before |
| `HarmlessCuts.OnlyVisibleCutsMatter` | src/schema/scope.rs:342-465 | both together: all cuts of all live streams, except those that show |
| `HarmlessCuts.TokensUnseenIffInvisible` | src/schema/scope.rs:438-465 | over structural tokens the condition is exact: a cut goes unseen in every scope, however far the gap goes on, if and only if it is invisible |
| `GapCuts.UnseenIffInvisible` | src/schema/scope.rs:438-465 | the same for every gap of the automaton, whatever state it begins in, from the scope at its start |
| `Tokenization.ObservedInStep` | src/schema/scope.rs:342-415 | after every token an open lexeme is buffered exactly when the automaton is inside one, with the same class |
| `HarmlessCuts.BlockOpeningShows` | src/schema/scope.rs:676-690 | a cut that shows, on a run from the start of a stream: `{` and `\|` in two tokens save a lambda body, in one they do not |
| `Lockstep.ObservedKeepsLocked` | src/schema/scope.rs:342-415 | every committed token keeps the lockstep invariant: depth and the two per-delimiter stacks have the automaton's stack length, the call stacks strictly rise within it, save depths do not decrease |
| `Lockstep.EveryRunIsLocked` | src/schema/scope.rs:718-815 | the invariant holds over every token run from the start of a stream |
| `Lockstep.DispatchKeepsFramed` | src/schema/scope.rs:496-545 | every lexeme keeps the shape of the save and call stacks, and moves the depth by one exactly when it is a delimiter |
| `Lockstep.PipeAddsSaves` | src/schema/scope.rs:676-716 | a binder pipe only adds saves of the current depth, on top |
| `Lockstep.BindersRestoredShape` | src/schema/scope.rs:753-778 | the restore loop pops exactly the saves of the closing depth, which are contiguous on top |
| `Lockstep.RunPendingIsOpenTail` | src/schema/scope.rs:472-489 | over any run the buffer is the bytes of the whole stream since the open lexeme's first byte |
| `Lockstep.FusedTargetNavigates` | src/schema/scope.rs:886-933 | whenever a fused target exists and a dot-led identifier token is admissible, its dot moves the automaton to the after-dot state with the stack unchanged |
| `Scoping.BindingsReturn` | src/schema/scope.rs:753-815 | lexemes that come back to their depth and bind nothing at it leave every variable and relation-row binding as it was |
| `Scoping.CallsReturn` | src/schema/scope.rs:779-815 | lexemes that come back to their depth find the same calls, receivers and tilde flags around them |
| `Scoping.BinderUndone` | src/schema/scope.rs:696-778 | undoing the save a binder takes gives back exactly the bindings before it |
| `WholeRuns.RunIsItsEvents` | src/schema/scope.rs:342-415 | a token run moves the scope as the list of its lexemes does |
| `WholeRuns.RunRestoresBindings` | src/schema/scope.rs:676-815 | anywhere in any run, from any opening delimiter to its match, every variable and relation-row binding ends as it began, wherever the tokens begin and end |
| `WholeRuns.RunRestoresBody` | src/schema/scope.rs:676-815 | anywhere in any run, a delimiter with a binder pipe at its own depth: its close brings class and arm state back to the first such pipe, unless an establishing call closes, which leaves an explicit relation and no class |
| `WholeRuns.RunKeepsBody` | src/schema/scope.rs:779-815 | with no binder pipe at its own depth, the close keeps the class and arm state it meets, marked when an establishing call ends |
| `WholeRuns.EveryRegionIsCovered` | src/schema/scope.rs:676-815 | those two cases are all: a delimited region has a first binder pipe at its own depth, or none |
| `WholeRuns.PipedRegionExists` | src/schema/scope.rs:676-815 | the regions with a body are not empty: `(\|)` is one |
| `WholeRuns.PipelessRegionExists` | src/schema/scope.rs:779-815 | nor are those without one: `()` is such a region |
| `Scoping.RegionRestoresBindings` | src/schema/scope.rs:676-815 | in bytes: tokens that never sink below the stack height they begin at, read no pipe at it and come back to it, leave every binding as it was |
| `Tracker.ScopeTracker.Observe` | src/schema/scope.rs:342-415 | the in-place pass over a token leaves exactly the specified state, for every token the automaton admits |
| `Tracker.ScopeTracker.FlushGap` | src/schema/scope.rs:438-465 | a gap is dispatched token by token, two-byte operators and identifiers whole, all from the gap's anchor |
| `Tracker.ScopeTracker.ResolveStep` | src/schema/scope.rs:607-642 | a member after a dot moves the navigation to the class it resolves to, or ends it with its type class |
| `Tracker.ScopeTracker.OnCloseDelim` | src/schema/scope.rs:753-815 | a closer undoes the binders and bodies of its depth, then the delimiter and the calls it ends |
| `Tracker.ScopeTracker.FusedNav` | src/schema/scope.rs:886-933 | the member or column position a dot-led token would navigate to, or none |
| `Tries.Trie.Insert` | src/schema/trie.rs:68-90 | one more name: edges stay sorted and unique, every node has exactly one byte path, terminals are exactly the names so far |
| `Tries.FromNames` | src/schema/trie.rs:49-61 | the trie of exactly the given names |
| `Tries.WalkTrie` | src/schema/trie.rs:114-128 | the loop computes the specified walk over the arena |
| `Tries.WalkConcat` | src/schema/trie.rs:114-128 | walking a concatenation is walking its parts in turn |
| `Tries.WalkIsJudged` | src/schema/trie.rs:114-128 | a walk from the node of a prefix gives the verdict the names alone give, whatever the node numbering |
| `Tries.StayMeaning` | src/schema/trie.rs:114-128 | the walk stays exactly on prefixes of names |
| `Tries.CompleteMeaning` | src/schema/trie.rs:114-128 | the walk completes exactly when the longest live prefix is a name and a non-identifier byte follows |
| `Model.BuildNavigable` | src/schema/model.rs:269-291 | every class's steps, in declaration order, are those of the specification |
| `Model.StepsAreOppositeEnds` | src/schema/model.rs:267-291 | a class has a step exactly when some association has the class at the other end |
| `Model.ResolveMember` | src/schema/model.rs:346-384 | the search by method resolves as specified, to the entry `Resolution.ResolvesToTheFirst` names; it terminates on cyclic super-types |
| `Model.MemberNames` | src/schema/model.rs:312-340 | exactly the own, qualified and navigable names of all classes reachable by super-types, cycles included |
| `Model.ResolvesIffMember` | src/schema/model.rs:342-384 | an identifier resolves exactly when it is a member, and then to a listed entry of that name of an inherited class: a stored or qualified property with its type and multiplicity, or a navigable end with its class and multiplicity |
| `Resolution.ResolvesToTheFirst` | src/schema/model.rs:342-384 | both ways: an identifier resolves to `r` if and only if `r` is the first entry of that name at the first place in the search order that lists it, stored before qualified; to nothing if and only if no place lists it |
| `Resolution.OrderIsInheritance` | src/schema/model.rs:351-384 | the search order starts with the class's own properties, ends with its own navigable ends, and has exactly the places of the classes it inherits from |
| `Resolution.OwnComesFirst` | src/schema/model.rs:351-372 | an own property is what the name resolves to, whatever is inherited or navigable |
| `Resolution.OwnEndsComeLast` | src/schema/model.rs:365-384 | without one, whatever any other inherited class lists under the name wins over the class's own navigable ends |
| `Positions.SourceMask` | src/schema/narrow.rs:122-187 | where a source is wanted, a live token that could be part of a name is in the mask if and only if it begins a class path, the store's path or `let`, or ends one before a byte no such name goes on with; every other live token is in it |
| `Positions.MemberMask` | src/schema/narrow.rs:122-187 | the same behind a dot that navigates to a class, over the names of that class and all it inherits from |
| `Positions.RowMask` | src/schema/narrow.rs:122-187 | the same behind the dot of a relation row, over the recorded columns |
| `Positions.ColumnMask` | src/schema/narrow.rs:122-187 | where a column is to be named, a live token that begins with a quote is in the mask if and only if it begins or ends a quoted column; every other live token is in it |
| `Positions.OperandMask` | src/schema/narrow.rs:391-415 | behind a member of a primitive type and a comparison: for a string no number or date is in the mask, for a number no string or date, for a boolean or a date nothing is narrowed, by the type's name and a token's first bytes; right behind a lone `<` or `>` every live token is in it |
| `Positions.OpenNameMask` | src/schema/narrow.rs:313-345 | inside a name the bytes read so far count: while they begin one of the names offered, the tokens kept are those that go on with or end one; a fused dot is judged by itself |
| `Positions.FusedNameMask` | src/schema/narrow.rs:273-306 | where a dot is known to navigate, a live token of a dot and an identifier is in the mask if and only if what follows its dot begins or ends a name of the target |
| `Narrowing.FillTrie` | src/schema/narrow.rs:420-446 | refills the mask with exactly the tokens the rule keeps from the cursor, and the end-of-stream bit |
| `Narrowing.FillFusedTrie` | src/schema/narrow.rs:273-287 | refills the mask with exactly the tokens the fused rule keeps |
| `Narrowing.FillOperand` | src/schema/narrow.rs:406-415 | refills the mask with exactly the tokens whose literal class fits the left side, as `Positions.OperandMask` spells out |
| `Narrowing.NarrowCache.SurvivesAppend` | src/schema/narrow.rs:67-103 | a valid memo stays valid when columns are appended, although its keys only count them |
| `Narrowing.NarrowTrie` | src/schema/narrow.rs:313-345 | applies exactly when the prefix stays in the trie, and then gives the fresh set for that prefix, hit or miss |
| `Narrowing.NarrowInto` | src/schema/narrow.rs:122-187 | for every position the memoized result is the freshly computed legal set, or no constraint |
| `Narrowing.NarrowFusedInto` | src/schema/narrow.rs:210-238 | the same for the fused pass |
| `Narrowing.ContinuationIsKept` | src/schema/narrow.rs:420-459 | from any prefix of a legal name, a token that goes on to a longer prefix is kept |
| `Narrowing.FinishingFragmentIsKept` | src/schema/trie.rs:114-128 | a token that finishes a legal name and goes on with a non-identifier byte no longer name continues with is kept |
| `Narrowing.ClearedExactly` | src/schema/narrow.rs:420-459 | exactly which tokens a rule keeps: those it does not govern, prefixes of names, and names ended by a non-identifier byte |
| `DotMasks.FusedFragmentInMask` | src/session.rs:184-198 | with a fused target known, however a real member or column is cut behind its dot, the live token of the dot and the first part is in the schema mask |
| `DotMasks.FusedTargetDecides` | src/session.rs:184-198 | with a fused target known, a live dot-led token is in the schema mask if and only if the target has a name for the identifier behind the dot, or no identifier is there |
| `Fragments.TrackerCarries` | src/schema/scope.rs:832-871 | after any tokens that spell the start of a name in one lexeme, the tracker holds exactly that start under the rule of the name's anchor, and nothing else has changed |
| `Fragments.TrackerUnruled` | src/schema/scope.rs:832-871 | after any tokens that spell a non-empty start of a source name that begins like `let`, the tracker reports no constraint |
| `DotMasks.QuotedStays` | src/grammar/pda.rs:834-849 | at a value position every quoted content is read as one string lexeme, whatever bytes it holds |
| `Fragments.ColumnsAreRead` | src/schema/narrow.rs:367-378 | so every legal name of a column position is read as one lexeme |
| `Fragments.NamesAreNeverCutOff` | src/session.rs:137-198 | at every column position for every legal name, and at every source and member position for every legal name the automaton reads there as one lexeme (or, at a block statement, as far as it can as `let`): however the name is cut into tokens, each token is in the mask of the configuration and scope its predecessors reached |
| `Fragments.NamesCanBeFinished` | src/session.rs:137-198 | a live token that finishes the name and goes on with a non-identifier byte no longer name continues with, dots included, is in the mask if and only if it passes the fused rule; always so when the name is all in that token, at a column position, and behind a source path outside the `let` states |
| `StaleDots.PhantomFinisherIsCleared` | src/schema/narrow.rs:265-287 | the input on which a finisher is cleared behind a member: after `\|C->f(x\|$x.a` a live dot and identifier that names no member of the class `a` leads to |
| `StaleDots.StaleLetFinisherIsCleared` | src/schema/scope.rs:903-908 | the input on which one is cleared behind a source name: after `{\|C->f(x\|$x.a);l`, where the fused pass still navigates from the statement before |
| `Narrowing.LegalSetsKeepEos` | src/schema/narrow.rs:273-287 | every legal set holds the end-of-stream bit |
| `Navigation.ObservedSteers` | src/schema/scope.rs:602-661 | after every token: past a dot no variable use still waits for one, a column access has no class to navigate from, and an identifier after a dollar or dot starts as one |
| `Navigation.EveryRunSteers` | src/schema/scope.rs:602-661 | that invariant holds over every token run from the start of a stream |
| `Navigation.DotLeads` | src/schema/scope.rs:873-933 | the position behind a dot token is the fused target read ahead of it when there is one, else the stale target, and no constraint exactly when there is neither |
| `DotMasks.EveryRunIsOnTrack` | src/schema/scope.rs:342-415 | over every token run from the start of a stream: the lockstep and navigation invariants, open strings are what the automaton read of them, and only a lexeme opened at a value position is under the column rule |
| `DotMasks.FusionMattersToMasksIffStale` | src/session.rs:137-198 | when the mask allows a dot and then a name, the mask allows them fused; it allows them fused and not apart if and only if the fused token is live, the dot is allowed, and the dot reads a stale target that has no such name |
| `DotMasks.SourceDotIsFreeIffNothingIsLeft` | src/schema/scope.rs:644-661 | behind an open identifier that navigates nowhere a dot leads to no constraint if and only if no earlier variable or navigation is left to read, and otherwise to that one |
| `StaleDots.StaleDotIsReached` | src/schema/scope.rs:886-908 | a run from the start of a stream with a stale target, `\|C->f(x\|$x+y`, for every schema with the class it starts from |
| `StaleDots.StaleSourceDotIsReached` | src/schema/scope.rs:644-661 | after `{\|C->f(x\|$x.a);E` the dot leads to the members of the class `a` led to, and the mask behind it clears every identifier that class lacks |
| `Navigation.MemberClosed` | src/schema/scope.rs:607-642 | a member step moves the cursor to the class it resolves to and ends the navigation otherwise, touching no binding and no column |
| `Navigation.DotReadsVariable` | src/schema/scope.rs:644-661 | a dot behind a variable leads to the columns of a relation row, the members of its class, or nowhere in particular |
| `Navigation.DotReadsCursor` | src/schema/scope.rs:644-661 | a dot behind no variable leads on from the class last navigated to |
| `Lambdas.LambdaNavigatesItsReceiver` | src/schema/scope.rs:663-751 | arrow, call, binder, use and dot together: in `->m(x\|$x.` the dot leads to the members of the class the call was made on, without one to the columns of a closed relation |
| `Lambdas.CallOnMember` | src/schema/scope.rs:607-642 | in `.a->m(y\|$y.` the dot leads to the members of the class that the member step handed to the arrow |
| `Lambdas.ComparisonAsksForItsClass` | src/schema/scope.rs:496-545 | behind a primitive member and a comparison, the next value position asks for that member's literal class |
| `Lambdas.OperandEndsTheDemand` | src/schema/scope.rs:496-545 | any lexeme but another comparison ends the demand |
| `Columns.ObservedGrowsEmitted` | src/schema/scope.rs:342-415 | the column list is only ever appended to |
| `Sessions.OverlayOnlyNarrows` | src/session.rs:158-198 | the schema mask is a subset of the syntactic one and its end-of-stream bit is completeness |
| `Sessions.FusedPassClearsNavigationsOnly` | src/schema/narrow.rs:291-306 | a token cleared by the fused pass is dot-led, and its dot is a member navigation of the automaton |
| `Sessions.DecoderSession.MaskMeaning` | src/session.rs:115-198 | in every session state: without a schema a bit is set exactly when the token extends the consumed text to a completable one, with one only such bits are set, and the end-of-stream bit is completeness |
| `Sessions.DecoderSession.FillL1Mask` | src/session.rs:137-157 | the refilled buffer is the brute-force syntactic mask, whatever it held before |
| `Sessions.DecoderSession.AllowedMask` | src/session.rs:137-198 | the buffer is the syntactic mask met with the freshly computed legal sets, although the sets come from the memo; what that mask holds is said by position in `Positions`, and where its column rule stands by `Lexical.ColumnRuleIff` |
| `Sessions.DecoderSession.AcceptToken` | src/session.rs:231-265 | succeeds exactly on ids of the syntactic mask, names the three rejections exactly, commits token and scope together, and leaves the session unchanged otherwise |
| `Sessions.DecoderSession.AcceptByte` | src/session.rs:301-314 | one live byte is consumed; a dead one leaves the session unchanged |
| `Sessions.DecoderSession.IsComplete` | src/session.rs:283-285 | exactly when the consumed text is an accepted query |
| `Sessions.DecoderSession.Reset` | src/session.rs:289-297 | a fresh stream, with a fresh scope and a memo that is valid for it |
| `SelfCheck.LongestMatch` | src/selfcheck.rs:97-109 | the non-empty token of greatest length that starts the bytes, the lowest id among equals, or none |
| `SelfCheck.SelfCheck` | src/selfcheck.rs:131-172 | no error exactly when every sample is greedily segmentable and accepted; otherwise the first failing sample with its failure |
| `SelfCheck.CheckSample` | src/selfcheck.rs:133-170 | one sample through a fresh session: it passes, or fails as described; the failure branch after the mask test is never taken |
| `SelfCheck.FailureIsUnique` | src/selfcheck.rs:131-172 | the kind, position and token of a query's failure are determined |
| `SelfCheck.AcceptedFailsUnsegmentable` | src/selfcheck.rs:131-172 | a query the automaton accepts can only fail as unsegmentable, and then greedy segmentation does not cover it |
| `SelfCheck.DeadEndIsFinal` | src/selfcheck.rs:146-159 | after a dead end nothing that starts with the reported prefix and token is accepted |
| `SelfCheck.IncompleteIsLive` | src/selfcheck.rs:164-169 | an incomplete query is not accepted but a proper prefix of an accepted one |
| `CivilDate.ConvertsToItsNumber` | xtask/src/tasks.rs:720-734 | for every day number the result is a valid proleptic Gregorian date (section 3.2.1 of ISO 8601:2004) with that day count |
| `CivilDate.ConversionInvertsCount` | xtask/src/tasks.rs:720-734 | converting the day count of any valid date gives the date back |
| `CivilDate.ConsecutiveDays` | xtask/src/tasks.rs:720-734 | consecutive day numbers, negative ones included, are consecutive dates, and day 0 is 1970-01-01 |
| `CivilDate.EraIsFloor` | xtask/src/tasks.rs:721-723 | despite division towards zero every day falls inside the era chosen for it |
| `CivilDate.YearOfDigits` | xtask/src/tasks.rs:724-727 | the leap corrections cancel exactly, so a day gets the March-based year that holds it |
| `CivilDate.DayNumberCounts` | xtask/src/tasks.rs:717-734 | the independent day count advances by one from every date to the next |

## Left out

- src/ffi.rs and the Python bindings: foreign calls and lifetimes only.
- JSON ingress of schemas: the parsed schema is given data, with names as byte strings.
- State and frame display names, error texts and the payloads of `DeadState` beyond the automaton's own configuration.
- `Envelope::classify` and `GuaranteeLevel`: one-branch facts.
- `OnceCell` and `Rc`: the per-state cache is a sequence of optional entries, each filled once.
- Agreement with the Legend engine, the gold corpus and real tokenizers: not decided by this code.
- The rest of xtask, the lints, fuzzing, benches and tests.
- `self_check_smoke`: it runs the check modelled here on one fixed sample set.
- Enum value lookup, and the source's parse-time schema fields the decoder never reads.
- Widths: node numbers, depths, offsets and lengths are unbounded; 64-bit mask words are modelled exactly, as naturals below 2^64 with their binary digits.
- Allocation reuse: scratch stacks and buffers are local values here, so keeping their capacity is not stated.
- Aliasing inside the caches: memoized masks and tries are values, where the source owns and borrows them.
- The order of hash-map iteration, and the order and repetitions of member lists: names are compared as sets.
- Scoping.RegionRestoresBindings: covers regions that begin and end with a token; `RunRestoresBindings` covers all others.
- HarmlessCuts.TokensUnseenIffInvisible: the scopes that tell a visible cut apart are any scopes; that each is reached by a run is shown for one cut only, in `BlockOpeningShows`.
- Tracker equality for the cuts that show: it does not hold there.
- Grammar.PrintedQueriesAreAccepted: lists the grammar wants non-empty may be empty here, which claims more; `.all(%latest)` with arguments is not in the published productions, only among the sentences.
- That a narrowed identifier ends at a full name: the code keeps it only as a prefix of one.
- `accept_byte` under a schema: the tracker is not advanced there, so nothing is claimed of the scope afterwards.
- CivilDate.ConvertsToItsNumber: day numbers are unbounded integers, where the source's `i64` arithmetic overflows within one era of its limits.
