# ocl-include in Dafny

A model of the include-resolution core of ocl-include, with proofs about it.
ocl-include is a line-oriented preprocessor for OpenCL sources. It reads a
root file through a content provider and expands `#include <p>` and
`#include "p"` recursively. It honours `#pragma once`, refuses a file that
already sits twice on the stack of files being scanned, and builds a tree of
per-file output buffers. Collecting that tree gives one text. The newest
generation also keeps a stack of `#ifdef`/`#ifndef`/`#endif` gates against a
map of flags.

The project mirrors the repository's structure:

- `errors.dfy`, `paths.dfy`, `lines.dfy` hold the shared vocabulary:
  - error kinds with a trace of (file, line) frames;
  - paths as component sequences;
  - the line classifier's directives.
- `provider.dfy` gives the `Source`/`Hook` interface as a deterministic read
  function. The read function comes with a finite universe of canonical paths.
- `source_container.dfy`, `source_mem.dfy`, `hooks.dfy`, `old_hook_mem.dfy`
  and `cache.dfy` model the providers and the put-once cache:
  - the ordered fallback chains (`Vec<S>`, `ListHook`);
  - the in-memory sources and hooks;
  - the legacy prefix hook.
- `gate.dfy` models the gate stack as a class whose cached flag is proved to
  equal the conjunction of its gates.
- `node.dfy` models the output buffer. `Node` is the buffer being filled, a
  class. `Tree` is a finished node moved into its parent, a value. Together
  they cover `add_line`, `add_child` and `collect`.
- `resolution.dfy` holds what both resolver generations share:
  - the occurrence cache and the file stack;
  - the "at most twice on the stack" invariant;
  - the termination measure.
- `plain_engine.dfy` covers the gate-free resolver of `src/parser.rs`, which
  is line for line the resolver of `src/builder.rs`.
  `gated_engine.dfy` covers the gated resolver of `src/parse/context.rs` and
  `src/parse/file_context.rs`. In both, recursive functions state what
  resolution computes, and classes (`Context`, `FileContext`) do it step by
  step. Each method is proved to produce exactly the specification's result
  and state.
- `plain_parser.dfy` and `gated_parser.dfy` hold the entry points:
  - `Parser` and its persistent occurrence cache;
  - `ParserBuilder`;
  - the top-level `build`.
- `plain_properties.dfy` and `gated_properties.dfy` state the line-dispatch
  rules.
- `plain_scenarios.dfy` and `header_scenarios.dfy` run the resolver on the
  fixtures of `src/tests.rs`:
  - mutual inclusion fails with a four-frame trace;
  - mutually including `#pragma once` headers collect to four newlines;
  - a `#pragma once` header included twice appears once.

  They also show one case the tests do not cover. When a root's
  `#pragma once` comes after an include cycle that leads back into the root,
  the root itself is discarded. `build` then panics, and `Parser::parse`
  reports NotFound for a file that exists.

Where the code's behaviour looks unintended, the model still follows the
code:

- A Known gate is open when the directive's sense differs from the flag
  (`src/parse/file_context.rs:66-67`). See Findings.
- An `#ifdef` on a flag that was not given is emitted verbatim even inside a
  closed block (`src/parse/file_context.rs:70-73`).
- An `#endif` that closes such a block is emitted verbatim too
  (`src/parse/file_context.rs:79`).
- An extra `#endif` is an InvalidData error that carries no (file, line)
  frame (`src/parse/file_context.rs:81-84`).

## Model

| member | source | states |
|---|---|---|
| Paths.Join | src/source/mem.rs:62 | `dir.join(path)` is the directory's components followed by the path's |
| Paths.Parent | src/parser.rs:136 | the parent drops exactly the last component |
| Paths.StripPrefix | src/old-hook/mem.rs:27 | succeeds exactly when the prefix is a prefix, and joining it back gives the path |
| Lines.TrimEnd | src/node.rs:29 | `trim_end` gives a prefix of the line that does not end in Unicode White_Space, and only White_Space characters were dropped |
| Gates.AllOpenPush | src/parse/gate.rs:30-36 | the conjunction over a pushed stack is the old conjunction and the new gate's openness |
| Gates.PushUnknownKeepsOpen | src/parse/gate.rs:7-36 | pushing Unknown never changes openness; pushing a closed Known gate always closes the stack |
| Gates.GateStack.constructor | src/parse/gate.rs:20-29 | a new stack is empty and open, and its flag is consistent |
| Gates.GateStack.ComputeState | src/parse/gate.rs:30-32 | recomputes the flag as the conjunction of all gates, the gates unchanged |
| Gates.GateStack.Push | src/parse/gate.rs:33-36 | the gate goes on top, the ones below stay, the flag becomes old flag AND gate open, and the invariant holds |
| Gates.GateStack.Pop | src/parse/gate.rs:37-45 | returns and removes the top gate (LIFO); on an empty stack returns None and changes nothing; the invariant holds |
| Gates.GateStack.IsOpen | src/parse/gate.rs:46-48 | the cached flag equals the conjunction of the gates |
| Gates.PushThenPop | src/parse/gate.rs:33-45 | pushing then popping returns that gate and restores the stack and its openness |
| Nodes.WithLineWellFormed | src/node.rs:27-31 | `add_line` adds exactly one line, starting at the old text length, appends the trimmed line and a newline, and keeps the buffer invariant |
| Nodes.WithChildWellFormed | src/node.rs:33-36 | `add_child` adds one empty line and records the child at the new line count, above every earlier position |
| Nodes.WellFormedIsSpliceable | src/node.rs:33-51 | every slice `collect` takes is in bounds, because a recorded line count never exceeds the text length |
| Nodes.CollectLeaf | src/node.rs:42-54 | without children `collect` returns the text unchanged |
| Nodes.CollectFromLength | src/node.rs:42-54 | the collected suffix from any splice point is the remaining text plus the children's collected lengths |
| Nodes.CollectLength | src/node.rs:42-54 | \|collect\| = \|text\| + sum of the children's \|collect\| |
| Nodes.SpliceByLineCountSplitsText | src/node.rs:33-51 | as written, a child recorded by line count is spliced inside the parent's text (Findings) |
| Nodes.CollectFromAtLineEnd | src/node.rs:33-54 | with splice positions taken after the placeholder, adding a child appends to every collected suffix |
| Nodes.CollectWithChildAtLineEnd | src/node.rs:33-54 | corrected splice: collecting after adding a child is the old collection, a newline, then the child's collection |
| Nodes.Node.constructor | src/node.rs:14-25 | a new node has the name and no text, lines or children |
| Nodes.Node.AddLine | src/node.rs:27-31 | the node becomes its old value with the line added; one more line; invariant kept |
| Nodes.Node.AddChild | src/node.rs:33-36 | the node becomes its old value with the child added; one more line; invariant kept |
| Nodes.Node.Collect | src/node.rs:42-54 | returns the collected text of the node |
| Nodes.CollectTree | src/node.rs:42-54 | the accumulator loop returns exactly the interleaving of text slices and collected children |
| Resolution.BumpedCounts | src/parse/context.rs:36-48 | a read adds its path to the cache: a new path gets 1, a known one is incremented, others unchanged |
| Resolution.BumpedGrows | src/parse/context.rs:36-48 | counting a read keeps the stack, and the cache only gains |
| Resolution.PushKeepsAtMostTwice | src/parse/context.rs:55-63 | pushing a path that is on the stack fewer than twice keeps every path at most twice |
| Resolution.PushShrinksBudget | src/parse/context.rs:55-63 | each accepted push lowers the recursion budget, so resolution terminates |
| Resolution.GrowsTrans | src/parse/context.rs:54-72 | growth of the state composes over nested calls |
| PlainEngine.BuildTreeSpec | src/parser.rs:191-209 | resolution keeps every path at most twice on the stack; on success the stack is restored and the tree is well formed |
| PlainEngine.RecursionFound | src/parser.rs:191-203 | a path already twice on the stack gives InvalidData; its count was bumped, the stack unchanged, the file not scanned |
| PlainEngine.PragmaOnceDiscardsRepeat | src/parser.rs:163-168 | a file starting with `#pragma once` that was already read is discarded (`Ok(None)`), with only its count bumped |
| PlainEngine.ParseSpec | src/parser.rs:174-189 | a completed scan holds one line per input line |
| PlainEngine.ParseLineSpec | src/parser.rs:128-172 | one line keeps the stack unless it fails, and a spliced child is well formed |
| PlainEngine.Context.constructor | src/parser.rs:106-112 | a context uses the parser's cache and an empty stack |
| PlainEngine.Context.ReadFile | src/parser.rs:114-126 | the provider's answer; a success bumps exactly that count; a failure changes nothing |
| PlainEngine.Context.BuildTree | src/parser.rs:191-209 | computes exactly BuildTreeSpec's result and state; on success the stack is as before |
| PlainEngine.Context.ParseFile | src/parser.rs:174-189 | the line loop computes exactly ParseSpec's result and state |
| PlainEngine.Context.ParseLine | src/parser.rs:128-172 | computes exactly ParseLineSpec's outcome and state |
| PlainProperties.OtherLinesKept | src/parser.rs:163-171 | every line that is not an include or `#pragma once` is kept literally and changes nothing |
| PlainProperties.PragmaOnceLine | src/parser.rs:163-168 | `#pragma once` breaks iff the count exceeds 1, else gives an empty line; state unchanged |
| PlainProperties.BadBracketsFail | src/parser.rs:133-142 | brackets other than `<…>` and `"…"` fail with InvalidData at this file and line, nothing read |
| PlainProperties.IncludeResolved | src/parser.rs:129-162 | `<p>` uses no directory, `"p"` the including file's parent; found gives a splice, discarded an empty line, an error keeps its kind and gains this (file, line) |
| PlainParser.ParseRoot | src/parser.rs:91-102 | resolves the root with no directory on an empty stack: a resolved root is returned, a discarded root is NotFound, errors pass through, counts only grow |
| PlainParser.Parser.constructor | src/parser.rs:77-82 | a new parser has an empty occurrence cache |
| PlainParser.Parser.Parse | src/parser.rs:91-102 | result and the parser's new cache are ParseRoot's, so counts carry over between calls |
| PlainParser.ParserBuilder.constructor | src/parser.rs:57-63 | no sources |
| PlainParser.ParserBuilder.AddSource | src/parser.rs:66-69 | appends in call order |
| PlainParser.ParserBuilder.Build | src/parser.rs:71-73 | a parser with an empty cache over the chain of sources in registration order |
| PlainParser.BuildOutcome | src/builder.rs:147-151 | a built root is well formed |
| PlainParser.Build | src/builder.rs:147-151 | a fresh resolver, the current directory as hint; a discarded root panics |
| PlainParser.BuildIsFirstParse | src/builder.rs:147-151 | without a current directory, `build` is the first `parse` of a new parser, except that a discarded root panics instead of NotFound |
| PlainScenarios.IncludeOnlyFilePropagates | src/builder.rs:100-113 | an include error propagates with its kind, gaining the including file's frame at line 0 |
| PlainScenarios.MutualInclusionFails | src/tests.rs:61-77 | two files including each other without `#pragma once` fail with InvalidData and a four-frame trace |
| PlainScenarios.OnceThenIncludeFile | src/builder.rs:88-141 | a first-read file of `#pragma once` and one include gives an empty line then the included tree or an empty line |
| PlainScenarios.GuardedTreeCollected | src/tests.rs:79-98 | the tree of two mutually including headers collects to four newlines |
| PlainScenarios.MutualPragmaOnce | src/tests.rs:79-98 | two mutually including `#pragma once` headers build and collect to `"\n\n\n\n"` |
| PlainScenarios.IncludeThenOnceDiscarded | src/builder.rs:115-120 | a late `#pragma once` discards a file that its own include chain read again |
| PlainScenarios.LatePragmaDiscardsRoot | src/builder.rs:147-151 | a root discarded that way makes `build` panic and `parse` report NotFound |
| HeaderScenarios.LiteralLinesKept | src/builder.rs:121-141 | a run of literal lines is copied one by one and changes no state |
| HeaderScenarios.WithLinesText | src/node.rs:27-31 | adding trimmed lines appends exactly their text and newlines, children unchanged |
| HeaderScenarios.CollectOneLeafAtOne | src/node.rs:42-54 | one leaf child at position 1 is collected after the first character |
| HeaderScenarios.SingleHeaderOnce | src/tests.rs:24-59 | a `#pragma once` header included twice appears once, its second include becoming one empty line |
| SourceContainer.Decisive | src/source/container.rs:8-23 | the first source whose answer is not NotFound; every source before it said NotFound |
| SourceContainer.ChainReadIsDecisive | src/source/container.rs:6-32 | the chain answers what its first non-NotFound source answers, or NotFound when there is none |
| SourceContainer.ChainReadOrigin | src/source/container.rs:8-31 | a success or other error comes unchanged from a source preceded only by NotFound; NotFound means all said NotFound |
| SourceContainer.ReadVec | src/source/container.rs:7-32 | the loop with its result slot returns exactly the chain's answer |
| SourceContainer.Chain | src/parse/parser.rs:45-47 | the list as one provider reads as the chain, and is closed when its members are |
| SourceContainer.ChainClosed | src/source/container.rs:6-32 | the chain returns only canonical paths of its members |
| SourceContainer.Delegate | src/source/container.rs:42-61 | a reference, box or Rc reads exactly as the wrapped source |
| MemSources.Lookup | src/source/mem.rs:59-76 | joined name first, then the name itself; returns that name with its stored lines; a miss is NotFound and no other error |
| MemSources.ReadFile | src/source/mem.rs:41-43 | the stored lines exactly when the name is stored |
| MemSources.FilesProvider | src/source/mem.rs:59-76 | the map read as a provider returns only stored names |
| MemSources.Added | src/source/mem.rs:31-39 | a taken name is AlreadyExists; a new one is added with nothing else changed |
| MemSources.AddedKeepsReads | src/source/mem.rs:31-43 | a stored file reads back unchanged after any later add |
| MemSources.Mem.constructor | src/source/mem.rs:12-23 | no files |
| MemSources.Mem.AddFile | src/source/mem.rs:31-39 | AlreadyExists with nothing changed for a taken name, else inserted and Ok |
| MemSources.Mem.Read | src/source/mem.rs:59-76 | returns a stored name with its stored lines, or NotFound |
| MemSources.Mem.AsProvider | src/source/mem.rs:59-76 | the source as a closed provider reading as `Read` |
| MemSources.MemBuilder.constructor | src/source/mem.rs:25-29 | a builder over an empty source |
| MemSources.MemBuilder.AddFile | src/source/mem.rs:50-53 | fails exactly when the source's `add_file` fails, with the same effect |
| MemSources.MemBuilder.Build | src/source/mem.rs:54-56 | hands back the source |
| Hooks.ListHook.constructor | src/hook/list.rs:13-22 | no hooks |
| Hooks.ListHook.AddHook | src/hook/list.rs:26-28 | appends in call order |
| Hooks.ListHook.Read | src/hook/list.rs:45-72 | the loop returns exactly the chain's answer over the hooks in order |
| Hooks.ListHook.AsProvider | src/hook/list.rs:45-72 | the list as a provider reads as the chain |
| Hooks.ListHookBuilder.constructor | src/hook/list.rs:23-25 | a builder over an empty list |
| Hooks.ListHookBuilder.AddHook | src/hook/list.rs:36-39 | appends to the list |
| Hooks.ListHookBuilder.Build | src/hook/list.rs:40-42 | hands back the list |
| Hooks.ListOrderMatters | src/hook/list.rs:46-70 | a NotFound hook is skipped before or after a hook that finds the file |
| Hooks.MemHook.constructor | src/hook/mem.rs:12-23 | no files |
| Hooks.MemHook.AddFile | src/hook/mem.rs:29-37 | AlreadyExists with nothing changed for a taken name, else inserted and Ok |
| Hooks.MemHook.Read | src/hook/mem.rs:57-75 | returns a stored name with its stored lines, or NotFound |
| Hooks.MemHook.AsProvider | src/hook/mem.rs:57-75 | the hook as a closed provider reading as `Read` |
| Hooks.MemHookBuilder.constructor | src/hook/mem.rs:25-27 | a builder over an empty hook |
| Hooks.MemHookBuilder.AddFile | src/hook/mem.rs:49-51 | fails exactly when the hook's `add_file` fails, with the same effect |
| Hooks.MemHookBuilder.Build | src/hook/mem.rs:52-54 | hands back the hook |
| Caches.NewEntry | src/cache.rs:13-17 | a new entry holds the text with count 1 |
| Caches.Cache.constructor | src/cache.rs:24-26 | an empty cache |
| Caches.Cache.Put | src/cache.rs:27-38 | a new path gets an entry with count 1 and Ok; a taken path is AlreadyExists with the table unchanged |
| Caches.Cache.Get | src/cache.rs:39-41 | the stored entry exactly when the path is stored |
| Caches.Cache.GetMut | src/cache.rs:42-44 | a write through the handle changes only that path's entry; a missing path changes nothing |
| Caches.PutThenGet | src/cache.rs:27-41 | after a put, get sees the text with count 1, and a second put of the path fails |
| OldHooks.MemHook.constructor | src/old-hook/mem.rs:13-18 | stores the prefix, no files |
| OldHooks.MemHook.AddFile | src/old-hook/mem.rs:20-22 | inserts, overwriting an earlier file of the same name |
| OldHooks.MemHook.Get | src/old-hook/mem.rs:26-33 | always Ok; a file exactly when the path starts with the prefix and the stripped name is stored, returned with its data |
| OldHooks.GetIgnoresDir | src/old-hook/mem.rs:26-33 | the answer does not depend on the directory |
| GatedEngine.GateFor | src/parse/file_context.rs:62-69 | as written, the Known gate is open exactly when the directive's negation equals the flag (Findings) |
| GatedEngine.CorrectedGate | src/parse/file_context.rs:62-69 | the intended gate: `#ifdef` open on a set flag, `#ifndef` on an unset one |
| GatedEngine.GateForIsInverted | src/parse/file_context.rs:66-67 | the gate as written and the intended one differ in openness on every input |
| GatedEngine.BuildTreeSpec | src/parse/context.rs:54-72 | resolution keeps every path at most twice on the stack; on success the stack is restored and the tree is well formed |
| GatedEngine.BuildTreeCases | src/parse/context.rs:54-72 | read failure returns the provider's error with state unchanged; a path twice on the stack is InvalidData after its count is bumped; otherwise the file is scanned one level deeper and the stack popped on success |
| GatedEngine.ParseSpec | src/parse/file_context.rs:44-58 | a completed scan holds one line per input line; gates left open at the end are not an error |
| GatedEngine.ParseStep | src/parse/file_context.rs:44-58 | text and children continue the scan; a break returns `Ok(None)` and an error returns it |
| GatedEngine.ParseLineSpec | src/parse/file_context.rs:60-133 | one line keeps the stack unless it fails, and a spliced child is well formed |
| GatedEngine.Context.constructor | src/parse/context.rs:20-27 | the given flags and cache, an empty file stack |
| GatedEngine.Context.Flags | src/parse/context.rs:29-31 | returns the flags the context was made with |
| GatedEngine.Context.IsFileOccured | src/parse/context.rs:32-34 | holds exactly when the path's count exceeds 1, for a cached path |
| GatedEngine.Context.ReadFile | src/parse/context.rs:36-48 | the provider's answer; a success bumps exactly that count; a failure changes nothing |
| GatedEngine.Context.BuildTree | src/parse/context.rs:54-72 | computes exactly BuildTreeSpec's result and state; on success the stack is as before |
| GatedEngine.Context.ParseFile | src/parse/context.rs:50-52 | a file context over a new node and gate stack computes exactly ParseSpec's result and state |
| GatedEngine.FileContext.constructor | src/parse/file_context.rs:36-42 | a new empty node and an empty gate stack |
| GatedEngine.FileContext.Parse | src/parse/file_context.rs:44-58 | the line loop computes exactly ParseSpec's result and state |
| GatedEngine.FileContext.Step | src/parse/file_context.rs:46-55 | one iteration either continues with the node and gates ParseSpec continues with, or stops with ParseSpec's result |
| GatedEngine.FileContext.ParseLine | src/parse/file_context.rs:60-133 | computes exactly ParseLineSpec's outcome, state and gates |
| GatedProperties.ClosedGateBlanksLine | src/parse/file_context.rs:92-132 | under a closed gate an include or plain line gives an empty line, reads nothing, changes nothing |
| GatedProperties.OpenGateKeepsLine | src/parse/file_context.rs:127-129 | under open gates a plain line is kept verbatim |
| GatedProperties.PragmaOnceIgnoresGates | src/parse/file_context.rs:86-91 | `#pragma once` breaks iff the count exceeds 1, else an empty line, whatever the gates |
| GatedProperties.UnknownIfdefKeptVerbatim | src/parse/file_context.rs:70-73 | a directive on an unknown flag pushes Unknown and is kept verbatim, whatever the gates; openness unchanged |
| GatedProperties.KnownIfdefBlank | src/parse/file_context.rs:62-69 | a directive on a known flag pushes one Known gate above the others and gives an empty line |
| GatedProperties.EndIfPops | src/parse/file_context.rs:75-85 | `#endif` pops the top gate: empty line for Known, verbatim for Unknown; on an empty stack InvalidData with no frame |
| GatedProperties.IfdefEndifRestoresGates | src/parse/file_context.rs:62-85 | an opening directive then `#endif` leaves the gate stack as it was |
| GatedProperties.LeadingEndIfFails | src/parse/file_context.rs:44-58 | a file starting with an unmatched `#endif` fails with InvalidData and the state it got |
| GatedProperties.IfdefOfSetFlagBlanksBody | src/parse/file_context.rs:62-69 | as written, `#ifdef FLAG` with FLAG true blanks its body (Findings) |
| GatedProperties.CorrectedIfdefKeepsBody | src/parse/file_context.rs:62-85 | with the intended gate for `#ifdef FLAG` and FLAG set, the body line is kept and `#endif` pops back to no gates (Findings) |
| GatedProperties.UnshapedIncludeKept | src/parse/file_context.rs:15 | a line whose brackets this include pattern does not accept is kept as literal text |
| GatedProperties.IncludeResolved | src/parse/file_context.rs:93-126 | mismatched accepted brackets are InvalidData at this (file, line); `<p>` uses no directory, `"p"` the parent; found gives a splice, discarded an empty line, an error keeps its kind and gains this (file, line); gates unchanged |
| GatedParser.ParseRoot | src/parse/parser.rs:66-77 | resolves the root with no directory on an empty stack: Some is returned, a discarded root is NotFound, errors pass through, counts only grow |
| GatedParser.Parser.constructor | src/parse/parser.rs:51-57 | a new parser has an empty file cache |
| GatedParser.Parser.Parse | src/parse/parser.rs:66-77 | result and the parser's new cache are ParseRoot's, so counts carry over between calls |
| GatedParser.ParserBuilder.constructor | src/parse/parser.rs:28-32 | no sources, no flags |
| GatedParser.ParserBuilder.AddSource | src/parse/parser.rs:35-38 | appends in call order, flags unchanged |
| GatedParser.ParserBuilder.AddFlag | src/parse/parser.rs:40-43 | records name to value, replacing an earlier value, sources unchanged |
| GatedParser.ParserBuilder.Build | src/parse/parser.rs:45-47 | a parser with an empty cache, the flags, and the chain of sources in registration order |
| GatedParser.AddFlagOverwrites | src/parse/parser.rs:40-43 | the later value of a flag wins and other flags are untouched |
| GatedParser.FirstParseOfOnceRoot | src/parse/parser.rs:66-77 | the first parse of a `#pragma once` root gives one empty line and count 1 |
| GatedParser.SecondParseOfOnceRoot | src/parse/parser.rs:66-77 | with count 1 carried over, the second parse of that root is NotFound |
| GatedParser.ParseTwice | src/parse/parser.rs:66-77 | on one parser, parsing that root twice gives the tree then NotFound |

## Left out

- The filesystem providers (`src/source/fs.rs`, `src/hook/fs.rs`) are not part of this model. They are I/O; every provider here is an abstract read function.
- The directive regular expressions are not modelled. A line reaches the resolvers through an abstract classifier into `#ifdef`/`#ifndef`, `#endif`, `#pragma once`, `#include` (bracket characters and path) or plain text. `str::lines` is not modelled: files arrive already split into lines.
- Error messages are left out. An error is its kind plus the (file, line) frames the including files add.
- `RefCell` borrowing is not modelled. The parser's cache is a plain field.
- The flattening index and `Index::search` are not part of this model. The tests call them (`src/tests.rs:128-225`), but they belong to a `Node` version that is not among these files.
- The `multiple_headers` and full `line_numbers` fixtures of `src/tests.rs` are not worked through. Only the first splice of `line_numbers` is used.
- The trait-only files (`src/source/mod.rs`, `src/hook/mod.rs`, `src/hook.rs`) are not modelled separately: `Provider` stands for them. `src/collector.rs` is incomplete, `src/lib.rs` is wiring and the examples only print, so none of them is modelled.
- `env::current_dir` is not modelled. The top-level `build` takes the current directory as a parameter.
- Nodes.Collected, Nodes.WellFormedIsSpliceable, Nodes.Node.Collect, Nodes.CollectTree: text lengths and splice positions count characters, where the source counts UTF-8 bytes. The two agree only on ASCII text. On non-ASCII text before a child, the source splices at another place, or panics when the position falls inside a character; neither is modelled.
- Paths.Parent: the source panics on `unwrap` for a path with no parent; here the empty path is its own parent.
- PlainEngine.BuildTreeSpec, GatedEngine.BuildTreeSpec: these are defined only for a provider whose canonical paths lie in a finite universe (`Closed`). The source has no such bound; the model needs it to show that resolution ends.
- The builders (`MemBuilder`, `ListHookBuilder`, `MemHookBuilder`) are consumed on error in the source. Here they stay and report the error.
- Caches.Cache.GetMut: the mutable handle is modelled as an update function applied to the entry.
- Occurrence counts are unbounded integers, not `usize`. `Mem` stores lines rather than one text.
- `#else` and `#if` are not handled by the source and are not modelled.
- The gated engine keeps the as-written gate sense and the as-written splice positions: the resolvers use `GatedEngine.GateFor` and `Nodes.Tree.WithChild`. The corrected definitions stand beside them.

## Findings

| source | as written | input that shows it | evidently intended | confidence | as-written member | corrected member |
|---|---|---|---|---|---|---|
| src/node.rs:35 | `add_child` records the line count, and `collect` uses it as a byte offset into the text | a node with lines `0`, `1`, `2` gets a child whose text is `4\n`: collect gives `0\n1\n4\n2\n\n` | the child's text follows its placeholder line: `0\n1\n2\n\n4\n` | high, not executed | Nodes.SpliceByLineCountSplitsText | Nodes.CollectWithChildAtLineEnd |
| src/parse/file_context.rs:66-67 | a Known gate is open when `is_ifdef != flag`, so `#ifdef FLAG` with FLAG true closes its block | flags `{FLAG: true}`, lines `#ifdef FLAG`, `body`, `#endif`: three empty lines | `#ifdef` keeps its block when the flag is true, `#ifndef` when it is false | medium, not executed | GatedProperties.IfdefOfSetFlagBlanksBody | GatedEngine.CorrectedGate |
