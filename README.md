# Svelte root conversion and visitor keys, in Dafny

This project models the root converter of svelte-eslint-parser and the visitor-key registry that must agree with it.

`convertSvelteRoot` takes the Svelte compiler's root node and builds one ESTree-style `Program`. Its body holds the converted markup children first. The `<svelte:options>` node is spliced into those children by source position. Then come the instance `<script>` element, the module `<script>` element and the `<style>` element, each present only when its region is. The converter appends the synthesized `HTMLIdentifier` and `HTMLText` tokens to the context's token stream. It also schedules the scope restore. That restore re-keys every scope of the original script Program to the new Program, then puts the global scope back on the original node.

`svelteKeys` maps each Svelte node type to the ordered list of fields a generic traversal visits.

Modules:

- `VisitorKeys` (visitor_keys.dfy): the `NodeType` tags and the `SvelteKeys()` table, with lemmas about its shape.
- `Ast` (ast.dfy): source ranges, tokens, and the foreign root as the compatibility getters present it. It also holds the node datatypes the converter builds and the bundle of external collaborators. Those collaborators are `convertChildren`, `findBlock`, `convertAttributes` and the tag extractor, all passed in as total functions.
- `ConvertContext` (context.dfy): the `Context` class with the source text and the token stream that `AddToken` appends to.
- `Root` (root.dfy): the converter. Spec functions give the Program body and the emitted tokens as functions of the input. Methods build them step by step as the source does, with placeholders that are filled in later, and are proved to produce exactly those values. Lemmas state the properties of the result.
- `Scopes` (scopes.dfy): the `Scope` and `ScopeManager` classes and the restore callback's loop. Post-processing is an explicit list of steps that run in the order they were scheduled.

## Model

| member | source | states |
|---|---|---|
| `VisitorKeys.SvelteKeys` | src/visitor-keys.ts:12-53 | The registry has an entry for every node type. |
| `VisitorKeys.LeafTypesHaveNoKeys` | src/visitor-keys.ts:18-51 | An entry is empty exactly for SvelteEndTag, SvelteName, SvelteLiteral, SvelteSpecialDirectiveKey, SvelteText and SvelteHTMLComment. |
| `VisitorKeys.NoRepeatedKeys` | src/visitor-keys.ts:12-53 | No entry lists a field twice. |
| `VisitorKeys.ProgramVisitsOnlyBody` | src/visitor-keys.ts:13 | Program visits `body` only. |
| `VisitorKeys.TagElementKeyOrder` | src/visitor-keys.ts:14-16 | Script elements visit `name, startTag, body, endTag`. Style elements use the same order with `children` for `body`. Markup elements use the style layout. |
| `VisitorKeys.StartTagAndIfBlockKeys` | src/visitor-keys.ts:17-26 | SvelteStartTag visits only `attributes`. SvelteIfBlock visits `expression, children, else`. |
| `VisitorKeys.EachAndAwaitBlockKeys` | src/visitor-keys.ts:28-36 | SvelteEachBlock visits `expression, context, index, key, children, else`. SvelteAwaitBlock visits `expression, pending, then, catch`. |
| `Root.JsSliceInBounds` | src/parser/converts/root.ts:146 | Within the text, `code.slice(s, e)` is exactly `code[s..e]`, untrimmed, of length `e - s`. |
| `Root.SpliceIndex` | src/parser/converts/root.ts:45-55 | The options position is the first child with `options.end <= child.start` (a tie inserts before). Every earlier child starts before the options end. With no such child the position is the end of the list. |
| `Root.SplicedContents` | src/parser/converts/root.ts:41-56 | The splice yields exactly one extra element, the options node, at the splice position. Removing it leaves the original children in their original order, and the multiset grows by the options node. |
| `Root.SplicedKeepsSourceOrder` | src/parser/converts/root.ts:44-55 | If the children are in source order and the options node overlaps none of them, the spliced list is still in source order. |
| `Root.SpliceOptions` | src/parser/converts/root.ts:41-56 | The copy-scan-insert loop (append when the scan finds nothing) yields exactly the specified splice. |
| `Root.ConvertMarkup` | src/parser/converts/root.ts:39-58 | The markup portion is the child converter applied to the fragment children. The options node is spliced in only when present; otherwise the children are unchanged. |
| `Root.ExtractAttributes` | src/parser/converts/root.ts:184-208 | The start tag begins at the element's start, is not self-closing and has no end yet. Its attributes are empty when `findBlock` finds nothing, and otherwise are exactly the converted attributes of the block. Nothing else in the element changes. |
| `Root.BuildNameNode` | src/parser/converts/root.ts:72-81 | The name builder emits one HTMLIdentifier token for the open-tag range and returns the given literal over that range. |
| `Root.ExtractElementTags` | src/parser/converts/root.ts:71-82 | The tag step sets the name through the name builder, completes the start tag's end and sets the end tag. It emits exactly the name token. |
| `Root.ConvertScriptElement` | src/parser/converts/root.ts:60-84 | A script region becomes the specified script element, emitting one HTMLIdentifier token. |
| `Root.AddStyleText` | src/parser/converts/root.ts:137-151 | When there is an end tag and the start tag ends before it starts, one text child with the exact source slice and one HTMLText token over the gap are added. Otherwise neither the element nor the tokens change. |
| `Root.ConvertStyleElement` | src/parser/converts/root.ts:112-154 | The style region becomes the specified style element. Its name token comes first, then the text token when there is one. |
| `Root.ConvertSvelteRoot` | src/parser/converts/root.ts:25-181 | The Program's range is `[0, \|code\|]` whatever regions are present. The body is markup, then instance script, then module script, then style, each part optional. The tokens appended are exactly the synthesized ones, in that order. |
| `Root.ScriptsInOrder` | src/parser/converts/root.ts:57-111 | The body's script elements are the instance element followed by the module element, each present iff its region is. There are at most two. |
| `Root.StylePresentIff` | src/parser/converts/root.ts:112-154 | The body holds a style element iff the root has a style region, and it is then the last entry. |
| `Root.BuiltEntriesAreRegions` | src/parser/converts/root.ts:57-153 | Every non-markup entry of the body is the element built for the instance, module or style region. |
| `Root.ScriptElementShape` | src/parser/converts/root.ts:61-82 | Every script element has the name literal "script" over the open-tag range and an empty body. Its start tag begins at the element's start, is not self-closing and carries the block's attributes. Its end tag is the one the extractor found. |
| `Root.StyleTextRule` | src/parser/converts/root.ts:113-151 | The style element is named "style". It has at most one text child, and has one iff the end tag exists and the start tag ends before it starts. That child covers exactly the gap and, within the text, holds exactly that slice of the source. |
| `Root.TokensCoverSynthesizedNodes` | src/parser/converts/root.ts:73-142 | Every synthesized name has an HTMLIdentifier token over its range, and the style text child has an HTMLText token over its range. |
| `Root.DeclaredFieldsMatchRegistry` | src/visitor-keys.ts:13-50 | For each node type the converter builds, the registry entry equals the child-bearing fields of the model's datatype, in order. |
| `Root.BuiltTypesAreRegistered` | src/visitor-keys.ts:13-50 | Every node type in a converted Program (Program, script and style elements, names, start and end tags, style text) has a registry entry that matches its declared child fields. |
| `Scopes.RestoreHooks.RegisterNodeToScope` | src/parser/converts/root.ts:167 | Registration records the (node, scope) pair and schedules the re-keying of that scope after every step already scheduled. |
| `Scopes.RestoreHooks.AddPostProcess` | src/parser/converts/root.ts:171-176 | A post-process step is scheduled after every step already scheduled. |
| `Scopes.MatchingExactly` | src/parser/converts/root.ts:165-170 | A scope is selected by the restore loop iff it is one of the manager's scopes and its block is the original Program. |
| `Scopes.RestoreProgramScope` | src/parser/converts/root.ts:157-178 | The callback registers exactly the matching scopes to the Svelte Program, in scope order, and then schedules the global-scope revert after them. |
| `Scopes.RunPostProcesses` | src/parser/converts/root.ts:171-176 | Running the steps in order leaves each touched scope with the block of the last step that wrote it. |
| `Scopes.RestoredBlocks` | src/parser/converts/root.ts:164-176 | After the scheduled steps, the global scope is on the original Program. Any other scope that was on it is on the Svelte Program. All other scopes keep their block. |
| `Scopes.ScheduleOutcome` | src/parser/converts/root.ts:164-176 | On the scopes as they are before anything runs: a scope is registered iff its block is the original Program, and every registered scope is one of the manager's. The scheduled steps write only the manager's scopes and the global scope, and each scope's final block is the one `RestoredBlocks` gives. |
| `Scopes.RestoreThenPostProcess` | src/parser/converts/root.ts:156-178 | Callback then post-processing: a scope is registered to the Svelte Program iff its block was the original Program. The global scope ends on the original Program. Every other matching scope ends on the Svelte Program, and the rest are unchanged. |
| `ConvertContext.Context.AddToken` | src/parser/converts/root.ts:73 | Adding a token appends exactly that token to the stream. |

## Left out

- The collaborators `convertChildren`, `convertAttributes`, `findBlock`, `extractElementTags` and the compat getters (src/parser/converts/element, attr, compat and src/context) are not part of this model. They are parameters, given as total functions of what they receive. Any tokens they add themselves are not modelled.
- `Root.ExtractElementTags`: the real tag extractor works out the open-tag range, the start-tag end and the end tag from the source text. Here the model takes those as the collaborator's answer. It assumes the extractor calls the name builder exactly once and then completes the start tag and end tag.
- `ctx.getConvertLocation`: line/column locations (`loc`) are not modelled; nodes carry only their range. Source offsets are characters of a `seq<char>`, while JavaScript uses UTF-16 code units.
- `parent` pointers, `comments`, `sourceType` and object identity of the built nodes are not modelled. Elements are values whose `name`/`startTag` placeholders (`null` in the source) are `None` until filled. `Program.tokens` shares its array with `ctx.tokens` in the source; here the stream lives only in the `Context`.
- The splice copies the children before inserting. Here sequences are values, so the fragment's own list cannot be changed in the model at all, and the aliasing the copy guards against is not represented.
- The script element's initial `endTag: null` is overwritten by the tag extractor. The model states the finished element, whose end tag is whatever the extractor found.
- `registerNodeToScope`, `addProgramRestore` and `addPostProcess` belong to the script-let pipeline, which is not part of this model. The callback timing is an explicit order: the restore callback runs, then the scheduled post-processes run in order. Registration is modelled as recording the pair and scheduling a step that sets the scope's block to the new node.
- `Scopes.RestoreThenPostProcess`: requires that no post-process is pending, because it models the one Program-restore pass and not steps other callbacks may have scheduled.
- eslint-scope's `ScopeManager` is reduced to its list of scopes and its global scope, and each scope to its `block`.
- `unionWith` from eslint-visitor-keys (src/visitor-keys.ts:55-57) is a foreign merge with ESLint's base keys and is not modelled. Neither are the compile-time types `SvelteKeysType`/`KeyofObject` (src/visitor-keys.ts:5-10).
- Parsing the Svelte source and the Svelte compiler's AST types are not modelled; the foreign root is given input.
