# Rythm engine core — a Dafny model

This project models the parts of the Rythm template engine that keep state in maps, sets and strings, and proves properties of them:

- **Tag registry and name resolution** (`RythmEngine`):
  - `_tags`, and the two negative caches `_nonTags` (written only in prod mode) and `_nonExistsTags` (written when a missing tag is ignored).
  - `registerTag`, `hasTag`/`getTag`, `testTag` and `invokeTag`, including how a call's parameters and body are bound.
  - `restart()`, which drops template tags and keeps Java tags, and `shutdown()`.
- **Template inheritance** (`RythmEngine`): `extendMap` and the recursive `invalidate`.
- **Small engine helpers** (`RythmEngine`):
  - the composite cache key of `cache`/`cached`;
  - the `rythm.` prefix stripping of `_processConf`;
  - `version()`;
  - `setRenderArgs`;
  - `renderIfTemplateExists` with its `nonExistsTemplates` cache, and one sweep of the checker that clears that cache.
- **Configuration lookup** (`RythmConfiguration`):
  - the `data` cache in front of the raw map, with its `RawData.NULL` sentinel;
  - lookup by string key;
  - the memoised derived flags `cacheEnabled`, `disableFileWrite` and `loadPrecompiled`;
  - the restricted-class list, the template home and the resource-bundle encoding.
- **The `@__exitIfNoClass__` directive parser**: normalising the captured argument, and deciding between an empty token and the exit signal.

Layout, one module per file:

| file | module | contents |
|---|---|---|
| `wrappers.dfy` | `Wrappers` | `Option`, `Result` |
| `strings.dfy` | `Strings` | the Java string operations the core uses: the prefix test, `lastIndexOf`, `trim`, `split` |
| `tags.dfy` | `Tags` | tags, template classes, the resolution and binding rules as functions, and lemmas about them |
| `extend_graph.dfy` | `ExtendGraph` | the extend graph, reachability over it, and the post-order of resets |
| `engine_util.dfy` | `EngineUtil` | cache key, version, `_processConf`, `setRenderArgs` |
| `engine.dfy` | `Engine` | class `RythmEngine`, whose fields are the engine's maps and sets |
| `configuration.dfy` | `Configuration` | class `RythmConfiguration` |
| `exit_if_no_class.dfy` | `ExitIfNoClass` | the normalisation function and class `DirectiveParser` |

State that the source updates in place is a class whose methods change their fields:
- the engine's registries and caches;
- the configuration's cache and memo fields;
- the parser cursor.

Each such method is proved against a function of the old state. The rules are functions, and the properties the source promises are lemmas about those functions.

Some inputs come from code that is not part of this model. They enter as parameters or abstract functions:
- the template resource loader (`tryLoadTag`);
- the validity of a template resource;
- the configuration key enumeration (`RythmConfigurationKey`);
- `gae()`;
- the engine mode;
- the regex match;
- the class loader.

Behaviours the proofs make explicit:

- `invalidate` has no guard against a cyclic `extendMap`. The model asks for a rank that every edge lowers. Under it, the reset log gains exactly the descendants of the parent, each after all of its own descendants, and never the parent itself.
- The cache key joins key and arguments with `-`. Without a `-` inside them the key can be split back into its parts. With one, two different calls address the same entry.
- A `null` configured restricted-class string is concatenated as `"null"`, so `null` becomes a restricted entry. The comma in the built-in list keeps `RythmSecurityManager,java.io` as one entry, so `java.io` alone is restricted only when configured.
- `setTemplateHome` does not clear the memoised `_templateHome`. A template home that was already computed keeps being returned (`Configuration.StaleTemplateHome`).
- `getList` on a key that `get` cached as the null sentinel, or as a non-list value, fails the cast.
- The `@__exitIfNoClass__` parse error carries the usage text of `@debug`.

## Model

| member | source | states |
|---|---|---|
| Strings.LastIndexOf | src/main/java/com/greenlaw110/rythm/RythmEngine.java:1179-1180 | `None` exactly when the character is absent; otherwise an index of it with no later occurrence |
| Strings.Trim | src/main/java/org/rythmengine/conf/RythmConfiguration.java:262 | `String.trim`: the result is the infix left after the leading and the trailing characters at most a space are cut; empty exactly when every character is at most a space; otherwise starts and ends above the space; unchanged when already so bordered |
| Strings.Split | src/main/java/org/rythmengine/conf/RythmConfiguration.java:261 | at least one piece, and no piece contains the separator |
| Strings.JoinSplit | src/main/java/org/rythmengine/conf/RythmConfiguration.java:261 | joining the pieces at the separator gives the string back |
| Strings.SplitAppend | src/main/java/org/rythmengine/conf/RythmConfiguration.java:259-261 | splitting `a;b` yields the pieces of `a` followed by those of `b` |
| Strings.SplitJoin | src/main/java/org/rythmengine/conf/RythmConfiguration.java:259-261 | splitting a join of separator-free parts gives the parts back |
| Tags.FirstImport | src/main/java/com/greenlaw110/rythm/RythmEngine.java:1171-1177 | the first import path whose `path.name` is registered: none exactly when no path qualifies; otherwise every earlier path fails |
| Tags.ImportedName | src/main/java/com/greenlaw110/rythm/RythmEngine.java:1171-1177 | none exactly when no `path.name` is registered; otherwise the registered `path.name` of the first import path that has one |
| Tags.ParentNamespace | src/main/java/com/greenlaw110/rythm/RythmEngine.java:1179-1181 | none exactly when the caller name has no dot; otherwise the prefix before the last dot |
| Tags.RelativeName | src/main/java/com/greenlaw110/rythm/RythmEngine.java:1178-1184 | some exactly when the caller name has a dot and `namespace.name` is registered, and then it is that name |
| Tags.AfterLoad | src/main/java/com/greenlaw110/rythm/RythmEngine.java:1186-1188 | a loaded tag is registered under its class's full name; every existing entry is kept; nothing else is added |
| Tags.TestTag | src/main/java/com/greenlaw110/rythm/RythmEngine.java:1164-1194 | `this` answers the caller; none exactly in the prod cache or when every step up to the loader fails; any other answer is registered in `_tags` after the lookup |
| Tags.NonTagsAfterTest | src/main/java/com/greenlaw110/rythm/RythmEngine.java:1186-1191 | `_nonTags` gains only the tested name, and gains it exactly in prod mode when the loader is reached and fails |
| Tags.NamespaceThenLoader | src/main/java/com/greenlaw110/rythm/RythmEngine.java:1178-1193 | once the exact and import steps fail, a registered `namespace.name` answers; only when it too fails does the loader decide |
| Tags.InvokeResolve | src/main/java/com/greenlaw110/rythm/RythmEngine.java:1271-1302 | none exactly when the loader is reached and fails; a registered name gives its tag; the caller's own name gives the caller; any other tag is an entry of `_tags` after the lookup |
| Tags.ExactNameWins | src/main/java/com/greenlaw110/rythm/RythmEngine.java:1164-1170 | outside `this` and the prod negative cache, a registered name answers itself |
| Tags.ImportBeatsNamespace | src/main/java/com/greenlaw110/rythm/RythmEngine.java:1169-1184 | when an import alias is registered, `testTag` answers the first registered alias in declared order, before the namespace and loader steps |
| Tags.NonTagIsSticky | src/main/java/com/greenlaw110/rythm/RythmEngine.java:1168-1191 | once `testTag` fails on a name in prod mode, later calls fail on it whatever the registry, caller or loader |
| Tags.DevModeKeepsNonTags | src/main/java/com/greenlaw110/rythm/RythmEngine.java:1186-1192 | in dev mode `_nonTags` is never written |
| Tags.TestAndInvokeAgree | src/main/java/com/greenlaw110/rythm/RythmEngine.java:1164-1194 | outside `this`, the prod cache and self-calls, `testTag` and `invokeTag` reach the loader in the same cases, and `invokeTag` calls a tag exactly when `testTag` names one registered after the lookup, and calls that one |
| Tags.LastNamed | src/main/java/com/greenlaw110/rythm/RythmEngine.java:1347-1350 | the last parameter with a given name; none exactly when no parameter has it |
| Tags.FirstNamed | src/main/java/com/greenlaw110/rythm/RythmEngine.java:1354-1358 | the first parameter with a given name, as `getByName` returns it |
| Tags.BindByName | src/main/java/com/greenlaw110/rythm/RythmEngine.java:1346-1350 | the bound names are exactly the parameter names, each holding the value of the last parameter with that name |
| Tags.BindByIndex | src/main/java/com/greenlaw110/rythm/RythmEngine.java:1346-1351 | exactly the unnamed parameters are bound, by their index in the list, to their values |
| Tags.SelectBody | src/main/java/com/greenlaw110/rythm/RythmEngine.java:1354-1359 | a passed body wins; otherwise `__body` is tried first and `_body` only when `__body` yields nothing; any body found comes from a parameter of that name |
| Tags.ByName | src/main/java/com/greenlaw110/rythm/RythmEngine.java:1355-1357 | the first parameter with the name decides: none or a null value give no body, a body value gives that body, any other value fails the `(ITag.__Body)` cast |
| Tags.Arguments | src/main/java/com/greenlaw110/rythm/RythmEngine.java:1343-1363 | a Java tag gets the parameter list and nothing by index or by name except the body; a template tag gets exactly the unnamed parameters by index and every named parameter by name with its last value; a body is bound under both `__body` and `_body` and overrides parameters of those names |
| ExtendGraph.AddEdge | src/main/java/com/greenlaw110/rythm/RythmEngine.java:1455-1461 | the parent's set gains the child (created if absent); every other entry is unchanged |
| ExtendGraph.ChildReaches | src/main/java/com/greenlaw110/rythm/RythmEngine.java:1472-1476 | a child and all of its descendants are descendants of the parent |
| ExtendGraph.ReachesRankBelow | src/main/java/com/greenlaw110/rythm/RythmEngine.java:1470-1478 | on a ranked graph every descendant ranks strictly below its ancestor |
| ExtendGraph.NotOwnDescendant | src/main/java/com/greenlaw110/rythm/RythmEngine.java:1470-1478 | no class is its own descendant, so `invalidate(p)` never resets `p` |
| ExtendGraph.ReachesTransitive | src/main/java/com/greenlaw110/rythm/RythmEngine.java:1472-1476 | a descendant of a descendant is a descendant |
| ExtendGraph.AddEdgeKeepsDescendants | src/main/java/com/greenlaw110/rythm/RythmEngine.java:1454-1462 | adding an edge keeps every existing descendant |
| ExtendGraph.AddEdgeMakesDescendant | src/main/java/com/greenlaw110/rythm/RythmEngine.java:1454-1462 | after the edge is added, the child and everything below it are descendants of the parent |
| ExtendGraph.WalkStep | src/main/java/com/greenlaw110/rythm/RythmEngine.java:1473-1476 | one loop turn (recurse into the child, then reset it) keeps the log within the descendants, covering the handled children, in post-order |
| ExtendGraph.WalkDone | src/main/java/com/greenlaw110/rythm/RythmEngine.java:1473-1477 | once every child is handled, the log holds exactly the descendants |
| ExtendGraph.ChainCascade | src/main/java/com/greenlaw110/rythm/RythmEngine.java:1470-1478 | for B extends A and C extends B, invalidating A reaches exactly B and C, and invalidating C reaches nothing |
| EngineUtil.CacheKey | src/main/java/com/greenlaw110/rythm/RythmEngine.java:1390-1396 | the composite key starts with the key and is the key itself when there are no arguments |
| EngineUtil.BuildCacheKey | src/main/java/com/greenlaw110/rythm/RythmEngine.java:1390-1396 | the `StringBuilder` loop builds exactly the composite key |
| EngineUtil.CacheKeyDecodes | src/main/java/com/greenlaw110/rythm/RythmEngine.java:1390-1396 | without dashes in key and arguments, splitting the composite key at `-` gives back the key followed by the arguments |
| EngineUtil.CacheKeyAmbiguous | src/main/java/com/greenlaw110/rythm/RythmEngine.java:1390-1396 | with a dash inside, two different calls share one key: `("a-b", "c")` and `("a", "b", "c")` |
| EngineUtil.Version | src/main/java/com/greenlaw110/rythm/RythmEngine.java:164-166 | the Rythm version, a dash, then the plugin version |
| EngineUtil.VersionSeparatesPlugins | src/main/java/com/greenlaw110/rythm/RythmEngine.java:164-166 | for one Rythm version, equal fingerprints mean equal plugin versions |
| EngineUtil.StripRythm | src/main/java/com/greenlaw110/rythm/RythmEngine.java:381 | a `rythm.` key loses exactly that prefix; any other key is unchanged |
| EngineUtil.ProcessConf | src/main/java/com/greenlaw110/rythm/RythmEngine.java:377-385 | the keys are exactly the stripped keys; each value comes from a key stripped to it; a key no other key collides with keeps its value |
| EngineUtil.SetRenderArgs | src/main/java/com/greenlaw110/rythm/RythmEngine.java:588-602 | binds by name exactly for a single map argument and as JSON exactly for a single JSON wrapper; otherwise by position with all arguments |
| Engine.JavaTagsOf | src/main/java/com/greenlaw110/rythm/RythmEngine.java:1601-1611 | exactly the Java-tag entries, with their values |
| Engine.JavaTagsOfIdempotent | src/main/java/com/greenlaw110/rythm/RythmEngine.java:1597-1612 | restarting twice keeps what restarting once kept |
| Engine.RestartFreesTemplateNames | src/main/java/com/greenlaw110/rythm/RythmEngine.java:1601-1611 | after a restart a template-tag name is no longer registered |
| Engine.BindParams | src/main/java/com/greenlaw110/rythm/RythmEngine.java:1346-1351 | the binding loop yields exactly `BindByName` and `BindByIndex` |
| Engine.RythmEngine.constructor | src/main/java/com/greenlaw110/rythm/RythmEngine.java:500-506 | the registry holds only the Java tag `chain`; every other registry and cache is empty |
| Engine.RythmEngine.HasTag | src/main/java/com/greenlaw110/rythm/RythmEngine.java:1125-1127 | true exactly for registered names |
| Engine.RythmEngine.GetTag | src/main/java/com/greenlaw110/rythm/RythmEngine.java:1137-1139 | the registered tag, or none |
| Engine.RythmEngine.RegisterTag | src/main/java/com/greenlaw110/rythm/RythmEngine.java:1228-1236 | a null tag is refused with an error; an existing name answers false with `_tags` unchanged; otherwise true with exactly that entry added; no entry is ever overwritten |
| Engine.RythmEngine.LookupImported | src/main/java/com/greenlaw110/rythm/RythmEngine.java:1171-1177 | the import-path loop answers exactly `ImportedName` |
| Engine.RythmEngine.TestTag | src/main/java/com/greenlaw110/rythm/RythmEngine.java:1164-1204 | answers `Tags.TestTag` on the old state; `_nonTags` gains the name only in prod mode when every step fails; `_tags` gains what the loader compiled, and only when the loader is reached |
| Engine.RythmEngine.ResolveTag | src/main/java/com/greenlaw110/rythm/RythmEngine.java:1271-1302 | the lookup steps of `invokeTag` answer exactly `InvokeResolve` on the old registry: exact name, the caller itself, import paths, namespace, then the entry the loader registered; `_tags` gains that entry |
| Engine.RythmEngine.InvokeTag | src/main/java/com/greenlaw110/rythm/RythmEngine.java:1269-1363 | a name in `_nonExistsTags` does nothing; an unresolved name is added and skipped when ignored, and is an error naming it otherwise; a resolved tag is called with `Arguments` and the selected body; `_tags` gains what the loader compiled |
| Engine.RythmEngine.Cache | src/main/java/com/greenlaw110/rythm/RythmEngine.java:1387-1399 | no-op when caching is disabled; otherwise stores the value (`""` for null) under the composite key |
| Engine.RythmEngine.Cached | src/main/java/com/greenlaw110/rythm/RythmEngine.java:1431-1442 | null when caching is disabled; otherwise the entry under the same composite key `cache` uses |
| Engine.RythmEngine.RenderIfTemplateExists | src/main/java/com/greenlaw110/rythm/RythmEngine.java:1056-1086 | a known-missing name renders `""` without change; a new valid name is registered and rendered; a new invalid name is remembered as missing and renders `""` |
| Engine.RythmEngine.SweepNonExists | src/main/java/com/greenlaw110/rythm/RythmEngine.java:1024-1040 | keeps exactly the templates still invalid and the tags the loader still cannot load; every tag it loads is registered, no entry is overwritten, and nothing else is added |
| Engine.RythmEngine.AddExtendRelationship | src/main/java/com/greenlaw110/rythm/RythmEngine.java:1454-1462 | unchanged in prod mode; otherwise `AddEdge` |
| Engine.RythmEngine.Invalidate | src/main/java/com/greenlaw110/rythm/RythmEngine.java:1470-1478 | nothing in prod mode; otherwise the reset log gains exactly the descendants of the parent, in post-order |
| Engine.RythmEngine.Restart | src/main/java/com/greenlaw110/rythm/RythmEngine.java:1597-1612 | unchanged in prod mode; otherwise `_tags` holds exactly the old Java-tag entries |
| Engine.RythmEngine.RestartOnError | src/main/java/com/greenlaw110/rythm/RythmEngine.java:1584-1595 | rethrows exactly in prod mode, changing nothing; otherwise restarts |
| Engine.RythmEngine.Shutdown | src/main/java/com/greenlaw110/rythm/RythmEngine.java:1649-1652 | `_tags`, `_classes`, `_nonExistsTags` and `_nonTags` are empty afterwards |
| Configuration.Reported | src/main/java/org/rythmengine/conf/RythmConfiguration.java:64-68 | the sentinel is reported as null; any other entry as its value |
| Configuration.Lookup | src/main/java/org/rythmengine/conf/RythmConfiguration.java:54-69 | a cached entry answers without change; otherwise the key's value is computed and cached, null as the sentinel; other entries stay |
| Configuration.LookupIsMemoised | src/main/java/org/rythmengine/conf/RythmConfiguration.java:54-69 | a second lookup gives the first answer and keeps the cache, even after the raw map changed |
| Configuration.LookupKeepsAnswers | src/main/java/org/rythmengine/conf/RythmConfiguration.java:54-69 | looking up one key changes no key's answer |
| Configuration.AsBool | src/main/java/org/rythmengine/conf/RythmConfiguration.java:343-345 | unboxing: a boolean gives its value, null a `NullPointerException`, anything else a `ClassCastException` |
| Configuration.CacheEnabledRule | src/main/java/org/rythmengine/conf/RythmConfiguration.java:343-354 | true exactly when enabled and (prod or not prod-only); false exactly when disabled, or prod-only in dev |
| Configuration.DisableFileWriteRule | src/main/java/org/rythmengine/conf/RythmConfiguration.java:210-212 | disabled exactly when file writing is off or on GAE |
| Configuration.LoadPrecompiledRule | src/main/java/org/rythmengine/conf/RythmConfiguration.java:180-181 | load exactly when configured to or on GAE |
| Configuration.EncodingRule | src/main/java/org/rythmengine/conf/RythmConfiguration.java:542-545 | `"default"` when unset; the configured string otherwise; a non-string fails the cast |
| Configuration.TemplateHomeRule | src/main/java/org/rythmengine/conf/RythmConfiguration.java:450-458 | a URI becomes a one-element list, a list is kept, a file becomes its URI; anything else gives none |
| Configuration.ConfiguredText | src/main/java/org/rythmengine/conf/RythmConfiguration.java:258-259 | a null configured string joins the concatenation as `"null"` |
| Configuration.RestrictedSetAppend | src/main/java/org/rythmengine/conf/RythmConfiguration.java:259-268 | a `;`-joined list yields the union of what its halves yield |
| Configuration.RestrictedSetMembers | src/main/java/org/rythmengine/conf/RythmConfiguration.java:261-267 | every entry of the parsed list is a proper class name (non-empty, no `;`, no blank at either end), and every piece that is not all blanks contributes its trimmed form |
| Configuration.JoinedNamesYield | src/main/java/org/rythmengine/conf/RythmConfiguration.java:259-268 | proper names joined at `;` yield exactly those names |
| Configuration.BuiltInNamesProper | src/main/java/org/rythmengine/conf/RythmConfiguration.java:259 | no built-in name holds `;` or a blank at either end |
| Configuration.RestrictedClassesOf | src/main/java/org/rythmengine/conf/RythmConfiguration.java:256-270 | the result is the configured entries plus exactly the nine built-in ones |
| Configuration.JavaIoOnlyWhenConfigured | src/main/java/org/rythmengine/conf/RythmConfiguration.java:259 | `RythmSecurityManager,java.io` is always one entry; `java.io` is restricted exactly when configured |
| Configuration.ParseRestricted | src/main/java/org/rythmengine/conf/RythmConfiguration.java:261-267 | the loop keeps exactly the trimmed non-empty pieces |
| Configuration.RythmConfiguration.constructor | src/main/java/org/rythmengine/conf/RythmConfiguration.java:41-45 | `raw` is the given map and the key table the given one; `data` and every memo start empty |
| Configuration.RythmConfiguration.Empty | src/main/java/org/rythmengine/conf/RythmConfiguration.java:658 | `EMPTY_CONF`: the given key table, empty maps, marked as the empty configuration |
| Configuration.RythmConfiguration.Get | src/main/java/org/rythmengine/conf/RythmConfiguration.java:54-69 | answers and updates the cache as `Lookup` does |
| Configuration.RythmConfiguration.GetList | src/main/java/org/rythmengine/conf/RythmConfiguration.java:79-88 | a cached entry is cast to a list (the sentinel and non-lists fail); otherwise the implementation list is built and cached, and a later `get` returns it |
| Configuration.RythmConfiguration.GetByName | src/main/java/org/rythmengine/conf/RythmConfiguration.java:100-110 | strips `rythm.`; a known key goes through `Lookup`; an unknown one reads the raw map and leaves the cache alone |
| Configuration.RythmConfiguration.CacheEnabled | src/main/java/org/rythmengine/conf/RythmConfiguration.java:341-357 | false for `EMPTY_CONF` without memoising; else the memo or `CacheEnabledRule`; a successful answer is stored in the memo, a failure leaves it; no lookup answer changes and no cached entry is lost |
| Configuration.RythmConfiguration.CacheDisabled | src/main/java/org/rythmengine/conf/RythmConfiguration.java:365-367 | the negation of `cacheEnabled`, failing exactly as it fails; memoises the enabled flag as `cacheEnabled` does; no lookup answer changes and no cached entry is lost |
| Configuration.RythmConfiguration.DisableFileWrite | src/main/java/org/rythmengine/conf/RythmConfiguration.java:208-215 | the memo or `DisableFileWriteRule`; a successful answer is stored in the memo, a failure leaves it; no cached entry is lost |
| Configuration.RythmConfiguration.LoadPrecompiled | src/main/java/org/rythmengine/conf/RythmConfiguration.java:178-184 | the memo or `LoadPrecompiledRule`; a successful answer is stored in the memo, a failure leaves it; no cached entry is lost |
| Configuration.RythmConfiguration.RestrictedClasses | src/main/java/org/rythmengine/conf/RythmConfiguration.java:256-270 | the memo or the parse of the configured list followed by the built-in one; a successful answer is stored in the memo, a failure leaves it; no cached entry is lost |
| Configuration.RythmConfiguration.TemplateHome | src/main/java/org/rythmengine/conf/RythmConfiguration.java:448-461 | the memo or `TemplateHomeRule`; the memo afterwards is exactly the answer, so it is set only when something is found; no cached entry is lost |
| Configuration.RythmConfiguration.SetTemplateHome | src/main/java/org/rythmengine/conf/RythmConfiguration.java:468-471 | writes the file into `raw` and `data`, so `get(HOME_TEMPLATE)` answers it; `templateHome` answers it unless already memoised |
| Configuration.RythmConfiguration.ResourceBundleEncoding | src/main/java/org/rythmengine/conf/RythmConfiguration.java:540-548 | the memo or `EncodingRule`; a successful answer is stored in the memo, a failure leaves it; no cached entry is lost |
| Configuration.CacheDisabledIsStable | src/main/java/org/rythmengine/conf/RythmConfiguration.java:341-367 | two `cacheDisabled` calls in a row: once the first succeeds, the second gives the same answer |
| Configuration.StaleTemplateHome | src/main/java/org/rythmengine/conf/RythmConfiguration.java:448-471 | `templateHome`, `setTemplateHome`, `templateHome`: a home the first call found is answered again; only when it found none does the new file answer |
| ExitIfNoClass.Unparen | src/main/java/com/greenlaw110/rythm/internal/parser/build_in/ExitIfNoClassParser.java:30-33 | an argument starting with `(` loses its first and last character; the lone `(` fails; anything else is unchanged |
| ExitIfNoClass.StripLeadingQuote | src/main/java/com/greenlaw110/rythm/internal/parser/build_in/ExitIfNoClassParser.java:34-36 | drops exactly one leading quote when there is one |
| ExitIfNoClass.StripTrailingQuote | src/main/java/com/greenlaw110/rythm/internal/parser/build_in/ExitIfNoClassParser.java:37-39 | drops exactly one trailing quote when there is one |
| ExitIfNoClass.Normalize | src/main/java/com/greenlaw110/rythm/internal/parser/build_in/ExitIfNoClassParser.java:29-39 | fails only for the lone `(`; otherwise at most four characters shorter than the argument |
| ExitIfNoClass.NormalizeUnwraps | src/main/java/com/greenlaw110/rythm/internal/parser/build_in/ExitIfNoClassParser.java:30-39 | a quote-free class name comes back from any wrapping in parentheses and quotes, matched or not |
| ExitIfNoClass.OneQuoteEachEnd | src/main/java/com/greenlaw110/rythm/internal/parser/build_in/ExitIfNoClassParser.java:34-39 | whatever lies between an opening and a closing quote comes back unchanged, its own quotes included: only one quote is removed at each end |
| ExitIfNoClass.WorkedExample | src/main/java/com/greenlaw110/rythm/internal/parser/build_in/ExitIfNoClassParser.java:56-78 | `(java.lang.String)` normalises to `java.lang.String` |
| ExitIfNoClass.DirectiveParser.constructor | src/main/java/com/greenlaw110/rythm/internal/parser/build_in/ExitIfNoClassParser.java:21-22 | the parser starts on the given template source at the given cursor |
| ExitIfNoClass.DirectiveParser.Go | src/main/java/com/greenlaw110/rythm/internal/parser/build_in/ExitIfNoClassParser.java:23-46 | no match: a parse error at the current line, nothing consumed; a match: the cursor advances by its length, then an empty token if the class loads, else the exit signal |

## Left out

- The thread-locals `_engine`, `RenderSettings` and `outputMode`: per-thread ambient state.
- The `ScheduledThreadPoolExecutor` of `NonExistsTemplatesChecker`: only one sweep is modelled.
- Loading configuration from disk, system properties and the logger: I/O.
- `registerTransformer`: reflection.
- `eval`: the JavaScript engine.
- The sandbox executor and the event bus.
- `ICacheService` beyond put and get, including time-to-live and the duration-parsing `cache` overload.
- `toString` rendering of values.
- Template compilation, class loading, `__cloneMe`, `asTemplate` and the actual rendering and tag call. These are not part of this model. `InvokeTag` returns the tag and arguments it would call. `RenderIfTemplateExists` says which template it would render.
- `registerTag(ITag)`, which only reads the tag's own name before delegating to `RegisterTag`.
- In `RythmConfiguration`:
  - `gae()` is a constant input;
  - `resourceBundleControl` (stream I/O), `hasGlobalInclude` (resource manager), `debug()` (logging) and the static `get()` (thread-local engine) are left out;
  - the other memoised accessors are left out, because they follow the same pattern as the modelled ones.
- `RythmConfigurationKey` is not part of this model:
  - how a key reads its value from the raw map, `valueOfIgnoreCase`, `getKey` and `getImplList` are abstract functions;
  - `Keyword.THIS` is taken to be `this`;
  - `getFullTagName(tc)` is taken to be the class's full name.
- The regex engine and `loadClass` of the directive parser are inputs. So are the current line and the template a parse error names.
- Copying in constructors and returning fresh copies (`new HashMap(configuration)`, `new HashSet(_restrictedClasses)`) hold trivially: Dafny maps and sets are values that no caller can mutate.
- Engine.RythmEngine.Invalidate: requires a rank on the extend graph that every edge lowers. On a cycle the source recurses without end, and that case is not modelled.
- The tag loader `tryLoadTag` is not part of this model. It is a total function of the name and the calling class, and exceptions it could throw are not modelled. It is assumed to register the tag it compiles through `registerTag`, under the class's full name (`Tags.AfterLoad`). `Engine.RythmEngine.TestTag`, `Engine.RythmEngine.ResolveTag`, `Engine.RythmEngine.InvokeTag` and `Engine.RythmEngine.SweepNonExists` all rely on this.
- Callers of `invokeTag` (the `Tags.Caller` datatype): every caller is taken to be a `TagBase`, with a name and itself as a tag. The source casts the caller to `TagBase` when the name is not registered (RythmEngine.java line 1276), so a caller that is not one fails there with a `ClassCastException`; that case is not modelled.
- Engine.RythmEngine.SweepNonExists: the first known template class is a parameter. The source fails when there is none.
- Engine.RythmEngine.constructor: the dev-mode `resourceManager().scan(conf().templateHome())` at the end of `init` (RythmEngine.java line 508) is resource I/O and is left out.
- Strings.Split: models `split(";", -1)`, which keeps trailing empty pieces; Java's plain `split` drops them. The only caller discards empty pieces, so the two agree there.
- Engine.RythmEngine.RenderIfTemplateExists: the type-inference suffix of the class key and the start of the checker are left out.
- Engine.RythmEngine.Cache: arguments and values enter as their string forms.
- EngineUtil.ProcessConf: when both `rythm.x` and `x` are present, which value `x` keeps depends on hash-map iteration order. The contract only says it is one of the two.
- ExitIfNoClass.Normalize: its own contract only bounds the length of the result. The exact result for wrapped class names is stated by `NormalizeUnwraps`.
