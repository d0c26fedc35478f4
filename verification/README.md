# GojiJS used-component collector and universal lifecycle provider, in Dafny

This project models two small pieces of GojiJS, a framework that runs React
applications on mini-program host runtimes.

1. **The used-component collector** of the webpack plugin
   (`GojiCollectUsedComponentsWebpackPlugin`). After the chunks of a
   compilation are built, it walks the compilation's modules. Only modules whose
   type starts with `javascript/` are visited, and in them only the
   dependencies whose request is `@goji/core`. From those it collects the ids
   of the named imports (`import { View } from '@goji/core'`) into an
   insertion-ordered set. A CommonJS `require` of the package, or a namespace
   import (`import * as G from '@goji/core'`, whose id is null), makes it push
   one warning and return `undefined`, meaning "do not trim the bridge
   templates". Otherwise the names that start with an upper-case character are
   kebab-cased (`CoverView` becomes `cover-view`). The result is stored in the
   shared `usedComponentsMap` under the compilation.
2. **The universal-hooks provider** (`UniversalHooksProvider`). It owns one
   cache (signal name → last value) and one event emitter, each created once
   per provider. `emit(name, data)` first writes the cache and then calls the
   listeners of `name`. The host events `onLoad`, `onShow` and `onHide` are
   wired to `emit('loadOptions', options)`, `emit('visibility', true)` and
   `emit('visibility', false)`.

Files:

- `optional.dfy`: `Option`, for the source's `null`/`undefined`.
- `ordered_set.dfy`: the JavaScript `Set` read back with `Array.from`, as a
  sequence without repetitions (`Add`, `Dedup`) with its properties.
- `letter_case.dfy`: `toUpperCase` on ASCII characters, and a model of lodash's
  `kebabCase` on ASCII CamelCase names: what a tag looks like, the
  `CoverView` => `cover-view` example, and a proof that it can be undone.
- `collect_used_components.dfy`: the dependency records, a specification of
  the scan as a fold over the visited dependencies (`Sites`, `ScanSites`,
  `Collected`), its properties, `formatUsedComponents`, and the imperative
  collector and `afterChunks` hook over a `Compilation` object and a
  `UsedComponentsMap` object.
- `universal_provider.dfy`: the cache, the event emitter and the provider as
  classes, and a driver that registers a listener with a fresh provider and
  feeds it host events.

How the model is shaped:

- The collector is a method with the source's loop over the modules, and
  `CollectInModule` holds its inner loop over one module's dependencies, with
  the same `continue`, switch, in-place `Set.add` and `warnings.push`. When
  the inner loop pushes a warning it reports that it gave up, and the outer
  method returns `undefined` at once, which is what the source's `return`
  from inside the inner loop does. The collector is proved equal
  to `Collected(modules)`: `ResultOf` gives the returned value and `WarningsOf`
  the pushed warnings. `Collected` flattens the visited dependencies (`Sites`)
  and folds `Step` over them. The properties of the collector are lemmas about
  `Collected` and `ScanSites`.
- webpack's `type` fields are called `kind`, because `type` is a Dafny keyword.
  A warning is a record that holds the module's `resource`, the reason, and,
  for a namespace import, the imported binding's name. It does not hold the
  message text.
- lodash `kebabCase` is a parameter (`kebabCase: string -> string`) of
  `FormatUsedComponents` and `AfterChunks`. `LetterCase.KebabCase` is one
  concrete choice for it. It agrees with lodash on ASCII CamelCase names,
  which `LetterCase.IsAsciiCamelCase` defines.
- `formatUsedComponents` reads `name[0].toUpperCase()`. On an empty name that
  throws, because `name[0]` is `undefined`. So `ComponentNames` and
  `FormatUsedComponents` require non-empty names. `CollectedNames` proves that
  the collector only returns non-empty names, because an empty id is treated
  like a namespace import. `AfterChunks` relies on that proof.
- The names are deduplicated before kebab-casing, not after. Two different
  names could therefore give the same tag. `FormattedTagsDistinct` proves that
  this cannot happen with the ASCII model when every name the filter keeps is
  ASCII CamelCase. The names it drops, such as `render`, may be anything.
- `afterChunks` tests the collector's result for truthiness. An empty array is
  truthy in JavaScript, so a compilation with no named imports gets an empty
  tag list, not `undefined`. `AfterChunks` states this: its entry is `None`
  only when the scan gave up.
- `isUpperCase(c)` is `c.toUpperCase() === c`. It therefore also holds for
  digits, `_` and `$`, not only for capital letters. The model keeps that
  meaning.
- The provider's `cache` and `events` are `const` fields, set once by the
  constructor. This stands for `useMemo(..., [])`. A listener is an identity
  in a per-name list, kept in registration order. Each call of a listener is
  logged as a `Delivery`. The log records the listener, the signal, the data,
  and the cache as that listener would read it through the context, which
  lets a contract state that listeners see the value just written.
- `FeedHostEvents` creates a provider and registers one listener for
  `visibility` with `on`, as a consumer hook would. It then hands the
  provider a sequence of host events through `Handle` and reads the cache
  back, together with the log of listener calls. Its contract states "last
  value wins" for `visibility` and for `loadOptions`. It also states that the
  log holds exactly one call per show or hide, in order, each to that
  listener, for `visibility`, with the event's flag. A load calls nobody.

## Model

| member | source | states |
|---|---|---|
| `CollectUsedComponents.Classify` | packages/webpack-plugin/src/plugins/collectUsedComponents.ts:58-85 | A dependency whose request is not `@goji/core` is skipped. For `@goji/core`: a `cjs require` gives up; a `harmony import specifier` with a null or empty id gives up as a namespace import; one with an id collects exactly that non-empty id; every other type is skipped. |
| `CollectUsedComponents.AbortedIffSomeAbort` | packages/webpack-plugin/src/plugins/collectUsedComponents.ts:54-79 | The scan gives up if and only if some visited dependency is a CommonJS require or a namespace import of `@goji/core`. |
| `CollectUsedComponents.FirstAbortWarning` | packages/webpack-plugin/src/plugins/collectUsedComponents.ts:62-79 | When the scan gives up, the outcome carries exactly the warning of the first such dependency: its module's resource, plus the binding name for a namespace import. |
| `CollectUsedComponents.ScanningNames` | packages/webpack-plugin/src/plugins/collectUsedComponents.ts:53-91 | When the scan does not give up, its names are the ids of the named imports in visiting order, deduplicated by first occurrence. |
| `CollectUsedComponents.ScanSitesOutcome` | packages/webpack-plugin/src/plugins/collectUsedComponents.ts:50-92 | The three facts above together: the scan gives up iff an aborting dependency is visited, with the first one's warning; otherwise it yields the deduplicated ids. |
| `CollectUsedComponents.CollectedNames` | packages/webpack-plugin/src/plugins/collectUsedComponents.ts:73-91 | A result that does not give up has no duplicates. Its names are exactly the ids of the qualifying named imports, and none of them is empty. |
| `CollectUsedComponents.AbortIsFinal` | packages/webpack-plugin/src/plugins/collectUsedComponents.ts:68-79 | Once the scan has given up, no later dependency changes the outcome or the warning. |
| `CollectUsedComponents.NonJavaScriptModulesIgnored` | packages/webpack-plugin/src/plugins/collectUsedComponents.ts:54-55 | Removing every module whose type does not start with `javascript/` leaves the outcome (names and warning) unchanged. |
| `CollectUsedComponents.ForeignRequestsIgnored` | packages/webpack-plugin/src/plugins/collectUsedComponents.ts:58-60 | Removing every dependency whose request is not `@goji/core` leaves the outcome unchanged. |
| `CollectUsedComponents.OtherDependencyTypesIgnored` | packages/webpack-plugin/src/plugins/collectUsedComponents.ts:84-85 | Removing every dependency whose type is neither `cjs require` nor `harmony import specifier` leaves the outcome unchanged, so such dependencies never stop the scan. |
| `CollectUsedComponents.SkippedSitesIrrelevant` | packages/webpack-plugin/src/plugins/collectUsedComponents.ts:58-60 | Dropping any dependencies that are all classified as skipped does not change the scan's outcome. |
| `CollectUsedComponents.CollectInModule` | packages/webpack-plugin/src/plugins/collectUsedComponents.ts:56-87 | The loop over one module's dependencies either ends with the names collected up to the end of that module and no warning pushed, or gives up with exactly one warning pushed, that of the dependency where the scan gave up. |
| `CollectUsedComponents.CollectDependencyOfGojiCore` | packages/webpack-plugin/src/plugins/collectUsedComponents.ts:50-92 | The nested loops return `undefined` exactly when the scan gives up, and otherwise the collected names. They push exactly the scan's warnings: one on giving up, none otherwise. |
| `CollectUsedComponents.IsUpperCase` | packages/webpack-plugin/src/plugins/collectUsedComponents.ts:29 | `isUpperCase(c)` holds iff `c` is not an ASCII lower-case letter, so it holds for capitals, digits, `_` and `$` too. |
| `CollectUsedComponents.ComponentNames` | packages/webpack-plugin/src/plugins/collectUsedComponents.ts:29-36 | A name is kept iff upper-casing its first character leaves that character unchanged. The output is no longer than the input. |
| `CollectUsedComponents.ComponentNamesAppend` | packages/webpack-plugin/src/plugins/collectUsedComponents.ts:36 | The filter distributes over concatenation, so relative order is preserved. |
| `CollectUsedComponents.ComponentNamesDistinct` | packages/webpack-plugin/src/plugins/collectUsedComponents.ts:36 | Filtering a list without duplicates gives a list without duplicates. |
| `CollectUsedComponents.FormatUsedComponents` | packages/webpack-plugin/src/plugins/collectUsedComponents.ts:35-37 | One tag per kept name, in the same order: the k-th tag is the kebab-cased k-th kept name. There are at most as many tags as names. |
| `CollectUsedComponents.FormattedTagsDistinct` | packages/webpack-plugin/src/plugins/collectUsedComponents.ts:31-37 | With the ASCII kebab-case model, a list of distinct names gives distinct tags whenever every name the filter keeps is ASCII CamelCase. Names the filter drops, like `render`, may be anything. |
| `CollectUsedComponents.AfterChunks` | packages/webpack-plugin/src/plugins/collectUsedComponents.ts:93-97 | The entry for this compilation is `undefined` iff the scan gave up; otherwise it is the formatted names. No other key of the map changes. The warnings are the scan's. |
| `OrderedSet.Add` | packages/webpack-plugin/src/plugins/collectUsedComponents.ts:81 | `Set.add` only appends, appends exactly when the element is new, and keeps the set free of duplicates. |
| `OrderedSet.DedupIsSet` | packages/webpack-plugin/src/plugins/collectUsedComponents.ts:53-91 | `Array.from` of the set built by `add` has no duplicates and has exactly the added elements. |
| `OrderedSet.DedupFirstOccurrenceOrder` | packages/webpack-plugin/src/plugins/collectUsedComponents.ts:91 | That array lists the elements in the order of their first insertion. |
| `LetterCase.ToUpper` | packages/webpack-plugin/src/plugins/collectUsedComponents.ts:29 | `toUpperCase` maps an ASCII lower-case letter to a capital and leaves every other character unchanged. |
| `LetterCase.KebabCaseShape` | packages/webpack-plugin/src/plugins/collectUsedComponents.ts:33 | A tag is empty iff the name is. It has no capital, its first character is the name's first character lower-cased, and it is one character longer per capital after the first. For a name without hyphens, removing the tag's hyphens gives the name lower-cased. |
| `LetterCase.KebabCaseTwoWords` | packages/webpack-plugin/src/plugins/collectUsedComponents.ts:32-33 | A name made of two capitalised lower-case words becomes both words lower-cased, joined by one hyphen. |
| `LetterCase.CoverViewTag` | packages/webpack-plugin/src/plugins/collectUsedComponents.ts:33 | `CoverView` becomes `cover-view`. |
| `LetterCase.KebabCaseRoundTrip` | packages/webpack-plugin/src/plugins/collectUsedComponents.ts:33 | Kebab-casing an ASCII CamelCase name can be undone: capitalising after each hyphen gives the name back. |
| `LetterCase.KebabCaseInjective` | packages/webpack-plugin/src/plugins/collectUsedComponents.ts:33 | Two ASCII CamelCase names with the same kebab-cased tag are equal. |
| `UniversalLifecycle.Notifications` | packages/core/src/lifecycles/universal/provider.tsx:25 | A broadcast calls each listener of the list once, in registration order, with that signal name and that data. |
| `UniversalLifecycle.LifecycleCache.constructor` | packages/core/src/lifecycles/universal/provider.tsx:12 | The cache starts empty. |
| `UniversalLifecycle.LifecycleCache.Set` | packages/core/src/lifecycles/universal/provider.tsx:24 | `cache.set(name, data)` maps `name` to `data` and leaves every other entry unchanged. |
| `UniversalLifecycle.EventEmitter.constructor` | packages/core/src/lifecycles/universal/provider.tsx:13 | The emitter starts with no listeners and no calls made. |
| `UniversalLifecycle.EventEmitter.On` | packages/core/src/lifecycles/universal/provider.tsx:13-20 | Registering a listener on the shared emitter appends it to that name's listeners, leaves the other names' listeners alone, and calls nothing. |
| `UniversalLifecycle.EventEmitter.Emit` | packages/core/src/lifecycles/universal/provider.tsx:25 | `events.emit(name, data)` calls exactly the listeners registered under `name`, in order, and does not change the listeners. |
| `UniversalLifecycle.UniversalHooksProvider.constructor` | packages/core/src/lifecycles/universal/provider.tsx:12-13 | A provider gets a fresh, empty cache and a fresh emitter. The `const` fields mean neither is ever replaced. |
| `UniversalLifecycle.UniversalHooksProvider.Emit` | packages/core/src/lifecycles/universal/provider.tsx:22-28 | After `emit(name, data)`, `cache[name] == data`, so the last value wins, and every other entry is unchanged. Only the listeners of `name` are called, and each sees the new cached value. |
| `UniversalLifecycle.UniversalHooksProvider.OnLoad` | packages/core/src/lifecycles/universal/provider.tsx:32-36 | `onLoad(options)` has exactly the effect of `emit('loadOptions', options)`. |
| `UniversalLifecycle.UniversalHooksProvider.OnShow` | packages/core/src/lifecycles/universal/provider.tsx:39-41 | `onShow` has exactly the effect of `emit('visibility', true)`. |
| `UniversalLifecycle.UniversalHooksProvider.OnHide` | packages/core/src/lifecycles/universal/provider.tsx:42-44 | `onHide` has exactly the effect of `emit('visibility', false)`. |
| `UniversalLifecycle.UniversalHooksProvider.Handle` | packages/core/src/lifecycles/universal/provider.tsx:32-44 | A host event updates only the cache entry of its own signal, and calls only that signal's listeners. |
| `UniversalLifecycle.SignalOf` | packages/core/src/lifecycles/universal/provider.tsx:33-43 | `onLoad` is emitted as `loadOptions`; `onShow` and `onHide` are emitted as `visibility`. |
| `UniversalLifecycle.LastVisibilityIsLastFlag` | packages/core/src/lifecycles/universal/provider.tsx:39-44 | The last visibility is absent iff no show or hide came, and is otherwise the flag of the last show or hide. |
| `UniversalLifecycle.FeedHostEvents` | packages/core/src/lifecycles/universal/provider.tsx:22-44 | After any sequence of host events, the cached visibility is that of the most recent show or hide, and the cached load options are those of the most recent load; each is absent if no such event came. With one listener registered for `visibility`, the calls made are exactly one per show or hide, in order, each to that listener, for `visibility`, carrying the event's flag; loads call nobody. |

## Left out

- The webpack hooks (`thisCompilation`, `afterChunks` registration) and the `GojiBasedWebpackPlugin` base class are not modelled. `AfterChunks` is called directly with the compilation.
- `usedComponentsMap` comes from a shared module that is not part of this model. It is modelled as an object holding a map from compilation to entry.
- The text of the warning messages is not modelled. A warning is a record of the reason, the module resource and, for a namespace import, the binding name.
- CollectUsedComponents.ComponentNames: requires every name to be non-empty. On an empty name `formatUsedComponents` throws a TypeError, which the model does not represent. No behaviour of the plugin is lost, because `CollectedNames` proves that the collector never passes an empty name.
- LetterCase.KebabCase: agrees with lodash `kebabCase` only on ASCII CamelCase names. Lodash's Unicode word splitting, its handling of acronyms and digits, and its deburring are not modelled. Everywhere else `kebabCase` is a parameter.
- LetterCase.ToUpper: covers the ASCII range only. Outside it, JavaScript's `toUpperCase` also changes non-ASCII lower-case letters, which the model leaves unchanged. `name[0]` is a UTF-16 code unit, while a Dafny `char` is a Unicode scalar value.
- The React machinery (`useMemo`, `useCallback`, `useImmediatelyEffect`, the context `Provider`) is not modelled. Neither is the registration of the three handlers with the event proxy, nor its unsubscribe cleanup. The handlers are modelled as the methods `OnLoad`, `OnShow` and `OnHide`.
- `UniversalLifecycleName` and `OnLoadOptions` are defined outside this model. Signal names are strings, and the load options are a type parameter.
- Node's `events` module is not part of this model. `EventEmitter.On` stands for its `on`, which the consumer hooks use to register listeners. A listener is modelled as an identity whose call is logged. What listeners do when called is not modelled. The special case that makes `emit('error')` throw is not modelled either; no such name is emitted here.
- Replay-on-subscribe and unsubscription live in consumer hooks that are not part of this model. `FeedHostEvents` registers its listener directly with `EventEmitter.On`.
