# Default plugins for new config documents

DefaultPluginsModule (adapt-authoring-defaultplugins) adds a callback to the
content service's create hook. The callback is meant to act when a document of
type `config` is about to be inserted. It asks the plugin registry for every
plugin flagged `isAddedByDefault`. It should then make sure the document's
`_enabledPlugins` list exists and append each default name that the list does
not include yet, in the order the registry returned them. This is also what the
module's test suite expects.

As written, the guard at lib/DefaultPluginsModule.js:14 returns as soon as the
registry result is non-empty. So the append loop only ever runs over an empty
result, and nothing is ever appended. When the result is empty, the callback
creates an empty `_enabledPlugins` on a config document that lacks one. The
section "Findings" below records this.

This Dafny project models that callback.

- `enabled_plugins.dfy` (module `EnabledPlugins`) holds the pure specification
  of the duplicate-filtered append, `Merge`. It also holds a reference
  definition, `Fresh`, of the names the append adds, and lemmas about both.
  `Merge` checks each name against the list as it grows. `Fresh` checks each
  name against the original list and the earlier defaults. The lemma
  `MergeIsListThenFresh` proves the two checks agree.
- `default_plugins_module.dfy` (module `DefaultPluginsModule`) holds the
  document as a class whose `_enabledPlugins` attribute is an optional sequence
  that the methods reassign. The `forEach`/`push` loop is a method with a
  `while` loop proved against `Merge`. The callback is written twice:
  - `CreateHookAsWritten` has the guard on the registry result exactly as the
    module writes it.
  - `PreInsertHook` has the guard the module's tests expect.

Each callback method is proved equal to a pure function of the old state.
Those functions are `AfterCreateHookAsWritten` and `AfterPreInsertHook`. The
lemmas are stated about them.

The code and its tests disagree in three further ways:

- The module reads the type from the document's `_type` attribute. The tests
  pass it as `schemaName` in the hook context.
- The module taps `createHook`. The tests tap `preInsertHook`.
- The module resolves the registry as `contentPlugins`. The tests resolve it
  as `contentplugin`.

`CreateHookAsWritten` follows the module and reads `_type` from the document.
`PreInsertHook` follows the tests and takes the schema name as a parameter.

## Model

| member | source | states |
|---|---|---|
| `EnabledPlugins.Merge` | lib/DefaultPluginsModule.js:18 | the loop at line 18: each default is checked against the list as it has grown so far and pushed when absent; the list grows by at most one name per default and never shrinks |
| `EnabledPlugins.FreshMembership` | lib/DefaultPluginsModule.js:18 | a name is among the appended names exactly when it is a default and the original list lacks it |
| `EnabledPlugins.FreshNoDuplicates` | lib/DefaultPluginsModule.js:18 | the appended names contain no duplicate, even when the registry result repeats a name |
| `EnabledPlugins.MergeIsListThenFresh` | lib/DefaultPluginsModule.js:18 | the loop's result is the original list followed by the defaults it lacked, each once, in registry order |
| `EnabledPlugins.MergeKeepsPrefix` | lib/DefaultPluginsModule.js:18 | the original entries stay at the front of the list in their original order |
| `EnabledPlugins.MergeMembership` | lib/DefaultPluginsModule.js:18 | afterwards a name is present if and only if it was listed before or is a default, so every default is present |
| `EnabledPlugins.NoDuplicatesAppend` | lib/DefaultPluginsModule.js:18 | two duplicate-free lists with no name in common concatenate to a duplicate-free list |
| `EnabledPlugins.MergeNoDuplicates` | lib/DefaultPluginsModule.js:18 | a duplicate-free list stays duplicate-free |
| `EnabledPlugins.MergeAllPresent` | lib/DefaultPluginsModule.js:18 | when every default is already listed, the list is unchanged |
| `EnabledPlugins.MergeIdempotent` | lib/DefaultPluginsModule.js:17-18 | merging the same defaults a second time leaves the list as the first merge left it |
| `DefaultPluginsModule.Document.constructor` | lib/DefaultPluginsModule.js:9 | a document with the given `_type` and the given `_enabledPlugins` (absent or present) |
| `DefaultPluginsModule.Document.InitEnabledPlugins` | lib/DefaultPluginsModule.js:17 | an absent `_enabledPlugins` becomes empty, a present one is kept; the type is unchanged |
| `DefaultPluginsModule.Document.AppendDefaults` | lib/DefaultPluginsModule.js:18 | the list becomes `Merge` of the old list and the defaults; the type is unchanged |
| `DefaultPluginsModule.Initialised` | lib/DefaultPluginsModule.js:17 | the list line 17 leaves: a present `_enabledPlugins` is kept, an absent one becomes `[]` |
| `DefaultPluginsModule.AfterCreateHookAsWritten` | lib/DefaultPluginsModule.js:10-18 | `_enabledPlugins` after the callback as written, whose guard returns unless the type is config and the registry result is EMPTY; the list exists afterwards exactly when it existed before or that return was not taken |
| `DefaultPluginsModule.AfterPreInsertHook` | tests/DefaultPluginsModule.spec.js:83-248 | `_enabledPlugins` after the callback the module's test suite expects, whose guard returns unless the schema is config and the registry result is NON-EMPTY; the list exists afterwards exactly when it existed before or defaults were enabled |
| `DefaultPluginsModule.CreateHookAsWritten` | lib/DefaultPluginsModule.js:9-19 | the callback as written leaves `_enabledPlugins` as `AfterCreateHookAsWritten` of the old state; the type is unchanged |
| `DefaultPluginsModule.PreInsertHook` | tests/DefaultPluginsModule.spec.js:83-248 | the version the module's test suite expects leaves `_enabledPlugins` as `AfterPreInsertHook` of the old state; the type is unchanged |
| `DefaultPluginsModule.NonConfigUntouched` | lib/DefaultPluginsModule.js:10-12 | in both versions, a document that is not of type config keeps its list, or keeps lacking one |
| `DefaultPluginsModule.AsWrittenNeverAppends` | lib/DefaultPluginsModule.js:14-18 | as written, the callback never adds a name: the list is kept or, when absent, becomes empty |
| `DefaultPluginsModule.AsWrittenCreatesEmptyList` | lib/DefaultPluginsModule.js:14-17 | on a config document with no list and no defaults, the version as written creates an empty list; the version the module's test suite expects creates none |
| `DefaultPluginsModule.AsWrittenSkipsDefaults` | lib/DefaultPluginsModule.js:14-15 | on a config document with no list and one default, the version as written leaves the list absent; the version the module's test suite expects enables the default |
| `DefaultPluginsModule.AsWrittenIgnoresDefaults` | lib/DefaultPluginsModule.js:14-15 | as written, any non-empty registry result leaves `_enabledPlugins` exactly as it was, for every document |
| `DefaultPluginsModule.NoDefaultsUntouched` | tests/DefaultPluginsModule.spec.js:154-174 | with no defaults, the list is neither changed nor created |
| `DefaultPluginsModule.PreInsertEnablesDefaults` | tests/DefaultPluginsModule.spec.js:109-152 | on a config document with defaults, the list exists afterwards; it is the old list followed by the missing defaults; it keeps its old entries as a prefix; it holds every default; it stays duplicate-free |
| `DefaultPluginsModule.PreInsertAllPresentUnchanged` | tests/DefaultPluginsModule.spec.js:216-225 | when all defaults are already enabled the list is unchanged |
| `DefaultPluginsModule.PreInsertIdempotent` | lib/DefaultPluginsModule.js:17-18 | running the callback twice with the same registry result gives the same list as running it once |
| `DefaultPluginsModule.EmptyListLikeAbsent` | tests/DefaultPluginsModule.spec.js:238-247 | on a config document with defaults, an existing empty list ends up as an absent one does |
| `DefaultPluginsModule.PreInsertKeepsOrderExample` | tests/DefaultPluginsModule.spec.js:227-236 | `["plugin-b", "plugin-a"]` with default `plugin-c` becomes `["plugin-b", "plugin-a", "plugin-c"]` |
| `DefaultPluginsModule.PreInsertNoDuplicateExample` | tests/DefaultPluginsModule.spec.js:143-152 | `["plugin-a"]` with defaults `plugin-a`, `plugin-b` becomes `["plugin-a", "plugin-b"]` |

## Left out

- Collaborator resolution through `waitForModule` and module readiness (lib/DefaultPluginsModule.js:7-8). These belong to the framework's lifecycle and dependency injection.
- Hook registration and dispatch (`createHook.tap`, lib/DefaultPluginsModule.js:9). The framework's `Hook` class is not part of this model.
- The registry query `plugins.find({ isAddedByDefault: true })` (lib/DefaultPluginsModule.js:13). It is a foreign asynchronous call. Its result is a parameter: the names of the returned descriptors, in order. A rejected query, which would propagate out of the callback, is not modelled.
- Concurrent insertions and asynchronous suspension. Each invocation touches only its own document.
- Aliasing of the `_enabledPlugins` array. The module pushes onto the array object itself, so another holder of that array would see the pushes. The model keeps the list as a sequence value in the document's field.
- `_type` and `_enabledPlugins` values other than a string and an absent-or-array list. For example, `null` or another falsy value at line 17 would also be replaced by `[]`; the model treats only an absent attribute that way.
- The mock application and the `AbstractModule` checks of the tests (tests/DefaultPluginsModule.spec.js:9-81).

## Findings

| source | as written | input that shows it | evidently intended | confidence | as-written member | corrected member |
|---|---|---|---|---|---|---|
| lib/DefaultPluginsModule.js:14 | `if(defaultPlugins.length) return;` returns when the registry found defaults. So no default is ever appended. When none are found, an absent `_enabledPlugins` is created as `[]`. | a config document without `_enabledPlugins`, registry result `[{ name: 'plugin-a' }]`: the list stays absent (tests/DefaultPluginsModule.spec.js:109-130 expect `['plugin-a']`) | return when the registry found no defaults (`if(!defaultPlugins.length)`), leaving the document untouched (tests/DefaultPluginsModule.spec.js:154-174) | high; not executed | `DefaultPluginsModule.AsWrittenSkipsDefaults` | `DefaultPluginsModule.PreInsertEnablesDefaults` |
