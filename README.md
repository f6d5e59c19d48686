# Monaco editor navigation and debugger actions, modelled in Dafny

This project models the navigation and debugger-synchronisation actions of the
WebIDE's Monaco editor (`app/components/MonacoEditor/actions.js`):

- **Scheme classifier and derivations** (`resources.dfy`, module `Resources`):
  the `inmemory`, `jdt` and `omnisharp-metadata` scheme tokens, with every other
  scheme treated as a real path. It also holds the display name `p.split('/').pop()`,
  the jdt rule "trailing `class` becomes `java`" and the synthetic tab id `fake_<name>`.
  Then come the jdt fetch URI (`_formatted` or `toString()`) and the omnisharp fetch URI
  (first `[metadata] `, then first `omnisharp-metadata://` removed, i.e. `String.replace`
  with a string pattern). Last are the workspace-relative paths (`substring(root.length)`,
  and the debugger's `file://` variant) and the workspace root
  `/data/coding-ide-home/workspace/<spaceKey>/working-dir`.
- **Language-client registry** (`language_clients.dfy`, module `LanguageClients`):
  `createLanguageClient` as a function on the client map. Lemmas cover whole sequences
  of create requests and connection closures. They show that a live client is never
  replaced until its connection closes, and that only supported languages ever get a slot.
- **Tab table and decoration scans** (`tabs.dfy`, module `Tabs`): tabs, their
  `editorInfo`, and the specification of the three `forEach` scans (`cleardeltaDecorations`,
  `setBreakPoint`, `removeBreakPoint`). A scan touches exactly the selected tabs.
- **Navigation** (`navigation.dfy`, module `Navigation`): `toDefinition`,
  `toDefinitionForDebugger` and `resolveAdvancedDebuggerExpression` as functions. Each
  maps the current tables to the new tables, the external calls issued and the result
  the action delivers. Lemmas state refusal, reuse without a fetch, creation after a
  successful fetch, and the behaviour over two calls (one fetch at most).
- **The actions on state** (`monaco_actions.dfy`, module `MonacoActions`): class
  `Session` holds the configuration, `LanguageState.clients`, `TabState.tabs`, the active
  tab and a log of collaborator calls. Its methods change these fields in place; the scans
  are loops over the tab ids. Each method's postcondition ties the new state to the
  corresponding function above.

External collaborators become parameters or recorded calls:

- A language-server fetch is a `FetchOutcome` parameter (`Fetched(data)` or `FetchFailed`);
  each fetch issued is logged as an `ExternalCall`.
- `openFile` is a logged call. In the debugger path, the value its callback resolves with
  is a parameter (`openFileReply`, absent when it never calls back).
- `decodeURIComponent` is an uninterpreted function parameter `decode`.
- `createTab` inserts into the tab map. `activate()` sets the active tab.
- The editor's decoration methods are recorded per tab as `DecorationCall` values.
- `supportLangServer` is the set parameter `supported`. The MobX `when` reaction is the
  explicit step `InitWorkspace`.

Behaviour of the code that the model reproduces as written:

- `toDefinition` returns its resolved handle promise whatever the fetch does. The fetch is
  fire-and-forget, so a failed fetch creates nothing but is not reported.
- The debugger promise never settles when its fetch fails.
- A missing main-language client makes the fetch call throw (`Threw`/`Rejected` with
  `NoLanguageClient`). A present client is used even when it is marked destroyed.
- Without `params.options`, the virtual branches fetch but then fail inside the callback,
  so no tab is created.
- The debugger takes the jdt route when `path.startsWith('jdt')`, not by scheme.
- `resolveAdvancedDebuggerExpression` rejects with `null` only when the resolved id is
  missing from the table. A falsy id, a tab without editor, or a navigation that rejects
  or never resolves leaves its promise unsettled (`NeverSettles`).
- `createLanguageClient` returns `undefined` on success. The model reports `created = true`.

## Model

| member | source | states |
|---|---|---|
| Resources.Classify | app/components/MonacoEditor/actions.js:13-15 | each of the three tokens selects its own kind, in both directions; every other scheme is a real path |
| Resources.LastSegment | app/components/MonacoEditor/actions.js:27 | the result has no `/`, is a suffix of the path, and is preceded by `/` unless it is the whole path (the last segment) |
| Resources.LastSegmentOfJoin | app/components/MonacoEditor/actions.js:56 | for any directory, the segment after the last `/` is returned unchanged |
| Resources.JdtName | app/components/MonacoEditor/actions.js:28 | a name ending in `class` keeps its first length-5 characters and gains `java`; any other name is unchanged |
| Resources.JdtNameOfClassFile | app/components/MonacoEditor/actions.js:28 | `<stem>class` is named `<stem>java` (so `Foo.class` is shown as `Foo.java`) |
| Resources.SyntheticTabId | app/components/MonacoEditor/actions.js:29 | the id starts with `fake_` and dropping that prefix gives back the name |
| Resources.SyntheticTabIdInjective | app/components/MonacoEditor/actions.js:57 | two names share a synthetic id exactly when they are equal |
| Resources.JdtFetchUri | app/components/MonacoEditor/actions.js:30-35 | a set, non-empty `_formatted` is used; otherwise `toString()` |
| Resources.IndexOf | app/components/MonacoEditor/actions.js:55 | the position found holds the pattern and no earlier position does; absent means the pattern occurs nowhere |
| Resources.RemoveFirst | app/components/MonacoEditor/actions.js:55 | no occurrence leaves the string unchanged; otherwise re-inserting the pattern at the first occurrence restores the input |
| Resources.CleanMetadataUri | app/components/MonacoEditor/actions.js:55 | a decoded text holding neither literal is unchanged; one holding `[metadata] ` loses at least its length; in all cases the text shrinks by 0, one literal or both |
| Resources.CleanMetadataUriStripsPrefixes | app/components/MonacoEditor/actions.js:55 | `omnisharp-metadata://[metadata] <rest>` is reduced to `<rest>` for every `<rest>` |
| Resources.RelativePath | app/components/MonacoEditor/actions.js:77 | under the root, root + relative path == path; the result is a suffix of the path, of length `max(0, |path| - |root|)` |
| Resources.DebuggerRelativePath | app/components/MonacoEditor/actions.js:145 | a `file://<root>` path or a root path loses exactly that prefix; any `file://` path loses `|file://| + |root|` characters; any other path loses `|root|` characters, as `RelativePath` does |
| Resources.WorkspaceRoot | app/components/MonacoEditor/actions.js:18 | the root is `/data/coding-ide-home/workspace/` + key + `/working-dir`, and the key is recovered from between the fixed parts |
| Resources.InitWorkspace | app/components/MonacoEditor/actions.js:17-19 | with a space key the root is set from it; without one the configuration is unchanged |
| Resources.InitWorkspaceIdempotent | app/components/MonacoEditor/actions.js:17-19 | running the initialisation twice equals running it once |
| LanguageClients.CreateClient | app/components/MonacoEditor/actions.js:99-107 | refused exactly when a live client exists or the language is unsupported, and then the map is unchanged; otherwise a new live client of that language, numbered by the given serial, fills the slot and other slots are kept |
| LanguageClients.ReplayKeepsWellFormed | app/components/MonacoEditor/actions.js:105-106 | after any sequence of creates and closures, each slot holds a client of its own language and only supported languages have slots |
| LanguageClients.LiveClientIsNeverReplaced | app/components/MonacoEditor/actions.js:100-103 | a live client stays in its slot, as the same client object (same serial), through any events that do not close it |
| LanguageClients.SecondCreateRefused | app/components/MonacoEditor/actions.js:100-103 | after a successful create, the created client keeps its slot and every later create for that language is refused until its client's connection closes |
| Tabs.RecordWhere | app/components/MonacoEditor/actions.js:151-185 | the ids are kept; each selected tab receives the call once; every other tab is unchanged; a tab changes exactly when it is selected |
| Tabs.ScanChangesExactlyTheMatching | app/components/MonacoEditor/actions.js:161-172 | the set of changed tabs equals the set of matching tabs, so N tabs with M matches change exactly M |
| Navigation.Materialize | app/components/MonacoEditor/actions.js:36-53 | an open synthetic tab is only activated, with no call; an error is thrown exactly when the tab is absent and no client exists, and then nothing changes and no call is made; otherwise exactly the one fetch is issued; the table changes only by the new read-only tab after a successful fetch with options, and then that tab exists |
| Navigation.GoToDefinition | app/components/MonacoEditor/actions.js:21-89 | in-memory is refused (and only it), with nothing changed; an open synthetic tab is only activated, with no call; a real path makes one `openFile` call with the root-relative path; an error is thrown exactly when a fetch is needed and no main-language client exists, and then nothing changes and no call is made; open tabs are never altered, and the only possible new tab is the synthetic one, after a successful fetch |
| Navigation.CreatedAfterFetch | app/components/MonacoEditor/actions.js:39-73 | a successful fetch creates exactly tab `fake_<name>`: read-only, the fetched content, the request's selection, file path `name` (jdt) or `toString()` (omnisharp); the fetch used the scheme's URI rule |
| Navigation.FetchFailureCreatesNothing | app/components/MonacoEditor/actions.js:39-52 | a failed fetch leaves the tab table as it was |
| Navigation.DefinitionTwiceFetchesOnce | app/components/MonacoEditor/actions.js:36-38 | when the synthetic tab is in the table after a first request, a second only activates it with no call, and the two together fetch at most once |
| Navigation.JdtClassName | app/components/MonacoEditor/actions.js:27-28 | a jdt resource at `<dir>/Foo.class` is named `Foo.java` |
| Navigation.JdtClassScenario | app/components/MonacoEditor/actions.js:26-53 | `<dir>/Foo.class` with no open tab is fetched once into a new read-only tab `fake_Foo.java`, and a second request only activates it |
| Navigation.MetadataScenario | app/components/MonacoEditor/actions.js:54-75 | a decoded `omnisharp-metadata://[metadata] <rest>` is fetched as `<rest>`, and the new tab's file path is the undecoded text |
| Navigation.GoToDefinitionForDebugger | app/components/MonacoEditor/actions.js:109-149 | a jdt path with an open editor tab stamps it, activates it and resolves its id without a fetch; whenever a jdt jump resolves, its tab is in the table with debug set, the frame's line and stop reason; only a fetch by `path` is ever issued; without an open editor tab and with a client, that fetch is issued, and success creates the debug tab and resolves `fake_<name>` while failure leaves the table and the promise pending; other tabs are kept; other paths make one `openFile` call with the relative path and change no tab; rejection happens exactly when a fetch is needed without a client, and then nothing changes and no call is made |
| Navigation.StampDebug | app/components/MonacoEditor/actions.js:117-122 | the stamped tab has debug set, the frame's line and stop reason and one more debug-decoration request; its title and every other editor field are kept |
| Navigation.DebuggerCreatedAfterFetch | app/components/MonacoEditor/actions.js:125-141 | with no open editor tab and a client, exactly `fetchJavaClassContent({uri: path})` is issued; on success the only new or changed tab is `fake_<name>`, titled `name`, read-only, with the fetched content, `filePath: path`, `debug: true`, the frame's line and stop reason, and the promise resolves with its id; on failure nothing changes and the promise stays pending |
| Navigation.DebuggerReentryKeepsContent | app/components/MonacoEditor/actions.js:115-123 | re-entering an open virtual file activates it and resolves its id with no fetch; its title, content, read-only flag, file path, selection and model are kept, debug is set with the new line and stop reason, one debug-decoration request is added, and no other tab changes |
| Navigation.ResolveDebuggerExpression | app/components/MonacoEditor/actions.js:195-212 | rejects with null exactly when the resolved id is non-empty and absent; requests a view zone exactly when the resolved tab exists with an editor, changing only that tab; otherwise no tab changes |
| Navigation.JdtExpressionNeverRejected | app/components/MonacoEditor/actions.js:195-212 | for a jdt frame the request is never rejected, and a view zone is requested exactly when the tab was open with an editor or the fetch succeeded |
| MonacoActions.Session.InitWorkspace | app/components/MonacoEditor/actions.js:17-19 | the configuration becomes `InitWorkspace` of the old one |
| MonacoActions.Session.GetClient | app/components/MonacoEditor/actions.js:100 | `clients.get(language)` finds a client exactly when the slot exists; the client found is of that language, and the language is supported (the registry invariant) |
| MonacoActions.Session.CreateLanguageClient | app/components/MonacoEditor/actions.js:99-107 | the new client map and result are those of `CreateClient` on the old map, with the next serial; the serial counter grows only on creation, so a new client differs from every earlier one; the registry invariant is kept |
| MonacoActions.Session.MaterializeTab | app/components/MonacoEditor/actions.js:36-53 | the tabs, active tab and call log become those `Materialize` gives for the old state |
| MonacoActions.Session.ToDefinition | app/components/MonacoEditor/actions.js:21-89 | the tabs, active tab, call log and result are those `GoToDefinition` gives for the old state |
| MonacoActions.Session.ToDefinitionForDebugger | app/components/MonacoEditor/actions.js:109-149 | the tabs, active tab, call log and result are those `GoToDefinitionForDebugger` gives for the old state |
| MonacoActions.Session.RecordOnSelected | app/components/MonacoEditor/actions.js:154-158 | the loop over all tab ids leaves the table equal to `RecordWhere` of the old table |
| MonacoActions.Session.ClearDeltaDecorations | app/components/MonacoEditor/actions.js:151-159 | every tab with an editor receives one clear request, and no other tab changes |
| MonacoActions.Session.SetBreakPoint | app/components/MonacoEditor/actions.js:161-172 | exactly the tabs whose model URI is `params.path` receive the set request |
| MonacoActions.Session.RemoveBreakPoint | app/components/MonacoEditor/actions.js:174-185 | exactly the tabs whose model URI is `params.path` receive the remove request |
| MonacoActions.Session.ResolveAdvancedDebuggerExpression | app/components/MonacoEditor/actions.js:195-212 | the tabs, active tab, call log and result are those `ResolveDebuggerExpression` gives for the old state |

## Left out

- `updateProgressMessage` (lines 187-193): a message cleared by a `setTimeout`; timers and UI state are not modelled.
- `registerAction` wrapping and command dispatch: framework plumbing. Each action is a method or function.
- Promise timing: each action runs to completion in one step, with its fetch already answered. Concurrent requests for the same synthetic id, and their last-write-wins race, are not modelled.
- The language-server transport behind `fetchJavaClassContent` and `fetchOmnisharpMetadata`: each fetch is an outcome parameter.
- How a client becomes `DESTROYED`: that is the client's code, which is not part of this model. The registry lemmas treat it as a `Closed` event.
- `decodeURIComponent`: an uninterpreted parameter. Its percent-decoding and its `URIError` are not modelled.
- The editor's decoration methods (`setDebugDeltaDecorations`, `clearDebugDeltaDecorations`, `setDebuggerBreakPoint`, `removeDebuggerBreakPoint`, `setViewZoneForBreakPoint`): recorded as requests per tab. Their effect, such as breakpoint idempotence, is not modelled.
- The internals of `createTab`, `activate` and `openFile`:
  - `createTab` is a map insert; any activation it performs is not modelled, and it overwrites an entry with the same id.
  - A newly created tab has no editor model attached (`modelUri` absent).
  - `activate()` sets the single active-tab field.
  - The tabs open when a session starts are a parameter of its constructor.
  - The value `openFile` passes to its callback is a parameter.
- Icons: the `icon` field of created tabs is not modelled.
- `TabState.tabs.toJS()`: the scans update the table's entries directly, not a copy. The order of `Object.keys` is not modelled, because each tab's update is independent of the others.
- `config.__WORKSPACE_URI__` before the space key is known: the model's configuration always holds a string root.
- JavaScript string lengths count UTF-16 code units; the model counts Dafny characters.
- `supportLangServer` (from `utils/languages`, not part of this model): the set of supported language ids is a parameter.
