/**
 * Go-to-definition and debugger navigation, as functions from the current
 * tables to the tables afterwards, the external calls issued and the result
 * the action delivers. The calls happen in sequence: a fetch completes (or
 * fails) before the next action starts.
 */
module Navigation {
  import opened Wrappers
  import opened Resources
  import opened LanguageClients
  import opened Tabs

  datatype Options = Options(selection: Option<Selection>)

  /** The parameters of `toDefinition`: the target resource and the optional `options`. */
  datatype DefinitionParams = DefinitionParams(resource: Resource, options: Option<Options>)

  /** What a content fetch through the language client comes back with. */
  datatype FetchOutcome = Fetched(data: string) | FetchFailed

  /** The `editor` part of an `openFile` request. */
  datatype OpenFileEditor = OpenFileEditor(
    filePath: string, selection: Option<Selection>, line: Option<int>, debug: bool, stoppedReason: Option<string>)

  /** The calls made to collaborators: the two language-server fetches and `openFile`. */
  datatype ExternalCall =
    | FetchJavaClassContent(uri: string)
    | FetchOmnisharpMetadata(uri: string)
    | OpenFile(path: string, editor: OpenFileEditor)

  predicate IsFetch(c: ExternalCall) {
    c.FetchJavaClassContent? || c.FetchOmnisharpMetadata?
  }

  /** The only error raised here: a fetch through a main-language client that does not exist. */
  datatype ActionError = NoLanguageClient

  /**
   * The outcome of `toDefinition`: `false`, a promise of a navigation handle
   * whose `getControl()` yields null, or an exception.
   */
  datatype NavResult = Refused | Navigated | Threw(error: ActionError)

  /** What the promise of `toDefinitionForDebugger` does: resolve with a tab id, reject, or never settle. */
  datatype DebugResult = Resolved(tabId: string) | Rejected(error: ActionError) | Pending

  /** What the promise of `resolveAdvancedDebuggerExpression` does. */
  datatype ExpressionResult = ViewZoneRequested | RejectedNull | NeverSettles

  /** One action's effect: the new tab table, the active tab, the calls issued, the result. */
  datatype Step<R> = Step(tabs: TabTable, active: Option<string>, issued: seq<ExternalCall>, result: R)

  /** `params.options && params.options.selection`. */
  function SelectionOf(options: Option<Options>): Option<Selection> {
    if options.Some? then options.value.selection else None
  }

  predicate IsVirtual(r: Resource) {
    Classify(r.scheme) == Jdt || Classify(r.scheme) == OmnisharpMetadata
  }

  /** The display name of a virtual resource; its synthetic tab id is `fake_` followed by it. */
  function VirtualName(r: Resource): (name: string)
    requires IsVirtual(r)
    ensures '/' !in name
  {
    if Classify(r.scheme) == Jdt then JdtName(LastSegment(r.path)) else LastSegment(r.path)
  }

  /** The file path recorded in the tab created for a virtual resource. */
  function VirtualFilePath(r: Resource): string
    requires IsVirtual(r)
  {
    if Classify(r.scheme) == Jdt then VirtualName(r) else r.text
  }

  /** The fetch issued for a virtual resource, with the URI its language server expects. */
  function VirtualFetch(r: Resource, decode: string -> string): (c: ExternalCall)
    requires IsVirtual(r)
    ensures IsFetch(c)
  {
    if Classify(r.scheme) == Jdt then FetchJavaClassContent(JdtFetchUri(r))
    else FetchOmnisharpMetadata(CleanMetadataUri(decode(r.text)))
  }

  function ReadOnlyEditor(content: string, filePath: string, selection: Option<Selection>): EditorInfo {
    EditorInfo(content, true, filePath, selection, false, None, None, None, [])
  }

  /**
   * Reuse or create the synthetic tab of a virtual resource: an open tab with
   * the id is activated; otherwise the content is fetched through the main
   * language's client and, once it arrives, becomes a new read-only tab.
   */
  function Materialize(hasClient: bool, tabs: TabTable, active: Option<string>, name: string, filePath: string,
                       request: ExternalCall, options: Option<Options>, fetch: FetchOutcome): (s: Step<NavResult>)
    ensures var id := SyntheticTabId(name);
      && (id in tabs ==> s == Step(tabs, Some(id), [], Navigated))
      && (s.result.Threw? <==> id !in tabs && !hasClient)
      && (s.result.Threw? ==> s.tabs == tabs && s.active == active && s.issued == [])
      && (id !in tabs && hasClient ==> s.issued == [request] && s.active == active && s.result == Navigated)
      && (s.tabs != tabs ==>
            && fetch.Fetched? && options.Some? && id !in tabs
            && s.tabs == tabs[id := Tab(name, Some(ReadOnlyEditor(fetch.data, filePath, options.value.selection)))])
      && (id !in tabs && hasClient && fetch.Fetched? && options.Some? ==> id in s.tabs)
  {
    var id := SyntheticTabId(name);
    if id in tabs then Step(tabs, Some(id), [], Navigated)
    else if !hasClient then Step(tabs, active, [], Threw(NoLanguageClient))
    else match fetch
      case FetchFailed => Step(tabs, active, [request], Navigated)
      case Fetched(data) =>
        // Without `options`, reading `params.options.selection` throws inside the fetch callback.
        if options.None? then Step(tabs, active, [request], Navigated)
        else Step(tabs[id := Tab(name, Some(ReadOnlyEditor(data, filePath, options.value.selection)))],
                  active, [request], Navigated)
  }

  /**
   * `toDefinition`. An in-memory resource is refused with nothing changed;
   * a virtual resource whose synthetic tab is open only activates it; a real
   * path makes exactly one `openFile` call with the workspace-relative path.
   * No open tab is ever altered: at most the synthetic tab is added, and only
   * after a fetch that the open table did not make unnecessary.
   */
  function GoToDefinition(cfg: Config, clients: Registry, tabs: TabTable, active: Option<string>,
                          params: DefinitionParams, decode: string -> string, fetch: FetchOutcome): (s: Step<NavResult>)
    ensures s.result == Refused <==> params.resource.scheme == INMEMORY
    ensures s.result == Refused ==> s == Step(tabs, active, [], Refused)
    ensures IsVirtual(params.resource) && SyntheticTabId(VirtualName(params.resource)) in tabs ==>
      s == Step(tabs, Some(SyntheticTabId(VirtualName(params.resource))), [], Navigated)
    ensures Classify(params.resource.scheme) == RealPath ==>
      var rel := RelativePath(params.resource.path, cfg.workspaceUri);
      && s == Step(tabs, active, [OpenFile(rel, OpenFileEditor(rel, SelectionOf(params.options), None, false, None))], Navigated)
      && (StartsWith(params.resource.path, cfg.workspaceUri) ==> cfg.workspaceUri + rel == params.resource.path)
    ensures s.result.Threw? <==>
      IsVirtual(params.resource) && SyntheticTabId(VirtualName(params.resource)) !in tabs && cfg.mainLanguage !in clients
    ensures s.result.Threw? ==> s.tabs == tabs && s.active == active && s.issued == []
    ensures |s.issued| <= 1
    ensures s.tabs.Keys >= tabs.Keys && forall id :: id in tabs ==> s.tabs[id] == tabs[id]
    ensures s.tabs != tabs ==>
      && IsVirtual(params.resource)
      && fetch.Fetched?
      && s.issued == [VirtualFetch(params.resource, decode)]
      && s.tabs.Keys == tabs.Keys + {SyntheticTabId(VirtualName(params.resource))}
  {
    var res := params.resource;
    var hasClient := cfg.mainLanguage in clients;
    match Classify(res.scheme)
    case InMemory => Step(tabs, active, [], Refused)
    case Jdt =>
      Materialize(hasClient, tabs, active, VirtualName(res), VirtualFilePath(res), VirtualFetch(res, decode), params.options, fetch)
    case OmnisharpMetadata =>
      Materialize(hasClient, tabs, active, VirtualName(res), VirtualFilePath(res), VirtualFetch(res, decode), params.options, fetch)
    case RealPath =>
      var rel := RelativePath(res.path, cfg.workspaceUri);
      Step(tabs, active, [OpenFile(rel, OpenFileEditor(rel, SelectionOf(params.options), None, false, None))], Navigated)
  }

  /**
   * A successful fetch for a virtual resource with no open synthetic tab
   * creates exactly that tab: id `fake_<name>`, title `name`, read-only,
   * the fetched content, the request's selection, and as file path the name
   * (jdt) or the resource's text (omnisharp). The fetch asked for the
   * resource's formatted URI (jdt) or its cleaned decoded URI (omnisharp).
   */
  lemma CreatedAfterFetch(cfg: Config, clients: Registry, tabs: TabTable, active: Option<string>,
                          params: DefinitionParams, decode: string -> string, data: string)
    requires IsVirtual(params.resource) && params.options.Some?
    requires SyntheticTabId(VirtualName(params.resource)) !in tabs
    requires cfg.mainLanguage in clients
    ensures var s := GoToDefinition(cfg, clients, tabs, active, params, decode, Fetched(data));
      var res := params.resource;
      var name := VirtualName(res);
      var id := SyntheticTabId(name);
      && s.result == Navigated
      && s.active == active
      && s.issued == [if Classify(res.scheme) == Jdt then FetchJavaClassContent(JdtFetchUri(res))
                      else FetchOmnisharpMetadata(CleanMetadataUri(decode(res.text)))]
      && s.tabs.Keys == tabs.Keys + {id}
      && s.tabs[id].title == name
      && s.tabs[id].editorInfo.Some?
      && var ei := s.tabs[id].editorInfo.value;
         && ei.readOnly && !ei.debug
         && ei.content == data
         && ei.selection == params.options.value.selection
         && ei.filePath == (if Classify(res.scheme) == Jdt then name else res.text)
  {
  }

  /** A failed fetch creates nothing and activates nothing; the action still delivers its handle. */
  lemma FetchFailureCreatesNothing(cfg: Config, clients: Registry, tabs: TabTable, active: Option<string>,
                                   params: DefinitionParams, decode: string -> string)
    requires IsVirtual(params.resource)
    ensures var s := GoToDefinition(cfg, clients, tabs, active, params, decode, FetchFailed);
      s.tabs == tabs && (s.active == active || s.active == Some(SyntheticTabId(VirtualName(params.resource))))
  {
  }

  /** The number of language-server fetches among `calls`. */
  function CountFetches(calls: seq<ExternalCall>): (n: nat)
    ensures n <= |calls|
    ensures n == 0 <==> forall i :: 0 <= i < |calls| ==> !IsFetch(calls[i])
  {
    if calls == [] then 0 else (if IsFetch(calls[0]) then 1 else 0) + CountFetches(calls[1..])
  }

  /**
   * Idempotent materialization: resolving the same virtual resource twice,
   * with the synthetic tab in the table after the first call, fetches at
   * most once overall; the second call only activates the tab.
   */
  lemma DefinitionTwiceFetchesOnce(cfg: Config, clients: Registry, tabs: TabTable, active: Option<string>,
                                   params: DefinitionParams, decode: string -> string,
                                   first: FetchOutcome, second: FetchOutcome)
    requires IsVirtual(params.resource)
    requires SyntheticTabId(VirtualName(params.resource)) in GoToDefinition(cfg, clients, tabs, active, params, decode, first).tabs
    ensures var s1 := GoToDefinition(cfg, clients, tabs, active, params, decode, first);
      var s2 := GoToDefinition(cfg, clients, s1.tabs, s1.active, params, decode, second);
      && s2 == Step(s1.tabs, Some(SyntheticTabId(VirtualName(params.resource))), [], Navigated)
      && CountFetches(s1.issued + s2.issued) <= 1
  {
  }

  /** A jdt resource at `<dir>/Foo.class` is named `Foo.java`. */
  lemma JdtClassName(dir: string, formatted: Option<string>, text: string)
    ensures VirtualName(Resource(JDT, dir + "/Foo.class", formatted, text)) == "Foo.java"
  {
    var r := Resource(JDT, dir + "/Foo.class", formatted, text);
    assert Classify(r.scheme) == Jdt;
    LastSegmentOfJoin(dir, "Foo.class");
    assert dir + "/" + "Foo.class" == dir + "/Foo.class";
    assert LastSegment(r.path) == "Foo.class";
    JdtNameOfClassFile("Foo.");
    assert "Foo." + "class" == "Foo.class";
    assert JdtName("Foo.class") == "Foo." + "java";
    assert "Foo." + "java" == "Foo.java";
  }

  /**
   * The scenario of a decompiled class: a jdt resource at `<dir>/Foo.class`
   * with no open `fake_Foo.java` tab is fetched once and shown in a new
   * read-only tab `fake_Foo.java`; a second request for it only activates that tab.
   */
  lemma JdtClassScenario(cfg: Config, clients: Registry, tabs: TabTable, active: Option<string>,
                         dir: string, formatted: Option<string>, text: string, options: Options,
                         decode: string -> string, data: string, later: FetchOutcome)
    requires "fake_Foo.java" !in tabs && cfg.mainLanguage in clients
    ensures var params := DefinitionParams(Resource(JDT, dir + "/Foo.class", formatted, text), Some(options));
      var s1 := GoToDefinition(cfg, clients, tabs, active, params, decode, Fetched(data));
      var s2 := GoToDefinition(cfg, clients, s1.tabs, s1.active, params, decode, later);
      && s1.tabs.Keys == tabs.Keys + {"fake_Foo.java"}
      && s1.tabs["fake_Foo.java"].editorInfo.Some?
      && s1.tabs["fake_Foo.java"].editorInfo.value.readOnly
      && s1.issued == [FetchJavaClassContent(JdtFetchUri(params.resource))]
      && s2 == Step(s1.tabs, Some("fake_Foo.java"), [], Navigated)
  {
    var params := DefinitionParams(Resource(JDT, dir + "/Foo.class", formatted, text), Some(options));
    JdtClassName(dir, formatted, text);
    assert SyntheticTabId("Foo.java") == "fake_Foo.java";
    CreatedAfterFetch(cfg, clients, tabs, active, params, decode, data);
    DefinitionTwiceFetchesOnce(cfg, clients, tabs, active, params, decode, Fetched(data), later);
  }

  /**
   * The scenario of generated C# metadata: when the decoded text is
   * `omnisharp-metadata://[metadata] <rest>`, the metadata fetch asks for
   * `<rest>` and the new tab keeps the undecoded text as its file path.
   */
  lemma MetadataScenario(cfg: Config, clients: Registry, tabs: TabTable, active: Option<string>,
                         params: DefinitionParams, decode: string -> string, rest: string, data: string)
    requires params.resource.scheme == CSHARP_METADATA && params.options.Some?
    requires decode(params.resource.text) == METADATA_SCHEME_PREFIX + METADATA_MARKER + rest
    requires SyntheticTabId(LastSegment(params.resource.path)) !in tabs && cfg.mainLanguage in clients
    ensures var s := GoToDefinition(cfg, clients, tabs, active, params, decode, Fetched(data));
      var id := SyntheticTabId(LastSegment(params.resource.path));
      && s.issued == [FetchOmnisharpMetadata(rest)]
      && id in s.tabs && s.tabs[id].editorInfo.Some?
      && s.tabs[id].editorInfo.value.filePath == params.resource.text
  {
    CleanMetadataUriStripsPrefixes(rest);
    CreatedAfterFetch(cfg, clients, tabs, active, params, decode, data);
  }

  /**
   * The tab of a debugger jump after its editor is stamped with the frame's
   * line and stop reason and asked to draw the debug decorations; the title
   * and every other editor field are kept.
   */
  function StampDebug(tab: Tab, params: DebugParams): (t: Tab)
    requires tab.editorInfo.Some?
    ensures IsDebugStamped(t, params) && t.title == tab.title
    ensures var before := tab.editorInfo.value;
      var after := t.editorInfo.value;
      && after.(debug := false, line := None, stoppedReason := None, decorations := [])
         == before.(debug := false, line := None, stoppedReason := None, decorations := [])
      && after.decorations == before.decorations + [SetDebugDeltaDecorations]
  {
    var ei := tab.editorInfo.value;
    tab.(editorInfo := Some(ei.(debug := true, line := Some(params.line), stoppedReason := Some(params.stoppedReason),
                                decorations := ei.decorations + [SetDebugDeltaDecorations])))
  }

  function DebugEditor(content: string, params: DebugParams): EditorInfo {
    EditorInfo(content, true, params.path, None, true, Some(params.line), Some(params.stoppedReason), None, [])
  }

  predicate IsDebugStamped(tab: Tab, params: DebugParams) {
    && tab.editorInfo.Some?
    && tab.editorInfo.value.debug
    && tab.editorInfo.value.line == Some(params.line)
    && tab.editorInfo.value.stoppedReason == Some(params.stoppedReason)
  }

  /**
   * `toDefinitionForDebugger`. For a `jdt` path an open editor tab
   * `fake_<name>` is stamped with the debug fields, activated and resolved
   * without a fetch; otherwise the class content is fetched by `path` and a
   * read-only debug tab is created. Any other path goes to `openFile`,
   * relative to the workspace root, and the promise settles as `openFile`'s
   * callback decides (`openFileReply`, absent when it never calls back).
   */
  function GoToDefinitionForDebugger(cfg: Config, clients: Registry, tabs: TabTable, active: Option<string>,
                                     params: DebugParams, fetch: FetchOutcome, openFileReply: Option<string>)
    : (s: Step<DebugResult>)
    ensures StartsWith(params.path, JDT) ==>
      var id := SyntheticTabId(params.name);
      && (id in tabs && tabs[id].editorInfo.Some? ==>
            s == Step(tabs[id := StampDebug(tabs[id], params)], Some(id), [], Resolved(id)))
      && (s.result.Resolved? ==> s.result.tabId == id && id in s.tabs && IsDebugStamped(s.tabs[id], params))
      && (s.issued != [] ==> s.issued == [FetchJavaClassContent(params.path)])
      && (!(id in tabs && tabs[id].editorInfo.Some?) && cfg.mainLanguage in clients ==>
            && s.issued == [FetchJavaClassContent(params.path)]
            && s.active == active
            && (fetch.Fetched? ==> s.result == Resolved(id) && s.tabs == tabs[id := Tab(params.name, Some(DebugEditor(fetch.data, params)))])
            && (fetch.FetchFailed? ==> s.result == Pending && s.tabs == tabs))
      && tabs.Keys <= s.tabs.Keys <= tabs.Keys + {id}
      && (forall other :: other in tabs && other != id ==> s.tabs[other] == tabs[other])
    ensures !StartsWith(params.path, JDT) ==>
      var rel := DebuggerRelativePath(params.path, cfg.workspaceUri);
      && s.tabs == tabs && s.active == active
      && s.issued == [OpenFile(rel, OpenFileEditor(rel, None, Some(params.line), true, Some(params.stoppedReason)))]
      && s.result == (if openFileReply.Some? then Resolved(openFileReply.value) else Pending)
    ensures s.result.Rejected? <==>
      StartsWith(params.path, JDT) && cfg.mainLanguage !in clients &&
      !(SyntheticTabId(params.name) in tabs && tabs[SyntheticTabId(params.name)].editorInfo.Some?)
    ensures s.result.Rejected? ==> s.tabs == tabs && s.active == active && s.issued == []
  {
    if StartsWith(params.path, JDT) then
      var id := SyntheticTabId(params.name);
      if id in tabs && tabs[id].editorInfo.Some? then
        Step(tabs[id := StampDebug(tabs[id], params)], Some(id), [], Resolved(id))
      else if cfg.mainLanguage !in clients then
        Step(tabs, active, [], Rejected(NoLanguageClient))
      else
        match fetch
        case FetchFailed => Step(tabs, active, [FetchJavaClassContent(params.path)], Pending)
        case Fetched(data) =>
          Step(tabs[id := Tab(params.name, Some(DebugEditor(data, params)))], active,
               [FetchJavaClassContent(params.path)], Resolved(id))
    else
      var rel := DebuggerRelativePath(params.path, cfg.workspaceUri);
      Step(tabs, active, [OpenFile(rel, OpenFileEditor(rel, None, Some(params.line), true, Some(params.stoppedReason)))],
           if openFileReply.Some? then Resolved(openFileReply.value) else Pending)
  }

  /**
   * A debugger jump into a jdt class with no open editor tab fetches the
   * class by its path and, once the content arrives, creates tab
   * `fake_<name>`: titled `name`, read-only, the fetched content, file path
   * `path`, debug set with the frame's line and stop reason, and resolves
   * with its id. A failed fetch creates nothing and leaves the promise
   * unsettled.
   */
  lemma DebuggerCreatedAfterFetch(cfg: Config, clients: Registry, tabs: TabTable, active: Option<string>,
                                  params: DebugParams, fetch: FetchOutcome, openFileReply: Option<string>)
    requires StartsWith(params.path, JDT) && cfg.mainLanguage in clients
    requires !(SyntheticTabId(params.name) in tabs && tabs[SyntheticTabId(params.name)].editorInfo.Some?)
    ensures var s := GoToDefinitionForDebugger(cfg, clients, tabs, active, params, fetch, openFileReply);
      var id := SyntheticTabId(params.name);
      && s.issued == [FetchJavaClassContent(params.path)]
      && s.active == active
      && (fetch.Fetched? ==>
            && s.result == Resolved(id)
            && s.tabs.Keys == tabs.Keys + {id}
            && s.tabs[id] == Tab(params.name, Some(EditorInfo(fetch.data, true, params.path, None, true,
                                                              Some(params.line), Some(params.stoppedReason), None, [])))
            && (forall other :: other in tabs && other != id ==> s.tabs[other] == tabs[other]))
      && (fetch.FetchFailed? ==> s.result == Pending && s.tabs == tabs)
  {
  }

  /**
   * A stopped-frame re-entry into an open virtual file stamps the tab again
   * with the new line and activates it: the title, the content, the
   * selection, the model and the rest of the editor are kept, no other tab
   * changes and no fetch is made.
   */
  lemma DebuggerReentryKeepsContent(cfg: Config, clients: Registry, tabs: TabTable, active: Option<string>,
                                    params: DebugParams, fetch: FetchOutcome, openFileReply: Option<string>)
    requires StartsWith(params.path, JDT)
    requires SyntheticTabId(params.name) in tabs && tabs[SyntheticTabId(params.name)].editorInfo.Some?
    ensures var s := GoToDefinitionForDebugger(cfg, clients, tabs, active, params, fetch, openFileReply);
      var id := SyntheticTabId(params.name);
      var before := tabs[id].editorInfo.value;
      var after := s.tabs[id].editorInfo.value;
      && s.issued == [] && s.active == Some(id) && s.result == Resolved(id)
      && s.tabs.Keys == tabs.Keys
      && (forall other :: other in tabs && other != id ==> s.tabs[other] == tabs[other])
      && s.tabs[id].title == tabs[id].title
      && after.content == before.content && after.readOnly == before.readOnly && after.filePath == before.filePath
      && after.selection == before.selection && after.modelUri == before.modelUri
      && after.debug && after.line == Some(params.line) && after.stoppedReason == Some(params.stoppedReason)
      && after.decorations == before.decorations + [SetDebugDeltaDecorations]
  {
  }

  /**
   * `resolveAdvancedDebuggerExpression`: after the debugger navigation, the
   * tab it resolved with receives a view-zone request; an id missing from
   * the table rejects with null; a falsy id, a tab without editor or a
   * navigation that does not resolve leaves the promise unsettled.
   */
  function ResolveDebuggerExpression(cfg: Config, clients: Registry, tabs: TabTable, active: Option<string>,
                                     params: DebugParams, fetch: FetchOutcome, openFileReply: Option<string>)
    : (s: Step<ExpressionResult>)
    ensures var d := GoToDefinitionForDebugger(cfg, clients, tabs, active, params, fetch, openFileReply);
      && s.active == d.active && s.issued == d.issued && s.tabs.Keys == d.tabs.Keys
      && (s.result == RejectedNull <==> d.result.Resolved? && d.result.tabId != [] && d.result.tabId !in d.tabs)
      && (s.result == ViewZoneRequested <==>
            d.result.Resolved? && d.result.tabId != [] && d.result.tabId in d.tabs
            && d.tabs[d.result.tabId].editorInfo.Some?)
      && (s.result == ViewZoneRequested ==>
            s.tabs == d.tabs[d.result.tabId := Record(d.tabs[d.result.tabId], SetViewZoneForBreakPoint(params))])
      && (s.result != ViewZoneRequested ==> s.tabs == d.tabs)
  {
    var d := GoToDefinitionForDebugger(cfg, clients, tabs, active, params, fetch, openFileReply);
    match d.result
    case Resolved(tabId) =>
      if tabId == [] then Step(d.tabs, d.active, d.issued, NeverSettles)
      else if tabId !in d.tabs then Step(d.tabs, d.active, d.issued, RejectedNull)
      else if d.tabs[tabId].editorInfo.None? then Step(d.tabs, d.active, d.issued, NeverSettles)
      else Step(d.tabs[tabId := Record(d.tabs[tabId], SetViewZoneForBreakPoint(params))], d.active, d.issued, ViewZoneRequested)
    case Rejected(_) => Step(d.tabs, d.active, d.issued, NeverSettles)
    case Pending => Step(d.tabs, d.active, d.issued, NeverSettles)
  }

  /**
   * For a `jdt` frame the expression request is never rejected: whenever the
   * navigation resolves, its tab is in the table with an editor.
   */
  lemma JdtExpressionNeverRejected(cfg: Config, clients: Registry, tabs: TabTable, active: Option<string>,
                                   params: DebugParams, fetch: FetchOutcome, openFileReply: Option<string>)
    requires StartsWith(params.path, JDT)
    ensures var s := ResolveDebuggerExpression(cfg, clients, tabs, active, params, fetch, openFileReply);
      s.result != RejectedNull
      && (s.result == ViewZoneRequested <==>
            (SyntheticTabId(params.name) in tabs && tabs[SyntheticTabId(params.name)].editorInfo.Some?)
            || (cfg.mainLanguage in clients && fetch.Fetched?))
  {
  }
}
