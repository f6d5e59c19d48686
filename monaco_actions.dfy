/**
 * The editor actions as methods on the state they change: the language
 * clients, the tab table, the active tab and the log of calls made to the
 * language server and to `openFile`. Each method is proved against the
 * function of the same behaviour in the Navigation, LanguageClients or Tabs
 * modules, whose properties are proved there.
 */
module MonacoActions {
  import opened Wrappers
  import opened Resources
  import opened LanguageClients
  import opened Tabs
  import opened Navigation

  class Session {
    var config: Config
    /** `LanguageState.clients`. */
    var clients: Registry
    /** The languages of `supportLangServer`. */
    const supported: set<string>
    /** `TabState.tabs`. */
    var tabs: TabTable
    var activeTab: Option<string>
    /** The fetch and `openFile` calls made so far, oldest first. */
    var calls: seq<ExternalCall>
    /** How many client objects have been created; the next one gets this serial. */
    var clientsCreated: nat

    /** Every slot holds a client of its own, supported language, created earlier. */
    ghost predicate Valid()
      reads this
    {
      && WellFormed(clients, supported)
      && forall l :: l in clients ==> clients[l].serial < clientsCreated
    }

    /**
     * A session with no language client yet, over the tabs already open
     * (opened by the user or through `openFile`, each possibly with an
     * editor model attached).
     */
    constructor (config: Config, supported: set<string>, openTabs: TabTable, active: Option<string>)
      ensures Valid()
      ensures this.config == config && this.supported == supported
      ensures clients == map[] && tabs == openTabs && activeTab == active && calls == []
    {
      this.config := config;
      this.supported := supported;
      clients := map[];
      tabs := openTabs;
      activeTab := active;
      calls := [];
      clientsCreated := 0;
    }

    /** Fix the workspace root once the configuration has a space key. */
    method InitWorkspace()
      modifies this`config
      ensures config == Resources.InitWorkspace(old(config))
    {
      if config.spaceKey != [] {
        config := config.(workspaceUri := WorkspaceRoot(config.spaceKey));
      }
    }

    /** `createLanguageClient(language)`. */
    method CreateLanguageClient(language: string) returns (created: bool)
      requires Valid()
      modifies this`clients, this`clientsCreated
      ensures Valid()
      ensures CreateOutcome(clients, created) == CreateClient(old(clients), supported, language, old(clientsCreated))
      ensures clientsCreated == if created then old(clientsCreated) + 1 else old(clientsCreated)
      ensures created ==> forall l :: l in old(clients) ==> clients[language] != old(clients)[l]
    {
      var current := GetClient(language);
      if (current.Some? && !current.value.destroyed) || language !in supported {
        return false;
      }
      clients := clients[language := LanguageClient(language, clientsCreated, false)];
      clientsCreated := clientsCreated + 1;
      created := true;
    }

    /**
     * `LanguageState.clients.get(language)`: the client found is one of that
     * language, and only supported languages have a client.
     */
    method GetClient(language: string) returns (client: Option<LanguageClient>)
      requires Valid()
      ensures client.Some? <==> language in clients
      ensures client.Some? ==> client.value == clients[language] && client.value.language == language && language in supported
    {
      client := if language in clients then Some(clients[language]) else None;
    }

    /** Activate the synthetic tab `fake_<name>`, or fetch its content and create it. */
    method MaterializeTab(hasClient: bool, name: string, filePath: string, request: ExternalCall,
                          options: Option<Options>, fetch: FetchOutcome) returns (r: NavResult)
      modifies this`tabs, this`activeTab, this`calls
      ensures var s := Materialize(hasClient, old(tabs), old(activeTab), name, filePath, request, options, fetch);
        tabs == s.tabs && activeTab == s.active && calls == old(calls) + s.issued && r == s.result
    {
      var id := SyntheticTabId(name);
      if id in tabs {
        activeTab := Some(id);
        return Navigated;
      }
      if !hasClient {
        return Threw(NoLanguageClient);
      }
      calls := calls + [request];
      if fetch.Fetched? && options.Some? {
        tabs := tabs[id := Tab(name, Some(ReadOnlyEditor(fetch.data, filePath, options.value.selection)))];
      }
      r := Navigated;
    }

    /** `toDefinition(params)`. */
    method ToDefinition(params: DefinitionParams, decode: string -> string, fetch: FetchOutcome) returns (r: NavResult)
      requires Valid()
      modifies this`tabs, this`activeTab, this`calls
      ensures var s := GoToDefinition(config, clients, old(tabs), old(activeTab), params, decode, fetch);
        tabs == s.tabs && activeTab == s.active && calls == old(calls) + s.issued && r == s.result
    {
      var resource := params.resource;
      if resource.scheme == INMEMORY {
        return Refused;
      }
      var languageClient := GetClient(config.mainLanguage);
      var hasClient := languageClient.Some?;
      if resource.scheme == JDT {
        var name := JdtName(LastSegment(resource.path));
        r := MaterializeTab(hasClient, name, name, FetchJavaClassContent(JdtFetchUri(resource)), params.options, fetch);
      } else if resource.scheme == CSHARP_METADATA {
        var uri := CleanMetadataUri(decode(resource.text));
        var fileName := LastSegment(resource.path);
        r := MaterializeTab(hasClient, fileName, resource.text, FetchOmnisharpMetadata(uri), params.options, fetch);
      } else {
        var relativePath := RelativePath(resource.path, config.workspaceUri);
        calls := calls + [OpenFile(relativePath, OpenFileEditor(relativePath, SelectionOf(params.options), None, false, None))];
        r := Navigated;
      }
    }

    /** `toDefinitionForDebugger(params)`. */
    method ToDefinitionForDebugger(params: DebugParams, fetch: FetchOutcome, openFileReply: Option<string>)
      returns (r: DebugResult)
      requires Valid()
      modifies this`tabs, this`activeTab, this`calls
      ensures var s := GoToDefinitionForDebugger(config, clients, old(tabs), old(activeTab), params, fetch, openFileReply);
        tabs == s.tabs && activeTab == s.active && calls == old(calls) + s.issued && r == s.result
    {
      if StartsWith(params.path, JDT) {
        var languageClient := GetClient(config.mainLanguage);
        var id := SyntheticTabId(params.name);
        if id in tabs && tabs[id].editorInfo.Some? {
          var editorInfo := tabs[id].editorInfo.value;
          editorInfo := editorInfo.(debug := true, line := Some(params.line), stoppedReason := Some(params.stoppedReason));
          activeTab := Some(id);
          editorInfo := editorInfo.(decorations := editorInfo.decorations + [SetDebugDeltaDecorations]);
          tabs := tabs[id := tabs[id].(editorInfo := Some(editorInfo))];
          return Resolved(id);
        }
        if languageClient.None? {
          return Rejected(NoLanguageClient);
        }
        calls := calls + [FetchJavaClassContent(params.path)];
        match fetch
        case FetchFailed =>
          r := Pending;
        case Fetched(data) =>
          tabs := tabs[id := Tab(params.name, Some(DebugEditor(data, params)))];
          r := Resolved(id);
      } else {
        var relativePath := DebuggerRelativePath(params.path, config.workspaceUri);
        calls := calls + [OpenFile(relativePath, OpenFileEditor(relativePath, None, Some(params.line), true, Some(params.stoppedReason)))];
        r := if openFileReply.Some? then Resolved(openFileReply.value) else Pending;
      }
    }

    /** The `forEach` over all tabs: send `call` to the editor of every tab `sel` selects. */
    method RecordOnSelected(sel: Selector, call: DecorationCall)
      modifies this`tabs
      ensures tabs == RecordWhere(old(tabs), sel, call)
    {
      ghost var start := tabs;
      var pending := tabs.Keys;
      while pending != {}
        invariant pending <= start.Keys == tabs.Keys
        invariant forall id :: id in tabs ==> tabs[id] == if id in pending then start[id] else RecordWhere(start, sel, call)[id]
        decreases pending
      {
        var id :| id in pending;
        if Selects(sel, tabs[id]) {
          tabs := tabs[id := Record(tabs[id], call)];
        }
        pending := pending - {id};
      }
    }

    /** `cleardeltaDecorations()`: every tab with an editor clears its debug decorations. */
    method ClearDeltaDecorations()
      modifies this`tabs
      ensures tabs == RecordWhere(old(tabs), WithEditor, ClearDebugDeltaDecorations)
    {
      RecordOnSelected(WithEditor, ClearDebugDeltaDecorations);
    }

    /** `setBreakPoint(params)`: the editors showing `params.path` set the breakpoint. */
    method SetBreakPoint(params: BreakpointParams)
      modifies this`tabs
      ensures tabs == RecordWhere(old(tabs), ShowingPath(params.path), SetDebuggerBreakPoint(params))
    {
      RecordOnSelected(ShowingPath(params.path), SetDebuggerBreakPoint(params));
    }

    /** `removeBreakPoint(params)`: the editors showing `params.path` remove the breakpoint. */
    method RemoveBreakPoint(params: BreakpointParams)
      modifies this`tabs
      ensures tabs == RecordWhere(old(tabs), ShowingPath(params.path), RemoveDebuggerBreakPoint(params))
    {
      RecordOnSelected(ShowingPath(params.path), RemoveDebuggerBreakPoint(params));
    }

    /** `resolveAdvancedDebuggerExpression(params)`. */
    method ResolveAdvancedDebuggerExpression(params: DebugParams, fetch: FetchOutcome, openFileReply: Option<string>)
      returns (r: ExpressionResult)
      requires Valid()
      modifies this`tabs, this`activeTab, this`calls
      ensures var s := ResolveDebuggerExpression(config, clients, old(tabs), old(activeTab), params, fetch, openFileReply);
        tabs == s.tabs && activeTab == s.active && calls == old(calls) + s.issued && r == s.result
    {
      var navigated := ToDefinitionForDebugger(params, fetch, openFileReply);
      if !navigated.Resolved? || navigated.tabId == [] {
        return NeverSettles;
      }
      var tabId := navigated.tabId;
      if tabId !in tabs {
        return RejectedNull;
      }
      if tabs[tabId].editorInfo.None? {
        return NeverSettles;
      }
      tabs := tabs[tabId := Record(tabs[tabId], SetViewZoneForBreakPoint(params))];
      r := ViewZoneRequested;
    }
  }
}
