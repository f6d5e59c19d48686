/**
 * The open-tab table as the navigation and debugger actions see it, and the
 * specification of the three scans that push decoration changes to the tabs.
 */
module Tabs {
  import opened Wrappers

  datatype Selection = Selection(startLine: int, startColumn: int, endLine: int, endColumn: int)

  /** The parameters of a breakpoint event; only `path` is read here, the rest is forwarded. */
  datatype BreakpointParams = BreakpointParams(path: string, line: int)

  /** A stack-frame jump from the debugger. */
  datatype DebugParams = DebugParams(path: string, line: int, name: string, stoppedReason: string)

  /** The decoration requests made to a tab's editor; their effect is the editor's business. */
  datatype DecorationCall =
    | SetDebugDeltaDecorations
    | ClearDebugDeltaDecorations
    | SetDebuggerBreakPoint(bp: BreakpointParams)
    | RemoveDebuggerBreakPoint(bp: BreakpointParams)
    | SetViewZoneForBreakPoint(params: DebugParams)

  /**
   * A tab's `editorInfo`: the content and display options the tab was created
   * with, the debug fields, the `model.uri.toString()` of an attached model
   * (absent when no model is attached) and the decoration requests received.
   */
  datatype EditorInfo = EditorInfo(
    content: string,
    readOnly: bool,
    filePath: string,
    selection: Option<Selection>,
    debug: bool,
    line: Option<int>,
    stoppedReason: Option<string>,
    modelUri: Option<string>,
    decorations: seq<DecorationCall>)

  datatype Tab = Tab(title: string, editorInfo: Option<EditorInfo>)

  /** `TabState.tabs`, keyed by tab id. */
  type TabTable = map<string, Tab>

  /** Which tabs a scan acts on. */
  datatype Selector =
    | WithEditor             // every tab that has an editorInfo
    | ShowingPath(path: string) // tabs whose editor model's URI is `path`

  predicate Selects(sel: Selector, tab: Tab) {
    match sel
    case WithEditor => tab.editorInfo.Some?
    case ShowingPath(p) => tab.editorInfo.Some? && tab.editorInfo.value.modelUri == Some(p)
  }

  /** The tab after its editor received `call`. */
  function Record(tab: Tab, call: DecorationCall): (t: Tab)
    requires tab.editorInfo.Some?
    ensures t.editorInfo.Some? && t.title == tab.title
    ensures t.editorInfo.value.decorations == tab.editorInfo.value.decorations + [call]
    ensures t.editorInfo.value.(decorations := []) == tab.editorInfo.value.(decorations := [])
  {
    tab.(editorInfo := Some(tab.editorInfo.value.(decorations := tab.editorInfo.value.decorations + [call])))
  }

  /**
   * The table after a scan sends `call` to the editor of every selected
   * tab: the selected tabs, and only they, receive the call once; the table's
   * ids and every other tab stay as they were.
   */
  function RecordWhere(tabs: TabTable, sel: Selector, call: DecorationCall): (r: TabTable)
    ensures r.Keys == tabs.Keys
    ensures forall id :: id in tabs && !Selects(sel, tabs[id]) ==> r[id] == tabs[id]
    ensures forall id :: id in tabs && Selects(sel, tabs[id]) ==> r[id] == Record(tabs[id], call)
    ensures forall id :: id in tabs ==> (r[id] != tabs[id] <==> Selects(sel, tabs[id]))
  {
    var r := map id | id in tabs :: if Selects(sel, tabs[id]) then Record(tabs[id], call) else tabs[id];
    assert forall id :: id in tabs && Selects(sel, tabs[id]) ==>
      |r[id].editorInfo.value.decorations| != |tabs[id].editorInfo.value.decorations|;
    r
  }

  /** The ids of the tabs that differ between two tables over the same ids. */
  ghost function Changed(before: TabTable, after: TabTable): set<string>
    requires before.Keys == after.Keys
  {
    set id | id in before && after[id] != before[id]
  }

  ghost function Matching(tabs: TabTable, sel: Selector): set<string> {
    set id | id in tabs && Selects(sel, tabs[id])
  }

  /**
   * Given N tabs of which exactly M are selected, a scan changes exactly
   * those M tabs.
   */
  lemma ScanChangesExactlyTheMatching(tabs: TabTable, sel: Selector, call: DecorationCall)
    ensures Changed(tabs, RecordWhere(tabs, sel, call)) == Matching(tabs, sel)
    ensures |Changed(tabs, RecordWhere(tabs, sel, call))| == |Matching(tabs, sel)|
  {
  }
}
