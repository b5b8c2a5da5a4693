/**
 * The tool catalogue: the registered tools in order, the lookups that render
 * a call or its approval prompt, and the registry that dispatches a call to
 * the executor for its tool.
 */
module Tools {
  import opened Wrappers
  import opened ToolTypes
  import opened TerminalHistory
  import HistoryTool
  import MutableTool

  /** Every tool, in the order the model is offered them. */
  const AllTools: seq<TermsterTool> := [HistoryTool.Tool, MutableTool.Tool]

  /** `ALL_TOOLS.map(tool => tool.definition)`. */
  function GetOpenAITools(): (r: seq<FunctionTool>)
    ensures |r| == |AllTools|
    ensures forall i :: 0 <= i < |r| ==> r[i] == AllTools[i].definition
    ensures r == [HistoryTool.Definition, MutableTool.Definition]
  {
    seq(|AllTools|, i requires 0 <= i < |AllTools| => AllTools[i].definition)
  }

  /** `tools.find(t => t.definition.name === name)`, as the index of the first match. */
  function FindIndex(tools: seq<TermsterTool>, name: string): (r: Option<nat>)
    ensures r.Some? ==> r.value < |tools| && tools[r.value].definition.name == name
    ensures r.Some? ==> forall j :: 0 <= j < r.value ==> tools[j].definition.name != name
    ensures r.None? ==> forall j :: 0 <= j < |tools| ==> tools[j].definition.name != name
    decreases |tools|
  {
    if tools == [] then None
    else if tools[0].definition.name == name then Some(0)
    else match FindIndex(tools[1..], name)
      case None => None
      case Some(k) => Some(k + 1)
  }

  /** The catalogue position of each name. */
  lemma CatalogueLookup(name: string)
    ensures FindIndex(AllTools, name) ==
      if name == HistoryTool.ToolName then Some(0)
      else if name == MutableTool.ToolName then Some(1)
      else None
  {
    assert AllTools[0].definition.name == HistoryTool.ToolName;
    assert AllTools[1].definition.name == MutableTool.ToolName;
    assert AllTools[1..][1..] == [];
  }

  /** The summary shown for a call: the tool's own summary, or a notice for an unknown name. */
  function RenderToolCall(name: string, args: ToolArgs): (r: string)
    ensures FindIndex(AllTools, name).None? ==> r == "Unknown tool: " + name
    ensures FindIndex(AllTools, name).Some? ==> r == AllTools[FindIndex(AllTools, name).value].render(args)
  {
    match FindIndex(AllTools, name)
    case None => "Unknown tool: " + name
    case Some(i) => AllTools[i].render(args)
  }

  /** The approval prompt for a call, or why there is none. */
  function RenderToolApproval(name: string, args: ToolArgs): (r: string)
  {
    match FindIndex(AllTools, name)
    case None => "Unknown tool: " + name
    case Some(i) =>
      match AllTools[i].renderApproval
      case None => "Tool '" + name + "' requires approval but has no approval renderer"
      case Some(render) => render(args)
  }

  /** `tool?.requires_approval ?? false`. */
  function ToolRequiresApproval(name: string): bool
  {
    match FindIndex(AllTools, name)
    case None => false
    case Some(i) => AllTools[i].requiresApproval
  }

  /** Each tool renders its own calls, and any other name is reported unknown. */
  lemma RenderToolCallDispatch(name: string, args: ToolArgs)
    ensures RenderToolCall(name, args) ==
      if name == HistoryTool.ToolName then HistoryTool.Render(args)
      else if name == MutableTool.ToolName then MutableTool.Render(args)
      else "Unknown tool: " + name
  {
    CatalogueLookup(name);
  }

  /**
   * Only the mutable-command tool has an approval prompt; asking for the
   * history tool's gives the missing-renderer notice.
   */
  lemma RenderToolApprovalDispatch(name: string, args: ToolArgs)
    ensures RenderToolApproval(name, args) ==
      if name == MutableTool.ToolName then MutableTool.RenderApproval(args)
      else if name == HistoryTool.ToolName then
        "Tool '" + HistoryTool.ToolName + "' requires approval but has no approval renderer"
      else "Unknown tool: " + name
  {
    CatalogueLookup(name);
    if name == MutableTool.ToolName {
      assert AllTools[1].renderApproval.Some?;
    } else if name == HistoryTool.ToolName {
      assert AllTools[0].renderApproval.None?;
    }
  }

  /** A call needs approval exactly when it runs a mutable command. */
  lemma RequiresApprovalExactly(name: string)
    ensures ToolRequiresApproval(name) <==> name == MutableTool.ToolName
  {
    CatalogueLookup(name);
  }

  /**
   * The registry: the history executor exists only when a history service was
   * given; the mutable-command executor always exists, with or without a
   * terminal executor.
   */
  datatype ToolRegistry = ToolRegistry(
    historyService: Option<TerminalHistoryService>,
    terminalExecutor: Option<TerminalExecutor>)
  {
    /** Dispatches a call by name; every failure is reported, none is thrown. */
    function Execute(name: string, args: ToolArgs): (r: ToolExecutionResult)
      reads if historyService.Some? then {historyService.value} else {}
      ensures WellFormed(r)
      ensures name == HistoryTool.ToolName && historyService.None? ==>
        r == Failure("Terminal history service not available")
      ensures name == HistoryTool.ToolName && historyService.Some? ==>
        r == HistoryTool.ReadTerminalHistory(historyService.value, args)
      ensures name == MutableTool.ToolName ==>
        r == MutableTool.ExecuteMutableCommand(args, terminalExecutor)
      ensures name != HistoryTool.ToolName && name != MutableTool.ToolName ==>
        r == Failure("Unknown tool: " + name)
    {
      if name == HistoryTool.ToolName then
        match historyService
        case None => Failure("Terminal history service not available")
        case Some(service) => HistoryTool.Execute(service, name, args)
      else if name == MutableTool.ToolName then
        MutableTool.Execute(name, args, terminalExecutor)
      else
        Failure("Unknown tool: " + name)
    }
  }

  /**
   * The registry and the catalogue agree: a name the registry runs is a
   * registered tool, and an unregistered name fails as unknown.
   */
  lemma RegistryMatchesCatalogue(registry: ToolRegistry, name: string, args: ToolArgs)
    ensures FindIndex(AllTools, name).None? ==>
      registry.Execute(name, args) == Failure("Unknown tool: " + name)
    ensures registry.Execute(name, args).success ==> FindIndex(AllTools, name).Some?
  {
    CatalogueLookup(name);
  }
}
