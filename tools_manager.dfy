/**
 * Tool selection for the agents and what each tool closure returns
 * (mcp/app/providers/tools_manager.py). A tool is named by a `ToolName`;
 * its closure is modelled by the value it returns, with the backend call,
 * `json.loads` and `json.dumps` as inputs.
 */
module ToolsManager {
  import opened Wrappers
  import opened Json

  datatype ToolName = GetRunningActivities | GetMonthlyActivitySummary | GetSchedules | UpdateSchedule

  /** The tool's `name`, which is also its key in `tool_creators`. */
  function NameOf(t: ToolName): string {
    match t
    case GetRunningActivities => "GetRunningActivities"
    case GetMonthlyActivitySummary => "GetMonthlyActivitySummary"
    case GetSchedules => "GetSchedules"
    case UpdateSchedule => "UpdateSchedule"
  }

  /** `tool_creators` in its insertion order. */
  const AllTools: seq<ToolName> := [GetRunningActivities, GetMonthlyActivitySummary, GetSchedules, UpdateSchedule]

  /** `tool_name in tool_creators`, with the tool it creates. */
  function Creator(name: string): (r: Option<ToolName>)
    ensures r.Some? ==> NameOf(r.value) == name
    ensures forall t: ToolName :: NameOf(t) == name ==> r == Some(t)
  {
    if name == "GetRunningActivities" then Some(GetRunningActivities)
    else if name == "GetMonthlyActivitySummary" then Some(GetMonthlyActivitySummary)
    else if name == "GetSchedules" then Some(GetSchedules)
    else if name == "UpdateSchedule" then Some(UpdateSchedule)
    else None
  }

  /** The requested names that are known, each replaced by its tool, in the order asked for. */
  function Selected(names: seq<string>): seq<ToolName>
    decreases |names|
  {
    if names == [] then []
    else
      var init := Selected(names[..|names| - 1]);
      match Creator(names[|names| - 1])
      case Some(t) => init + [t]
      case None => init
  }

  /** The names `create_tools` walks through: all of `tool_creators` when none are given. */
  function Requested(toolNames: Option<seq<string>>): seq<string> {
    match toolNames
    case Some(names) => names
    case None => Names(AllTools)
  }

  /** `create_tools(user_id, tool_names)`. */
  method CreateTools(toolNames: Option<seq<string>>) returns (tools: seq<ToolName>)
    ensures tools == Selected(Requested(toolNames))
  {
    var names := Requested(toolNames);
    tools := [];
    for i := 0 to |names|
      invariant tools == Selected(names[..i])
    {
      assert names[..i + 1][..i] == names[..i];
      match Creator(names[i])
      case Some(t) =>
        tools := tools + [t];
      case None =>
        // An unknown name is logged and skipped.
    }
    assert names[..|names|] == names;
  }

  /** Selection distributes over concatenation of the requests. */
  lemma {:induction false} SelectedConcat(a: seq<string>, b: seq<string>)
    ensures Selected(a + b) == Selected(a) + Selected(b)
    decreases |b|
  {
    if b == [] {
      assert a + b == a;
    } else {
      var b' := b[..|b| - 1];
      assert (a + b)[..|a + b| - 1] == a + b';
      assert (a + b)[|a + b| - 1] == b[|b| - 1];
      SelectedConcat(a, b');
    }
  }

  /** Number of occurrences of `x` in `xs`. */
  function Count<T(==)>(xs: seq<T>, x: T): nat
    decreases |xs|
  {
    if xs == [] then 0 else Count(xs[..|xs| - 1], x) + (if xs[|xs| - 1] == x then 1 else 0)
  }

  /**
   * The selection never grows the request, and each tool appears exactly as
   * often as its name was asked for: duplicates are kept and unknown names
   * dropped without error.
   */
  lemma {:induction false} SelectedMeaning(names: seq<string>)
    ensures |Selected(names)| <= |names|
    ensures forall t: ToolName :: Count(Selected(names), t) == Count(names, NameOf(t))
    ensures (forall i | 0 <= i < |names| :: Creator(names[i]).None?) ==> Selected(names) == []
    decreases |names|
  {
    if names != [] {
      var init := names[..|names| - 1];
      SelectedMeaning(init);
      var last := names[|names| - 1];
      assert forall i | 0 <= i < |init| :: init[i] == names[i];
      match Creator(last)
      case Some(t) =>
        assert Selected(names) == Selected(init) + [t];
        assert forall u: ToolName :: Count(Selected(names), u) == Count(Selected(init), u) + (if t == u then 1 else 0);
      case None =>
        assert forall u: ToolName :: NameOf(u) != last;
    }
  }

  /** The names of `tools`, in order. */
  function Names(tools: seq<ToolName>): (names: seq<string>)
    ensures |names| == |tools|
    decreases |tools|
  {
    if tools == [] then [] else Names(tools[..|tools| - 1]) + [NameOf(tools[|tools| - 1])]
  }

  /** A request of known names only is answered by exactly those tools, in the same order. */
  lemma {:induction false} SelectedKnown(tools: seq<ToolName>)
    ensures Selected(Names(tools)) == tools
    decreases |tools|
  {
    if tools != [] {
      var init := tools[..|tools| - 1];
      var t := tools[|tools| - 1];
      assert tools == init + [t];
      calc {
        Selected(Names(tools));
        Selected(Names(init) + [NameOf(t)]);
        { SelectedSnocKnown(Names(init), t); }
        Selected(Names(init)) + [t];
        { SelectedKnown(init); }
        init + [t];
      }
    }
  }

  lemma SelectedSnocKnown(names: seq<string>, t: ToolName)
    ensures Selected(names + [NameOf(t)]) == Selected(names) + [t]
  {
    assert (names + [NameOf(t)])[..|names|] == names;
    CreatorOfName(t);
  }

  lemma CreatorOfName(t: ToolName)
    ensures Creator(NameOf(t)) == Some(t)
  {
  }

  /** With no names given, all four tools come back in the order of `tool_creators`. */
  lemma CreateToolsAll()
    ensures Selected(Requested(None)) == AllTools
  {
    SelectedKnown(AllTools);
  }

  /** What a closure returns when anything inside it raises: "[]" for the list tools, "{}" for the others. */
  function Fallback(t: ToolName): string {
    match t
    case GetRunningActivities => "[]"
    case GetSchedules => "[]"
    case GetMonthlyActivitySummary => "{}"
    case UpdateSchedule => "{}"
  }

  /** The object a backend call hands back: an un-awaited coroutine, or data. */
  datatype PyObject = Coroutine | Data(value: Value)

  /** `json.dumps(...)`; a coroutine is not serialisable. `dumps` renders data. */
  function Dumps(obj: PyObject, dumps: Value -> string): Result<string, string> {
    match obj
    case Coroutine => Err("Object of type coroutine is not JSON serializable")
    case Data(v) => Ok(dumps(v))
  }

  /**
   * The closure body: `UpdateSchedule` first decodes its input with
   * `json.loads` (`loads`); then the backend call (`call`) and the
   * serialisation. Any failure gives the tool's fallback.
   */
  function ToolBody(t: ToolName, input: string, loads: string -> Option<Value>,
                    call: Result<PyObject, string>, dumps: Value -> string): (r: string)
    ensures (t == UpdateSchedule && loads(input).None?) ==> r == Fallback(t)
    ensures call.Err? ==> r == Fallback(t)
  {
    if t == UpdateSchedule && loads(input).None? then Fallback(t)
    else
      match call
      case Err(_) => Fallback(t)
      case Ok(obj) =>
        match Dumps(obj, dumps)
        case Ok(s) => s
        case Err(_) => Fallback(t)
  }

  /**
   * The backend call as written: the activity and monthly calls are async
   * methods called without `await`, so they hand back a coroutine;
   * `BackendProvider` has no `get_schedules` or `update_schedule`, so the
   * attribute lookup raises.
   */
  function CallAsWritten(t: ToolName): Result<PyObject, string> {
    match t
    case GetRunningActivities => Ok(Coroutine)
    case GetMonthlyActivitySummary => Ok(Coroutine)
    case GetSchedules => Err("'BackendProvider' object has no attribute 'get_schedules'")
    case UpdateSchedule => Err("'BackendProvider' object has no attribute 'update_schedule'")
  }

  /** A tool closure as written. */
  function RunToolAsWritten(t: ToolName, input: string, loads: string -> Option<Value>, dumps: Value -> string): string {
    ToolBody(t, input, loads, CallAsWritten(t), dumps)
  }

  /** As written, every tool returns its fallback, whatever the input and whatever the backend holds. */
  lemma ToolsAlwaysFallBack(t: ToolName, input: string, loads: string -> Option<Value>, dumps: Value -> string)
    ensures RunToolAsWritten(t, input, loads, dumps) == Fallback(t)
  {
  }

  /**
   * A tool closure with the backend call awaited: `reply` is the awaited
   * result (the data, or the message it raised).
   */
  function RunTool(t: ToolName, input: string, loads: string -> Option<Value>,
                   reply: Result<Value, string>, dumps: Value -> string): (r: string)
    ensures reply.Err? ==> r == Fallback(t)
  {
    var call := match reply case Ok(v) => Ok(Data(v)) case Err(e) => Err(e);
    ToolBody(t, input, loads, call, dumps)
  }

  /**
   * With the call awaited, a backend answer reaches the agent serialised
   * (for `UpdateSchedule`, once its input decodes); only a failure gives the
   * fallback.
   */
  lemma RunToolReports(t: ToolName, input: string, loads: string -> Option<Value>,
                       reply: Result<Value, string>, dumps: Value -> string)
    ensures reply.Ok? && (t != UpdateSchedule || loads(input).Some?) ==>
      RunTool(t, input, loads, reply, dumps) == dumps(reply.value)
    ensures reply.Err? || (t == UpdateSchedule && loads(input).None?) ==>
      RunTool(t, input, loads, reply, dumps) == Fallback(t)
  {
  }

  /**
   * The discrepancy on one input: the activity tool over a backend holding
   * one activity answers "[]" as written, where the awaited call reports
   * the activity.
   */
  lemma ActivityToolLosesData()
    ensures var dumps := (v: Value) => if v == JArr([JInt(1)]) then "[1]" else "";
      var loads := (s: string) => None;
      && RunToolAsWritten(GetRunningActivities, "", loads, dumps) == "[]"
      && RunTool(GetRunningActivities, "", loads, Ok(JArr([JInt(1)])), dumps) == "[1]"
  {
  }
}
