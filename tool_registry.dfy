/**
 * The tool service's registry: tool descriptors and their handlers, two
 * name-keyed dicts that are always written together.
 */
module ToolRegistry {
  import opened Wrappers
  import opened Json
  import opened PyDict
  import opened Seqs

  /** A tool descriptor; `handler` is the handler's name, as text. */
  datatype McpTool = McpTool(name: string, description: string, parameters: Object, category: string, handler: string)

  /** A tool implementation: the parameters it was called with, to its result or what it raised. */
  type Handler = Value -> Result<Object, PyError>

  /** `tool.model_dump()` */
  function ToolJson(t: McpTool): (v: Value)
    ensures v.Obj? && v.fields.Keys == {"name", "description", "parameters", "category", "handler"}
    ensures v.fields["name"] == Str(t.name) && v.fields["category"] == Str(t.category)
    ensures v.fields["description"] == Str(t.description) && v.fields["parameters"] == Obj(t.parameters)
    ensures v.fields["handler"] == Str(t.handler)
  {
    Obj(map[
      "name" := Str(t.name), "description" := Str(t.description), "parameters" := Obj(t.parameters),
      "category" := Str(t.category), "handler" := Str(t.handler)])
  }

  /** `t.category == category` */
  function CategoryIs(category: Value): McpTool -> bool {
    (t: McpTool) => Str(t.category) == category
  }

  /** The category filter of `list_tools`: applied only when the given category is truthy. */
  predicate InCategory(t: McpTool, category: Value) {
    !Truthy(category) || Str(t.category) == category
  }

  class Registry {
    var tools: Dict<string, McpTool>
    var handlers: map<string, Handler>

    /** The two dicts have the same keys, and each tool is filed under its own name. */
    ghost predicate Valid()
      reads this
    {
      && tools.Valid()
      && tools.entries.Keys == handlers.Keys
      && forall n :: n in tools.entries ==> tools.entries[n].name == n
    }

    constructor ()
      ensures Valid() && tools == Empty() && handlers == map[]
    {
      tools := Empty();
      handlers := map[];
    }

    /** Files the tool and its handler under the tool's name, replacing both on a repeat. */
    method RegisterTool(tool: McpTool, handler: Handler)
      requires Valid()
      modifies this
      ensures Valid()
      ensures tools == old(tools).Put(tool.name, tool)
      ensures handlers == old(handlers)[tool.name := handler]
      ensures GetTool(tool.name) == Some(tool)
      ensures forall n :: n != tool.name ==> GetTool(n) == old(GetTool(n))
    {
      var put := tools.Put(tool.name, tool);
      assert put.entries == tools.entries[tool.name := tool];
      assert put.entries.Keys == tools.entries.Keys + {tool.name};
      tools := put;
      handlers := handlers[tool.name := handler];
    }

    /** `self._tools.get(name)` */
    function GetTool(name: string): (r: Option<McpTool>)
      reads this
      ensures r.Some? <==> name in tools.entries
      ensures r.Some? ==> r.value == tools.entries[name]
    {
      tools.Get(name)
    }

    function AllTools(): (r: seq<McpTool>)
      reads this
      requires Valid()
      ensures |r| == |tools.keys|
      ensures forall i :: 0 <= i < |r| ==> r[i] == tools.entries[tools.keys[i]]
    {
      tools.Values()
    }

    /** All tools in registration order, or only those of the given category when it is truthy. */
    function ListTools(category: Value): (r: seq<McpTool>)
      reads this
      requires Valid()
      ensures forall i :: 0 <= i < |r| ==> r[i] in AllTools() && InCategory(r[i], category)
      ensures forall i :: 0 <= i < |AllTools()| && InCategory(AllTools()[i], category) ==> AllTools()[i] in r
      ensures IsSubseq(r, AllTools())
      ensures !Truthy(category) ==> r == AllTools()
    {
      var all := AllTools();
      if Truthy(category) then
        FilterSpec(CategoryIs(category), all);
        Filter(CategoryIs(category), all)
      else
        SubseqRefl(all);
        all
    }

    /**
     * Runs the handler registered under `name` on `params`, unchanged. An unknown
     * name raises ValueError; a list or dict as the name cannot be looked up and
     * raises TypeError.
     */
    function ExecuteTool(name: Value, params: Value): (r: Result<Object, PyError>)
      reads this
      ensures name.Str? && name.s in handlers ==> r == handlers[name.s](params)
      ensures name.Arr? || name.Obj? ==> r == Err(Unhashable(name))
      ensures !name.Arr? && !name.Obj? && !(name.Str? && name.s in handlers) ==>
        r == Err(PyError(ValueError, "Tool not found: " + Format(name)))
    {
      if name.Arr? || name.Obj? then Err(Unhashable(name))
      else if name.Str? && name.s in handlers then handlers[name.s](params)
      else Err(PyError(ValueError, "Tool not found: " + Format(name)))
    }
  }
}
