/**
 * The `one_task` decorator factory. `one_task(**kwargs)` handles the
 * `active` switch and gives a decorator; applied to a function, that
 * decorator builds the task dict `{'actions': [function]}` updated with the
 * keyword arguments, prints the graph tag lines when graphing is on, and
 * returns either the function itself (for a `task_*` name) or a wrapper
 * whose call yields the dict. The `GRAPH_DOIT` environment variable is the
 * `graph` parameter, and what is printed is returned as a sequence of lines.
 */
module DoitLib {
  import opened PyRuntime
  import opened DotTags

  /** What applying the decorator returns. */
  datatype Decorated =
    | Unchanged(original: PyFunction)
    | TaskWrapper(wrapped: PyFunction, task: map<string, Value>)
  {
    /** `__name__`; the wrapper copies it from the wrapped function. */
    function Name(): string {
      if Unchanged? then original.name else wrapped.name
    }

    /** Calling the wrapper yields the task dict. */
    function Call(): map<string, Value>
      requires TaskWrapper?
    {
      task
    }

    /** The wrapper's `create_doit_tasks` attribute is the wrapper itself. */
    function CreateDoitTasks(): Decorated
      requires TaskWrapper?
    {
      this
    }
  }

  /** What `one_task(**kwargs)` returns: the no-op `lambda function: None`,
      or `one_task_maker` closed over the remaining keyword arguments. */
  datatype Decorator = NoOp | Maker(params: map<string, Value>)

  /** The outcome of applying a decorator to a function. */
  datatype Outcome = ReturnsNone | Returns(value: Decorated) | Raises(error: PyError)

  /** The task dict: `actions` holds the function unless the keyword
      arguments supply their own, and every keyword argument is copied. */
  function TaskDict(params: map<string, Value>, fn: PyFunction): (d: map<string, Value>)
    ensures d.Keys == {"actions"} + params.Keys
    ensures d["actions"] == if "actions" in params then params["actions"] else VList([VFunc(fn)])
    ensures forall k :: k in params ==> d[k] == params[k]
  {
    map["actions" := VList([VFunc(fn)])] + params
  }

  /** The tag lines read only the three edge groups, which come from the
      keyword arguments, so neither the default `actions` entry nor one
      supplied as a keyword argument shows in them. */
  lemma TagLinesFromParams(params: map<string, Value>, fn: PyFunction)
    ensures TagLines(TaskDict(params, fn), fn) == TagLines(params, fn)
    ensures TagLines(params, fn) == TagLines(params - {"actions"}, fn)
  {
    var d := TaskDict(params, fn);
    var rest := params - {"actions"};
    assert Nodes(d, FileDep) == Nodes(params, FileDep) == Nodes(rest, FileDep);
    assert Nodes(d, TaskDep) == Nodes(params, TaskDep) == Nodes(rest, TaskDep);
    assert Nodes(d, Targets) == Nodes(params, Targets) == Nodes(rest, Targets);
  }

  /** `one_task(**kwargs)`: a falsy `active` gives the no-op; a truthy one
      is deleted and the rest is kept for the task dict. */
  method OneTask(kwargs: map<string, Value>) returns (dec: Decorator)
    ensures dec.NoOp? <==> "active" in kwargs && !Truthy(kwargs["active"])
    ensures dec.Maker? ==> dec.params == kwargs - {"active"}
    ensures dec.Maker? ==> dec.params.Keys == kwargs.Keys - {"active"}
    ensures dec.Maker? ==> forall k :: k in dec.params ==> dec.params[k] == kwargs[k]
  {
    var params := kwargs;
    assert "active" !in kwargs ==> params == kwargs - {"active"};
    if "active" in params {
      if Truthy(params["active"]) {
        params := params - {"active"};
      } else {
        return NoOp;
      }
    }
    dec := Maker(params);
  }

  /** One of the three `for` loops: a line per entry, stopping at the
      first entry that has no `replace` method. */
  method EmitEdges(g: Group, name: string, nodes: seq<Value>) returns (lines: seq<string>, error: Option<PyError>)
    ensures Emission(lines, error) == GroupRun(g, name, nodes)
  {
    lines, error := [], None;
    var i := 0;
    while i < |nodes|
      invariant 0 <= i <= |nodes|
      invariant GroupRun(g, name, nodes[..i]) == Emission(lines, None)
    {
      assert nodes[..i + 1][..i] == nodes[..i];
      var text := NodeText(g, nodes[i]);
      if text.None? {
        error := Some(AttributeError);
        assert GroupRun(g, name, nodes[..i + 1]) == Emission(lines, error);
        GroupRunStops(g, name, nodes, i + 1);
        return;
      }
      assert GroupRun(g, name, nodes[..i + 1]) == Emission(lines + [EdgeLine(g, name, text.value)], None);
      lines := lines + [EdgeLine(g, name, text.value)];
      i := i + 1;
    }
    assert nodes[..i] == nodes;
  }

  /** `for node in d.get(key, []): ...`, the iteration itself included. */
  method EmitGroup(d: map<string, Value>, g: Group, name: string) returns (lines: seq<string>, error: Option<PyError>)
    ensures Emission(lines, error) == GroupEmission(d, g, name)
  {
    var nodes := Nodes(d, g);
    if nodes.Err? {
      return [], Some(nodes.error);
    }
    lines, error := EmitEdges(g, name, nodes.value);
  }

  /** The body of `if os.environ.get("GRAPH_DOIT"):` — the chain line, then
      the three loops; a missing docstring raises before anything is printed. */
  method EmitTagLines(d: map<string, Value>, fn: PyFunction) returns (out: seq<string>, error: Option<PyError>)
    ensures Emission(out, error) == TagLines(d, fn)
  {
    if fn.doc.None? {
      return [], Some(AttributeError);
    }
    out := [ChainLine(fn.name, Desc(fn.doc.value))];
    var lines;
    lines, error := EmitGroup(d, FileDep, fn.name);
    out := out + lines;
    if error.Some? {
      return;
    }
    lines, error := EmitGroup(d, TaskDep, fn.name);
    out := out + lines;
    if error.Some? {
      return;
    }
    lines, error := EmitGroup(d, Targets, fn.name);
    out := out + lines;
  }

  /** `one_task_maker(function)`: build the task dict, print the tag lines
      when graphing is on, and return the function itself for a `task_*`
      name or else a wrapper that yields the dict. An exception while
      printing leaves the lines already printed. */
  method OneTaskMaker(params: map<string, Value>, fn: PyFunction, graph: bool)
    returns (result: Outcome, out: seq<string>)
    ensures !graph ==> out == []
    ensures graph ==> out == TagLines(TaskDict(params, fn), fn).lines
    ensures result.Raises? <==> graph && TagLines(TaskDict(params, fn), fn).error.Some?
    ensures result.Raises? ==> Some(result.error) == TagLines(TaskDict(params, fn), fn).error
    ensures !result.Raises? ==>
      result == Returns(if "task_" <= fn.name then Unchanged(fn) else TaskWrapper(fn, TaskDict(params, fn)))
  {
    var d := map["actions" := VList([VFunc(fn)])];
    d := d + params;
    out := [];
    if graph {
      var error;
      out, error := EmitTagLines(d, fn);
      if error.Some? {
        return Raises(error.value), out;
      }
    }
    if "task_" <= fn.name {
      return Returns(Unchanged(fn)), out;
    }
    result := Returns(TaskWrapper(fn, d));
  }

  /** Applying what `one_task(**kwargs)` returned to a function. */
  method Apply(dec: Decorator, fn: PyFunction, graph: bool) returns (result: Outcome, out: seq<string>)
    ensures dec.NoOp? ==> result == ReturnsNone && out == []
    ensures dec.Maker? ==> !result.ReturnsNone?
    ensures dec.Maker? && !graph ==> out == []
    ensures dec.Maker? ==> (result.Raises? <==> graph && TagLines(TaskDict(dec.params, fn), fn).error.Some?)
    ensures dec.Maker? && result.Raises? ==> Some(result.error) == TagLines(TaskDict(dec.params, fn), fn).error
    ensures dec.Maker? && graph ==> out == TagLines(TaskDict(dec.params, fn), fn).lines
    ensures dec.Maker? && !result.Raises? ==>
      result == Returns(if "task_" <= fn.name then Unchanged(fn) else TaskWrapper(fn, TaskDict(dec.params, fn)))
  {
    if dec.NoOp? {
      return ReturnsNone, [];
    }
    result, out := OneTaskMaker(dec.params, fn, graph);
  }

  /** `@one_task(**kwargs)` on a function, seen from the keyword arguments:
      a falsy `active` returns None and prints nothing; otherwise the task
      dict holds `actions` and every other keyword argument but never
      `active`, an exception is raised exactly when the tag lines raise one,
      a `task_*` function comes back as itself and any other one wrapped,
      and what is printed is the tag lines of the keyword arguments. */
  method Decorate(kwargs: map<string, Value>, fn: PyFunction, graph: bool) returns (result: Outcome, out: seq<string>)
    ensures result == ReturnsNone <==> "active" in kwargs && !Truthy(kwargs["active"])
    ensures result == ReturnsNone ==> out == []
    ensures !graph ==> out == []
    ensures result != ReturnsNone && graph ==> out == TagLines(kwargs - {"active"}, fn).lines
    ensures result.Raises? <==>
      !("active" in kwargs && !Truthy(kwargs["active"])) && graph && TagLines(kwargs - {"active"}, fn).error.Some?
    ensures result.Raises? ==> Some(result.error) == TagLines(kwargs - {"active"}, fn).error
    ensures result.Returns? ==>
      result.value == if "task_" <= fn.name then Unchanged(fn) else TaskWrapper(fn, TaskDict(kwargs - {"active"}, fn))
    ensures result.Returns? ==> (result.value.Unchanged? <==> "task_" <= fn.name) && result.value.Name() == fn.name
    ensures result.Returns? && result.value.TaskWrapper? ==>
      && result.value.task == TaskDict(kwargs - {"active"}, fn)
      && result.value.task.Keys == {"actions"} + (kwargs.Keys - {"active"})
      && "active" !in result.value.task
      && result.value.CreateDoitTasks().Call() == result.value.task
  {
    var dec := OneTask(kwargs);
    result, out := Apply(dec, fn, graph);
    if dec.Maker? {
      TagLinesFromParams(dec.params, fn);
    }
  }
}
