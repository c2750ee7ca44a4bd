/**
 * The tag lines `one_task` prints for a task when graphing is on: one
 * `DOT:CHAIN:<name> <desc>` line, then one `DOT:<a> -> <b>` line per
 * `file_dep`, `task_dep` and `targets` entry, in that order. Printing stops
 * at the first exception, so a run is the lines printed so far and the
 * exception, if any.
 */
module DotTags {
  import opened PyRuntime

  /** The three task-dict entries that give edges. */
  datatype Group = FileDep | TaskDep | Targets

  function Key(g: Group): string {
    match g
    case FileDep => "file_dep"
    case TaskDep => "task_dep"
    case Targets => "targets"
  }

  /** Every line is a `DOT:` tag, the prefix the graph builder reads. */
  predicate AllTags(lines: seq<string>) {
    forall i :: 0 <= i < |lines| ==> "DOT:" <= lines[i]
  }

  /** The lines printed so far, and the exception that stopped printing. */
  datatype Emission = Emission(lines: seq<string>, error: Option<PyError>)

  /** The first run, then the second only if the first raised nothing. */
  function Then(a: Emission, b: Emission): Emission {
    if a.error.Some? then a else Emission(a.lines + b.lines, b.error)
  }

  /** Running one emission after another prints only tags when both do. */
  lemma ThenTags(a: Emission, b: Emission)
    requires AllTags(a.lines) && AllTags(b.lines)
    ensures AllTags(Then(a, b).lines)
  {
    if a.error.None? {
      forall i | |a.lines| <= i < |a.lines| + |b.lines| ensures "DOT:" <= (a.lines + b.lines)[i] {
        assert (a.lines + b.lines)[i] == b.lines[i - |a.lines|];
      }
    }
  }

  /** The node text of one entry: `file_dep` and `targets` entries go
      through `node.replace('.', '_')`, which no other modelled value has; a `task_dep`
      entry is formatted by `%s` as it is. */
  function NodeText(g: Group, v: Value): (r: Option<string>)
    ensures g == TaskDep ==> r.Some? && (v.VStr? ==> r.value == v.s)
    ensures g != TaskDep ==> (r.Some? <==> v.VStr?)
    ensures g != TaskDep && r.Some? ==>
      && |r.value| == |v.s|
      && '.' !in r.value
      && forall i :: 0 <= i < |v.s| ==> r.value[i] == if v.s[i] == '.' then '_' else v.s[i]
  {
    match g
    case TaskDep => Some(Show(v))
    case _ => if v.VStr? then Some(ReplaceChar(v.s, '.', '_')) else None
  }

  function ChainLine(name: string, desc: string): string {
    "DOT:CHAIN:" + name + " " + desc
  }

  lemma ChainLineTag(name: string, desc: string)
    ensures "DOT:" <= ChainLine(name, desc)
  {
    assert ChainLine(name, desc) == "DOT:" + ("CHAIN:" + name + " " + desc);
  }

  /** Dependencies point into the task, targets out of it. */
  function EdgeLine(g: Group, name: string, node: string): string {
    if g == Targets then "DOT:" + name + " -> " + node else "DOT:" + node + " -> " + name
  }

  lemma EdgeLineTag(g: Group, name: string, node: string)
    ensures "DOT:" <= EdgeLine(g, name, node)
  {
    var mid := if g == Targets then name + " -> " + node else node + " -> " + name;
    assert EdgeLine(g, name, node) == "DOT:" + mid;
  }

  /** The description on the chain line: the docstring's first line,
      stripped (`DescShape` and `DescSlice` state what that leaves). */
  function Desc(doc: string): string {
    Strip(FirstLine(doc))
  }

  /** The description holds no newline, starts and ends with a non-space,
      keeps only characters of the docstring, and is empty exactly when the
      docstring's first line is blank. */
  lemma DescShape(doc: string)
    ensures '\n' !in Desc(doc)
    ensures Desc(doc) != [] ==> !IsSpace(Desc(doc)[0]) && !IsSpace(Desc(doc)[|Desc(doc)| - 1])
    ensures forall c :: c in Desc(doc) ==> c in doc
    ensures Desc(doc) == [] <==> forall i :: 0 <= i < |FirstLine(doc)| ==> IsSpace(doc[i])
  {
    var line := FirstLine(doc);
    assert Desc(doc) == Strip(line);
    StripShape(line);
    PrefixFacts(doc, line);
  }

  /** The description is one contiguous slice of the docstring's first line
      with only whitespace cut from either side. */
  lemma DescSlice(doc: string)
    ensures exists i :: StrippedAt(FirstLine(doc), i, Desc(doc))
  {
    assert Desc(doc) == Strip(FirstLine(doc));
    StripSlice(FirstLine(doc));
  }

  /** A prefix of the docstring holds only the docstring's characters, and
      is blank exactly when the docstring's first characters are. */
  lemma PrefixFacts(doc: string, line: string)
    requires line <= doc
    ensures forall c :: c in line ==> c in doc
    ensures (forall i :: 0 <= i < |line| ==> IsSpace(line[i])) <==> (forall i :: 0 <= i < |line| ==> IsSpace(doc[i]))
  {
    forall i | 0 <= i < |line| ensures line[i] == doc[i] { }
  }

  /** One `for` loop over a group's entries: a line per entry, until an
      entry that cannot be turned into node text raises (`GroupRunSpec`
      states it). */
  function GroupRun(g: Group, name: string, nodes: seq<Value>): Emission
  {
    if nodes == [] then Emission([], None)
    else
      var prev := GroupRun(g, name, nodes[..|nodes| - 1]);
      if prev.error.Some? then prev
      else match NodeText(g, nodes[|nodes| - 1])
        case None => Emission(prev.lines, Some(AttributeError))
        case Some(t) => Emission(prev.lines + [EdgeLine(g, name, t)], None)
  }

  /** The entries a group's loop walks over, `d.get(key, [])` iterated.
      A missing key walks an empty list; a present value that is neither
      a list nor a string raises `TypeError`. */
  function Nodes(d: map<string, Value>, g: Group): (r: Result<seq<Value>>)
    ensures Key(g) !in d ==> r == Ok([])
    ensures r.Err? <==> Key(g) in d && !(d[Key(g)].VStr? || d[Key(g)].VList?)
    ensures r.Err? ==> r.error == TypeError
    ensures Key(g) in d && d[Key(g)].VList? ==> r == Ok(d[Key(g)].items)
  {
    if Key(g) in d then Iterate(d[Key(g)]) else Ok([])
  }

  /** A group's loop, including the iteration of its value. */
  function GroupEmission(d: map<string, Value>, g: Group, name: string): Emission {
    match Nodes(d, g)
    case Err(e) => Emission([], Some(e))
    case Ok(nodes) => GroupRun(g, name, nodes)
  }

  /** Everything printed for task dict `d` of `function` with graphing on.
      A missing docstring raises `AttributeError` before anything is
      printed; otherwise at least the chain line is printed, and a run that
      raised nothing printed one line more than its three groups did. */
  function TagLines(d: map<string, Value>, fn: PyFunction): (r: Emission)
    ensures fn.doc.None? ==> r == Emission([], Some(AttributeError))
    ensures fn.doc.Some? ==> |r.lines| >= 1
    ensures r.error.None? ==>
      |r.lines| == 1 + |GroupEmission(d, FileDep, fn.name).lines| + |GroupEmission(d, TaskDep, fn.name).lines|
        + |GroupEmission(d, Targets, fn.name).lines|
  {
    match fn.doc
    case None => Emission([], Some(AttributeError))
    case Some(doc) =>
      var chain := Emission([ChainLine(fn.name, Desc(doc))], None);
      Then(Then(Then(chain, GroupEmission(d, FileDep, fn.name)),
                GroupEmission(d, TaskDep, fn.name)),
           GroupEmission(d, Targets, fn.name))
  }

  /** Every entry of a group can be turned into node text. */
  predicate Renders(d: map<string, Value>, g: Group) {
    Nodes(d, g).Ok? && forall i :: 0 <= i < |Nodes(d, g).value| ==> NodeText(g, Nodes(d, g).value[i]).Some?
  }

  /** A group's loop prints, in order, one line per entry up to the first
      entry without node text, and raises `AttributeError` there. */
  lemma {:induction false} GroupRunSpec(g: Group, name: string, nodes: seq<Value>)
    ensures var r := GroupRun(g, name, nodes);
      && |r.lines| <= |nodes|
      && (forall i :: 0 <= i < |r.lines| ==>
            NodeText(g, nodes[i]).Some? && r.lines[i] == EdgeLine(g, name, NodeText(g, nodes[i]).value))
      && (r.error.None? ==> |r.lines| == |nodes|)
      && (r.error.Some? ==> r.error == Some(AttributeError) && |r.lines| < |nodes| && NodeText(g, nodes[|r.lines|]).None?)
  {
    if nodes != [] {
      var init := nodes[..|nodes| - 1];
      GroupRunSpec(g, name, init);
      forall i | 0 <= i < |init| ensures init[i] == nodes[i] { }
    }
  }

  /** Once a prefix of the entries has raised, the rest of the loop never runs. */
  lemma {:induction false} GroupRunStops(g: Group, name: string, nodes: seq<Value>, k: nat)
    requires k <= |nodes|
    requires GroupRun(g, name, nodes[..k]).error.Some?
    ensures GroupRun(g, name, nodes) == GroupRun(g, name, nodes[..k])
    decreases |nodes| - k
  {
    if k < |nodes| {
      assert nodes[..|nodes| - 1][..k] == nodes[..k];
      GroupRunStops(g, name, nodes[..|nodes| - 1], k);
    } else {
      assert nodes[..k] == nodes;
    }
  }

  /** A group's loop raises nothing exactly when the group renders. */
  lemma GroupEmissionSucceeds(d: map<string, Value>, g: Group, name: string)
    ensures GroupEmission(d, g, name).error.None? <==> Renders(d, g)
  {
    if Nodes(d, g).Ok? {
      var nodes := Nodes(d, g).value;
      GroupRunSpec(g, name, nodes);
      if !Renders(d, g) {
        var j :| 0 <= j < |nodes| && NodeText(g, nodes[j]).None?;
        assert GroupRun(g, name, nodes).error.Some?;
      }
    }
  }

  /** A group whose entries all have node text prints one line per entry. */
  lemma GroupRunComplete(g: Group, name: string, nodes: seq<Value>)
    requires forall i :: 0 <= i < |nodes| ==> NodeText(g, nodes[i]).Some?
    ensures GroupRun(g, name, nodes).error == None
    ensures |GroupRun(g, name, nodes).lines| == |nodes|
    ensures forall i :: 0 <= i < |nodes| ==>
      GroupRun(g, name, nodes).lines[i] == EdgeLine(g, name, NodeText(g, nodes[i]).value)
  {
    GroupRunSpec(g, name, nodes);
  }

  /** The `file_dep` lines: each node, dots rewritten, points into the task. */
  function FileDepLines(name: string, nodes: seq<Value>): seq<string>
    requires forall i :: 0 <= i < |nodes| ==> nodes[i].VStr?
  {
    seq(|nodes|, i requires 0 <= i < |nodes| => "DOT:" + ReplaceChar(nodes[i].s, '.', '_') + " -> " + name)
  }

  /** The `task_dep` lines: each node, verbatim, points into the task. */
  function TaskDepLines(name: string, nodes: seq<Value>): seq<string> {
    seq(|nodes|, i requires 0 <= i < |nodes| => "DOT:" + Show(nodes[i]) + " -> " + name)
  }

  /** The `targets` lines: the task points out to each node, dots rewritten. */
  function TargetLines(name: string, nodes: seq<Value>): seq<string>
    requires forall i :: 0 <= i < |nodes| ==> nodes[i].VStr?
  {
    seq(|nodes|, i requires 0 <= i < |nodes| => "DOT:" + name + " -> " + ReplaceChar(nodes[i].s, '.', '_'))
  }

  /** With the docstring present and every group rendering, nothing raises
      and exactly 1 + |file_dep| + |task_dep| + |targets| lines are printed:
      the chain line, then the `file_dep` lines, the `task_dep` lines and the
      `targets` lines, each group in its own order. Dependencies point into
      the task, targets out of it; only `file_dep` and `targets` nodes are
      rewritten, and the task's name never is. */
  lemma {:induction false} WellFormedTagLines(
    d: map<string, Value>, fn: PyFunction, fileDeps: seq<Value>, taskDeps: seq<Value>, targets: seq<Value>)
    requires fn.doc.Some?
    requires Nodes(d, FileDep) == Ok(fileDeps)
    requires Nodes(d, TaskDep) == Ok(taskDeps)
    requires Nodes(d, Targets) == Ok(targets)
    requires forall i :: 0 <= i < |fileDeps| ==> fileDeps[i].VStr?
    requires forall i :: 0 <= i < |targets| ==> targets[i].VStr?
    ensures TagLines(d, fn).error == None
    ensures TagLines(d, fn).lines ==
      ["DOT:CHAIN:" + fn.name + " " + Desc(fn.doc.value)]
      + FileDepLines(fn.name, fileDeps) + TaskDepLines(fn.name, taskDeps) + TargetLines(fn.name, targets)
    ensures |TagLines(d, fn).lines| == 1 + |fileDeps| + |taskDeps| + |targets|
  {
    var name := fn.name;
    assert GroupEmission(d, FileDep, name) == GroupRun(FileDep, name, fileDeps);
    assert GroupEmission(d, TaskDep, name) == GroupRun(TaskDep, name, taskDeps);
    assert GroupEmission(d, Targets, name) == GroupRun(Targets, name, targets);
    GroupRunComplete(FileDep, name, fileDeps);
    GroupRunComplete(TaskDep, name, taskDeps);
    GroupRunComplete(Targets, name, targets);
    TagLinesShape(d, fn);
    FileDepText(name, fileDeps);
    TaskDepText(name, taskDeps);
    TargetText(name, targets);
  }

  lemma FileDepText(name: string, nodes: seq<Value>)
    requires forall i :: 0 <= i < |nodes| ==> nodes[i].VStr?
    ensures GroupRun(FileDep, name, nodes).lines == FileDepLines(name, nodes)
  {
    GroupRunComplete(FileDep, name, nodes);
    forall i | 0 <= i < |nodes| ensures GroupRun(FileDep, name, nodes).lines[i] == FileDepLines(name, nodes)[i] {
      EdgeLineText(FileDep, name, nodes[i]);
    }
  }

  lemma TaskDepText(name: string, nodes: seq<Value>)
    ensures GroupRun(TaskDep, name, nodes).lines == TaskDepLines(name, nodes)
  {
    GroupRunComplete(TaskDep, name, nodes);
    forall i | 0 <= i < |nodes| ensures GroupRun(TaskDep, name, nodes).lines[i] == TaskDepLines(name, nodes)[i] {
      EdgeLineText(TaskDep, name, nodes[i]);
    }
  }

  lemma TargetText(name: string, nodes: seq<Value>)
    requires forall i :: 0 <= i < |nodes| ==> nodes[i].VStr?
    ensures GroupRun(Targets, name, nodes).lines == TargetLines(name, nodes)
  {
    GroupRunComplete(Targets, name, nodes);
    forall i | 0 <= i < |nodes| ensures GroupRun(Targets, name, nodes).lines[i] == TargetLines(name, nodes)[i] {
      EdgeLineText(Targets, name, nodes[i]);
    }
  }

  /** When no group raises, the lines are the chain line and the three
      groups' lines, in that order. */
  lemma TagLinesShape(d: map<string, Value>, fn: PyFunction)
    requires fn.doc.Some?
    requires GroupEmission(d, FileDep, fn.name).error.None?
    requires GroupEmission(d, TaskDep, fn.name).error.None?
    requires GroupEmission(d, Targets, fn.name).error.None?
    ensures TagLines(d, fn) == Emission(
      [ChainLine(fn.name, Desc(fn.doc.value))] + GroupEmission(d, FileDep, fn.name).lines
        + GroupEmission(d, TaskDep, fn.name).lines + GroupEmission(d, Targets, fn.name).lines, None)
  {
  }

  /** The text of one edge line, by group. */
  lemma EdgeLineText(g: Group, name: string, v: Value)
    requires g != TaskDep ==> v.VStr?
    ensures g == FileDep ==> EdgeLine(g, name, NodeText(g, v).value) == "DOT:" + ReplaceChar(v.s, '.', '_') + " -> " + name
    ensures g == TaskDep ==> EdgeLine(g, name, NodeText(g, v).value) == "DOT:" + Show(v) + " -> " + name
    ensures g == Targets ==> EdgeLine(g, name, NodeText(g, v).value) == "DOT:" + name + " -> " + ReplaceChar(v.s, '.', '_')
  {
  }

  /** Printing completes without an exception exactly when the docstring is
      present and each group's value iterates to entries that render. */
  lemma TagLinesSucceed(d: map<string, Value>, fn: PyFunction)
    ensures TagLines(d, fn).error.None? <==>
      fn.doc.Some? && Renders(d, FileDep) && Renders(d, TaskDep) && Renders(d, Targets)
  {
    GroupEmissionSucceeds(d, FileDep, fn.name);
    GroupEmissionSucceeds(d, TaskDep, fn.name);
    GroupEmissionSucceeds(d, Targets, fn.name);
  }

  /** Every line one group's loop prints is a `DOT:` tag. */
  lemma {:induction false} GroupRunTags(g: Group, name: string, nodes: seq<Value>)
    ensures AllTags(GroupRun(g, name, nodes).lines)
  {
    if nodes != [] {
      var init := nodes[..|nodes| - 1];
      GroupRunTags(g, name, init);
      var t := NodeText(g, nodes[|nodes| - 1]);
      if GroupRun(g, name, init).error.None? && t.Some? {
        EdgeLineTag(g, name, t.value);
        ThenTags(GroupRun(g, name, init), Emission([EdgeLine(g, name, t.value)], None));
      }
    }
  }

  /** Every line a group prints, iteration included, is a `DOT:` tag. */
  lemma GroupEmissionTags(d: map<string, Value>, g: Group, name: string)
    ensures AllTags(GroupEmission(d, g, name).lines)
  {
    if Nodes(d, g).Ok? {
      GroupRunTags(g, name, Nodes(d, g).value);
    }
  }

  /** Every line printed for a task is a `DOT:` tag, which is the prefix the
      graph builder picks out of the output. */
  lemma TagLinesTags(d: map<string, Value>, fn: PyFunction)
    ensures AllTags(TagLines(d, fn).lines)
  {
    if fn.doc.Some? {
      var chain := Emission([ChainLine(fn.name, Desc(fn.doc.value))], None);
      ChainLineTag(fn.name, Desc(fn.doc.value));
      GroupEmissionTags(d, FileDep, fn.name);
      GroupEmissionTags(d, TaskDep, fn.name);
      GroupEmissionTags(d, Targets, fn.name);
      ThenTags3(chain, GroupEmission(d, FileDep, fn.name), GroupEmission(d, TaskDep, fn.name),
        GroupEmission(d, Targets, fn.name));
    }
  }

  lemma ThenTags3(chain: Emission, a: Emission, b: Emission, c: Emission)
    requires AllTags(chain.lines) && AllTags(a.lines) && AllTags(b.lines) && AllTags(c.lines)
    ensures AllTags(Then(Then(Then(chain, a), b), c).lines)
  {
    ThenTags(chain, a);
    ThenTags(Then(chain, a), b);
    ThenTags(Then(Then(chain, a), b), c);
  }

  /** The chain line always comes first when the docstring is present, and
      a task with none of the three groups prints only that line. */
  lemma ChainLineFirst(d: map<string, Value>, fn: PyFunction)
    requires fn.doc.Some?
    ensures |TagLines(d, fn).lines| >= 1
    ensures TagLines(d, fn).lines[0] == ChainLine(fn.name, Desc(fn.doc.value))
    ensures Key(FileDep) !in d && Key(TaskDep) !in d && Key(Targets) !in d ==>
      TagLines(d, fn) == Emission([ChainLine(fn.name, Desc(fn.doc.value))], None)
  {
    var line := ChainLine(fn.name, Desc(fn.doc.value));
    var chain := Emission([line], None);
    var e1 := Then(chain, GroupEmission(d, FileDep, fn.name));
    ThenFirst(chain, GroupEmission(d, FileDep, fn.name));
    var e2 := Then(e1, GroupEmission(d, TaskDep, fn.name));
    ThenFirst(e1, GroupEmission(d, TaskDep, fn.name));
    ThenFirst(e2, GroupEmission(d, Targets, fn.name));
    assert TagLines(d, fn) == Then(e2, GroupEmission(d, Targets, fn.name));
    if Key(FileDep) !in d && Key(TaskDep) !in d && Key(Targets) !in d {
      // Each missing group walks `[]`, which prints nothing.
      assert GroupEmission(d, FileDep, fn.name) == Emission([], None);
      assert GroupEmission(d, TaskDep, fn.name) == Emission([], None);
      assert GroupEmission(d, Targets, fn.name) == Emission([], None);
    }
  }

  /** A run that printed something keeps its first line whatever follows. */
  lemma ThenFirst(a: Emission, b: Emission)
    requires |a.lines| >= 1
    ensures |Then(a, b).lines| >= 1 && Then(a, b).lines[0] == a.lines[0]
  {
  }
}
