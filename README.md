# one_task: a Dafny model of the `doit` task decorator

`doit_lib.py` defines `one_task(**kwargs)`, a decorator factory for tasks of the
`doit` task runner. It has three parts:

- **The `active` switch.** A falsy `active` keyword turns the decorator into a
  no-op that returns `None`. A truthy one is deleted from the keyword arguments.
- **The task dict.** Applying the decorator to a function builds the task dict
  `{'actions': [function]}` and then updates it with the keyword arguments.
- **The DOT tag lines.** When the `GRAPH_DOIT` environment variable is set to a non-empty value, the
  decorator prints `DOT:CHAIN:<name> <desc>`. It then prints one
  `DOT:<a> -> <b>` line for each `file_dep` entry, each `task_dep` entry and
  each `targets` entry, in that order. Dependencies point into the task and
  targets point out of it. `file_dep` and `targets` nodes have `.` rewritten to
  `_`.

Finally, a function named `task_*` comes back unchanged. Any other function is
replaced by a wrapper whose call yields the task dict and whose
`create_doit_tasks` attribute is the wrapper itself.

The project has three modules:

- `PyRuntime` (`py_runtime.dfy`) holds the Python behaviour the decorator relies
  on: keyword-argument values, truthiness, `for` iteration, `str.replace`,
  `split('\n')[0]`, `strip()` and `str()`.
- `DotTags` (`dot_tags.dfy`) is a pure model of what is printed. The
  exceptions the code can raise on the way are modelled, and printing stops at
  the first one.
- `DoitLib` (`doit_lib.dfy`) models the decorator imperatively. The keyword
  map has `active` deleted from it. The task dict is built by update. The three
  `for` loops append lines to the output. Each printing method is proved
  against `DotTags`.

Inputs and outputs are modelled as follows:

- The environment variable is the boolean parameter `graph`.
- Standard output is the returned sequence of `print` calls, one element per call.
- A function object is a record of its `__name__` and `__doc__`.

Exceptions the code can raise are modelled, not excluded by preconditions:

- A missing docstring raises `AttributeError` before anything is printed, and
  only when graphing is on.
- A group value that cannot be iterated raises `TypeError`.
- A `file_dep` or `targets` entry that is None, a bool, an int, a list or a
  function raises `AttributeError` at `node.replace`, because it has no
  `replace` method.
- In each case, the lines printed before the exception are kept.

The code prints nodes as they are: it never strips a leading `task_` from a
name or a node, and it emits `task_dep` nodes verbatim. The code tests
`os.environ.get("GRAPH_DOIT")` for truthiness, which holds exactly for a
non-empty value, and the model takes the result of that test as `graph`.

## Model

| member | source | states |
|---|---|---|
| PyRuntime.Truthy | doit_lib.py:20 | `if kwargs['active']:` fails exactly for `None`, `False`, `0`, `''` and `[]` |
| PyRuntime.Iterate | doit_lib.py:35-42 | a `for` loop walks the items of a list or the one-character strings of a string; any other value raises `TypeError` |
| PyRuntime.ReplaceChar | doit_lib.py:36 | `replace('.', '_')` keeps the length, changes exactly the `.` characters, and leaves no `.` |
| PyRuntime.FirstLine | doit_lib.py:33 | `split('\n')[0]` is the longest prefix of the docstring that holds no newline |
| PyRuntime.StripHalves | doit_lib.py:33 | `strip()` is `lstrip()` followed by `rstrip()` |
| PyRuntime.StripShape | doit_lib.py:33 | `strip()` leaves no whitespace at either end, keeps only characters of its input, and gives the empty string exactly when the input is all whitespace |
| PyRuntime.StripSlice | doit_lib.py:33 | what `strip()` keeps is one contiguous slice of its input, and everything before and after that slice is whitespace |
| PyRuntime.StripUnique | doit_lib.py:33 | any slice of the input with only whitespace around it and no whitespace at its own ends is what `strip()` returns, so the result is fully determined |
| PyRuntime.StrippedAllSpace | doit_lib.py:33 | stripping leaves nothing exactly when every character was whitespace |
| PyRuntime.NatToDecimalSpec | doit_lib.py:39 | `%s` of a non-negative integer `task_dep` entry is a decimal numeral with no leading zero whose value is that integer (no digit limit: see "## Left out") |
| PyRuntime.DecimalRoundTrip | doit_lib.py:39 | every numeral without a leading zero is the one `str` writes for its own value, so `str` of integers is one-to-one onto such numerals (no digit limit: see "## Left out") |
| PyRuntime.ShowSpec | doit_lib.py:39 | `%s` of a `task_dep` entry writes a string unchanged, `None`, `True` and `False` by name, an integer as an optional `-` and the numeral of its magnitude, the empty list as `[]`, a one-item list as its item's repr in brackets, and a function with its name (no digit limit: see "## Left out") |
| PyRuntime.ShowListCons | doit_lib.py:39 | `%s` of a list of two or more items writes the first item's repr, then `, `, then the rest as `%s` writes it without its `[`; with `ShowSpec` this gives every list as its items' reprs in order, separated by `, `, in brackets |
| PyRuntime.ReprSpec | doit_lib.py:39 | inside a list shown by `%s`, a string item is written between single quotes and any other item as `%s` writes it |
| DotTags.NodeText | doit_lib.py:35-42 | `file_dep` and `targets` entries have node text exactly when they are strings; that text has `.` replaced by `_`, so it contains no `.`; a `task_dep` entry is formatted by `%s`, and a string one is emitted unchanged |
| DotTags.DescShape | doit_lib.py:31-34 | the chain-line description has no newline, no surrounding whitespace and only characters of the docstring, and is empty exactly when the docstring's first line is blank |
| DotTags.DescSlice | doit_lib.py:33 | the description is one contiguous slice of the docstring's first line, with only whitespace cut from either side |
| DotTags.Nodes | doit_lib.py:35-42 | `d.get(key, [])` walks nothing for a missing key and the items of a list; a present value that is neither a list nor a string raises `TypeError` |
| DotTags.GroupRunSpec | doit_lib.py:35-42 | one loop prints, in input order, one edge line per entry up to the first entry without node text, and raises `AttributeError` there; with no exception it prints exactly one line per entry |
| DotTags.GroupRunStops | doit_lib.py:35-42 | once an entry has raised, later entries print nothing |
| DotTags.GroupEmissionSucceeds | doit_lib.py:35-42 | a group's loop completes without an exception exactly when its value iterates and every entry has node text |
| DotTags.GroupRunTags | doit_lib.py:35-42 | every line a group's loop prints starts with `DOT:` |
| DotTags.TagLines | doit_lib.py:30-42 | a missing docstring raises `AttributeError` before anything is printed; with a docstring at least the chain line is printed; a run without an exception prints one line more than its three loops |
| DotTags.TagLinesTags | doit_lib.py:30-42 | every printed line starts with `DOT:`, the chain line included |
| DotTags.WellFormedTagLines | doit_lib.py:30-42 | with a docstring and well-formed groups, nothing raises and the lines are exactly the chain line `DOT:CHAIN:<name> <desc>`, then the `file_dep` lines `DOT:<node> -> <name>` with `.` rewritten, then the `task_dep` lines `DOT:<node> -> <name>` verbatim, then the `targets` lines `DOT:<name> -> <node>` with `.` rewritten; each group keeps its order; there are `1 + len(file_dep) + len(task_dep) + len(targets)` lines; `name` is never rewritten |
| DotTags.GroupRunComplete | doit_lib.py:35-42 | a group whose entries all have node text raises nothing and prints one edge line per entry, in order |
| DotTags.FileDepText | doit_lib.py:35-37 | the `file_dep` loop prints `DOT:<node> -> <name>` for each entry, with `.` rewritten |
| DotTags.TaskDepText | doit_lib.py:38-39 | the `task_dep` loop prints `DOT:<node> -> <name>` for each entry, verbatim |
| DotTags.TargetText | doit_lib.py:40-42 | the `targets` loop prints `DOT:<name> -> <node>` for each entry, with `.` rewritten |
| DotTags.TagLinesSucceed | doit_lib.py:31-42 | printing completes without an exception exactly when the docstring is present and all three groups render |
| DotTags.ChainLineFirst | doit_lib.py:31-34 | with a docstring, the chain line is always the first line printed; a task with none of the three groups prints only that line, because missing keys count as empty lists |
| DoitLib.TaskDict | doit_lib.py:28-29 | the task dict's keys are `actions` plus the keyword arguments' keys; `actions` is `[function]` unless a keyword argument supplies it; every keyword argument is copied unchanged |
| DoitLib.TagLinesFromParams | doit_lib.py:28-42 | the tag lines of the task dict equal those of the keyword arguments, and those equal the lines of the keyword arguments without `actions`: neither the default `[function]` nor a keyword-supplied `actions` changes a line |
| DoitLib.OneTask | doit_lib.py:17-25 | a no-op comes back exactly when `active` is present and falsy; otherwise the kept arguments are exactly the keyword arguments with `active` removed |
| DoitLib.EmitEdges | doit_lib.py:35-42 | the loop prints exactly what `GroupRun` specifies, and stops at the first failing entry |
| DoitLib.EmitGroup | doit_lib.py:35-42 | `d.get(key, [])`, iterated and looped over, prints exactly what `GroupEmission` specifies |
| DoitLib.EmitTagLines | doit_lib.py:30-42 | the graphing branch prints exactly `TagLines` and raises exactly its exception |
| DoitLib.OneTaskMaker | doit_lib.py:27-54 | with graphing off, nothing is printed; with it on, the tag lines of the task dict are printed and their exception, if any, is raised; otherwise a `task_*` function is returned unchanged and any other function is returned as a wrapper holding the task dict |
| DoitLib.Apply | doit_lib.py:25-56 | the no-op returns `None` and prints nothing; a maker raises exactly when graphing is on and the tag lines of its task dict raise, and otherwise behaves as `OneTaskMaker` on the kept arguments |
| DoitLib.Decorate | doit_lib.py:5-56 | `None` comes back exactly for a falsy `active`, and then nothing is printed; graphing off prints nothing; otherwise the tag lines of the keyword arguments without `active` are printed; an exception is raised exactly when `active` is not falsy, graphing is on, and those tag lines raise; a returned wrapper's dict is the task dict of the keyword arguments without `active`, so its keys are `actions` plus the keyword arguments' keys and never `active`, and its `create_doit_tasks` yields that dict; a `task_*` function comes back as the very function given, any other one as a wrapper of that very function, and the returned function carries the original's name |

## Left out

- Reading `os.environ` is not modelled: the test of `GRAPH_DOIT` is the boolean parameter `graph`.
- `print` is not modelled: the text of each `print` call is one element of the returned sequence, in the order of the calls. A `file_dep`, `task_dep` or `targets` string holding a newline prints as several lines of standard output but is one element here, so every line count in this model counts `print` calls.
- `functools.wraps` copies more attributes than the name, and the model keeps only `__name__`. A wrapper is modelled only as "calling it returns `d`".
- Python object identity, and the sharing of mutable values between the keyword arguments and the task dict, are not modelled. Values here are immutable, so a later mutation of a shared list cannot show.
- How the `doit` runner consumes `create_doit_tasks` or `task_*` functions is not modelled, because that contract belongs to the runner.
- The graph builder that reads the tag lines is not part of this model.
- The values cover None, bool, int, str, list and function. Tuples, dicts, floats, bytes, generators and other objects, and iterating over them, are not modelled.
- PyRuntime.Show, PyRuntime.ShowSpec, PyRuntime.ReprSpec: `str()` of a list writes its string items in single quotes with no escaping and no switch to double quotes. `str()` of a function is written as `<function name>`, without the qualified name and memory address Python prints.
- A `pathlib.Path` or `bytes` entry in `file_dep` or `targets` raises `TypeError` at `node.replace` (`Path.replace` takes one path argument, and `bytes.replace` refuses `str` arguments). The model has no such value, so it never raises `TypeError` there.
- PyRuntime.NatToDecimalSpec, PyRuntime.DecimalRoundTrip, PyRuntime.ShowSpec: `str()` of an int with more than 4300 decimal digits raises `ValueError` under CPython's default `sys.set_int_max_str_digits` limit (CPython releases since September 2022: 3.11 and later, 3.10.7+, 3.9.14+, 3.8.14+ and 3.7.14+), so `%s` of such a `task_dep` entry, or of a list holding one, raises at doit_lib.py:39 after the lines already printed. The model has no digit limit: it writes the numeral, and `NodeText`, `TaskDepText`, `GroupEmissionSucceeds` and `TagLinesSucceed` treat that entry as rendering.
- PyRuntime.IsSpace follows the whitespace set of Python 3's `str.isspace()`. It is fixed by code point and does not track future Unicode versions.
