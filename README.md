# ansible-analyzer call-graph resolver, in Dafny

ansible-analyzer reads an Ansible playbook and draws a graph of which files
call which. The root is the playbook. Each play that lists `roles` links
the root to its first role's `tasks/main.yml`. Every
`ansible.builtin.include_tasks` entry in a task file links that file to the
included file, recursively. Dynamic includes (`{{ var }}`) are resolved
from the play's `vars`.

The model follows the `AnsibleGraph` class of `src/ansible_analyzer/graph.py`:

- `paths.dfy` (module `Paths`)
  - Paths as `pathlib.PurePosixPath` sees them, as a sequence of parts, with
    the `/` operator (`Join`) and `parts[-1]` (`Basename`).
  - `str.split` with a one-character separator (`Split`), with both round
    trips proved.
- `graph_model.dfy` (module `GraphModel`)
  - Nodes (id, label, kind), edges between node ids, and `Trace`: what a
    piece of the analysis appends to the graph, in order.
- `resolver.dfy` (module `Resolver`)
  - The analysis as pure functions of a `FileSystem` value, which holds the
    parsed playbooks, the parsed task files and the set of existing directories.
  - `PlaybookRun`, `PlayRun`, `RoleRun`, `TaskFile`, `Scan` and `TaskStep`
    give each call's outcome (pass, or the exception it raises) and the
    nodes and edges it appends before finishing or failing.
  - `fuel` is the number of nested `analyze_task_file` calls the interpreter's
    stack still allows.
- `analyzer.dfy` (module `Analyzer`)
  - The class `AnsibleGraph`: fields `nodes` and `edges` that its methods
    append to, in the source's order.
  - Each method's loop over plays or tasks is in its own method
    (`AnalyzePlays`, `AnalyzeTasks`), with the loop body in `AnalyzePlay` and
    `AnalyzeTask`.
  - Every method is proved to append exactly what the matching `Resolver`
    function says, and to return or raise exactly what it says.
- `resolver_properties.dfy` (module `ResolverProperties`)
  - What the functions guarantee: the shape of a successfully built graph,
    role and play handling, node naming, dynamic includes and blocks.

Three points of the code's behaviour that the model keeps as they are:

- **Blocks are not flattened.** `analyze_task_file` hands a task's `block`
  to `parse_block` (graph.py:106-107), whose body is `pass`
  (graph.py:132-133); the comment `# Need to analyze blocks too`
  (graph.py:86) marks this as unfinished. So a block's sub-tasks are never
  scanned, and an include inside a block is never followed
  (`BlockHidesIncludes`). A block of plain tasks still gives the same graph
  as listing those tasks in its place (`PlainBlockMatchesFlattened`), but
  only because neither adds anything. `ParseBlock` has no `modifies`
  clause: it cannot change the graph.
- **An includer's node comes after its edges.** An include appends the
  callee's node and the edge `root -> callee` (graph.py:127-128) while the
  including file's own node `root` is not in the graph yet: its caller
  appends it once `analyze_task_file` returns, at graph.py:127 for a nested
  include or graph.py:83 for a role's `main.yml`. The model keeps that
  order.
  - `Aligned` and `Rooted` state it: an edge's source is the root or a node
    appended after the edge's target.
  - So every edge's endpoints are nodes of the finished graph, but not
    always of the graph at the moment the edge is added.
- **Nodes are not merged.** A task file reached twice gets a node appended
  twice. The graph stores nodes in insertion order and never deduplicates
  them.

## Model

| member | source | states |
|---|---|---|
| Paths.Split | src/ansible_analyzer/graph.py:116 | `str.split(sep)`: at least one piece, and no piece contains the separator |
| Paths.SplitRoundTrip | src/ansible_analyzer/graph.py:116 | joining the pieces of a split with the separator gives back the string |
| Paths.JoinRoundTrip | src/ansible_analyzer/graph.py:116 | pieces free of the separator survive being joined and split again |
| Paths.SplitWithoutSeparator | src/ansible_analyzer/graph.py:116 | a string without the separator is one piece |
| Paths.SplitAtSeparator | src/ansible_analyzer/graph.py:116 | a separator between two strings splits the result into their separate pieces |
| Paths.KeepParts | src/ansible_analyzer/graph.py:90 | pathlib drops empty and "." pieces: no kept part is either |
| Paths.KeepPartsConcat | src/ansible_analyzer/graph.py:90 | dropping pieces distributes over concatenation |
| Paths.Segments | src/ansible_analyzer/graph.py:90 | the parts of a relative path string are never "" or "." |
| Paths.Join | src/ansible_analyzer/graph.py:76-77 | `base / name`: an absolute name gives a path starting at "/", a relative one extends `base` |
| Paths.SegmentsOfPlainName | src/ansible_analyzer/graph.py:90 | a plain file name is exactly one part |
| Paths.SegmentsOfNested | src/ansible_analyzer/graph.py:90 | the parts of `dir/name` are those of `dir` followed by `name` |
| Paths.JoinPlainName | src/ansible_analyzer/graph.py:77 | joining a plain name appends exactly that one part |
| Paths.BasenameOfNested | src/ansible_analyzer/graph.py:94 | the last part of `base / "dir/name"` is `name`, whatever `dir` and `base` are |
| GraphModel.EdgesFromConcat | src/ansible_analyzer/graph.py:84 | the count of edges leaving a node adds up over concatenated edge lists |
| GraphModel.EdgesFromNone | src/ansible_analyzer/graph.py:84 | no edge leaves a node that is not the source of any edge |
| Resolver.RoleTasksDir | src/ansible_analyzer/graph.py:76-77 | the role's task directory is non-empty and its last part is `tasks` |
| ResolverProperties.RoleTasksDirIsJoin | src/ansible_analyzer/graph.py:76-77 | the directory checked is `roles_dir.joinpath(name) / "tasks"` |
| ResolverProperties.TaskStepsAt | src/ansible_analyzer/graph.py:105 | step `k` of a file's loop is task `k` analysed on its own |
| ResolverProperties.PlayStepsAt | src/ansible_analyzer/graph.py:56 | step `k` of a playbook's loop is play `k` analysed on its own |
| ResolverProperties.FailureSticks | src/ansible_analyzer/graph.py:56-65 | after an exception the loop runs no further step and appends nothing more |
| ResolverProperties.SequenceOfNoEffects | src/ansible_analyzer/graph.py:105-128 | steps that pass and append nothing make a loop that passes and appends nothing |
| ResolverProperties.ThenAligned | src/ansible_analyzer/graph.py:105-128 | two aligned traces with the same includer, one after the other, are aligned |
| ResolverProperties.LinkAligned | src/ansible_analyzer/graph.py:127-128 | appending the callee's node and the edge from the includer closes the callee's pending edges |
| ResolverProperties.SequenceShape | src/ansible_analyzer/graph.py:105-128 | a passing loop whose passing steps append aligned task-file traces appends an aligned task-file trace |
| ResolverProperties.TaskFileShape | src/ansible_analyzer/graph.py:87-130 | a successful `analyze_task_file` returns the node `TaskFileNode` names without appending it. Every node it appends belongs to the same role and follows the edge reaching it. That edge starts at the returned node or at a later node |
| ResolverProperties.TaskStepShape | src/ansible_analyzer/graph.py:110-128 | a task without an include appends nothing. A passing task with one has an include that resolves to some file `t`. It appends exactly what analysing `t` appends, then the node `TaskFileNode` gives `t`, then one edge from the current file's node `root` to that node. Its trace is aligned with `root` pending and lies within the role |
| ResolverProperties.NoEdgesFromOutside | src/ansible_analyzer/graph.py:128 | no edge appended inside a role leaves a node outside the role |
| ResolverProperties.MainNodeNaming | src/ansible_analyzer/graph.py:94-98 | the node of `main.yml` has id and label `role/<name>/main.yml` |
| ResolverProperties.RoleShape | src/ansible_analyzer/graph.py:76-84 | a missing `tasks` directory fails with nothing appended. On success the last node is the `main.yml` node and the last edge runs from `parent` to it. It is the only edge leaving `parent` |
| ResolverProperties.RolePlays | src/ansible_analyzer/graph.py:60 | counts the plays that have `roles`, at most the number of plays |
| ResolverProperties.PlayShape | src/ansible_analyzer/graph.py:60-65 | a passing play appends aligned task-file nodes and one root edge if it has roles, none otherwise |
| ResolverProperties.PlayShapeAt | src/ansible_analyzer/graph.py:56-65 | the same, for step `k` of the playbook's loop |
| ResolverProperties.PlaysShape | src/ansible_analyzer/graph.py:56-65 | a passing loop over plays appends aligned task-file nodes and one root edge per play with roles |
| ResolverProperties.RootedShape | src/ansible_analyzer/graph.py:54-65 | the root followed by an aligned task-file trace is a rooted graph: each edge ends at the next node and starts at the root or later |
| ResolverProperties.PlaybookShape | src/ansible_analyzer/graph.py:36-65 | a successful `analyze_playbook` builds a rooted graph, the root first, whose root has one outgoing edge per play with roles |
| ResolverProperties.TaskFileEdges | src/ansible_analyzer/graph.py:105-128 | a successful `analyze_task_file` appends exactly one edge per include task met below it, at any depth (`FileIncludes`) |
| ResolverProperties.ScanEdges | src/ansible_analyzer/graph.py:105-128 | a passing run of the first `n` tasks appends one edge per include task met in them (`TasksIncludes`) |
| ResolverProperties.TaskStepEdges | src/ansible_analyzer/graph.py:110-128 | a passing task appends one edge for its include, if it has one, plus one per include task met in the included file |
| ResolverProperties.PlayEdgesAt | src/ansible_analyzer/graph.py:60-65 | a passing play appends one edge for its role if it has `roles`, plus one per include task met in that role's `main.yml` |
| ResolverProperties.PlaysEdges | src/ansible_analyzer/graph.py:56-65 | a passing loop over the first `n` plays appends `RolePlays` role edges plus one edge per include task met in their roles |
| ResolverProperties.PlaybookEdgeCount | src/ansible_analyzer/graph.py:36-65 | a successful `analyze_playbook` has exactly as many edges as plays with roles plus include tasks met in those roles' task files |
| ResolverProperties.NoRolesGraph | src/ansible_analyzer/graph.py:42-65 | a playbook with no `roles` in any play gives one node, id and label `playbook/<last part>`, and no edge |
| ResolverProperties.OnlyFirstRole | src/ansible_analyzer/graph.py:60-65 | plays that agree on their first role and their vars analyse identically, whatever other roles they list |
| ResolverProperties.AbsentVarsAreEmpty | src/ansible_analyzer/graph.py:64 | a play without `vars` behaves as one with an empty mapping |
| ResolverProperties.EmptyRolesFails | src/ansible_analyzer/graph.py:62 | an empty `roles` list raises an index error and appends nothing |
| ResolverProperties.TaskFileFailsEarly | src/ansible_analyzer/graph.py:90-93 | at the recursion limit, or for a missing file, `analyze_task_file` fails and appends nothing |
| ResolverProperties.NestedIncludeNaming | src/ansible_analyzer/graph.py:94-98 | including `dir/name` gives id `role/<role>/name` and label `role/<role>/dir/name`, which differ |
| ResolverProperties.PlainIncludeNaming | src/ansible_analyzer/graph.py:94-98 | including a plain file name gives id and label both `role/<role>/<name>` |
| ResolverProperties.ResolveIncludeCases | src/ansible_analyzer/graph.py:112-121 | a value without `{{` is used unchanged. A templated value resolves only to a non-empty play variable value. Only templated values fail |
| ResolverProperties.SplitTemplate | src/ansible_analyzer/graph.py:116 | `"{{ v }}".split(" ")` is `["{{", v, "}}"]` |
| ResolverProperties.TemplateResolves | src/ansible_analyzer/graph.py:114-121 | `{{ v }}` resolves to `play_vars[v]`, or fails naming `v` when it is absent or empty |
| ResolverProperties.UnsplittableTemplate | src/ansible_analyzer/graph.py:116 | a templated value with no space raises an index error on `[1]` |
| ResolverProperties.DynamicMatchesStatic | src/ansible_analyzer/graph.py:114-125 | an include of `{{ v }}` does exactly what an include of `v`'s (non-templated) value does |
| ResolverProperties.MissingVariableAddsNothing | src/ansible_analyzer/graph.py:117-121 | an include of `{{ v }}` with `v` absent or empty fails before appending anything |
| ResolverProperties.SequenceConcat | src/ansible_analyzer/graph.py:105 | running two step lists one after the other is running their concatenation |
| ResolverProperties.ScanConcat | src/ansible_analyzer/graph.py:105-128 | scanning two task lists one after the other is scanning them joined |
| ResolverProperties.TasksWithoutIncludeSkipped | src/ansible_analyzer/graph.py:105-110 | tasks without an include, block tasks among them, affect the scan as if they were absent |
| ResolverProperties.BlockIgnored | src/ansible_analyzer/graph.py:106-110 | a task's `block` changes nothing. A task with both a block and an include is analysed for its include |
| ResolverProperties.PlainBlockMatchesFlattened | src/ansible_analyzer/graph.py:105-110 | a block of plain tasks gives the graph that listing those tasks in its place gives |
| ResolverProperties.BlockHidesIncludes | src/ansible_analyzer/graph.py:132-133 | a block task is skipped as if absent, however many includes its sub-tasks hold |
| Analyzer.AnsibleGraph.constructor | src/ansible_analyzer/graph.py:32-34 | a new analyzer has its roles directory and an empty graph |
| Analyzer.AnsibleGraph.AddNode | src/ansible_analyzer/graph.py:54 | appends one node and leaves the edges alone |
| Analyzer.AnsibleGraph.AddEdge | src/ansible_analyzer/graph.py:84 | appends one edge and leaves the nodes alone |
| Analyzer.AnsibleGraph.AnalyzePlaybook | src/ansible_analyzer/graph.py:36-65 | appends exactly what `PlaybookRun` says and returns its outcome |
| Analyzer.AnsibleGraph.AnalyzePlays | src/ansible_analyzer/graph.py:56-65 | the loop over plays appends exactly what the run of `PlaySteps` says, stopping at the first exception |
| Analyzer.AnsibleGraph.AnalyzePlay | src/ansible_analyzer/graph.py:57-65 | one play appends exactly what `PlayRun` says |
| Analyzer.AnsibleGraph.AnalyzeRole | src/ansible_analyzer/graph.py:67-84 | appends exactly what `RoleRun` says and returns its outcome |
| Analyzer.AnsibleGraph.AnalyzeTaskFile | src/ansible_analyzer/graph.py:87-130 | appends exactly what `TaskFile` says and returns its node or its exception |
| Analyzer.AnsibleGraph.AnalyzeTasks | src/ansible_analyzer/graph.py:105-128 | the loop over tasks appends exactly what `Scan` says, stopping at the first exception |
| Analyzer.AnsibleGraph.AnalyzeTask | src/ansible_analyzer/graph.py:106-128 | one task appends exactly what `TaskStep` says: its include is resolved, recursed into, then its node and edge are appended |

## Left out

- YAML loading (`parse_yaml`, `load_playbook`) and the `exists()` check are
  not modelled as I/O. The parsed documents and the existing directories
  form the `FileSystem` value. A missing file raises `FileNotFound`.
- Documents that do not have the shape the code expects are not modelled.
  This covers an empty file (`None`), a `roles` value that is not a list,
  a role given as a mapping, and non-string include values or variables.
  Tasks and plays carry only the keys the analysis reads.
- Resolving paths against the operating system is not modelled: `..`,
  symbolic links, and the special leading `//` of POSIX paths. A path is its
  `pathlib` parts, and `..` stays a part.
- Python's recursion limit is the `fuel` parameter. The interpreter's actual
  depth, which depends on the stack in use, is not modelled. An include
  cycle fails with `RecursionLimit` once the fuel runs out.
- Logging, the play name fallback to its index (used only in a log line),
  and the unused `PLAYBOOK_KEYWORDS` and `ROLE_KEYWORDS` lists are left out.
- Rendering is left out: pydot node styles (colour, shape, margin), the
  `strict=True` graph option (it only affects how the renderer merges
  duplicates) and `write_graph`. The graph is the sequence of appended
  nodes and edges.
- `main.py`, `log.py` and `__init__.py` are command-line and logger glue and
  are not part of this model. `analyze_all`, which the command line calls,
  is not defined in `graph.py`.
