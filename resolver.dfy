/** What analysing a playbook appends to the graph, as pure functions of the
    file tree: the specification the `AnsibleGraph` methods are proved
    against. Parsed YAML documents and the directories that exist are given
    as a `FileSystem` value. */
module Resolver {
  import opened Paths
  import opened GraphModel

  datatype Option<T> = None | Some(value: T)

  /** The exceptions the analysis lets escape; each one aborts the run. */
  datatype Error =
    | FileNotFound(path: Path)      // opening a task file or playbook that is not there
    | RoleNotFound(dir: Path)       // the role has no `tasks` directory
    | MissingVariable(name: string) // a dynamic include names an absent or empty play variable
    | IndexError                    // `[0]` of an empty roles list, `[1]` of a one-token split, `parts[-1]` of no parts
    | RecursionLimit                // the include chain is deeper than the interpreter allows

  datatype Result<T> = Ok(value: T) | Err(error: Error)

  datatype Outcome = Pass | Fail(error: Error)

  /** A task record, reduced to the two keys the analysis looks at: a `block`
      list of sub-tasks and an `ansible.builtin.include_tasks` value. */
  datatype Task = Task(block: Option<seq<Task>>, includeTasks: Option<string>)

  /** A play record: its `roles` list and its `vars` mapping, each possibly absent. */
  datatype Play = Play(roles: Option<seq<string>>, vars: Option<map<string, string>>)

  /** The parsed playbooks and task files by path, and the paths that exist. */
  datatype FileSystem = FileSystem(
    playbooks: map<Path, seq<Play>>,
    taskFiles: map<Path, seq<Task>>,
    existing: set<Path>)

  /** What every task file of one role shares: the role's name, its `tasks`
      directory and the variables of the play that invoked it. */
  datatype Scope = Scope(fs: FileSystem, role: string, base: Path, vars: map<string, string>)

  /** The outcome of a step and what it appended to the graph before it
      finished or failed. */
  datatype Run = Run(outcome: Outcome, added: Trace)

  /** The same for a task file, which on success also hands back its own node. */
  datatype FileRun = FileRun(result: Result<Node>, added: Trace)

  /** `first`, then `second` unless `first` failed: an exception ends the
      run, keeping what was appended before it. */
  function Chain(first: Run, second: Run): Run {
    if first.outcome.Fail? then first else Run(second.outcome, Then(first.added, second.added))
  }

  /** The first `n` of `steps` run in order, each chained to the ones before. */
  function Sequence(steps: seq<Run>, n: nat): Run
    requires n <= |steps|
  {
    if n == 0 then Run(Pass, NoEffect)
    else
      var prev := Sequence(steps, n - 1);
      if prev.outcome.Fail? then prev
      else Run(steps[n - 1].outcome, Then(prev.added, steps[n - 1].added))
  }

  const MainTaskFile: string := "main.yml"
  const TasksDir: string := "tasks"

  /** The root node of a playbook: id and label `playbook/<file name>`. */
  function PlaybookNode(path: Path): Node
    requires |path| > 0
  {
    var id := "playbook/" + Basename(path);
    Node(id, id, PlaybookKind)
  }

  /** The prefix of every id and label of the role's task-file nodes. */
  function RolePrefix(role: string): string {
    "role/" + role + "/"
  }

  /** The node of a task file: the id uses the last part of the joined path,
      the label the include value as written. */
  function TaskFileNode(role: string, base: Path, file: string): Node
    requires |Join(base, file)| > 0
  {
    Node(RolePrefix(role) + Basename(Join(base, file)), RolePrefix(role) + file, TaskKind)
  }

  /** `<rolesDir>/<name>/tasks`; joining the plain name "tasks" appends it
      as one part (`JoinPlainName`). */
  function RoleTasksDir(rolesDir: Path, name: string): (dir: Path)
    ensures |dir| > 0 && Basename(dir) == TasksDir
  {
    Join(rolesDir, name) + [TasksDir]
  }

  /** `play.get("vars", {})`. */
  function PlayVars(play: Play): map<string, string> {
    if play.vars.Some? then play.vars.value else map[]
  }

  /** `"{{" in s`. */
  predicate HasTemplateMarker(s: string) {
    |s| >= 2 && ((s[0] == '{' && s[1] == '{') || HasTemplateMarker(s[1..]))
  }

  /** The file an include value names: the value itself, or for a templated
      value the play variable named by its second space-separated token. */
  function ResolveInclude(value: string, vars: map<string, string>): Result<string> {
    if !HasTemplateMarker(value) then Ok(value)
    else
      var tokens := Split(value, ' ');
      if |tokens| < 2 then Err(IndexError)
      else if tokens[1] !in vars || vars[tokens[1]] == "" then Err(MissingVariable(tokens[1]))
      else Ok(vars[tokens[1]])
  }

  /** `analyze_task_file`. `fuel` is how many more nested task-file calls the
      interpreter's stack allows; at zero the call itself fails. */
  function TaskFile(sc: Scope, file: string, fuel: nat): FileRun
    decreases fuel, 0
  {
    if fuel == 0 then FileRun(Err(RecursionLimit), NoEffect)
    else
      var path := Join(sc.base, file);
      if path !in sc.fs.taskFiles then FileRun(Err(FileNotFound(path)), NoEffect)
      else if |path| == 0 then FileRun(Err(IndexError), NoEffect)
      else
        var root := TaskFileNode(sc.role, sc.base, file);
        var tasks := sc.fs.taskFiles[path];
        var scan := Scan(sc, fuel - 1, root, tasks);
        FileRun(if scan.outcome.Pass? then Ok(root) else Err(scan.outcome.error), scan.added)
  }

  /** The loop of `analyze_task_file` over the tasks of a file whose node is `root`. */
  function Scan(sc: Scope, fuel: nat, root: Node, tasks: seq<Task>): Run
    decreases fuel, |tasks| + 3
  {
    Sequence(TaskSteps(sc, fuel, root, tasks), |tasks|)
  }

  /** What the loop of `analyze_task_file` would do with each task of a file
      whose node is `root`, taken on its own. */
  function TaskSteps(sc: Scope, fuel: nat, root: Node, tasks: seq<Task>): (steps: seq<Run>)
    ensures |steps| == |tasks|
    decreases fuel, |tasks| + 2
  {
    if tasks == [] then []
    else [TaskStep(sc, fuel, root, tasks[0])] + TaskSteps(sc, fuel, root, tasks[1..])
  }

  /** One task record. A `block` is handed to `parse_block`, which does
      nothing; an include is resolved, analysed, and then linked from `root`. */
  function TaskStep(sc: Scope, fuel: nat, root: Node, task: Task): Run
    decreases fuel, 1
  {
    if task.includeTasks.None? then Run(Pass, NoEffect)
    else
      match ResolveInclude(task.includeTasks.value, sc.vars)
      case Err(e) => Run(Fail(e), NoEffect)
      case Ok(target) =>
        var callee := TaskFile(sc, target, fuel);
        match callee.result
        case Err(e) => Run(Fail(e), callee.added)
        case Ok(node) => Run(Pass, Then(callee.added, Link(root.id, node)))
  }

  /** `analyze_role`: check the role's `tasks` directory, analyse its
      `main.yml`, then append that node and the edge from `parent`. */
  function RoleRun(fs: FileSystem, rolesDir: Path, parent: Node, name: string,
                   vars: map<string, string>, fuel: nat): Run
  {
    var base := RoleTasksDir(rolesDir, name);
    if base !in fs.existing then Run(Fail(RoleNotFound(base)), NoEffect)
    else
      var main := TaskFile(Scope(fs, name, base, vars), MainTaskFile, fuel);
      match main.result
      case Err(e) => Run(Fail(e), main.added)
      case Ok(node) => Run(Pass, Then(main.added, Link(parent.id, node)))
  }

  /** One play: only a play with `roles` does anything, and only with its
      first role. */
  function PlayRun(fs: FileSystem, rolesDir: Path, root: Node, play: Play, fuel: nat): Run {
    if play.roles.None? then Run(Pass, NoEffect)
    else if |play.roles.value| == 0 then Run(Fail(IndexError), NoEffect)
    else RoleRun(fs, rolesDir, root, play.roles.value[0], PlayVars(play), fuel)
  }

  /** What the loop of `analyze_playbook` would do with each play, taken on its own. */
  function PlaySteps(fs: FileSystem, rolesDir: Path, root: Node, plays: seq<Play>, fuel: nat): (steps: seq<Run>)
    ensures |steps| == |plays|
  {
    if plays == [] then []
    else [PlayRun(fs, rolesDir, root, plays[0], fuel)] + PlaySteps(fs, rolesDir, root, plays[1..], fuel)
  }

  /** `analyze_playbook`: load the playbook, append its root node, then
      analyse the plays in order. */
  function PlaybookRun(fs: FileSystem, rolesDir: Path, path: Path, fuel: nat): Run {
    if path !in fs.playbooks then Run(Fail(FileNotFound(path)), NoEffect)
    else if |path| == 0 then Run(Fail(IndexError), NoEffect)
    else
      var root := PlaybookNode(path);
      var plays := fs.playbooks[path];
      var run := Sequence(PlaySteps(fs, rolesDir, root, plays, fuel), |plays|);
      Run(run.outcome, Then(Trace([root], []), run.added))
  }
}
