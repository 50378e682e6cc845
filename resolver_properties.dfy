/** Properties of the resolver specification: how failures end the analysis,
    how the graph is shaped on success, how includes, dynamic includes and
    blocks are handled, and how nodes are named. */
module ResolverProperties {
  import opened Paths
  import opened GraphModel
  import opened Resolver

  // ---------------------------------------------------------------------
  // A failure ends the loop: nothing after it runs and nothing is appended.

  /** Step `k` of a file's loop is task `k` analysed on its own. */
  lemma {:induction false} TaskStepsAt(sc: Scope, fuel: nat, root: Node, tasks: seq<Task>, k: nat)
    requires k < |tasks|
    ensures TaskSteps(sc, fuel, root, tasks)[k] == TaskStep(sc, fuel, root, tasks[k])
    decreases k
  {
    if k > 0 {
      TaskStepsAt(sc, fuel, root, tasks[1..], k - 1);
    }
  }

  /** Step `k` of a playbook's loop is play `k` analysed on its own. */
  lemma {:induction false} PlayStepsAt(fs: FileSystem, rolesDir: Path, root: Node, plays: seq<Play>, fuel: nat, k: nat)
    requires k < |plays|
    ensures PlaySteps(fs, rolesDir, root, plays, fuel)[k] == PlayRun(fs, rolesDir, root, plays[k], fuel)
    decreases k
  {
    if k > 0 {
      PlayStepsAt(fs, rolesDir, root, plays[1..], fuel, k - 1);
    }
  }

  lemma {:induction false} FailureSticks(steps: seq<Run>, i: nat, j: nat)
    requires i <= j <= |steps|
    requires Sequence(steps, i).outcome.Fail?
    ensures Sequence(steps, j) == Sequence(steps, i)
    decreases j
  {
    if j > i {
      FailureSticks(steps, i, j - 1);
    }
  }

  /** With every step passing and appending nothing, the whole run does too. */
  lemma {:induction false} SequenceOfNoEffects(steps: seq<Run>, n: nat)
    requires n <= |steps|
    requires forall k :: 0 <= k < n ==> steps[k] == Run(Pass, NoEffect)
    ensures Sequence(steps, n) == Run(Pass, NoEffect)
  {
    if n > 0 {
      SequenceOfNoEffects(steps, n - 1);
    }
  }

  // ---------------------------------------------------------------------
  // The shape of what a successful analysis appends.

  /** Some node after position `j` has id `src`. */
  predicate IncluderAfter(nodes: seq<Node>, j: nat, src: string) {
    exists k :: j < k < |nodes| && nodes[k].id == src
  }

  /** `t` pairs every appended node with the edge that reaches it: edge `j`
      ends at node `j`, and starts at `pending` (the node of the file doing
      the including, which is not in `t`: its caller appends it) or at a node
      appended after node `j`. So a callee always precedes its includer. */
  predicate Aligned(t: Trace, pending: string) {
    && |t.nodes| == |t.edges|
    && (forall j {:trigger t.edges[j]} :: 0 <= j < |t.edges| ==> t.edges[j].dst == t.nodes[j].id)
    && (forall j {:trigger t.edges[j]} :: 0 <= j < |t.edges| ==> t.edges[j].src == pending || IncluderAfter(t.nodes, j, t.edges[j].src))
  }

  /** Every node of `t` is a task-file node whose id and label start with `prefix`. */
  predicate Under(t: Trace, prefix: string) {
    forall j :: 0 <= j < |t.nodes| ==>
      t.nodes[j].kind == TaskKind && prefix <= t.nodes[j].id && prefix <= t.nodes[j].title
  }

  lemma PrefixOfAppend(a: string, b: string)
    ensures a <= a + b
  {
    assert (a + b)[..|a|] == a;
  }

  lemma ThenAligned(a: Trace, b: Trace, pending: string)
    requires Aligned(a, pending) && Aligned(b, pending)
    ensures Aligned(Then(a, b), pending)
  {
    var t := Then(a, b);
    forall j | 0 <= j < |t.edges|
      ensures t.edges[j].dst == t.nodes[j].id
      ensures t.edges[j].src == pending || IncluderAfter(t.nodes, j, t.edges[j].src)
    {
      if j < |a.edges| {
        assert t.edges[j] == a.edges[j] && t.nodes[j] == a.nodes[j];
        if a.edges[j].src != pending {
          var k :| j < k < |a.nodes| && a.nodes[k].id == a.edges[j].src;
          assert t.nodes[k] == a.nodes[k];
        }
      } else {
        var i := j - |a.edges|;
        assert t.edges[j] == b.edges[i] && t.nodes[j] == b.nodes[i];
        if b.edges[i].src != pending {
          var k :| i < k < |b.nodes| && b.nodes[k].id == b.edges[i].src;
          assert t.nodes[k + |a.nodes|] == b.nodes[k];
        }
      }
    }
  }

  lemma ThenUnder(a: Trace, b: Trace, prefix: string)
    requires Under(a, prefix) && Under(b, prefix)
    ensures Under(Then(a, b), prefix)
  {
    var t := Then(a, b);
    forall j | 0 <= j < |t.nodes|
      ensures t.nodes[j].kind == TaskKind && prefix <= t.nodes[j].id && prefix <= t.nodes[j].title
    {
      if j < |a.nodes| {
        assert t.nodes[j] == a.nodes[j];
      } else {
        assert t.nodes[j] == b.nodes[j - |a.nodes|];
      }
    }
  }

  /** Appending the includer's link closes the pending end: the edges that
      started at `node` now start at a later node, and the new edge starts at
      `caller`. */
  lemma LinkAligned(a: Trace, node: Node, caller: string)
    requires Aligned(a, node.id)
    ensures Aligned(Then(a, Link(caller, node)), caller)
  {
    var t := Then(a, Link(caller, node));
    var n := |a.nodes|;
    assert t.nodes[n] == node && t.edges[n] == Edge(caller, node.id);
    forall j | 0 <= j < |t.edges|
      ensures t.edges[j].dst == t.nodes[j].id
      ensures t.edges[j].src == caller || IncluderAfter(t.nodes, j, t.edges[j].src)
    {
      if j < n {
        assert t.edges[j] == a.edges[j] && t.nodes[j] == a.nodes[j];
        if a.edges[j].src != node.id {
          var k :| j < k < n && a.nodes[k].id == a.edges[j].src;
          assert t.nodes[k] == a.nodes[k];
        }
      }
    }
  }

  lemma LinkUnder(a: Trace, node: Node, caller: string, prefix: string)
    requires Under(a, prefix)
    requires node.kind == TaskKind && prefix <= node.id && prefix <= node.title
    ensures Under(Then(a, Link(caller, node)), prefix)
  {
    ThenUnder(a, Link(caller, node), prefix);
  }

  lemma PrefixWeaken(t: Trace, short: string, long: string)
    requires short <= long && Under(t, long)
    ensures Under(t, short)
  {
  }

  /** If every step that passes appends an aligned trace under `prefix`, a
      run of the steps that passes does too. */
  lemma {:induction false} SequenceShape(steps: seq<Run>, n: nat, pending: string, prefix: string)
    requires n <= |steps|
    requires forall k :: 0 <= k < n && steps[k].outcome.Pass? ==> Aligned(steps[k].added, pending) && Under(steps[k].added, prefix)
    ensures Sequence(steps, n).outcome.Pass? ==> Aligned(Sequence(steps, n).added, pending) && Under(Sequence(steps, n).added, prefix)
  {
    if n > 0 {
      SequenceShape(steps, n - 1, pending, prefix);
      var prev := Sequence(steps, n - 1);
      if prev.outcome.Pass? && steps[n - 1].outcome.Pass? {
        ThenAligned(prev.added, steps[n - 1].added, pending);
        ThenUnder(prev.added, steps[n - 1].added, prefix);
      }
    }
  }

  /** A task file that is analysed successfully returns the node named by
      `TaskFileNode`, does not append that node itself, and appends only
      nodes of the same role, each together with its incoming edge. */
  lemma {:induction false} TaskFileShape(sc: Scope, file: string, fuel: nat)
    ensures var run := TaskFile(sc, file, fuel);
            run.result.Ok? ==>
              && |Join(sc.base, file)| > 0
              && run.result.value == TaskFileNode(sc.role, sc.base, file)
              && Aligned(run.added, run.result.value.id)
              && Under(run.added, RolePrefix(sc.role))
    decreases fuel, 0
  {
    if fuel > 0 {
      var path := Join(sc.base, file);
      if path in sc.fs.taskFiles && |path| > 0 {
        var root := TaskFileNode(sc.role, sc.base, file);
        var tasks := sc.fs.taskFiles[path];
        var steps := TaskSteps(sc, fuel - 1, root, tasks);
        forall k | 0 <= k < |tasks| && steps[k].outcome.Pass?
          ensures Aligned(steps[k].added, root.id) && Under(steps[k].added, RolePrefix(sc.role))
        {
          TaskStepsAt(sc, fuel - 1, root, tasks, k);
          TaskStepShape(sc, fuel - 1, root, tasks[k]);
        }
        SequenceShape(steps, |tasks|, root.id, RolePrefix(sc.role));
      }
    }
  }

  /** A task that passes appends, if anything, its callee's trace followed by
      the callee's node and the edge from the current file's node `root`. */
  lemma {:induction false} TaskStepShape(sc: Scope, fuel: nat, root: Node, task: Task)
    ensures var run := TaskStep(sc, fuel, root, task);
            run.outcome.Pass? ==> Aligned(run.added, root.id) && Under(run.added, RolePrefix(sc.role))
    ensures task.includeTasks.None? ==> TaskStep(sc, fuel, root, task) == Run(Pass, NoEffect)
    ensures var run := TaskStep(sc, fuel, root, task);
            run.outcome.Pass? && task.includeTasks.Some? ==>
              && ResolveInclude(task.includeTasks.value, sc.vars).Ok?
              && var target := ResolveInclude(task.includeTasks.value, sc.vars).value;
                 var callee := TaskFile(sc, target, fuel).added;
                 && |Join(sc.base, target)| > 0
                 && var node := TaskFileNode(sc.role, sc.base, target);
                    && run.added.nodes == callee.nodes + [node]
                    && run.added.edges == callee.edges + [Edge(root.id, node.id)]
    decreases fuel, 1
  {
    if task.includeTasks.Some? {
      var resolved := ResolveInclude(task.includeTasks.value, sc.vars);
      if resolved.Ok? {
        var callee := TaskFile(sc, resolved.value, fuel);
        TaskFileShape(sc, resolved.value, fuel);
        if callee.result.Ok? {
          var node := callee.result.value;
          PrefixOfAppend(RolePrefix(sc.role), Basename(Join(sc.base, resolved.value)));
          PrefixOfAppend(RolePrefix(sc.role), resolved.value);
          LinkAligned(callee.added, node, root.id);
          LinkUnder(callee.added, node, root.id, RolePrefix(sc.role));
        }
      }
    }
  }

  /** No edge of an aligned trace under `prefix` leaves a node outside `prefix`. */
  lemma NoEdgesFromOutside(t: Trace, pending: string, prefix: string, x: string)
    requires Aligned(t, pending) && Under(t, prefix)
    requires prefix <= pending && !(prefix <= x)
    ensures EdgesFrom(t.edges, x) == 0
  {
    forall j | 0 <= j < |t.edges|
      ensures t.edges[j].src != x
    {
      if t.edges[j].src != pending {
        var k :| j < k < |t.nodes| && t.nodes[k].id == t.edges[j].src;
      }
    }
    EdgesFromNone(t.edges, x);
  }

  lemma RolePrefixIsRole(role: string)
    ensures "role/" <= RolePrefix(role)
  {
    PrefixOfAppend("role/", role + "/");
    assert RolePrefix(role) == "role/" + (role + "/");
  }

  /** `<rolesDir>/<name>/tasks` is `role_dir / "tasks"` for `role_dir = rolesDir.joinpath(name)`. */
  lemma RoleTasksDirIsJoin(rolesDir: Path, name: string)
    ensures RoleTasksDir(rolesDir, name) == Join(Join(rolesDir, name), TasksDir)
  {
    JoinPlainName(Join(rolesDir, name), TasksDir);
  }

  /** The node of a role's `main.yml`: id and label are both `role/<name>/main.yml`. */
  lemma MainNodeNaming(rolesDir: Path, name: string)
    ensures |Join(RoleTasksDir(rolesDir, name), MainTaskFile)| > 0
    ensures TaskFileNode(name, RoleTasksDir(rolesDir, name), MainTaskFile)
            == Node(RolePrefix(name) + MainTaskFile, RolePrefix(name) + MainTaskFile, TaskKind)
  {
    JoinPlainName(RoleTasksDir(rolesDir, name), MainTaskFile);
  }

  /** `analyze_role` fails before appending anything when the role has no
      `tasks` directory. When it succeeds it has appended the trace of
      `main.yml`, then that file's node, then one edge from `parent`, which is
      the only edge leaving `parent`. */
  lemma RoleShape(fs: FileSystem, rolesDir: Path, parent: Node, name: string, vars: map<string, string>, fuel: nat)
    requires !("role/" <= parent.id)
    ensures var run := RoleRun(fs, rolesDir, parent, name, vars, fuel);
            RoleTasksDir(rolesDir, name) !in fs.existing ==>
              run == Run(Fail(RoleNotFound(RoleTasksDir(rolesDir, name))), NoEffect)
    ensures var run := RoleRun(fs, rolesDir, parent, name, vars, fuel);
            var main := Node(RolePrefix(name) + MainTaskFile, RolePrefix(name) + MainTaskFile, TaskKind);
            run.outcome.Pass? ==>
              && |run.added.nodes| > 0 && |run.added.edges| > 0
              && run.added.nodes[|run.added.nodes| - 1] == main
              && run.added.edges[|run.added.edges| - 1] == Edge(parent.id, main.id)
              && Aligned(run.added, parent.id)
              && Under(run.added, RolePrefix(name))
              && EdgesFrom(run.added.edges, parent.id) == 1
  {
    var base := RoleTasksDir(rolesDir, name);
    if base in fs.existing {
      var sc := Scope(fs, name, base, vars);
      var main := TaskFile(sc, MainTaskFile, fuel);
      TaskFileShape(sc, MainTaskFile, fuel);
      if main.result.Ok? {
        var node := main.result.value;
        MainNodeNaming(rolesDir, name);
        PrefixOfAppend(RolePrefix(name), MainTaskFile);
        LinkAligned(main.added, node, parent.id);
        LinkUnder(main.added, node, parent.id, RolePrefix(name));
        RolePrefixIsRole(name);
        assert !(RolePrefix(name) <= parent.id);
        NoEdgesFromOutside(main.added, node.id, RolePrefix(name), parent.id);
        EdgesFromConcat(main.added.edges, [Edge(parent.id, node.id)], parent.id);
        assert EdgesFrom([Edge(parent.id, node.id)], parent.id) == 1;
      }
    }
  }

  /** The number of the first `n` plays that have a `roles` key. */
  function RolePlays(plays: seq<Play>, n: nat): (count: nat)
    requires n <= |plays|
    ensures count <= n
  {
    if n == 0 then 0 else RolePlays(plays, n - 1) + (if plays[n - 1].roles.Some? then 1 else 0)
  }

  /** A play that passes appends only task-file nodes, each with its
      incoming edge, and one edge from the root if it has roles, none
      otherwise. */
  lemma PlayShape(fs: FileSystem, rolesDir: Path, root: Node, play: Play, fuel: nat)
    requires !("role/" <= root.id)
    ensures var run := PlayRun(fs, rolesDir, root, play, fuel);
            run.outcome.Pass? ==>
              && Aligned(run.added, root.id)
              && Under(run.added, "role/")
              && EdgesFrom(run.added.edges, root.id) == if play.roles.Some? then 1 else 0
  {
    var run := PlayRun(fs, rolesDir, root, play, fuel);
    if play.roles.Some? && run.outcome.Pass? {
      var name := play.roles.value[0];
      RoleShape(fs, rolesDir, root, name, PlayVars(play), fuel);
      RolePrefixIsRole(name);
      PrefixWeaken(run.added, "role/", RolePrefix(name));
    }
  }

  lemma PlayShapeAt(fs: FileSystem, rolesDir: Path, root: Node, plays: seq<Play>, fuel: nat, k: nat)
    requires k < |plays| && !("role/" <= root.id)
    ensures var step := PlaySteps(fs, rolesDir, root, plays, fuel)[k];
            step.outcome.Pass? ==>
              && Aligned(step.added, root.id)
              && Under(step.added, "role/")
              && EdgesFrom(step.added.edges, root.id) == if plays[k].roles.Some? then 1 else 0
  {
    PlayStepsAt(fs, rolesDir, root, plays, fuel, k);
    PlayShape(fs, rolesDir, root, plays[k], fuel);
  }

  /** Over the plays, a passing run appends only task-file nodes, each with
      its incoming edge, and exactly one edge from the root per play with
      roles. */
  lemma {:induction false} PlaysShape(fs: FileSystem, rolesDir: Path, root: Node, plays: seq<Play>, n: nat, fuel: nat)
    requires n <= |plays|
    requires !("role/" <= root.id)
    ensures var run := Sequence(PlaySteps(fs, rolesDir, root, plays, fuel), n);
            run.outcome.Pass? ==>
              && Aligned(run.added, root.id)
              && Under(run.added, "role/")
              && EdgesFrom(run.added.edges, root.id) == RolePlays(plays, n)
  {
    if n > 0 {
      var steps := PlaySteps(fs, rolesDir, root, plays, fuel);
      PlaysShape(fs, rolesDir, root, plays, n - 1, fuel);
      PlayShapeAt(fs, rolesDir, root, plays, fuel, n - 1);
      var prev := Sequence(steps, n - 1);
      var step := steps[n - 1];
      if prev.outcome.Pass? && step.outcome.Pass? {
        ThenAligned(prev.added, step.added, root.id);
        ThenUnder(prev.added, step.added, "role/");
        EdgesFromConcat(prev.added.edges, step.added.edges, root.id);
      }
    }
  }

  lemma PlaybookNotRole(path: Path)
    requires |path| > 0
    ensures !("role/" <= PlaybookNode(path).id)
  {
    assert PlaybookNode(path).id[0] == 'p';
  }

  /** A graph whose first node is `root`: every other node is a task-file
      node following the edge that reaches it, and every edge starts at the
      root or at a node appended after its target. So each edge's endpoints
      are nodes of the graph, and a callee precedes its includer. */
  predicate Rooted(g: Trace, root: Node) {
    && |g.nodes| == |g.edges| + 1
    && g.nodes[0] == root
    && (forall j :: 1 <= j < |g.nodes| ==> g.nodes[j].kind == TaskKind)
    && (forall j {:trigger g.edges[j]} :: 0 <= j < |g.edges| ==> g.edges[j].dst == g.nodes[j + 1].id)
    && (forall j {:trigger g.edges[j]} :: 0 <= j < |g.edges| ==> g.edges[j].src == root.id || IncluderAfter(g.nodes, j + 1, g.edges[j].src))
  }

  /** The root followed by an aligned trace of task-file nodes is rooted. */
  lemma RootedShape(t: Trace, root: Node)
    requires Aligned(t, root.id) && Under(t, "role/")
    ensures Rooted(Then(Trace([root], []), t), root)
  {
    RootedKinds(t, root);
    RootedEdges(t, root);
  }

  lemma RootedKinds(t: Trace, root: Node)
    requires forall j :: 0 <= j < |t.nodes| ==> t.nodes[j].kind == TaskKind
    ensures forall j :: 1 <= j < |t.nodes| + 1 ==> Then(Trace([root], []), t).nodes[j].kind == TaskKind
  {
    var g := Then(Trace([root], []), t);
    forall j | 1 <= j < |g.nodes|
      ensures g.nodes[j].kind == TaskKind
    {
      assert g.nodes[j] == t.nodes[j - 1];
    }
  }

  lemma RootedEdges(t: Trace, root: Node)
    requires Aligned(t, root.id)
    ensures var g := Then(Trace([root], []), t);
            forall j {:trigger g.edges[j]} :: 0 <= j < |g.edges| ==>
              g.edges[j].dst == g.nodes[j + 1].id
              && (g.edges[j].src == root.id || IncluderAfter(g.nodes, j + 1, g.edges[j].src))
  {
    var g := Then(Trace([root], []), t);
    assert g.edges == t.edges;
    assert g.nodes[1..] == t.nodes;
    forall j | 0 <= j < |g.edges|
      ensures g.edges[j].dst == g.nodes[j + 1].id
      ensures g.edges[j].src == root.id || IncluderAfter(g.nodes, j + 1, g.edges[j].src)
    {
      assert g.nodes[j + 1] == g.nodes[1..][j];
      if g.edges[j].src != root.id {
        var k :| j < k < |t.nodes| && t.nodes[k].id == t.edges[j].src;
        var i := k + 1;
        assert g.nodes[i] == g.nodes[1..][k];
      }
    }
  }

  /** A successfully analysed playbook gives a rooted graph whose root has
      one outgoing edge per play with roles. */
  lemma PlaybookShape(fs: FileSystem, rolesDir: Path, path: Path, fuel: nat)
    requires path in fs.playbooks && |path| > 0
    ensures var run := PlaybookRun(fs, rolesDir, path, fuel);
            run.outcome.Pass? ==>
              && Rooted(run.added, PlaybookNode(path))
              && EdgesFrom(run.added.edges, PlaybookNode(path).id) == RolePlays(fs.playbooks[path], |fs.playbooks[path]|)
  {
    var root := PlaybookNode(path);
    var plays := fs.playbooks[path];
    var run := Sequence(PlaySteps(fs, rolesDir, root, plays, fuel), |plays|);
    PlaybookNotRole(path);
    PlaysShape(fs, rolesDir, root, plays, |plays|, fuel);
    if run.outcome.Pass? {
      RootedShape(run.added, root);
      assert Then(Trace([root], []), run.added).edges == run.added.edges;
    }
  }

  // ---------------------------------------------------------------------
  // Edge count: one edge per include task followed, one per analysed role.

  /** The include tasks met, at any depth, when analysing `file`: every task
      with an `include_tasks` key counts once, plus what its target meets. */
  function FileIncludes(sc: Scope, file: string, fuel: nat): nat
    decreases fuel, 0
  {
    if fuel == 0 then 0
    else
      var path := Join(sc.base, file);
      if path !in sc.fs.taskFiles then 0 else TasksIncludes(sc, fuel - 1, sc.fs.taskFiles[path])
  }

  function TasksIncludes(sc: Scope, fuel: nat, tasks: seq<Task>): nat
    decreases fuel, |tasks| + 2
  {
    if tasks == [] then 0
    else TasksIncludes(sc, fuel, tasks[..|tasks| - 1]) + TaskIncludes(sc, fuel, tasks[|tasks| - 1])
  }

  function TaskIncludes(sc: Scope, fuel: nat, task: Task): nat
    decreases fuel, 1
  {
    if task.includeTasks.None? then 0
    else
      match ResolveInclude(task.includeTasks.value, sc.vars)
      case Err(_) => 1
      case Ok(target) => 1 + FileIncludes(sc, target, fuel)
  }

  /** A file analysed successfully appends one edge per include task met below it. */
  lemma {:induction false} TaskFileEdges(sc: Scope, file: string, fuel: nat)
    ensures var run := TaskFile(sc, file, fuel);
            run.result.Ok? ==> |run.added.edges| == FileIncludes(sc, file, fuel)
    decreases fuel, 0
  {
    if fuel > 0 {
      var path := Join(sc.base, file);
      if path in sc.fs.taskFiles && |path| > 0 {
        var tasks := sc.fs.taskFiles[path];
        ScanEdges(sc, fuel - 1, TaskFileNode(sc.role, sc.base, file), tasks, |tasks|);
        assert tasks[..|tasks|] == tasks;
      }
    }
  }

  lemma {:induction false} ScanEdges(sc: Scope, fuel: nat, root: Node, tasks: seq<Task>, n: nat)
    requires n <= |tasks|
    ensures var run := Sequence(TaskSteps(sc, fuel, root, tasks), n);
            run.outcome.Pass? ==> |run.added.edges| == TasksIncludes(sc, fuel, tasks[..n])
    decreases fuel, n + 2
  {
    if n > 0 {
      ScanEdges(sc, fuel, root, tasks, n - 1);
      TaskStepsAt(sc, fuel, root, tasks, n - 1);
      TaskStepEdges(sc, fuel, root, tasks[n - 1]);
      assert tasks[..n][..n - 1] == tasks[..n - 1];
      assert tasks[..n][n - 1] == tasks[n - 1];
    }
  }

  lemma {:induction false} TaskStepEdges(sc: Scope, fuel: nat, root: Node, task: Task)
    ensures var run := TaskStep(sc, fuel, root, task);
            run.outcome.Pass? ==> |run.added.edges| == TaskIncludes(sc, fuel, task)
    decreases fuel, 1
  {
    if task.includeTasks.Some? {
      var resolved := ResolveInclude(task.includeTasks.value, sc.vars);
      if resolved.Ok? {
        TaskFileEdges(sc, resolved.value, fuel);
      }
    }
  }

  /** The include tasks met in the `main.yml` of a play's first role. */
  function PlayIncludes(fs: FileSystem, rolesDir: Path, play: Play, fuel: nat): nat {
    if play.roles.None? || |play.roles.value| == 0 then 0
    else
      var name := play.roles.value[0];
      FileIncludes(Scope(fs, name, RoleTasksDir(rolesDir, name), PlayVars(play)), MainTaskFile, fuel)
  }

  /** The include tasks met in the first `n` plays. */
  function PlaysIncludes(fs: FileSystem, rolesDir: Path, plays: seq<Play>, n: nat, fuel: nat): nat
    requires n <= |plays|
  {
    if n == 0 then 0 else PlaysIncludes(fs, rolesDir, plays, n - 1, fuel) + PlayIncludes(fs, rolesDir, plays[n - 1], fuel)
  }

  /** A play that passes appends one edge for its role, if it has `roles`,
      and one per include task met in that role. */
  lemma PlayEdgesAt(fs: FileSystem, rolesDir: Path, root: Node, plays: seq<Play>, fuel: nat, k: nat)
    requires k < |plays|
    ensures var step := PlaySteps(fs, rolesDir, root, plays, fuel)[k];
            step.outcome.Pass? ==>
              |step.added.edges| == (if plays[k].roles.Some? then 1 else 0) + PlayIncludes(fs, rolesDir, plays[k], fuel)
  {
    PlayStepsAt(fs, rolesDir, root, plays, fuel, k);
    var play := plays[k];
    if play.roles.Some? && |play.roles.value| > 0 {
      var name := play.roles.value[0];
      TaskFileEdges(Scope(fs, name, RoleTasksDir(rolesDir, name), PlayVars(play)), MainTaskFile, fuel);
    }
  }

  lemma {:induction false} PlaysEdges(fs: FileSystem, rolesDir: Path, root: Node, plays: seq<Play>, n: nat, fuel: nat)
    requires n <= |plays|
    ensures var run := Sequence(PlaySteps(fs, rolesDir, root, plays, fuel), n);
            run.outcome.Pass? ==> |run.added.edges| == RolePlays(plays, n) + PlaysIncludes(fs, rolesDir, plays, n, fuel)
  {
    if n > 0 {
      PlaysEdges(fs, rolesDir, root, plays, n - 1, fuel);
      PlayEdgesAt(fs, rolesDir, root, plays, fuel, n - 1);
    }
  }

  /** A successfully analysed playbook has one edge per play with roles plus
      one per include task met in those roles' task files, at any depth. */
  lemma PlaybookEdgeCount(fs: FileSystem, rolesDir: Path, path: Path, fuel: nat)
    requires path in fs.playbooks
    ensures var run := PlaybookRun(fs, rolesDir, path, fuel);
            var plays := fs.playbooks[path];
            run.outcome.Pass? ==>
              |run.added.edges| == RolePlays(plays, |plays|) + PlaysIncludes(fs, rolesDir, plays, |plays|, fuel)
  {
    if |path| > 0 {
      var plays := fs.playbooks[path];
      PlaysEdges(fs, rolesDir, PlaybookNode(path), plays, |plays|, fuel);
    }
  }

  /** A playbook none of whose plays has `roles` gives one node, with id and
      label `playbook/<last part of the path>`, and no edge. */
  lemma NoRolesGraph(fs: FileSystem, rolesDir: Path, path: Path, fuel: nat)
    requires path in fs.playbooks && |path| > 0
    requires forall k :: 0 <= k < |fs.playbooks[path]| ==> fs.playbooks[path][k].roles.None?
    ensures var id := "playbook/" + path[|path| - 1];
            PlaybookRun(fs, rolesDir, path, fuel) == Run(Pass, Trace([Node(id, id, PlaybookKind)], []))
  {
    var plays := fs.playbooks[path];
    var steps := PlaySteps(fs, rolesDir, PlaybookNode(path), plays, fuel);
    forall k | 0 <= k < |plays|
      ensures steps[k] == Run(Pass, NoEffect)
    {
      PlayStepsAt(fs, rolesDir, PlaybookNode(path), plays, fuel, k);
    }
    SequenceOfNoEffects(steps, |plays|);
  }

  // ---------------------------------------------------------------------
  // Plays.

  /** Only the first role of a play is analysed: plays whose first role and
      variables agree analyse the same way, whatever else they list. */
  lemma OnlyFirstRole(fs: FileSystem, rolesDir: Path, root: Node, play: Play, other: Play, fuel: nat)
    requires play.roles.Some? && other.roles.Some?
    requires |play.roles.value| > 0 && |other.roles.value| > 0
    requires play.roles.value[0] == other.roles.value[0] && play.vars == other.vars
    ensures PlayRun(fs, rolesDir, root, play, fuel) == PlayRun(fs, rolesDir, root, other, fuel)
  {
  }

  /** A play without `vars` behaves as one with an empty `vars` mapping. */
  lemma AbsentVarsAreEmpty(fs: FileSystem, rolesDir: Path, root: Node, roles: Option<seq<string>>, fuel: nat)
    ensures PlayRun(fs, rolesDir, root, Play(roles, None), fuel)
         == PlayRun(fs, rolesDir, root, Play(roles, Some(map[])), fuel)
  {
  }

  /** An empty `roles` list fails on `[0]`, appending nothing. */
  lemma EmptyRolesFails(fs: FileSystem, rolesDir: Path, root: Node, vars: Option<map<string, string>>, fuel: nat)
    ensures PlayRun(fs, rolesDir, root, Play(Some([]), vars), fuel) == Run(Fail(IndexError), NoEffect)
  {
  }

  /** A task file fails, appending nothing, at the recursion limit and when
      the joined path names no file. */
  lemma TaskFileFailsEarly(sc: Scope, file: string, fuel: nat)
    ensures fuel == 0 ==> TaskFile(sc, file, fuel) == FileRun(Err(RecursionLimit), NoEffect)
    ensures fuel > 0 && Join(sc.base, file) !in sc.fs.taskFiles ==>
              TaskFile(sc, file, fuel) == FileRun(Err(FileNotFound(Join(sc.base, file))), NoEffect)
  {
  }

  // ---------------------------------------------------------------------
  // Node names.

  /** An include value `dir/name` gives a node whose id uses only the last
      part `name` while its label keeps the value as written, so the two
      differ. */
  lemma NestedIncludeNaming(role: string, base: Path, dir: string, name: string)
    requires IsPlainName(name)
    ensures |Join(base, dir + "/" + name)| > 0
    ensures TaskFileNode(role, base, dir + "/" + name)
            == Node(RolePrefix(role) + name, RolePrefix(role) + (dir + "/" + name), TaskKind)
    ensures TaskFileNode(role, base, dir + "/" + name).id != TaskFileNode(role, base, dir + "/" + name).title
  {
    BasenameOfNested(base, dir, name);
    var node := TaskFileNode(role, base, dir + "/" + name);
    assert |node.title| > |node.id|;
  }

  /** A plain file name gives a node whose id and label agree. */
  lemma PlainIncludeNaming(role: string, base: Path, name: string)
    requires IsPlainName(name)
    ensures |Join(base, name)| > 0
    ensures TaskFileNode(role, base, name) == Node(RolePrefix(role) + name, RolePrefix(role) + name, TaskKind)
  {
    JoinPlainName(base, name);
  }

  // ---------------------------------------------------------------------
  // Dynamic includes.

  /** A value without `{{` is the file name itself, relative to the same base
      directory; a templated value resolves, if at all, to a non-empty value
      of some play variable; only templated values fail. */
  lemma ResolveIncludeCases(value: string, vars: map<string, string>)
    ensures !HasTemplateMarker(value) ==> ResolveInclude(value, vars) == Ok(value)
    ensures HasTemplateMarker(value) && ResolveInclude(value, vars).Ok? ==>
              ResolveInclude(value, vars).value != "" && ResolveInclude(value, vars).value in vars.Values
    ensures ResolveInclude(value, vars).Err? ==> HasTemplateMarker(value)
  {
  }

  /** `"{{ v }}".split(" ")` is the three tokens `{{`, `v` and `}}`. */
  lemma SplitTemplate(v: string)
    requires ' ' !in v
    ensures Split("{{ " + v + " }}", ' ') == ["{{", v, "}}"]
  {
    var s := "{{ " + v + " }}";
    assert s == "{{" + [' '] + (v + [' '] + "}}");
    SplitAtSeparator("{{", v + [' '] + "}}", ' ');
    SplitAtSeparator(v, "}}", ' ');
    SplitWithoutSeparator("{{", ' ');
    SplitWithoutSeparator(v, ' ');
    SplitWithoutSeparator("}}", ' ');
  }

  /** `{{ v }}` resolves to the play variable `v`, or fails naming `v` when
      that variable is absent or empty. */
  lemma TemplateResolves(v: string, vars: map<string, string>)
    requires ' ' !in v
    ensures ResolveInclude("{{ " + v + " }}", vars)
            == if v in vars && vars[v] != "" then Ok(vars[v]) else Err(MissingVariable(v))
  {
    SplitTemplate(v);
    var s := "{{ " + v + " }}";
    assert s[0] == '{' && s[1] == '{';
  }

  /** A templated value with no space in it has no second token. */
  lemma UnsplittableTemplate(value: string, vars: map<string, string>)
    requires HasTemplateMarker(value) && ' ' !in value
    ensures ResolveInclude(value, vars) == Err(IndexError)
  {
    SplitWithoutSeparator(value, ' ');
  }

  /** An include of `{{ v }}` does exactly what an include of the value of
      `v` would, when that value is not itself templated. */
  lemma DynamicMatchesStatic(sc: Scope, fuel: nat, root: Node, block: Option<seq<Task>>, v: string)
    requires ' ' !in v && v in sc.vars && sc.vars[v] != "" && !HasTemplateMarker(sc.vars[v])
    ensures TaskStep(sc, fuel, root, Task(block, Some("{{ " + v + " }}")))
         == TaskStep(sc, fuel, root, Task(block, Some(sc.vars[v])))
  {
    TemplateResolves(v, sc.vars);
  }

  /** An include of `{{ v }}` with `v` absent or empty fails before it
      appends anything. */
  lemma MissingVariableAddsNothing(sc: Scope, fuel: nat, root: Node, block: Option<seq<Task>>, v: string)
    requires ' ' !in v && (v !in sc.vars || sc.vars[v] == "")
    ensures TaskStep(sc, fuel, root, Task(block, Some("{{ " + v + " }}"))) == Run(Fail(MissingVariable(v)), NoEffect)
  {
    TemplateResolves(v, sc.vars);
  }

  // ---------------------------------------------------------------------
  // Runs of consecutive steps.

  lemma ChainAssoc(a: Run, b: Run, c: Run)
    ensures Chain(Chain(a, b), c) == Chain(a, Chain(b, c))
  {
    if a.outcome.Pass? && b.outcome.Pass? {
      ConcatAssoc(a.added.nodes, b.added.nodes, c.added.nodes);
      ConcatAssoc(a.added.edges, b.added.edges, c.added.edges);
    }
  }

  /** A step that passes and appends nothing may be dropped. */
  lemma ChainNoEffect(a: Run)
    ensures Chain(a, Run(Pass, NoEffect)) == a
    ensures Chain(Run(Pass, NoEffect), a) == a
  {
    assert a.added.nodes + [] == a.added.nodes && a.added.edges + [] == a.added.edges;
  }

  lemma SequenceStep(steps: seq<Run>, n: nat)
    requires 0 < n <= |steps|
    ensures Sequence(steps, n) == Chain(Sequence(steps, n - 1), steps[n - 1])
  {
  }

  /** A run sees only the steps it has reached. */
  lemma {:induction false} SequencePrefix(s: seq<Run>, t: seq<Run>, n: nat)
    requires n <= |s| && n <= |t| && s[..n] == t[..n]
    ensures Sequence(s, n) == Sequence(t, n)
  {
    if n > 0 {
      assert s[..n - 1] == s[..n][..n - 1] && t[..n - 1] == t[..n][..n - 1];
      assert s[n - 1] == s[..n][n - 1] && t[n - 1] == t[..n][n - 1];
      SequencePrefix(s, t, n - 1);
      SequenceStep(s, n);
      SequenceStep(t, n);
    }
  }

  /** Running two lists of steps one after the other is running their concatenation. */
  lemma {:induction false} SequenceConcat(s1: seq<Run>, s2: seq<Run>)
    ensures Sequence(s1 + s2, |s1 + s2|) == Chain(Sequence(s1, |s1|), Sequence(s2, |s2|))
    decreases |s2|
  {
    if s2 == [] {
      assert s1 + s2 == s1;
      ChainNoEffect(Sequence(s1, |s1|));
    } else {
      var init := s2[..|s2| - 1];
      var last := s2[|s2| - 1];
      var n := |s1 + s2|;
      assert (s1 + s2)[..n - 1] == (s1 + init)[..n - 1];
      SequencePrefix(s1 + s2, s1 + init, n - 1);
      SequenceConcat(s1, init);
      assert (s1 + s2)[n - 1] == last;
      assert s2[..|s2| - 1] == init[..|s2| - 1];
      SequencePrefix(s2, init, |s2| - 1);
      SequenceStep(s1 + s2, n);
      SequenceStep(s2, |s2|);
      ChainAssoc(Sequence(s1, |s1|), Sequence(init, |init|), last);
    }
  }

  lemma {:induction false} TaskStepsConcat(sc: Scope, fuel: nat, root: Node, a: seq<Task>, b: seq<Task>)
    ensures TaskSteps(sc, fuel, root, a + b) == TaskSteps(sc, fuel, root, a) + TaskSteps(sc, fuel, root, b)
  {
    if a != [] {
      assert (a + b)[0] == a[0] && (a + b)[1..] == a[1..] + b;
      TaskStepsConcat(sc, fuel, root, a[1..], b);
    } else {
      assert a + b == b;
    }
  }

  /** Scanning consecutive task lists one after the other is scanning them joined. */
  lemma ScanConcat(sc: Scope, fuel: nat, root: Node, a: seq<Task>, b: seq<Task>)
    ensures Scan(sc, fuel, root, a + b) == Chain(Scan(sc, fuel, root, a), Scan(sc, fuel, root, b))
  {
    TaskStepsConcat(sc, fuel, root, a, b);
    SequenceConcat(TaskSteps(sc, fuel, root, a), TaskSteps(sc, fuel, root, b));
  }

  /** Tasks without an include, `block` tasks among them, are skipped as if absent. */
  lemma TasksWithoutIncludeSkipped(sc: Scope, fuel: nat, root: Node, pre: seq<Task>, plain: seq<Task>, post: seq<Task>)
    requires forall k :: 0 <= k < |plain| ==> plain[k].includeTasks.None?
    ensures Scan(sc, fuel, root, pre + plain + post) == Scan(sc, fuel, root, pre + post)
  {
    var steps := TaskSteps(sc, fuel, root, plain);
    forall k | 0 <= k < |plain|
      ensures steps[k] == Run(Pass, NoEffect)
    {
      TaskStepsAt(sc, fuel, root, plain, k);
    }
    SequenceOfNoEffects(steps, |plain|);
    ScanConcat(sc, fuel, root, pre + plain, post);
    ScanConcat(sc, fuel, root, pre, plain);
    ChainNoEffect(Scan(sc, fuel, root, pre));
    ScanConcat(sc, fuel, root, pre, post);
  }

  // ---------------------------------------------------------------------
  // Blocks.

  /** A task's `block` has no effect: a task without an include appends
      nothing, whatever its block holds, and a task with both is analysed
      for its include alone. The block's own tasks, includes among them, are
      never looked at. */
  lemma BlockIgnored(sc: Scope, fuel: nat, root: Node, block: Option<seq<Task>>, inc: Option<string>)
    ensures TaskStep(sc, fuel, root, Task(block, inc)) == TaskStep(sc, fuel, root, Task(None, inc))
    ensures inc.None? ==> TaskStep(sc, fuel, root, Task(block, inc)) == Run(Pass, NoEffect)
  {
  }

  /** A `block` of plain tasks gives the graph that listing those tasks in its
      place gives; here because neither adds anything, not because the block
      is inlined. */
  lemma PlainBlockMatchesFlattened(sc: Scope, fuel: nat, root: Node, pre: seq<Task>, subs: seq<Task>, post: seq<Task>)
    requires forall k :: 0 <= k < |subs| ==> subs[k].includeTasks.None?
    ensures Scan(sc, fuel, root, pre + [Task(Some(subs), None)] + post) == Scan(sc, fuel, root, pre + subs + post)
  {
    TasksWithoutIncludeSkipped(sc, fuel, root, pre, [Task(Some(subs), None)], post);
    TasksWithoutIncludeSkipped(sc, fuel, root, pre, subs, post);
  }

  /** A `block` task, whatever includes its sub-tasks hold, is skipped as if absent. */
  lemma BlockHidesIncludes(sc: Scope, fuel: nat, root: Node, pre: seq<Task>, subs: seq<Task>, post: seq<Task>)
    ensures Scan(sc, fuel, root, pre + [Task(Some(subs), None)] + post) == Scan(sc, fuel, root, pre + post)
  {
    TasksWithoutIncludeSkipped(sc, fuel, root, pre, [Task(Some(subs), None)], post);
  }
}
