/** The analyzer object: it owns one graph and fills it, playbook by
    playbook, by appending nodes and edges. Every method is proved to append
    exactly what the `Resolver` specification says, and to fail exactly when
    it says. */
module Analyzer {
  import opened Paths
  import opened GraphModel
  import opened Resolver
  import opened ResolverProperties

  class AnsibleGraph {
    /** The directory the roles live in. */
    const rolesDir: Path
    /** The parsed YAML documents and existing paths the analysis reads. */
    const fs: FileSystem
    /** The graph, in insertion order. */
    var nodes: seq<Node>
    var edges: seq<Edge>

    constructor (rolesDir: Path, fs: FileSystem)
      ensures this.rolesDir == rolesDir && this.fs == fs
      ensures nodes == [] && edges == []
    {
      this.rolesDir := rolesDir;
      this.fs := fs;
      nodes := [];
      edges := [];
    }

    /** `add_node`: appends, with no check for an existing node of that id. */
    method AddNode(n: Node)
      modifies this
      ensures nodes == old(nodes) + [n] && edges == old(edges)
    {
      nodes := nodes + [n];
    }

    /** `add_edge`: appends, whether or not the endpoints are nodes yet. */
    method AddEdge(e: Edge)
      modifies this
      ensures edges == old(edges) + [e] && nodes == old(nodes)
    {
      edges := edges + [e];
    }

    /** `parse_block`: does nothing, so it may change nothing. */
    method ParseBlock(block: seq<Task>)
    {
    }

    method AnalyzePlaybook(path: Path, fuel: nat) returns (r: Outcome)
      modifies this
      ensures var run := PlaybookRun(fs, rolesDir, path, fuel);
              r == run.outcome && nodes == old(nodes) + run.added.nodes && edges == old(edges) + run.added.edges
    {
      if path !in fs.playbooks {
        return Fail(FileNotFound(path));
      }
      var plays := fs.playbooks[path];
      if |path| == 0 {
        return Fail(IndexError);
      }
      var root := PlaybookNode(path);
      AddNode(root);
      ghost var added := Sequence(PlaySteps(fs, rolesDir, root, plays, fuel), |plays|).added;
      r := AnalyzePlays(root, plays, fuel);
      ConcatAssoc(old(nodes), [root], added.nodes);
      ConcatAssoc(old(edges), [], added.edges);
    }

    /** The loop of `analyze_playbook` over the plays, whose root is `root`. */
    method AnalyzePlays(root: Node, plays: seq<Play>, fuel: nat) returns (r: Outcome)
      modifies this
      ensures var run := Sequence(PlaySteps(fs, rolesDir, root, plays, fuel), |plays|);
              r == run.outcome && nodes == old(nodes) + run.added.nodes && edges == old(edges) + run.added.edges
    {
      ghost var steps := PlaySteps(fs, rolesDir, root, plays, fuel);
      for i := 0 to |plays|
        invariant Sequence(steps, i).outcome == Pass
        invariant nodes == old(nodes) + Sequence(steps, i).added.nodes
        invariant edges == old(edges) + Sequence(steps, i).added.edges
      {
        ghost var done := Sequence(steps, i).added;
        PlayStepsAt(fs, rolesDir, root, plays, fuel, i);
        SequenceStep(steps, i + 1);
        var o := AnalyzePlay(root, plays[i], fuel);
        ConcatAssoc(old(nodes), done.nodes, steps[i].added.nodes);
        ConcatAssoc(old(edges), done.edges, steps[i].added.edges);
        if o.Fail? {
          FailureSticks(steps, i + 1, |plays|);
          return o;
        }
      }
      return Pass;
    }

    /** One iteration of the loop over plays. */
    method AnalyzePlay(root: Node, play: Play, fuel: nat) returns (r: Outcome)
      modifies this
      ensures var run := PlayRun(fs, rolesDir, root, play, fuel);
              r == run.outcome && nodes == old(nodes) + run.added.nodes && edges == old(edges) + run.added.edges
    {
      if play.roles.Some? {
        var roles := play.roles.value;
        if |roles| == 0 {
          return Fail(IndexError);
        }
        var roleName := roles[0];
        var playVars := if play.vars.Some? then play.vars.value else map[];
        r := AnalyzeRole(root, roleName, playVars, fuel);
      } else {
        r := Pass;
      }
    }

    method AnalyzeRole(parent: Node, name: string, playVars: map<string, string>, fuel: nat) returns (r: Outcome)
      modifies this
      ensures var run := RoleRun(fs, rolesDir, parent, name, playVars, fuel);
              r == run.outcome && nodes == old(nodes) + run.added.nodes && edges == old(edges) + run.added.edges
    {
      var roleDir := Join(rolesDir, name);
      var baseDir := roleDir + [TasksDir];  // `role_dir / "tasks"`, see JoinPlainName
      if baseDir !in fs.existing {
        return Fail(RoleNotFound(baseDir));
      }
      ghost var main := TaskFile(Scope(fs, name, baseDir, playVars), MainTaskFile, fuel);
      var root := AnalyzeTaskFile(name, baseDir, MainTaskFile, playVars, fuel);
      if root.Err? {
        return Fail(root.error);
      }
      AddNode(root.value);
      AddEdge(Edge(parent.id, root.value.id));
      ConcatAssoc(old(nodes), main.added.nodes, [root.value]);
      ConcatAssoc(old(edges), main.added.edges, [Edge(parent.id, root.value.id)]);
      return Pass;
    }

    /** Returns the file's node without adding it: the caller adds it. */
    method AnalyzeTaskFile(role: string, base: Path, file: string, playVars: map<string, string>, fuel: nat)
      returns (r: Result<Node>)
      modifies this
      decreases fuel, 1
      ensures var run := TaskFile(Scope(fs, role, base, playVars), file, fuel);
              r == run.result && nodes == old(nodes) + run.added.nodes && edges == old(edges) + run.added.edges
    {
      if fuel == 0 {
        return Err(RecursionLimit);
      }
      var path := Join(base, file);
      if path !in fs.taskFiles {
        return Err(FileNotFound(path));
      }
      var tasks := fs.taskFiles[path];
      if |path| == 0 {
        return Err(IndexError);
      }
      var root := TaskFileNode(role, base, file);
      var o := AnalyzeTasks(role, base, playVars, fuel - 1, root, tasks);
      if o.Fail? {
        return Err(o.error);
      }
      return Ok(root);
    }

    /** The loop of `analyze_task_file` over the file's tasks, whose node is `root`. */
    method AnalyzeTasks(role: string, base: Path, playVars: map<string, string>, fuel: nat, root: Node, tasks: seq<Task>)
      returns (r: Outcome)
      modifies this
      decreases fuel, 3
      ensures var run := Scan(Scope(fs, role, base, playVars), fuel, root, tasks);
              r == run.outcome && nodes == old(nodes) + run.added.nodes && edges == old(edges) + run.added.edges
    {
      ghost var steps := TaskSteps(Scope(fs, role, base, playVars), fuel, root, tasks);
      for i := 0 to |tasks|
        invariant Sequence(steps, i).outcome == Pass
        invariant nodes == old(nodes) + Sequence(steps, i).added.nodes
        invariant edges == old(edges) + Sequence(steps, i).added.edges
      {
        ghost var done := Sequence(steps, i).added;
        TaskStepsAt(Scope(fs, role, base, playVars), fuel, root, tasks, i);
        SequenceStep(steps, i + 1);
        var o := AnalyzeTask(role, base, playVars, fuel, root, tasks[i]);
        ConcatAssoc(old(nodes), done.nodes, steps[i].added.nodes);
        ConcatAssoc(old(edges), done.edges, steps[i].added.edges);
        if o.Fail? {
          FailureSticks(steps, i + 1, |tasks|);
          return o;
        }
      }
      return Pass;
    }

    /** One iteration of the loop over a file's tasks, whose node is `root`. */
    method AnalyzeTask(role: string, base: Path, playVars: map<string, string>, fuel: nat, root: Node, task: Task)
      returns (r: Outcome)
      modifies this
      decreases fuel, 2
      ensures var run := TaskStep(Scope(fs, role, base, playVars), fuel, root, task);
              r == run.outcome && nodes == old(nodes) + run.added.nodes && edges == old(edges) + run.added.edges
    {
      if task.block.Some? {
        ParseBlock(task.block.value);
      }
      if task.includeTasks.None? {
        return Pass;
      }
      var includePath := task.includeTasks.value;
      if HasTemplateMarker(includePath) {
        var tokens := Split(includePath, ' ');
        if |tokens| < 2 {
          return Fail(IndexError);
        }
        var includePathVar := tokens[1];
        if includePathVar !in playVars || playVars[includePathVar] == "" {
          return Fail(MissingVariable(includePathVar));
        }
        includePath := playVars[includePathVar];
      }
      assert ResolveInclude(task.includeTasks.value, playVars) == Ok(includePath);
      ghost var callee := TaskFile(Scope(fs, role, base, playVars), includePath, fuel);
      var node := AnalyzeTaskFile(role, base, includePath, playVars, fuel);
      if node.Err? {
        return Fail(node.error);
      }
      AddNode(node.value);
      AddEdge(Edge(root.id, node.value.id));
      ConcatAssoc(old(nodes), callee.added.nodes, [node.value]);
      ConcatAssoc(old(edges), callee.added.edges, [Edge(root.id, node.value.id)]);
      return Pass;
    }
  }
}
