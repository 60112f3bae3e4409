/** The older single-table dispatcher of runner.ts: tasks are looked up in one table, an
    unknown name is an error, and the working directory is left wherever the tasks put it. */
module Runner {
  import opened Common
  import opened Host
  import Dispatcher

  /** `defaultFunc = 'help'`: the default applies only when no value is passed, so an
      empty name passed explicitly stays empty. */
  function DefaultName(defaultFunc: Option<string>): string
  {
    if defaultFunc.None? then "help" else defaultFunc.value
  }

  /** The message thrown for a name with no task. */
  function NoTask(name: string): Error
  {
    Message("No task '" + name + "' exists")
  }

  /** The level the "main" logger ends with: "info", or a truthy `--log`. */
  function RunnerLogLevel(args: map<string, Value>): Value
  {
    if "log" in args && Truthy(args["log"]) then args["log"] else Str("info")
  }

  /** The loop of runner.ts's `run`, from directory `cwd`: each name must name a task, which
      is invoked; a missing name or a throwing task ends the loop with an error. */
  function RunnerLoopSpec(namedTasks: map<string, Task>, names: seq<string>, args: map<string, Value>,
                          dirs: set<string>, cwd: string): RunResult
  {
    if names == [] then RunResult([], Done, cwd)
    else if names[0] !in namedTasks then RunResult([], Threw(NoTask(names[0])), cwd)
    else
      var inv := Invocation(names[0], args, cwd);
      var s := ActionStep(namedTasks[names[0]].action, dirs, cwd);
      if s.outcome.Threw? then RunResult([inv], Threw(TaskError(names[0])), s.cwd)
      else Prepend([inv], RunnerLoopSpec(namedTasks, names[1..], args, dirs, s.cwd))
  }

  /** A requested name that names a task that completes. */
  predicate Known(name: string, namedTasks: map<string, Task>, dirs: set<string>)
  {
    name in namedTasks && Succeeds(namedTasks[name].action, dirs)
  }

  /** Where the loop stops. If the first `k` names complete and name `k` does not: an
      unknown name `k` throws "No task" after `k` invocations; a failing task `k` throws an
      error naming it after `k + 1` invocations. If all complete, all are invoked, in order,
      each with the same arguments. */
  lemma {:induction false} RunnerStops(namedTasks: map<string, Task>, names: seq<string>, args: map<string, Value>,
                                       dirs: set<string>, cwd: string, k: nat)
    requires k <= |names|
    requires forall i :: 0 <= i < k ==> Known(names[i], namedTasks, dirs)
    requires k < |names| ==> !Known(names[k], namedTasks, dirs)
    ensures var r := RunnerLoopSpec(namedTasks, names, args, dirs, cwd);
      |r.ran| <= |names|
      && (forall i :: 0 <= i < |r.ran| ==> r.ran[i].name == names[i] && r.ran[i].args == args)
      && (k == |names| ==> r.outcome == Done && |r.ran| == k)
      && (k < |names| && names[k] !in namedTasks ==> r.outcome == Threw(NoTask(names[k])) && |r.ran| == k)
      && (k < |names| && names[k] in namedTasks ==> r.outcome == Threw(TaskError(names[k])) && |r.ran| == k + 1)
  {
    if k > 0 {
      var s := ActionStep(namedTasks[names[0]].action, dirs, cwd);
      forall i | 0 <= i < k - 1
        ensures Known(names[1..][i], namedTasks, dirs)
      {
        assert names[1..][i] == names[i + 1];
      }
      RunnerStops(namedTasks, names[1..], args, dirs, s.cwd, k - 1);
    }
  }

  /** The loop invokes only names in the table, in the requested order, each with the same
      arguments, and no more than were requested. */
  lemma {:induction false} RunnerInOrder(namedTasks: map<string, Task>, names: seq<string>, args: map<string, Value>,
                                         dirs: set<string>, cwd: string)
    ensures var r := RunnerLoopSpec(namedTasks, names, args, dirs, cwd);
      |r.ran| <= |names|
      && forall i :: 0 <= i < |r.ran| ==> r.ran[i].name == names[i] && r.ran[i].args == args && names[i] in namedTasks
  {
    if names != [] && names[0] in namedTasks {
      var s := ActionStep(namedTasks[names[0]].action, dirs, cwd);
      if s.outcome.Done? {
        RunnerInOrder(namedTasks, names[1..], args, dirs, s.cwd);
      }
    }
  }

  /** What runner.ts's `run(namedTasks, defaultFunc)` does with the parsed arguments: the
      tasks invoked are requested names found in the one table, in order, and each gets the
      arguments without "_". */
  function RunnerSpec(namedTasks: map<string, Task>, defaultFunc: Option<string>, args: map<string, Value>,
                      dirs: set<string>, cwd: string): (s: RunReport)
    requires ParsedShape(args)
    ensures var names := RequestedNames(args, DefaultName(defaultFunc));
      |s.ran| <= |names|
      && forall i :: 0 <= i < |s.ran| ==>
           s.ran[i].name == names[i] && s.ran[i].args == TaskArgs(args) && names[i] in namedTasks
    ensures "log" in args && Truthy(args["log"]) ==> s.level == args["log"]
    ensures !("log" in args && Truthy(args["log"])) ==> s.level == Str("info")
  {
    var names := RequestedNames(args, DefaultName(defaultFunc));
    var r := RunnerLoopSpec(namedTasks, names, TaskArgs(args), dirs, cwd);
    RunnerInOrder(namedTasks, names, TaskArgs(args), dirs, cwd);
    RunReport(RunnerLogLevel(args), r.ran, r.outcome, r.cwd)
  }

  /** The outcome of runner.ts's `run`: when the tasks before the k-th complete, an unknown
      k-th name throws "No task '<name>' exists" after k invocations, a throwing k-th task
      throws the error naming it after k + 1, and when all complete the run completes. */
  lemma RunnerRunStops(namedTasks: map<string, Task>, defaultFunc: Option<string>, args: map<string, Value>,
                       dirs: set<string>, cwd: string, k: nat)
    requires ParsedShape(args)
    requires var names := RequestedNames(args, DefaultName(defaultFunc));
      k <= |names|
      && (forall i :: 0 <= i < k ==> Known(names[i], namedTasks, dirs))
      && (k < |names| ==> !Known(names[k], namedTasks, dirs))
    ensures var s := RunnerSpec(namedTasks, defaultFunc, args, dirs, cwd);
      var names := RequestedNames(args, DefaultName(defaultFunc));
      (k == |names| ==> s.outcome == Done && |s.ran| == k)
      && (k < |names| && names[k] !in namedTasks ==> s.outcome == Threw(NoTask(names[k])) && |s.ran| == k)
      && (k < |names| && names[k] in namedTasks ==> s.outcome == Threw(TaskError(names[k])) && |s.ran| == k + 1)
  {
    var names := RequestedNames(args, DefaultName(defaultFunc));
    RunnerStops(namedTasks, names, TaskArgs(args), dirs, cwd, k);
  }

  /** With no name on the command line and no default passed, runner.ts runs "help", and
      throws "No task 'help' exists" when the table has none. */
  lemma RunnerDefaultsToHelp(namedTasks: map<string, Task>, args: map<string, Value>, dirs: set<string>, cwd: string)
    requires ParsedShape(args) && ("_" !in args || args["_"].names == [])
    ensures var s := RunnerSpec(namedTasks, None, args, dirs, cwd);
      ("help" !in namedTasks ==> s.ran == [] && s.outcome == Threw(NoTask("help")) && s.cwd == cwd)
      && ("help" in namedTasks ==> s.ran == [Invocation("help", TaskArgs(args), cwd)])
      && s.level == RunnerLogLevel(args)
  {
    assert RequestedNames(args, "help") == ["help"];
    assert ["help"][1..] == [];
    if "help" in namedTasks {
      var step := ActionStep(namedTasks["help"].action, dirs, cwd);
      var inv := Invocation("help", TaskArgs(args), cwd);
      assert RunnerLoopSpec(namedTasks, [], TaskArgs(args), dirs, step.cwd).ran == [];
      assert [inv] + [] == [inv];
    }
  }

  /** The two dispatchers part ways on a name that names no task: runner.ts throws, while
      mod.ts stops running tasks and completes normally. */
  lemma UnknownNameHandling(name: string, namedTasks: map<string, Task>, userTasks: map<string, Task>,
                            builtins: map<string, Task>, rest: seq<string>, args: map<string, Value>,
                            dirs: set<string>, cwd: string)
    requires name !in namedTasks
    requires Dispatcher.Resolve(name, userTasks, builtins).None?
    ensures RunnerLoopSpec(namedTasks, [name] + rest, args, dirs, cwd) == RunResult([], Threw(NoTask(name)), cwd)
    ensures Dispatcher.RunTasksSpec(userTasks, builtins, [name] + rest, args, dirs, cwd) == RunResult([], Done, cwd)
  {
    assert ([name] + rest)[0] == name;
  }

  /** runner.ts's `run(namedTasks, defaultFunc)`, with the parsed command line `args` and the
      "main" logger. */
  method RunnerRun(p: Process, logger: Logger, namedTasks: map<string, Task>, defaultFunc: Option<string>,
                   args: map<string, Value>) returns (r: Outcome)
    requires p.Valid() && ParsedShape(args)
    modifies p`cwd, p`ran, logger`level
    ensures p.Valid()
    ensures var s := RunnerSpec(namedTasks, defaultFunc, args, p.dirs, old(p.cwd));
      logger.level == s.level && p.ran == old(p.ran) + s.ran && r == s.outcome && p.cwd == s.cwd
  {
    logger.level := Str("info");
    var tasks := RequestedNames(args, DefaultName(defaultFunc));
    if "log" in args && Truthy(args["log"]) {
      logger.level := args["log"];
    }
    var taskArgs := TaskArgs(args);
    r := RunnerLoop(p, namedTasks, tasks, taskArgs);
  }

  /** The task loop of runner.ts's `run`. */
  method RunnerLoop(p: Process, namedTasks: map<string, Task>, tasks: seq<string>, taskArgs: map<string, Value>)
    returns (r: Outcome)
    requires p.Valid()
    modifies p`cwd, p`ran
    ensures p.Valid()
    ensures var s := RunnerLoopSpec(namedTasks, tasks, taskArgs, p.dirs, old(p.cwd));
      p.ran == old(p.ran) + s.ran && r == s.outcome && p.cwd == s.cwd
  {
    ghost var whole := RunnerLoopSpec(namedTasks, tasks, taskArgs, p.dirs, p.cwd);
    ghost var done: seq<Invocation> := [];
    assert tasks[0..] == tasks;
    for i := 0 to |tasks|
      invariant p.Valid()
      invariant p.ran == old(p.ran) + done
      invariant whole == Prepend(done, RunnerLoopSpec(namedTasks, tasks[i..], taskArgs, p.dirs, p.cwd))
    {
      var taskName := tasks[i];
      if taskName !in namedTasks {
        MissingStep(namedTasks, tasks, i, taskArgs, p.dirs, p.cwd, done, whole);
        return Threw(NoTask(taskName));
      }
      ghost var before := p.cwd;
      r := InvokeTask(p, taskName, namedTasks[taskName], taskArgs);
      CalledStep(namedTasks, tasks, i, taskArgs, p.dirs, before, done, whole, Step(r, p.cwd));
      done := done + [Invocation(taskName, taskArgs, before)];
      if r.Threw? {
        return Threw(TaskError(taskName));
      }
    }
    return Done;
  }

  /** The loop reaching a name with no task throws with what it has done. */
  lemma MissingStep(namedTasks: map<string, Task>, names: seq<string>, i: nat, args: map<string, Value>,
                    dirs: set<string>, cwd: string, done: seq<Invocation>, whole: RunResult)
    requires i < |names| && names[i] !in namedTasks
    requires whole == Prepend(done, RunnerLoopSpec(namedTasks, names[i..], args, dirs, cwd))
    ensures whole == RunResult(done, Threw(NoTask(names[i])), cwd)
  {
    assert names[i..][0] == names[i];
    assert done + [] == done;
  }

  /** The loop invoking the task of name `i`, which takes step `s`: a throw ends the loop,
      otherwise it goes on with the rest. */
  lemma CalledStep(namedTasks: map<string, Task>, names: seq<string>, i: nat, args: map<string, Value>,
                   dirs: set<string>, cwd: string, done: seq<Invocation>, whole: RunResult, s: Step)
    requires i < |names| && names[i] in namedTasks
    requires s == ActionStep(namedTasks[names[i]].action, dirs, cwd)
    requires whole == Prepend(done, RunnerLoopSpec(namedTasks, names[i..], args, dirs, cwd))
    ensures s.outcome.Threw? ==> whole == RunResult(done + [Invocation(names[i], args, cwd)], Threw(TaskError(names[i])), s.cwd)
    ensures s.outcome.Done? ==>
              whole == Prepend(done + [Invocation(names[i], args, cwd)], RunnerLoopSpec(namedTasks, names[i + 1..], args, dirs, s.cwd))
  {
    assert names[i..][0] == names[i] && names[i..][1..] == names[i + 1..];
    var inv := Invocation(names[i], args, cwd);
    var tail := RunnerLoopSpec(namedTasks, names[i + 1..], args, dirs, s.cwd);
    assert (done + [inv]) + tail.ran == done + ([inv] + tail.ran);
  }
}
