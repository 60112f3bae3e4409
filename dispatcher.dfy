/** The dispatcher of mod.ts: task resolution across the user and builtin tables, the
    sequential `runTasks` loop, and `run`, which moves into the script's base directory for
    the duration of the run and moves back on every exit path. */
module Dispatcher {
  import opened Common
  import opened JsStrings
  import opened Utils
  import opened Host
  import opened Help

  /** `path.dirname` and `path.join` of the standard library, taken as given. */
  datatype PathOps = PathOps(dirname: string -> string, join: (string, string) -> string)

  /** Looks `name` up in the user table, then in the builtin table, then in the builtin
      table under "task_" + name. */
  function Resolve(name: string, userTasks: map<string, Task>, builtins: map<string, Task>): Option<Task>
  {
    if name in userTasks then Some(userTasks[name])
    else if name in builtins then Some(builtins[name])
    else if "task_" + name in builtins then Some(builtins["task_" + name])
    else None
  }

  /** Resolution finds a task exactly when one of the three keys is present, and takes the
      first present one in the order user, builtin, prefixed builtin: a user task shadows a
      builtin of the same name. */
  lemma ResolveOrder(name: string, userTasks: map<string, Task>, builtins: map<string, Task>)
    ensures var r := Resolve(name, userTasks, builtins);
      (r.Some? <==> name in userTasks || name in builtins || "task_" + name in builtins)
      && (name in userTasks ==> r == Some(userTasks[name]))
      && (name !in userTasks && name in builtins ==> r == Some(builtins[name]))
      && (name !in userTasks && name !in builtins && "task_" + name in builtins
          ==> r == Some(builtins["task_" + name]))
      && (r.Some? ==> r.value in userTasks.Values || r.value in builtins.Values)
  {
  }

  /** What `runTasks` does, from directory `cwd`: each name is resolved and its task invoked,
      in order; an unresolved name ends the loop normally, a throwing task ends it with
      `TaskError`. */
  function RunTasksSpec(userTasks: map<string, Task>, builtins: map<string, Task>, names: seq<string>,
                        args: map<string, Value>, dirs: set<string>, cwd: string): RunResult
  {
    if names == [] then RunResult([], Done, cwd)
    else
      match Resolve(names[0], userTasks, builtins)
      case None => RunResult([], Done, cwd)
      case Some(t) =>
        var inv := Invocation(names[0], args, cwd);
        var s := ActionStep(t.action, dirs, cwd);
        if s.outcome.Threw? then RunResult([inv], Threw(TaskError(names[0])), s.cwd)
        else Prepend([inv], RunTasksSpec(userTasks, builtins, names[1..], args, dirs, s.cwd))
  }

  /** A requested name that resolves to a task that completes. */
  predicate Completes(name: string, userTasks: map<string, Task>, builtins: map<string, Task>, dirs: set<string>)
  {
    Resolve(name, userTasks, builtins).Some? && Succeeds(Resolve(name, userTasks, builtins).value.action, dirs)
  }

  /** The invocations are the requested names in order, one per occurrence, each resolved
      and each given the same argument object; no more are made than names requested. */
  lemma {:induction false} RunTasksInOrder(userTasks: map<string, Task>, builtins: map<string, Task>,
                                           names: seq<string>, args: map<string, Value>, dirs: set<string>, cwd: string)
    ensures var r := RunTasksSpec(userTasks, builtins, names, args, dirs, cwd);
      |r.ran| <= |names|
      && forall i :: 0 <= i < |r.ran| ==>
           r.ran[i].name == names[i] && r.ran[i].args == args && Resolve(names[i], userTasks, builtins).Some?
  {
    if names != [] && Resolve(names[0], userTasks, builtins).Some? {
      var t := Resolve(names[0], userTasks, builtins).value;
      var s := ActionStep(t.action, dirs, cwd);
      if s.outcome.Done? {
        RunTasksInOrder(userTasks, builtins, names[1..], args, dirs, s.cwd);
      }
    }
  }

  /** Where the loop stops. If the first `k` names complete and name `k` does not: an
      unresolved name `k` ends the loop normally after `k` invocations; a failing task `k`
      ends it with an error naming it after `k + 1` invocations; no later name is tried.
      If every name completes, all are invoked and the loop ends normally. */
  lemma {:induction false} RunTasksStops(userTasks: map<string, Task>, builtins: map<string, Task>,
                                         names: seq<string>, args: map<string, Value>, dirs: set<string>,
                                         cwd: string, k: nat)
    requires k <= |names|
    requires forall i :: 0 <= i < k ==> Completes(names[i], userTasks, builtins, dirs)
    requires k < |names| ==> !Completes(names[k], userTasks, builtins, dirs)
    ensures var r := RunTasksSpec(userTasks, builtins, names, args, dirs, cwd);
      (k == |names| ==> r.outcome == Done && |r.ran| == k)
      && (k < |names| && Resolve(names[k], userTasks, builtins).None? ==> r.outcome == Done && |r.ran| == k)
      && (k < |names| && Resolve(names[k], userTasks, builtins).Some?
          ==> r.outcome == Threw(TaskError(names[k])) && |r.ran| == k + 1)
  {
    if k > 0 {
      var t := Resolve(names[0], userTasks, builtins).value;
      var s := ActionStep(t.action, dirs, cwd);
      assert Completes(names[0], userTasks, builtins, dirs);
      forall i | 0 <= i < k - 1
        ensures Completes(names[1..][i], userTasks, builtins, dirs)
      {
        assert names[1..][i] == names[i + 1];
      }
      RunTasksStops(userTasks, builtins, names[1..], args, dirs, s.cwd, k - 1);
    }
  }

  /** `runTasks(userTasks, builtinsTasks, tasksToRun, taskArgs)`. */
  method RunTasks(p: Process, userTasks: map<string, Task>, builtins: map<string, Task>,
                  names: seq<string>, args: map<string, Value>) returns (r: Outcome)
    requires p.Valid()
    modifies p`cwd, p`ran
    ensures p.Valid()
    ensures var s := RunTasksSpec(userTasks, builtins, names, args, p.dirs, old(p.cwd));
      p.ran == old(p.ran) + s.ran && r == s.outcome && p.cwd == s.cwd
  {
    ghost var whole := RunTasksSpec(userTasks, builtins, names, args, p.dirs, p.cwd);
    ghost var done: seq<Invocation> := [];
    assert names[0..] == names;
    for i := 0 to |names|
      invariant p.Valid()
      invariant p.ran == old(p.ran) + done
      invariant whole == Prepend(done, RunTasksSpec(userTasks, builtins, names[i..], args, p.dirs, p.cwd))
    {
      var taskName := names[i];
      var task := Resolve(taskName, userTasks, builtins);
      if task.None? {
        UnresolvedStep(userTasks, builtins, names, i, args, p.dirs, p.cwd, done, whole);
        return Done;
      }
      ghost var before := p.cwd;
      r := InvokeTask(p, taskName, task.value, args);
      InvokedStep(userTasks, builtins, names, i, args, p.dirs, before, done, whole, Step(r, p.cwd));
      done := done + [Invocation(taskName, args, before)];
      if r.Threw? {
        return Threw(TaskError(taskName));
      }
    }
    return Done;
  }

  /** `runTasks` reaching an unresolved name ends normally with what it has done. */
  lemma UnresolvedStep(userTasks: map<string, Task>, builtins: map<string, Task>, names: seq<string>, i: nat,
                       args: map<string, Value>, dirs: set<string>, cwd: string, done: seq<Invocation>, whole: RunResult)
    requires i < |names| && Resolve(names[i], userTasks, builtins).None?
    requires whole == Prepend(done, RunTasksSpec(userTasks, builtins, names[i..], args, dirs, cwd))
    ensures whole == RunResult(done, Done, cwd)
  {
    assert names[i..][0] == names[i];
    assert done + [] == done;
  }

  /** `runTasks` invoking the task of name `i`, which takes step `s`: a throw ends the loop,
      otherwise it goes on with the rest from where the task left the directory. */
  lemma InvokedStep(userTasks: map<string, Task>, builtins: map<string, Task>, names: seq<string>, i: nat,
                    args: map<string, Value>, dirs: set<string>, cwd: string, done: seq<Invocation>, whole: RunResult,
                    s: Step)
    requires i < |names| && Resolve(names[i], userTasks, builtins).Some?
    requires s == ActionStep(Resolve(names[i], userTasks, builtins).value.action, dirs, cwd)
    requires whole == Prepend(done, RunTasksSpec(userTasks, builtins, names[i..], args, dirs, cwd))
    ensures s.outcome.Threw? ==> whole == RunResult(done + [Invocation(names[i], args, cwd)], Threw(TaskError(names[i])), s.cwd)
    ensures s.outcome.Done? ==>
              whole == Prepend(done + [Invocation(names[i], args, cwd)], RunTasksSpec(userTasks, builtins, names[i + 1..], args, dirs, s.cwd))
  {
    assert names[i..][0] == names[i] && names[i..][1..] == names[i + 1..];
    var inv := Invocation(names[i], args, cwd);
    var tail := RunTasksSpec(userTasks, builtins, names[i + 1..], args, dirs, s.cwd);
    assert (done + [inv]) + tail.ran == done + ([inv] + tail.ran);
  }

  /** The level the logger ends with: `opts.logLevel` when given, else a truthy `--log`,
      else the level it had. */
  function EffectiveLogLevel(args: map<string, Value>, opts: RunOptions, initial: Value): Value
  {
    if Present(opts.logLevel) then Str(opts.logLevel.value)
    else if "log" in args && Truthy(args["log"]) then args["log"]
    else initial
  }

  /** The message `setWorkingDir` throws when the entry script is unknown. */
  const MissingEntryScript := "Not env var 'DENO_ENTRY_SCRIPT' env set. THis needs to be set to calculate the basedir to use for all path related operations"

  /** The environment names the entry script. */
  predicate HasEntryScript(env: map<string, string>)
  {
    "DENO_ENTRY_SCRIPT" in env && env["DENO_ENTRY_SCRIPT"] != ""
  }

  /** The directory `setWorkingDir(runDir)` moves to. */
  function BaseDir(env: map<string, string>, runDir: string, paths: PathOps): string
    requires HasEntryScript(env)
  {
    paths.join(paths.dirname(env["DENO_ENTRY_SCRIPT"]), runDir)
  }

  /** What `setWorkingDir(runDir)` does: throws without an entry script, else changes into
      the base directory. */
  function SetWorkingDirSpec(env: map<string, string>, dirs: set<string>, cwd: string,
                             runDir: string, paths: PathOps): Step
  {
    if !HasEntryScript(env) then Step(Threw(Message(MissingEntryScript)), cwd)
    else ChangeDir(dirs, cwd, BaseDir(env, runDir, paths))
  }

  /** `setWorkingDir(runDir)`. */
  method SetWorkingDir(p: Process, runDir: string, paths: PathOps) returns (r: Outcome)
    requires p.Valid()
    modifies p`cwd
    ensures p.Valid()
    ensures Step(r, p.cwd) == SetWorkingDirSpec(p.env, p.dirs, old(p.cwd), runDir, paths)
  {
    var entryScript := if "DENO_ENTRY_SCRIPT" in p.env then Some(p.env["DENO_ENTRY_SCRIPT"]) else None;
    if !Present(entryScript) {
      return Threw(Message(MissingEntryScript));
    }
    var entryScriptDir := paths.dirname(entryScript.value);
    var baseDir := paths.join(entryScriptDir, runDir);
    r := p.Chdir(baseDir);
  }

  /** The builtin task table; the outcome of deleting the cache directory is given. */
  const BuiltinKeys := ["_clear_cache", "_help"]

  /** The `_clear_cache` description. It is written in three pieces, each shown to be free of
      line breaks on its own (`DocTextsPlain`), which is cheaper to prove than for the whole. */
  const ClearCacheDoc := "Clear the deno " + "script cache in " + "$HOME/.cache/deno"
  const HelpDoc := "Print this help"

  /** The first line of every builtin's source text. */
  const BuiltinHeader := "async function (ctxt) {"

  /** The source text of a builtin whose first statement is its description literal. Only the
      header line and the literal line decide what `extractFunctionDocs` returns, so the
      parameter types are left out, the indent is four spaces and the rest of the body is
      shortened to the closing brace. */
  function BuiltinSource(doc: string): string
  {
    BuiltinHeader + "\n" + "    " + "\"" + doc + "\";\n" + "}"
  }

  /** `newBuiltinsTasks(..)`: `_clear_cache` deletes the cache directory (its outcome is the
      file system's), `_help` prints the listing and never throws. */
  function NewBuiltinTasks(clearCache: Outcome): (b: map<string, Task>)
    ensures b.Keys == {"_clear_cache", "_help"}
    ensures forall k :: k in b <==> k in BuiltinKeys
  {
    map["_clear_cache" := Task(BuiltinSource(ClearCacheDoc), Action(None, clearCache)),
        "_help" := Task(BuiltinSource(HelpDoc), Action(None, Done))]
  }

  /** The header line is not itself a string literal. */
  lemma HeaderNotOpening()
    ensures SingleLine(BuiltinHeader) && !IsOpening(BuiltinHeader)
  {
    TrimIndented([], BuiltinHeader);
    assert [] + BuiltinHeader == BuiltinHeader;
  }

  /** A builtin is described by its leading literal. */
  lemma BuiltinDoc(doc: string, a: Action)
    requires SingleLine(doc)
    ensures DocsOrEmpty(Task(BuiltinSource(doc), a)) == doc
  {
    HeaderNotOpening();
    assert forall k :: 0 <= k < |"    "| ==> IsWhitespace("    "[k]);
    DocsOfLeadingLiteral(BuiltinHeader, "    ", doc, "}");
  }

  /** Neither description spans a line break. */
  lemma DocTextsPlain()
    ensures SingleLine(HelpDoc) && SingleLine(ClearCacheDoc)
  {
    assert SingleLine(HelpDoc);
    var a, b, c := "Clear the deno ", "script cache in ", "$HOME/.cache/deno";
    assert SingleLine(a) by {
      assert forall k :: 0 <= k < |a| ==> a[k] != '\n' && a[k] != '\r';
    }
    assert SingleLine(b) by {
      assert forall k :: 0 <= k < |b| ==> b[k] != '\n' && b[k] != '\r';
    }
    assert SingleLine(c) by {
      assert forall k :: 0 <= k < |c| ==> c[k] != '\n' && c[k] != '\r';
    }
  }

  /** The two builtins are listed in the help with their descriptions. */
  lemma BuiltinDocs(clearCache: Outcome)
    ensures var b := NewBuiltinTasks(clearCache);
      DocsOrEmpty(b["_help"]) == HelpDoc && DocsOrEmpty(b["_clear_cache"]) == ClearCacheDoc
  {
    DocTextsPlain();
    BuiltinDoc(HelpDoc, Action(None, Done));
    BuiltinDoc(ClearCacheDoc, Action(None, clearCache));
  }

  /** The builtin section of the help listing: one line per builtin, with its description. */
  lemma BuiltinHelpSection(clearCache: Outcome)
    ensures BuiltinLines(Describe(BuiltinKeys, NewBuiltinTasks(clearCache), DocsOrEmpty))
            == [HelpLine("_clear_cache", ClearCacheDoc), HelpLine("_help", HelpDoc)]
  {
    var b := NewBuiltinTasks(clearCache);
    BuiltinDocs(clearCache);
    DescribeAt(BuiltinKeys, b, DocsOrEmpty);
    BuiltinLinesAt(Describe(BuiltinKeys, b, DocsOrEmpty));
  }

  /** A user task registered as "task_" + n is listed in the help as n, but n does not
      resolve to it: only the builtin table is searched under the prefixed name. Asking for
      n ends the run of tasks normally without invoking anything. */
  lemma ListedNameUnresolved(n: string, userTasks: map<string, Task>, clearCache: Outcome,
                             rest: seq<string>, args: map<string, Value>, dirs: set<string>, cwd: string)
    requires "task_" + n in userTasks && n !in userTasks && n !in BuiltinKeys
    ensures StripTaskPrefix("task_" + n) == n
    ensures Resolve(n, userTasks, NewBuiltinTasks(clearCache)).None?
    ensures RunTasksSpec(userTasks, NewBuiltinTasks(clearCache), [n] + rest, args, dirs, cwd) == RunResult([], Done, cwd)
  {
    assert ("task_" + n)[..5] == "task_";
    assert ("task_" + n)[5..] == n;
    var b := NewBuiltinTasks(clearCache);
    assert "task_" + n !in b by {
      assert ("task_" + n)[0] == 't';
    }
    assert ([n] + rest)[0] == n;
  }

  /** What `run(userTasks, opts)` does with the parsed arguments `args`, from directory `cwd`
      with log level `level`: set the level, choose the names, move into the base directory
      (an error there propagates, nothing runs and the directory is unchanged), run the tasks
      with the arguments less "_", and change back to `cwd` whatever happened. */
  function RunSpec(env: map<string, string>, dirs: set<string>, cwd: string, level: Value,
                   userTasks: map<string, Task>, opts: RunOptions, args: map<string, Value>,
                   paths: PathOps, clearCache: Outcome): (s: RunReport)
    requires ParsedShape(args)
    ensures Present(opts.logLevel) ==> s.level == Str(opts.logLevel.value)
    ensures !Present(opts.logLevel) && "log" in args && Truthy(args["log"]) ==> s.level == args["log"]
    ensures !Present(opts.logLevel) && !("log" in args && Truthy(args["log"])) ==> s.level == level
    ensures cwd in dirs ==> s.cwd == cwd
    ensures !HasEntryScript(env) ==> s.ran == [] && s.outcome == Threw(Message(MissingEntryScript))
    ensures |s.ran| <= |RequestedNames(args, OrElse(opts.defaultTask, "_help"))|
    ensures s.ran != [] && ("_" !in args || args["_"].names == []) ==>
              s.ran == [Invocation(OrElse(opts.defaultTask, "_help"), TaskArgs(args), s.ran[0].cwd)]
  {
    var names := RequestedNames(args, OrElse(opts.defaultTask, "_help"));
    var setup := SetWorkingDirSpec(env, dirs, cwd, OrElse(opts.dir, "."), paths);
    if setup.outcome.Threw? then RunReport(EffectiveLogLevel(args, opts, level), [], setup.outcome, setup.cwd)
    else
      var r := RunTasksSpec(userTasks, NewBuiltinTasks(clearCache), names, TaskArgs(args), dirs, setup.cwd);
      RunTasksInOrder(userTasks, NewBuiltinTasks(clearCache), names, TaskArgs(args), dirs, setup.cwd);
      var back := ChangeDir(dirs, r.cwd, cwd);
      RunReport(EffectiveLogLevel(args, opts, level), r.ran,
                if back.outcome.Threw? then back.outcome else r.outcome, back.cwd)
  }

  /** Every task `run` invokes is one of the requested names, in order, resolved in the
      user or builtin table, and receives the parsed arguments without "_"; the first
      starts in the base directory. */
  lemma RunInvocations(env: map<string, string>, dirs: set<string>, cwd: string, level: Value,
                       userTasks: map<string, Task>, opts: RunOptions, args: map<string, Value>,
                       paths: PathOps, clearCache: Outcome)
    requires ParsedShape(args)
    ensures var s := RunSpec(env, dirs, cwd, level, userTasks, opts, args, paths, clearCache);
      var names := RequestedNames(args, OrElse(opts.defaultTask, "_help"));
      (forall i :: 0 <= i < |s.ran| ==>
         s.ran[i].name == names[i] && s.ran[i].args == TaskArgs(args)
         && Resolve(names[i], userTasks, NewBuiltinTasks(clearCache)).Some?)
      && (s.ran != [] ==> HasEntryScript(env) && s.ran[0].cwd == BaseDir(env, OrElse(opts.dir, "."), paths))
  {
    var names := RequestedNames(args, OrElse(opts.defaultTask, "_help"));
    var setup := SetWorkingDirSpec(env, dirs, cwd, OrElse(opts.dir, "."), paths);
    if setup.outcome.Done? {
      RunTasksInOrder(userTasks, NewBuiltinTasks(clearCache), names, TaskArgs(args), dirs, setup.cwd);
    }
  }

  /** Failures propagate out of `run`. Once the base directory is entered, the tasks before
      the k-th complete. If the k-th name is unresolved, `run` completes after k invocations.
      If the k-th task throws, `run` throws the error naming it after k + 1 invocations.
      If every task completes, `run` completes. Each way, the directory is changed back. */
  lemma RunStops(env: map<string, string>, dirs: set<string>, cwd: string, level: Value,
                 userTasks: map<string, Task>, opts: RunOptions, args: map<string, Value>,
                 paths: PathOps, clearCache: Outcome, k: nat)
    requires ParsedShape(args) && cwd in dirs
    requires HasEntryScript(env) && BaseDir(env, OrElse(opts.dir, "."), paths) in dirs
    requires var names := RequestedNames(args, OrElse(opts.defaultTask, "_help"));
      k <= |names|
      && (forall i :: 0 <= i < k ==> Completes(names[i], userTasks, NewBuiltinTasks(clearCache), dirs))
      && (k < |names| ==> !Completes(names[k], userTasks, NewBuiltinTasks(clearCache), dirs))
    ensures var s := RunSpec(env, dirs, cwd, level, userTasks, opts, args, paths, clearCache);
      var names := RequestedNames(args, OrElse(opts.defaultTask, "_help"));
      s.cwd == cwd
      && (k == |names| ==> s.outcome == Done && |s.ran| == k)
      && (k < |names| && Resolve(names[k], userTasks, NewBuiltinTasks(clearCache)).None?
          ==> s.outcome == Done && |s.ran| == k)
      && (k < |names| && Resolve(names[k], userTasks, NewBuiltinTasks(clearCache)).Some?
          ==> s.outcome == Threw(TaskError(names[k])) && |s.ran| == k + 1)
  {
    var names := RequestedNames(args, OrElse(opts.defaultTask, "_help"));
    var base := BaseDir(env, OrElse(opts.dir, "."), paths);
    RunTasksStops(userTasks, NewBuiltinTasks(clearCache), names, TaskArgs(args), dirs, base, k);
  }

  /** With no task named on the command line and no default configured, `run` invokes the
      builtin help once, in the base directory, and completes, unless a user task is itself
      called "_help". */
  lemma RunDefaultsToHelp(env: map<string, string>, dirs: set<string>, cwd: string, level: Value,
                          userTasks: map<string, Task>, opts: RunOptions, args: map<string, Value>,
                          paths: PathOps, clearCache: Outcome)
    requires ParsedShape(args) && cwd in dirs
    requires "_" !in args || args["_"].names == []
    requires !Present(opts.defaultTask) && "_help" !in userTasks
    requires HasEntryScript(env) && BaseDir(env, OrElse(opts.dir, "."), paths) in dirs
    ensures RunSpec(env, dirs, cwd, level, userTasks, opts, args, paths, clearCache)
            == RunReport(EffectiveLogLevel(args, opts, level),
                         [Invocation("_help", TaskArgs(args), BaseDir(env, OrElse(opts.dir, "."), paths))],
                         Done, cwd)
  {
    var b := NewBuiltinTasks(clearCache);
    var base := BaseDir(env, OrElse(opts.dir, "."), paths);
    assert RequestedNames(args, OrElse(opts.defaultTask, "_help")) == ["_help"];
    assert Resolve("_help", userTasks, b) == Some(b["_help"]);
    assert ["_help"][1..] == [];
    assert RunTasksSpec(userTasks, b, ["_help"], TaskArgs(args), dirs, base)
           == RunResult([Invocation("_help", TaskArgs(args), base)], Done, base);
  }

  /** `run(userTasks, opts)`, with the parsed command line `args`, the logger whose level it
      sets, and the outcome of deleting the cache should `_clear_cache` run. */
  method Run(p: Process, logger: Logger, userTasks: map<string, Task>, opts: RunOptions,
             args: map<string, Value>, paths: PathOps, clearCache: Outcome) returns (r: Outcome)
    requires p.Valid() && ParsedShape(args)
    modifies p`cwd, p`ran, logger`level
    ensures p.Valid()
    ensures var s := RunSpec(p.env, p.dirs, old(p.cwd), old(logger.level), userTasks, opts, args, paths, clearCache);
      logger.level == s.level && p.ran == old(p.ran) + s.ran && r == s.outcome && p.cwd == s.cwd
  {
    var defaultTaskName := OrElse(opts.defaultTask, "_help");
    var runDir := OrElse(opts.dir, ".");
    if "log" in args && Truthy(args["log"]) {
      logger.level := args["log"];
    }
    if Present(opts.logLevel) {
      logger.level := Str(opts.logLevel.value);
    }
    var tasks := RequestedNames(args, defaultTaskName);
    var taskArgs := TaskArgs(args);
    var initCwd := p.cwd;
    r := SetWorkingDir(p, runDir, paths);
    if r.Threw? {
      return;
    }
    var builtinTasks := NewBuiltinTasks(clearCache);
    r := RunTasks(p, userTasks, builtinTasks, tasks, taskArgs);
    var restored := p.Chdir(initCwd);
    if restored.Threw? {
      r := restored;
    }
  }
}
