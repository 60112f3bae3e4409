/** The parts of the Deno runtime both dispatchers touch: the process working directory
    (with the set of directories that exist), the environment, the loggers' level, and
    observable side channels recording which tasks were invoked and which shell commands ran. */
module Host {
  import opened Common

  /** What calling a task does, abstractly: it may change directory first (which throws
      when the directory does not exist), then it returns or throws. */
  datatype Action = Action(cdTo: Option<string>, result: Outcome)

  /** A registered task: its source text (what `Function.prototype.toString` gives, read
      by the help listing) and what calling it does. */
  datatype Task = Task(source: string, action: Action)

  /** The options the build script passes to `run`: the directory to run in (relative to
      the entry script), the task used when none is named, and a log level override. */
  datatype RunOptions = RunOptions(dir: Option<string>, defaultTask: Option<string>, logLevel: Option<string>)

  /** One task invocation: the requested name, the argument object the task received and
      the working directory it started in. */
  datatype Invocation = Invocation(name: string, args: map<string, Value>, cwd: string)

  /** One shell command started by the shell library, with the directory it ran in. */
  datatype ShellRun = ShellRun(line: string, cwd: string)

  /** The working directory and the outcome after a step. */
  datatype Step = Step(outcome: Outcome, cwd: string)

  /** `Deno.chdir(d)`: moves to `d` when it exists, throws NotFound otherwise. */
  function ChangeDir(dirs: set<string>, cwd: string, d: string): (s: Step)
    ensures s.outcome.Done? <==> d in dirs
    ensures s.cwd == if d in dirs then d else cwd
  {
    if d in dirs then Step(Done, d) else Step(Threw(NoSuchDir(d)), cwd)
  }

  /** A task action completes normally. */
  predicate Succeeds(a: Action, dirs: set<string>)
  {
    (a.cdTo.None? || a.cdTo.value in dirs) && a.result.Done?
  }

  /** The effect of performing an action from directory `cwd`. */
  function ActionStep(a: Action, dirs: set<string>, cwd: string): (s: Step)
    ensures s.outcome.Done? <==> Succeeds(a, dirs)
    ensures a.cdTo.None? ==> s.cwd == cwd
    ensures a.cdTo.Some? ==> s == (if a.cdTo.value in dirs then Step(a.result, a.cdTo.value)
                                                          else ChangeDir(dirs, cwd, a.cdTo.value))
  {
    match a.cdTo
    case None => Step(a.result, cwd)
    case Some(d) =>
      var c := ChangeDir(dirs, cwd, d);
      if c.outcome.Threw? then c else Step(a.result, c.cwd)
  }

  class Process {
    var cwd: string
    const dirs: set<string>
    const env: map<string, string>
    /** Every task invocation so far, in order. */
    var ran: seq<Invocation>
    /** Every shell command started so far, in order. */
    var shellLog: seq<ShellRun>

    /** The working directory always exists. */
    ghost predicate Valid()
      reads this
    {
      cwd in dirs
    }

    constructor (cwd: string, dirs: set<string>, env: map<string, string>)
      requires cwd in dirs
      ensures Valid()
      ensures this.cwd == cwd && this.dirs == dirs && this.env == env
      ensures ran == [] && shellLog == []
    {
      this.cwd := cwd;
      this.dirs := dirs;
      this.env := env;
      ran := [];
      shellLog := [];
    }

    /** `Deno.chdir(d)`. */
    method Chdir(d: string) returns (r: Outcome)
      requires Valid()
      modifies this`cwd
      ensures Valid()
      ensures Step(r, cwd) == ChangeDir(dirs, old(cwd), d)
    {
      if d in dirs {
        cwd := d;
        r := Done;
      } else {
        r := Threw(NoSuchDir(d));
      }
    }
  }

  /** A logger whose severity level the dispatchers set. */
  class Logger {
    var level: Value

    constructor (level: Value)
      ensures this.level == level
    {
      this.level := level;
    }
  }

  /** Performs a task action on the process. */
  method RunAction(p: Process, a: Action) returns (r: Outcome)
    requires p.Valid()
    modifies p`cwd
    ensures p.Valid()
    ensures Step(r, p.cwd) == ActionStep(a, p.dirs, old(p.cwd))
  {
    if a.cdTo.Some? {
      r := p.Chdir(a.cdTo.value);
      if r.Threw? {
        return;
      }
    }
    r := a.result;
  }

  /** Calls a task with its context: records the invocation, then performs its action. */
  method InvokeTask(p: Process, name: string, t: Task, args: map<string, Value>) returns (r: Outcome)
    requires p.Valid()
    modifies p`cwd, p`ran
    ensures p.Valid()
    ensures p.ran == old(p.ran) + [Invocation(name, args, old(p.cwd))]
    ensures Step(r, p.cwd) == ActionStep(t.action, p.dirs, old(p.cwd))
  {
    p.ran := p.ran + [Invocation(name, args, p.cwd)];
    r := RunAction(p, t.action);
  }

  /** The parser stores the positional arguments under "_" as a list of names. */
  predicate ParsedShape(args: map<string, Value>)
  {
    "_" in args ==> args["_"].Names?
  }

  /** The task names to run: the positional list, or `[defaultName]` when it is missing or empty. */
  function RequestedNames(args: map<string, Value>, defaultName: string): (names: seq<string>)
    requires ParsedShape(args)
    ensures names != []
    ensures "_" in args && args["_"].names != [] ==> names == args["_"].names
    ensures "_" !in args || args["_"].names == [] ==> names == [defaultName]
  {
    if "_" in args && args["_"].names != [] then args["_"].names else [defaultName]
  }

  /** The argument object every task sees: the parsed arguments without the "_" entry. */
  function TaskArgs(args: map<string, Value>): (m: map<string, Value>)
    ensures "_" !in m
    ensures forall k :: k in args && k != "_" ==> k in m && m[k] == args[k]
    ensures forall k :: k in m ==> k in args
  {
    args - {"_"}
  }

  /** The message both dispatchers re-throw a failing task's error as; the quote after the
      name is never closed. */
  function TaskError(name: string): Error
  {
    Message("Task '" + name + " threw an error")
  }

  /** The invocations made, in order, the outcome and the final directory. */
  datatype RunResult = RunResult(ran: seq<Invocation>, outcome: Outcome, cwd: string)

  /** Prefixes finished invocations to a result. */
  function Prepend(done: seq<Invocation>, r: RunResult): RunResult
  {
    RunResult(done + r.ran, r.outcome, r.cwd)
  }

  /** The log level, the invocations, the outcome and the final directory after a dispatcher's `run`. */
  datatype RunReport = RunReport(level: Value, ran: seq<Invocation>, outcome: Outcome, cwd: string)
}
