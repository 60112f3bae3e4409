/** `exec` of mod.ts: runs a function, a shell line or a sequence of shell lines, optionally
    inside a directory it enters for the duration of the call. The shell library is given as
    a function from a command line and the directory it runs in to how it ends. */
module Exec {
  import opened Common
  import opened Host

  /** What `opts.cmd` can be: a function (abstracted to its action), a string, an array. */
  datatype Command = Fn(action: Action) | Shell(line: string) | Sequence(lines: seq<string>)

  /** The shell runs started and how the call ended. */
  datatype ShellResult = ShellResult(log: seq<ShellRun>, outcome: Outcome)

  /** `execSequence(lines, ..)`: the lines run one after another in the same directory, and
      the first one whose shell call throws ends the sequence with its error. */
  function SequenceSpec(lines: seq<string>, shell: (string, string) -> Outcome, cwd: string): ShellResult
  {
    if lines == [] then ShellResult([], Done)
    else if shell(lines[0], cwd).Threw? then ShellResult([ShellRun(lines[0], cwd)], shell(lines[0], cwd))
    else
      var rest := SequenceSpec(lines[1..], shell, cwd);
      ShellResult([ShellRun(lines[0], cwd)] + rest.log, rest.outcome)
  }

  /** The runs are the lines in order, all in `cwd`; if the first `k` lines return and line
      `k` throws, exactly `k + 1` run and the sequence throws line `k`'s error; if all return,
      all run and it completes. */
  lemma {:induction false} SequenceStops(lines: seq<string>, shell: (string, string) -> Outcome, cwd: string, k: nat)
    requires k <= |lines|
    requires forall i :: 0 <= i < k ==> shell(lines[i], cwd).Done?
    requires k < |lines| ==> shell(lines[k], cwd).Threw?
    ensures var r := SequenceSpec(lines, shell, cwd);
      |r.log| <= |lines|
      && (forall i :: 0 <= i < |r.log| ==> r.log[i] == ShellRun(lines[i], cwd))
      && (k == |lines| ==> |r.log| == |lines| && r.outcome == Done)
      && (k < |lines| ==> |r.log| == k + 1 && r.outcome == shell(lines[k], cwd))
  {
    if k > 0 {
      forall i | 0 <= i < k - 1
        ensures shell(lines[1..][i], cwd).Done?
      {
        assert lines[1..][i] == lines[i + 1];
      }
      SequenceStops(lines[1..], shell, cwd, k - 1);
    }
  }

  /** Starts one shell command in the current directory. */
  method RunShell(p: Process, line: string, shell: (string, string) -> Outcome) returns (r: Outcome)
    modifies p`shellLog
    ensures p.shellLog == old(p.shellLog) + [ShellRun(line, p.cwd)]
    ensures r == shell(line, p.cwd)
  {
    p.shellLog := p.shellLog + [ShellRun(line, p.cwd)];
    r := shell(line, p.cwd);
  }

  /** Prefixes finished runs to a result. */
  function After(done: seq<ShellRun>, s: ShellResult): ShellResult
  {
    ShellResult(done + s.log, s.outcome)
  }

  /** `execSequence(lines, ..)`: runs the lines until one throws. */
  method ExecSequence(p: Process, lines: seq<string>, shell: (string, string) -> Outcome) returns (r: Outcome)
    modifies p`shellLog
    ensures var s := SequenceSpec(lines, shell, p.cwd);
      p.shellLog == old(p.shellLog) + s.log && r == s.outcome
  {
    var cwd := p.cwd;
    ghost var whole := SequenceSpec(lines, shell, cwd);
    ghost var done: seq<ShellRun> := [];
    assert lines[0..] == lines;
    for i := 0 to |lines|
      invariant p.cwd == cwd
      invariant p.shellLog == old(p.shellLog) + done
      invariant whole == After(done, SequenceSpec(lines[i..], shell, cwd))
    {
      SequenceStep(lines, i, shell, cwd, done, whole);
      r := RunShell(p, lines[i], shell);
      done := done + [ShellRun(lines[i], cwd)];
      if r.Threw? {
        return;
      }
    }
    return Done;
  }

  /** One step of the sequence: line `i` runs, and either ends it or leaves the rest to run. */
  lemma SequenceStep(lines: seq<string>, i: nat, shell: (string, string) -> Outcome, cwd: string,
                     done: seq<ShellRun>, whole: ShellResult)
    requires i < |lines|
    requires whole == After(done, SequenceSpec(lines[i..], shell, cwd))
    ensures shell(lines[i], cwd).Threw? ==> whole == ShellResult(done + [ShellRun(lines[i], cwd)], shell(lines[i], cwd))
    ensures shell(lines[i], cwd).Done? ==>
              whole == After(done + [ShellRun(lines[i], cwd)], SequenceSpec(lines[i + 1..], shell, cwd))
  {
    assert lines[i..][0] == lines[i] && lines[i..][1..] == lines[i + 1..];
    var tail := SequenceSpec(lines[i + 1..], shell, cwd);
    assert (done + [ShellRun(lines[i], cwd)]) + tail.log == done + ([ShellRun(lines[i], cwd)] + tail.log);
  }

  /** The shell runs, the outcome and the final directory of an `exec` call. */
  datatype ExecResult = ExecResult(log: seq<ShellRun>, outcome: Outcome, cwd: string)

  /** What the command itself does from directory `cwd`. */
  function CommandSpec(cmd: Command, shell: (string, string) -> Outcome, dirs: set<string>, cwd: string): ExecResult
  {
    match cmd
    case Sequence(lines) =>
      var s := SequenceSpec(lines, shell, cwd);
      ExecResult(s.log, s.outcome, cwd)
    case Shell(line) => ExecResult([ShellRun(line, cwd)], shell(line, cwd), cwd)
    case Fn(a) =>
      var s := ActionStep(a, dirs, cwd);
      ExecResult([], s.outcome, s.cwd)
  }

  /** `exec({cmd, dir})` from directory `cwd`: entering `dir` happens before the protected
      part, so failing to enter it throws without running anything; once entered, the call
      changes back to `cwd` however the command ended, and an error while changing back
      replaces the command's outcome. Without `dir` no directory change is made or undone. */
  function ExecSpec(cmd: Command, dir: Option<string>, shell: (string, string) -> Outcome,
                    dirs: set<string>, cwd: string): (r: ExecResult)
    ensures Present(dir) && dir.value !in dirs ==> r == ExecResult([], Threw(NoSuchDir(dir.value)), cwd)
    ensures Present(dir) && cwd in dirs ==> r.cwd == cwd
    ensures Present(dir) && dir.value in dirs && cwd in dirs ==>
              r.log == CommandSpec(cmd, shell, dirs, dir.value).log
              && r.outcome == CommandSpec(cmd, shell, dirs, dir.value).outcome
    ensures !Present(dir) && !cmd.Fn? ==> r.cwd == cwd
    ensures !Present(dir) ==>
              r.log == CommandSpec(cmd, shell, dirs, cwd).log
              && r.outcome == CommandSpec(cmd, shell, dirs, cwd).outcome
    ensures !Present(dir) && cmd.Fn? ==> r.log == [] && Step(r.outcome, r.cwd) == ActionStep(cmd.action, dirs, cwd)
  {
    if !Present(dir) then CommandSpec(cmd, shell, dirs, cwd)
    else
      var enter := ChangeDir(dirs, cwd, dir.value);
      if enter.outcome.Threw? then ExecResult([], enter.outcome, enter.cwd)
      else
        var c := CommandSpec(cmd, shell, dirs, enter.cwd);
        var back := ChangeDir(dirs, c.cwd, cwd);
        ExecResult(c.log, if back.outcome.Threw? then back.outcome else c.outcome, back.cwd)
  }

  /** Shell commands run in the directory `exec` was given, or in the caller's directory
      when none was given. */
  lemma ShellRunsInScope(cmd: Command, dir: Option<string>, shell: (string, string) -> Outcome,
                         dirs: set<string>, cwd: string)
    requires cmd.Shell? || cmd.Sequence?
    ensures var r := ExecSpec(cmd, dir, shell, dirs, cwd);
      forall i :: 0 <= i < |r.log| ==> r.log[i].cwd == (if Present(dir) then dir.value else cwd)
  {
    var here := if Present(dir) then dir.value else cwd;
    if cmd.Sequence? && (!Present(dir) || dir.value in dirs) {
      var lines := cmd.lines;
      var k := FirstFailure(lines, shell, here);
      SequenceStops(lines, shell, here, k);
    }
  }

  /** The number of leading lines whose shell call returns rather than throws. */
  function FirstFailure(lines: seq<string>, shell: (string, string) -> Outcome, cwd: string): (k: nat)
    ensures k <= |lines|
    ensures forall i :: 0 <= i < k ==> shell(lines[i], cwd).Done?
    ensures k < |lines| ==> shell(lines[k], cwd).Threw?
  {
    if lines == [] || shell(lines[0], cwd).Threw? then 0
    else 1 + FirstFailure(lines[1..], shell, cwd)
  }

  /** A sequence given to `exec` runs its lines, in order, up to and including the first
      that throws, and `exec` ends with that line's error, or completes when none throws. */
  lemma ExecSequenceStopsAtFailure(lines: seq<string>, dir: Option<string>, shell: (string, string) -> Outcome,
                                   dirs: set<string>, cwd: string)
    requires !Present(dir) || dir.value in dirs
    requires cwd in dirs
    ensures var here := if Present(dir) then dir.value else cwd;
      var k := FirstFailure(lines, shell, here);
      var r := ExecSpec(Sequence(lines), dir, shell, dirs, cwd);
      |r.log| == (if k < |lines| then k + 1 else k)
      && (forall i :: 0 <= i < |r.log| ==> r.log[i].line == lines[i])
      && r.outcome == (if k < |lines| then shell(lines[k], here) else Done)
  {
    var here := if Present(dir) then dir.value else cwd;
    SequenceStops(lines, shell, here, FirstFailure(lines, shell, here));
  }

  /** `exec({cmd, dir})`. */
  method Exec(p: Process, cmd: Command, dir: Option<string>, shell: (string, string) -> Outcome) returns (r: Outcome)
    requires p.Valid()
    modifies p`cwd, p`shellLog
    ensures p.Valid()
    ensures var s := ExecSpec(cmd, dir, shell, p.dirs, old(p.cwd));
      p.shellLog == old(p.shellLog) + s.log && r == s.outcome && p.cwd == s.cwd
  {
    var cwd := p.cwd;
    if Present(dir) {
      r := p.Chdir(dir.value);
      if r.Threw? {
        return;
      }
    }
    match cmd {
      case Sequence(lines) =>
        r := ExecSequence(p, lines, shell);
      case Shell(line) =>
        r := RunShell(p, line, shell);
      case Fn(a) =>
        r := RunAction(p, a);
    }
    if Present(dir) {
      var restored := p.Chdir(cwd);
      if restored.Threw? {
        r := restored;
      }
    }
  }
}
