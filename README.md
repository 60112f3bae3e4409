# A verified model of a Deno build-script task runner

The repository is a small task dispatcher for Deno build scripts. A build script hands a table
of named task functions to `run`. `run` reads the task names from the command line and calls the
tasks one after another, each with a copy of the parsed arguments. There are two variants:

- `mod.ts` has a user table and a builtin table (`_help`, `_clear_cache`). It falls back to
  `"task_" + name` in the builtin table. It moves into a directory relative to the entry script
  for the duration of the run and moves back afterwards. It also exports `exec`, which runs a
  function or shell commands inside a directory it enters temporarily.
- `runner.ts` is the older variant. It has a single table and no builtins, and it leaves the
  working directory alone.

This project models both in Dafny and proves the properties listed below.

Layout (one Dafny module per file):

| file | module | what it holds |
|---|---|---|
| `common.dfy` | `Common` | optional values, parsed-argument values with JavaScript truthiness, errors and outcomes |
| `host.dfy` | `Host` | the runtime the dispatchers touch: a `Process` class (working directory, existing directories, environment, and the invocations and shell runs made so far), `Deno.chdir`, task invocation, the logger |
| `jsstrings.dfy` | `JsStrings` | the ECMAScript string operations used: `trim`, `startsWith`, `endsWith`, `substr`, `split(/\r?\n/)`, `join` |
| `utils.dfy` | `Utils` | `utils.rightPad` and `utils.extractFunctionDocs` |
| `help.dfy` | `Help` | the `_help` builtin's listing |
| `dispatcher.dfy` | `Dispatcher` | mod.ts resolution, `runTasks`, `setWorkingDir`, the builtin table and `run` |
| `exec.dfy` | `Exec` | mod.ts `exec` |
| `runner.dfy` | `Runner` | runner.ts `run` |

Each imperative piece of the source is a method with a loop or a state change. Its `ensures`
ties the result and the new `Process` state to a specification function. The properties the
source promises are then proved about those functions as lemmas. How a task behaves is
abstract: it may change directory (which fails when the directory does not exist), then it
returns or throws.

An unresolved name in mod.ts does not make the run fail. `runTasks` logs the name and does a
plain `return` (mod.ts:193-196). So `run` completes normally after the tasks before it, and it
restores the directory. `Dispatcher.RunTasksStops` states this for `runTasks` and
`Dispatcher.RunStops` for `run`. runner.ts throws instead, and `Runner.UnknownNameHandling`
sets the two side by side.

The help listing shows a user task registered as `task_x` under the name `x` (mod.ts:103-105).
Resolution only tries the `task_` prefix in the builtin table (mod.ts:190), so asking for `x`
finds nothing. `Dispatcher.ListedNameUnresolved` proves this. The builtin table holds no
`task_` keys, so the fallback never matches anything in this code.

## Model

| member | source | states |
|---|---|---|
| Utils.RightPad | mod.ts:32-37 | the result is `s` followed by whole copies of `padChar`; it is `s` unchanged when `s` is already `size` long, otherwise its length reaches `size` and overshoots by less than one `padChar` |
| Utils.PaddedShape | mod.ts:32-37 | the padded string is `s` plus some number of copies of `padChar`, and it is the shortest such string reaching `size` |
| Utils.PaddedOneChar | mod.ts:32-37 | with a one-character `padChar` the result has length max(\|s\|, size) and starts with `s` |
| Utils.ExtractFunctionDocs | mod.ts:38-76 | the scan of the first four lines returns exactly the description the reference definition `ExtractedDocs` gives |
| Utils.ReadLiteral | mod.ts:52-71 | the inner loop returns the block from the opening line to the first closing line, unquoted, or none when no line closes it |
| Utils.UnquoteBlock | mod.ts:64-67 | drops a trailing ";" and then the first and last character |
| Utils.FindOpeningSpec | mod.ts:44-51 | the opening line found is the first line among the first four whose trimmed text starts with `'`, `"` or a backtick; none is found exactly when none of them does |
| Utils.FindClosingSpec | mod.ts:54-58 | the closing line is the first line, starting at the opening line itself, whose trimmed text ends with the quote or the quote and ";"; none is found exactly when no such line exists |
| Utils.DocsOfLeadingLiteral | mod.ts:42-68 | a function whose header line opens no literal and whose next line is an indented `"doc";` is described by exactly `doc` |
| Utils.LiteralLine | mod.ts:45-67 | an indented `"doc";` line opens and closes the literal on the same line, and unquoting its trimmed text gives `doc` |
| Utils.LeadingLines | mod.ts:42 | splitting such a source gives the header as line 0 and the literal line as line 1 |
| JsStrings.TrimStartSpec | mod.ts:45 | the start of `trim` drops exactly the longest whitespace prefix |
| JsStrings.TrimEndSpec | mod.ts:45 | the end of `trim` drops exactly the longest whitespace suffix |
| JsStrings.TrimSpec | mod.ts:45 | `trim` keeps a contiguous middle part of the string that has no whitespace at either end, and everything it drops is whitespace |
| JsStrings.TrimIndented | mod.ts:45 | trimming whitespace indentation before a word with non-whitespace ends gives the word |
| JsStrings.Substr | mod.ts:65-67 | `substr` is the in-range slice when the range fits, empty for a non-positive length or a start past the end, and always a prefix of the text from `start` |
| JsStrings.SplitLines | mod.ts:42 | splitting gives at least one line and no line contains "\n" |
| JsStrings.SplitLinesSingle | mod.ts:42 | text without line breaks is one line |
| JsStrings.SplitLinesCons | mod.ts:42 | a first line without "\r" or "\n" is split off at the first "\n" |
| JsStrings.JoinSplitLines | mod.ts:60-63 | joining the split lines with "\n" gives back any text without "\r" |
| Help.StripTaskPrefixSpec | mod.ts:103-105 | a name starting with "task_" is listed without those five characters, and prefixing them gives the key back; other names are listed unchanged |
| Help.HelpLineColumns | mod.ts:106 | a listed line is five spaces, the name, spaces up to width 25, " : ", then the description |
| Help.HelpLayout | mod.ts:97-118 | the listing has a header, one line per user task in key order, a header, one line per builtin in key order, then the four option lines; user names are stripped of "task_" and builtin names are not |
| Help.EveryUserTaskListed | mod.ts:100-107 | every user task appears in the user section under its stripped name with its description |
| Help.DescribeAt | mod.ts:100-101 | the i-th described entry is the i-th key with the description of its task |
| Help.UserLinesAt | mod.ts:100-107 | the i-th user line lists the i-th entry with "task_" stripped |
| Help.BuiltinLinesAt | mod.ts:110-113 | the j-th builtin line lists the j-th entry as named |
| Help.HelpTask | mod.ts:93-121 | the text printed is the listing joined with "\n" |
| Help.PushUserLines | mod.ts:100-107 | the loop appends exactly the user lines of the listing |
| Help.PushBuiltinLines | mod.ts:110-113 | the loop appends exactly the builtin lines of the listing |
| Help.TaskDocs | mod.ts:101 | a task's description, or "" when it has none |
| Help.ListedName | mod.ts:102-105 | the name a user task is listed under |
| Help.FormatLine | mod.ts:106 | the line built with `rightPad` is the listed line |
| Host.ChangeDir | mod.ts:152 | changing directory succeeds exactly when the directory exists, and only then moves |
| Host.Process.constructor | mod.ts:146 | a process starts in an existing directory with no invocations and no shell runs |
| Host.Process.Chdir | mod.ts:152 | `Deno.chdir` moves to an existing directory or throws and stays |
| Host.ActionStep | mod.ts:203 | a task completes exactly when its directory change (if any) succeeds and it returns; without a directory change it stays where it was |
| Host.RunAction | mod.ts:203 | performing an action changes the process as `ActionStep` says |
| Host.InvokeTask | mod.ts:198-203 | a call records one invocation with its arguments and starting directory, then performs the action |
| Host.RequestedNames | mod.ts:140-143 | the names are the positional list when it is non-empty, else the single default name |
| Host.TaskArgs | mod.ts:144 | the task arguments are the parsed arguments with "_" and only "_" removed |
| Dispatcher.ResolveOrder | mod.ts:185-191 | a task is found exactly when the name is a user key, a builtin key, or a builtin key after "task_"; the first of these wins, so a user task shadows a builtin |
| Dispatcher.RunTasks | mod.ts:181-209 | the loop makes exactly the invocations `RunTasksSpec` lists and ends with its outcome and directory |
| Dispatcher.RunTasksInOrder | mod.ts:182-203 | the invocations are the requested names in order, one per occurrence, each resolved and each given the same arguments |
| Dispatcher.RunTasksStops | mod.ts:193-207 | an unresolved name ends the loop normally after the earlier tasks; a failing task ends it with an error naming it, after one more invocation; no later name is tried; with no failure all run |
| Dispatcher.SetWorkingDir | mod.ts:156-171 | without a non-empty `DENO_ENTRY_SCRIPT` it throws its message and stays; otherwise it changes into `join(dirname(entry), runDir)` |
| Dispatcher.NewBuiltinTasks | mod.ts:79-124 | the builtin table has exactly the keys `_clear_cache` and `_help` |
| Dispatcher.BuiltinDocs | mod.ts:84-94 | the builtins are described as "Print this help" and "Clear the deno script cache in $HOME/.cache/deno" |
| Dispatcher.BuiltinHelpSection | mod.ts:109-113 | the builtin section of the help lists `_clear_cache` and `_help`, in that order, with those descriptions |
| Dispatcher.ListedNameUnresolved | mod.ts:185-191 | a user task `task_x` is listed as `x`, but `x` resolves to nothing and running it stops the loop without an invocation |
| Dispatcher.RunSpec | mod.ts:127-154 | `opts.logLevel` overrides `--log`; the directory is restored on every path; without an entry script nothing runs and the run throws; at most the requested names run; with no positional names the only invocation is of `opts.default \|\| "_help"` |
| Dispatcher.RunInvocations | mod.ts:140-150 | every invocation is a requested, resolved name in order, gets the arguments without "_", and the first starts in the base directory |
| Dispatcher.RunStops | mod.ts:144-153 | failures propagate out of `run`: once the base directory is entered, an unresolved k-th name ends the run normally after k invocations, a throwing k-th task makes `run` throw the error naming it after k + 1 invocations, all complete otherwise, and each way the directory is changed back |
| Dispatcher.RunDefaultsToHelp | mod.ts:128-143 | with no names and no default, `run` invokes the builtin `_help` once in the base directory, completes and restores the directory |
| Dispatcher.Run | mod.ts:127-154 | `run` sets the level, invocations, outcome and directory as `RunSpec` says |
| Exec.SequenceStops | mod.ts:227 | the sequence runs its lines in order in one directory, up to and including the first whose shell call throws, and ends with that line's error; when none throws all run |
| Exec.ExecSequence | mod.ts:227 | the sequence loop starts exactly the shell runs `SequenceSpec` lists |
| Exec.RunShell | mod.ts:231 | one shell command is started in the current directory and ends as the shell says |
| Exec.ExecSpec | mod.ts:215-242 | with `dir` set, an unknown `dir` throws before anything runs; an existing `dir` makes the shell runs and the outcome exactly those of the command run there, so an error it throws propagates, and the directory at entry is restored whatever the command did; without `dir`, the shell runs and the outcome are exactly those of the command run in the caller's directory (a string makes one shell run there and `exec` ends with its outcome), shell commands leave the directory alone and a function's own directory change persists |
| Exec.ShellRunsInScope | mod.ts:218-241 | shell commands run in `dir` when it is given and in the caller's directory otherwise |
| Exec.ExecSequenceStopsAtFailure | mod.ts:224-227 | an array command runs its lines up to and including the first whose shell call throws, and `exec` throws that line's error; when none throws `exec` completes |
| Exec.Exec | mod.ts:215-242 | `exec` changes the process as `ExecSpec` says |
| Runner.RunnerStops | runner.ts:36-57 | an unknown name throws "No task '<name>' exists" after the earlier tasks; a failing task throws an error naming it after one more invocation; no later name runs; with no failure all run |
| Runner.RunnerInOrder | runner.ts:36-52 | the invocations are requested names in the single table, in order, each with the same arguments |
| Runner.RunnerSpec | runner.ts:21-59 | only requested names found in the one table are invoked, in order, each with the arguments without "_"; the level is "info" unless `--log` is truthy |
| Runner.RunnerRunStops | runner.ts:36-58 | when the tasks before the k-th complete, an unknown k-th name makes `run` throw "No task '<name>' exists" after k invocations, a throwing k-th task makes it throw the error naming it after k + 1, and it completes when all complete |
| Runner.RunnerDefaultsToHelp | runner.ts:21-30 | with no names and no default, "help" runs, or "No task 'help' exists" is thrown when the table has none |
| Runner.UnknownNameHandling | runner.ts:46-49 | for a name no table holds, runner.ts throws while mod.ts completes without invoking anything |
| Runner.RunnerRun | runner.ts:21-59 | `run` sets the level, invocations, outcome and directory as `RunnerSpec` says |
| Runner.RunnerLoop | runner.ts:36-58 | the loop makes exactly the invocations `RunnerLoopSpec` lists and ends with its outcome |

## Left out

- Utils.RightPad: requires a non-empty `padChar` when `s` is shorter than `size`, because the source loops forever there.
- `utils.extractFunctionDocs`'s `if (!func)` guard (mod.ts:39-41): tasks are given as source text, which is always present.
- `Function.prototype.toString` (mod.ts:42): a task's source text is an input of the model.
- String lengths count code points, not UTF-16 code units. The two differ only for characters outside the Basic Multilingual Plane.
- The `_clear_cache` body (mod.ts:84-91): the `HOME` lookup and the recursive delete are file-system I/O. Only the outcome of the delete is a parameter.
- Printing (`console.log`, mod.ts:120) and all logger output: the model returns the help text, and only the logger's level is state.
- `parse(Deno.args)` (mod.ts:131, runner.ts:26): the parsed arguments are an input, with the positional names under "_". Positional names the parser turns into numbers are not modelled.
- `path.dirname` and `path.join` (mod.ts:164-167): they are function parameters, taken as given.
- `Deno.chdir` resolving relative paths: directories are identified by their path strings as given.
- The shell library behind `real_exec` and `execSequence` (mod.ts:2, 227, 231): it is a function from command line and directory to outcome. The library's code is not part of this model.
- Exit statuses of shell commands: a `Threw` from the shell function means the library call throws; `Done` means it returns. mod.ts discards what `real_exec` and `execSequence` return (mod.ts:227, 231). So a non-zero exit status that the library only reports in its return value does not make `exec` throw, and the model has no such value. How `execSequence` with `continueOnError: false` stops on a non-zero status that it does not throw for is not modelled; the model stops a sequence at the first line whose call throws.
- A task's own calls to `exec` and other nested effects: a task is abstracted to an optional directory change followed by returning or throwing.
- A task does the same thing on every call: its `Action` is fixed, whatever its arguments, its starting directory or the calls before it. For example, `_clear_cache _clear_cache` gets the same delete outcome twice, where in the source the second `Deno.remove` (mod.ts:90) would find the directory gone and throw.
- `async`/`await`: the calls are sequential, so they are modelled as ordinary calls.
- The per-task shallow copy `{ ...taskArgs }` (mod.ts:200, runner.ts:51): arguments are immutable map values, so each task gets equal contents but object identity and a task mutating its copy are not modelled.
- JavaScript property lookup through the prototype chain (mod.ts:185-190, runner.ts:40): tables are maps holding only their own keys.
- The `try`/`catch` around the lookup in runner.ts (runner.ts:39-45): a map lookup cannot throw, so that branch is not modelled.
- Removing directories: the set of existing directories is fixed for a run. No task, and not the `_clear_cache` delete (mod.ts:90), removes a directory. So the change back to the starting directory in the `finally` blocks (mod.ts:152, mod.ts:239) cannot fail while that directory existed at the start, and the `Deno.chdir` error it could throw in the source is not modelled.
- Dispatcher.RunSpec: the clause that `run` ends in its starting directory rests on that fixed directory set.
- Dispatcher.RunStops: the directory restored at the end and the outcome that is not replaced by a failing change back rest on that fixed directory set.
- Exec.ExecSpec: the clause that `exec` ends in its starting directory and the clause that a command's outcome is `exec`'s rest on that fixed directory set.
- The order of the user task keys in the help listing: `Object.keys(namedTasks)` (mod.ts:100) lists integer-like keys first in ascending order, then the rest in insertion order. The model takes the key sequence as an input of `Help.HelpTask` and does not require it to be that order or to list each key exactly once.
- Logger defaults set at module load (mod.ts:6): the logger's initial level is a parameter of `Dispatcher.RunSpec`.
