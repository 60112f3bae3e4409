/** The `_help` builtin of mod.ts: a listing of the user tasks, then the builtin tasks, each
    with its name padded to a fixed column and its description, then the run options. */
module Help {
  import opened Common
  import opened JsStrings
  import opened Utils
  import opened Host

  /** Every listed name is padded to this width. */
  const NameWidth := 25

  /** A user task registered as "task_<x>" is listed as "<x>". */
  function StripTaskPrefix(name: string): string
  {
    if StartsWith(name, "task_") then name[5..] else name
  }

  /** The listed name is the key without a leading "task_", and the key is recovered from it. */
  lemma StripTaskPrefixSpec(name: string)
    ensures var r := StripTaskPrefix(name);
      (StartsWith(name, "task_") ==> "task_" + r == name && |r| == |name| - 5)
      && (!StartsWith(name, "task_") ==> r == name)
  {
    if StartsWith(name, "task_") {
      assert name == name[..5] + name[5..];
    }
  }

  /** A task's description, or "" when its source has none (`extractFunctionDocs(..) || ""`). */
  function DocsOrEmpty(t: Task): string
  {
    match ExtractedDocs(t.source)
    case Some(d) => d
    case None => ""
  }

  /** One listed task. */
  function HelpLine(name: string, docs: string): string
  {
    "     " + Padded(name, NameWidth, " ") + " : " + docs
  }

  /** How a template literal shows an optional string. */
  function Show(o: Option<string>): string
  {
    if o.Some? then o.value else "undefined"
  }

  /** Each key of a table paired with the description `docs` gives its task, in key order.
      The listing uses `DocsOrEmpty`; the layout lemmas hold for any description function. */
  function Describe(keys: seq<string>, tasks: map<string, Task>, docs: Task -> string): seq<(string, string)>
    requires forall i :: 0 <= i < |keys| ==> keys[i] in tasks
  {
    if keys == [] then []
    else
      var k := keys[|keys| - 1];
      Describe(keys[..|keys| - 1], tasks, docs) + [(k, docs(tasks[k]))]
  }

  /** The user task lines: names stripped of "task_". */
  function UserLines(entries: seq<(string, string)>): seq<string>
  {
    if entries == [] then []
    else
      var e := entries[|entries| - 1];
      UserLines(entries[..|entries| - 1]) + [HelpLine(StripTaskPrefix(e.0), e.1)]
  }

  /** The builtin task lines: names shown as they are. */
  function BuiltinLines(entries: seq<(string, string)>): seq<string>
  {
    if entries == [] then []
    else
      var e := entries[|entries| - 1];
      BuiltinLines(entries[..|entries| - 1]) + [HelpLine(e.0, e.1)]
  }

  /** The lines `_help` prints, given the described user and builtin tasks. */
  function HelpListing(user: seq<(string, string)>, builtin: seq<(string, string)>, opts: RunOptions): seq<string>
  {
    ["Help:", "  User Tasks:"] + UserLines(user)
    + ["  Builtin Tasks:"] + BuiltinLines(builtin)
    + ["  User supplied options:",
       "      defaultTask: " + Show(opts.defaultTask),
       "      dir: " + Show(opts.dir),
       "      logLevel: " + Show(opts.logLevel)]
  }

  /** The i-th entry describes the i-th key. */
  lemma {:induction false} DescribeAt(keys: seq<string>, tasks: map<string, Task>, docs: Task -> string)
    requires forall i :: 0 <= i < |keys| ==> keys[i] in tasks
    ensures |Describe(keys, tasks, docs)| == |keys|
    ensures forall i :: 0 <= i < |keys| ==> Describe(keys, tasks, docs)[i] == (keys[i], docs(tasks[keys[i]]))
  {
    if keys != [] {
      DescribeAt(keys[..|keys| - 1], tasks, docs);
    }
  }

  /** The i-th user line lists the i-th entry, stripped of "task_". */
  lemma {:induction false} UserLinesAt(entries: seq<(string, string)>)
    ensures |UserLines(entries)| == |entries|
    ensures forall i :: 0 <= i < |entries| ==>
      UserLines(entries)[i] == HelpLine(StripTaskPrefix(entries[i].0), entries[i].1)
  {
    if entries != [] {
      UserLinesAt(entries[..|entries| - 1]);
    }
  }

  /** The j-th builtin line lists the j-th entry. */
  lemma {:induction false} BuiltinLinesAt(entries: seq<(string, string)>)
    ensures |BuiltinLines(entries)| == |entries|
    ensures forall i :: 0 <= i < |entries| ==> BuiltinLines(entries)[i] == HelpLine(entries[i].0, entries[i].1)
  {
    if entries != [] {
      BuiltinLinesAt(entries[..|entries| - 1]);
    }
  }

  /** The listing: a header, one line per user task in order, a header, one line per
      builtin task in order, then the four option lines. User tasks come first. */
  lemma HelpLayout(user: seq<(string, string)>, builtin: seq<(string, string)>, opts: RunOptions)
    ensures var l := HelpListing(user, builtin, opts);
      var u := |user|;
      var b := |builtin|;
      |l| == u + b + 7
      && l[0] == "Help:" && l[1] == "  User Tasks:"
      && (forall i :: 0 <= i < u ==> l[2 + i] == HelpLine(StripTaskPrefix(user[i].0), user[i].1))
      && l[2 + u] == "  Builtin Tasks:"
      && (forall j :: 0 <= j < b ==> l[3 + u + j] == HelpLine(builtin[j].0, builtin[j].1))
      && l[3 + u + b] == "  User supplied options:"
      && l[4 + u + b] == "      defaultTask: " + Show(opts.defaultTask)
      && l[5 + u + b] == "      dir: " + Show(opts.dir)
      && l[6 + u + b] == "      logLevel: " + Show(opts.logLevel)
  {
    UserLinesAt(user);
    BuiltinLinesAt(builtin);
  }

  /** Every user task appears in the user section, under its stripped name, with its description. */
  lemma EveryUserTaskListed(userKeys: seq<string>, userTasks: map<string, Task>,
                            builtin: seq<(string, string)>, opts: RunOptions, docs: Task -> string, key: string)
    requires forall k :: k in userTasks <==> k in userKeys
    requires key in userTasks
    ensures var l := HelpListing(Describe(userKeys, userTasks, docs), builtin, opts);
      |l| >= 2 + |userKeys|
      && HelpLine(StripTaskPrefix(key), docs(userTasks[key])) in l[2..2 + |userKeys|]
  {
    var user := Describe(userKeys, userTasks, docs);
    DescribeAt(userKeys, userTasks, docs);
    HelpLayout(user, builtin, opts);
    var i :| 0 <= i < |userKeys| && userKeys[i] == key;
    var l := HelpListing(user, builtin, opts);
    assert l[2..2 + |userKeys|][i] == l[2 + i];
  }

  /** `n` spaces. */
  lemma {:induction false} RepeatSpaces(n: nat)
    ensures |Repeat(" ", n)| == n
    ensures forall k :: 0 <= k < n ==> Repeat(" ", n)[k] == ' '
  {
    if n > 0 {
      RepeatSpaces(n - 1);
      assert Repeat(" ", n) == " " + Repeat(" ", n - 1);
    }
  }

  /** A listed line: five spaces, the name, spaces up to column 30 (none when the name is
      25 characters or longer), " : " and the description. */
  lemma HelpLineColumns(name: string, docs: string)
    ensures var line := HelpLine(name, docs);
      var w := if |name| >= NameWidth then |name| else NameWidth;
      |line| == 5 + w + 3 + |docs|
      && line[..5] == "     "
      && line[5..5 + |name|] == name
      && (forall k :: 5 + |name| <= k < 5 + w ==> line[k] == ' ')
      && line[5 + w..8 + w] == " : "
      && line[8 + w..] == docs
  {
    PaddedShape(name, NameWidth, " ");
    PaddedOneChar(name, NameWidth, " ");
    var p := Padded(name, NameWidth, " ");
    var n: nat :| p == name + Repeat(" ", n);
    RepeatSpaces(n);
    var line := HelpLine(name, docs);
    assert line == "     " + (name + Repeat(" ", n)) + " : " + docs;
  }

  /** `utils.extractFunctionDocs(task) || ""`. */
  method TaskDocs(t: Task) returns (d: string)
    ensures d == DocsOrEmpty(t)
  {
    var docs := ExtractFunctionDocs(t.source);
    d := if docs.Some? then docs.value else "";
  }

  /** The `_help` task: builds the listing line by line and prints it joined with "\n". */
  method HelpTask(userKeys: seq<string>, userTasks: map<string, Task>,
                  builtinKeys: seq<string>, builtins: map<string, Task>, opts: RunOptions)
    returns (output: string)
    requires forall i :: 0 <= i < |userKeys| ==> userKeys[i] in userTasks
    requires forall i :: 0 <= i < |builtinKeys| ==> builtinKeys[i] in builtins
    ensures output == Join(HelpListing(Describe(userKeys, userTasks, DocsOrEmpty), Describe(builtinKeys, builtins, DocsOrEmpty), opts), "\n")
  {
    ghost var user := UserLines(Describe(userKeys, userTasks, DocsOrEmpty));
    ghost var builtin := BuiltinLines(Describe(builtinKeys, builtins, DocsOrEmpty));
    var lines: seq<string> := [];
    lines := lines + ["Help:"];
    lines := lines + ["  User Tasks:"];
    assert lines == ["Help:", "  User Tasks:"];
    lines := PushUserLines(lines, userKeys, userTasks);
    lines := lines + ["  Builtin Tasks:"];
    lines := PushBuiltinLines(lines, builtinKeys, builtins);
    assert lines == ["Help:", "  User Tasks:"] + user + ["  Builtin Tasks:"] + builtin;
    lines := lines + ["  User supplied options:"];
    lines := lines + ["      defaultTask: " + Show(opts.defaultTask)];
    lines := lines + ["      dir: " + Show(opts.dir)];
    lines := lines + ["      logLevel: " + Show(opts.logLevel)];
    Assemble(["Help:", "  User Tasks:"], user, builtin, opts);
    output := Join(lines, "\n");
  }

  /** The name a user task is listed under. */
  method ListedName(key: string) returns (name: string)
    ensures name == StripTaskPrefix(key)
  {
    name := key;
    if StartsWith(name, "task_") {
      name := name[5..];
    }
  }

  /** One listed task, as `_help` builds it: the name padded with `rightPad`. */
  method FormatLine(name: string, docs: string) returns (line: string)
    ensures line == HelpLine(name, docs)
  {
    var padded := RightPad(name, NameWidth, " ");
    line := "     " + padded + " : " + docs;
  }

  /** The `forEach` over the user task keys: one padded line per task, "task_" stripped. */
  method PushUserLines(lines: seq<string>, userKeys: seq<string>, userTasks: map<string, Task>)
    returns (out: seq<string>)
    requires forall i :: 0 <= i < |userKeys| ==> userKeys[i] in userTasks
    ensures out == lines + UserLines(Describe(userKeys, userTasks, DocsOrEmpty))
  {
    out := lines;
    for i := 0 to |userKeys|
      invariant out == lines + UserLines(Describe(userKeys[..i], userTasks, DocsOrEmpty))
    {
      var key := userKeys[i];
      var d := TaskDocs(userTasks[key]);
      var name := ListedName(key);
      var line := FormatLine(name, d);
      UserStep(lines, userKeys, userTasks, DocsOrEmpty, i, d, out);
      out := out + [line];
    }
    assert userKeys[..|userKeys|] == userKeys;
  }

  /** The `forEach` over the builtin task keys: one padded line per task. */
  method PushBuiltinLines(lines: seq<string>, builtinKeys: seq<string>, builtins: map<string, Task>)
    returns (out: seq<string>)
    requires forall i :: 0 <= i < |builtinKeys| ==> builtinKeys[i] in builtins
    ensures out == lines + BuiltinLines(Describe(builtinKeys, builtins, DocsOrEmpty))
  {
    out := lines;
    for j := 0 to |builtinKeys|
      invariant out == lines + BuiltinLines(Describe(builtinKeys[..j], builtins, DocsOrEmpty))
    {
      var key := builtinKeys[j];
      var d := TaskDocs(builtins[key]);
      var line := FormatLine(key, d);
      BuiltinStep(lines, builtinKeys, builtins, DocsOrEmpty, j, d, out);
      out := out + [line];
    }
    assert builtinKeys[..|builtinKeys|] == builtinKeys;
  }

  /** One iteration of the user `forEach` extends the listing by the next key's line. */
  lemma UserStep(lines: seq<string>, keys: seq<string>, tasks: map<string, Task>, docs: Task -> string,
                 i: nat, d: string, out: seq<string>)
    requires i < |keys| && forall k :: 0 <= k < |keys| ==> keys[k] in tasks
    requires d == docs(tasks[keys[i]])
    requires out == lines + UserLines(Describe(keys[..i], tasks, docs))
    ensures out + [HelpLine(StripTaskPrefix(keys[i]), d)] == lines + UserLines(Describe(keys[..i + 1], tasks, docs))
  {
    var before := Describe(keys[..i], tasks, docs);
    LastEntry(keys, tasks, docs, i, d);
    UserLinesSnoc(before, (keys[i], d));
    assert lines + (UserLines(before) + [HelpLine(StripTaskPrefix(keys[i]), d)])
           == (lines + UserLines(before)) + [HelpLine(StripTaskPrefix(keys[i]), d)];
  }

  /** One iteration of the builtin `forEach` extends the listing by the next key's line. */
  lemma BuiltinStep(lines: seq<string>, keys: seq<string>, tasks: map<string, Task>, docs: Task -> string,
                    i: nat, d: string, out: seq<string>)
    requires i < |keys| && forall k :: 0 <= k < |keys| ==> keys[k] in tasks
    requires d == docs(tasks[keys[i]])
    requires out == lines + BuiltinLines(Describe(keys[..i], tasks, docs))
    ensures out + [HelpLine(keys[i], d)] == lines + BuiltinLines(Describe(keys[..i + 1], tasks, docs))
  {
    var before := Describe(keys[..i], tasks, docs);
    LastEntry(keys, tasks, docs, i, d);
    BuiltinLinesSnoc(before, (keys[i], d));
    assert lines + (BuiltinLines(before) + [HelpLine(keys[i], d)])
           == (lines + BuiltinLines(before)) + [HelpLine(keys[i], d)];
  }

  /** One more entry adds one user line. */
  lemma UserLinesSnoc(entries: seq<(string, string)>, e: (string, string))
    ensures UserLines(entries + [e]) == UserLines(entries) + [HelpLine(StripTaskPrefix(e.0), e.1)]
  {
    assert (entries + [e])[..|entries|] == entries;
  }

  /** One more entry adds one builtin line. */
  lemma BuiltinLinesSnoc(entries: seq<(string, string)>, e: (string, string))
    ensures BuiltinLines(entries + [e]) == BuiltinLines(entries) + [HelpLine(e.0, e.1)]
  {
    assert (entries + [e])[..|entries|] == entries;
  }

  /** The pieces `_help` pushes, in order, make up the listing. */
  lemma Assemble(head: seq<string>, user: seq<string>, builtin: seq<string>, opts: RunOptions)
    ensures (((head + user + ["  Builtin Tasks:"]) + builtin + ["  User supplied options:"])
             + ["      defaultTask: " + Show(opts.defaultTask)] + ["      dir: " + Show(opts.dir)])
             + ["      logLevel: " + Show(opts.logLevel)]
            == head + user + ["  Builtin Tasks:"] + builtin
               + ["  User supplied options:", "      defaultTask: " + Show(opts.defaultTask),
                  "      dir: " + Show(opts.dir), "      logLevel: " + Show(opts.logLevel)]
  {
  }

  /** One more key extends the description by one entry. */
  lemma LastEntry(keys: seq<string>, tasks: map<string, Task>, docs: Task -> string, i: nat, d: string)
    requires i < |keys| && forall k :: 0 <= k < |keys| ==> keys[k] in tasks
    requires d == docs(tasks[keys[i]])
    ensures Describe(keys[..i + 1], tasks, docs) == Describe(keys[..i], tasks, docs) + [(keys[i], d)]
  {
    assert keys[..i + 1][..i] == keys[..i];
  }
}
