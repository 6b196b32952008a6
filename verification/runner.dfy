/** The work of `runServerScript`: choosing the script form, building the
    shell command or the environment, and turning the process outcome into
    the message the reducer receives. Starting the process is an oracle
    `exec` from an `Invocation` to its `ProcessResult`; the inherited
    environment is the parameter `environ`; the iteration order of the
    entry's `envVars` is the enumeration `pairs`. */
module Runner {
  import opened Wrappers
  import opened Enumerations
  import opened Sequences
  import opened Configuration
  import opened Messages

  /** One `envVars` entry: (name, value). */
  type EnvPair = (string, string)

  /** What a finished process gives back: the interleaved standard output
      and standard error, and the error text when the process could not be
      started or exited with a non-zero status. */
  datatype ProcessResult = ProcessResult(output: string, fault: Option<string>)

  /** A process to start. `env == None` means the child inherits the
      parent's environment unchanged. */
  datatype Invocation = Invocation(program: string, args: seq<string>, env: Option<seq<string>>)

  /** The script form an entry resolves to. */
  datatype ScriptSource = Inline(script: string) | Legacy(path: string, args: seq<string>) | NoScript

  const NoScriptText := "No script or script_path defined for this server"

  /** An inline script wins over a script path; with neither there is nothing to run. */
  function Source(c: ServerConfig): (r: ScriptSource)
    ensures r.Inline? <==> c.script != ""
    ensures r.Legacy? <==> c.script == "" && c.scriptPath != ""
    ensures r.NoScript? <==> c.script == "" && c.scriptPath == ""
    ensures r.Inline? ==> r.script == c.script
    ensures r.Legacy? ==> r.path == c.scriptPath && r.args == c.scriptArgs
  {
    if c.script != "" then Inline(c.script)
    else if c.scriptPath != "" then Legacy(c.scriptPath, c.scriptArgs)
    else NoScript
  }

  /** `export k=v; ` for one entry; neither part is quoted or escaped. */
  function ExportClause(p: EnvPair): string {
    "export " + p.0 + "=" + p.1 + "; "
  }

  /** `k=v` for one entry of a process environment. */
  function EnvEntry(p: EnvPair): string {
    p.0 + "=" + p.1
  }

  /** The exports of the server name and the token that open every inline command. */
  function ShellPrefix(server: string, token: string): string {
    "export SERVER_REGION=" + server + "; export VAULT_TOKEN=" + token + "; "
  }

  /** The command handed to `bash -c`: the two fixed exports, one export per
      entry in iteration order, then the script text itself. */
  function ShellCommand(server: string, token: string, pairs: seq<EnvPair>, script: string): (cmd: string)
    ensures ShellPrefix(server, token) <= cmd
    ensures |cmd| >= |ShellPrefix(server, token)| + |script|
    ensures cmd[|cmd| - |script|..] == script
    ensures |pairs| == 0 ==> cmd == ShellPrefix(server, token) + script
  {
    ShellPrefix(server, token) + Concat(Map(ExportClause, pairs)) + script
  }

  /** One more entry adds exactly its export clause, just before the
      script. With the empty-map case of `ShellCommand` this fixes the whole
      command: the two fixed exports, one clause per entry in iteration
      order, then the script, and nothing else. */
  lemma {:induction false} ShellCommandSnoc(server: string, token: string, pairs: seq<EnvPair>, p: EnvPair, script: string)
    ensures ShellCommand(server, token, pairs + [p], script)
         == ShellCommand(server, token, pairs, "") + ExportClause(p) + script
  {
    MapAppend(ExportClause, pairs, [p]);
    assert Map(ExportClause, [p]) == [ExportClause(p)];
    ConcatAppend(Map(ExportClause, pairs), [ExportClause(p)]);
    assert Concat([ExportClause(p)]) == ExportClause(p) + Concat([]);
    var prefix, clauses := ShellPrefix(server, token), Concat(Map(ExportClause, pairs));
    calc {
      ShellCommand(server, token, pairs + [p], script);
      prefix + Concat(Map(ExportClause, pairs) + [ExportClause(p)]) + script;
      prefix + (clauses + ExportClause(p)) + script;
      (prefix + clauses + "") + ExportClause(p) + script;
      ShellCommand(server, token, pairs, "") + ExportClause(p) + script;
    }
  }

  /** Whatever the iteration order, every `envVars` entry is exported by the command. */
  lemma ShellCommandExportsEveryVar(server: string, token: string, c: ServerConfig, pairs: seq<EnvPair>)
    requires IsEnumeration(pairs, c.envVars.Items)
    ensures forall k :: k in c.envVars ==>
      Occurs(ExportClause((k, c.envVars[k])), ShellCommand(server, token, pairs, c.script))
  {
    forall k | k in c.envVars
      ensures Occurs(ExportClause((k, c.envVars[k])), ShellCommand(server, token, pairs, c.script))
    {
      assert (k, c.envVars[k]) in c.envVars.Items;
      var i :| 0 <= i < |pairs| && pairs[i] == (k, c.envVars[k]);
      var clauses := Map(ExportClause, pairs);
      ConcatContainsParts(clauses, i);
      OccursWithin(clauses[i], ShellPrefix(server, token), Concat(clauses), c.script);
    }
  }

  /** Two iteration orders of `envVars` give commands of the same length made
      of the same export clauses; only their order may differ. */
  lemma ShellCommandAnyOrder(server: string, token: string, c: ServerConfig, p: seq<EnvPair>, q: seq<EnvPair>)
    requires IsEnumeration(p, c.envVars.Items) && IsEnumeration(q, c.envVars.Items)
    ensures multiset(Map(ExportClause, p)) == multiset(Map(ExportClause, q))
    ensures |ShellCommand(server, token, p, c.script)| == |ShellCommand(server, token, q, c.script)|
  {
    EnumerationsArePermutations(p, q, c.envVars.Items);
    MapPermutation(ExportClause, p, q);
    ConcatLengthPermutation(Map(ExportClause, p), Map(ExportClause, q));
  }

  /** The environment of a legacy script: the inherited environment, then
      the server name, the token, and one entry per `envVars` pair. */
  function LegacyEnv(environ: seq<string>, server: string, token: string, pairs: seq<EnvPair>): (env: seq<string>)
    ensures |env| == |environ| + 2 + |pairs|
    ensures env[..|environ|] == environ
    ensures env[|environ|] == "SERVER_REGION=" + server
    ensures env[|environ| + 1] == "VAULT_TOKEN=" + token
    ensures forall i :: 0 <= i < |pairs| ==> env[|environ| + 2 + i] == EnvEntry(pairs[i])
  {
    environ + ["SERVER_REGION=" + server, "VAULT_TOKEN=" + token] + Map(EnvEntry, pairs)
  }

  /** Whatever the iteration order, every `envVars` entry is in the legacy environment. */
  lemma LegacyEnvHoldsEveryVar(environ: seq<string>, server: string, token: string, c: ServerConfig, pairs: seq<EnvPair>)
    requires IsEnumeration(pairs, c.envVars.Items)
    ensures forall k :: k in c.envVars ==>
      EnvEntry((k, c.envVars[k])) in LegacyEnv(environ, server, token, pairs)[|environ| + 2..]
  {
    var env := LegacyEnv(environ, server, token, pairs);
    forall k | k in c.envVars
      ensures EnvEntry((k, c.envVars[k])) in env[|environ| + 2..]
    {
      assert (k, c.envVars[k]) in c.envVars.Items;
      var i :| 0 <= i < |pairs| && pairs[i] == (k, c.envVars[k]);
      assert env[|environ| + 2..][i] == env[|environ| + 2 + i];
    }
  }

  /** Two iteration orders of `envVars` give the same inherited part and the
      same two fixed entries, and environments that are permutations of each other. */
  lemma LegacyEnvAnyOrder(environ: seq<string>, server: string, token: string, c: ServerConfig, p: seq<EnvPair>, q: seq<EnvPair>)
    requires IsEnumeration(p, c.envVars.Items) && IsEnumeration(q, c.envVars.Items)
    ensures LegacyEnv(environ, server, token, p)[..|environ| + 2] == LegacyEnv(environ, server, token, q)[..|environ| + 2]
    ensures multiset(LegacyEnv(environ, server, token, p)) == multiset(LegacyEnv(environ, server, token, q))
  {
    var fixed := environ + ["SERVER_REGION=" + server, "VAULT_TOKEN=" + token];
    EnumerationsArePermutations(p, q, c.envVars.Items);
    MapPermutation(EnvEntry, p, q);
    assert multiset(fixed + Map(EnvEntry, p)) == multiset(fixed) + multiset(Map(EnvEntry, p));
    assert multiset(fixed + Map(EnvEntry, q)) == multiset(fixed) + multiset(Map(EnvEntry, q));
    assert (fixed + Map(EnvEntry, p))[..|environ| + 2] == fixed;
    assert (fixed + Map(EnvEntry, q))[..|environ| + 2] == fixed;
  }

  /** The process to start for an entry: `bash -c <command>` inheriting the
      environment for an inline script; the path with its arguments and the
      built environment for the legacy form; nothing without either. */
  function Plan(server: string, c: ServerConfig, token: string, environ: seq<string>, pairs: seq<EnvPair>): (r: Option<Invocation>)
    ensures r.None? <==> c.script == "" && c.scriptPath == ""
    ensures c.script != "" ==>
      && r.Some? && r.value.program == "bash" && r.value.env.None?
      && r.value.args == ["-c", ShellCommand(server, token, pairs, c.script)]
    ensures c.script == "" && c.scriptPath != "" ==>
      && r.Some? && r.value.program == c.scriptPath && r.value.args == c.scriptArgs
      && r.value.env == Some(LegacyEnv(environ, server, token, pairs))
  {
    match Source(c)
    case Inline(script) => Some(Invocation("bash", ["-c", ShellCommand(server, token, pairs, script)], None))
    case Legacy(path, args) => Some(Invocation(path, args, Some(LegacyEnv(environ, server, token, pairs))))
    case NoScript => None
  }

  /** The message for a finished process: its output verbatim on success;
      on failure the error text, a newline, then the output. */
  function Report(res: ProcessResult): (r: Msg)
    ensures r.ScriptSucceeded? || r.ScriptFailed?
    ensures r.ScriptSucceeded? <==> res.fault.None?
    ensures r.ScriptSucceeded? ==> r.text == res.output
    ensures r.ScriptFailed? ==>
      var fault := res.fault.value;
      && |r.text| == |fault| + 1 + |res.output|
      && r.text[..|fault|] == fault
      && r.text[|fault|] == '\n'
      && r.text[|fault| + 1..] == res.output
  {
    match res.fault
    case None => ScriptSucceeded(res.output)
    case Some(fault) => ScriptFailed(fault + "\n" + res.output)
  }

  /** The message a script run produces, with `exec` starting the process. */
  function RunServerScript(server: string, c: ServerConfig, token: string, environ: seq<string>,
                           pairs: seq<EnvPair>, exec: Invocation -> ProcessResult): (r: Msg)
    requires IsEnumeration(pairs, c.envVars.Items)
    ensures r.ScriptSucceeded? || r.ScriptFailed?
    ensures c.script == "" && c.scriptPath == "" ==> r == ScriptFailed(NoScriptText)
    ensures c.script != "" ==>
      r == Report(exec(Invocation("bash", ["-c", ShellCommand(server, token, pairs, c.script)], None)))
    ensures c.script == "" && c.scriptPath != "" ==>
      r == Report(exec(Invocation(c.scriptPath, c.scriptArgs, Some(LegacyEnv(environ, server, token, pairs)))))
  {
    match Plan(server, c, token, environ, pairs)
    case None => ScriptFailed(NoScriptText)
    case Some(inv) => Report(exec(inv))
  }

  /** Without a script form no process is started: the outcome is the same
      whatever the process oracle would have done. */
  lemma NoScriptStartsNothing(server: string, c: ServerConfig, token: string, environ: seq<string>,
                              pairs: seq<EnvPair>, exec1: Invocation -> ProcessResult, exec2: Invocation -> ProcessResult)
    requires IsEnumeration(pairs, c.envVars.Items)
    requires c.script == "" && c.scriptPath == ""
    ensures RunServerScript(server, c, token, environ, pairs, exec1) == RunServerScript(server, c, token, environ, pairs, exec2)
    ensures RunServerScript(server, c, token, environ, pairs, exec1).text == NoScriptText
  {
  }

  /** A non-empty inline script is run whatever the legacy fields say. */
  lemma InlineWinsOverPath(server: string, c: ServerConfig, token: string, environ: seq<string>,
                           pairs: seq<EnvPair>, exec: Invocation -> ProcessResult, path: string, args: seq<string>)
    requires IsEnumeration(pairs, c.envVars.Items)
    requires c.script != ""
    ensures RunServerScript(server, c, token, environ, pairs, exec)
         == RunServerScript(server, c.(scriptPath := path, scriptArgs := args), token, environ, pairs, exec)
  {
  }

  /** A failed run always shows something: at least the newline after the error text. */
  lemma FailureTextNeverEmpty(res: ProcessResult)
    requires res.fault.Some?
    ensures Report(res).ScriptFailed? && |Report(res).text| > |res.output|
  {
  }
}
