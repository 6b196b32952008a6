/** Runs of the reducer over message sequences: the invariants every run
    keeps, the index panic of the selection screen, end-to-end scenarios,
    and behaviours of the menu that a user may not expect: a run that is
    not cancelled by going back, and an error flag that outlives its run. */
module Traces {
  import opened Wrappers
  import opened Enumerations
  import opened Configuration
  import opened Messages
  import opened Runner
  import opened Session
  import opened Setup
  import opened View

  /** The model after feeding `msgs` to the reducer one at a time. */
  function Replay(m: ServerModel, msgs: seq<Msg>): ServerModel
    decreases |msgs|
  {
    if msgs == [] then m else Replay(Update(m, msgs[0]).model, msgs[1..])
  }

  /** The effects of the same run, one per message. */
  function Emitted(m: ServerModel, msgs: seq<Msg>): (r: seq<Effect>)
    ensures |r| == |msgs|
    decreases |msgs|
  {
    if msgs == [] then [] else [Update(m, msgs[0]).effect] + Emitted(Update(m, msgs[0]).model, msgs[1..])
  }

  /** The same run with the reducer as written; `None` once it panics. */
  function ReplayAsWritten(m: ServerModel, msgs: seq<Msg>): Option<ServerModel>
    decreases |msgs|
  {
    if msgs == [] then Some(m)
    else
      match UpdateAsWritten(m, msgs[0])
      case None => None
      case Some(step) => ReplayAsWritten(step.model, msgs[1..])
  }

  /** One message, then the rest. */
  lemma ReplayCons(m: ServerModel, msg: Msg, rest: seq<Msg>)
    ensures Replay(m, [msg] + rest) == Replay(Update(m, msg).model, rest)
    ensures Emitted(m, [msg] + rest) == [Update(m, msg).effect] + Emitted(Update(m, msg).model, rest)
  {
    assert ([msg] + rest)[0] == msg && ([msg] + rest)[1..] == rest;
  }

  /** A run over `a + b` is the run over `a` continued with `b`. */
  lemma {:induction false} ReplayAppend(m: ServerModel, a: seq<Msg>, b: seq<Msg>)
    ensures Replay(m, a + b) == Replay(Replay(m, a), b)
    decreases |a|
  {
    if a != [] {
      var next := Update(m, a[0]).model;
      assert (a + b)[0] == a[0] && (a + b)[1..] == a[1..] + b;
      ReplayAppend(next, a[1..], b);
    } else {
      assert a + b == b;
    }
  }

  /** The effects of a run over `a + b` are those of `a`, then those of `b`
      from where `a` left off. */
  lemma {:induction false} EmittedAppend(m: ServerModel, a: seq<Msg>, b: seq<Msg>)
    ensures Emitted(m, a + b) == Emitted(m, a) + Emitted(Replay(m, a), b)
    decreases |a|
  {
    if a != [] {
      var step := Update(m, a[0]);
      assert (a + b)[0] == a[0] && (a + b)[1..] == a[1..] + b;
      EmittedAppend(step.model, a[1..], b);
    } else {
      assert a + b == b;
    }
  }

  /** However many messages arrive, the cursor stays on the list (never
      negative, never past the last entry), and the configuration and the
      list itself never change. */
  lemma {:induction false} ReplayKeepsInvariants(m: ServerModel, msgs: seq<Msg>)
    requires CursorInRange(m)
    ensures CursorInRange(Replay(m, msgs))
    ensures Ready(m) ==> Ready(Replay(m, msgs))
    ensures Replay(m, msgs).config == m.config
    ensures Replay(m, msgs).serverNames == m.serverNames
    decreases |msgs|
  {
    if msgs != [] {
      ReplayKeepsInvariants(Update(m, msgs[0]).model, msgs[1..]);
    }
  }

  /** Wherever the program as written does not panic, it computes exactly
      what the total reducer computes. */
  lemma {:induction false} AsWrittenAgreesWhenDefined(m: ServerModel, msgs: seq<Msg>)
    ensures ReplayAsWritten(m, msgs).Some? ==> ReplayAsWritten(m, msgs) == Some(Replay(m, msgs))
    decreases |msgs|
  {
    if msgs != [] {
      AsWrittenAgreesWhenDefined(Update(m, msgs[0]).model, msgs[1..]);
    }
  }

  /** From a model whose cursor designates a server, which is every model
      built from a configuration with servers, the program as written never
      panics. */
  lemma {:induction false} ReadyNeverPanics(m: ServerModel, msgs: seq<Msg>)
    requires Ready(m)
    ensures ReplayAsWritten(m, msgs) == Some(Replay(m, msgs))
    decreases |msgs|
  {
    if msgs != [] {
      ReadyNeverPanics(Update(m, msgs[0]).model, msgs[1..]);
    }
  }

  /** A configuration that cannot be read still leaves the key handling
      live: once the token check reports a token the selection screen is the
      current state, and enter there indexes the empty server list. The
      total reducer does nothing instead. */
  lemma ConfigErrorThenEnterPanics(detail: string, token: string)
    requires token != ""
    ensures var m := InitialSetup(Err(ReadFailed(detail)), []);
            var msgs := [CheckVaultToken(token), Key("enter")];
            && Render(m).ConfigErrorScreen?
            && ReplayAsWritten(m, msgs) == None
            && Replay(m, msgs) == m.(vaultToken := token, state := ServerSelection)
            && Emitted(m, msgs) == [NoCmd, NoCmd]
  {
    var m := InitialSetup(Err(ReadFailed(detail)), []);
    var m1 := Update(m, VaultTokenFound(token)).model;
    assert m1 == m.(vaultToken := token, state := ServerSelection);
    assert UpdateAsWritten(m1, Key("enter")) == None;
    ReplayCons(m, VaultTokenFound(token), [Key("enter")]);
    ReplayCons(m1, Key("enter"), []);
    assert [CheckVaultToken(token), Key("enter")] == [VaultTokenFound(token)] + [Key("enter")];
  }

  /** The same panic without any token in the environment: typing one byte
      and enter commits it, and a second enter panics. */
  lemma ConfigErrorTypedTokenPanics(detail: string)
    ensures var m := InitialSetup(Err(ParseFailed(detail)), []);
            var msgs := [VaultTokenMissing, Key("x"), Key("enter"), Key("enter")];
            && ReplayAsWritten(m, msgs) == None
            && Emitted(m, msgs)[2] == SetEnv(VaultTokenVar, "x")
  {
    var m := InitialSetup(Err(ParseFailed(detail)), []);
    var m1 := Update(m, VaultTokenMissing).model;
    var m2 := Update(m1, Key("x")).model;
    assert m2.vaultTokenInput == "x";
    var m3 := Update(m2, Key("enter")).model;
    assert m3.state == ServerSelection && m3.serverNames == [];
    assert UpdateAsWritten(m3, Key("enter")) == None;
    var msgs := [VaultTokenMissing, Key("x"), Key("enter"), Key("enter")];
    assert msgs[1..] == [Key("x"), Key("enter"), Key("enter")];
    assert msgs[1..][1..] == [Key("enter"), Key("enter")];
    assert msgs[1..][1..][1..] == [Key("enter")];
    ReplayCons(m, VaultTokenMissing, msgs[1..]);
    ReplayCons(m1, Key("x"), msgs[1..][1..]);
    ReplayCons(m2, Key("enter"), msgs[1..][1..][1..]);
  }

  /** The keystrokes of a text, one key per byte. */
  function Keystrokes(s: string): (r: seq<Msg>)
    ensures |r| == |s|
    ensures forall i :: 0 <= i < |s| ==> r[i] == Key([s[i]])
  {
    if s == [] then [] else [Key([s[0]])] + Keystrokes(s[1..])
  }

  /** Typing a text without `q` on the token entry screen appends it to the
      buffer byte by byte; the first byte clears any paste error. */
  lemma {:induction false} TypingAppends(m: ServerModel, s: string)
    requires m.state == VaultTokenInput
    requires forall i :: 0 <= i < |s| ==> s[i] != 'q'
    ensures Replay(m, Keystrokes(s))
         == m.(vaultTokenInput := m.vaultTokenInput + s, pasteError := if s == [] then m.pasteError else "")
    decreases |s|
  {
    if s != [] {
      TypeOneKey(m, s[0]);
      var m1 := m.(pasteError := "", vaultTokenInput := m.vaultTokenInput + [s[0]]);
      TypingAppends(m1, s[1..]);
      assert m.vaultTokenInput + [s[0]] + s[1..] == m.vaultTokenInput + s;
      assert Keystrokes(s) == [Key([s[0]])] + Keystrokes(s[1..]);
      ReplayCons(m, Key([s[0]]), Keystrokes(s[1..]));
    }
  }

  /** The same typing emits no command. */
  lemma {:induction false} TypingEmitsNothing(m: ServerModel, s: string)
    requires m.state == VaultTokenInput
    requires forall i :: 0 <= i < |s| ==> s[i] != 'q'
    ensures forall i :: 0 <= i < |s| ==> Emitted(m, Keystrokes(s))[i] == NoCmd
    decreases |s|
  {
    if s != [] {
      TypeOneKey(m, s[0]);
      var m1 := m.(pasteError := "", vaultTokenInput := m.vaultTokenInput + [s[0]]);
      TypingEmitsNothing(m1, s[1..]);
      assert Keystrokes(s) == [Key([s[0]])] + Keystrokes(s[1..]);
      ReplayCons(m, Key([s[0]]), Keystrokes(s[1..]));
      assert Emitted(m, Keystrokes(s)) == [NoCmd] + Emitted(m1, Keystrokes(s[1..]));
    }
  }

  /** One byte other than `q` typed on the token entry screen. */
  lemma TypeOneKey(m: ServerModel, c: char)
    requires m.state == VaultTokenInput && c != 'q'
    ensures Update(m, Key([c])) == Step(m.(pasteError := "", vaultTokenInput := m.vaultTokenInput + [c]), NoCmd)
  {
    assert [c] != "q" && [c] != "ctrl+c" && |[c]| == 1;
    assert Update(m, Key([c])) == TokenInputKey(m, [c]);
  }

  // ------------------------------------------------------------------ scenarios

  const East := ServerConfig("echo hi", "", [], map[], "")
  const OneServer := Config(map["east" := East])

  lemma OneServerEnumeration()
    ensures IsEnumeration(["east"], OneServer.servers.Keys)
    ensures IsEnumeration([], East.envVars.Items)
  {
  }

  /** The run of `echo hi` for "east" with token "abc": the shell gets
      `export SERVER_REGION=east; export VAULT_TOKEN=abc; echo hi`, and the
      output comes back verbatim. */
  lemma EastRun(environ: seq<string>, exec: Invocation -> ProcessResult)
    requires exec(Invocation("bash", ["-c", ShellPrefix("east", "abc") + "echo hi"], None)) == ProcessResult("hi\n", None)
    ensures IsEnumeration([], East.envVars.Items)
    ensures RunServerScript("east", East, "abc", environ, [], exec) == ScriptSucceeded("hi\n")
  {
    OneServerEnumeration();
  }

  /** With VAULT_TOKEN set to "abc" and one server "east" running `echo hi`:
      the token check goes straight to the list, enter starts exactly that
      script with the token, and the runner's report of it is shown as
      plain output. */
  lemma ScenarioAmbientToken(environ: seq<string>, exec: Invocation -> ProcessResult)
    requires exec(Invocation("bash", ["-c", ShellPrefix("east", "abc") + "echo hi"], None)) == ProcessResult("hi\n", None)
    ensures IsEnumeration([], East.envVars.Items)
    ensures var m0 := InitialSetup(Ok(OneServer), ["east"]);
            var m1 := Update(m0, CheckVaultToken("abc")).model;
            var step := Update(m1, Key("enter"));
            var m3 := Update(step.model, RunServerScript("east", East, "abc", environ, [], exec)).model;
            && m1.state == ServerSelection
            && step.effect == Run("east", East, "abc")
            && m3.state == ScriptOutput && m3.runOutput == "hi\n" && !m3.hasError
            && Render(m3) == OutputScreen("east", Shown("hi\n"))
  {
    OneServerEnumeration();
    EastRun(environ, exec);
    var m0 := InitialSetup(Ok(OneServer), ["east"]);
    assert m0.serverNames == ["east"] && m0.cursor == 0 && !m0.hasError;
    var m1 := Update(m0, VaultTokenFound("abc")).model;
    assert m1 == m0.(vaultToken := "abc", state := ServerSelection);
    assert Lookup(OneServer, "east") == East;
  }

  /** Without VAULT_TOKEN, typing a token (any text free of `q`, such as
      "tok123") and enter publishes exactly that token and moves on to the
      list. */
  lemma ScenarioTypedToken(m0: ServerModel, token: string)
    requires m0.state == VaultTokenInput && m0.vaultTokenInput == "" && m0.pasteError == ""
    requires token != "" && forall i :: 0 <= i < |token| ==> token[i] != 'q'
    ensures var typed := Replay(Update(m0, CheckVaultToken("")).model, Keystrokes(token));
            var step := Update(typed, Key("enter"));
            && typed.vaultTokenInput == token
            && step.model.state == ServerSelection && step.model.vaultToken == token
            && step.effect == SetEnv(VaultTokenVar, token)
  {
    MissingTokenKeepsModel(m0);
    TypingAppends(m0, token);
    assert m0.vaultTokenInput + token == token;
    CommitTypedToken(Replay(m0, Keystrokes(token)), token);
  }

  /** With no ambient token the model is left as it was. */
  lemma MissingTokenKeepsModel(m: ServerModel)
    requires m.state == VaultTokenInput
    ensures Update(m, CheckVaultToken("")).model == m
  {
    assert CheckVaultToken("") == VaultTokenMissing;
  }

  /** Enter on a non-empty buffer commits it and exports it. */
  lemma CommitTypedToken(m: ServerModel, token: string)
    requires m.state == VaultTokenInput && m.vaultTokenInput == token && token != ""
    ensures var step := Update(m, Key("enter"));
            && step.model.state == ServerSelection && step.model.vaultToken == token
            && step.effect == SetEnv(VaultTokenVar, token)
  {
    assert Update(m, Key("enter")) == TokenInputKey(m, "enter");
  }

  /** Every model built from a configuration with servers starts on token
      entry with an empty buffer and no paste error. */
  lemma SetupStartsOnTokenEntry(c: Config, order: seq<string>)
    requires c.servers != map[] && IsEnumeration(order, c.servers.Keys)
    ensures var m := InitialSetup(Ok(c), order);
            m.state == VaultTokenInput && m.vaultTokenInput == "" && m.pasteError == "" && Ready(m)
  {
  }

  /** A script that fails (a non-zero exit status, say) reports a failure
      whose text starts with the error and still holds the output; the
      screen shows it as an error. */
  lemma ScenarioFailingScript(m: ServerModel, fault: string, output: string)
    requires m.state == ScriptOutput && m.errorMessage == ""
    ensures var result := Report(ProcessResult(output, Some(fault)));
            var m1 := Update(m, result).model;
            && result.ScriptFailed?
            && m1.hasError && m1.runOutput != ""
            && m1.runOutput[..|fault|] == fault
            && Render(m1) == OutputScreen(m.selected, ShownError(m1.runOutput))
  {
  }

  // ------------------------------------------- overlapping runs and stale flags

  /** "b" does not wait for the running script, so a second enter starts the
      same script again before the first has reported: two runs can be in
      flight at once. */
  lemma BackDoesNotCancel(m: ServerModel)
    requires Ready(m) && m.state == ServerSelection
    ensures var msgs := [Key("enter"), Key("b"), Key("enter")];
            var effects := Emitted(m, msgs);
            && effects[0].Run? && effects[1] == NoCmd && effects[2] == effects[0]
            && Replay(m, msgs).state == ScriptOutput
  {
    var s1 := Update(m, Key("enter"));
    var s2 := Update(s1.model, Key("b"));
    assert s2.model.cursor == m.cursor && s2.model.state == ServerSelection;
    ReplayCons(m, Key("enter"), [Key("b"), Key("enter")]);
    ReplayCons(s1.model, Key("b"), [Key("enter")]);
    ReplayCons(s2.model, Key("enter"), []);
    assert [Key("enter"), Key("b"), Key("enter")] == [Key("enter")] + [Key("b"), Key("enter")];
    assert [Key("b"), Key("enter")] == [Key("b")] + [Key("enter")];
  }

  /** Enter, "b", then the failure of that run arriving on the list
      screen: the error flag is set while the list is shown. */
  lemma FailureArrivesOnList(m: ServerModel, failure: string)
    requires Ready(m) && m.state == ServerSelection && m.errorMessage == ""
    ensures var s := Replay(m, [Key("enter"), Key("b"), ScriptFailed(failure)]);
            Ready(s) && s.state == ServerSelection && s.hasError && s.errorMessage == ""
  {
    var s1 := Update(m, Key("enter")).model;
    var s2 := Update(s1, Key("b")).model;
    var s3 := Update(s2, ScriptFailed(failure)).model;
    ReplayCons(m, Key("enter"), [Key("b"), ScriptFailed(failure)]);
    ReplayCons(s1, Key("b"), [ScriptFailed(failure)]);
    ReplayCons(s2, ScriptFailed(failure), []);
    assert [Key("enter"), Key("b"), ScriptFailed(failure)] == [Key("enter")] + [Key("b"), ScriptFailed(failure)];
    assert [Key("b"), ScriptFailed(failure)] == [Key("b")] + [ScriptFailed(failure)];
  }

  /** With the error flag set, enter and a successful run leave it set. */
  lemma SuccessKeepsFlag(s: ServerModel, output: string)
    requires Ready(s) && s.state == ServerSelection && s.hasError && s.errorMessage == ""
    ensures var f := Replay(s, [Key("enter"), ScriptSucceeded(output)]);
            f.hasError && f.state == ScriptOutput && f.runOutput == output && f.errorMessage == ""
  {
    var s1 := Update(s, Key("enter")).model;
    ReplayCons(s, Key("enter"), [ScriptSucceeded(output)]);
    ReplayCons(s1, ScriptSucceeded(output), []);
  }

  /** A failure that arrives after "b" sets the error flag on the list
      screen; the next run's success does not clear it, so its output is
      shown as an error. Entering the output screen clears nothing either. */
  lemma StaleErrorFlag(m: ServerModel, failure: string, output: string)
    requires Ready(m) && m.state == ServerSelection && m.errorMessage == ""
    requires output != ""
    ensures var msgs := [Key("enter"), Key("b"), ScriptFailed(failure), Key("enter"), ScriptSucceeded(output)];
            var final := Replay(m, msgs);
            && final.hasError
            && Render(final) == OutputScreen(final.selected, ShownError(output))
  {
    var first := [Key("enter"), Key("b"), ScriptFailed(failure)];
    var second := [Key("enter"), ScriptSucceeded(output)];
    FailureArrivesOnList(m, failure);
    SuccessKeepsFlag(Replay(m, first), output);
    ReplayAppend(m, first, second);
    assert first + second == [Key("enter"), Key("b"), ScriptFailed(failure), Key("enter"), ScriptSucceeded(output)];
  }
}
