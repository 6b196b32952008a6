# A verified model of the server-script terminal menu

The program is a small terminal menu written in Go on the Elm-style
bubbletea runtime. It reads a JSON configuration that maps server names to a
script. It asks for a Vault token unless `VAULT_TOKEN` is already set, lists
the servers, and runs the chosen server's script with the server name and the
token in its environment. It then shows the script's combined output.

This project models the core of `main.go` in Dafny:

- **Session**: the model `ServerModel` and the reducer `Update`. `Update` is a
  pure function from a model and one message to the next model and one
  `Effect`: nothing, quit, set an environment variable, or run a script. Each
  screen's key handling is its own function: token entry, server selection
  and script output. Ctrl+V is the message `Paste`, which carries what the
  clipboard returned.
- **Runner**: the pure part of `runServerScript`:
  - which script form wins;
  - the exact `bash -c` command with its `export` clauses;
  - the environment list of the legacy `script_path` form;
  - how the process outcome becomes the success or failure message.

  Starting the process is a function parameter `exec`. The inherited
  environment is the parameter `environ`.
- **Setup**: `initialSetup` (the model built from the loaded configuration or
  its error) and the startup token check.
- **View**: which screen `View` draws, the token mask, and how the output
  body is chosen. Styling is not modelled.
- **Traces**: runs of the reducer over message sequences. These give the
  invariants every run keeps, the index panic (see Findings), end-to-end
  scenarios, and the behaviours listed under "Behaviours worth knowing".
- **Enumerations**: Go iterates over a map in an order it leaves open. Each
  such loop is modelled as a sequence that lists the map's keys or entries
  once each (`IsEnumeration`). Every property that depends on the loop is
  proved for every such order.
- **Sequences**: general facts about mapping, concatenation and contiguous
  occurrence that the runner's proofs use.

Strings are `seq<char>` with one element per byte, as Go strings are. So
`len`, slicing, backspace and the "one-character key" test are byte-based.

## Model

| member | source | states |
|---|---|---|
| `Configuration.Lookup` | main.go:141 | A lookup of a name that is not in the map yields the all-empty entry (Go's zero value); otherwise it yields the configured entry |
| `Configuration.ErrorText` | main.go:270-278 | The loader's error names the failed step ("could not read" / "could not parse config file: ") and ends with the underlying error, so it is never empty |
| `Setup.CheckVaultToken` | main.go:77-83 | A non-empty `VAULT_TOKEN` yields the found-token message carrying exactly that value; an empty or unset one yields the missing-token message |
| `Setup.ExtractServerNames` | main.go:356-359 | The collected names list every server key exactly once, in some iteration order, so there are as many names as servers |
| `Setup.InitialSetup` | main.go:350-370 | A load error gives a model holding only that error's text. An empty server map gives only "No servers defined in configuration". Otherwise the model holds the configuration and an enumeration of its names, and starts on token entry with the cursor on the first name. The error text is empty exactly when the cursor designates a server |
| `Setup.Startup` | main.go:343-371 | A load error gives a model holding only that error's text, and an empty server map gives only "No servers defined in configuration". Otherwise the model holds the loaded configuration and lists the loaded configuration's server names once each, in some iteration order, and starts on token entry with the cursor on the first name. The model has no error exactly when the configuration loaded and has servers |
| `Session.DropLastByte` | main.go:114-117 | Backspace removes exactly the last byte (appending it back gives the old buffer) and leaves an empty buffer empty |
| `Session.PasteErrorText` | main.go:109 | The paste error text is longer than the clipboard error and ends with it |
| `Session.TokenInputKey` | main.go:90-124 | On token entry every key clears the paste error. The quit keys quit. Enter on a non-empty buffer commits it as the token, exports it as `VAULT_TOKEN` and opens the list; this is the only key that exports. Enter on an empty buffer does nothing. Backspace drops a byte, a one-byte key is appended, and other key names change nothing else |
| `Session.TokenInputPaste` | main.go:106-112 | A readable clipboard is appended to the buffer. An unreadable one leaves the buffer and sets a non-empty paste error built from the clipboard error. Neither emits a command |
| `Session.MoveUp` | main.go:130-133 | Up moves the cursor one entry towards the top and stops at the first entry. Nothing but the cursor changes, and the cursor stays on the list |
| `Session.MoveDown` | main.go:134-137 | Down moves the cursor one entry towards the bottom and stops at the last entry. Nothing but the cursor changes, and the cursor stays on the list |
| `Session.SelectAsWritten` | main.go:138-141 | Enter on the list panics exactly when the cursor designates no entry. Otherwise the entry under the cursor becomes `selected`, the output screen opens, and that entry's script runs with the committed token |
| `Session.Select` | main.go:138-141 | Enter on the list behaves as written wherever the program does not panic, and does nothing where it would. Any script it starts is one of the listed servers, run with its configured entry and the committed token |
| `Session.ServerSelectionKey` | main.go:126-142 | On the list the quit keys quit, up/k and down/j move the cursor, enter selects, and every other key changes nothing |
| `Session.ScriptOutputKey` | main.go:144-154 | On the output screen the quit keys quit. "b" returns to the list and clears the output and the error flag. Every other key changes nothing |
| `Session.KeyPress` | main.go:88-155 | A key never changes the configuration, the list or the configuration error, and the cursor stays on the list. It quits exactly on ctrl+c or q. It exports a token only from token entry on enter. It starts a script only from the list on enter, and that script is the selected listed server's |
| `Session.Update` | main.go:86-181 | The reducer never changes the configuration or the server list, and it keeps the cursor on the list. It quits exactly on a quit key or a configuration error. Events it has no case for fall through unchanged. Only token entry exports `VAULT_TOKEN`, and only the list starts a script, with the committed token. Only a configuration error changes the error message |
| `Session.UpdateAsWritten` | main.go:86-181 | The reducer as written panics exactly on enter on a list whose cursor designates no entry. Otherwise it agrees with `Update` |
| `Session.DownThenUp` | main.go:130-137 | Away from the last entry, down then up returns to the same model |
| `Session.UpThenDown` | main.go:130-137 | Away from the first entry, up then down returns to the same model |
| `Session.TypeThenErase` | main.go:114-123 | Typing a byte other than q and then pressing backspace restores the buffer |
| `Session.ResultMessagesApplyAnywhere` | main.go:157-180 | The token, script and configuration result messages apply on every screen and change only their own fields. A failure also sets the error flag, and a configuration error quits. Any other event changes nothing and emits nothing |
| `Session.PasteOnlyOnTokenScreen` | main.go:126-155 | Ctrl+V away from token entry changes nothing and emits nothing |
| `Runner.Source` | main.go:287-330 | A non-empty inline script wins. Otherwise a non-empty script path is used with its arguments. With neither there is nothing to run |
| `Runner.ShellCommand` | main.go:289-298 | The inline command starts with the `SERVER_REGION` and `VAULT_TOKEN` exports and ends with the script text. With no extra variables it is exactly those exports followed by the script |
| `Runner.ShellCommandSnoc` | main.go:293-298 | Each further `env_vars` entry in iteration order adds exactly its `export k=v; ` clause, placed after the earlier clauses and before the script. Together with the empty case this fixes the command completely: the two exports, one clause per entry in order, then the script, and nothing else |
| `Runner.ShellCommandExportsEveryVar` | main.go:293-295 | Whatever the iteration order, every `env_vars` entry appears in the command as its own `export k=v; ` clause |
| `Runner.ShellCommandAnyOrder` | main.go:293-298 | Two iteration orders give commands of the same length built from the same multiset of export clauses |
| `Runner.LegacyEnv` | main.go:312-318 | The legacy environment is the inherited environment unchanged, then `SERVER_REGION=server`, then `VAULT_TOKEN=token`, then one `k=v` per entry in iteration order |
| `Runner.LegacyEnvHoldsEveryVar` | main.go:316-318 | Whatever the iteration order, every `env_vars` entry is in the appended part of the legacy environment |
| `Runner.LegacyEnvAnyOrder` | main.go:312-318 | Two iteration orders give legacy environments with the same inherited and fixed prefix that are permutations of each other |
| `Runner.Plan` | main.go:287-320 | An inline script runs as `bash -c` with the built command and the inherited environment. The legacy form runs the path with its arguments and the built environment. With neither, no process is planned |
| `Runner.Report` | main.go:302-306 | Success carries the combined output verbatim. Failure carries the error text, a newline, then the output. Nothing else is ever reported |
| `Runner.RunServerScript` | main.go:284-332 | The run reports the outcome of exactly the process its script form calls for. Without a script it reports the fixed "No script or script_path defined for this server" failure |
| `Runner.NoScriptStartsNothing` | main.go:328-330 | Without a script form the outcome does not depend on the process oracle, so no process is started |
| `Runner.InlineWinsOverPath` | main.go:287-307 | With an inline script the legacy fields have no effect on the run |
| `Runner.FailureTextNeverEmpty` | main.go:303-305 | A failed run's text is longer than its output, so the failure is never shown as "still running" |
| `View.Mask` | main.go:196 | The mask has one asterisk per byte of the buffer and nothing else |
| `View.MaskRevealsOnlyLength` | main.go:195-197 | Two buffers have the same mask exactly when they have the same length |
| `View.Render` | main.go:184-254 | A configuration error replaces every screen and shows its message. Otherwise the screen drawn is the one for the current state. Token entry shows the mask of the buffer and the paste error. The list shows the server names and the cursor. The output screen names the selected server: empty output reads as running, and non-empty output is shown verbatim, as an error exactly when the error flag is set |
| `View.RenderShowsOnlyTokenLength` | main.go:195-197 | Changing the token buffer to another of the same length does not change the screen |
| `Traces.ReplayKeepsInvariants` | main.go:86-181 | Over any message sequence the cursor stays on the list (and on an entry once it designates one), and the configuration and the list never change |
| `Traces.AsWrittenAgreesWhenDefined` | main.go:138-141 | Wherever a run of the program as written does not panic, it ends in the same model as the total reducer |
| `Traces.ReadyNeverPanics` | main.go:138-141 | From a model whose cursor designates a server, no message sequence makes the program as written panic |
| `Traces.ConfigErrorThenEnterPanics` | main.go:139 | The model for an unreadable configuration shows the error screen. Yet after the token check finds a token, enter panics; the total reducer leaves the model on the empty list |
| `Traces.ConfigErrorTypedTokenPanics` | main.go:97-141 | The model for an unparsable configuration, with no ambient token: typing "x", enter (which exports the token) and enter again panics |
| `Traces.TypingAppends` | main.go:91-123 | Typing any q-free text on token entry appends it to the buffer byte by byte, and the first byte clears any paste error |
| `Traces.TypingEmitsNothing` | main.go:119-123 | Typing any q-free text on token entry emits no command |
| `Traces.TypeOneKey` | main.go:119-123 | One byte other than q typed on token entry is appended and clears the paste error |
| `Traces.EastRun` | main.go:287-306 | For the one-server "east" configuration that runs `echo hi` with token "abc", the shell receives the two exports followed by the script, and the output comes back as the success text |
| `Traces.ScenarioAmbientToken` | main.go:157-160 | With `VAULT_TOKEN=abc` the check skips token entry. Enter on "east" runs its script with "abc". The runner's report of that run puts the output on the output screen as plain text |
| `Traces.ScenarioTypedToken` | main.go:97-104 | Without an ambient token, typing a q-free token then enter exports exactly that token and opens the list |
| `Traces.MissingTokenKeepsModel` | main.go:162-164 | The missing-token message leaves a model on token entry unchanged |
| `Traces.CommitTypedToken` | main.go:97-103 | Enter on a non-empty buffer commits and exports exactly that buffer and opens the list |
| `Traces.SetupStartsOnTokenEntry` | main.go:365-370 | Every model built from a configuration with servers starts on token entry with an empty buffer, no paste error, and the cursor on an entry |
| `Traces.ScenarioFailingScript` | main.go:170-173 | A failed run's message sets the error flag, and its text starts with the error. The output screen shows that text as an error |
| `Traces.BackDoesNotCancel` | main.go:148-153 | Enter, "b", enter starts the same script twice with no report in between, so two runs can be in flight at once |
| `Traces.FailureArrivesOnList` | main.go:170-173 | A failure that arrives after "b" sets the error flag while the list is shown |
| `Traces.SuccessKeepsFlag` | main.go:166-168 | With the error flag set, enter and a successful run leave the flag set |
| `Traces.StaleErrorFlag` | main.go:166-173 | After a late failure, the next run's successful output is shown as an error |

## Left out

- Reading the configuration file and decoding its JSON (`LoadConfig`) are I/O. Only the two error texts are kept (`Configuration.ErrorText`). The model starts from the decoded `Config` or the error.
- `getDefaultConfigPath` and the `SERVER_CLI_CONFIG` lookup choose a file path. That is I/O with no effect on the model.
- The bubbletea runtime is left out: the event loop, `main`, the alternate screen and `Init` wiring. `Init` is modelled only by the message it produces (`Setup.CheckVaultToken`). Commands are returned as `Effect` values and not executed.
- `os.Setenv` is the effect `SetEnv`. Its effect on later processes is not modelled: an inline script receives the token in its command anyway.
- Reading the clipboard is I/O. Its outcome arrives as the argument of the `Paste` message.
- Starting a process, waiting for it, and collecting its combined output are I/O. They are the oracle `exec` in `Runner.RunServerScript`. Go's handling of duplicate names in `cmd.Env` belongs to the process runtime and is not modelled.
- Scripts run in the background while the menu keeps handling keys. Only the possible orders of messages are modelled (`Traces.BackDoesNotCancel`), not the concurrency itself.
- Styling (lipgloss), the exact screen text, and the descriptions shown next to server names are presentation. `View.Render` keeps only which screen is drawn and what data it shows.
- Text is bytes. Multi-byte keys and Unicode are not distinguished from other key names.
- `Runner.RunServerScript` requires `pairs` to be an iteration order of the entry's `env_vars`. That is how the open map order is modelled, not a restriction of the program.

## Findings

| source | as written | input that shows it | evidently intended | confidence | as-written member | corrected member |
|---|---|---|---|---|---|---|
| main.go:139 | Enter on the selection screen indexes `serverNames[cursor]` without checking that the list is non-empty. The model built for a configuration error (main.go:352) has an empty list. `Init` still sends the token check, and key handling is not gated by the error, so the selection screen is reachable | An unreadable configuration with `VAULT_TOKEN` set, then enter: an index-out-of-range panic. Without the variable, typing "x", enter, enter does the same | Enter does nothing when there is no entry to select | high; not executed | `Session.SelectAsWritten` | `Session.Select` |

`Traces.ConfigErrorThenEnterPanics` and `Traces.ConfigErrorTypedTokenPanics` exhibit the panic through `Session.UpdateAsWritten`. `Session.Update` uses the corrected `Session.Select`. `Traces.AsWrittenAgreesWhenDefined` and `Traces.ReadyNeverPanics` show that the two agree everywhere else, in particular on every model built from a configuration with servers.

## Behaviours worth knowing

These follow from `main.go` as written, and each is stated as a lemma:

- Entering the output screen does not clear the previous output or the error flag (main.go:138-141). A successful result does not clear the flag either (main.go:166-168). So after a late failure, the next run's successful output is shown as an error (`Traces.StaleErrorFlag`).
- A configuration error does not disable key handling (main.go:86-155). The error screen hides a live menu underneath (`Traces.ConfigErrorThenEnterPanics`).
- "b" does not cancel or wait for the running script (main.go:148-153), so two runs can overlap (`Traces.BackDoesNotCancel`). A late result lands on whichever screen is current (`Traces.FailureArrivesOnList`).
