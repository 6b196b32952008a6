/** What the reducer consumes and what it asks the runtime to do. */
module Messages {
  import opened Wrappers
  import opened Configuration

  /** The name of a key press as the terminal library spells it ("enter",
      "up", "ctrl+c", "a", ...). Ctrl+V is not a `Key`: it is the `Paste`
      message below, which carries what the clipboard returned. */
  type KeyName = k: string | k != "ctrl+v"

  /** Every message the reducer handles.
      - `Key`: any key press but Ctrl+V;
      - `Paste`: Ctrl+V, with the clipboard read's outcome (text or error text);
      - `VaultTokenFound` / `VaultTokenMissing`: the startup token check;
      - `ScriptSucceeded` / `ScriptFailed`: a finished script run;
      - `ConfigFailed`: a fatal configuration error;
      - `Other`: any other runtime event (a window resize, a mouse event,
        ...), which the reducer ignores. */
  datatype Msg =
    | Key(name: KeyName)
    | Paste(clipboard: Result<string, string>)
    | VaultTokenFound(token: string)
    | VaultTokenMissing
    | ScriptSucceeded(text: string)
    | ScriptFailed(text: string)
    | ConfigFailed(text: string)
    | Other

  /** The command returned next to the new model.
      - `NoCmd`: nothing to do;
      - `Quit`: stop the program;
      - `SetEnv`: write a process environment variable;
      - `Run`: start the script of `server` with its entry and the token. */
  datatype Effect =
    | NoCmd
    | Quit
    | SetEnv(name: string, value: string)
    | Run(server: string, config: ServerConfig, token: string)

  /** The environment variable that carries the token. */
  const VaultTokenVar := "VAULT_TOKEN"
}
