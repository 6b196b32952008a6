/** The terminal menu's model and its reducer. `Update` is a pure function
    from the current model and one message to the next model and the effect
    the runtime must carry out. Three screens exist: token entry, server
    selection and script output. Strings hold one element per byte, as Go
    strings do, so lengths, slicing and the "one-character key" test are
    byte-based. */
module Session {
  import opened Wrappers
  import opened Configuration
  import opened Messages

  datatype AppState = VaultTokenInput | ServerSelection | ScriptOutput

  /** The whole state of the menu. `serverNames` lists the configured
      servers in map iteration order; `cursor` indexes it; `selected` is the
      server whose script ran last; `vaultTokenInput` is the buffer being
      typed and `vaultToken` the committed token. */
  datatype ServerModel = ServerModel(
    config: Config,
    serverNames: seq<string>,
    cursor: int,
    selected: string,
    state: AppState,
    runOutput: string,
    hasError: bool,
    errorMessage: string,
    vaultToken: string,
    vaultTokenInput: string,
    pasteError: string)

  /** The reducer's result: the next model and the command to run. */
  datatype Step = Step(model: ServerModel, effect: Effect)

  /** The model with every field at its zero value. */
  const EmptyModel := ServerModel(Config(map[]), [], 0, "", VaultTokenInput, "", false, "", "", "", "")

  predicate IsQuitKey(k: string) {
    k == "ctrl+c" || k == "q"
  }

  /** The cursor is a position of the server list, or 0 when the list is empty. */
  predicate CursorInRange(m: ServerModel) {
    0 <= m.cursor && (m.cursor < |m.serverNames| || (m.serverNames == [] && m.cursor == 0))
  }

  /** The cursor designates a server: what indexing the list needs. */
  predicate Ready(m: ServerModel) {
    0 <= m.cursor < |m.serverNames|
  }

  /** The buffer without its last byte, or unchanged when empty. */
  function DropLastByte(s: string): (r: string)
    ensures |s| > 0 ==> r + [s[|s| - 1]] == s
    ensures |s| == 0 ==> r == s
  {
    if |s| > 0 then s[..|s| - 1] else s
  }

  /** The text shown when the clipboard could not be read. */
  function PasteErrorText(err: string): (r: string)
    ensures |r| > |err|
    ensures r[|r| - |err|..] == err
  {
    "Failed to paste: " + err
  }

  // ---------------------------------------------------------------- token entry

  /** A key press on the token entry screen. Any key first clears the paste
      error; the quit keys quit; enter commits a non-empty buffer, publishes
      it as VAULT_TOKEN and moves on; backspace drops the last byte; any
      other one-byte key is appended; longer key names are ignored. */
  function TokenInputKey(m: ServerModel, k: KeyName): (r: Step)
    ensures r.model.pasteError == ""
    ensures r.model == m.(pasteError := "", vaultTokenInput := r.model.vaultTokenInput,
                          vaultToken := r.model.vaultToken, state := r.model.state)
    ensures IsQuitKey(k) ==> r == Step(m.(pasteError := ""), Quit)
    ensures r.effect.SetEnv? <==> k == "enter" && m.vaultTokenInput != ""
    ensures k == "enter" && m.vaultTokenInput != "" ==>
      && r.effect == SetEnv(VaultTokenVar, m.vaultTokenInput)
      && r.model.vaultToken == m.vaultTokenInput
      && r.model.state == ServerSelection
      && r.model.vaultTokenInput == m.vaultTokenInput
    ensures !(k == "enter" && m.vaultTokenInput != "") ==>
      r.model.state == m.state && r.model.vaultToken == m.vaultToken
    ensures k == "enter" && m.vaultTokenInput == "" ==> r == Step(m.(pasteError := ""), NoCmd)
    ensures k == "backspace" ==>
      r == Step(m.(pasteError := "", vaultTokenInput := DropLastByte(m.vaultTokenInput)), NoCmd)
    ensures |k| == 1 && !IsQuitKey(k) ==>
      r == Step(m.(pasteError := "", vaultTokenInput := m.vaultTokenInput + k), NoCmd)
    ensures !IsQuitKey(k) && k != "enter" && k != "backspace" && |k| != 1 ==>
      r == Step(m.(pasteError := ""), NoCmd)
  {
    var m := m.(pasteError := "");
    if IsQuitKey(k) then Step(m, Quit)
    else if k == "enter" then
      if m.vaultTokenInput != "" then
        Step(m.(vaultToken := m.vaultTokenInput, state := ServerSelection), SetEnv(VaultTokenVar, m.vaultTokenInput))
      else
        Step(m, NoCmd)
    else if k == "backspace" then
      Step(m.(vaultTokenInput := DropLastByte(m.vaultTokenInput)), NoCmd)
    else if |k| == 1 then
      Step(m.(vaultTokenInput := m.vaultTokenInput + k), NoCmd)
    else
      Step(m, NoCmd)
  }

  /** Ctrl+V on the token entry screen: the clipboard text is appended; if
      the clipboard could not be read the buffer stays and the error shows. */
  function TokenInputPaste(m: ServerModel, clipboard: Result<string, string>): (r: Step)
    ensures r.effect == NoCmd
    ensures clipboard.Ok? ==>
      r.model == m.(pasteError := "", vaultTokenInput := m.vaultTokenInput + clipboard.value)
    ensures clipboard.Err? ==>
      && r.model == m.(pasteError := r.model.pasteError)
      && r.model.pasteError != ""
      && r.model.pasteError == PasteErrorText(clipboard.error)
  {
    var m := m.(pasteError := "");
    match clipboard
    case Ok(text) => Step(m.(vaultTokenInput := m.vaultTokenInput + text), NoCmd)
    case Err(e) => Step(m.(pasteError := PasteErrorText(e)), NoCmd)
  }

  // ----------------------------------------------------------- server selection

  /** Up: one position towards the top, stopping at the first entry. */
  function MoveUp(m: ServerModel): (r: ServerModel)
    ensures r == m.(cursor := r.cursor)
    ensures m.cursor > 0 ==> r.cursor == m.cursor - 1
    ensures m.cursor <= 0 ==> r == m
    ensures CursorInRange(m) ==> CursorInRange(r)
    ensures Ready(m) ==> Ready(r)
  {
    if m.cursor > 0 then m.(cursor := m.cursor - 1) else m
  }

  /** Down: one position towards the bottom, stopping at the last entry. */
  function MoveDown(m: ServerModel): (r: ServerModel)
    ensures r == m.(cursor := r.cursor)
    ensures m.cursor < |m.serverNames| - 1 ==> r.cursor == m.cursor + 1
    ensures m.cursor >= |m.serverNames| - 1 ==> r == m
    ensures CursorInRange(m) ==> CursorInRange(r)
    ensures Ready(m) ==> Ready(r)
  {
    if m.cursor < |m.serverNames| - 1 then m.(cursor := m.cursor + 1) else m
  }

  /** Enter on the selection screen as the program writes it: the entry
      under the cursor becomes `selected`, the output screen opens, and the
      script of that entry is started with the committed token. `None`
      stands for the index-out-of-range panic when the cursor designates no
      entry, which happens whenever the list is empty. */
  function SelectAsWritten(m: ServerModel): (r: Option<Step>)
    ensures r.None? <==> !Ready(m)
    ensures r.Some? ==>
      var name := m.serverNames[m.cursor];
      && r.value.model == m.(selected := name, state := ScriptOutput)
      && r.value.effect == Run(name, Lookup(m.config, name), m.vaultToken)
  {
    if Ready(m) then
      var name := m.serverNames[m.cursor];
      Some(Step(m.(selected := name, state := ScriptOutput), Run(name, Lookup(m.config, name), m.vaultToken)))
    else
      None
  }

  /** Enter on the selection screen, made total: identical to the program
      whenever it does not panic, and doing nothing when there is no entry
      to select. */
  function Select(m: ServerModel): (r: Step)
    ensures Ready(m) ==> SelectAsWritten(m) == Some(r)
    ensures !Ready(m) ==> r == Step(m, NoCmd)
    ensures r.effect.Run? ==>
      && r.effect.server in m.serverNames
      && r.effect.server == r.model.selected
      && r.effect.config == Lookup(m.config, r.effect.server)
      && r.effect.token == m.vaultToken
      && r.model.state == ScriptOutput
      && r.model.cursor == m.cursor && r.model.serverNames == m.serverNames
  {
    match SelectAsWritten(m)
    case Some(step) => step
    case None => Step(m, NoCmd)
  }

  /** A key press on the selection screen. */
  function ServerSelectionKey(m: ServerModel, k: KeyName): (r: Step)
    ensures IsQuitKey(k) ==> r == Step(m, Quit)
    ensures k == "up" || k == "k" ==> r == Step(MoveUp(m), NoCmd)
    ensures k == "down" || k == "j" ==> r == Step(MoveDown(m), NoCmd)
    ensures k == "enter" ==> r == Select(m)
    ensures !IsQuitKey(k) && k !in ["up", "k", "down", "j", "enter"] ==> r == Step(m, NoCmd)
  {
    if IsQuitKey(k) then Step(m, Quit)
    else if k == "up" || k == "k" then Step(MoveUp(m), NoCmd)
    else if k == "down" || k == "j" then Step(MoveDown(m), NoCmd)
    else if k == "enter" then Select(m)
    else Step(m, NoCmd)
  }

  // -------------------------------------------------------------- script output

  /** A key press on the output screen: quit, or "b" back to the list with
      the output and the error flag cleared. */
  function ScriptOutputKey(m: ServerModel, k: KeyName): (r: Step)
    ensures IsQuitKey(k) ==> r == Step(m, Quit)
    ensures k == "b" ==>
      && r.effect == NoCmd
      && r.model == m.(state := ServerSelection, runOutput := "", hasError := false)
    ensures !IsQuitKey(k) && k != "b" ==> r == Step(m, NoCmd)
  {
    if IsQuitKey(k) then Step(m, Quit)
    else if k == "b" then Step(m.(state := ServerSelection, runOutput := "", hasError := false), NoCmd)
    else Step(m, NoCmd)
  }

  // -------------------------------------------------------------------- reducer

  /** A key press, handled by the current screen. */
  function KeyPress(m: ServerModel, k: KeyName): (r: Step)
    ensures r.model.config == m.config && r.model.serverNames == m.serverNames
    ensures CursorInRange(m) ==> CursorInRange(r.model)
    ensures Ready(m) ==> Ready(r.model)
    ensures r.effect == Quit <==> IsQuitKey(k)
    ensures r.effect.SetEnv? ==>
      && m.state == VaultTokenInput && k == "enter" && m.vaultTokenInput != ""
      && r.effect == SetEnv(VaultTokenVar, m.vaultTokenInput)
      && r.model.vaultToken == m.vaultTokenInput
    ensures r.effect.Run? ==>
      && m.state == ServerSelection && k == "enter"
      && r.model.state == ScriptOutput
      && r.effect.server == r.model.selected && r.effect.server in m.serverNames
      && r.effect.config == Lookup(m.config, r.effect.server)
      && r.effect.token == m.vaultToken
    ensures r.model.vaultToken != m.vaultToken ==> r.effect.SetEnv?
    ensures r.model.errorMessage == m.errorMessage
    ensures r.model.selected != m.selected ==> r.effect.Run?
  {
    match m.state
    case VaultTokenInput => TokenInputKey(m, k)
    case ServerSelection => ServerSelectionKey(m, k)
    case ScriptOutput => ScriptOutputKey(m, k)
  }

  /** The reducer. Key presses go to the current screen; the result messages
      apply in every state. The configuration and the server list are never
      changed; only token entry writes the environment; only the selection
      screen starts a script; the error message only changes on a
      configuration error. */
  function Update(m: ServerModel, msg: Msg): (r: Step)
    ensures r.model.config == m.config && r.model.serverNames == m.serverNames
    ensures CursorInRange(m) ==> CursorInRange(r.model)
    ensures Ready(m) ==> Ready(r.model)
    ensures r.effect == Quit <==> (msg.Key? && IsQuitKey(msg.name)) || msg.ConfigFailed?
    ensures r.effect.SetEnv? ==>
      && m.state == VaultTokenInput && msg == Key("enter") && m.vaultTokenInput != ""
      && r.effect == SetEnv(VaultTokenVar, m.vaultTokenInput)
      && r.model.vaultToken == m.vaultTokenInput
    ensures r.effect.Run? ==>
      && m.state == ServerSelection && msg == Key("enter")
      && r.model.state == ScriptOutput
      && r.effect.server == r.model.selected && r.effect.server in m.serverNames
      && r.effect.config == Lookup(m.config, r.effect.server)
      && r.effect.token == m.vaultToken
    ensures r.model.vaultToken != m.vaultToken ==> msg.VaultTokenFound? || r.effect.SetEnv?
    ensures r.model.errorMessage != m.errorMessage ==> msg.ConfigFailed?
    ensures r.model.selected != m.selected ==> r.effect.Run?
    ensures msg.Other? ==> r == Step(m, NoCmd)
  {
    match msg
    case Key(k) => KeyPress(m, k)
    case Paste(clipboard) =>
      if m.state == VaultTokenInput then TokenInputPaste(m, clipboard) else Step(m, NoCmd)
    case VaultTokenFound(token) => Step(m.(vaultToken := token, state := ServerSelection), NoCmd)
    case VaultTokenMissing => Step(m.(state := VaultTokenInput), NoCmd)
    case ScriptSucceeded(text) => Step(m.(runOutput := text), NoCmd)
    case ScriptFailed(text) => Step(m.(runOutput := text, hasError := true), NoCmd)
    case ConfigFailed(text) => Step(m.(errorMessage := text), Quit)
    case Other => Step(m, NoCmd)
  }

  /** The reducer exactly as the program writes it: `None` is the panic of
      enter on a selection screen whose cursor designates no entry. */
  function UpdateAsWritten(m: ServerModel, msg: Msg): (r: Option<Step>)
    ensures r.None? <==> m.state == ServerSelection && msg == Key("enter") && !Ready(m)
    ensures r.Some? ==> r.value == Update(m, msg)
  {
    if m.state == ServerSelection && msg == Key("enter") then SelectAsWritten(m)
    else Some(Update(m, msg))
  }

  // ------------------------------------------------------------ single-step laws

  /** Down then up returns to the starting model, away from the last entry. */
  lemma DownThenUp(m: ServerModel)
    requires Ready(m) && m.cursor < |m.serverNames| - 1
    ensures MoveUp(MoveDown(m)) == m
  {
  }

  /** Up then down returns to the starting model, away from the first entry. */
  lemma UpThenDown(m: ServerModel)
    requires Ready(m) && m.cursor > 0
    ensures MoveDown(MoveUp(m)) == m
  {
  }

  /** Typing a byte and erasing it leaves the buffer as it was. */
  lemma TypeThenErase(m: ServerModel, c: char)
    requires m.state == VaultTokenInput && c != 'q'
    ensures var typed := Update(m, Key([c])).model;
            Update(typed, Key("backspace")).model == m.(pasteError := "")
  {
    var typed := Update(m, Key([c])).model;
    assert typed.vaultTokenInput == m.vaultTokenInput + [c];
    assert DropLastByte(m.vaultTokenInput + [c]) == m.vaultTokenInput;
  }

  /** The result messages apply in every state and touch only their fields;
      any other event changes nothing. */
  lemma ResultMessagesApplyAnywhere(m: ServerModel, text: string)
    ensures Update(m, ScriptFailed(text)) == Step(m.(runOutput := text, hasError := true), NoCmd)
    ensures Update(m, ScriptSucceeded(text)) == Step(m.(runOutput := text), NoCmd)
    ensures Update(m, VaultTokenFound(text)) == Step(m.(vaultToken := text, state := ServerSelection), NoCmd)
    ensures Update(m, VaultTokenMissing) == Step(m.(state := VaultTokenInput), NoCmd)
    ensures Update(m, ConfigFailed(text)) == Step(m.(errorMessage := text), Quit)
    ensures Update(m, Other) == Step(m, NoCmd)
  {
  }

  /** Ctrl+V does nothing away from the token entry screen. */
  lemma PasteOnlyOnTokenScreen(m: ServerModel, clipboard: Result<string, string>)
    requires m.state != VaultTokenInput
    ensures Update(m, Paste(clipboard)) == Step(m, NoCmd)
  {
  }
}
