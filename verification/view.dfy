/** What each screen shows, without styling: which screen is drawn, the
    masked token, the list with its cursor, and the body of the output
    screen. */
module View {
  import opened Session

  /** One asterisk per byte of the buffer. */
  function Mask(input: string): (r: string)
    ensures |r| == |input|
    ensures forall i :: 0 <= i < |r| ==> r[i] == '*'
  {
    if input == [] then [] else ['*'] + Mask(input[1..])
  }

  /** The mask tells two buffers apart exactly when their lengths differ:
      nothing of the token but its length is on the screen. */
  lemma {:induction false} MaskRevealsOnlyLength(a: string, b: string)
    ensures Mask(a) == Mask(b) <==> |a| == |b|
  {
    var ma, mb := Mask(a), Mask(b);
    if |a| == |b| {
      assert |ma| == |mb|;
      forall i | 0 <= i < |ma|
        ensures ma[i] == mb[i]
      {
      }
      assert ma == mb;
    } else {
      assert |ma| != |mb|;
    }
  }

  /** The body of the output screen. */
  datatype OutputBody = Running | ShownError(text: string) | Shown(text: string)

  datatype Screen =
    | ConfigErrorScreen(message: string)
    | TokenScreen(mask: string, pasteError: string)
    | SelectionScreen(names: seq<string>, cursor: int)
    | OutputScreen(server: string, body: OutputBody)

  /** The screen drawn for a model. A configuration error hides every
      screen; an empty output reads as "still running"; a non-empty output
      is shown as an error when the error flag is set. */
  function Render(m: ServerModel): (r: Screen)
    ensures m.errorMessage != "" <==> r.ConfigErrorScreen?
    ensures r.ConfigErrorScreen? ==> r.message == m.errorMessage
    ensures m.errorMessage == "" ==>
      && (m.state == VaultTokenInput <==> r.TokenScreen?)
      && (m.state == ServerSelection <==> r.SelectionScreen?)
      && (m.state == ScriptOutput <==> r.OutputScreen?)
    ensures r.TokenScreen? ==>
      && |r.mask| == |m.vaultTokenInput| && r.mask == Mask(m.vaultTokenInput)
      && r.pasteError == m.pasteError
    ensures r.SelectionScreen? ==> r.names == m.serverNames && r.cursor == m.cursor
    ensures r.OutputScreen? ==>
      && r.server == m.selected
      && (r.body.Running? <==> m.runOutput == "")
      && (r.body.ShownError? <==> m.runOutput != "" && m.hasError)
      && (!r.body.Running? ==> r.body.text == m.runOutput)
  {
    if m.errorMessage != "" then ConfigErrorScreen(m.errorMessage)
    else
      match m.state
      case VaultTokenInput => TokenScreen(Mask(m.vaultTokenInput), m.pasteError)
      case ServerSelection => SelectionScreen(m.serverNames, m.cursor)
      case ScriptOutput =>
        OutputScreen(m.selected,
          if m.runOutput == "" then Running
          else if m.hasError then ShownError(m.runOutput)
          else Shown(m.runOutput))
  }

  /** The drawn screen depends on the token buffer only through its
      length: two buffers of the same length draw the same screen. */
  lemma RenderShowsOnlyTokenLength(m: ServerModel, other: string)
    requires |other| == |m.vaultTokenInput|
    ensures Render(m.(vaultTokenInput := other)) == Render(m)
  {
    MaskRevealsOnlyLength(other, m.vaultTokenInput);
  }
}
