/** Building the first model from the loaded configuration, and the token
    check the program sends as its first message. */
module Setup {
  import opened Wrappers
  import opened Enumerations
  import opened Configuration
  import opened Messages
  import opened Session

  const NoServersText := "No servers defined in configuration"

  /** The startup token check, given the value of VAULT_TOKEN ("" when unset). */
  function CheckVaultToken(env: string): (r: Msg)
    ensures r.VaultTokenFound? <==> env != ""
    ensures r.VaultTokenFound? ==> r.token == env
    ensures !r.VaultTokenFound? ==> r == VaultTokenMissing
  {
    if env != "" then VaultTokenFound(env) else VaultTokenMissing
  }

  /** The server names in some iteration order of the map: the choice of the
      next key is left open, as Go leaves the order of `range` open. */
  method ExtractServerNames(servers: map<string, ServerConfig>) returns (names: seq<string>)
    ensures IsEnumeration(names, servers.Keys)
    ensures |names| == |servers|
  {
    names := [];
    var rest := servers.Keys;
    while rest != {}
      invariant Distinct(names)
      invariant forall x :: x in names <==> x in servers.Keys && x !in rest
      invariant rest <= servers.Keys
      decreases rest
    {
      var name :| name in rest;
      names := names + [name];
      rest := rest - {name};
    }
    EnumerationLength(names, servers.Keys);
  }

  /** The first model. A load error or an empty server map gives a model
      holding only the error message; otherwise the model holds the
      configuration and the names in `order` (an iteration order of the
      map), starts on token entry with the cursor on the first name. */
  function InitialSetup(loaded: Result<Config, LoadError>, order: seq<string>): (m: ServerModel)
    requires loaded.Ok? ==> IsEnumeration(order, loaded.value.servers.Keys)
    ensures loaded.Err? ==> m == EmptyModel.(errorMessage := ErrorText(loaded.error))
    ensures loaded.Ok? && loaded.value.servers == map[] ==> m == EmptyModel.(errorMessage := NoServersText)
    ensures loaded.Ok? && loaded.value.servers != map[] ==>
      && m == EmptyModel.(config := loaded.value, serverNames := m.serverNames)
      && IsEnumeration(m.serverNames, loaded.value.servers.Keys)
      && |m.serverNames| == |loaded.value.servers|
      && m.state == VaultTokenInput && m.cursor == 0 && m.errorMessage == ""
    ensures m.errorMessage == "" <==> Ready(m)
    ensures CursorInRange(m)
  {
    match loaded
    case Err(e) => EmptyModel.(errorMessage := ErrorText(e))
    case Ok(config) =>
      EnumerationLength(order, config.servers.Keys);
      if |order| == 0 then
        EmptyModel.(errorMessage := NoServersText)
      else
        EmptyModel.(config := config, serverNames := order)
  }

  /** Startup: pick an iteration order of the servers and build the model. */
  method Startup(loaded: Result<Config, LoadError>) returns (m: ServerModel)
    ensures loaded.Err? ==> m == EmptyModel.(errorMessage := ErrorText(loaded.error))
    ensures loaded.Ok? && loaded.value.servers == map[] ==> m == EmptyModel.(errorMessage := NoServersText)
    ensures loaded.Ok? && loaded.value.servers != map[] ==>
      && m == EmptyModel.(config := loaded.value, serverNames := m.serverNames)
      && IsEnumeration(m.serverNames, loaded.value.servers.Keys)
    ensures CursorInRange(m)
    ensures m.errorMessage == "" <==> Ready(m)
    ensures m.errorMessage == "" <==> loaded.Ok? && loaded.value.servers != map[]
    ensures m.errorMessage == "" ==> forall name :: name in m.serverNames <==> name in m.config.servers
  {
    var order := [];
    if loaded.Ok? {
      order := ExtractServerNames(loaded.value.servers);
    }
    m := InitialSetup(loaded, order);
  }
}
