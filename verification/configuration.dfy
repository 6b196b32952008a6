/** The parsed configuration the menu starts from: a map from server name to
    the definition of the script to run for it. Reading and decoding the
    configuration file are outside the model; only the two error messages
    the loader can produce are kept, because they become the text of the
    fatal error screen. */
module Configuration {

  /** One server's entry. `script` is an inline shell script; `scriptPath`
      and `scriptArgs` are the older form naming an executable. An absent
      JSON field decodes to the empty value, so "absent" and "empty" are the
      same here, as in the program. */
  datatype ServerConfig = ServerConfig(
    script: string,
    scriptPath: string,
    scriptArgs: seq<string>,
    envVars: map<string, string>,
    description: string)

  datatype Config = Config(servers: map<string, ServerConfig>)

  /** The zero value a Go map lookup yields for a missing key. */
  const EmptyServerConfig := ServerConfig("", "", [], map[], "")

  /** `config.Servers[name]`: the entry, or the zero value when absent. */
  function Lookup(c: Config, name: string): (r: ServerConfig)
    ensures name in c.servers ==> r == c.servers[name]
    ensures name !in c.servers ==> r == EmptyServerConfig
  {
    if name in c.servers then c.servers[name] else EmptyServerConfig
  }

  /** Why loading the configuration failed; `detail` is the text of the
      underlying I/O or decoding error. */
  datatype LoadError = ReadFailed(detail: string) | ParseFailed(detail: string)

  /** The text of the error the loader returns: which step failed, then the
      underlying error. */
  function ErrorText(e: LoadError): (r: string)
    ensures |r| > |e.detail|
    ensures r[|r| - |e.detail|..] == e.detail
    ensures e.ReadFailed? ==> r == "could not read config file: " + e.detail
    ensures e.ParseFailed? ==> r == "could not parse config file: " + e.detail
  {
    match e
    case ReadFailed(d) => "could not read config file: " + d
    case ParseFailed(d) => "could not parse config file: " + d
  }
}
