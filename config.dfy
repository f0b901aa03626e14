/** The settings and host facts that the profile builders read once per run.
    They replace the add-on's settings store and the platform helpers: the
    builders receive them as values instead of asking for them. */
module Config {

  /** The add-on settings consulted by this core, each as the string the
      settings store would return. */
  datatype Settings = Settings(
    defaultUdp: string,           // "default_udp"
    alternativeUdpPort: string,   // "alternative_udp_port"
    defaultTcp: string,           // "default_tcp"
    alternativeTcpPort: string,   // "alternative_tcp_port"
    openvpnVerb: string,          // "openvpn_verb"
    blockOutsideDns: string,      // "block_outside_dns"
    forcePing: string,            // "force_ping"
    upDownScript: string,         // "up_down_script"
    userDefKeys: string,          // "user_def_keys"
    userDefCredentials: string)   // "user_def_credentials"

  /** What the platform supplies. The path helpers are opaque: the model only
      ever passes them a provider-relative path and uses what comes back. */
  datatype Host = Host(
    windows: bool,                   // getPlatform() == WINDOWS
    addonFile: string -> string,     // getAddonPath(True, _): where profiles are written
    addonPath: string -> string,     // getAddonPathWrapper(_): paths written into profiles
    userDataPath: string -> string,  // getUserDataPathWrapper(_): user keys and certs
    userDataFile: string -> string,  // getUserDataPath(_): files the user supplies
    upParam: string,                 // getUpParam(provider)
    downParam: string,               // getDownParam(provider)
    separator: string)               // getSeparator()

  /** The UDP port override; empty when the default port is kept. */
  function PortUDP(s: Settings): string {
    if s.defaultUdp == "true" then "" else s.alternativeUdpPort
  }

  /** The TCP port override; empty when the default port is kept. */
  function PortTCP(s: Settings): string {
    if s.defaultTcp == "true" then "" else s.alternativeTcpPort
  }

  /** The log verbosity written into every `verb` line: the setting, or "1"
      when the setting is empty. */
  function VerbValue(s: Settings): (r: string)
    ensures r != ""
    ensures s.openvpnVerb != "" ==> r == s.openvpnVerb
  {
    if s.openvpnVerb == "" then "1" else s.openvpnVerb
  }
}
