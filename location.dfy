/** One line of a provider's LOCATIONS file, as generateOVPNFiles
    (libs/vpnproviders.py) reads it: `geo,servers,proto,ports[,modifiers]`,
    where servers, ports and modifiers are whitespace-separated lists. */
module Locations {
  import opened Strings
  import opened Config
  import opened Providers
  import opened Modifiers

  /** Everything the template expansion needs to know about one location. */
  datatype Location = Location(
    geo: string,           // the profile name
    servers: seq<string>,  // the hosts, one remote line each
    proto: string,         // as written, e.g. "udp" or "tcp"
    ports: seq<string>,    // one per server when no single port applies
    port: string,          // the port for every server, or ""
    mods: Mods)            // the values of the replaceable tags

  /** The tag values a location starts from, before its modifiers. */
  function Defaults(provider: string, geo: string, proto: string, settings: Settings, host: Host): Mods {
    var udp := proto == "udp";
    Mods(
      caCert := "ca.crt",
      removeFlags := "",
      taKey := "ta.key",
      userKey := host.userDataPath(provider + "/" + GetKeyName(provider, geo, settings.userDefKeys)),
      userCert := host.userDataPath(provider + "/" + GetCertName(provider, geo, settings.userDefKeys)),
      crlPem := "crl.pem",
      dhParm := "dh.pem",
      user1 := "",
      user2 := "",
      pingSpeed := if udp then "5" else "10",
      pingExit := if udp then "30" else "60")
  }

  /** Whether a non-empty port override exists for the protocol. */
  predicate Overridden(proto: string, settings: Settings) {
    (proto == "udp" && PortUDP(settings) != "") || (proto == "tcp" && PortTCP(settings) != "")
  }

  /** The port written into every remote line of the location: a non-empty
      override for its protocol wins; otherwise the only port listed, if
      exactly one is; otherwise "" (each server then takes its own port). */
  function EffectivePort(proto: string, ports: seq<string>, settings: Settings): (r: string)
    ensures proto == "udp" && PortUDP(settings) != "" ==> r == PortUDP(settings)
    ensures proto == "tcp" && PortTCP(settings) != "" ==> r == PortTCP(settings)
    ensures !Overridden(proto, settings) ==> r == if |ports| == 1 then ports[0] else ""
  {
    var port :=
      if proto == "udp" && PortUDP(settings) != "" then PortUDP(settings)
      else if proto == "tcp" && PortTCP(settings) != "" then PortTCP(settings)
      else "";
    if port == "" && |ports| == 1 then ports[0] else port
  }

  /** The port list of a location line's fourth field. */
  function PortList(field: string): seq<string> {
    Split(Strip(field, LineJunk))
  }

  /** The modifier list of a location line's fifth field. */
  function ModifierTuples(field: string): seq<string> {
    Split(Strip(field, LineJunk))
  }

  /** The parse of one location line; None where the source raises (fewer
      than four fields, or a modifier that names a tag without a value). */
  function ParseLocation(provider: string, line: string, settings: Settings, host: Host): Option<Location> {
    var values := SplitOn(line, ',');
    if |values| < 4 then None
    else
      var geo := values[0];
      var proto := values[2];
      var ports := PortList(values[3]);
      var defaults := Defaults(provider, geo, proto, settings, host);
      var mods := if |values| > 4 then ApplyAll(defaults, ModifierTuples(values[4])) else Some(defaults);
      if mods.None? then None
      else Some(Location(geo, Split(values[1]), proto, ports, EffectivePort(proto, ports, settings), mods.value))
  }

  /** The parsing half of the location loop's body: split the line, set
      up the defaults, run the modifier loop and settle the port. */
  method ReadLocation(provider: string, line: string, settings: Settings, host: Host)
    returns (loc: Location, ok: bool)
    ensures ok <==> ParseLocation(provider, line, settings, host).Some?
    ensures ok ==> loc == ParseLocation(provider, line, settings, host).value
  {
    var values := SplitOn(line, ',');
    if |values| < 4 {
      loc, ok := Location("", [], "", [], "", Defaults(provider, "", "", settings, host)), false;
      return;
    }
    var geo := values[0];
    var servers := Split(values[1]);
    var proto := values[2];
    var ports := PortList(values[3]);
    var port := "";
    var mods := Defaults(provider, geo, proto, settings, host);
    if |values| > 4 {
      ghost var defaults := mods;
      mods, ok := ParseModifiers(mods, ModifierTuples(values[4]));
      assert ok <==> ApplyAll(defaults, ModifierTuples(values[4])).Some?;
      if !ok {
        loc := Location(geo, servers, proto, ports, port, mods);
        return;
      }
    }
    port := SettlePort(proto, ports, settings);
    loc, ok := Location(geo, servers, proto, ports, port, mods), true;
  }

  /** The port steps of the location loop: an override for the protocol,
      else the only port listed. */
  method SettlePort(proto: string, ports: seq<string>, settings: Settings) returns (port: string)
    ensures port == EffectivePort(proto, ports, settings)
  {
    port := "";
    if proto == "udp" && PortUDP(settings) != "" {
      port := PortUDP(settings);
    }
    if proto == "tcp" && PortTCP(settings) != "" {
      port := PortTCP(settings);
    }
    if port == "" && |ports| == 1 {
      port := ports[0];
    }
  }

  /** A location line fails exactly when it has fewer than four fields or
      one of its modifiers names a tag but has no '='. */
  lemma ParseLocationFails(provider: string, line: string, settings: Settings, host: Host)
    ensures ParseLocation(provider, line, settings, host).None? <==>
      var values := SplitOn(line, ',');
      |values| < 4 ||
      (|values| > 4 && exists k :: 0 <= k < |ModifierTuples(values[4])| && Malformed(ModifierTuples(values[4])[k]))
  {
    var values := SplitOn(line, ',');
    if |values| > 4 {
      var proto := values[2];
      ModifiersFail(Defaults(provider, values[0], proto, settings, host), ModifierTuples(values[4]));
    }
  }

  /** Fields free of the comma, as a location line's fields must be. */
  predicate CommaFree(fields: seq<string>) {
    forall i :: 0 <= i < |fields| ==> ',' !in fields[i]
  }

  /** Writing a location line from its four fields and parsing it back gives
      those fields, the default tag values and the effective port. */
  lemma LocationLineRoundTrip(provider: string, fields: seq<string>, settings: Settings, host: Host)
    requires |fields| == 4 && CommaFree(fields)
    ensures ParseLocation(provider, Join(fields, ','), settings, host) ==
      var portList := PortList(fields[3]);
      Some(Location(fields[0], Split(fields[1]), fields[2], portList, EffectivePort(fields[2], portList, settings),
                    Defaults(provider, fields[0], fields[2], settings, host)))
  {
    SplitOnJoin(fields, ',');
  }

  /** The same with a fifth field of modifiers: the tag values are the
      defaults with the modifiers applied in order, and the line fails
      exactly when they do. */
  lemma ModifiedLocationRoundTrip(provider: string, fields: seq<string>, settings: Settings, host: Host)
    requires |fields| == 5 && CommaFree(fields)
    ensures ParseLocation(provider, Join(fields, ','), settings, host) ==
      var applied := ApplyAll(Defaults(provider, fields[0], fields[2], settings, host), ModifierTuples(fields[4]));
      var portList := PortList(fields[3]);
      if applied.None? then None
      else Some(Location(fields[0], Split(fields[1]), fields[2], portList, EffectivePort(fields[2], portList, settings),
                         applied.value))
  {
    SplitOnJoin(fields, ',');
  }

  /** After parsing, each tag holds the value of the last modifier naming
      it, or its default when none does. */
  lemma LastModifierWinsInLocation(provider: string, line: string, settings: Settings, host: Host, t: Tag)
    requires ParseLocation(provider, line, settings, host).Some?
    ensures var values := SplitOn(line, ',');
      var d := Get(Defaults(provider, values[0], values[2], settings, host), t);
      Get(ParseLocation(provider, line, settings, host).value.mods, t) ==
        if |values| > 4 then LastValue(ModifierTuples(values[4]), t, d) else d
  {
    var values := SplitOn(line, ',');
    if |values| > 4 {
      LastModifierWins(Defaults(provider, values[0], values[2], settings, host), ModifierTuples(values[4]), t);
    }
  }
}
