/** updateVPNFiles (libs/vpnproviders.py): for providers whose profiles are
    shipped ready-made, every `.ovpn` file is rewritten line by line (paths
    to the password file and the user's key and certificate, the port
    override, the log verbosity), some lines are appended when the settings
    ask for them and the profile lacks them, and the TRANSLATE file gets one
    line per profile. A profile is its path and its lines as read (each with
    its line terminator); a written file is the sequence of its lines, each
    of which the source writes followed by "\n". */
module Normalize {
  import opened Strings
  import opened Config
  import opened Providers
  import opened Modifiers

  datatype Connection = Connection(path: string, lines: seq<string>)

  /** The profile's friendly name: its path between the last separator and
      the last ".ovpn", with Python's slicing. */
  function ProfileName(path: string, host: Host): string {
    Slice(path, RFind(path, host.separator) + 1, RFind(path, ".ovpn"))
  }

  /** A raw line that settles the protocol: it starts with "proto " and
      mentions tcp or udp. */
  predicate NamesProto(raw: string) {
    StartsWith(raw, "proto ") && (Contains(raw, "tcp") || Contains(raw, "udp"))
  }

  /** The protocol named by the first raw line that settles it; tcp is
      checked before udp on that line. */
  function FirstProto(lines: seq<string>): Option<string>
    decreases |lines|
  {
    if lines == [] then None
    else if StartsWith(lines[0], "proto ") && Contains(lines[0], "tcp") then Some("tcp")
    else if StartsWith(lines[0], "proto ") && Contains(lines[0], "udp") then Some("udp")
    else FirstProto(lines[1..])
  }

  /** The rescan of the raw lines for the protocol. */
  method FindProto(lines: seq<string>) returns (proto: Option<string>)
    ensures proto == FirstProto(lines)
  {
    var i := 0;
    while i < |lines|
      invariant 0 <= i <= |lines|
      invariant FirstProto(lines[i..]) == FirstProto(lines)
    {
      assert lines[i..][1..] == lines[i + 1..];
      if StartsWith(lines[i], "proto ") {
        if Contains(lines[i], "tcp") {
          return Some("tcp");
        }
        if Contains(lines[i], "udp") {
          return Some("udp");
        }
      }
      i := i + 1;
    }
    return None;
  }

  /** The protocol comes from the first line that names one: there is such
      a line exactly when a protocol is found, and the one found is tcp
      exactly when that line mentions tcp. */
  lemma {:induction false} FirstProtoLine(lines: seq<string>)
    ensures FirstProto(lines).Some? <==> Any(lines, NamesProto)
    ensures FirstProto(lines).Some? ==>
      exists k :: (0 <= k < |lines| && NamesProto(lines[k]) &&
                   (forall j :: 0 <= j < k ==> !NamesProto(lines[j])) &&
                   FirstProto(lines).value == if Contains(lines[k], "tcp") then "tcp" else "udp")
    decreases |lines|
  {
    if lines != [] {
      FirstProtoLine(lines[1..]);
      AnyCons(lines, NamesProto);
      if !NamesProto(lines[0]) && FirstProto(lines).Some? {
        var k :| 0 <= k < |lines[1..]| && NamesProto(lines[1..][k]) &&
          (forall j :: 0 <= j < k ==> !NamesProto(lines[1..][j])) &&
          FirstProto(lines[1..]).value == if Contains(lines[1..][k], "tcp") then "tcp" else "udp";
        forall j | 0 <= j < k + 1
          ensures !NamesProto(lines[j])
        {
          if j > 0 {
            assert lines[j] == lines[1..][j - 1];
          }
        }
        assert lines[k + 1] == lines[1..][k];
      }
    }
  }

  lemma AnyCons(lines: seq<string>, p: string -> bool)
    requires lines != []
    ensures Any(lines, p) <==> p(lines[0]) || Any(lines[1..], p)
  {
    if Any(lines, p) && !p(lines[0]) {
      var k :| 0 <= k < |lines| && p(lines[k]);
      assert lines[1..][k - 1] == lines[k];
    }
    if Any(lines[1..], p) {
      var k :| 0 <= k < |lines[1..]| && p(lines[1..][k]);
      assert lines[k + 1] == lines[1..][k];
    }
  }

  /** The port the remote lines get: the override for the protocol found,
      or "" when there is none (or no protocol is found). */
  function OverridePort(proto: Option<string>, settings: Settings): string {
    if proto == Some("tcp") then PortTCP(settings)
    else if proto == Some("udp") then PortUDP(settings)
    else ""
  }

  /** Whether the password-file line is rewritten: always, except for the
      user-defined provider when its credentials setting is off. */
  predicate RewritesAuth(provider: string, settings: Settings) {
    !IsUserDefined(provider) || settings.userDefCredentials == "true"
  }

  /** What the rewrite of one profile's lines depends on. Each part is a
      function of the provider, the settings and the profile, which the
      source recomputes line by line. */
  datatype Context = Context(
    passPath: Option<string>,   // the pass.txt path, when password lines are rewritten
    port: string,               // the port override, or ""
    certPath: Option<string>,   // the user certificate's path, when the provider uses user keys
    keyPath: Option<string>,    // the user key's path, likewise
    addonDir: Option<string>,   // what #PATH stands for, for the user-defined provider
    verb: string)               // the log verbosity

  function ContextOf(conn: Connection, provider: string, settings: Settings, host: Host): Context {
    var name := ProfileName(conn.path, host);
    var keys := settings.userDefKeys;
    var userKeys := UsesUserKeys(provider, keys);
    Context(
      if RewritesAuth(provider, settings) then Some(host.addonPath(provider + "/pass.txt")) else None,
      OverridePort(FirstProto(conn.lines), settings),
      if userKeys then Some(host.userDataPath(provider + "/" + GetCertName(provider, name, keys))) else None,
      if userKeys then Some(host.userDataPath(provider + "/" + GetKeyName(provider, name, keys))) else None,
      if IsUserDefined(provider) then Some(host.addonPath(provider)) else None,
      VerbValue(settings))
  }

  /** The context of one profile; the protocol rescan the source repeats for
      every `remote ` line gives the same answer each time, so it is done
      once here. */
  method MakeContext(conn: Connection, provider: string, settings: Settings, host: Host) returns (c: Context)
    ensures c == ContextOf(conn, provider, settings, host)
  {
    var found := FindProto(conn.lines);
    var port := "";
    if found == Some("tcp") {
      if PortTCP(settings) != "" {
        port := PortTCP(settings);
      }
    } else if found == Some("udp") {
      if PortUDP(settings) != "" {
        port := PortUDP(settings);
      }
    }
    var name := ProfileName(conn.path, host);
    var keys := settings.userDefKeys;
    var pass, cert, key, dir := None, None, None, None;
    if RewritesAuth(provider, settings) {
      pass := Some(host.addonPath(provider + "/pass.txt"));
    }
    if UsesUserKeys(provider, keys) {
      cert := Some(host.userDataPath(provider + "/" + GetCertName(provider, name, keys)));
      key := Some(host.userDataPath(provider + "/" + GetKeyName(provider, name, keys)));
    }
    if IsUserDefined(provider) {
      dir := Some(host.addonPath(provider));
    }
    c := Context(pass, port, cert, key, dir, VerbValue(settings));
  }

  function AuthStage(line: string, c: Context): string {
    if c.passPath.Some? && StartsWith(line, "auth-user-pass") then "auth-user-pass " + c.passPath.value
    else line
  }

  /** The second whitespace token of a line, or "" when it has none. */
  function SecondToken(line: string): string {
    var tokens := Split(line);
    if |tokens| >= 2 then tokens[1] else ""
  }

  function RemoteStage(line: string, c: Context): string {
    if StartsWith(line, "remote ") && c.port != "" && |Split(line)| >= 2 then
      "remote " + SecondToken(line) + " " + c.port + "\n"
    else line
  }

  function KeyStage(line: string, c: Context): string {
    var withCert := if c.certPath.Some? && StartsWith(line, "cert ") then "cert " + c.certPath.value else line;
    if c.keyPath.Some? && StartsWith(withCert, "key ") then "key " + c.keyPath.value else withCert
  }

  function PathStage(line: string, c: Context): string {
    if c.addonDir.Some? then ReplaceAll(line, "#PATH", c.addonDir.value) else line
  }

  function VerbStage(line: string, c: Context): string {
    if StartsWith(line, "verb ") then "verb " + c.verb else line
  }

  /** A raw line without its surrounding blanks and terminator. */
  function Stripped(raw: string): string {
    Strip(raw, LineJunk)
  }

  /** A line as written back, when processing it does not raise. */
  function RewriteLine(raw: string, c: Context): string {
    LateStages(RemoteStage(AuthStage(Stripped(raw), c), c), c)
  }

  /** The rewrites after the port override: keys, #PATH and verbosity. */
  function LateStages(line: string, c: Context): string {
    VerbStage(PathStage(KeyStage(line, c), c), c)
  }

  /** Whether the stripped line is a `remote ` line. */
  predicate IsRemote(raw: string) {
    StartsWith(Stripped(raw), "remote ")
  }

  /** Processing a `remote ` line raises when it has no second token and
      that token is needed: for the port override, or as the first server. */
  predicate RemoteFails(raw: string, c: Context, server: string) {
    IsRemote(raw) && |Split(Stripped(raw))| < 2 && (c.port != "" || server == "")
  }

  /** The state of the line loop of one profile. */
  datatype Scan = Scan(
    out: seq<string>,  // the lines written back
    server: string,    // translate_server
    count: nat,        // server_count
    ok: bool)

  function ScanAll(lines: seq<string>, c: Context): Scan
    decreases |lines|
  {
    if lines == [] then Scan([], "", 0, true)
    else
      var prev := ScanAll(lines[..|lines| - 1], c);
      if !prev.ok then prev else ScanStep(prev, lines[|lines| - 1], c)
  }

  /** One line: rewrite it and count it when it is a `remote ` line; the
      first such line names the server. */
  function ScanStep(prev: Scan, raw: string, c: Context): Scan {
    if RemoteFails(raw, c, prev.server) then prev.(ok := false)
    else
      var remote := IsRemote(raw);
      Scan(prev.out + [RewriteLine(raw, c)],
           if remote && prev.server == "" then SecondToken(Stripped(raw)) else prev.server,
           if remote then prev.count + 1 else prev.count,
           true)
  }

  predicate UpLine(line: string) { StartsWith(line, "up ") }
  predicate DownLine(line: string) { StartsWith(line, "down ") }
  predicate ScriptLine(line: string) { StartsWith(line, "script-security ") }
  predicate BlockLine(line: string) { StartsWith(line, "block-outside-dns") }
  predicate PingLine(line: string) { StartsWith(line, "ping") }

  /** The found_ flags: which of the lines the settings may add are among
      those written. */
  datatype Found = Found(up: bool, down: bool, script: bool, block: bool, ping: bool)

  function FoundIn(out: seq<string>): Found {
    Found(Any(out, UpLine), Any(out, DownLine), Any(out, ScriptLine), Any(out, BlockLine), Any(out, PingLine))
  }

  /** The flags after writing one more line. */
  function Note(f: Found, line: string): Found {
    Found(f.up || UpLine(line), f.down || DownLine(line), f.script || ScriptLine(line),
          f.block || BlockLine(line), f.ping || PingLine(line))
  }

  /** The protocol of the profile: the one the rescan found, provided a
      `remote ` line ran the rescan; udp otherwise. */
  function FileProto(lines: seq<string>, s: Scan): string {
    if s.count > 0 && FirstProto(lines).Some? then FirstProto(lines).value else "udp"
  }

  function PingLines(proto: string): seq<string> {
    if proto == "tcp" then ["ping 10", "ping-exit 60", "ping-timer-rem"]
    else ["ping 5", "ping-exit 30", "ping-timer-rem"]
  }

  /** The lines appended after the profile's own, for settings that ask for
      something the profile lacks. */
  function Tail(f: Found, proto: string, settings: Settings, host: Host): seq<string> {
    BlockTail(f, settings, host) + ScriptTail(f, settings, host) + PingTail(f, proto, settings)
  }

  function BlockTail(f: Found, settings: Settings, host: Host): seq<string> {
    if !f.block && host.windows && settings.blockOutsideDns == "true" then ["block-outside-dns"] else []
  }

  function ScriptTail(f: Found, settings: Settings, host: Host): seq<string> {
    if settings.upDownScript == "true" then
      (if !f.script then ["script-security 2"] else []) +
      (if !f.up then [host.upParam] else []) +
      (if !f.down then [host.downParam] else [])
    else []
  }

  function PingTail(f: Found, proto: string, settings: Settings): seq<string> {
    if !f.ping && settings.forcePing == "true" then PingLines(proto) else []
  }

  /** The TRANSLATE line of a profile. */
  function TranslateOf(name: string, s: Scan, proto: string): string {
    name + "," + s.server + (if s.count > 1 then " & " + NatToString(s.count - 1) + " more" else "") +
    " (" + Upper(proto) + ")"
  }

  datatype FileResult = FileResult(out: seq<string>, translated: string, ok: bool)

  /** One profile: on failure the file holds the lines written before the
      one that raised. */
  function NormalizeFile(conn: Connection, provider: string, settings: Settings, host: Host): FileResult {
    FileWith(conn.lines, ProfileName(conn.path, host), ContextOf(conn, provider, settings, host), settings, host)
  }

  /** One profile's lines under a given context; `name` is the profile's
      name. */
  function FileWith(lines: seq<string>, name: string, c: Context, settings: Settings, host: Host): FileResult {
    var s := ScanAll(lines, c);
    if !s.ok then FileResult(s.out, "", false)
    else
      var proto := FileProto(lines, s);
      FileResult(s.out + Tail(FoundIn(s.out), proto, settings, host), TranslateOf(name, s, proto), true)
  }

  datatype Profile = Profile(path: string, chunks: seq<string>)

  /** The state of the profile loop: the profiles rewritten so far (the last
      one may be partial), the TRANSLATE lines, and whether no exception was
      raised. */
  datatype Updated = Updated(profiles: seq<Profile>, translate: seq<string>, ok: bool)

  /** updateVPNFiles' profile loop, given what each profile's rewrite
      yields. */
  function UpdateAll(connections: seq<Connection>, provider: string, settings: Settings, host: Host): Updated {
    Collect(connections, Results(connections, provider, settings, host))
  }

  /** What rewriting each profile yields, position by position. */
  function Results(connections: seq<Connection>, provider: string, settings: Settings, host: Host): seq<FileResult> {
    seq(|connections|, i requires 0 <= i < |connections| => NormalizeFile(connections[i], provider, settings, host))
  }

  /** The profile loop over the results of the profiles: each profile is
      written, and its TRANSLATE line too when it completed; the loop stops
      after the first profile that raises. */
  function Collect(connections: seq<Connection>, results: seq<FileResult>): Updated
    requires |results| == |connections|
    decreases |connections|
  {
    if connections == [] then Updated([], [], true)
    else
      var prev := Collect(connections[..|connections| - 1], results[..|results| - 1]);
      if !prev.ok then prev
      else Record(prev, connections[|connections| - 1], results[|results| - 1])
  }

  function Record(prev: Updated, conn: Connection, r: FileResult): Updated {
    Updated(prev.profiles + [Profile(conn.path, r.out)],
            if r.ok then prev.translate + [r.translated] else prev.translate, r.ok)
  }

  /** updateVPNFiles over the provider's profiles, in the order listed;
      `translateOpens` says whether the TRANSLATE file could be created. */
  method UpdateVPNFiles(connections: seq<Connection>, provider: string, settings: Settings, host: Host,
                        translateOpens: bool)
    returns (u: Updated)
    ensures !translateOpens ==> u == Updated([], [], false)
    ensures translateOpens ==> u == UpdateAll(connections, provider, settings, host)
  {
    if !translateOpens {
      return Updated([], [], false);
    }
    ghost var results := Results(connections, provider, settings, host);
    u := Updated([], [], true);
    var i := 0;
    assert connections[..0] == [];
    while i < |connections|
      invariant 0 <= i <= |connections|
      invariant Collect(connections[..i], results[..i]) == u && u.ok
    {
      CollectSnoc(connections, results, i);
      var r := NormalizeProfile(connections[i], provider, settings, host);
      assert r == results[i];
      u := Updated(u.profiles + [Profile(connections[i].path, r.out)],
                   if r.ok then u.translate + [r.translated] else u.translate, r.ok);
      if !r.ok {
        CollectFailureStays(connections, results, i + 1);
        assert connections[..|connections|] == connections && results[..|results|] == results;
        return;
      }
      i := i + 1;
    }
    assert connections[..i] == connections && results[..i] == results;
  }

  lemma CollectSnoc(connections: seq<Connection>, results: seq<FileResult>, n: nat)
    requires |results| == |connections| && n < |connections|
    requires Collect(connections[..n], results[..n]).ok
    ensures Collect(connections[..n + 1], results[..n + 1]) ==
      Record(Collect(connections[..n], results[..n]), connections[n], results[n])
  {
    assert connections[..n + 1][..n] == connections[..n];
    assert results[..n + 1][..n] == results[..n];
  }

  lemma {:induction false} CollectFailureStays(connections: seq<Connection>, results: seq<FileResult>, n: nat)
    requires |results| == |connections|
    requires 0 < n <= |connections| && !Collect(connections[..n], results[..n]).ok
    ensures Collect(connections, results) == Collect(connections[..n], results[..n])
    decreases |connections| - n
  {
    if n < |connections| {
      assert connections[..n + 1][..n] == connections[..n];
      assert results[..n + 1][..n] == results[..n];
      CollectFailureStays(connections, results, n + 1);
    } else {
      assert connections[..n] == connections && results[..n] == results;
    }
  }

  /** The body of the profile loop: the line loop, the appended lines and
      the TRANSLATE line. */
  method NormalizeProfile(conn: Connection, provider: string, settings: Settings, host: Host)
    returns (r: FileResult)
    ensures r == NormalizeFile(conn, provider, settings, host)
  {
    var c := MakeContext(conn, provider, settings, host);
    var s, found := ScanLines(conn.lines, c);
    if !s.ok {
      return FileResult(s.out, "", false);
    }
    var proto := ProtoOf(conn.lines, s);
    var tail := BuildTail(found, proto, settings, host);
    var translated := Translation(ProfileName(conn.path, host), s, proto);
    r := FileResult(s.out + tail, translated, true);
  }

  /** The line loop of one profile; it stops at the line that raises. */
  method ScanLines(lines: seq<string>, c: Context) returns (s: Scan, found: Found)
    ensures s == ScanAll(lines, c)
    ensures found == FoundIn(s.out)
  {
    s := Scan([], "", 0, true);
    found := Found(false, false, false, false, false);
    var i := 0;
    assert lines[..0] == [];
    while i < |lines|
      invariant 0 <= i <= |lines|
      invariant ScanAll(lines[..i], c) == s && s.ok
      invariant found == FoundIn(s.out)
    {
      assert lines[..i + 1][..i] == lines[..i];
      s, found := Advance(s, found, lines[i], c);
      if !s.ok {
        ScanFailureStays(lines, c, i + 1);
        return;
      }
      i := i + 1;
    }
    assert lines[..i] == lines;
  }

  /** One turn of the loop: rewrite the line and note what it contains. */
  method Advance(prev: Scan, found: Found, raw: string, c: Context) returns (next: Scan, seen: Found)
    requires prev.ok && found == FoundIn(prev.out)
    ensures next == ScanStep(prev, raw, c)
    ensures seen == FoundIn(next.out)
  {
    next := ProcessLine(prev, raw, c);
    if !next.ok {
      assert next.out == prev.out;
      return next, found;
    }
    var line := next.out[|next.out| - 1];
    NoteFound(prev.out, line);
    assert next.out == prev.out + [line];
    seen := Note(found, line);
  }

  lemma {:induction false} ScanFailureStays(lines: seq<string>, c: Context, n: nat)
    requires 0 < n <= |lines| && !ScanAll(lines[..n], c).ok
    ensures ScanAll(lines, c) == ScanAll(lines[..n], c)
    decreases |lines| - n
  {
    if n < |lines| {
      assert lines[..n + 1][..n] == lines[..n];
      ScanFailureStays(lines, c, n + 1);
    } else {
      assert lines[..n] == lines;
    }
  }

  /** The protocol after the line loop. */
  method ProtoOf(lines: seq<string>, s: Scan) returns (proto: string)
    ensures proto == FileProto(lines, s)
  {
    proto := "udp";
    if s.count > 0 {
      var found := FindProto(lines);
      if found.Some? {
        proto := found.value;
      }
    }
  }

  /** The TRANSLATE line, with the count of further servers. */
  method Translation(name: string, s: Scan, proto: string) returns (translated: string)
    ensures translated == TranslateOf(name, s, proto)
  {
    var server := s.server;
    if s.count > 1 {
      server := server + " & " + NatToString(s.count - 1) + " more";
    }
    translated := name + "," + server + " (" + Upper(proto) + ")";
  }

  /** The appending after the line loop. */
  method BuildTail(f: Found, proto: string, settings: Settings, host: Host) returns (tail: seq<string>)
    ensures tail == Tail(f, proto, settings, host)
  {
    var block := [];
    if !f.block && host.windows && settings.blockOutsideDns == "true" {
      block := ["block-outside-dns"];
    }
    var scripts := ScriptLines(f, settings, host);
    var ping := [];
    if !f.ping && settings.forcePing == "true" {
      ping := PingLines(proto);
    }
    tail := block + scripts + ping;
  }

  method ScriptLines(f: Found, settings: Settings, host: Host) returns (lines: seq<string>)
    ensures lines == ScriptTail(f, settings, host)
  {
    var script, up, down := [], [], [];
    if settings.upDownScript == "true" {
      if !f.script {
        script := ["script-security 2"];
      }
      if !f.up {
        up := [host.upParam];
      }
      if !f.down {
        down := [host.downParam];
      }
    }
    lines := if settings.upDownScript == "true" then script + up + down else [];
  }

  /** The body of the line loop. */
  method ProcessLine(prev: Scan, raw: string, c: Context) returns (next: Scan)
    ensures next == ScanStep(prev, raw, c)
  {
    var line := AuthStage(Stripped(raw), c);
    RemoteNotAuth(Stripped(raw), c);
    if StartsWith(line, "remote ") {
      var server, ok;
      line, server, ok := RemoteLine(line, c, prev.server);
      if !ok {
        return prev.(ok := false);
      }
      next := Scan(prev.out + [LateStages(line, c)], server, prev.count + 1, true);
      RemoteStep(prev, raw, c, line, server);
    } else {
      next := Scan(prev.out + [LateStages(line, c)], prev.server, prev.count, true);
    }
  }

  /** ScanStep on a `remote ` line that does not raise. */
  lemma RemoteStep(prev: Scan, raw: string, c: Context, line: string, server: string)
    requires IsRemote(raw) && !RemoteFails(raw, c, prev.server)
    requires line == RemoteStage(Stripped(raw), c)
    requires server == if prev.server == "" then SecondToken(Stripped(raw)) else prev.server
    ensures ScanStep(prev, raw, c) == Scan(prev.out + [LateStages(line, c)], server, prev.count + 1, true)
  {
    RemoteNotAuth(Stripped(raw), c);
  }

  /** The password-file rewrite leaves `remote ` lines alone. */
  lemma RemoteNotAuth(line: string, c: Context)
    ensures StartsWith(AuthStage(line, c), "remote ") <==> StartsWith(line, "remote ")
    ensures StartsWith(line, "remote ") ==> AuthStage(line, c) == line
  {
    if StartsWith(line, "auth-user-pass") {
      assert line[0] == 'a';
    }
    if StartsWith(line, "remote ") {
      assert line[0] == 'r';
    }
    if c.passPath.Some? {
      var rewritten := "auth-user-pass " + c.passPath.value;
      assert rewritten[0] == 'a';
    }
  }

  /** The `remote ` branch of the line loop: the port override and the
      first server. */
  method RemoteLine(line: string, c: Context, server: string) returns (line': string, server': string, ok: bool)
    requires StartsWith(line, "remote ")
    ensures ok <==> !(|Split(line)| < 2 && (c.port != "" || server == ""))
    ensures ok ==> line' == RemoteStage(line, c)
    ensures ok ==> server' == if server == "" then SecondToken(line) else server
  {
    var tokens := Split(line);
    line', server' := line, server;
    if c.port != "" {
      if |tokens| < 2 {
        return line, server, false;
      }
      line' := "remote " + tokens[1] + " " + c.port + "\n";
    }
    if server == "" {
      if |tokens| < 2 {
        return line, server, false;
      }
      server' := tokens[1];
    }
    ok := true;
  }

  // Properties of one line

  /** With a port override, a `remote ` line is rebuilt from its host and
      the override (for the user-defined provider, #PATH tags are then
      replaced in what follows "remote "). */
  lemma RemoteOverride(raw: string, c: Context)
    requires IsRemote(raw) && c.port != "" && |Split(Stripped(raw))| >= 2
    ensures RewriteLine(raw, c) == "remote " + PathStage(SecondToken(Stripped(raw)) + " " + c.port + "\n", c)
    ensures c.addonDir.None? ==>
      RewriteLine(raw, c) == "remote " + SecondToken(Stripped(raw)) + " " + c.port + "\n"
  {
    var rest := SecondToken(Stripped(raw)) + " " + c.port + "\n";
    RemoteNotAuth(Stripped(raw), c);
    assert RemoteStage(Stripped(raw), c) == "remote " + rest;
    RemoteKeepsPrefix(rest, c);
  }

  /** Without a port override a `remote ` line keeps its text. */
  lemma RemoteUntouched(raw: string, c: Context)
    requires IsRemote(raw) && c.port == ""
    ensures RewriteLine(raw, c) == PathStage(Stripped(raw), c)
    ensures c.addonDir.None? ==> RewriteLine(raw, c) == Stripped(raw)
  {
    var line := Stripped(raw);
    RemoteNotAuth(line, c);
    assert RemoteStage(line, c) == line;
    assert RewriteLine(raw, c) == LateStages(line, c);
    assert line == "remote " + line[7..];
    RemoteKeepsPrefix(line[7..], c);
    PathKeepsPrefix("remote ", line[7..], c);
  }

  /** #PATH replacement leaves a prefix without '#' in front. */
  lemma PathKeepsPrefix(prefix: string, rest: string, c: Context)
    requires '#' !in prefix
    ensures PathStage(prefix + rest, c) == prefix + PathStage(rest, c)
  {
    if c.addonDir.Some? {
      assert "#PATH"[0] == '#';
      ReplaceAllKeepsPrefix(prefix, rest, "#PATH", c.addonDir.value);
    }
  }

  /** The key, #PATH and verbosity stages leave a `remote ` line a `remote `
      line, touching only what follows the prefix. */
  lemma RemoteKeepsPrefix(rest: string, c: Context)
    ensures LateStages("remote " + rest, c) == "remote " + PathStage(rest, c)
  {
    var line := "remote " + rest;
    assert line[0] == 'r';
    assert KeyStage(line, c) == line;
    PathVerbPrefix("remote ", rest, c);
  }

  /** #PATH replacement and the verbosity stage leave a line whose prefix has
      no '#' and does not start with 'v' starting with that prefix. */
  lemma PathVerbPrefix(prefix: string, rest: string, c: Context)
    requires prefix != [] && '#' !in prefix && prefix[0] != 'v'
    ensures VerbStage(PathStage(prefix + rest, c), c) == prefix + PathStage(rest, c)
  {
    PathKeepsPrefix(prefix, rest, c);
    var path := prefix + PathStage(rest, c);
    assert path[0] == prefix[0];
  }

  /** Lines that are neither password nor `remote ` lines skip the first
      two stages. */
  lemma EarlyStagesKeep(raw: string, c: Context)
    requires Stripped(raw) != [] && Stripped(raw)[0] != 'a' && Stripped(raw)[0] != 'r'
    ensures RewriteLine(raw, c) == LateStages(Stripped(raw), c)
  {
    var line := Stripped(raw);
    assert !StartsWith(line, "auth-user-pass") && !StartsWith(line, "remote ");
    assert AuthStage(line, c) == line && RemoteStage(line, c) == line;
  }

  /** The password-file line points at the add-on's pass.txt whenever the
      add-on manages the credentials. */
  lemma AuthRewritten(raw: string, c: Context)
    requires StartsWith(Stripped(raw), "auth-user-pass") && c.passPath.Some?
    ensures RewriteLine(raw, c) == "auth-user-pass " + PathStage(c.passPath.value, c)
  {
    var rest := c.passPath.value;
    var auth := "auth-user-pass " + rest;
    assert AuthStage(Stripped(raw), c) == auth;
    assert auth[0] == 'a';
    assert RemoteStage(auth, c) == auth;
    assert KeyStage(auth, c) == auth;
    assert RewriteLine(raw, c) == VerbStage(PathStage(auth, c), c);
    PathVerbPrefix("auth-user-pass ", rest, c);
  }

  /** A `key ` line of a provider with user keys points at the user's key. */
  lemma KeyRewritten(raw: string, c: Context)
    requires StartsWith(Stripped(raw), "key ") && c.keyPath.Some?
    ensures RewriteLine(raw, c) == "key " + PathStage(c.keyPath.value, c)
  {
    var line := Stripped(raw);
    assert line[0] == 'k';
    EarlyStagesKeep(raw, c);
    assert KeyStage(line, c) == "key " + c.keyPath.value;
    PathVerbPrefix("key ", c.keyPath.value, c);
  }

  /** A `cert ` line of a provider with user keys points at the user's
      certificate. */
  lemma CertRewritten(raw: string, c: Context)
    requires StartsWith(Stripped(raw), "cert ") && c.certPath.Some?
    ensures RewriteLine(raw, c) == "cert " + PathStage(c.certPath.value, c)
  {
    var line := Stripped(raw);
    assert line[0] == 'c';
    EarlyStagesKeep(raw, c);
    var cert := "cert " + c.certPath.value;
    assert cert[0] == 'c';
    assert KeyStage(line, c) == cert;
    PathVerbPrefix("cert ", c.certPath.value, c);
  }

  /** Every `verb ` line written carries the verbosity setting. */
  lemma VerbLines(raw: string, c: Context)
    ensures StartsWith(RewriteLine(raw, c), "verb ") ==> RewriteLine(raw, c) == "verb " + c.verb
  {
    var late := PathStage(KeyStage(RemoteStage(AuthStage(Stripped(raw), c), c), c), c);
    assert RewriteLine(raw, c) == VerbStage(late, c);
  }

  /** A line none of the stages is about is written back as it was read
      (stripped), apart from the user-defined provider's #PATH tags. */
  lemma OtherLinesKept(raw: string, c: Context)
    requires !StartsWith(Stripped(raw), "auth-user-pass") && !StartsWith(Stripped(raw), "remote ")
    requires !StartsWith(Stripped(raw), "cert ") && !StartsWith(Stripped(raw), "key ")
    requires !StartsWith(PathStage(Stripped(raw), c), "verb ")
    ensures RewriteLine(raw, c) == PathStage(Stripped(raw), c)
    ensures c.addonDir.None? ==> RewriteLine(raw, c) == Stripped(raw)
  {
    var line := Stripped(raw);
    assert AuthStage(line, c) == line;
    assert RemoteStage(line, c) == line;
    assert KeyStage(line, c) == line;
  }

  // Properties of the line loop

  /** The rewrite of each line, in order. */
  function Rewritten(lines: seq<string>, c: Context): (r: seq<string>)
    ensures |r| == |lines|
    decreases |lines|
  {
    if lines == [] then [] else [RewriteLine(lines[0], c)] + Rewritten(lines[1..], c)
  }

  lemma {:induction false} RewrittenAt(lines: seq<string>, c: Context, k: nat)
    requires k < |lines|
    ensures Rewritten(lines, c)[k] == RewriteLine(lines[k], c)
    decreases k
  {
    if k > 0 {
      RewrittenAt(lines[1..], c, k - 1);
    }
  }

  lemma {:induction false} RewrittenSnoc(lines: seq<string>, raw: string, c: Context)
    ensures Rewritten(lines + [raw], c) == Rewritten(lines, c) + [RewriteLine(raw, c)]
    decreases |lines|
  {
    if lines == [] {
      assert [] + [raw] == [raw];
    } else {
      assert (lines + [raw])[1..] == lines[1..] + [raw];
      RewrittenSnoc(lines[1..], raw, c);
    }
  }

  lemma RewrittenLast(lines: seq<string>, c: Context)
    requires lines != []
    ensures Rewritten(lines, c) == Rewritten(lines[..|lines| - 1], c) + [RewriteLine(lines[|lines| - 1], c)]
  {
    assert lines == lines[..|lines| - 1] + [lines[|lines| - 1]];
    RewrittenSnoc(lines[..|lines| - 1], lines[|lines| - 1], c);
  }

  /** A step that does not raise records the rewritten line. */
  lemma StepRecords(prev: Scan, raw: string, c: Context)
    requires ScanStep(prev, raw, c).ok
    ensures ScanStep(prev, raw, c).out == prev.out + [RewriteLine(raw, c)]
  {
  }

  /** The loop writes one line per line read, and stops exactly when a
      line raises. */
  lemma {:induction false} ScanLength(lines: seq<string>, c: Context)
    ensures |ScanAll(lines, c).out| <= |lines|
    ensures ScanAll(lines, c).ok <==> |ScanAll(lines, c).out| == |lines|
    decreases |lines|
  {
    if lines != [] {
      var init := lines[..|lines| - 1];
      var raw := lines[|lines| - 1];
      ScanLength(init, c);
      var prev := ScanAll(init, c);
      if prev.ok {
        var next := ScanStep(prev, raw, c);
        assert ScanAll(lines, c) == next;
        if next.ok {
          StepRecords(prev, raw, c);
        }
      }
    }
  }

  /** What the loop writes is the rewrite of each line read, in order. */
  lemma {:induction false} ScanWrites(lines: seq<string>, c: Context)
    ensures |ScanAll(lines, c).out| <= |lines|
    ensures ScanAll(lines, c).out == Rewritten(lines[..|ScanAll(lines, c).out|], c)
    decreases |lines|
  {
    if lines != [] {
      ScanWrites(lines[..|lines| - 1], c);
      WritesStep(lines, c);
      ScanLength(lines, c);
      if ScanAll(lines, c).ok {
        assert lines[..|lines|] == lines;
      }
    }
  }

  lemma WritesStep(lines: seq<string>, c: Context)
    requires lines != []
    requires var prev := ScanAll(lines[..|lines| - 1], c);
      |prev.out| <= |lines| - 1 && prev.out == Rewritten(lines[..|lines| - 1][..|prev.out|], c)
    ensures |ScanAll(lines, c).out| <= |lines|
    ensures ScanAll(lines, c).out == Rewritten(lines[..|ScanAll(lines, c).out|], c)
  {
    var init := lines[..|lines| - 1];
    ScanLength(init, c);
    var prev := ScanAll(init, c);
    if prev.ok && ScanStep(prev, lines[|lines| - 1], c).ok {
      assert init[..|init|] == init;
      WritesGrow(lines, c);
      PrefixExtend(lines, c, prev.out, ScanAll(lines, c).out);
    } else {
      WritesStay(lines, c);
      PrefixExtend(lines, c, prev.out, ScanAll(lines, c).out);
    }
  }

  /** Either nothing more was written, or the whole input was rewritten:
      in both cases the output is the rewrite of a prefix of the input. */
  lemma PrefixExtend(lines: seq<string>, c: Context, prevOut: seq<string>, out: seq<string>)
    requires lines != []
    requires |prevOut| <= |lines| - 1 && prevOut == Rewritten(lines[..|lines| - 1][..|prevOut|], c)
    requires out == prevOut || out == Rewritten(lines, c)
    ensures |out| <= |lines| && out == Rewritten(lines[..|out|], c)
  {
    if out == Rewritten(lines, c) {
      assert lines[..|lines|] == lines;
    } else {
      assert lines[..|lines| - 1][..|prevOut|] == lines[..|prevOut|];
    }
  }

  lemma WritesStay(lines: seq<string>, c: Context)
    requires lines != []
    requires var prev := ScanAll(lines[..|lines| - 1], c);
      !prev.ok || !ScanStep(prev, lines[|lines| - 1], c).ok
    ensures ScanAll(lines, c).out == ScanAll(lines[..|lines| - 1], c).out
  {
  }

  lemma WritesGrow(lines: seq<string>, c: Context)
    requires lines != []
    requires var prev := ScanAll(lines[..|lines| - 1], c);
      prev.ok && prev.out == Rewritten(lines[..|lines| - 1], c) &&
      ScanStep(prev, lines[|lines| - 1], c).ok
    ensures ScanAll(lines, c).out == Rewritten(lines, c)
  {
    var prev := ScanAll(lines[..|lines| - 1], c);
    StepRecords(prev, lines[|lines| - 1], c);
    RewrittenLast(lines, c);
  }

  /** Noting a line keeps the flags in step with what was written. */
  lemma NoteFound(out: seq<string>, line: string)
    ensures FoundIn(out + [line]) == Note(FoundIn(out), line)
  {
    var next := out + [line];
    assert next[..|next| - 1] == out;
    AnySnoc(next, UpLine);
    AnySnoc(next, DownLine);
    AnySnoc(next, ScriptLine);
    AnySnoc(next, BlockLine);
    AnySnoc(next, PingLine);
  }

  /** The number of `remote ` lines. */
  function RemoteCount(lines: seq<string>): nat
    decreases |lines|
  {
    if lines == [] then 0 else (if IsRemote(lines[0]) then 1 else 0) + RemoteCount(lines[1..])
  }

  /** The first `remote ` line, stripped. */
  function FirstRemote(lines: seq<string>): Option<string>
    decreases |lines|
  {
    if lines == [] then None
    else if IsRemote(lines[0]) then Some(Stripped(lines[0]))
    else FirstRemote(lines[1..])
  }

  lemma {:induction false} RemoteSnoc(lines: seq<string>, raw: string)
    ensures RemoteCount(lines + [raw]) == RemoteCount(lines) + if IsRemote(raw) then 1 else 0
    ensures FirstRemote(lines + [raw]) ==
      if FirstRemote(lines).Some? then FirstRemote(lines) else if IsRemote(raw) then Some(Stripped(raw)) else None
    decreases |lines|
  {
    if lines == [] {
      assert [] + [raw] == [raw];
    } else {
      assert (lines + [raw])[1..] == lines[1..] + [raw];
      RemoteSnoc(lines[1..], raw);
    }
  }

  /** A loop that completes counts the `remote ` lines and names the host of
      the first one, which then has one. */
  lemma {:induction false} ScanServers(lines: seq<string>, c: Context)
    ensures ScanAll(lines, c).ok ==> ScanAll(lines, c).count == RemoteCount(lines)
    ensures ScanAll(lines, c).ok && FirstRemote(lines).None? ==> ScanAll(lines, c).server == ""
    ensures ScanAll(lines, c).ok && FirstRemote(lines).Some? ==>
      ScanAll(lines, c).server == SecondToken(FirstRemote(lines).value) && ScanAll(lines, c).server != ""
    decreases |lines|
  {
    if lines != [] {
      var init := lines[..|lines| - 1];
      var raw := lines[|lines| - 1];
      assert init + [raw] == lines;
      ScanServers(init, c);
      RemoteSnoc(init, raw);
      var prev := ScanAll(init, c);
      if prev.ok && IsRemote(raw) && !RemoteFails(raw, c, prev.server) && prev.server == "" {
        var tokens := Split(Stripped(raw));
        assert IsToken(tokens[1]);
      }
    }
  }

  /** When the loop stops early, the line it stopped at is a `remote ` line
      without a host that was needed. */
  lemma {:induction false} ScanStops(lines: seq<string>, c: Context)
    requires !ScanAll(lines, c).ok
    ensures var n := |ScanAll(lines, c).out|;
      n < |lines| && ScanAll(lines[..n], c).ok &&
      RemoteFails(lines[n], c, ScanAll(lines[..n], c).server)
    decreases |lines|
  {
    var init := lines[..|lines| - 1];
    var raw := lines[|lines| - 1];
    assert lines[..|init|] == init;
    ScanLength(init, c);
    ScanLength(lines, c);
    if ScanAll(init, c).ok {
      var prev := ScanAll(init, c);
      assert |prev.out| == |init|;
      assert ScanAll(lines, c) == ScanStep(prev, raw, c);
      assert RemoteFails(raw, c, prev.server);
    } else {
      ScanStops(init, c);
      var n := |ScanAll(init, c).out|;
      assert init[..n] == lines[..n];
    }
  }
}
