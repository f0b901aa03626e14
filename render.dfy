/** How generateOVPNFiles (libs/vpnproviders.py) turns the template into the
    profile of one location: every template line goes through the same
    pipeline, and the non-empty results are written in order. */
module Render {
  import opened Strings
  import opened Config
  import opened Modifiers
  import opened Locations

  /** `#REMOVE<c>` resolution on a stripped template line. The first tag's
      flag character decides: a flag the location lists drops the line,
      any other flag only deletes the tag. None where the source raises: the
      tag ends the line, so there is no flag character to read. */
  function ResolveRemove(s: string, flags: string): Option<string> {
    ResolveFlag(s, "#REMOVE", flags)
  }

  /** The same resolution for any flag-carrying tag. */
  function ResolveFlag(s: string, tag: string, flags: string): Option<string> {
    if !Contains(s, tag) then Some(s)
    else
      var k := IndexOf(s, tag) + |tag|;
      if k >= |s| then None
      else if s[k] in flags then Some("")
      else Some(ReplaceAll(s, tag + [s[k]], ""))
  }

  /** The value of `#SERVPROT`: OpenVPN's client form of tcp. */
  function ServProt(proto: string): string {
    if proto == "tcp" then "tcp-client" else proto
  }

  /** The text the fan-out loop has built from a `remote ` line once it has
      gone through `servers`: the copies are joined by newlines, and when no
      single port applies the whole text so far has `#PORT` replaced by the
      port of the server just added. None once a server has no port. */
  function FanOut(t: string, servers: seq<string>, ports: seq<string>, port: string): Option<string>
    decreases |servers|
  {
    if servers == [] then Some("")
    else
      var n := |servers| - 1;
      var prev := FanOut(t, servers[..n], ports, port);
      if prev.None? then None
      else
        var acc := (if prev.value == "" then "" else prev.value + "\n") + ReplaceAll(t, "#SERVER", servers[n]);
        if port != "" then Some(acc)
        else if n < |ports| then Some(ReplaceAll(acc, "#PORT", ports[n]))
        else None
  }

  /** The translate file's server column: the first server, and how many
      more there are. */
  function Summary(servers: seq<string>): string
    requires servers != []
  {
    servers[0] + if |servers| > 1 then " & " + NatToString(|servers| - 1) + " more" else ""
  }

  /** The fan-out loop. `server` is the translate_server variable, which
      keeps its value from earlier lines and locations. */
  method ExpandRemote(t: string, servers: seq<string>, ports: seq<string>, port: string, server: Option<string>)
    returns (lines: string, server': Option<string>, ok: bool)
    ensures ok <==> FanOut(t, servers, ports, port).Some?
    ensures ok ==> lines == FanOut(t, servers, ports, port).value
    ensures ok ==> server' == if servers == [] then server else Some(Summary(servers))
  {
    lines, server' := "", server;
    var i := 0;
    assert servers[..0] == [];
    while i < |servers|
      invariant 0 <= i <= |servers|
      invariant FanOut(t, servers[..i], ports, port) == Some(lines)
      invariant server' == if i == 0 then server else Some(servers[0])
    {
      assert servers[..i + 1][..i] == servers[..i];
      if i == 0 {
        server' := Some(servers[i]);
      }
      if lines != "" {
        lines := lines + "\n";
      }
      lines := lines + ReplaceAll(t, "#SERVER", servers[i]);
      if port == "" {
        if i >= |ports| {
          ok := false;
          FanOutFailureStays(t, servers, ports, port, i + 1);
          return;
        }
        lines := ReplaceAll(lines, "#PORT", ports[i]);
      }
      i := i + 1;
    }
    assert servers[..i] == servers;
    assert servers != [] ==> server'.value == servers[0] && servers[0] + "" == servers[0];
    if i > 1 {
      server' := Some(server'.value + " & " + NatToString(i - 1) + " more");
      assert server'.value == servers[0] + (" & " + NatToString(|servers| - 1) + " more");
    }
    ok := true;
  }

  lemma {:induction false} FanOutFailureStays(t: string, servers: seq<string>, ports: seq<string>, port: string, n: nat)
    requires 0 < n <= |servers| && FanOut(t, servers[..n], ports, port).None?
    ensures FanOut(t, servers, ports, port).None?
    decreases |servers| - n
  {
    if n < |servers| {
      assert servers[..n + 1][..n] == servers[..n];
      FanOutFailureStays(t, servers, ports, port, n + 1);
    } else {
      assert servers[..n] == servers;
    }
  }

  /** The copy of a `remote ` line made for server `i`. */
  function Copy(t: string, servers: seq<string>, ports: seq<string>, port: string, i: nat): string
    requires i < |servers| && (port == "" ==> i < |ports|)
  {
    var r := ReplaceAll(t, "#SERVER", servers[i]);
    if port == "" then ReplaceAll(r, "#PORT", ports[i]) else r
  }

  /** What the fan-out needs to produce one clean copy per server: hosts
      and ports are whitespace-free tokens, a port does not share a
      character with "#PORT", and there is a port per server unless a
      single port applies. */
  predicate FanOutReady(t: string, servers: seq<string>, ports: seq<string>, port: string) {
    t != [] && '\n' !in t &&
    (forall i :: 0 <= i < |servers| ==> IsToken(servers[i])) &&
    (port == "" ==> |ports| >= |servers| &&
                    forall i :: 0 <= i < |ports| ==> IsToken(ports[i]) && SharesNoChar(ports[i], "#PORT"))
  }

  function Copies(t: string, servers: seq<string>, ports: seq<string>, port: string): (r: seq<string>)
    requires FanOutReady(t, servers, ports, port)
    ensures |r| == |servers|
  {
    seq(|servers|, i requires 0 <= i < |servers| => Copy(t, servers, ports, port, i))
  }

  /** A `remote ` line expands to exactly one line per server, in server
      order, each the template line with that server (and, when no single
      port applies, that server's port) filled in. */
  lemma FanOutOneLinePerServer(t: string, servers: seq<string>, ports: seq<string>, port: string)
    requires servers != [] && FanOutReady(t, servers, ports, port)
    ensures FanOut(t, servers, ports, port) == Some(Join(Copies(t, servers, ports, port), '\n'))
    ensures SplitOn(FanOut(t, servers, ports, port).value, '\n') == Copies(t, servers, ports, port)
  {
    FanOutJoin(t, servers, ports, port);
    var cs := Copies(t, servers, ports, port);
    forall i | 0 <= i < |cs|
      ensures '\n' !in cs[i]
    {
      CopyShape(t, servers, ports, port, i);
    }
    SplitOnJoin(cs, '\n');
  }

  /** Facts about one copy: not empty, no newline, and no `#PORT` left when
      the copy received its own port. */
  lemma CopyShape(t: string, servers: seq<string>, ports: seq<string>, port: string, i: nat)
    requires FanOutReady(t, servers, ports, port) && i < |servers|
    ensures Copy(t, servers, ports, port, i) != []
    ensures '\n' !in Copy(t, servers, ports, port, i)
    ensures port == "" ==> !Contains(Copy(t, servers, ports, port, i), "#PORT")
  {
    var r := ReplaceAll(t, "#SERVER", servers[i]);
    ReplaceAllNonEmpty(t, "#SERVER", servers[i]);
    assert IsSpace('\n');
    ReplaceAllNoChar(t, "#SERVER", servers[i], '\n');
    if port == "" {
      ReplaceAllNonEmpty(r, "#PORT", ports[i]);
      ReplaceAllNoChar(r, "#PORT", ports[i], '\n');
      ReplaceAllRemovesAll(r, "#PORT", ports[i]);
    }
  }

  lemma {:induction false} FanOutJoin(t: string, servers: seq<string>, ports: seq<string>, port: string)
    requires servers != [] && FanOutReady(t, servers, ports, port)
    ensures FanOut(t, servers, ports, port) == Some(Join(Copies(t, servers, ports, port), '\n'))
    decreases |servers|
  {
    var n := |servers| - 1;
    var cs := Copies(t, servers, ports, port);
    CopyShape(t, servers, ports, port, n);
    if n == 0 {
      assert servers[..n] == [];
      assert "" + ReplaceAll(t, "#SERVER", servers[0]) == ReplaceAll(t, "#SERVER", servers[0]);
      assert cs == [cs[0]];
    } else {
      assert FanOutReady(t, servers[..n], ports, port);
      FanOutJoin(t, servers[..n], ports, port);
      FanOutJoinStep(t, servers, ports, port);
    }
  }

  /** The step of FanOutJoin: one more server appends its copy. */
  lemma FanOutJoinStep(t: string, servers: seq<string>, ports: seq<string>, port: string)
    requires |servers| > 1 && FanOutReady(t, servers, ports, port)
    requires FanOutReady(t, servers[..|servers| - 1], ports, port)
    requires FanOut(t, servers[..|servers| - 1], ports, port) ==
             Some(Join(Copies(t, servers[..|servers| - 1], ports, port), '\n'))
    ensures FanOut(t, servers, ports, port) == Some(Join(Copies(t, servers, ports, port), '\n'))
  {
    var n := |servers| - 1;
    var cs := Copies(t, servers, ports, port);
    var prev := Copies(t, servers[..n], ports, port);
    assert forall i :: 0 <= i < n ==> prev[i] == cs[i];
    assert prev + [cs[n]] == cs;
    CopyShape(t, servers, ports, port, 0);
    assert Join(prev, '\n') != [] by { JoinFirst(prev, '\n'); }
    JoinSnoc(prev, cs[n], '\n');
    if port == "" {
      forall i | 0 <= i < n
        ensures ReplaceAll(prev[i], "#PORT", ports[n]) == prev[i]
      {
        CopyShape(t, servers, ports, port, i);
        ReplaceAllNoOccurrence(prev[i], "#PORT", ports[n]);
      }
      JoinReplaceFixed(prev, '\n', "#PORT", ports[n]);
      ReplaceAllAround(Join(prev, '\n'), '\n', ReplaceAll(t, "#SERVER", servers[n]), "#PORT", ports[n]);
    }
  }

  lemma JoinFirst(pieces: seq<string>, c: char)
    requires |pieces| >= 1
    ensures |Join(pieces, c)| >= |pieces[0]|
  {
  }

  /** The number of tags replaced after the fan-out. */
  const ReplacementCount := 14

  /** The `k`-th of the remaining tags and what replaces it, in the source's
      order. */
  function Replacement(k: nat, loc: Location, provider: string, host: Host): (r: (string, string))
    requires k < ReplacementCount && loc.servers != []
    ensures r.0 != [] && r.0[0] == '#'
  {
    var m := loc.mods;
    var dir := provider + "/";
    if k == 0 then ("#SERVER", loc.servers[0])
    else if k == 1 then ("#PORT", loc.port)
    else if k == 2 then ("#PASS", host.addonPath(dir + "pass.txt"))
    else if k == 3 then ("#CERT", host.addonPath(dir + m.caCert))
    else if k == 4 then ("#TLSKEY", host.addonPath(dir + m.taKey))
    else if k == 5 then ("#CRLVERIFY", host.addonPath(dir + m.crlPem))
    else if k == 6 then ("#DH", host.addonPath(dir + m.dhParm))
    else if k == 7 then ("#USERKEY", m.userKey)
    else if k == 8 then ("#USERCERT", m.userCert)
    else if k == 9 then ("#PATH", host.addonPath(dir))
    else if k == 10 then ("#USER1", m.user1)
    else if k == 11 then ("#USER2", m.user2)
    else if k == 12 then ("#PINGSPEED", m.pingSpeed)
    else ("#PINGEXIT", m.pingExit)
  }

  /** The replacements from the `k`-th on, each in turn over the whole text. */
  function ReplaceFrom(s: string, k: nat, loc: Location, provider: string, host: Host): string
    requires k <= ReplacementCount && loc.servers != []
    decreases ReplacementCount - k
  {
    if k == ReplacementCount then s
    else
      var (tag, value) := Replacement(k, loc, provider, host);
      ReplaceFrom(ReplaceAll(s, tag, value), k + 1, loc, provider, host)
  }

  /** The last two steps: a `verb ` line takes the configured verbosity, and
      under tcp a template line mentioning explicit-exit-notify is blanked. */
  function Finish(raw: string, s: string, proto: string, verb: string): string {
    var v := if StartsWith(s, "verb ") then "verb " + verb else s;
    if Contains(raw, "explicit-exit-notify") && proto == "tcp" then "" else v
  }

  /** The result of one template line: the text to write ("" writes
      nothing) and the translate_server value afterwards. */
  datatype Rendered = Rendered(text: string, server: Option<string>)

  /** The first steps on a template line: strip it, resolve `#REMOVE`,
      then fill in `#PROTO` and `#SERVPROT`. */
  function Prepare(raw: string, loc: Location): Option<string> {
    var removed := ResolveRemove(Strip(raw, LineJunk), loc.mods.removeFlags);
    if removed.None? then None
    else Some(ReplaceAll(ReplaceAll(removed.value, "#PROTO", loc.proto), "#SERVPROT", ServProt(loc.proto)))
  }

  /** The middle steps: the fan-out of a `remote ` line, then the remaining
      tags; with the translate_server value afterwards. None where the
      fan-out raises, and on every line of a location without servers. */
  function Expand(s: string, loc: Location, provider: string, host: Host, server: Option<string>)
    : Option<(string, Option<string>)>
  {
    var remote := StartsWith(s, "remote ");
    var expanded := if remote then FanOut(s, loc.servers, loc.ports, loc.port) else Some(s);
    if expanded.None? || loc.servers == [] then None
    else Some((ReplaceFrom(expanded.value, 0, loc, provider, host), if remote then Some(Summary(loc.servers)) else server))
  }

  /** One template line through the whole pipeline; None where the source
      raises. */
  function RenderLine(raw: string, loc: Location, provider: string, settings: Settings, host: Host,
                      server: Option<string>): Option<Rendered>
  {
    var prepared := Prepare(raw, loc);
    if prepared.None? then None
    else
      var expanded := Expand(prepared.value, loc, provider, host, server);
      if expanded.None? then None
      else Some(Rendered(Finish(raw, expanded.value.0, loc.proto, VerbValue(settings)), expanded.value.1))
  }

  /** The state of the template loop: the chunks written so far (each one
      `write` call, without its final newline), translate_server, and
      whether no exception was raised. */
  datatype Outcome = Outcome(chunks: seq<string>, server: Option<string>, ok: bool)

  /** The template loop over `lines`, starting from translate_server `server`. */
  function RenderAll(lines: seq<string>, loc: Location, provider: string, settings: Settings, host: Host,
                     server: Option<string>): Outcome
    decreases |lines|
  {
    if lines == [] then Outcome([], server, true)
    else
      var prev := RenderAll(lines[..|lines| - 1], loc, provider, settings, host, server);
      if !prev.ok then prev
      else
        var r := RenderLine(lines[|lines| - 1], loc, provider, settings, host, prev.server);
        if r.None? then prev.(ok := false)
        else Outcome(if r.value.text == "" then prev.chunks else prev.chunks + [r.value.text], r.value.server, true)
  }

  /** The body of the template loop for one line. */
  method RenderOne(line: string, loc: Location, provider: string, settings: Settings, host: Host,
                   server: Option<string>)
    returns (text: string, server': Option<string>, ok: bool)
    ensures ok <==> RenderLine(line, loc, provider, settings, host, server).Some?
    ensures ok ==> Rendered(text, server') == RenderLine(line, loc, provider, settings, host, server).value
  {
    var prepared := Prepare(line, loc);
    if prepared.None? {
      text, server', ok := "", server, false;
      return;
    }
    text, server' := prepared.value, server;
    if StartsWith(text, "remote ") {
      text, server', ok := ExpandRemote(text, loc.servers, loc.ports, loc.port, server');
      if !ok {
        assert Expand(prepared.value, loc, provider, host, server).None?;
        return;
      }
    }
    if loc.servers == [] {
      assert Expand(prepared.value, loc, provider, host, server).None?;
      ok := false;
      return;
    }
    text := ReplaceFrom(text, 0, loc, provider, host);
    ghost var replaced := text;
    assert Expand(prepared.value, loc, provider, host, server) == Some((replaced, server'));
    if StartsWith(text, "verb ") {
      text := "verb " + VerbValue(settings);
    }
    if Contains(line, "explicit-exit-notify") && loc.proto == "tcp" {
      text := "";
    }
    assert text == Finish(line, replaced, loc.proto, VerbValue(settings));
    ok := true;
  }

  /** The template loop of generateOVPNFiles for one location. */
  method RenderProfile(template: seq<string>, loc: Location, provider: string, settings: Settings, host: Host,
                       server: Option<string>)
    returns (chunks: seq<string>, server': Option<string>, ok: bool)
    ensures var spec := RenderAll(template, loc, provider, settings, host, server);
      ok == spec.ok && chunks == spec.chunks && (ok ==> server' == spec.server)
  {
    chunks, server' := [], server;
    var i := 0;
    assert template[..0] == [];
    while i < |template|
      invariant 0 <= i <= |template|
      invariant RenderAll(template[..i], loc, provider, settings, host, server) == Outcome(chunks, server', true)
    {
      assert template[..i + 1][..i] == template[..i];
      var output;
      output, server', ok := RenderOne(template[i], loc, provider, settings, host, server');
      if !ok {
        RenderFailureStays(template, loc, provider, settings, host, server, i + 1);
        return;
      }
      if output != "" {
        chunks := chunks + [output];
      }
      i := i + 1;
    }
    assert template[..i] == template;
    ok := true;
  }

  lemma {:induction false} RenderFailureStays(lines: seq<string>, loc: Location, provider: string, settings: Settings,
                                              host: Host, server: Option<string>, n: nat)
    requires 0 < n <= |lines| && !RenderAll(lines[..n], loc, provider, settings, host, server).ok
    ensures RenderAll(lines, loc, provider, settings, host, server) == RenderAll(lines[..n], loc, provider, settings, host, server)
    decreases |lines| - n
  {
    if n < |lines| {
      assert lines[..n + 1][..n] == lines[..n];
      RenderFailureStays(lines, loc, provider, settings, host, server, n + 1);
    } else {
      assert lines[..n] == lines;
    }
  }

  /** Flag-tag resolution, as for `#REMOVE`: a line without the tag is
      kept; a line whose first tag ends it raises; a line whose first tag
      carries a listed flag is dropped; otherwise every occurrence of the
      tag followed by that same flag character is deleted. */
  lemma FlagResolution(s: string, tag: string, flags: string)
    requires tag != []
    ensures !Contains(s, tag) ==> ResolveFlag(s, tag, flags) == Some(s)
    ensures Contains(s, tag) ==>
      var i := IndexOf(s, tag);
      (ResolveFlag(s, tag, flags).None? <==> i + |tag| == |s|) &&
      (i + |tag| < |s| && s[i + |tag|] in flags ==> ResolveFlag(s, tag, flags) == Some("")) &&
      (i + |tag| < |s| && s[i + |tag|] !in flags ==>
         ResolveFlag(s, tag, flags) == Some(ReplaceAll(s, tag + [s[i + |tag|]], "")))
  {
  }

  /** The later replacements leave an empty line empty. */
  lemma {:induction false} ReplaceFromEmpty(k: nat, loc: Location, provider: string, host: Host)
    requires k <= ReplacementCount && loc.servers != []
    ensures ReplaceFrom("", k, loc, provider, host) == ""
    decreases ReplacementCount - k
  {
    if k < ReplacementCount {
      ReplaceFromEmpty(k + 1, loc, provider, host);
    }
  }

  /** A text with no '#' holds no tag. */
  lemma {:induction false} NoHashNoTag(s: string, tag: string)
    requires tag != [] && tag[0] == '#' && '#' !in s
    ensures !Contains(s, tag)
    decreases |s|
  {
    if s != [] {
      NoHashNoTag(s[1..], tag);
      if |tag| <= |s| {
        assert s[..|tag|][0] == s[0];
      }
    }
  }

  /** A text with '#' only at its start holds a tag only as a prefix. */
  lemma FirstHashOnly(x: string, tag: string)
    requires tag != [] && tag[0] == '#' && x != [] && '#' !in x[1..] && !StartsWith(x, tag)
    ensures !Contains(x, tag)
  {
    NoHashNoTag(x[1..], tag);
  }

  /** The later replacements touch only tagged text: a text with no '#'
      comes through unchanged. */
  lemma {:induction false} ReplaceFromNoHash(s: string, k: nat, loc: Location, provider: string, host: Host)
    requires k <= ReplacementCount && loc.servers != [] && '#' !in s
    ensures ReplaceFrom(s, k, loc, provider, host) == s
    decreases ReplacementCount - k
  {
    if k < ReplacementCount {
      var (tag, value) := Replacement(k, loc, provider, host);
      NoHashNoTag(s, tag);
      ReplaceAllNoOccurrence(s, tag, value);
      ReplaceFromNoHash(s, k + 1, loc, provider, host);
    }
  }

  /** The later replacements keep a prefix that holds no '#' as it is. */
  lemma {:induction false} ReplaceFromKeepsPrefix(a: string, b: string, k: nat, loc: Location, provider: string,
                                                  host: Host)
    requires k <= ReplacementCount && loc.servers != [] && '#' !in a
    ensures ReplaceFrom(a + b, k, loc, provider, host) == a + ReplaceFrom(b, k, loc, provider, host)
    decreases ReplacementCount - k
  {
    if k < ReplacementCount {
      var (tag, value) := Replacement(k, loc, provider, host);
      var rest := ReplaceAll(b, tag, value);
      ReplaceAllKeepsPrefix(a, b, tag, value);
      ReplaceFromKeepsPrefix(a, rest, k + 1, loc, provider, host);
      calc {
        ReplaceFrom(a + b, k, loc, provider, host);
        ReplaceFrom(a + rest, k + 1, loc, provider, host);
        a + ReplaceFrom(rest, k + 1, loc, provider, host);
      }
    }
  }

  /** The ten replacements before `#USER1` leave a text that is `#USER1`
      followed by text with no '#' alone. */
  lemma {:induction false} User1Reached(b: string, k: nat, loc: Location, provider: string, host: Host)
    requires k <= 10 && loc.servers != [] && '#' !in b
    ensures ReplaceFrom("#USER1" + b, k, loc, provider, host) == ReplaceFrom("#USER1" + b, 10, loc, provider, host)
    decreases 10 - k
  {
    if k < 10 {
      var x := "#USER1" + b;
      var (tag, value) := Replacement(k, loc, provider, host);
      assert x[1..] == "USER1" + b;
      if k == 7 || k == 8 {
        NotStartsWithAt(x, tag, 5);
      } else {
        NotStartsWithAt(x, tag, 1);
      }
      FirstHashOnly(x, tag);
      ReplaceAllNoOccurrence(x, tag, value);
      User1Reached(b, k + 1, loc, provider, host);
    }
  }

  /** A line holding one `#USER1` and no other '#' gets the location's
      user1 value in its place, and nothing else changes, when that value
      holds no '#' either. */
  lemma User1Filled(a: string, b: string, loc: Location, provider: string, host: Host)
    requires loc.servers != [] && '#' !in a && '#' !in b && '#' !in loc.mods.user1
    ensures ReplaceFrom(a + "#USER1" + b, 0, loc, provider, host) == a + loc.mods.user1 + b
  {
    var x := "#USER1" + b;
    var v := loc.mods.user1;
    assert a + "#USER1" + b == a + x;
    ReplaceFromKeepsPrefix(a, x, 0, loc, provider, host);
    User1Reached(b, 0, loc, provider, host);
    assert x[..6] == "#USER1" && x[6..] == b;
    assert ReplaceAll(x, "#USER1", v) == v + ReplaceAll(b, "#USER1", v);
    NoHashNoTag(b, "#USER1");
    ReplaceAllNoOccurrence(b, "#USER1", v);
    ReplaceFromNoHash(v + b, 11, loc, provider, host);
  }

  /** A template line with no '#' that is neither a `remote ` nor a `verb `
      line, and not an explicit-exit-notify line under tcp, is written as
      read, stripped, and leaves translate_server alone. */
  lemma PlainLineKept(raw: string, loc: Location, provider: string, settings: Settings, host: Host,
                      server: Option<string>)
    requires loc.servers != []
    requires var s := Strip(raw, LineJunk);
      '#' !in s && !StartsWith(s, "remote ") && !StartsWith(s, "verb ")
    requires !(Contains(raw, "explicit-exit-notify") && loc.proto == "tcp")
    ensures RenderLine(raw, loc, provider, settings, host, server) == Some(Rendered(Strip(raw, LineJunk), server))
  {
    var s := Strip(raw, LineJunk);
    NoHashNoTag(s, "#REMOVE");
    NoHashNoTag(s, "#PROTO");
    ReplaceAllNoOccurrence(s, "#PROTO", loc.proto);
    NoHashNoTag(s, "#SERVPROT");
    ReplaceAllNoOccurrence(s, "#SERVPROT", ServProt(loc.proto));
    assert Prepare(raw, loc) == Some(s);
    ReplaceFromNoHash(s, 0, loc, provider, host);
  }

  /** Where the first `#REMOVE` of a stripped template line sits, and the
      flag character after it when there is one. */
  predicate RemoveTagged(raw: string) {
    Contains(Strip(raw, LineJunk), "#REMOVE")
  }

  function RemoveAt(raw: string): int {
    IndexOf(Strip(raw, LineJunk), "#REMOVE")
  }

  /** A template line whose first `#REMOVE` carries a flag the location
      lists renders to nothing, leaves translate_server alone, and so adds
      nothing to the profile. */
  lemma RemoveListedWritesNothing(lines: seq<string>, raw: string, loc: Location, provider: string,
                                  settings: Settings, host: Host, server: Option<string>)
    requires loc.servers != [] && RemoveTagged(raw)
    requires var s := Strip(raw, LineJunk);
      RemoveAt(raw) + 7 < |s| && s[RemoveAt(raw) + 7] in loc.mods.removeFlags
    requires RenderAll(lines, loc, provider, settings, host, server).ok
    ensures var before := RenderAll(lines, loc, provider, settings, host, server);
      RenderLine(raw, loc, provider, settings, host, before.server) == Some(Rendered("", before.server))
    ensures RenderAll(lines + [raw], loc, provider, settings, host, server) ==
            RenderAll(lines, loc, provider, settings, host, server)
  {
    var before := RenderAll(lines, loc, provider, settings, host, server);
    assert ResolveRemove(Strip(raw, LineJunk), loc.mods.removeFlags) == Some("");
    assert Prepare(raw, loc) == Some("");
    ReplaceFromEmpty(0, loc, provider, host);
    assert Expand("", loc, provider, host, before.server) == Some(("", before.server));
    assert RenderLine(raw, loc, provider, settings, host, before.server) == Some(Rendered("", before.server));
    assert (lines + [raw])[..|lines|] == lines;
  }

  /** A template line whose first `#REMOVE` ends it raises. */
  lemma RemoveAtEndRaises(raw: string, loc: Location, provider: string, settings: Settings, host: Host,
                          server: Option<string>)
    requires RemoveTagged(raw) && RemoveAt(raw) + 7 == |Strip(raw, LineJunk)|
    ensures RenderLine(raw, loc, provider, settings, host, server).None?
  {
  }

  /** A template line whose first `#REMOVE` carries a flag the location does
      not list goes on with the text before that tag kept and every
      occurrence of the tag with that flag deleted from the rest; then
      `#PROTO` and `#SERVPROT` are filled in. */
  lemma RemoveUnlistedKeepsLine(raw: string, loc: Location)
    requires RemoveTagged(raw)
    requires var s := Strip(raw, LineJunk);
      RemoveAt(raw) + 7 < |s| && s[RemoveAt(raw) + 7] !in loc.mods.removeFlags
    ensures var s := Strip(raw, LineJunk);
      var i := RemoveAt(raw);
      var kept := s[..i] + ReplaceAll(s[i + 8..], "#REMOVE" + [s[i + 7]], "");
      Prepare(raw, loc) == Some(ReplaceAll(ReplaceAll(kept, "#PROTO", loc.proto), "#SERVPROT", ServProt(loc.proto)))
  {
    var s := Strip(raw, LineJunk);
    FlagResolution(s, "#REMOVE", loc.mods.removeFlags);
    DeleteFirst(s, "#REMOVE", RemoveAt(raw));
  }

  /** Every line that comes out starting with `verb ` is the configured
      verbosity line. */
  lemma VerbLinesUseSetting(raw: string, loc: Location, provider: string, settings: Settings, host: Host,
                            server: Option<string>)
    ensures var r := RenderLine(raw, loc, provider, settings, host, server);
      r.Some? && StartsWith(r.value.text, "verb ") ==> r.value.text == "verb " + VerbValue(settings)
  {
    var prepared := Prepare(raw, loc);
    if prepared.Some? {
      var expanded := Expand(prepared.value, loc, provider, host, server);
      if expanded.Some? {
        FinishVerb(raw, expanded.value.0, loc.proto, VerbValue(settings));
      }
    }
  }

  lemma FinishVerb(raw: string, s: string, proto: string, verb: string)
    ensures StartsWith(Finish(raw, s, proto, verb), "verb ") ==> Finish(raw, s, proto, verb) == "verb " + verb
  {
  }

  /** Under tcp, a template line mentioning explicit-exit-notify writes
      nothing. */
  lemma TcpDropsExitNotify(raw: string, loc: Location, provider: string, settings: Settings, host: Host,
                           server: Option<string>)
    requires loc.proto == "tcp" && Contains(raw, "explicit-exit-notify")
    ensures var r := RenderLine(raw, loc, provider, settings, host, server);
      r.Some? ==> r.value.text == ""
  {
  }

  /** A location without servers makes every template line raise. */
  lemma NoServerRaises(raw: string, loc: Location, provider: string, settings: Settings, host: Host,
                       server: Option<string>)
    requires loc.servers == []
    ensures RenderLine(raw, loc, provider, settings, host, server).None?
  {
  }

  /** No empty chunk, and no `verb` chunk other than the configured one. */
  predicate Clean(chunks: seq<string>, verb: string) {
    forall j :: 0 <= j < |chunks| ==> chunks[j] != "" && (StartsWith(chunks[j], "verb ") ==> chunks[j] == "verb " + verb)
  }

  lemma CleanAppend(chunks: seq<string>, t: string, verb: string)
    requires Clean(chunks, verb) && (StartsWith(t, "verb ") ==> t == "verb " + verb)
    ensures Clean(if t == "" then chunks else chunks + [t], verb)
  {
  }

  /** The profile written for a location holds no empty line and no `verb`
      line other than the configured one. */
  lemma {:induction false} ChunksClean(lines: seq<string>, loc: Location, provider: string, settings: Settings,
                                       host: Host, server: Option<string>)
    ensures Clean(RenderAll(lines, loc, provider, settings, host, server).chunks, VerbValue(settings))
    decreases |lines|
  {
    if lines != [] {
      var init := lines[..|lines| - 1];
      ChunksClean(init, loc, provider, settings, host, server);
      var prev := RenderAll(init, loc, provider, settings, host, server);
      if prev.ok {
        var r := RenderLine(lines[|lines| - 1], loc, provider, settings, host, prev.server);
        if r.Some? {
          VerbLinesUseSetting(lines[|lines| - 1], loc, provider, settings, host, prev.server);
          CleanAppend(prev.chunks, r.value.text, VerbValue(settings));
        }
      }
    }
  }

  /** Whether a template line becomes a `remote ` line for the location,
      the line the fan-out works on. */
  predicate IsRemote(raw: string, loc: Location) {
    var prepared := Prepare(raw, loc);
    prepared.Some? && StartsWith(prepared.value, "remote ")
  }

  /** What one line does to translate_server: a `remote ` line sets it to
      the location's server summary, any other line leaves it alone. */
  lemma RenderLineServer(raw: string, loc: Location, provider: string, settings: Settings, host: Host,
                         server: Option<string>)
    requires RenderLine(raw, loc, provider, settings, host, server).Some?
    ensures loc.servers != []
    ensures RenderLine(raw, loc, provider, settings, host, server).value.server ==
            if IsRemote(raw, loc) then Some(Summary(loc.servers)) else server
  {
  }

  /** After a successful template loop, translate_server names the
      location's servers when the template has a `remote ` line for it, and
      is still the value from before otherwise. */
  lemma {:induction false} ServerAfterRender(lines: seq<string>, loc: Location, provider: string, settings: Settings,
                                             host: Host, server: Option<string>)
    requires RenderAll(lines, loc, provider, settings, host, server).ok
    ensures Any(lines, raw => IsRemote(raw, loc)) ==>
      loc.servers != [] && RenderAll(lines, loc, provider, settings, host, server).server == Some(Summary(loc.servers))
    ensures !Any(lines, raw => IsRemote(raw, loc)) ==>
      RenderAll(lines, loc, provider, settings, host, server).server == server
    decreases |lines|
  {
    if lines != [] {
      var init := lines[..|lines| - 1];
      var prev := RenderAll(init, loc, provider, settings, host, server);
      assert prev.ok;
      ServerAfterRender(init, loc, provider, settings, host, server);
      RenderLineServer(lines[|lines| - 1], loc, provider, settings, host, prev.server);
      AnySnoc(lines, raw => IsRemote(raw, loc));
    }
  }
}
