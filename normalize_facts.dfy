/** What updateVPNFiles writes, stated over the profiles it reads rather
    than over the state of its loops. */
module NormalizeFacts {
  import opened Strings
  import opened Config
  import opened Modifiers
  import opened Normalize

  /** A profile that is processed to the end is the rewrite of each of its
      lines followed by the appended lines; one that raises holds the
      rewrites of the lines before the `remote ` line that lacked the host
      it needed. */
  lemma FileOutput(lines: seq<string>, name: string, c: Context, settings: Settings, host: Host)
    ensures var r := FileWith(lines, name, c, settings, host);
      r.ok ==> r.out == Rewritten(lines, c) +
                        Tail(FoundIn(Rewritten(lines, c)), FileProto(lines, ScanAll(lines, c)), settings, host)
    ensures var r := FileWith(lines, name, c, settings, host);
      !r.ok ==> |r.out| < |lines| && r.out == Rewritten(lines[..|r.out|], c) &&
                IsRemote(lines[|r.out|]) && |Split(Stripped(lines[|r.out|]))| < 2
  {
    var s := ScanAll(lines, c);
    ScanWrites(lines, c);
    ScanLength(lines, c);
    if s.ok {
      assert lines[..|s.out|] == lines;
    } else {
      ScanStops(lines, c);
    }
  }

  /** After a completed profile, the settings' lines are all there: the
      keepalive lines when pings are forced, the script lines (or lines to
      the same effect already present) when the up/down script is on, and
      the DNS block on Windows when it is asked for. */
  lemma FileCompleted(lines: seq<string>, name: string, c: Context, settings: Settings, host: Host)
    ensures var r := FileWith(lines, name, c, settings, host);
      r.ok && settings.forcePing == "true" ==> Any(r.out, PingLine)
    ensures var r := FileWith(lines, name, c, settings, host);
      r.ok && settings.upDownScript == "true" ==>
        Any(r.out, ScriptLine) && (Any(r.out, UpLine) || host.upParam in r.out) &&
        (Any(r.out, DownLine) || host.downParam in r.out)
    ensures var r := FileWith(lines, name, c, settings, host);
      r.ok && host.windows && settings.blockOutsideDns == "true" ==> Any(r.out, BlockLine)
  {
    FileOutput(lines, name, c, settings, host);
    var w, proto := Rewritten(lines, c), FileProto(lines, ScanAll(lines, c));
    TailPings(w, proto, settings, host);
    TailScripts(w, proto, settings, host);
    TailBlock(w, proto, settings, host);
  }
  /** Whatever was written, appending the tail supplies the keepalive
      lines when pings are forced, ... */
  lemma TailPings(w: seq<string>, proto: string, settings: Settings, host: Host)
    ensures settings.forcePing == "true" ==> Any(w + Tail(FoundIn(w), proto, settings, host), PingLine)
  {
    var f := FoundIn(w);
    var block, script, ping := BlockTail(f, settings, host), ScriptTail(f, settings, host), PingTail(f, proto, settings);
    assert Tail(f, proto, settings, host) == block + script + ping;
    TailPieces(w, block, script, ping, PingLine);
    if settings.forcePing == "true" && !f.ping {
      assert PingLine(ping[0]);
    }
  }

  /** ... the script lines, or lines to the same effect, when the up/down
      script is on, ... */
  lemma TailScripts(w: seq<string>, proto: string, settings: Settings, host: Host)
    ensures var out := w + Tail(FoundIn(w), proto, settings, host);
      settings.upDownScript == "true" ==>
        Any(out, ScriptLine) && (Any(out, UpLine) || host.upParam in out) &&
        (Any(out, DownLine) || host.downParam in out)
  {
    var f := FoundIn(w);
    var block, script, ping := BlockTail(f, settings, host), ScriptTail(f, settings, host), PingTail(f, proto, settings);
    assert Tail(f, proto, settings, host) == block + script + ping;
    TailPieces(w, block, script, ping, ScriptLine);
    TailPieces(w, block, script, ping, UpLine);
    TailPieces(w, block, script, ping, DownLine);
    if settings.upDownScript == "true" {
      ScriptTailProvides(f, settings, host);
    }
  }

  /** ... and the DNS block on Windows when it is asked for. */
  lemma TailBlock(w: seq<string>, proto: string, settings: Settings, host: Host)
    ensures host.windows && settings.blockOutsideDns == "true" ==>
      Any(w + Tail(FoundIn(w), proto, settings, host), BlockLine)
  {
    var f := FoundIn(w);
    var block, script, ping := BlockTail(f, settings, host), ScriptTail(f, settings, host), PingTail(f, proto, settings);
    assert Tail(f, proto, settings, host) == block + script + ping;
    TailPieces(w, block, script, ping, BlockLine);
    if host.windows && settings.blockOutsideDns == "true" && !f.block {
      assert BlockLine(block[0]);
    }
  }

  lemma ScriptTailProvides(f: Found, settings: Settings, host: Host)
    requires settings.upDownScript == "true"
    ensures f.script || Any(ScriptTail(f, settings, host), ScriptLine)
    ensures f.up || host.upParam in ScriptTail(f, settings, host)
    ensures f.down || host.downParam in ScriptTail(f, settings, host)
  {
    var script := ScriptTail(f, settings, host);
    if !f.script {
      assert ScriptLine(script[0]);
    }
  }

  /** A line of `w + block + script + ping` with property `p` is in one of
      the four pieces. */
  lemma TailPieces(w: seq<string>, block: seq<string>, script: seq<string>, ping: seq<string>, p: string -> bool)
    ensures Any(w + (block + script + ping), p) <==> Any(w, p) || Any(block, p) || Any(script, p) || Any(ping, p)
    ensures forall x :: x in script ==> x in w + (block + script + ping)
  {
    AnyConcat(w, block + script + ping, p);
    AnyConcat(block + script, ping, p);
    AnyConcat(block, script, p);
  }

  /** The keepalive triplet is appended, as the last three lines, exactly
      when pings are forced and no written line starts with "ping"; its
      values follow the profile's protocol. */
  lemma PingAppended(lines: seq<string>, name: string, c: Context, settings: Settings, host: Host)
    ensures var r := FileWith(lines, name, c, settings, host);
      var proto := FileProto(lines, ScanAll(lines, c));
      r.ok && settings.forcePing == "true" && !Any(Rewritten(lines, c), PingLine) ==>
        |r.out| >= 3 && r.out[|r.out| - 3..] == PingLines(proto)
    ensures var r := FileWith(lines, name, c, settings, host);
      var f := FoundIn(Rewritten(lines, c));
      r.ok && (settings.forcePing != "true" || f.ping) ==>
        r.out == Rewritten(lines, c) + BlockTail(f, settings, host) + ScriptTail(f, settings, host)
  {
    FileOutput(lines, name, c, settings, host);
    TailPing(Rewritten(lines, c), FileProto(lines, ScanAll(lines, c)), settings, host);
  }

  /** The ping lines close the tail when they are appended, and are absent
      from it otherwise. */
  lemma TailPing(w: seq<string>, proto: string, settings: Settings, host: Host)
    ensures var f := FoundIn(w);
      var out := w + Tail(f, proto, settings, host);
      settings.forcePing == "true" && !Any(w, PingLine) ==>
        |out| >= 3 && out[|out| - 3..] == PingLines(proto) &&
        out[|out| - 3] == (if proto == "tcp" then "ping 10" else "ping 5") &&
        out[|out| - 2] == (if proto == "tcp" then "ping-exit 60" else "ping-exit 30") &&
        out[|out| - 1] == "ping-timer-rem"
    ensures var f := FoundIn(w);
      var out := w + Tail(f, proto, settings, host);
      settings.forcePing != "true" || f.ping ==>
        out == w + BlockTail(f, settings, host) + ScriptTail(f, settings, host)
  {
    var f := FoundIn(w);
    var head := w + BlockTail(f, settings, host) + ScriptTail(f, settings, host);
    var ping := PingTail(f, proto, settings);
    assert w + Tail(f, proto, settings, host) == head + ping;
    if ping == [] {
      assert head + ping == head;
    }
  }

  /** The protocol of a completed profile is tcp exactly when it has a
      `remote ` line and its first raw line that names a protocol names tcp
      (tcp is looked for first on that line); it is udp otherwise. */
  lemma FileProtoFrom(lines: seq<string>, c: Context)
    ensures var s := ScanAll(lines, c);
      s.ok ==> (FileProto(lines, s) == "tcp" || FileProto(lines, s) == "udp")
    ensures var s := ScanAll(lines, c);
      s.ok ==> (FileProto(lines, s) == "tcp" <==>
        RemoteCount(lines) > 0 && exists k :: FirstNaming(lines, k) && Contains(lines[k], "tcp"))
  {
    ScanServers(lines, c);
    FirstTcp(lines);
    FirstProtoValue(lines);
  }

  /** Line `k` is the first raw line that names a protocol. */
  predicate FirstNaming(lines: seq<string>, k: int) {
    0 <= k < |lines| && NamesProto(lines[k]) && forall j :: 0 <= j < k ==> !NamesProto(lines[j])
  }

  /** The rescan answers tcp exactly when the first line naming a protocol
      mentions tcp. */
  lemma FirstTcp(lines: seq<string>)
    ensures FirstProto(lines) == Some("tcp") <==> exists k :: FirstNaming(lines, k) && Contains(lines[k], "tcp")
  {
    FirstProtoLine(lines);
    if k :| FirstNaming(lines, k) && Contains(lines[k], "tcp") {
      assert Any(lines, NamesProto) by {
        assert NamesProto(lines[k]);
      }
      var k0 :| 0 <= k0 < |lines| && NamesProto(lines[k0]) &&
        (forall j :: 0 <= j < k0 ==> !NamesProto(lines[j])) &&
        FirstProto(lines).value == if Contains(lines[k0], "tcp") then "tcp" else "udp";
      assert !(k0 < k) && !(k < k0);
    }
    if FirstProto(lines) == Some("tcp") {
      var k0 :| 0 <= k0 < |lines| && NamesProto(lines[k0]) &&
        (forall j :: 0 <= j < k0 ==> !NamesProto(lines[j])) &&
        FirstProto(lines).value == if Contains(lines[k0], "tcp") then "tcp" else "udp";
      assert FirstNaming(lines, k0);
    }
  }

  lemma {:induction false} FirstProtoValue(lines: seq<string>)
    ensures FirstProto(lines) == None || FirstProto(lines) == Some("tcp") || FirstProto(lines) == Some("udp")
    decreases |lines|
  {
    if lines != [] {
      FirstProtoValue(lines[1..]);
    }
  }

  /** The TRANSLATE line of a completed profile: its name, the host of its
      first `remote ` line, how many more `remote ` lines it has, and its
      protocol in capitals. */
  lemma TranslateLine(lines: seq<string>, name: string, c: Context, settings: Settings, host: Host)
    ensures var r := FileWith(lines, name, c, settings, host);
      var n := RemoteCount(lines);
      r.ok ==> (r.translated ==
        name + "," + (if FirstRemote(lines).Some? then SecondToken(FirstRemote(lines).value) else "") +
        (if n > 1 then " & " + NatToString(n - 1) + " more" else "") +
        " (" + Upper(FileProto(lines, ScanAll(lines, c))) + ")")
  {
    ScanServers(lines, c);
  }

  /** The profile loop writes every profile it reaches as that profile's
      result says, in order. */
  lemma {:induction false} CollectProfiles(connections: seq<Connection>, results: seq<FileResult>)
    requires |results| == |connections|
    ensures var u := Collect(connections, results);
      |u.profiles| <= |connections| && ProfilesAgree(u.profiles, connections, results)
    decreases |connections|
  {
    if connections != [] {
      var n := |connections| - 1;
      CollectProfiles(connections[..n], results[..n]);
      var prev := Collect(connections[..n], results[..n]);
      AgreeOnPrefix(prev.profiles, connections, results, n);
      if prev.ok {
        CollectCompletes(connections[..n], results[..n]);
        AgreeGrows(prev.profiles, connections, results);
      }
    }
  }

  /** Each written profile is the one its position's result says. */
  predicate ProfilesAgree(profiles: seq<Profile>, connections: seq<Connection>, results: seq<FileResult>)
    requires |profiles| <= |connections| == |results|
  {
    forall i :: 0 <= i < |profiles| ==> profiles[i] == Profile(connections[i].path, results[i].out)
  }

  lemma AgreeOnPrefix(profiles: seq<Profile>, connections: seq<Connection>, results: seq<FileResult>, n: nat)
    requires |profiles| <= n <= |connections| == |results|
    requires ProfilesAgree(profiles, connections[..n], results[..n])
    ensures ProfilesAgree(profiles, connections, results)
  {
    forall i | 0 <= i < |profiles|
      ensures profiles[i] == Profile(connections[i].path, results[i].out)
    {
      assert connections[..n][i] == connections[i] && results[..n][i] == results[i];
    }
  }

  lemma AgreeGrows(profiles: seq<Profile>, connections: seq<Connection>, results: seq<FileResult>)
    requires |profiles| + 1 == |connections| == |results|
    requires ProfilesAgree(profiles, connections, results)
    ensures var n := |profiles|;
      ProfilesAgree(profiles + [Profile(connections[n].path, results[n].out)], connections, results)
  {
  }

  /** The profile loop completes exactly when every profile does, and then
      there is one TRANSLATE line per profile, in order. */
  lemma {:induction false} CollectCompletes(connections: seq<Connection>, results: seq<FileResult>)
    requires |results| == |connections|
    ensures var u := Collect(connections, results);
      u.ok <==> forall i :: 0 <= i < |results| ==> results[i].ok
    ensures var u := Collect(connections, results);
      u.ok ==> |u.profiles| == |connections| && |u.translate| == |connections| &&
               forall i :: 0 <= i < |u.translate| ==> u.translate[i] == results[i].translated
    decreases |connections|
  {
    if connections != [] {
      var n := |connections| - 1;
      CollectCompletes(connections[..n], results[..n]);
      var prev := Collect(connections[..n], results[..n]);
      assert forall i :: 0 <= i < n ==> results[..n][i] == results[i];
      if prev.ok && results[n].ok {
        var u := Record(prev, connections[n], results[n]);
        assert forall i :: 0 <= i < n ==> u.translate[i] == prev.translate[i];
      }
    }
  }

  /** When the profile loop stops, the last profile written is the one that
      raised, and every profile before it completed and has its TRANSLATE
      line. */
  lemma {:induction false} CollectStops(connections: seq<Connection>, results: seq<FileResult>)
    requires |results| == |connections|
    ensures var u := Collect(connections, results);
      !u.ok ==> (0 < |u.profiles| <= |connections| && |u.translate| == |u.profiles| - 1 &&
                 !results[|u.profiles| - 1].ok &&
                 forall i :: 0 <= i < |u.translate| ==> results[i].ok && u.translate[i] == results[i].translated)
    decreases |connections|
  {
    if connections != [] {
      var n := |connections| - 1;
      var prev := Collect(connections[..n], results[..n]);
      if prev.ok {
        CollectCompletes(connections[..n], results[..n]);
        assert forall i :: 0 <= i < n ==> results[..n][i] == results[i];
      } else {
        CollectStops(connections[..n], results[..n]);
        assert forall i :: 0 <= i < |prev.profiles| ==> results[..n][i] == results[i];
      }
    }
  }

  /** Each result is the rewrite of the profile at that position. */
  lemma ResultsAt(connections: seq<Connection>, provider: string, settings: Settings, host: Host, i: nat)
    requires i < |connections|
    ensures |Results(connections, provider, settings, host)| == |connections|
    ensures Results(connections, provider, settings, host)[i] == NormalizeFile(connections[i], provider, settings, host)
  {
  }
}
