/** generateOVPNFiles (libs/vpnproviders.py): one profile per line of the
    provider's LOCATIONS file, each the template with that location's values
    filled in, plus the TRANSLATE file that maps each profile to its servers.

    Reading a file is a parameter: `files(path)` is the list of lines
    (each with its line terminator) that the file at `path` holds, or None
    when it cannot be opened. A written file is the sequence of its chunks,
    each one `write` call without its final newline. */
module Generate {
  import opened Strings
  import opened Config
  import opened Modifiers
  import opened Locations
  import opened Render

  /** The lines the settings add at the end of the template. */
  function Additions(provider: string, settings: Settings, host: Host): seq<string> {
    (if host.windows && settings.blockOutsideDns == "true" then ["block-outside-dns"] else []) +
    (if settings.forcePing == "true" then ["ping #PINGSPEED", "ping-exit #PINGEXIT", "ping-timer-rem"] else []) +
    (if settings.upDownScript == "true" then ["script-security 2", host.upParam, host.downParam] else [])
  }

  /** The template as the location loop uses it. */
  function Augment(template: seq<string>, provider: string, settings: Settings, host: Host): (r: seq<string>)
    ensures |r| == |template| + (if host.windows && settings.blockOutsideDns == "true" then 1 else 0) +
                   (if settings.forcePing == "true" then 3 else 0) + (if settings.upDownScript == "true" then 3 else 0)
    ensures r[..|template|] == template
    ensures host.windows && settings.blockOutsideDns == "true" ==> r[|template|] == "block-outside-dns"
    ensures var at := |template| + (if host.windows && settings.blockOutsideDns == "true" then 1 else 0);
      settings.forcePing == "true" ==>
        at + 3 <= |r| && r[at..at + 3] == ["ping #PINGSPEED", "ping-exit #PINGEXIT", "ping-timer-rem"]
    ensures settings.upDownScript == "true" ==>
      r[|r| - 3..] == ["script-security 2", host.upParam, host.downParam]
  {
    var extra := Additions(provider, settings, host);
    assert (template + extra)[..|template|] == template;
    assert (template + extra)[|template|..] == extra;
    template + extra
  }

  /** Where the locations are read from: the provider's LOCATIONS.txt, the
      one in the user's data for the list named "User", or the alternative
      list named `alternative`. */
  function LocationsFile(provider: string, alternative: string, host: Host): string {
    if alternative == "" then host.addonFile(provider + "/LOCATIONS.txt")
    else if alternative == "User" then host.userDataFile(provider + "/LOCATIONS.txt")
    else host.addonFile(provider + "/LOCATIONS " + alternative + ".txt")
  }

  function TemplateFile(provider: string, host: Host): string {
    host.addonFile(provider + "/TEMPLATE.txt")
  }

  /** Where the profile of the location `geo` is written. */
  function ProfileFile(provider: string, geo: string, host: Host): string {
    host.addonFile(provider + "/" + geo + ".ovpn")
  }

  /** The TRANSLATE line of a location: its name, the server summary, and
      the protocol in capitals. */
  function TranslateLine(geo: string, server: string, proto: string): (r: string)
    ensures StartsWith(r, geo + ",") && EndsWith(r, " (" + Upper(proto) + ")")
  {
    var head := geo + ",";
    var tail := " (" + Upper(proto) + ")";
    assert (head + server + tail)[..|head|] == head;
    assert (head + server + tail)[|head + server|..] == tail;
    head + server + tail
  }

  datatype Profile = Profile(path: string, chunks: seq<string>)

  /** The state of the location loop: the profiles written so far (the last
      one may be partial), the TRANSLATE lines, translate_server, and
      whether no exception was raised. */
  datatype Generation = Generation(profiles: seq<Profile>, translate: seq<string>, server: Option<string>, ok: bool)

  /** The location loop over `locations`, as a fold. */
  function GenerateAll(template: seq<string>, locations: seq<string>, provider: string, settings: Settings,
                       host: Host): Generation
    decreases |locations|
  {
    if locations == [] then Generation([], [], None, true)
    else
      var prev := GenerateAll(template, locations[..|locations| - 1], provider, settings, host);
      if !prev.ok then prev else LocationStep(template, locations[|locations| - 1], provider, settings, host, prev)
  }

  /** One location. A line that does not parse stops the loop before its
      profile is opened; a template line that raises stops it with the
      profile written up to that line; a location reached while
      translate_server was never set stops it when its TRANSLATE line is
      written. */
  function LocationStep(template: seq<string>, line: string, provider: string, settings: Settings, host: Host,
                        prev: Generation): Generation
  {
    var loc := ParseLocation(provider, line, settings, host);
    if loc.None? then prev.(ok := false)
    else
      var out := RenderAll(template, loc.value, provider, settings, host, prev.server);
      var profiles := prev.profiles + [Profile(ProfileFile(provider, loc.value.geo, host), out.chunks)];
      if !out.ok || out.server.None? then Generation(profiles, prev.translate, prev.server, false)
      else
        Generation(profiles, prev.translate + [TranslateLine(loc.value.geo, out.server.value, loc.value.proto)],
                   out.server, true)
  }

  /** What one run leaves behind: whether TRANSLATE.txt was opened (and so
      emptied), the profiles and TRANSLATE lines written, and the result;
      the GENERATED flag file is written exactly when the result is true. */
  datatype Output = Output(translateOpened: bool, profiles: seq<Profile>, translate: seq<string>, ok: bool)

  function Generate(provider: string, alternative: string, settings: Settings, host: Host,
                    files: string -> Option<seq<string>>): (r: Output)
    ensures files(TemplateFile(provider, host)).None? ==> r == Output(false, [], [], false)
    ensures files(TemplateFile(provider, host)).Some? && files(LocationsFile(provider, alternative, host)).None? ==>
              r == Output(true, [], [], false)
  {
    var template := files(TemplateFile(provider, host));
    if template.None? then Output(false, [], [], false)
    else
      var locations := files(LocationsFile(provider, alternative, host));
      if locations.None? then Output(true, [], [], false)
      else
        var g := GenerateAll(Augment(template.value, provider, settings, host), locations.value, provider, settings, host);
        Output(true, g.profiles, g.translate, g.ok)
  }

  /** generateOVPNFiles. */
  method GenerateOVPNFiles(provider: string, alternative: string, settings: Settings, host: Host,
                           files: string -> Option<seq<string>>)
    returns (out: Output)
    ensures out == Generate(provider, alternative, settings, host, files)
  {
    var loaded := files(TemplateFile(provider, host));
    if loaded.None? {
      return Output(false, [], [], false);
    }
    var template := loaded.value;
    // TRANSLATE.txt is opened (and emptied) here.
    template := template + Additions(provider, settings, host);
    var read := files(LocationsFile(provider, alternative, host));
    if read.None? {
      return Output(true, [], [], false);
    }
    var locations := read.value;
    var g := LocationLoop(template, locations, provider, settings, host);
    out := Output(true, g.profiles, g.translate, g.ok);
  }

  /** The location loop of generateOVPNFiles. */
  method LocationLoop(template: seq<string>, locations: seq<string>, provider: string, settings: Settings, host: Host)
    returns (g: Generation)
    ensures g == GenerateAll(template, locations, provider, settings, host)
  {
    g := Generation([], [], None, true);
    var i := 0;
    assert locations[..0] == [];
    while i < |locations|
      invariant 0 <= i <= |locations|
      invariant GenerateAll(template, locations[..i], provider, settings, host) == g && g.ok
    {
      assert locations[..i + 1][..i] == locations[..i];
      g := ProcessLocation(template, locations[i], provider, settings, host, g);
      if !g.ok {
        GenerateFailureStays(template, locations, provider, settings, host, i + 1);
        return;
      }
      i := i + 1;
    }
    assert locations[..i] == locations;
  }

  /** The body of the location loop for one line of the LOCATIONS file. */
  method ProcessLocation(template: seq<string>, line: string, provider: string, settings: Settings, host: Host,
                         prev: Generation)
    returns (next: Generation)
    ensures next == LocationStep(template, line, provider, settings, host, prev)
  {
    var loc, parsed := ReadLocation(provider, line, settings, host);
    if !parsed {
      return prev.(ok := false);
    }
    var chunks, server, ok := RenderProfile(template, loc, provider, settings, host, prev.server);
    var profiles := prev.profiles + [Profile(ProfileFile(provider, loc.geo, host), chunks)];
    if !ok || server.None? {
      return Generation(profiles, prev.translate, prev.server, false);
    }
    next := Generation(profiles, prev.translate + [TranslateLine(loc.geo, server.value, loc.proto)], server, true);
  }

  lemma {:induction false} GenerateFailureStays(template: seq<string>, locations: seq<string>, provider: string,
                                                settings: Settings, host: Host, n: nat)
    requires 0 < n <= |locations| && !GenerateAll(template, locations[..n], provider, settings, host).ok
    ensures GenerateAll(template, locations, provider, settings, host) ==
            GenerateAll(template, locations[..n], provider, settings, host)
    decreases |locations| - n
  {
    if n < |locations| {
      assert locations[..n + 1][..n] == locations[..n];
      GenerateFailureStays(template, locations, provider, settings, host, n + 1);
    } else {
      assert locations[..n] == locations;
    }
  }

  /** What the run promises about one location whose TRANSLATE line was
      written: the line parsed; its profile went to `<geo>.ovpn` and holds
      no empty line and no `verb` line but the configured one; its
      TRANSLATE line names it and its protocol, and names its servers
      whenever the template has a `remote ` line for it. */
  predicate Written(template: seq<string>, line: string, profile: Profile, translated: string, provider: string,
                    settings: Settings, host: Host)
  {
    var parsed := ParseLocation(provider, line, settings, host);
    parsed.Some? &&
    var loc := parsed.value;
    profile.path == ProfileFile(provider, loc.geo, host) &&
    Clean(profile.chunks, VerbValue(settings)) &&
    StartsWith(translated, loc.geo + ",") && EndsWith(translated, " (" + Upper(loc.proto) + ")") &&
    (Any(template, raw => IsRemote(raw, loc)) ==>
       loc.servers != [] && translated == TranslateLine(loc.geo, Summary(loc.servers), loc.proto))
  }

  /** `w` holds of every location with its profile and TRANSLATE line, for
      as many as there are TRANSLATE lines. */
  predicate AllWritten(w: (string, Profile, string) -> bool, locations: seq<string>, g: Generation) {
    |g.translate| <= |g.profiles| <= |locations| &&
    forall k :: 0 <= k < |g.translate| ==> w(locations[k], g.profiles[k], g.translate[k])
  }

  /** The outputs of the location loop, whether or not it succeeded: one
      profile per location reached, one TRANSLATE line per location
      finished, every finished location as Written says; on success every
      location is finished. In particular a LOCATIONS line that does not
      parse makes the run fail. */
  lemma {:induction false} LocationsWritten(template: seq<string>, locations: seq<string>, provider: string,
                                            settings: Settings, host: Host)
    ensures var g := GenerateAll(template, locations, provider, settings, host);
      AllWritten((line, profile, translated) => Written(template, line, profile, translated, provider, settings, host),
                 locations, g) &&
      (g.ok ==> |g.translate| == |g.profiles| == |locations|)
    decreases |locations|
  {
    if locations != [] {
      var init := locations[..|locations| - 1];
      LocationsWritten(template, init, provider, settings, host);
      var prev := GenerateAll(template, init, provider, settings, host);
      if prev.ok {
        var w := (line, profile, translated) => Written(template, line, profile, translated, provider, settings, host);
        LocationStepWritten(template, locations[|locations| - 1], provider, settings, host, prev);
        ExtendWritten(w, locations, prev, LocationStep(template, locations[|locations| - 1], provider, settings, host, prev));
      }
    }
  }

  /** AllWritten carries over from the locations before the last to all of
      them, when the last step only extends the outputs. */
  lemma ExtendWritten(w: (string, Profile, string) -> bool, locations: seq<string>, prev: Generation, next: Generation)
    requires locations != [] && AllWritten(w, locations[..|locations| - 1], prev)
    requires |prev.translate| == |prev.profiles| == |locations| - 1
    requires |prev.profiles| <= |next.profiles| <= |prev.profiles| + 1 && |prev.translate| <= |next.translate|
    requires next.profiles[..|prev.profiles|] == prev.profiles && next.translate[..|prev.translate|] == prev.translate
    requires next.ok ==> |next.translate| == |next.profiles| == |prev.profiles| + 1 &&
                         w(locations[|locations| - 1], next.profiles[|prev.profiles|], next.translate[|prev.translate|])
    requires !next.ok ==> next.translate == prev.translate
    ensures AllWritten(w, locations, next)
  {
    forall k | 0 <= k < |next.translate|
      ensures w(locations[k], next.profiles[k], next.translate[k])
    {
      if k < |prev.translate| {
        assert locations[..|locations| - 1][k] == locations[k];
        assert next.profiles[k] == prev.profiles[k] && next.translate[k] == prev.translate[k];
      }
    }
  }

  /** One location's step keeps what was written and, when it succeeds,
      adds one profile and one TRANSLATE line as Written says. */
  lemma LocationStepWritten(template: seq<string>, line: string, provider: string, settings: Settings, host: Host,
                            prev: Generation)
    requires |prev.translate| == |prev.profiles|
    ensures var next := LocationStep(template, line, provider, settings, host, prev);
      |prev.profiles| <= |next.profiles| <= |prev.profiles| + 1 && |prev.translate| <= |next.translate| &&
      next.profiles[..|prev.profiles|] == prev.profiles && next.translate[..|prev.translate|] == prev.translate &&
      (next.ok ==> |next.translate| == |next.profiles| == |prev.profiles| + 1 &&
                   Written(template, line, next.profiles[|prev.profiles|], next.translate[|prev.translate|],
                           provider, settings, host)) &&
      (!next.ok ==> next.translate == prev.translate)
  {
    var parsed := ParseLocation(provider, line, settings, host);
    if parsed.Some? {
      var loc := parsed.value;
      ChunksClean(template, loc, provider, settings, host, prev.server);
      var out := RenderAll(template, loc, provider, settings, host, prev.server);
      if out.ok {
        ServerAfterRender(template, loc, provider, settings, host, prev.server);
      }
    }
  }
}
