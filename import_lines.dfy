/** The rewriting pass of the import wizard (import.py), run when the user
    asks for the profiles to be updated. Every line of every `.ovpn` file is
    stripped; a two-token line whose second token names one of the other
    files picked becomes a `#PATH` reference to that file; the tags that
    decide how the user-defined provider authenticates are counted over the
    whole batch; and each profile's protocol is noted for the rename. The
    profiles are lists of raw lines and the other files are given by their
    base names, in the order picked. */
module ImportLines {
  import opened Strings

  /** The separator written into `#PATH` references: a doubled backslash
      on Windows (it is unescaped once more when read back), "/" elsewhere. */
  function SeparatorOutput(windows: bool): (r: string)
    ensures |r| > 0 && (r[0] == '/' || r[0] == '\\')
    ensures forall k :: 0 <= k < |r| ==> !IsSpace(r[k])
  {
    if windows then "\\\\" else "/"
  }

  /** How often a tag was seen, and how often one of its lines was resolved
      to a supplied file. */
  datatype Tags = Tags(count: nat, found: nat)

  /** The last distinct line of a kind, and whether a different one came
      before it (last_cert_found and multiple_certs, or their key twins). */
  datatype Distinct = Distinct(last: string, multiple: bool)

  /** The batch counters. `used` holds, per other file, how many lines were
      resolved to it (other_files_count). */
  datatype Tally = Tally(
    auth: Tags, cert: Tags, key: Tags,
    ecert: nat, ekey: nat,
    certs: Distinct, keys: Distinct,
    used: seq<nat>)

  function InitialTally(files: nat): (t: Tally)
    ensures |t.used| == files && forall i :: 0 <= i < files ==> t.used[i] == 0
  {
    Tally(Tags(0, 0), Tags(0, 0), Tags(0, 0), 0, 0, Distinct("", false), Distinct("", false), seq(files, _ => 0))
  }

  // The inner loop over the other files (import.py:187-212)

  /** The test a line passes to be resolved to the file `name`: not a
      comment, two tokens, and the second one, with a blank in front, ends
      with a blank and the name. The separator replacement meant to turn a
      qualified path into blank-separated parts is computed and discarded,
      so the test sees the token as it is. */
  predicate Names(line: string, name: string) {
    !StartsWith(line, "#") && |Split(line)| == 2 && EndsWith(" " + Split(line)[1], " " + name)
  }

  /** The line's first token followed by a `#PATH` reference to `name`. */
  function Resolved(line: string, name: string, sep: string): string
    requires |Split(line)| == 2
  {
    Split(line)[0] + " " + "#PATH" + sep + name
  }

  /** The line being processed, the line before its last rewrite
      (old_line), whether a password line of this profile was resolved
      (auth), and the counters. */
  datatype Match = Match(line: string, before: string, auth: bool, t: Tally)

  /** The resolution counters after `line`, just rewritten for file `i`. */
  function Found(t: Tally, line: string, i: nat): (r: Tally)
    requires i < |t.used|
    ensures |r.used| == |t.used|
  {
    t.(used := t.used[i := t.used[i] + 1],
       auth := t.auth.(found := t.auth.found + if StartsWith(line, "auth-user-pass") then 1 else 0),
       cert := t.cert.(found := t.cert.found + if StartsWith(line, "cert ") then 1 else 0),
       key := t.key.(found := t.key.found + if StartsWith(line, "key ") then 1 else 0))
  }

  function MatchStep(m: Match, name: string, i: nat, sep: string): (r: Match)
    requires i < |m.t.used|
    ensures |r.t.used| == |m.t.used|
  {
    if Names(m.line, name) then
      var line := Resolved(m.line, name, sep);
      Match(line, m.line, m.auth || StartsWith(line, "auth-user-pass"), Found(m.t, line, i))
    else m
  }

  /** The inner loop from file `i` on. */
  function MatchFrom(m: Match, names: seq<string>, sep: string, i: nat): (r: Match)
    requires |m.t.used| == |names| && i <= |names|
    ensures |r.t.used| == |names|
    decreases |names| - i
  {
    if i == |names| then m else MatchFrom(MatchStep(m, names[i], i, sep), names, sep, i + 1)
  }

  method MatchNames(m0: Match, names: seq<string>, sep: string) returns (m: Match)
    requires |m0.t.used| == |names|
    ensures m == MatchFrom(m0, names, sep, 0)
  {
    m := m0;
    var i := 0;
    while i < |names|
      invariant 0 <= i <= |names| && |m.t.used| == |names|
      invariant MatchFrom(m, names, sep, i) == MatchFrom(m0, names, sep, 0)
    {
      var name := names[i];
      if !StartsWith(m.line, "#") {
        var params := Split(m.line);
        if |params| == 2 {
          var second := " " + params[1];
          if EndsWith(second, " " + name) {
            var line := params[0] + " " + "#PATH" + sep + name;
            m := Match(line, m.line, m.auth || StartsWith(line, "auth-user-pass"), Found(m.t, line, i));
          }
        }
      }
      i := i + 1;
    }
  }

  // The tag counting (import.py:213-234)

  /** The password line written for an unresolved `auth-user-pass` line. */
  function PassLine(sep: string): string {
    "auth-user-pass #PATH" + sep + " pass.txt"
  }

  /** Taking note of one more line of a kind. */
  function Note(d: Distinct, line: string): Distinct {
    if d.last != line then Distinct(line, d.multiple || d.last != "") else d
  }

  /** The counters after a line that is not a comment; `line` is the line
      as written, `tagged` whether it was an `auth-user-pass` line. */
  function Counted(t: Tally, tagged: bool, line: string, before: string): (r: Tally)
    ensures r.used == t.used
  {
    var cert := StartsWith(line, "cert ");
    var key := StartsWith(line, "key ");
    t.(auth := t.auth.(count := t.auth.count + if tagged then 1 else 0),
       cert := t.cert.(count := t.cert.count + if cert then 1 else 0),
       key := t.key.(count := t.key.count + if key then 1 else 0),
       certs := if cert then Note(t.certs, before) else t.certs,
       keys := if key then Note(t.keys, before) else t.keys,
       ecert := t.ecert + if StartsWith(line, "<cert>") then 1 else 0,
       ekey := t.ekey + if StartsWith(line, "<key>") then 1 else 0)
  }

  /** The line as written, for a line that is not a comment: an unresolved
      password line, in a profile none of whose password lines was
      resolved so far, points at the add-on's pass.txt. */
  function Written(m: Match, sep: string): string {
    if StartsWith(m.line, "auth-user-pass") && !m.auth then PassLine(sep) else m.line
  }

  /** The profile's protocol after a line that is not a comment. */
  function ProtoAfter(proto: string, line: string): string {
    if StartsWith(line, "proto ") && Contains(Lower(line), "tcp") then "TCP" else proto
  }

  // One line, one profile, the batch

  /** The lines written so far, the per-profile flag and protocol, and the
      batch counters. */
  datatype FileScan = FileScan(out: seq<string>, auth: bool, proto: string, t: Tally)

  function LineStep(f: FileScan, raw: string, names: seq<string>, sep: string): (r: FileScan)
    requires |f.t.used| == |names|
    ensures |r.t.used| == |names| && |r.out| == |f.out| + 1
  {
    var line := Strip(raw, LineJunk);
    var m := MatchFrom(Match(line, line, f.auth, f.t), names, sep, 0);
    if StartsWith(m.line, "#") then FileScan(f.out + [m.line], m.auth, f.proto, m.t)
    else
      var w := Written(m, sep);
      FileScan(f.out + [w], m.auth, ProtoAfter(f.proto, w), Counted(m.t, StartsWith(m.line, "auth-user-pass"), w, m.before))
  }

  /** One profile, line by line, starting from the batch counters `t`. */
  function ScanFile(lines: seq<string>, names: seq<string>, sep: string, t: Tally): (r: FileScan)
    requires |t.used| == |names|
    ensures |r.t.used| == |names| && |r.out| == |lines|
    decreases |lines|
  {
    if lines == [] then FileScan([], false, "UDP", t)
    else LineStep(ScanFile(lines[..|lines| - 1], names, sep, t), lines[|lines| - 1], names, sep)
  }

  /** The rewritten profiles, their protocols, and the counters. */
  datatype Batch = Batch(profiles: seq<seq<string>>, protos: seq<string>, t: Tally)

  function ScanBatch(files: seq<seq<string>>, names: seq<string>, sep: string): (r: Batch)
    ensures |r.t.used| == |names| && |r.profiles| == |files| && |r.protos| == |files|
    ensures forall i :: 0 <= i < |files| ==> |r.profiles[i]| == |files[i]|
    decreases |files|
  {
    if files == [] then Batch([], [], InitialTally(|names|))
    else
      var prev := ScanBatch(files[..|files| - 1], names, sep);
      var f := ScanFile(files[|files| - 1], names, sep, prev.t);
      Batch(prev.profiles + [f.out], prev.protos + [f.proto], f.t)
  }

  method ProcessLine(f: FileScan, raw: string, names: seq<string>, sep: string) returns (r: FileScan)
    requires |f.t.used| == |names|
    ensures r == LineStep(f, raw, names, sep)
  {
    var line := Strip(raw, LineJunk);
    var m := MatchNames(Match(line, line, f.auth, f.t), names, sep);
    if StartsWith(m.line, "#") {
      return FileScan(f.out + [m.line], m.auth, f.proto, m.t);
    }
    var t := m.t;
    var written := m.line;
    var tagged := StartsWith(written, "auth-user-pass");
    if tagged && !m.auth {
      written := PassLine(sep);
    }
    var proto := f.proto;
    if StartsWith(written, "proto ") && Contains(Lower(written), "tcp") {
      proto := "TCP";
    }
    r := FileScan(f.out + [written], m.auth, proto, Counted(t, tagged, written, m.before));
  }

  method ProcessFile(lines: seq<string>, names: seq<string>, sep: string, t: Tally) returns (f: FileScan)
    requires |t.used| == |names|
    ensures f == ScanFile(lines, names, sep, t)
  {
    f := FileScan([], false, "UDP", t);
    var i := 0;
    while i < |lines|
      invariant 0 <= i <= |lines|
      invariant f == ScanFile(lines[..i], names, sep, t)
    {
      assert lines[..i + 1][..i] == lines[..i];
      f := ProcessLine(f, lines[i], names, sep);
      i := i + 1;
    }
    assert lines[..i] == lines;
  }

  /** The copy-and-update loop over the profiles. */
  method ImportProfiles(files: seq<seq<string>>, names: seq<string>, windows: bool) returns (b: Batch)
    ensures b == ScanBatch(files, names, SeparatorOutput(windows))
  {
    var sep := SeparatorOutput(windows);
    var profiles, protos := [], [];
    var t := InitialTally(|names|);
    var i := 0;
    while i < |files|
      invariant 0 <= i <= |files|
      invariant Batch(profiles, protos, t) == ScanBatch(files[..i], names, sep)
    {
      assert files[..i + 1][..i] == files[..i];
      var f := ProcessFile(files[i], names, sep, t);
      profiles, protos, t := profiles + [f.out], protos + [f.proto], f.t;
      i := i + 1;
    }
    assert files[..i] == files;
    b := Batch(profiles, protos, t);
  }

  // The rename (import.py:237-245)

  /** The name a profile is renamed to: every ".ovpn" replaced by the
      protocol in brackets followed by ".ovpn". */
  function RenameTarget(dest: string, proto: string): string {
    ReplaceAll(dest, ".ovpn", " (" + proto + ").ovpn")
  }

  /** The profile's name after the rename step; `taken` says whether a file
      with the target name exists already. */
  function Renamed(dest: string, proto: string, taken: bool): string {
    if taken then dest else RenameTarget(dest, proto)
  }
}
