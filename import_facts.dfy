/** What the rewriting pass of the import wizard guarantees: which lines are
    resolved to a supplied file and into what, that a line is resolved at
    most once, that the resolved counts never exceed the tag counts, how
    password lines and comments are written, and how a profile's protocol
    follows from its lines. */
module ImportFacts {
  import opened Strings
  import opened ImportLines

  // Tokens

  /** A single token splits into itself. */
  lemma SplitToken(b: string)
    requires IsToken(b)
    ensures Split(b) == [b]
  {
    assert TokenLength(b) == |b|;
    assert b[..|b|] == b;
    assert b[|b|..] == [];
  }

  /** Two tokens joined by a blank split back into the two. */
  lemma SplitTwo(a: string, b: string)
    requires IsToken(a) && IsToken(b)
    ensures Split(a + " " + b) == [a, b]
  {
    var s := a + " " + b;
    assert s[|a|] == ' ';
    assert s[0] == a[0];
    assert forall j :: 0 <= j < |a| ==> s[j] == a[j];
    assert TokenLength(s) == |a|;
    assert s[..|a|] == a;
    assert s[|a|..] == " " + b;
    assert (" " + b)[1..] == b;
    SplitToken(b);
  }

  // Which line names which file

  /** A line names a file exactly when it is not a comment, has two tokens,
      and its second token is the file's name: since a token holds no
      blank, "ends with a blank and the name" can only match the whole
      token. */
  lemma NamesIff(line: string, name: string)
    ensures Names(line, name) <==>
      (!StartsWith(line, "#") && |Split(line)| == 2 && Split(line)[1] == name)
  {
    if !StartsWith(line, "#") && |Split(line)| == 2 {
      var t := Split(line)[1];
      var s := " " + t;
      assert IsToken(t);
      if EndsWith(s, " " + name) {
        var k := |s| - |" " + name|;
        assert s[k] == s[k..][0] == ' ';
        assert forall j :: 1 <= j < |s| ==> s[j] == t[j - 1];
        assert k == 0;
        assert s[1..] == t;
        assert name == (" " + name)[1..];
      }
      if t == name {
        assert s[|s| - |" " + name|..] == s;
      }
    }
  }

  /** A qualified path never names a file: the second token still holds the
      separator, which a base name does not. */
  lemma QualifiedNeverNames(line: string, name: string, sep: char)
    requires |Split(line)| == 2 && sep in Split(line)[1] && sep !in name
    ensures !Names(line, name)
  {
    NamesIff(line, name);
  }

  /** The base names of the other files do not hold the separator written
      into `#PATH` references (they are what is left of a path after its
      last separator). */
  predicate Basenames(names: seq<string>, windows: bool) {
    forall j :: 0 <= j < |names| ==> SeparatorOutput(windows)[0] !in names[j]
  }

  /** The first file, from `i` on, that the line names; |names| if none. */
  function FirstNamed(line: string, names: seq<string>, i: nat): (k: nat)
    requires i <= |names|
    ensures i <= k <= |names|
    ensures k < |names| ==> Names(line, names[k])
    ensures forall j :: i <= j < k ==> !Names(line, names[j])
    decreases |names| - i
  {
    if i == |names| || Names(line, names[i]) then i else FirstNamed(line, names, i + 1)
  }

  /** A resolved line names no file any more: its second token is the
      `#PATH` reference, which holds the separator. */
  lemma ResolvedNamesNone(line: string, name: string, windows: bool, other: string)
    requires Names(line, name) && SeparatorOutput(windows)[0] !in other
    ensures !Names(Resolved(line, name, SeparatorOutput(windows)), other)
  {
    var sep := SeparatorOutput(windows);
    NamesIff(line, name);
    var a := Split(line)[0];
    var q := "#PATH" + sep + name;
    assert IsToken(a) && IsToken(name);
    forall j | 0 <= j < |q|
      ensures !IsSpace(q[j])
    {
      if 5 <= j < 5 + |sep| {
        assert q[j] == sep[j - 5];
      } else if 5 + |sep| <= j {
        assert q[j] == name[j - 5 - |sep|];
      }
    }
    assert Resolved(line, name, sep) == a + " " + q;
    SplitTwo(a, q);
    NamesIff(a + " " + q, other);
    assert q[5] == sep[0];
  }

  /** With no file named, the inner loop leaves the line alone. */
  lemma {:induction false} MatchNone(m: Match, names: seq<string>, sep: string, i: nat)
    requires |m.t.used| == |names| && i <= |names|
    requires forall j :: i <= j < |names| ==> !Names(m.line, names[j])
    ensures MatchFrom(m, names, sep, i) == m
    decreases |names| - i
  {
    if i < |names| {
      MatchNone(m, names, sep, i + 1);
    }
  }

  /** A line is resolved at most once: the inner loop amounts to one step
      for the first file the line names, or to nothing. */
  lemma {:induction false} MatchOnce(m: Match, names: seq<string>, windows: bool, i: nat)
    requires Basenames(names, windows) && |m.t.used| == |names| && i <= |names|
    ensures var k := FirstNamed(m.line, names, i);
      MatchFrom(m, names, SeparatorOutput(windows), i) ==
        if k < |names| then MatchStep(m, names[k], k, SeparatorOutput(windows)) else m
    decreases |names| - i
  {
    var sep := SeparatorOutput(windows);
    if i < |names| {
      if Names(m.line, names[i]) {
        var next := MatchStep(m, names[i], i, sep);
        forall j | i + 1 <= j < |names|
          ensures !Names(next.line, names[j])
        {
          ResolvedNamesNone(m.line, names[i], windows, names[j]);
        }
        MatchNone(next, names, sep, i + 1);
      } else {
        MatchOnce(m, names, windows, i + 1);
      }
    }
  }

  // One line

  /** Two prefixes that differ in their first character exclude each other. */
  lemma DifferentStarts(x: string, p: string, q: string)
    requires p != [] && q != [] && p[0] != q[0]
    ensures !(StartsWith(x, p) && StartsWith(x, q))
  {
    if StartsWith(x, p) {
      assert x[..|p|][0] == x[0];
      if |q| <= |x| {
        assert x[..|q|][0] == x[0];
      }
    }
  }

  /** A comment line is written as stripped, resolved to no file and not
      counted; the profile's flag and protocol stay as they were. */
  lemma CommentLine(f: FileScan, raw: string, names: seq<string>, sep: string)
    requires |f.t.used| == |names| && StartsWith(Strip(raw, LineJunk), "#")
    ensures LineStep(f, raw, names, sep) == FileScan(f.out + [Strip(raw, LineJunk)], f.auth, f.proto, f.t)
  {
    var s := Strip(raw, LineJunk);
    MatchNone(Match(s, s, f.auth, f.t), names, sep, 0);
  }

  /** A line that names no file keeps the flag, the usage and the resolved
      counts; it is written as stripped, except that a password line of a
      profile with no resolved password line yet points at pass.txt; a
      password line is counted. */
  lemma UnresolvedLine(f: FileScan, raw: string, names: seq<string>, sep: string)
    requires |f.t.used| == |names| && !StartsWith(Strip(raw, LineJunk), "#")
    requires forall j :: 0 <= j < |names| ==> !Names(Strip(raw, LineJunk), names[j])
    ensures var s := Strip(raw, LineJunk);
      var r := LineStep(f, raw, names, sep);
      var pass := StartsWith(s, "auth-user-pass");
      r.auth == f.auth && r.t.used == f.t.used &&
      r.t.auth.found == f.t.auth.found && r.t.cert.found == f.t.cert.found && r.t.key.found == f.t.key.found &&
      r.out == f.out + [if pass && !f.auth then PassLine(sep) else s] &&
      r.t.auth.count == f.t.auth.count + (if pass then 1 else 0)
  {
    var s := Strip(raw, LineJunk);
    MatchNone(Match(s, s, f.auth, f.t), names, sep, 0);
  }

  /** A line that names a file is written as its first token and a `#PATH`
      reference to the first such file, whose usage goes up by one; a
      resolved password line sets the profile's flag. */
  lemma ResolvedLine(f: FileScan, raw: string, names: seq<string>, windows: bool, s: string, k: nat)
    requires Basenames(names, windows) && |f.t.used| == |names|
    requires s == Strip(raw, LineJunk) && k == FirstNamed(s, names, 0) && k < |names|
    ensures LineStep(f, raw, names, SeparatorOutput(windows)).out ==
      f.out + [Resolved(s, names[k], SeparatorOutput(windows))]
    ensures LineStep(f, raw, names, SeparatorOutput(windows)).t.used == f.t.used[k := f.t.used[k] + 1]
    ensures LineStep(f, raw, names, SeparatorOutput(windows)).auth ==
      (f.auth || StartsWith(Resolved(s, names[k], SeparatorOutput(windows)), "auth-user-pass"))
  {
    var sep := SeparatorOutput(windows);
    var m0 := Match(s, s, f.auth, f.t);
    assert m0.t.used == f.t.used;
    var m := MatchFrom(m0, names, sep, 0);
    ResolvedMatch(m0, names, windows, k);
    var used := f.t.used[k := f.t.used[k] + 1];
    assert m.t.used == used;
    WrittenAsIs(m, sep);
    LineFromMatch(f, raw, names, sep);
    assert LineStep(f, raw, names, sep).t.used == used;
  }

  /** What a line step writes and keeps, in terms of the inner loop's result. */
  lemma LineFromMatch(f: FileScan, raw: string, names: seq<string>, sep: string)
    requires |f.t.used| == |names|
    ensures var s := Strip(raw, LineJunk);
      var m := MatchFrom(Match(s, s, f.auth, f.t), names, sep, 0);
      var r := LineStep(f, raw, names, sep);
      r.out == f.out + [if StartsWith(m.line, "#") then m.line else Written(m, sep)] &&
      r.auth == m.auth && r.t.used == m.t.used &&
      r.t == if StartsWith(m.line, "#") then m.t
             else Counted(m.t, StartsWith(m.line, "auth-user-pass"), Written(m, sep), m.before)
  {
  }

  /** A password line is written as it is once the profile's flag is set. */
  lemma WrittenAsIs(m: Match, sep: string)
    requires StartsWith(m.line, "auth-user-pass") ==> m.auth
    ensures Written(m, sep) == m.line
  {
  }

  /** The inner loop's result for a line that names a file. */
  lemma ResolvedMatch(m: Match, names: seq<string>, windows: bool, k: nat)
    requires Basenames(names, windows) && |m.t.used| == |names|
    requires k == FirstNamed(m.line, names, 0) && k < |names|
    ensures var line := Resolved(m.line, names[k], SeparatorOutput(windows));
      var r := MatchFrom(m, names, SeparatorOutput(windows), 0);
      r.line == line && r.before == m.line && r.t.used == m.t.used[k := m.t.used[k] + 1] &&
      r.auth == (m.auth || StartsWith(line, "auth-user-pass"))
  {
    MatchOnce(m, names, windows, 0);
  }

  /** No tag is resolved more often than it is seen. */
  predicate Bounded(t: Tally) {
    t.auth.found <= t.auth.count && t.cert.found <= t.cert.count && t.key.found <= t.key.count
  }

  lemma LineBounded(f: FileScan, raw: string, names: seq<string>, windows: bool)
    requires Basenames(names, windows) && |f.t.used| == |names| && Bounded(f.t)
    ensures Bounded(LineStep(f, raw, names, SeparatorOutput(windows)).t)
  {
    var s := Strip(raw, LineJunk);
    var sep := SeparatorOutput(windows);
    var k := FirstNamed(s, names, 0);
    MatchOnce(Match(s, s, f.auth, f.t), names, windows, 0);
    if k < |names| {
      var line := Resolved(s, names[k], sep);
      DifferentStarts(line, "#", "auth-user-pass");
      DifferentStarts(line, "#", "cert ");
      DifferentStarts(line, "#", "key ");
    }
  }

  lemma {:induction false} FileBounded(lines: seq<string>, names: seq<string>, windows: bool, t: Tally)
    requires Basenames(names, windows) && |t.used| == |names| && Bounded(t)
    ensures Bounded(ScanFile(lines, names, SeparatorOutput(windows), t).t)
    decreases |lines|
  {
    if lines != [] {
      var init := lines[..|lines| - 1];
      FileBounded(init, names, windows, t);
      LineBounded(ScanFile(init, names, SeparatorOutput(windows), t), lines[|lines| - 1], names, windows);
    }
  }

  /** Over the whole batch, the password, certificate and key tags are
      resolved to a supplied file at most as often as they occur. */
  lemma {:induction false} FoundWithinCount(files: seq<seq<string>>, names: seq<string>, windows: bool)
    requires Basenames(names, windows)
    ensures Bounded(ScanBatch(files, names, SeparatorOutput(windows)).t)
    decreases |files|
  {
    if files != [] {
      var init := files[..|files| - 1];
      FoundWithinCount(init, names, windows);
      FileBounded(files[|files| - 1], names, windows, ScanBatch(init, names, SeparatorOutput(windows)).t);
    }
  }

  // The protocol

  /** A written line that makes the profile a TCP one. */
  predicate TcpProto(line: string) {
    StartsWith(line, "proto ") && Contains(Lower(line), "tcp")
  }

  /** The protocol a profile with these written lines is given. */
  predicate ProtoOf(proto: string, lines: seq<string>) {
    proto == if Any(lines, TcpProto) then "TCP" else "UDP"
  }

  lemma LineProto(f: FileScan, raw: string, names: seq<string>, sep: string)
    requires |f.t.used| == |names|
    ensures var r := LineStep(f, raw, names, sep);
      r.proto == if TcpProto(r.out[|r.out| - 1]) then "TCP" else f.proto
  {
    var s := Strip(raw, LineJunk);
    var m := MatchFrom(Match(s, s, f.auth, f.t), names, sep, 0);
    DifferentStarts(m.line, "#", "proto ");
  }

  /** A profile is TCP exactly when one of its written lines starts with
      "proto " and mentions tcp in any case; otherwise it is UDP. */
  lemma {:induction false} FileProto(lines: seq<string>, names: seq<string>, sep: string, t: Tally)
    requires |t.used| == |names|
    ensures var r := ScanFile(lines, names, sep, t);
      ProtoOf(r.proto, r.out)
    decreases |lines|
  {
    if lines != [] {
      var init := lines[..|lines| - 1];
      FileProto(init, names, sep, t);
      var f := ScanFile(init, names, sep, t);
      var r := ScanFile(lines, names, sep, t);
      LineProto(f, lines[|lines| - 1], names, sep);
      assert r.out[..|r.out| - 1] == f.out;
      AnySnoc(r.out, TcpProto);
    }
  }

  /** Each profile of the batch gets the protocol of its own lines. */
  lemma {:induction false} BatchProtos(files: seq<seq<string>>, names: seq<string>, sep: string)
    ensures var b := ScanBatch(files, names, sep);
      forall i :: 0 <= i < |files| ==> ProtoOf(b.protos[i], b.profiles[i])
    decreases |files|
  {
    if files != [] {
      var init := files[..|files| - 1];
      BatchProtos(init, names, sep);
      var prev := ScanBatch(init, names, sep);
      var b := ScanBatch(files, names, sep);
      assert forall i :: 0 <= i < |init| ==> ProtoOf(ScanBatch(init, names, sep).protos[i], ScanBatch(init, names, sep).profiles[i]);
      FileProto(files[|files| - 1], names, sep, prev.t);
      var f := ScanFile(files[|files| - 1], names, sep, prev.t);
      assert b.profiles == prev.profiles + [f.out] && b.protos == prev.protos + [f.proto];
      forall i | 0 <= i < |files|
        ensures ProtoOf(b.protos[i], b.profiles[i])
      {
        if i < |init| {
          assert b.protos[i] == prev.protos[i] && b.profiles[i] == prev.profiles[i];
          assert ProtoOf(prev.protos[i], prev.profiles[i]);
        } else {
          assert b.protos[i] == f.proto && b.profiles[i] == f.out;
        }
      }
    }
  }

  // Repeated certificate and key names

  /** The notes taken of `xs`, in order, starting from `d`. */
  function NoteFrom(d: Distinct, xs: seq<string>): Distinct
    decreases |xs|
  {
    if xs == [] then d else Note(NoteFrom(d, xs[..|xs| - 1]), xs[|xs| - 1])
  }

  lemma {:induction false} NoteFromConcat(d: Distinct, a: seq<string>, b: seq<string>)
    ensures NoteFrom(d, a + b) == NoteFrom(NoteFrom(d, a), b)
    decreases |b|
  {
    if b == [] {
      assert a + b == a;
    } else {
      NoteFromConcat(d, a, b[..|b| - 1]);
      assert (a + b)[..|a + b| - 1] == a + b[..|b| - 1];
    }
  }

  predicate NonEmpty(xs: seq<string>) {
    forall i :: 0 <= i < |xs| ==> xs[i] != ""
  }

  /** Starting from no note, the last note is the last line, and "multiple"
      holds exactly when the lines are not all the same. */
  lemma {:induction false} NoteFromStart(xs: seq<string>)
    requires NonEmpty(xs)
    ensures NoteFrom(Distinct("", false), xs).last == if xs == [] then "" else xs[|xs| - 1]
    ensures NoteFrom(Distinct("", false), xs).multiple <==> exists i :: 0 <= i < |xs| && xs[i] != xs[0]
    decreases |xs|
  {
    if xs != [] {
      var init := xs[..|xs| - 1];
      var x := xs[|xs| - 1];
      assert forall i :: 0 <= i < |init| ==> init[i] == xs[i];
      NoteFromStart(init);
      var d := NoteFrom(Distinct("", false), init);
      if init == [] {
        assert |xs| == 1;
      } else if d.last != x {
        if forall i :: 0 <= i < |init| ==> init[i] == init[0] {
          assert xs[|xs| - 1] != xs[0];
        } else {
          var i :| 0 <= i < |init| && init[i] != init[0];
          assert xs[i] != xs[0];
        }
      } else {
        if exists i :: 0 <= i < |xs| && xs[i] != xs[0] {
          var i :| 0 <= i < |xs| && xs[i] != xs[0];
          if i == |xs| - 1 {
            assert init[|init| - 1] != init[0];
          } else {
            assert init[i] != init[0];
          }
        }
        if exists i :: 0 <= i < |init| && init[i] != init[0] {
          var i :| 0 <= i < |init| && init[i] != init[0];
          assert xs[i] != xs[0];
        }
      }
    }
  }

  /** The stripped lines, among `raws`, whose written form starts with `tag`. */
  function Sources(raws: seq<string>, written: seq<string>, tag: string): seq<string>
    requires |raws| == |written|
    decreases |raws|
  {
    if raws == [] then []
    else
      Sources(raws[..|raws| - 1], written[..|written| - 1], tag) +
      if StartsWith(written[|written| - 1], tag) then [Strip(raws[|raws| - 1], LineJunk)] else []
  }

  /** The inner loop leaves the notes alone and, a line being resolved at
      most once, keeps the line it started from as the line before. */
  lemma MatchKeepsNotes(m: Match, names: seq<string>, windows: bool)
    requires Basenames(names, windows) && |m.t.used| == |names| && m.before == m.line
    ensures var r := MatchFrom(m, names, SeparatorOutput(windows), 0);
      r.before == m.line && r.t.certs == m.t.certs && r.t.keys == m.t.keys &&
      (r.line == m.line || |Split(m.line)| == 2)
  {
    MatchOnce(m, names, windows, 0);
  }

  /** A line written with a certificate (or key) tag notes the stripped
      line it came from, which is not empty. */
  lemma LineNotes(f: FileScan, raw: string, names: seq<string>, windows: bool)
    requires Basenames(names, windows) && |f.t.used| == |names|
    ensures var s := Strip(raw, LineJunk);
      var r := LineStep(f, raw, names, SeparatorOutput(windows));
      var w := r.out[|r.out| - 1];
      r.t.certs == (if StartsWith(w, "cert ") then Note(f.t.certs, s) else f.t.certs) &&
      r.t.keys == (if StartsWith(w, "key ") then Note(f.t.keys, s) else f.t.keys) &&
      (StartsWith(w, "cert ") || StartsWith(w, "key ") ==> s != "")
  {
    var s := Strip(raw, LineJunk);
    var sep := SeparatorOutput(windows);
    var m := MatchFrom(Match(s, s, f.auth, f.t), names, sep, 0);
    MatchKeepsNotes(Match(s, s, f.auth, f.t), names, windows);
    LineFromMatch(f, raw, names, sep);
    DifferentStarts(m.line, "#", "cert ");
    DifferentStarts(m.line, "#", "key ");
    DifferentStarts(PassLine(sep), "a", "cert ");
    DifferentStarts(PassLine(sep), "a", "key ");
    assert PassLine(sep)[..1] == "a";
  }

  /** The certificate notes, or the key notes. */
  function NotesOf(t: Tally, cert: bool): Distinct {
    if cert then t.certs else t.keys
  }

  function TagOf(cert: bool): string {
    if cert then "cert " else "key "
  }

  lemma {:induction false} FileNotes(lines: seq<string>, names: seq<string>, windows: bool, t: Tally, cert: bool)
    requires Basenames(names, windows) && |t.used| == |names|
    ensures var r := ScanFile(lines, names, SeparatorOutput(windows), t);
      NotesOf(r.t, cert) == NoteFrom(NotesOf(t, cert), Sources(lines, r.out, TagOf(cert))) &&
      NonEmpty(Sources(lines, r.out, TagOf(cert)))
    decreases |lines|
  {
    if lines != [] {
      var sep := SeparatorOutput(windows);
      var init := lines[..|lines| - 1];
      FileNotes(init, names, windows, t, cert);
      var f := ScanFile(init, names, sep, t);
      var r := ScanFile(lines, names, sep, t);
      LineNotes(f, lines[|lines| - 1], names, windows);
      assert r.out[..|r.out| - 1] == f.out;
      NotesStep(NotesOf(t, cert), NotesOf(f.t, cert), NotesOf(r.t, cert), lines, r.out, f.out, TagOf(cert));
    }
  }

  /** One more line keeps the notes equal to the notes of the noted lines. */
  lemma NotesStep(d: Distinct, prevNotes: Distinct, notes: Distinct,
                  raws: seq<string>, written: seq<string>, prev: seq<string>, tag: string)
    requires |raws| == |written| && raws != [] && written[..|written| - 1] == prev
    requires prevNotes == NoteFrom(d, Sources(raws[..|raws| - 1], prev, tag))
    requires NonEmpty(Sources(raws[..|raws| - 1], prev, tag))
    requires notes == if StartsWith(written[|written| - 1], tag)
      then Note(prevNotes, Strip(raws[|raws| - 1], LineJunk)) else prevNotes
    requires StartsWith(written[|written| - 1], tag) ==> Strip(raws[|raws| - 1], LineJunk) != ""
    ensures notes == NoteFrom(d, Sources(raws, written, tag)) && NonEmpty(Sources(raws, written, tag))
  {
    SourcesStep(raws, written, prev, tag, d);
  }

  /** How one more line extends the noted lines. */
  lemma SourcesStep(raws: seq<string>, written: seq<string>, prev: seq<string>, tag: string, d: Distinct)
    requires |raws| == |written| && raws != [] && written[..|written| - 1] == prev
    ensures var before := Sources(raws[..|raws| - 1], prev, tag);
      if StartsWith(written[|written| - 1], tag) then
        var s := Strip(raws[|raws| - 1], LineJunk);
        Sources(raws, written, tag) == before + [s] && NoteFrom(d, before + [s]) == Note(NoteFrom(d, before), s)
      else Sources(raws, written, tag) == before
  {
    var before := Sources(raws[..|raws| - 1], prev, tag);
    if StartsWith(written[|written| - 1], tag) {
      var s := Strip(raws[|raws| - 1], LineJunk);
      assert (before + [s])[..|before + [s]| - 1] == before;
    } else {
      assert before + [] == before;
    }
  }

  /** The stripped lines of a batch whose written form starts with `tag`,
      profile after profile. */
  function BatchSources(files: seq<seq<string>>, profiles: seq<seq<string>>, tag: string): seq<string>
    requires |files| == |profiles| && forall i :: 0 <= i < |files| ==> |files[i]| == |profiles[i]|
    decreases |files|
  {
    if files == [] then []
    else
      BatchSources(files[..|files| - 1], profiles[..|profiles| - 1], tag) +
      Sources(files[|files| - 1], profiles[|profiles| - 1], tag)
  }

  /** The batch's certificate (key) notes are the notes of the stripped lines
      written with that tag, in order. */
  lemma {:induction false} BatchNotes(files: seq<seq<string>>, names: seq<string>, windows: bool)
    requires Basenames(names, windows)
    ensures var b := ScanBatch(files, names, SeparatorOutput(windows));
      b.t.certs == NoteFrom(Distinct("", false), BatchSources(files, b.profiles, "cert ")) &&
      b.t.keys == NoteFrom(Distinct("", false), BatchSources(files, b.profiles, "key ")) &&
      NonEmpty(BatchSources(files, b.profiles, "cert ")) && NonEmpty(BatchSources(files, b.profiles, "key "))
    decreases |files|
  {
    if files != [] {
      var sep := SeparatorOutput(windows);
      var init := files[..|files| - 1];
      BatchNotes(init, names, windows);
      var prev := ScanBatch(init, names, sep);
      var b := ScanBatch(files, names, sep);
      var last := files[|files| - 1];
      FileNotes(last, names, windows, prev.t, true);
      FileNotes(last, names, windows, prev.t, false);
      var f := ScanFile(last, names, sep, prev.t);
      assert b.profiles[..|b.profiles| - 1] == prev.profiles;
      assert b.profiles[|b.profiles| - 1] == f.out;
      NoteFromConcat(Distinct("", false), BatchSources(init, prev.profiles, "cert "), Sources(last, f.out, "cert "));
      NoteFromConcat(Distinct("", false), BatchSources(init, prev.profiles, "key "), Sources(last, f.out, "key "));
    }
  }

  /** multiple_certs (multiple_keys) ends up set exactly when the lines
      written with a certificate (key) tag did not all come from the same
      stripped line. */
  lemma MultipleNames(files: seq<seq<string>>, names: seq<string>, windows: bool)
    requires Basenames(names, windows)
    ensures var b := ScanBatch(files, names, SeparatorOutput(windows));
      var certs := BatchSources(files, b.profiles, "cert ");
      var keys := BatchSources(files, b.profiles, "key ");
      (b.t.certs.multiple <==> exists i :: 0 <= i < |certs| && certs[i] != certs[0]) &&
      (b.t.keys.multiple <==> exists i :: 0 <= i < |keys| && keys[i] != keys[0])
  {
    BatchNotes(files, names, windows);
    var b := ScanBatch(files, names, SeparatorOutput(windows));
    NoteFromStart(BatchSources(files, b.profiles, "cert "));
    NoteFromStart(BatchSources(files, b.profiles, "key "));
  }
}
