/** Extraction of the embedded `<key>` and `<cert>` blocks of a profile that
    copyKeyAndCert (libs/vpnproviders.py) performs when the user picked one
    .ovpn file as both key and certificate source. */
module KeyCert {
  import opened Strings

  /** The loop's state: whether a key or a certificate block is open, and the
      lines written so far to the key file and to the certificate file. */
  datatype Extraction = Extraction(inKey: bool, inCert: bool, key: seq<string>, cert: seq<string>)

  const Start: Extraction := Extraction(false, false, [], [])

  predicate IsTagLine(line: string) {
    StartsWith(line, "<key>") || StartsWith(line, "</key>") ||
    StartsWith(line, "<cert>") || StartsWith(line, "</cert>")
  }

  /** One pass of the loop body over one profile line, already stripped of
      its line end. */
  function Step(st: Extraction, line: string): Extraction {
    if StartsWith(line, "<key>") then st.(inKey := true)
    else if StartsWith(line, "</key>") then st.(inKey := false)
    else if StartsWith(line, "<cert>") then st.(inCert := true)
    else if StartsWith(line, "</cert>") then st.(inCert := false)
    else st.(key := if st.inKey then st.key + [line] else st.key,
             cert := if st.inCert then st.cert + [line] else st.cert)
  }

  /** The loop over a whole profile, from state `st`. */
  function Run(st: Extraction, lines: seq<string>): Extraction
    decreases |lines|
  {
    if lines == [] then st
    else Step(Run(st, lines[..|lines| - 1]), Strip(lines[|lines| - 1], LineJunk))
  }

  /** The profile lines with their line ends stripped. */
  function StripAll(lines: seq<string>): (r: seq<string>)
    ensures |r| == |lines|
  {
    if lines == [] then []
    else StripAll(lines[..|lines| - 1]) + [Strip(lines[|lines| - 1], LineJunk)]
  }

  /** The extraction loop: `key` and `cert` are what the loop writes to the
      key and certificate files, and `ok` is the function's verdict (both
      files received at least one line). */
  method ExtractKeyAndCert(ovpn: seq<string>) returns (key: seq<string>, cert: seq<string>, ok: bool)
    ensures key == Run(Start, ovpn).key && cert == Run(Start, ovpn).cert
    ensures ok <==> key != [] && cert != []
  {
    var inKey, inCert := false, false;
    key, cert := [], [];
    var i := 0;
    while i < |ovpn|
      invariant 0 <= i <= |ovpn|
      invariant Run(Start, ovpn[..i]) == Extraction(inKey, inCert, key, cert)
    {
      var line := Strip(ovpn[i], LineJunk);
      if StartsWith(line, "<key>") {
        inKey := true;
      } else if StartsWith(line, "</key>") {
        inKey := false;
      } else if StartsWith(line, "<cert>") {
        inCert := true;
      } else if StartsWith(line, "</cert>") {
        inCert := false;
      } else {
        if inKey {
          key := key + [line];
        }
        if inCert {
          cert := cert + [line];
        }
      }
      assert ovpn[..i + 1][..i] == ovpn[..i];
      i := i + 1;
    }
    assert ovpn[..i] == ovpn;
    ok := |key| > 0 && |cert| > 0;
  }

  lemma {:induction false} RunAppend(st: Extraction, a: seq<string>, b: seq<string>)
    ensures Run(st, a + b) == Run(Run(st, a), b)
    decreases |b|
  {
    if b == [] {
      assert a + b == a;
    } else {
      assert (a + b)[..|a + b| - 1] == a + b[..|b| - 1];
      RunAppend(st, a, b[..|b| - 1]);
    }
  }

  /** Lines that are not tags go to whichever blocks are open, and only there. */
  lemma {:induction false} RunPlain(st: Extraction, body: seq<string>)
    requires forall i :: 0 <= i < |body| ==> !IsTagLine(Strip(body[i], LineJunk))
    ensures Run(st, body).inKey == st.inKey && Run(st, body).inCert == st.inCert
    ensures Run(st, body).key == st.key + (if st.inKey then StripAll(body) else [])
    ensures Run(st, body).cert == st.cert + (if st.inCert then StripAll(body) else [])
    decreases |body|
  {
    if body != [] {
      var init := body[..|body| - 1];
      var last := body[|body| - 1];
      RunPlain(st, init);
      var line := Strip(last, LineJunk);
      StepPlain(Run(st, init), line);
      assert StripAll(body) == StripAll(init) + [line];
      SnocAssoc(st.key, StripAll(init), line);
      SnocAssoc(st.cert, StripAll(init), line);
    }
  }

  lemma SnocAssoc(a: seq<string>, b: seq<string>, x: string)
    ensures a + b + [x] == a + (b + [x])
  {
  }

  lemma StepPlain(st: Extraction, line: string)
    requires !IsTagLine(line)
    ensures Step(st, line) == st.(key := if st.inKey then st.key + [line] else st.key,
                                  cert := if st.inCert then st.cert + [line] else st.cert)
  {
  }

  lemma StepKeepsKeyClosed(st: Extraction, line: string)
    requires !st.inKey && !StartsWith(line, "<key>")
    ensures !Step(st, line).inKey && Step(st, line).key == st.key
  {
  }

  lemma StepKeepsCertClosed(st: Extraction, line: string)
    requires !st.inCert && !StartsWith(line, "<cert>")
    ensures !Step(st, line).inCert && Step(st, line).cert == st.cert
  {
  }

  lemma StepOpenKey(st: Extraction, line: string)
    requires StartsWith(line, "<key>")
    ensures Step(st, line) == st.(inKey := true)
  {
  }

  lemma StepCloseKey(st: Extraction, line: string)
    requires StartsWith(line, "</key>")
    ensures Step(st, line) == st.(inKey := false)
  {
    assert line[1] == "</key>"[1];
    NotStartsWithAt(line, "<key>", 1);
  }

  lemma StepOpenCert(st: Extraction, line: string)
    requires StartsWith(line, "<cert>")
    ensures Step(st, line) == st.(inCert := true)
  {
    assert line[1] == "<cert>"[1];
    NotStartsWithAt(line, "<key>", 1);
    NotStartsWithAt(line, "</key>", 1);
  }

  lemma StepCloseCert(st: Extraction, line: string)
    requires StartsWith(line, "</cert>")
    ensures Step(st, line) == st.(inCert := false)
  {
    assert line[1] == "</cert>"[1] && line[2] == "</cert>"[2];
    NotStartsWithAt(line, "<key>", 1);
    NotStartsWithAt(line, "</key>", 2);
    NotStartsWithAt(line, "<cert>", 1);
  }

  lemma RunOne(st: Extraction, line: string)
    ensures Run(st, [line]) == Step(st, Strip(line, LineJunk))
  {
    assert [line][..0] == [];
  }

  /** The run over five consecutive parts of a profile, part by part. */
  lemma RunFive(a: seq<string>, b: string, c: seq<string>, d: string, e: seq<string>)
    ensures Run(Start, a + [b] + c + [d] + e)
         == Run(Step(Run(Step(Run(Start, a), Strip(b, LineJunk)), c), Strip(d, LineJunk)), e)
  {
    RunAppend(Start, a, [b]);
    RunOne(Run(Start, a), b);
    RunAppend(Start, a + [b], c);
    RunAppend(Start, a + [b] + c, [d]);
    RunOne(Run(Start, a + [b] + c), d);
    RunAppend(Start, a + [b] + c + [d], e);
  }

  /** Without a `<key>` line, a closed key block stays closed and the key file
      receives nothing. */
  lemma {:induction false} RunNoKeyOpen(st: Extraction, lines: seq<string>)
    requires !st.inKey
    requires forall i :: 0 <= i < |lines| ==> !StartsWith(Strip(lines[i], LineJunk), "<key>")
    ensures !Run(st, lines).inKey && Run(st, lines).key == st.key
    decreases |lines|
  {
    if lines != [] {
      RunNoKeyOpen(st, lines[..|lines| - 1]);
      StepKeepsKeyClosed(Run(st, lines[..|lines| - 1]), Strip(lines[|lines| - 1], LineJunk));
    }
  }

  /** A profile with one key block, opened by a line reading `<key>` and
      closed by one reading `</key>` once stripped, whose body holds no tag
      lines and around which no other `<key>` line occurs: the key file
      receives exactly the body lines, stripped, in order. */
  lemma KeyBlockExtracted(pre: seq<string>, open: string, body: seq<string>, close: string, post: seq<string>)
    requires forall i :: 0 <= i < |pre| ==> !StartsWith(Strip(pre[i], LineJunk), "<key>")
    requires StartsWith(Strip(open, LineJunk), "<key>")
    requires forall i :: 0 <= i < |body| ==> !IsTagLine(Strip(body[i], LineJunk))
    requires StartsWith(Strip(close, LineJunk), "</key>")
    requires forall i :: 0 <= i < |post| ==> !StartsWith(Strip(post[i], LineJunk), "<key>")
    ensures Run(Start, pre + [open] + body + [close] + post).key == StripAll(body)
  {
    RunFive(pre, open, body, close, post);
    RunNoKeyOpen(Start, pre);
    var s1 := Run(Start, pre);
    StepOpenKey(s1, Strip(open, LineJunk));
    RunPlain(s1.(inKey := true), body);
    var s3 := Run(s1.(inKey := true), body);
    StepCloseKey(s3, Strip(close, LineJunk));
    RunNoKeyOpen(s3.(inKey := false), post);
  }

  /** The same for one certificate block, `<cert>` ... `</cert>`: the
      certificate file receives exactly the body lines, stripped, in order. */
  lemma CertBlockExtracted(pre: seq<string>, open: string, body: seq<string>, close: string, post: seq<string>)
    requires forall i :: 0 <= i < |pre| ==> !StartsWith(Strip(pre[i], LineJunk), "<cert>")
    requires StartsWith(Strip(open, LineJunk), "<cert>")
    requires forall i :: 0 <= i < |body| ==> !IsTagLine(Strip(body[i], LineJunk))
    requires StartsWith(Strip(close, LineJunk), "</cert>")
    requires forall i :: 0 <= i < |post| ==> !StartsWith(Strip(post[i], LineJunk), "<cert>")
    ensures Run(Start, pre + [open] + body + [close] + post).cert == StripAll(body)
  {
    RunFive(pre, open, body, close, post);
    RunNoCertOpen(Start, pre);
    var s1 := Run(Start, pre);
    StepOpenCert(s1, Strip(open, LineJunk));
    RunPlain(s1.(inCert := true), body);
    var s3 := Run(s1.(inCert := true), body);
    StepCloseCert(s3, Strip(close, LineJunk));
    RunNoCertOpen(s3.(inCert := false), post);
  }

  lemma {:induction false} RunNoCertOpen(st: Extraction, lines: seq<string>)
    requires !st.inCert
    requires forall i :: 0 <= i < |lines| ==> !StartsWith(Strip(lines[i], LineJunk), "<cert>")
    ensures !Run(st, lines).inCert && Run(st, lines).cert == st.cert
    decreases |lines|
  {
    if lines != [] {
      RunNoCertOpen(st, lines[..|lines| - 1]);
      StepKeepsCertClosed(Run(st, lines[..|lines| - 1]), Strip(lines[|lines| - 1], LineJunk));
    }
  }
}
