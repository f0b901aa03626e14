/** What the import wizard concludes once every profile is written: the two
    settings that tell the user-defined provider how to authenticate, the
    warnings of the import summary, and the protocol rename of a profile.
    The settings are returned as values; the summary is a list of warnings. */
module ImportReport {
  import opened Strings
  import opened ImportLines

  /** user_def_credentials: ask for a user name and password only when
      password lines were seen and none was resolved to a supplied file. */
  function Credentials(t: Tally): (r: string)
    ensures r == "true" || r == "false"
    ensures r == "true" <==> t.auth.count > 0 && t.auth.found == 0
  {
    if t.auth.count > 0 then (if t.auth.found > 0 then "false" else "true") else "false"
  }

  /** user_def_keys: no key and certificate to ask for when none is named
      or some were resolved to supplied files; otherwise one pair, or one
      per profile when different names were seen. */
  function KeyMode(t: Tally): (r: string)
    ensures r == "None" || r == "Multiple" || r == "Single"
    ensures r == "None" <==>
      (t.cert.count == 0 && t.key.count == 0) || t.cert.found > 0 || t.key.found > 0
    ensures r == "Multiple" <==>
      (t.cert.count > 0 || t.key.count > 0) && t.cert.found == 0 && t.key.found == 0 &&
      (t.certs.multiple || t.keys.multiple)
  {
    if t.cert.count > 0 || t.key.count > 0 then
      if t.cert.found > 0 || t.key.found > 0 then "None"
      else if t.certs.multiple || t.keys.multiple then "Multiple"
      else "Single"
    else "None"
  }

  /** The WARNING lines of the import summary; `profiles` is the number of
      `.ovpn` files imported. */
  datatype Warning =
    | AuthPartlyResolved(found: nat, count: nat)
    | AuthInSomeProfiles(count: nat, profiles: nat)
    | TagsPartlyResolved
    | TagsInSomeProfiles(keys: nat, certs: nat, profiles: nat)
    | EmbeddedMismatch(keys: nat, certs: nat, profiles: nat)
    | FileUnused(name: string)
    | FileCountDiffers(name: string, profiles: nat)

  /** The password warnings (import.py:276-288). */
  function AuthWarnings(t: Tally, n: nat): seq<Warning> {
    if t.auth.count > 0 then
      (if t.auth.found > 0 && t.auth.found != t.auth.count then [AuthPartlyResolved(t.auth.found, t.auth.count)] else []) +
      (if t.auth.count < n then [AuthInSomeProfiles(t.auth.count, n)] else [])
    else []
  }

  /** The test made before reporting embedded keys and certificates as
      fine, as the wizard writes it: the key tag count must match the number
      of profiles. The test sits where no key or cert tag was seen at all. */
  predicate EmbeddedOkAsWritten(t: Tally, n: nat) {
    t.ekey == t.ecert && t.key.count == n
  }

  /** The test as intended: one embedded key and one embedded certificate
      per profile. */
  predicate EmbeddedOk(t: Tally, n: nat) {
    t.ekey == t.ecert && t.ekey == n
  }

  /** The warnings when key or cert lines were seen (import.py:295-313). */
  function TagWarnings(t: Tally, n: nat): seq<Warning> {
    (if (t.cert.found > 0 || t.key.found > 0) && (t.cert.found != t.cert.count || t.key.found != t.key.count)
     then [TagsPartlyResolved] else []) +
    (if t.cert.count < n || t.key.count < n then [TagsInSomeProfiles(t.key.count, t.cert.count, n)] else [])
  }

  /** The key and certificate warnings, with the embedded-key test that
      `fine` decides. */
  function KeyWarningsBy(t: Tally, n: nat, fine: bool): seq<Warning> {
    if t.cert.count > 0 || t.key.count > 0 then TagWarnings(t, n)
    else if t.ekey > 0 || t.ecert > 0 then
      (if fine then [] else [EmbeddedMismatch(t.ekey, t.ecert, n)])
    else []
  }

  /** The key and certificate warnings as the wizard writes them, with the
      embedded-key test of EmbeddedOkAsWritten. */
  function KeyWarningsAsWritten(t: Tally, n: nat): seq<Warning> {
    KeyWarningsBy(t, n, EmbeddedOkAsWritten(t, n))
  }

  /** The key and certificate warnings (import.py:295-323) with the
      embedded-key test corrected to EmbeddedOk; the summary this model
      gives uses this one. */
  function KeyWarnings(t: Tally, n: nat): seq<Warning> {
    KeyWarningsBy(t, n, EmbeddedOk(t, n))
  }

  /** The warning about one of the other files, used `used` times where
      `n` was expected. */
  function FileWarning(name: string, used: nat, n: nat): Warning {
    if used == 0 then FileUnused(name) else FileCountDiffers(name, n)
  }

  function UsageWarning(name: string, used: nat, n: nat): seq<Warning> {
    if used != n then [FileWarning(name, used, n)] else []
  }

  /** The file-use warnings, one per other file in turn (import.py:327-334). */
  function UsageWarnings(others: seq<string>, used: seq<nat>, n: nat): seq<Warning>
    requires |others| == |used|
    decreases |others|
  {
    if others == [] then [] else UsageWarning(others[0], used[0], n) + UsageWarnings(others[1..], used[1..], n)
  }

  /** The warnings of an import that updated its profiles, in the order
      the summary gives them, with the corrected embedded-key test. */
  function Warnings(t: Tally, n: nat, others: seq<string>): seq<Warning>
    requires |others| == |t.used|
  {
    AuthWarnings(t, n) + KeyWarnings(t, n) + UsageWarnings(others, t.used, n)
  }

  // Properties of the report

  /** The password warnings: partly resolved exactly when some but not all
      password lines were resolved, and "only in some profiles" exactly when
      fewer password lines than profiles were seen. */
  lemma AuthWarningsIff(t: Tally, n: nat)
    requires t.auth.found <= t.auth.count
    ensures AuthPartlyResolved(t.auth.found, t.auth.count) in AuthWarnings(t, n) <==>
      0 < t.auth.found < t.auth.count
    ensures AuthInSomeProfiles(t.auth.count, n) in AuthWarnings(t, n) <==> 0 < t.auth.count < n
    ensures |AuthWarnings(t, n)| <= 2
    ensures AuthWarnings(t, n) == [] <==>
      t.auth.count == 0 || ((t.auth.found == 0 || t.auth.found == t.auth.count) && n <= t.auth.count)
  {
  }

  /** With key or cert lines seen: "partly resolved" is warned exactly when
      some but not all of them were resolved, "only in some profiles"
      exactly when fewer key or cert lines were seen than profiles, and
      nothing else is warned. */
  lemma KeyTagWarningsIff(t: Tally, n: nat)
    requires t.cert.count > 0 || t.key.count > 0
    ensures TagsPartlyResolved in KeyWarnings(t, n) <==>
      (t.cert.found > 0 || t.key.found > 0) && (t.cert.found != t.cert.count || t.key.found != t.key.count)
    ensures TagsInSomeProfiles(t.key.count, t.cert.count, n) in KeyWarnings(t, n) <==>
      t.cert.count < n || t.key.count < n
    ensures forall w :: w in KeyWarnings(t, n) ==>
      w == TagsPartlyResolved || w == TagsInSomeProfiles(t.key.count, t.cert.count, n)
    ensures KeyWarnings(t, n) == KeyWarningsAsWritten(t, n)
  {
  }

  /** No key or cert line and no embedded key or certificate: nothing to
      warn about, whichever test is used. */
  lemma KeyWarningsNoneSeen(t: Tally, n: nat)
    requires t.cert.count == 0 && t.key.count == 0 && t.ekey == 0 && t.ecert == 0
    ensures KeyWarnings(t, n) == [] && KeyWarningsAsWritten(t, n) == []
  {
  }

  /** An import gives no warning exactly when each of its three parts gives
      none: passwords, keys and certificates, and the other files. */
  lemma WarningsNone(t: Tally, n: nat, others: seq<string>)
    requires |others| == |t.used|
    ensures Warnings(t, n, others) == [] <==>
      AuthWarnings(t, n) == [] && KeyWarnings(t, n) == [] &&
      forall i :: 0 <= i < |t.used| ==> t.used[i] == n
  {
    UsageWarningsNone(others, t.used, n);
  }

  /** No usage warning exactly when every other file was used once per
      profile. */
  lemma {:induction false} UsageWarningsNone(others: seq<string>, used: seq<nat>, n: nat)
    requires |others| == |used|
    ensures UsageWarnings(others, used, n) == [] <==> forall i :: 0 <= i < |used| ==> used[i] == n
    decreases |others|
  {
    if others != [] {
      UsageWarningsNone(others[1..], used[1..], n);
      if forall i :: 0 <= i < |used| ==> used[i] == n {
        assert forall i :: 0 <= i < |used[1..]| ==> used[1..][i] == used[i + 1];
      } else if used[0] == n {
        var i :| 0 <= i < |used| && used[i] != n;
        assert used[1..][i - 1] == used[i];
      }
    }
  }

  /** Every other file not used once per profile gets its warning. */
  lemma {:induction false} UsageWarningsComplete(others: seq<string>, used: seq<nat>, n: nat)
    requires |others| == |used|
    ensures forall i :: 0 <= i < |used| && used[i] != n ==>
      FileWarning(others[i], used[i], n) in UsageWarnings(others, used, n)
    decreases |others|
  {
    if others != [] {
      UsageWarningsComplete(others[1..], used[1..], n);
      var rest := UsageWarnings(others[1..], used[1..], n);
      assert UsageWarnings(others, used, n) == UsageWarning(others[0], used[0], n) + rest;
      forall i | 0 < i < |used| && used[i] != n
        ensures FileWarning(others[i], used[i], n) in rest
      {
        assert used[1..][i - 1] == used[i] && others[1..][i - 1] == others[i];
      }
    }
  }

  /** Every usage warning is about an other file not used once per profile. */
  lemma {:induction false} UsageWarningsSound(others: seq<string>, used: seq<nat>, n: nat)
    requires |others| == |used|
    ensures forall w :: w in UsageWarnings(others, used, n) ==>
      (exists i :: 0 <= i < |used| && used[i] != n && w == FileWarning(others[i], used[i], n))
    decreases |others|
  {
    if others != [] {
      UsageWarningsSound(others[1..], used[1..], n);
      var rest := UsageWarnings(others[1..], used[1..], n);
      assert UsageWarnings(others, used, n) == UsageWarning(others[0], used[0], n) + rest;
      forall w | w in rest
        ensures exists i :: 0 <= i < |used| && used[i] != n && w == FileWarning(others[i], used[i], n)
      {
        var j :| 0 <= j < |used[1..]| && used[1..][j] != n && w == FileWarning(others[1..][j], used[1..][j], n);
        assert used[j + 1] == used[1..][j] && others[j + 1] == others[1..][j];
      }
    }
  }

  /** As written, embedded keys and certificates are never reported as
      fine: with no key or cert tag the key tag count is 0, and an import
      always holds at least one profile. */
  lemma EmbeddedAlwaysWarnsAsWritten(t: Tally, n: nat)
    requires n > 0 && t.cert.count == 0 && t.key.count == 0
    ensures !EmbeddedOkAsWritten(t, n)
  {
  }

  /** One profile with one embedded key and one embedded certificate and no
      key or cert lines: the test as written rejects it. */
  lemma EmbeddedPairRejectedAsWritten()
    ensures !EmbeddedOkAsWritten(
      Tally(Tags(0, 0), Tags(0, 0), Tags(0, 0), 1, 1, Distinct("", false), Distinct("", false), []), 1)
    ensures KeyWarningsAsWritten(
      Tally(Tags(0, 0), Tags(0, 0), Tags(0, 0), 1, 1, Distinct("", false), Distinct("", false), []), 1) ==
      [EmbeddedMismatch(1, 1, 1)]
    ensures KeyWarnings(
      Tally(Tags(0, 0), Tags(0, 0), Tags(0, 0), 1, 1, Distinct("", false), Distinct("", false), []), 1) == []
  {
  }

  /** As written, every import with embedded keys or certificates and no key
      or cert line gets the mismatch warning. */
  lemma EmbeddedMismatchAlwaysAsWritten(t: Tally, n: nat)
    requires n > 0 && t.cert.count == 0 && t.key.count == 0 && (t.ekey > 0 || t.ecert > 0)
    ensures KeyWarningsAsWritten(t, n) == [EmbeddedMismatch(t.ekey, t.ecert, n)]
  {
    EmbeddedAlwaysWarnsAsWritten(t, n);
  }

  /** With the intended test, embedded keys and certificates raise no
      warning exactly when each profile holds one of each. */
  lemma EmbeddedWarning(t: Tally, n: nat)
    requires t.cert.count == 0 && t.key.count == 0 && (t.ekey > 0 || t.ecert > 0)
    ensures KeyWarnings(t, n) == [] <==> t.ekey == n && t.ecert == n
    ensures KeyWarnings(t, n) != [] ==> KeyWarnings(t, n) == [EmbeddedMismatch(t.ekey, t.ecert, n)]
  {
  }

  // The rename (import.py:237-245)

  /** A profile named `stem.ovpn`, whose stem holds no ".ovpn", is renamed
      to `stem (PROTO).ovpn`, unless a file of that name already exists. */
  lemma RenameAppends(stem: string, proto: string, taken: bool)
    requires !Contains(stem, ".ovpn")
    ensures RenameTarget(stem + ".ovpn", proto) == stem + " (" + proto + ").ovpn"
    ensures Renamed(stem + ".ovpn", proto, taken) ==
      if taken then stem + ".ovpn" else stem + " (" + proto + ").ovpn"
  {
    TargetAppends(stem, proto);
  }

  lemma TargetAppends(stem: string, proto: string)
    requires !Contains(stem, ".ovpn")
    ensures RenameTarget(stem + ".ovpn", proto) == stem + " (" + proto + ").ovpn"
  {
    var pat := ".ovpn";
    var rep := " (" + proto + ").ovpn";
    var s := stem + pat;
    NoMatchInStem(stem, pat);
    ReplaceAllSkipPrefix(s, pat, rep, |stem|);
    assert s[..|stem|] == stem && s[|stem|..] == pat;
    assert ReplaceAll(pat, pat, rep) == rep + ReplaceAll([], pat, rep);
  }

  /** A pattern whose first character does not recur in it starts nowhere
      inside a stem that does not contain it, even with the pattern appended. */
  lemma NoMatchInStem(stem: string, pat: string)
    requires pat != [] && !Contains(stem, pat)
    requires forall j :: 0 < j < |pat| ==> pat[j] != pat[0]
    ensures forall i :: 0 <= i < |stem| ==> !StartsWith((stem + pat)[i..], pat)
  {
    var s := stem + pat;
    forall i | 0 <= i < |stem|
      ensures !StartsWith(s[i..], pat)
    {
      if i + |pat| <= |stem| {
        assert s[i..][..|pat|] == stem[i..i + |pat|];
        if stem[i..i + |pat|] == pat {
          ContainsAt(stem, pat, i);
        }
      } else {
        var j := |stem| - i;
        assert s[i..][j] == pat[0];
        NotStartsWithAt(s[i..], pat, j);
      }
    }
  }

  /** An existing file of the target name stops the rename. */
  lemma RenameKeepsTaken(dest: string, proto: string)
    ensures Renamed(dest, proto, true) == dest
    ensures Renamed(dest, proto, false) == RenameTarget(dest, proto)
  {
  }
}
