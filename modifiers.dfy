/** The `#TAG=value` modifiers that the fifth field of a location line may
    carry (generateOVPNFiles, libs/vpnproviders.py). Each modifier overrides
    one or more of the per-location values that the template's tags are
    replaced with. */
module Modifiers {
  import opened Strings

  datatype Option<T> = None | Some(value: T)

  /** The per-location values a modifier can override. */
  datatype Mods = Mods(
    caCert: string,       // #CERT
    removeFlags: string,  // #REMOVE
    taKey: string,        // #TLSKEY
    userKey: string,      // #USERKEY
    userCert: string,     // #USERCERT
    crlPem: string,       // #CRLVERIFY
    dhParm: string,       // #DH
    user1: string,        // #USER1
    user2: string,        // #USER2
    pingSpeed: string,    // #PINGSPEED
    pingExit: string)     // #PINGEXIT

  datatype Tag = Cert | Remove | TlsKey | UserKey | UserCert | CrlVerify | Dh | User1 | User2 | PingSpeed | PingExit

  function TagText(t: Tag): string {
    match t
    case Cert => "#CERT"
    case Remove => "#REMOVE"
    case TlsKey => "#TLSKEY"
    case UserKey => "#USERKEY"
    case UserCert => "#USERCERT"
    case CrlVerify => "#CRLVERIFY"
    case Dh => "#DH"
    case User1 => "#USER1"
    case User2 => "#USER2"
    case PingSpeed => "#PINGSPEED"
    case PingExit => "#PINGEXIT"
  }

  function Get(m: Mods, t: Tag): string {
    match t
    case Cert => m.caCert
    case Remove => m.removeFlags
    case TlsKey => m.taKey
    case UserKey => m.userKey
    case UserCert => m.userCert
    case CrlVerify => m.crlPem
    case Dh => m.dhParm
    case User1 => m.user1
    case User2 => m.user2
    case PingSpeed => m.pingSpeed
    case PingExit => m.pingExit
  }

  /** The name part of a modifier: the text before its first '='. */
  function Name(modifier: string): string {
    SplitOn(modifier, '=')[0]
  }

  /** Whether the modifier's name mentions tag `t` (a substring test). */
  predicate Mentions(modifier: string, t: Tag) {
    Contains(Name(modifier), TagText(t))
  }

  predicate MentionsAny(modifier: string) {
    Mentions(modifier, Cert) || Mentions(modifier, Remove) || Mentions(modifier, TlsKey) ||
    Mentions(modifier, UserKey) || Mentions(modifier, UserCert) || Mentions(modifier, CrlVerify) ||
    Mentions(modifier, Dh) || Mentions(modifier, User1) || Mentions(modifier, User2) ||
    Mentions(modifier, PingSpeed) || Mentions(modifier, PingExit)
  }

  /** The value part: the text between the first and the second '=', with
      surrounding whitespace stripped; "" when there is no '='. */
  function Value(modifier: string): string {
    var pair := SplitOn(modifier, '=');
    if |pair| < 2 then "" else Strip(pair[1], Whitespace)
  }

  /** Every value whose tag the modifier mentions, set to its value. */
  function SetMentioned(m: Mods, modifier: string): Mods {
    var v := Value(modifier);
    Mods(
      if Mentions(modifier, Cert) then v else m.caCert,
      if Mentions(modifier, Remove) then v else m.removeFlags,
      if Mentions(modifier, TlsKey) then v else m.taKey,
      if Mentions(modifier, UserKey) then v else m.userKey,
      if Mentions(modifier, UserCert) then v else m.userCert,
      if Mentions(modifier, CrlVerify) then v else m.crlPem,
      if Mentions(modifier, Dh) then v else m.dhParm,
      if Mentions(modifier, User1) then v else m.user1,
      if Mentions(modifier, User2) then v else m.user2,
      if Mentions(modifier, PingSpeed) then v else m.pingSpeed,
      if Mentions(modifier, PingExit) then v else m.pingExit)
  }

  /** A modifier that names a tag but gives no value. */
  predicate Malformed(modifier: string) {
    MentionsAny(modifier) && '=' !in modifier
  }

  /** The effect of one modifier: every value whose tag the name mentions is
      set to the modifier's value. A name that mentions a tag but has no '='
      is an error (the value lookup fails). */
  function ApplyModifier(m: Mods, modifier: string): (r: Option<Mods>)
    ensures r.None? <==> Malformed(modifier)
  {
    NoSeparatorOnePiece(modifier, '=');
    if |SplitOn(modifier, '=')| < 2 && MentionsAny(modifier) then None
    else Some(SetMentioned(m, modifier))
  }

  /** What one successful modifier does to the value of tag `t`. */
  lemma ApplyModifierGet(m: Mods, modifier: string, t: Tag)
    requires ApplyModifier(m, modifier).Some?
    ensures Get(ApplyModifier(m, modifier).value, t) == if Mentions(modifier, t) then Value(modifier) else Get(m, t)
  {
    assert ApplyModifier(m, modifier).value == SetMentioned(m, modifier);
  }

  /** A text splits into one piece exactly when it holds no separator. */
  lemma {:induction false} NoSeparatorOnePiece(s: string, c: char)
    ensures |SplitOn(s, c)| == 1 <==> c !in s
    decreases |s|
  {
    if s != [] {
      NoSeparatorOnePiece(s[1..], c);
      assert c in s <==> s[0] == c || c in s[1..] by { ConsSelf(s); }
    }
  }

  /** The modifier loop over all the tuples of one location line, as a fold;
      None once a modifier fails. */
  function ApplyAll(m: Mods, tuples: seq<string>): Option<Mods>
    decreases |tuples|
  {
    if tuples == [] then Some(m)
    else
      var prev := ApplyAll(m, tuples[..|tuples| - 1]);
      if prev.None? then None else ApplyModifier(prev.value, tuples[|tuples| - 1])
  }

  /** The modifier loop of generateOVPNFiles: the tuples are applied in
      order, and the first one that mentions a tag without giving a value
      aborts the location. */
  method ParseModifiers(defaults: Mods, tuples: seq<string>) returns (m: Mods, ok: bool)
    ensures ok <==> ApplyAll(defaults, tuples).Some?
    ensures ok ==> m == ApplyAll(defaults, tuples).value
  {
    m := defaults;
    var i := 0;
    assert tuples[..0] == [];
    while i < |tuples|
      invariant 0 <= i <= |tuples|
      invariant ApplyAll(defaults, tuples[..i]) == Some(m)
    {
      ApplyAllSnoc(defaults, tuples, i);
      var next := ApplyModifier(m, tuples[i]);
      if next.None? {
        ok := false;
        FailureStays(defaults, tuples, i + 1);
        return;
      }
      m := next.value;
      i := i + 1;
    }
    assert tuples[..i] == tuples;
    ok := true;
  }

  lemma ApplyAllSnoc(m: Mods, tuples: seq<string>, i: nat)
    requires i < |tuples|
    ensures ApplyAll(m, tuples[..i + 1]) ==
      if ApplyAll(m, tuples[..i]).None? then None else ApplyModifier(ApplyAll(m, tuples[..i]).value, tuples[i])
  {
    assert tuples[..i + 1][..i] == tuples[..i];
  }

  /** Once the fold has failed, it stays failed. */
  lemma {:induction false} FailureStays(m: Mods, tuples: seq<string>, n: nat)
    requires 0 < n <= |tuples| && ApplyAll(m, tuples[..n]).None?
    ensures ApplyAll(m, tuples).None?
    decreases |tuples| - n
  {
    if n < |tuples| {
      assert tuples[..n + 1][..n] == tuples[..n];
      FailureStays(m, tuples, n + 1);
    } else {
      assert tuples[..n] == tuples;
    }
  }

  /** The value a tag ends with: that of the last modifier mentioning it, or
      the default when none does. */
  function LastValue(tuples: seq<string>, t: Tag, default: string): string
    decreases |tuples|
  {
    if tuples == [] then default
    else if Mentions(tuples[|tuples| - 1], t) then Value(tuples[|tuples| - 1])
    else LastValue(tuples[..|tuples| - 1], t, default)
  }

  /** Later modifiers win: after a successful loop every value is the one the
      last modifier mentioning its tag gave, or its default. */
  lemma {:induction false} LastModifierWins(m: Mods, tuples: seq<string>, t: Tag)
    requires ApplyAll(m, tuples).Some?
    ensures Get(ApplyAll(m, tuples).value, t) == LastValue(tuples, t, Get(m, t))
    decreases |tuples|
  {
    if tuples != [] {
      LastModifierWins(m, tuples[..|tuples| - 1], t);
      ApplyModifierGet(ApplyAll(m, tuples[..|tuples| - 1]).value, tuples[|tuples| - 1], t);
    }
  }

  /** The loop fails exactly when some modifier mentions a tag but has no '='. */
  lemma {:induction false} ModifiersFail(m: Mods, tuples: seq<string>)
    ensures ApplyAll(m, tuples).None? <==> exists k :: 0 <= k < |tuples| && Malformed(tuples[k])
    decreases |tuples|
  {
    if tuples != [] {
      var n := |tuples| - 1;
      var init := tuples[..n];
      ModifiersFail(m, init);
      ApplyAllSnoc(m, tuples, n);
      var prev := ApplyAll(m, init);
      if prev.None? {
        var k :| 0 <= k < |init| && Malformed(init[k]);
        assert tuples[k] == init[k];
      } else if Malformed(tuples[n]) {
      } else {
        NoneInSnoc(Malformed, init, tuples);
      }
    }
  }

  /** No bad element in `init + [last]` when none in `init` and `last` is good. */
  lemma NoneInSnoc(bad: string -> bool, init: seq<string>, s: seq<string>)
    requires s != [] && init == s[..|s| - 1]
    requires !exists k :: 0 <= k < |init| && bad(init[k])
    requires !bad(s[|s| - 1])
    ensures !exists k :: 0 <= k < |s| && bad(s[k])
  {
    forall k | 0 <= k < |s| - 1
      ensures !bad(s[k])
    {
      assert init[k] == s[k];
    }
  }

  /** Round trip of one modifier: `#TAG=v`, for a value `v` without '=' and
      without surrounding whitespace, sets the tag's value to `v`. */
  lemma ModifierSetsTag(m: Mods, t: Tag, v: string)
    requires '=' !in v && Strip(v, Whitespace) == v
    ensures ApplyModifier(m, TagText(t) + "=" + v).Some?
    ensures Get(ApplyModifier(m, TagText(t) + "=" + v).value, t) == v
    ensures Name(TagText(t) + "=" + v) == TagText(t)
  {
    var s := TagText(t) + "=" + v;
    TagTextNoEquals(t);
    assert s == TagText(t) + ['='] + v;
    SplitOnPrefix(TagText(t), '=', v);
    SplitOnNone(v, '=');
    assert SplitOn(s, '=') == [TagText(t), v];
    StartsWithSelf(TagText(t));
    assert Mentions(s, t);
    ApplyModifierGet(m, s, t);
  }

  lemma TagTextNoEquals(t: Tag)
    ensures '=' !in TagText(t)
  {
    match t
    case Cert =>
    case Remove =>
    case TlsKey =>
    case UserKey =>
    case UserCert =>
    case CrlVerify =>
    case Dh =>
    case User1 =>
    case User2 =>
    case PingSpeed =>
    case PingExit =>
  }
}
