/** The provider tables and the small lookups and key-mode predicates built on
    them (libs/vpnproviders.py). The tables are constants; the two settings
    that the user-defined provider consults are passed in. */
module Providers {
  import opened Strings

  /** Display names, in the order of `ProviderDirs`. */
  const ProviderDisplay: seq<string> := [
    "Private Internet Access", "IPVanish", "VyperVPN", "Invisible Browsing VPN", "NordVPN",
    "tigerVPN", "Hide My Ass", "PureVPN", "LiquidVPN", "AirVPN", "CyberGhost",
    "Perfect Privacy", "TorGuard", "User Defined", "LimeVPN", "HideIPVPN", "VPN Unlimited",
    "Hide.Me", "BTGuard", "ExpressVPN", "SaferVPN", "Celo", "VPN.ht", "TotalVPN", "WiTopia",
    "proXPN", "IVPN", "SecureVPN.to", "VPNSecure", "RA4W VPN", "Windscribe",
    "Smart DNS Proxy", "VPN.ac"]

  /** Directory names of the providers, parallel to `ProviderDisplay`. */
  const ProviderDirs: seq<string> := [
    "PIA", "IPVanish", "VyprVPN", "ibVPN", "NordVPN", "tigerVPN", "HMA", "PureVPN",
    "LiquidVPN", "AirVPN", "CyberGhost", "PerfectPrivacy", "TorGuard", "UserDefined",
    "LimeVPN", "HideIPVPN", "VPNUnlimited", "HideMe", "BTGuard", "ExpressVPN", "SaferVPN",
    "Celo", "VPN.ht", "TotalVPN", "WiTopia", "proXPN", "IVPN", "SecureVPN", "VPNSecure",
    "RA4WVPN", "Windscribe", "SmartDNSProxy", "VPN.ac"]

  const MultipleKeyProviders: seq<string> := ["PerfectPrivacy", "Celo", "SecureVPN", "VPNUnlimited"]
  const SingleKeyProviders: seq<string> := ["AirVPN", "CyberGhost", "HideIPVPN", "ExpressVPN", "WiTopia", "VPNSecure"]
  const NoPassProviders: seq<string> := ["AirVPN", "VPNUnlimited", "WiTopia", "VPNSecure"]

  const UserDefDisplay: string := "User Defined"
  const UserDefDir: string := "UserDefined"

  /** No name occurs twice across the two tables, except that an entry may
      share its display name and its directory name. */
  ghost predicate TablesDistinct(disp: seq<string>, dirs: seq<string>)
    requires |disp| == |dirs|
  {
    forall i, j :: 0 <= i < j < |dirs| ==>
      disp[i] != disp[j] && dirs[i] != dirs[j] && disp[i] != dirs[j] && dirs[i] != disp[j]
  }

  /** A summary of a name, its length with its first and last characters,
      which already tells all the names of the two tables apart. */
  function Signature(s: string): int {
    if s == [] then 0 else |s| * 0x110000 * 0x110000 + (s[0] as int) * 0x110000 + s[|s| - 1] as int
  }

  /** The table position of a name, found from its signature alone; -1 for a
      signature outside the tables. */
  function Rank(s: string): int {
    var g := Signature(s);
    if g == 28548736745587 || g == 3723825774657 then 0
    else if g == 9930045718632 then 1
    else if g == 9930060202062 || g == 8688814653518 then 2
    else if g == 27307483398222 || g == 6206344724558 then 3
    else if g == 8688805740622 then 4
    else if g == 9930093625422 then 5
    else if g == 13653781250163 || g == 3723816861761 then 6
    else if g == 8688807968846 then 7
    else if g == 11171294609486 then 8
    else if g == 7447545708622 then 9
    else if g == 12412530131060 then 10
    else if g == 18618772357241 || g == 17377526808697 then 11
    else if g == 9930057973860 then 12
    else if g == 14895041282148 || g == 13653795733604 then 13
    else if g == 8688803512398 then 14
    else if g == 11171290153038 then 15
    else if g == 16136287944804 || g == 14895042396260 then 16
    else if g == 8688799055973 || g == 7447553507429 then 17
    else if g == 8688792371300 then 18
    else if g == 12412532359246 then 19
    else if g == 9930056859726 then 20
    else if g == 4965056839791 then 21
    else if g == 7447569105012 then 22
    else if g == 9930057973838 then 23
    else if g == 8688815767649 then 24
    else if g == 7447598071886 then 25
    else if g == 4965063524430 then 26
    else if g == 14895039053935 || g == 11171302408270 then 27
    else if g == 11171305750629 then 28
    else if g == 9930055745614 || g == 8688810197070 then 29
    else if g == 12412552413285 then 30
    else if g == 18618775699577 || g == 16136284602489 then 31
    else if g == 7447569104995 then 32
    else -1
  }

  /** Rank inverts both tables at position i. */
  ghost predicate RanksAt(rank: string -> int, disp: seq<string>, dirs: seq<string>, i: nat)
    requires i < |disp| == |dirs|
  {
    rank(disp[i]) == i && rank(dirs[i]) == i
  }

  lemma Ranked0() ensures |ProviderDisplay| == |ProviderDirs| == 33 && RanksAt(Rank, ProviderDisplay, ProviderDirs, 0) { }
  lemma Ranked1() ensures |ProviderDisplay| == |ProviderDirs| == 33 && RanksAt(Rank, ProviderDisplay, ProviderDirs, 1) { }
  lemma Ranked2() ensures |ProviderDisplay| == |ProviderDirs| == 33 && RanksAt(Rank, ProviderDisplay, ProviderDirs, 2) { }
  lemma Ranked3() ensures |ProviderDisplay| == |ProviderDirs| == 33 && RanksAt(Rank, ProviderDisplay, ProviderDirs, 3) { }
  lemma Ranked4() ensures |ProviderDisplay| == |ProviderDirs| == 33 && RanksAt(Rank, ProviderDisplay, ProviderDirs, 4) { }
  lemma Ranked5() ensures |ProviderDisplay| == |ProviderDirs| == 33 && RanksAt(Rank, ProviderDisplay, ProviderDirs, 5) { }
  lemma Ranked6() ensures |ProviderDisplay| == |ProviderDirs| == 33 && RanksAt(Rank, ProviderDisplay, ProviderDirs, 6) { }
  lemma Ranked7() ensures |ProviderDisplay| == |ProviderDirs| == 33 && RanksAt(Rank, ProviderDisplay, ProviderDirs, 7) { }
  lemma Ranked8() ensures |ProviderDisplay| == |ProviderDirs| == 33 && RanksAt(Rank, ProviderDisplay, ProviderDirs, 8) { }
  lemma Ranked9() ensures |ProviderDisplay| == |ProviderDirs| == 33 && RanksAt(Rank, ProviderDisplay, ProviderDirs, 9) { }
  lemma Ranked10() ensures |ProviderDisplay| == |ProviderDirs| == 33 && RanksAt(Rank, ProviderDisplay, ProviderDirs, 10) { }
  lemma Ranked11() ensures |ProviderDisplay| == |ProviderDirs| == 33 && RanksAt(Rank, ProviderDisplay, ProviderDirs, 11) { }
  lemma Ranked12() ensures |ProviderDisplay| == |ProviderDirs| == 33 && RanksAt(Rank, ProviderDisplay, ProviderDirs, 12) { }
  lemma Ranked13() ensures |ProviderDisplay| == |ProviderDirs| == 33 && RanksAt(Rank, ProviderDisplay, ProviderDirs, 13) { }
  lemma Ranked14() ensures |ProviderDisplay| == |ProviderDirs| == 33 && RanksAt(Rank, ProviderDisplay, ProviderDirs, 14) { }
  lemma Ranked15() ensures |ProviderDisplay| == |ProviderDirs| == 33 && RanksAt(Rank, ProviderDisplay, ProviderDirs, 15) { }
  lemma Ranked16() ensures |ProviderDisplay| == |ProviderDirs| == 33 && RanksAt(Rank, ProviderDisplay, ProviderDirs, 16) { }
  lemma Ranked17() ensures |ProviderDisplay| == |ProviderDirs| == 33 && RanksAt(Rank, ProviderDisplay, ProviderDirs, 17) { }
  lemma Ranked18() ensures |ProviderDisplay| == |ProviderDirs| == 33 && RanksAt(Rank, ProviderDisplay, ProviderDirs, 18) { }
  lemma Ranked19() ensures |ProviderDisplay| == |ProviderDirs| == 33 && RanksAt(Rank, ProviderDisplay, ProviderDirs, 19) { }
  lemma Ranked20() ensures |ProviderDisplay| == |ProviderDirs| == 33 && RanksAt(Rank, ProviderDisplay, ProviderDirs, 20) { }
  lemma Ranked21() ensures |ProviderDisplay| == |ProviderDirs| == 33 && RanksAt(Rank, ProviderDisplay, ProviderDirs, 21) { }
  lemma Ranked22() ensures |ProviderDisplay| == |ProviderDirs| == 33 && RanksAt(Rank, ProviderDisplay, ProviderDirs, 22) { }
  lemma Ranked23() ensures |ProviderDisplay| == |ProviderDirs| == 33 && RanksAt(Rank, ProviderDisplay, ProviderDirs, 23) { }
  lemma Ranked24() ensures |ProviderDisplay| == |ProviderDirs| == 33 && RanksAt(Rank, ProviderDisplay, ProviderDirs, 24) { }
  lemma Ranked25() ensures |ProviderDisplay| == |ProviderDirs| == 33 && RanksAt(Rank, ProviderDisplay, ProviderDirs, 25) { }
  lemma Ranked26() ensures |ProviderDisplay| == |ProviderDirs| == 33 && RanksAt(Rank, ProviderDisplay, ProviderDirs, 26) { }
  lemma Ranked27() ensures |ProviderDisplay| == |ProviderDirs| == 33 && RanksAt(Rank, ProviderDisplay, ProviderDirs, 27) { }
  lemma Ranked28() ensures |ProviderDisplay| == |ProviderDirs| == 33 && RanksAt(Rank, ProviderDisplay, ProviderDirs, 28) { }
  lemma Ranked29() ensures |ProviderDisplay| == |ProviderDirs| == 33 && RanksAt(Rank, ProviderDisplay, ProviderDirs, 29) { }
  lemma Ranked30() ensures |ProviderDisplay| == |ProviderDirs| == 33 && RanksAt(Rank, ProviderDisplay, ProviderDirs, 30) { }
  lemma Ranked31() ensures |ProviderDisplay| == |ProviderDirs| == 33 && RanksAt(Rank, ProviderDisplay, ProviderDirs, 31) { }
  lemma Ranked32() ensures |ProviderDisplay| == |ProviderDirs| == 33 && RanksAt(Rank, ProviderDisplay, ProviderDirs, 32) { }

  /** The positions checked one by one, gathered into one statement. */
  lemma GatherRanks(rank: string -> int, disp: seq<string>, dirs: seq<string>)
    requires |disp| == |dirs| == 33
    requires RanksAt(rank, disp, dirs, 0)
    requires RanksAt(rank, disp, dirs, 1)
    requires RanksAt(rank, disp, dirs, 2)
    requires RanksAt(rank, disp, dirs, 3)
    requires RanksAt(rank, disp, dirs, 4)
    requires RanksAt(rank, disp, dirs, 5)
    requires RanksAt(rank, disp, dirs, 6)
    requires RanksAt(rank, disp, dirs, 7)
    requires RanksAt(rank, disp, dirs, 8)
    requires RanksAt(rank, disp, dirs, 9)
    requires RanksAt(rank, disp, dirs, 10)
    requires RanksAt(rank, disp, dirs, 11)
    requires RanksAt(rank, disp, dirs, 12)
    requires RanksAt(rank, disp, dirs, 13)
    requires RanksAt(rank, disp, dirs, 14)
    requires RanksAt(rank, disp, dirs, 15)
    requires RanksAt(rank, disp, dirs, 16)
    requires RanksAt(rank, disp, dirs, 17)
    requires RanksAt(rank, disp, dirs, 18)
    requires RanksAt(rank, disp, dirs, 19)
    requires RanksAt(rank, disp, dirs, 20)
    requires RanksAt(rank, disp, dirs, 21)
    requires RanksAt(rank, disp, dirs, 22)
    requires RanksAt(rank, disp, dirs, 23)
    requires RanksAt(rank, disp, dirs, 24)
    requires RanksAt(rank, disp, dirs, 25)
    requires RanksAt(rank, disp, dirs, 26)
    requires RanksAt(rank, disp, dirs, 27)
    requires RanksAt(rank, disp, dirs, 28)
    requires RanksAt(rank, disp, dirs, 29)
    requires RanksAt(rank, disp, dirs, 30)
    requires RanksAt(rank, disp, dirs, 31)
    requires RanksAt(rank, disp, dirs, 32)
    ensures forall i :: 0 <= i < |dirs| ==> rank(disp[i]) == i && rank(dirs[i]) == i
  {
    forall i | 0 <= i < |dirs|
      ensures rank(disp[i]) == i && rank(dirs[i]) == i
    {
      if i == 0 {
        assert RanksAt(rank, disp, dirs, 0);
      } else if i == 1 {
        assert RanksAt(rank, disp, dirs, 1);
      } else if i == 2 {
        assert RanksAt(rank, disp, dirs, 2);
      } else if i == 3 {
        assert RanksAt(rank, disp, dirs, 3);
      } else if i == 4 {
        assert RanksAt(rank, disp, dirs, 4);
      } else if i == 5 {
        assert RanksAt(rank, disp, dirs, 5);
      } else if i == 6 {
        assert RanksAt(rank, disp, dirs, 6);
      } else if i == 7 {
        assert RanksAt(rank, disp, dirs, 7);
      } else if i == 8 {
        assert RanksAt(rank, disp, dirs, 8);
      } else if i == 9 {
        assert RanksAt(rank, disp, dirs, 9);
      } else if i == 10 {
        assert RanksAt(rank, disp, dirs, 10);
      } else if i == 11 {
        assert RanksAt(rank, disp, dirs, 11);
      } else if i == 12 {
        assert RanksAt(rank, disp, dirs, 12);
      } else if i == 13 {
        assert RanksAt(rank, disp, dirs, 13);
      } else if i == 14 {
        assert RanksAt(rank, disp, dirs, 14);
      } else if i == 15 {
        assert RanksAt(rank, disp, dirs, 15);
      } else if i == 16 {
        assert RanksAt(rank, disp, dirs, 16);
      } else if i == 17 {
        assert RanksAt(rank, disp, dirs, 17);
      } else if i == 18 {
        assert RanksAt(rank, disp, dirs, 18);
      } else if i == 19 {
        assert RanksAt(rank, disp, dirs, 19);
      } else if i == 20 {
        assert RanksAt(rank, disp, dirs, 20);
      } else if i == 21 {
        assert RanksAt(rank, disp, dirs, 21);
      } else if i == 22 {
        assert RanksAt(rank, disp, dirs, 22);
      } else if i == 23 {
        assert RanksAt(rank, disp, dirs, 23);
      } else if i == 24 {
        assert RanksAt(rank, disp, dirs, 24);
      } else if i == 25 {
        assert RanksAt(rank, disp, dirs, 25);
      } else if i == 26 {
        assert RanksAt(rank, disp, dirs, 26);
      } else if i == 27 {
        assert RanksAt(rank, disp, dirs, 27);
      } else if i == 28 {
        assert RanksAt(rank, disp, dirs, 28);
      } else if i == 29 {
        assert RanksAt(rank, disp, dirs, 29);
      } else if i == 30 {
        assert RanksAt(rank, disp, dirs, 30);
      } else if i == 31 {
        assert RanksAt(rank, disp, dirs, 31);
      } else {
        assert RanksAt(rank, disp, dirs, 32);
      }
    }
  }

  /** Names that a function sends to their own positions cannot repeat. */
  lemma DistinctByRank(rank: string -> int, disp: seq<string>, dirs: seq<string>)
    requires |disp| == |dirs|
    requires forall i :: 0 <= i < |dirs| ==> rank(disp[i]) == i && rank(dirs[i]) == i
    ensures TablesDistinct(disp, dirs)
  {
    forall i, j | 0 <= i < j < |dirs|
      ensures disp[i] != disp[j] && dirs[i] != dirs[j] && disp[i] != dirs[j] && dirs[i] != disp[j]
    {
      assert rank(disp[i]) == i && rank(dirs[i]) == i;
      assert rank(disp[j]) == j && rank(dirs[j]) == j;
    }
  }

  lemma ConstantTablesDistinct()
    ensures |ProviderDisplay| == |ProviderDirs| == 33
    ensures TablesDistinct(ProviderDisplay, ProviderDirs)
  {
    Ranked0();
    Ranked1();
    Ranked2();
    Ranked3();
    Ranked4();
    Ranked5();
    Ranked6();
    Ranked7();
    Ranked8();
    Ranked9();
    Ranked10();
    Ranked11();
    Ranked12();
    Ranked13();
    Ranked14();
    Ranked15();
    Ranked16();
    Ranked17();
    Ranked18();
    Ranked19();
    Ranked20();
    Ranked21();
    Ranked22();
    Ranked23();
    Ranked24();
    Ranked25();
    Ranked26();
    Ranked27();
    Ranked28();
    Ranked29();
    Ranked30();
    Ranked31();
    Ranked32();
    GatherRanks(Rank, ProviderDisplay, ProviderDirs);
    DistinctByRank(Rank, ProviderDisplay, ProviderDirs);
  }

  lemma DirsNonEmpty() ensures forall i :: 0 <= i < |ProviderDirs| ==> ProviderDirs[i] != "" { }

  /** The loop of getVPNLocation from position `i` on. */
  function LocationFrom(v: string, disp: seq<string>, dirs: seq<string>, i: nat): (r: string)
    requires |disp| == |dirs| && i <= |dirs|
    ensures r == "" || exists k :: i <= k < |dirs| && r == dirs[k] && (v == disp[k] || v == dirs[k])
    ensures (forall k :: i <= k < |dirs| ==> dirs[k] != "") ==>
              (r == "" <==> forall k :: i <= k < |dirs| ==> v != disp[k] && v != dirs[k])
    decreases |dirs| - i
  {
    if i == |dirs| then ""
    else if v == disp[i] then dirs[i]
    else if v == dirs[i] then dirs[i]
    else LocationFrom(v, disp, dirs, i + 1)
  }

  /** getVPNLocation: the directory name for a display name or a directory
      name; "" for anything else. */
  function GetVPNLocation(v: string): (r: string)
    ensures r == "" <==> v !in ProviderDisplay && v !in ProviderDirs
    ensures r != "" ==> r in ProviderDirs
  {
    DirsNonEmpty();
    LocationFrom(v, ProviderDisplay, ProviderDirs, 0)
  }

  /** The loop of getVPNDisplay from position `i` on. */
  function DisplayFrom(v: string, disp: seq<string>, dirs: seq<string>, i: nat): (r: string)
    requires |disp| == |dirs| && i <= |dirs|
    ensures (forall k :: i <= k < |dirs| ==> v != dirs[k]) ==> r == v
    ensures (exists k :: i <= k < |dirs| && v == dirs[k]) ==>
              exists k :: i <= k < |dirs| && v == dirs[k] && r == disp[k]
    decreases |dirs| - i
  {
    if i == |dirs| then v
    else if v == dirs[i] then disp[i]
    else DisplayFrom(v, disp, dirs, i + 1)
  }

  /** getVPNDisplay: the display name of a directory name; anything else is
      returned unchanged. */
  function GetVPNDisplay(v: string): (r: string)
    ensures v !in ProviderDirs ==> r == v
    ensures v in ProviderDirs ==> r in ProviderDisplay
  {
    DisplayFrom(v, ProviderDisplay, ProviderDirs, 0)
  }

  /** With distinct tables the scans stop at the entry itself. */
  lemma {:induction false} LocationFromDisplayAt(disp: seq<string>, dirs: seq<string>, i: nat, j: nat)
    requires |disp| == |dirs| && TablesDistinct(disp, dirs) && i <= j < |dirs|
    ensures LocationFrom(disp[j], disp, dirs, i) == dirs[j]
    decreases j - i
  {
    if i < j {
      assert disp[i] != disp[j] && dirs[i] != disp[j];
      LocationFromDisplayAt(disp, dirs, i + 1, j);
    }
  }

  lemma {:induction false} LocationFromDirAt(disp: seq<string>, dirs: seq<string>, i: nat, j: nat)
    requires |disp| == |dirs| && TablesDistinct(disp, dirs) && i <= j < |dirs|
    ensures LocationFrom(dirs[j], disp, dirs, i) == dirs[j]
    decreases j - i
  {
    if i < j {
      assert disp[i] != dirs[j] && dirs[i] != dirs[j];
      LocationFromSkip(dirs[j], disp, dirs, i);
      LocationFromDirAt(disp, dirs, i + 1, j);
    } else {
      LocationFromHit(dirs[j], disp, dirs, j);
    }
  }

  lemma LocationFromSkip(v: string, disp: seq<string>, dirs: seq<string>, i: nat)
    requires |disp| == |dirs| && i < |dirs| && v != disp[i] && v != dirs[i]
    ensures LocationFrom(v, disp, dirs, i) == LocationFrom(v, disp, dirs, i + 1)
  {
  }

  lemma LocationFromHit(v: string, disp: seq<string>, dirs: seq<string>, i: nat)
    requires |disp| == |dirs| && i < |dirs| && v == dirs[i]
    ensures LocationFrom(v, disp, dirs, i) == dirs[i]
  {
  }

  lemma {:induction false} DisplayFromAt(disp: seq<string>, dirs: seq<string>, i: nat, j: nat)
    requires |disp| == |dirs| && TablesDistinct(disp, dirs) && i <= j < |dirs|
    ensures DisplayFrom(dirs[j], disp, dirs, i) == disp[j]
    decreases j - i
  {
    if i < j {
      assert dirs[i] != dirs[j];
      DisplayFromAt(disp, dirs, i + 1, j);
    }
  }

  /** getVPNLocation maps the j-th display name and the j-th directory name
      to the j-th directory name, and getVPNDisplay maps that back to the
      j-th display name. */
  lemma LocationDisplayRoundTrip(j: nat)
    requires j < |ProviderDirs|
    ensures GetVPNLocation(ProviderDisplay[j]) == ProviderDirs[j]
    ensures GetVPNLocation(ProviderDirs[j]) == ProviderDirs[j]
    ensures GetVPNDisplay(GetVPNLocation(ProviderDisplay[j])) == ProviderDisplay[j]
    ensures GetVPNLocation(GetVPNDisplay(ProviderDirs[j])) == ProviderDirs[j]
  {
    ConstantTablesDistinct();
    LocationFromDisplayAt(ProviderDisplay, ProviderDirs, 0, j);
    LocationFromDirAt(ProviderDisplay, ProviderDirs, 0, j);
    DisplayFromAt(ProviderDisplay, ProviderDirs, 0, j);
  }

  /** isUserDefined: the synthetic provider used for imported profiles. */
  predicate IsUserDefined(p: string) {
    p == UserDefDir || p == UserDefDisplay
  }

  /** usesSingleKey; `userDefKeys` is the "user_def_keys" setting. */
  predicate UsesSingleKey(p: string, userDefKeys: string) {
    (IsUserDefined(p) && userDefKeys == "Single") || p in SingleKeyProviders
  }

  /** usesMultipleKeys; `userDefKeys` is the "user_def_keys" setting. */
  predicate UsesMultipleKeys(p: string, userDefKeys: string) {
    (IsUserDefined(p) && userDefKeys == "Multiple") || p in MultipleKeyProviders
  }

  /** usesUserKeys */
  predicate UsesUserKeys(p: string, userDefKeys: string) {
    UsesSingleKey(p, userDefKeys) || UsesMultipleKeys(p, userDefKeys)
  }

  /** usesPassAuth; `userDefCredentials` is the "user_def_credentials" setting. */
  predicate UsesPassAuth(p: string, userDefCredentials: string) {
    if IsUserDefined(p) then userDefCredentials == "true" else p !in NoPassProviders
  }

  /** No provider is both a single-key and a multiple-key provider, so the
      order in which getKeyName and getCertName test the two does not matter. */
  lemma KeyModesExclusive(p: string, userDefKeys: string)
    ensures !(UsesSingleKey(p, userDefKeys) && UsesMultipleKeys(p, userDefKeys))
  {
  }

  /** Every built-in provider that does without a password authenticates
      with user keys instead. */
  lemma NoPasswordMeansKeys(p: string, userDefKeys: string, userDefCredentials: string)
    requires !IsUserDefined(p) && !UsesPassAuth(p, userDefCredentials)
    ensures UsesUserKeys(p, userDefKeys)
  {
  }

  /** The stem shared by a provider's key and certificate file names. */
  function KeyStem(p: string, ovpnName: string, userDefKeys: string): string {
    if UsesSingleKey(p, userDefKeys) then "user"
    else if UsesMultipleKeys(p, userDefKeys) then "user_" + ReplaceAll(ovpnName, " ", "_")
    else ""
  }

  /** getKeyName */
  function GetKeyName(p: string, ovpnName: string, userDefKeys: string): string {
    var stem := KeyStem(p, ovpnName, userDefKeys);
    if stem == "" then "" else stem + ".key"
  }

  /** getCertName */
  function GetCertName(p: string, ovpnName: string, userDefKeys: string): string {
    var stem := KeyStem(p, ovpnName, userDefKeys);
    if stem == "" then "" else stem + ".crt"
  }

  /** Key and certificate names: empty exactly for providers without user
      keys; otherwise one stem with ".key" and ".crt", the stem being "user"
      for single-key providers and "user_" plus the profile name with its
      spaces turned into underscores for multiple-key providers. */
  lemma KeyAndCertNames(p: string, ovpnName: string, userDefKeys: string)
    ensures (GetKeyName(p, ovpnName, userDefKeys) == "") == !UsesUserKeys(p, userDefKeys)
    ensures (GetCertName(p, ovpnName, userDefKeys) == "") == !UsesUserKeys(p, userDefKeys)
    ensures UsesUserKeys(p, userDefKeys) ==>
      GetKeyName(p, ovpnName, userDefKeys) == KeyStem(p, ovpnName, userDefKeys) + ".key" &&
      GetCertName(p, ovpnName, userDefKeys) == KeyStem(p, ovpnName, userDefKeys) + ".crt"
    ensures UsesSingleKey(p, userDefKeys) ==> KeyStem(p, ovpnName, userDefKeys) == "user"
    ensures UsesMultipleKeys(p, userDefKeys) ==>
      var stem := KeyStem(p, ovpnName, userDefKeys);
      StartsWith(stem, "user_") && ' ' !in stem && |stem| == 5 + |ovpnName| &&
      forall i :: 0 <= i < |ovpnName| ==> stem[5 + i] == if ovpnName[i] == ' ' then '_' else ovpnName[i]
  {
    KeyModesExclusive(p, userDefKeys);
    if UsesMultipleKeys(p, userDefKeys) {
      var u := ReplaceAll(ovpnName, " ", "_");
      ReplaceCharGone(ovpnName, ' ', '_');
      ReplaceCharAt(ovpnName, ' ', '_');
      assert ("user_" + u)[..5] == "user_";
      forall i | 0 <= i < |ovpnName|
        ensures ("user_" + u)[5 + i] == if ovpnName[i] == ' ' then '_' else ovpnName[i]
      {
        assert ("user_" + u)[5 + i] == u[i];
      }
    } else if !UsesSingleKey(p, userDefKeys) {
      assert KeyStem(p, ovpnName, userDefKeys) == "";
    }
  }
}
