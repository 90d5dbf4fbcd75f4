/** Properties of the kernel-version matcher. */
module MatcherLemmas {
  import opened Wrappers
  import opened Strings
  import opened Matcher

  /** Two prefixes that differ at a position both reach cannot both start one string. */
  lemma {:induction false} PrefixesClash(s: string, p: string, q: string, i: nat)
    requires i < |p| && i < |q| && p[i] != q[i]
    ensures StartsWith(s, p) ==> !StartsWith(s, q)
  {
    if StartsWith(s, p) && |q| <= |s| {
      assert s[..|p|][i] == s[i];
      assert s[..|q|][i] == s[i];
    }
  }

  /**
   * The eight family prefixes are pairwise exclusive, so the order in which
   * they are tested never decides the outcome.
   */
  lemma FamilyPrefixesDisjoint(s: string)
    ensures forall i, j :: 0 <= i < j < |SUPPORTED_VERSIONS| ==>
      !(StartsWith(s, SUPPORTED_VERSIONS[i]) && StartsWith(s, SUPPORTED_VERSIONS[j]))
  {
    forall i, j | 0 <= i < j < |SUPPORTED_VERSIONS|
      ensures !(StartsWith(s, SUPPORTED_VERSIONS[i]) && StartsWith(s, SUPPORTED_VERSIONS[j]))
    {
      var p, q := SUPPORTED_VERSIONS[i], SUPPORTED_VERSIONS[j];
      if p[0] != q[0] {
        PrefixesClash(s, p, q, 0);
      } else if p[2] != q[2] {
        PrefixesClash(s, p, q, 2);
      } else {
        PrefixesClash(s, p, q, 3);
      }
    }
  }

  /** A string that starts with a family prefix contains a '.', so it passes the `split` guard. */
  lemma {:induction false} FamilyPrefixHasDot(s: string, v: string)
    requires v in SUPPORTED_VERSIONS && StartsWith(s, v)
    ensures '.' in s
  {
    assert v[1] == '.';
    assert s[..|v|][1] == s[1];
  }

  /** The `when` chain answers exactly for the kernels `checkDeviceCompatibility` accepts. */
  lemma {:induction false} FamilyScriptIffCompatible(kernelVersion: string, assets: set<string>)
    ensures FamilyScript(kernelVersion, assets).Some? <==> CheckDeviceCompatibility(kernelVersion)
  {
    var sv := SUPPORTED_VERSIONS;
    assert sv[0] == "4.9" && sv[1] == "4.14" && sv[2] == "4.19" && sv[3] == "5.4";
    assert sv[4] == "5.10" && sv[5] == "5.15" && sv[6] == "6.1" && sv[7] == "6.6";
  }

  /** The matcher finds a script exactly when `checkDeviceCompatibility` accepts the kernel. */
  lemma {:induction false} MatchIffCompatible(kernelVersion: string, assets: set<string>)
    ensures MatchingDriverFileName(kernelVersion, assets).Some? <==> CheckDeviceCompatibility(kernelVersion)
  {
    FamilyScriptIffCompatible(kernelVersion, assets);
    if CheckDeviceCompatibility(kernelVersion) {
      var v :| v in SUPPORTED_VERSIONS && StartsWith(kernelVersion, v);
      FamilyPrefixHasDot(kernelVersion, v);
      SplitSingleIffNoDelimiter(kernelVersion, '.');
    }
  }

  /**
   * An order-free reading of the matcher: each supported family prefix on
   * its own names the script.
   */
  function ScriptForFamily(family: string, kernelVersion: string, assets: set<string>): string
    requires family in SUPPORTED_VERSIONS
  {
    match family
    case "6.6" => "6.6.sh"
    case "6.1" => "6.1.sh"
    case "5.15" => "5.15.sh"
    case "5.10" => "5.10.sh"
    case "5.4" => Family54(assets)
    case "4.19" => Family419(kernelVersion, assets)
    case "4.14" => Family414(kernelVersion, assets)
    case _ => "4.9.186.sh"
  }

  /** Whichever supported prefix a kernel starts with alone decides the script. */
  lemma {:induction false} MatchByFamily(kernelVersion: string, assets: set<string>, family: string)
    requires family in SUPPORTED_VERSIONS && StartsWith(kernelVersion, family)
    ensures MatchingDriverFileName(kernelVersion, assets) == Some(ScriptForFamily(family, kernelVersion, assets))
  {
    var k := kernelVersion;
    match family
    case "6.6" => Reaches66(k, assets);
    case "6.1" => Reaches61(k, assets);
    case "5.15" => Reaches515(k, assets);
    case "5.10" => Reaches510(k, assets);
    case "5.4" => Reaches54(k, assets);
    case "4.19" => Reaches419(k, assets);
    case "4.14" => Reaches414(k, assets);
    case _ => assert family == "4.9"; Reaches49(k, assets);
  }

  /** Past the `split` guard, the matcher is the prefix chain. */
  lemma {:induction false} GuardPasses(kernelVersion: string, assets: set<string>)
    requires '.' in kernelVersion
    ensures MatchingDriverFileName(kernelVersion, assets) == FamilyScript(kernelVersion, assets)
  {
    SplitSingleIffNoDelimiter(kernelVersion, '.');
  }

  /** A 6.6 kernel reaches the 6.6 branch of the chain. */
  lemma Reaches66(k: string, assets: set<string>)
    requires StartsWith(k, "6.6")
    ensures MatchingDriverFileName(k, assets) == Some("6.6.sh")
  {
    assert k[1] == '.';
    GuardPasses(k, assets);
  }

  /** A 6.1 kernel reaches the 6.1 branch of the chain. */
  lemma Reaches61(k: string, assets: set<string>)
    requires StartsWith(k, "6.1")
    ensures MatchingDriverFileName(k, assets) == Some("6.1.sh")
  {
    assert k[1] == '.';
    GuardPasses(k, assets);
    PrefixesClash(k, "6.1", "6.6", 2);
  }

  /** A 5.15 kernel reaches the 5.15 branch of the chain. */
  lemma Reaches515(k: string, assets: set<string>)
    requires StartsWith(k, "5.15")
    ensures MatchingDriverFileName(k, assets) == Some("5.15.sh")
  {
    assert k[1] == '.';
    GuardPasses(k, assets);
    PrefixesClash(k, "5.15", "6.6", 0);
    PrefixesClash(k, "5.15", "6.1", 0);
  }

  /** A 5.10 kernel reaches the 5.10 branch of the chain. */
  lemma Reaches510(k: string, assets: set<string>)
    requires StartsWith(k, "5.10")
    ensures MatchingDriverFileName(k, assets) == Some("5.10.sh")
  {
    assert k[1] == '.';
    GuardPasses(k, assets);
    PrefixesClash(k, "5.10", "6.6", 0);
    PrefixesClash(k, "5.10", "6.1", 0);
    PrefixesClash(k, "5.10", "5.15", 3);
  }

  /** A 5.4 kernel reaches the 5.4 branch of the chain. */
  lemma Reaches54(k: string, assets: set<string>)
    requires StartsWith(k, "5.4")
    ensures MatchingDriverFileName(k, assets) == Some(Family54(assets))
  {
    assert k[1] == '.';
    GuardPasses(k, assets);
    PrefixesClash(k, "5.4", "6.6", 0);
    PrefixesClash(k, "5.4", "6.1", 0);
    PrefixesClash(k, "5.4", "5.15", 2);
    PrefixesClash(k, "5.4", "5.10", 2);
  }

  /** A 4.19 kernel reaches the 4.19 branch of the chain. */
  lemma Reaches419(k: string, assets: set<string>)
    requires StartsWith(k, "4.19")
    ensures MatchingDriverFileName(k, assets) == Some(Family419(k, assets))
  {
    assert k[1] == '.';
    GuardPasses(k, assets);
    PrefixesClash(k, "4.19", "6.6", 0);
    PrefixesClash(k, "4.19", "6.1", 0);
    PrefixesClash(k, "4.19", "5.15", 0);
    PrefixesClash(k, "4.19", "5.10", 0);
    PrefixesClash(k, "4.19", "5.4", 0);
  }

  /** A 4.14 kernel reaches the 4.14 branch of the chain. */
  lemma Reaches414(k: string, assets: set<string>)
    requires StartsWith(k, "4.14")
    ensures MatchingDriverFileName(k, assets) == Some(Family414(k, assets))
  {
    assert k[1] == '.';
    GuardPasses(k, assets);
    PrefixesClash(k, "4.14", "6.6", 0);
    PrefixesClash(k, "4.14", "6.1", 0);
    PrefixesClash(k, "4.14", "5.15", 0);
    PrefixesClash(k, "4.14", "5.10", 0);
    PrefixesClash(k, "4.14", "5.4", 0);
    PrefixesClash(k, "4.14", "4.19", 3);
  }

  /** A 4.9 kernel reaches the 4.9 branch of the chain. */
  lemma Reaches49(k: string, assets: set<string>)
    requires StartsWith(k, "4.9")
    ensures MatchingDriverFileName(k, assets) == Some("4.9.186.sh")
  {
    assert k[1] == '.';
    GuardPasses(k, assets);
    PrefixesClash(k, "4.9", "6.6", 0);
    PrefixesClash(k, "4.9", "6.1", 0);
    PrefixesClash(k, "4.9", "5.15", 0);
    PrefixesClash(k, "4.9", "5.10", 0);
    PrefixesClash(k, "4.9", "5.4", 0);
    PrefixesClash(k, "4.9", "4.19", 2);
    PrefixesClash(k, "4.9", "4.14", 2);
  }

  /** Single-script families ignore the asset listing, and the test is on the raw prefix. */
  lemma FixedFamilies(kernelVersion: string, assets: set<string>)
    ensures StartsWith(kernelVersion, "6.6") ==> MatchingDriverFileName(kernelVersion, assets) == Some("6.6.sh")
    ensures StartsWith(kernelVersion, "6.1") ==> MatchingDriverFileName(kernelVersion, assets) == Some("6.1.sh")
    ensures StartsWith(kernelVersion, "5.15") ==> MatchingDriverFileName(kernelVersion, assets) == Some("5.15.sh")
    ensures StartsWith(kernelVersion, "5.10") ==> MatchingDriverFileName(kernelVersion, assets) == Some("5.10.sh")
    ensures StartsWith(kernelVersion, "4.9") ==> MatchingDriverFileName(kernelVersion, assets) == Some("4.9.186.sh")
  {
    var k := kernelVersion;
    if StartsWith(k, "6.6") { Reaches66(k, assets); }
    if StartsWith(k, "6.1") { Reaches61(k, assets); }
    if StartsWith(k, "5.15") { Reaches515(k, assets); }
    if StartsWith(k, "5.10") { Reaches510(k, assets); }
    if StartsWith(k, "4.9") { Reaches49(k, assets); }
  }

  /** Lettered revisions are probed newest first; the plain script is the fallback. */
  lemma LetteredProbing(kernelVersion: string, assets: set<string>)
    ensures StartsWith(kernelVersion, "5.4") ==>
      MatchingDriverFileName(kernelVersion, assets) == Some(FirstAvailable(assets, ["5.4d.sh", "5.4c.sh", "5.4b.sh"], "5.4.sh"))
    ensures StartsWith(kernelVersion, "4.19") && Contains(kernelVersion, "4.19.191") ==>
      MatchingDriverFileName(kernelVersion, assets) == Some(FirstAvailable(assets, ["4.19.191c.sh", "4.19.191b.sh"], "4.19.191.sh"))
    ensures StartsWith(kernelVersion, "4.19") && !Contains(kernelVersion, "4.19.191") && Contains(kernelVersion, "4.19.157") ==>
      MatchingDriverFileName(kernelVersion, assets) == Some(FirstAvailable(assets, ["4.19.157c.sh", "4.19.157b.sh"], "4.19.157.sh"))
    ensures StartsWith(kernelVersion, "4.14") && !Contains(kernelVersion, "4.14.190") && Contains(kernelVersion, "4.14.186") ==>
      MatchingDriverFileName(kernelVersion, assets) == Some(FirstAvailable(assets, ["4.14.186d.sh", "4.14.186c.sh", "4.14.186b.sh"], "4.14.186.sh"))
  {
    if StartsWith(kernelVersion, "5.4") { Reaches54(kernelVersion, assets); }
    if StartsWith(kernelVersion, "4.19") { Reaches419(kernelVersion, assets); }
    if StartsWith(kernelVersion, "4.14") { Reaches414(kernelVersion, assets); }
  }

  /**
   * Inside 4.19 and 4.14 the patch substrings are tried in source order; a
   * kernel matching none of them gets the family's newest plain script,
   * whatever the asset listing holds.
   */
  lemma PatchLevelsInOrder(kernelVersion: string, assets: set<string>)
    ensures StartsWith(kernelVersion, "4.19") && !Contains(kernelVersion, "4.19.191") && !Contains(kernelVersion, "4.19.157") ==>
      MatchingDriverFileName(kernelVersion, assets) ==
        Some(if Contains(kernelVersion, "4.19.113") then "4.19.113.sh"
             else if Contains(kernelVersion, "4.19.81") then "4.19.81.sh"
             else "4.19.191.sh")
    ensures StartsWith(kernelVersion, "4.14") && !Contains(kernelVersion, "4.14.186") ==>
      MatchingDriverFileName(kernelVersion, assets) ==
        Some(if Contains(kernelVersion, "4.14.190") then "4.14.190.sh"
             else if Contains(kernelVersion, "4.14.180") then "4.14.180.sh"
             else if Contains(kernelVersion, "4.14.141") then "4.14.141.sh"
             else if Contains(kernelVersion, "4.14.117") then "4.14.117.sh"
             else "4.14.186.sh")
  {
    if StartsWith(kernelVersion, "4.19") { Reaches419(kernelVersion, assets); }
    if StartsWith(kernelVersion, "4.14") { Reaches414(kernelVersion, assets); }
  }

  /** Probing only looks at the listed candidates. */
  lemma {:induction false} FirstAvailableSeesOnlyCandidates(a1: set<string>, a2: set<string>, candidates: seq<string>, fallback: string)
    requires forall i :: 0 <= i < |candidates| ==> (candidates[i] in a1 <==> candidates[i] in a2)
    ensures FirstAvailable(a1, candidates, fallback) == FirstAvailable(a2, candidates, fallback)
    decreases |candidates|
  {
    if |candidates| > 0 && candidates[0] !in a1 {
      FirstAvailableSeesOnlyCandidates(a1, a2, candidates[1..], fallback);
    }
  }

  /** The three probing families agree on listings that agree on the lettered revisions. */
  lemma FamiliesSeeOnlyLettered(kernelVersion: string, a1: set<string>, a2: set<string>)
    requires a1 * LetteredScripts == a2 * LetteredScripts
    ensures Family54(a1) == Family54(a2)
    ensures Family419(kernelVersion, a1) == Family419(kernelVersion, a2)
    ensures Family414(kernelVersion, a1) == Family414(kernelVersion, a2)
  {
    LetteredAgree(a1, a2, PROBE_5_4);
    LetteredAgree(a1, a2, PROBE_4_19_191);
    LetteredAgree(a1, a2, PROBE_4_19_157);
    LetteredAgree(a1, a2, PROBE_4_14_186);
    FirstAvailableSeesOnlyCandidates(a1, a2, PROBE_5_4, "5.4.sh");
    FirstAvailableSeesOnlyCandidates(a1, a2, PROBE_4_19_191, "4.19.191.sh");
    FirstAvailableSeesOnlyCandidates(a1, a2, PROBE_4_19_157, "4.19.157.sh");
    FirstAvailableSeesOnlyCandidates(a1, a2, PROBE_4_14_186, "4.14.186.sh");
  }

  /** The asset listing matters only through the lettered revisions it holds. */
  lemma OnlyLetteredAssetsMatter(kernelVersion: string, a1: set<string>, a2: set<string>)
    requires a1 * LetteredScripts == a2 * LetteredScripts
    ensures MatchingDriverFileName(kernelVersion, a1) == MatchingDriverFileName(kernelVersion, a2)
  {
    FamiliesSeeOnlyLettered(kernelVersion, a1, a2);
    assert FamilyScript(kernelVersion, a1) == FamilyScript(kernelVersion, a2);
  }

  /** Listings that agree on the lettered revisions agree on every candidate of a probe. */
  lemma LetteredAgree(a1: set<string>, a2: set<string>, candidates: seq<string>)
    requires a1 * LetteredScripts == a2 * LetteredScripts
    requires forall i :: 0 <= i < |candidates| ==> candidates[i] in LetteredScripts
    ensures forall i :: 0 <= i < |candidates| ==> (candidates[i] in a1 <==> candidates[i] in a2)
  {
    forall i | 0 <= i < |candidates| ensures candidates[i] in a1 <==> candidates[i] in a2 {
      assert candidates[i] in a1 <==> candidates[i] in a1 * LetteredScripts;
      assert candidates[i] in a2 <==> candidates[i] in a2 * LetteredScripts;
    }
  }

  /** "6.12.0" starts with "6.1", so it is served the 6.1 script. */
  lemma RawPrefixExample()
    ensures MatchingDriverFileName("6.12.0", {}) == Some("6.1.sh")
  {
    assert "6.12.0"[..3] == "6.1";
    FixedFamilies("6.12.0", {});
  }

  /** A GKI 5.10 kernel gets the 5.10 script. */
  lemma GkiKernelExample()
    ensures MatchingDriverFileName("5.10.66-gki", {}) == Some("5.10.sh")
  {
    assert "5.10.66-gki"[..4] == "5.10";
    FixedFamilies("5.10.66-gki", {});
  }

  /** A 4.19.191 kernel gets the "c" revision when it is bundled. */
  lemma LetteredRevisionExample()
    ensures MatchingDriverFileName("4.19.191-something", {"4.19.191c.sh"}) == Some("4.19.191c.sh")
  {
    var k := "4.19.191-something";
    assert k[..4] == "4.19";
    assert k[..8] == "4.19.191";
    assert Contains(k, "4.19.191");
    LetteredProbing(k, {"4.19.191c.sh"});
  }

  /** A 3.18 kernel is not supported, whatever is bundled. */
  lemma UnsupportedKernelExample(assets: set<string>)
    ensures MatchingDriverFileName("3.18.0", assets) == None
  {
    var k := "3.18.0";
    assert k[0] == '3';
    assert !CheckDeviceCompatibility(k) by {
      forall v | v in SUPPORTED_VERSIONS ensures !StartsWith(k, v) {
        assert v[0] != '3';
        PrefixesClash(k, v, "3", 0);
        assert StartsWith(k, "3") by { assert k[..1] == "3"; }
      }
    }
    MatchIffCompatible(k, assets);
  }
}
