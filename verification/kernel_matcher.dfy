/**
 * Choosing the install script for a kernel: a raw-prefix test picks the
 * kernel family, substring tests pick the patch level, and lettered
 * revisions of a script are probed against the bundled assets, newest first.
 */
module Matcher {
  import opened Wrappers
  import opened Strings

  /** `candidates[i]` is present, and no candidate before it is. */
  predicate FirstPresentAt(assets: set<string>, candidates: seq<string>, i: int)
  {
    0 <= i < |candidates| && candidates[i] in assets && forall j :: 0 <= j < i ==> candidates[j] !in assets
  }

  /** No candidate is present. */
  predicate NonePresent(assets: set<string>, candidates: seq<string>)
  {
    forall j :: 0 <= j < |candidates| ==> candidates[j] !in assets
  }

  /**
   * `r` is the first candidate present in `assets`, or `fallback` when none
   * of them is.
   */
  function FirstAvailable(assets: set<string>, candidates: seq<string>, fallback: string): (r: string)
    ensures (r in candidates && r in assets) || r == fallback
    ensures (exists i :: FirstPresentAt(assets, candidates, i) && r == candidates[i])
         || (r == fallback && NonePresent(assets, candidates))
  {
    if |candidates| == 0 then fallback
    else if candidates[0] in assets then
      assert FirstPresentAt(assets, candidates, 0);
      candidates[0]
    else
      var r := FirstAvailable(assets, candidates[1..], fallback);
      FirstAvailableStep(assets, candidates, fallback, r);
      r
  }

  /** Skipping an absent head candidate keeps the answer for the tail the answer for the whole list. */
  lemma FirstAvailableStep(assets: set<string>, candidates: seq<string>, fallback: string, r: string)
    requires |candidates| > 0 && candidates[0] !in assets
    requires (exists i :: FirstPresentAt(assets, candidates[1..], i) && r == candidates[1..][i])
          || (r == fallback && NonePresent(assets, candidates[1..]))
    ensures (r in candidates && r in assets) || r == fallback
    ensures (exists i :: FirstPresentAt(assets, candidates, i) && r == candidates[i])
         || (r == fallback && NonePresent(assets, candidates))
  {
    var tail := candidates[1..];
    if i :| FirstPresentAt(assets, tail, i) && r == tail[i] {
      forall j | 0 <= j < i + 1
        ensures candidates[j] !in assets
      {
        if j > 0 { assert candidates[j] == tail[j - 1]; }
      }
      assert candidates[i + 1] == tail[i];
      assert FirstPresentAt(assets, candidates, i + 1);
    } else {
      forall j | 0 <= j < |candidates|
        ensures candidates[j] !in assets
      {
        if j > 0 { assert candidates[j] == tail[j - 1]; }
      }
    }
  }

  const PROBE_5_4: seq<string> := ["5.4d.sh", "5.4c.sh", "5.4b.sh"]
  const PROBE_4_19_191: seq<string> := ["4.19.191c.sh", "4.19.191b.sh"]
  const PROBE_4_19_157: seq<string> := ["4.19.157c.sh", "4.19.157b.sh"]
  const PROBE_4_14_186: seq<string> := ["4.14.186d.sh", "4.14.186c.sh", "4.14.186b.sh"]

  /** Every lettered revision the matcher ever asks the asset store about. */
  const LetteredScripts: set<string> := {
    "5.4d.sh", "5.4c.sh", "5.4b.sh",
    "4.19.191c.sh", "4.19.191b.sh", "4.19.157c.sh", "4.19.157b.sh",
    "4.14.186d.sh", "4.14.186c.sh", "4.14.186b.sh"
  }

  /** Scripts the matcher can name without consulting the asset store. */
  const UnletteredScripts: set<string> := {
    "6.6.sh", "6.1.sh", "5.15.sh", "5.10.sh", "5.4.sh",
    "4.19.191.sh", "4.19.157.sh", "4.19.113.sh", "4.19.81.sh",
    "4.14.190.sh", "4.14.186.sh", "4.14.180.sh", "4.14.141.sh", "4.14.117.sh",
    "4.9.186.sh"
  }

  /** A script name the matcher may return: confirmed present, or a fixed unlettered name. */
  predicate Nameable(assets: set<string>, name: string)
  {
    name in UnletteredScripts + LetteredScripts && (name in assets || name in UnletteredScripts)
  }

  /** 5.4 kernels: lettered revisions d, c, b, then the plain script. */
  function Family54(assets: set<string>): (r: string)
    ensures Nameable(assets, r)
  {
    FirstAvailable(assets, PROBE_5_4, "5.4.sh")
  }

  /** 4.19 kernels: patch levels in source order; anything else gets the newest 4.19 script. */
  function Family419(kernelVersion: string, assets: set<string>): (r: string)
    ensures Nameable(assets, r)
  {
    if Contains(kernelVersion, "4.19.191") then FirstAvailable(assets, PROBE_4_19_191, "4.19.191.sh")
    else if Contains(kernelVersion, "4.19.157") then FirstAvailable(assets, PROBE_4_19_157, "4.19.157.sh")
    else if Contains(kernelVersion, "4.19.113") then "4.19.113.sh"
    else if Contains(kernelVersion, "4.19.81") then "4.19.81.sh"
    else "4.19.191.sh"
  }

  /** 4.14 kernels: patch levels in source order; anything else gets the newest 4.14 script. */
  function Family414(kernelVersion: string, assets: set<string>): (r: string)
    ensures Nameable(assets, r)
  {
    if Contains(kernelVersion, "4.14.190") then "4.14.190.sh"
    else if Contains(kernelVersion, "4.14.186") then FirstAvailable(assets, PROBE_4_14_186, "4.14.186.sh")
    else if Contains(kernelVersion, "4.14.180") then "4.14.180.sh"
    else if Contains(kernelVersion, "4.14.141") then "4.14.141.sh"
    else if Contains(kernelVersion, "4.14.117") then "4.14.117.sh"
    else "4.14.186.sh"
  }

  /**
   * `getMatchingDriverFileName`: `assets` is the listing of the driver's
   * asset folder, which answers every `checkDriverExists` probe.
   */
  function MatchingDriverFileName(kernelVersion: string, assets: set<string>): (r: Option<string>)
    ensures '.' !in kernelVersion ==> r == None
    ensures r.Some? ==> Nameable(assets, r.value)
  {
    var versionParts := Split(kernelVersion, '.');
    if |versionParts| < 2 then
      None
    else
      // `getMatchingDriverFileName` derives "major.minor" here and never uses it.
      var minorVersion := Split(versionParts[1], '-')[0];
      FamilyScript(kernelVersion, assets)
  }

  /** The `when` chain of the matcher: the first family prefix that matches decides. */
  function FamilyScript(kernelVersion: string, assets: set<string>): (r: Option<string>)
    ensures r.Some? ==> Nameable(assets, r.value)
  {
    if StartsWith(kernelVersion, "6.6") then Some("6.6.sh")
    else if StartsWith(kernelVersion, "6.1") then Some("6.1.sh")
    else if StartsWith(kernelVersion, "5.15") then Some("5.15.sh")
    else if StartsWith(kernelVersion, "5.10") then Some("5.10.sh")
    else if StartsWith(kernelVersion, "5.4") then Some(Family54(assets))
    else if StartsWith(kernelVersion, "4.19") then Some(Family419(kernelVersion, assets))
    else if StartsWith(kernelVersion, "4.14") then Some(Family414(kernelVersion, assets))
    else if StartsWith(kernelVersion, "4.9") then Some("4.9.186.sh")
    else None
  }

  /** The kernel families `checkDeviceCompatibility` accepts. */
  const SUPPORTED_VERSIONS: seq<string> := ["4.9", "4.14", "4.19", "5.4", "5.10", "5.15", "6.1", "6.6"]

  /** `checkDeviceCompatibility`: some supported version is a prefix; every one is a digit and a '.' first. */
  predicate CheckDeviceCompatibility(kernelVersion: string)
    ensures CheckDeviceCompatibility(kernelVersion) ==> |kernelVersion| >= 3 && kernelVersion[1] == '.'
  {
    exists v :: v in SUPPORTED_VERSIONS && StartsWith(kernelVersion, v)
  }
}
