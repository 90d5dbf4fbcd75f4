/** Properties of install and reset sequencing in the repository. */
module RepositoryLemmas {
  import opened Wrappers
  import opened Matcher
  import opened StatusManager
  import opened Repository
  import DriverConstants
  import MatcherLemmas

  /** None of the drivers the user can pick has bundled scripts, so installing any of them fails. */
  lemma SupportedDriversNeverInstall(store: Prefs, device: Device)
    ensures forall d :: d in DriverConstants.SUPPORTED_DRIVERS ==>
      InstallDriver(d, store, device).result.Error? && InstallDriver(d, store, device).store == store
  {
    forall d | d in DriverConstants.SUPPORTED_DRIVERS
      ensures d !in DRIVER_FOLDER_MAP
    {
      assert d[0] != 'R';
      assert DRIVER_FOLDER_MAP.Keys == {"RTpro"};
    }
  }

  /** A script that exits non-zero leaves the installed flag as it was. */
  lemma FailedScriptKeepsStatus(driverName: string, store: Prefs, device: Device)
    requires !device.script.succeeded
    ensures InstallDriver(driverName, store, device).result.Error?
    ensures IsDriverInstalled(InstallDriver(driverName, store, device).store) == IsDriverInstalled(store)
  {
  }

  /** An unsupported kernel stops the install before any script runs. */
  lemma UnsupportedKernelStopsInstall(driverName: string, store: Prefs, device: Device, other: ScriptRun)
    requires !CheckDeviceCompatibility(CurrentKernelVersion(device))
    ensures InstallDriver(driverName, store, device).result.Error?
    ensures InstallDriver(driverName, store, device).store == store
    ensures InstallDriver(driverName, store, device) == InstallDriver(driverName, store, device.(script := other))
  {
    MatcherLemmas.MatchIffCompatible(CurrentKernelVersion(device), device.assets);
  }

  /**
   * The bundled folder can install: a rooted device on a 5.10 kernel whose
   * asset folder holds `5.10.sh` and whose script exits zero.
   */
  lemma BundledFolderCanInstall(store: Prefs, output: seq<LogLine>, now: int)
    ensures var device := Device(true, Some("5.10.66"), {"5.10.sh"}, ScriptRun(true, output), true, now);
      InstallCanSucceed("RTpro", device) && InstallDriver("RTpro", store, device).result.Success?
  {
    MatcherLemmas.Reaches510("5.10.66", {"5.10.sh"});
  }

  /** Resetting twice leaves the same store as resetting once. */
  lemma ResetTwiceIsResetOnce(store: Prefs, device: Device)
    ensures ResetDriver(ResetDriver(store, device).store, device).store == ResetDriver(store, device).store
  {
  }

  /** `resetDriver` never reports its generic error: nothing in its sequence can throw. */
  lemma ResetNeverErrors(store: Prefs, device: Device)
    ensures !ResetDriver(store, device).result.Error?
  {
  }

  /** A reset after a successful install marks the driver uninstalled again, even if the reboot fails. */
  lemma ResetUndoesInstall(driverName: string, store: Prefs, device: Device)
    requires device.hasRoot
    ensures var installed := InstallDriver(driverName, store, device).store;
      !IsDriverInstalled(ResetDriver(installed, device).store)
      && GetSelectedDriver(ResetDriver(installed, device).store) == DriverConstants.DEFAULT_DRIVER
  {
  }
}
