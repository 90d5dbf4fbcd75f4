/**
 * Properties of the driver screen's view model: where the screen and the
 * persisted status agree, where they drift apart, and which transitions
 * undo each other.
 */
module ViewModelLemmas {
  import opened Wrappers
  import opened Terminal
  import opened UiState
  import opened Repository
  import opened ViewModel
  import StatusManager
  import DriverConstants

  /** Picking a driver twice is the same as picking the second one. */
  lemma LastSelectionWins(vm: DriverViewModel, a: string, b: string)
    ensures OnDriverSelected(OnDriverSelected(vm, a), b) == OnDriverSelected(vm, b)
  {
  }

  /** Cancelling the confirm dialog undoes the click that opened it. */
  lemma CancelUndoesResetClick(vm: DriverViewModel)
    requires vm.uiState.InstallSuccess? && DefaultFlags(vm.uiState)
    ensures OnResetClick(vm, true).uiState.ShowConfirmDialog?
    ensures OnCancelReset(OnResetClick(vm, true)) == vm
  {
  }

  /**
   * A reboot failure after a reset leaves the screen on the installed side
   * although the status now says uninstalled; clearing the error re-reads
   * the status and the two agree again.
   */
  lemma RebootFailureLeavesStaleScreen(vm: DriverViewModel, store: StatusManager.Prefs, device: Device)
    requires device.hasRoot && !device.rebootSucceeds
    ensures var r := OnConfirmReset(vm, store, device);
      IsDriverInstalled(r.vm.uiState) && !StatusManager.IsDriverInstalled(r.store)
      && IsDriverInstalled(ClearError(r.vm, r.store).uiState) == StatusManager.IsDriverInstalled(r.store)
  {
  }

  /**
   * The screen after a successful reset names `RTPRO驱动`, the state's own
   * default, which is neither the catalogue default nor a catalogue driver;
   * clearing it moves to the catalogue default.
   */
  lemma ResetSuccessShowsUncataloguedDriver(vm: DriverViewModel, store: StatusManager.Prefs)
    requires vm.uiState == ResetSuccess()
    ensures SelectedDriver(vm.uiState) !in DriverConstants.SUPPORTED_DRIVERS
    ensures SelectedDriver(vm.uiState) != DriverConstants.DEFAULT_DRIVER
    ensures SelectedDriver(ClearError(vm, store).uiState) == DriverConstants.DEFAULT_DRIVER
  {
    assert UI_DEFAULT_DRIVER[0] == 'R';
    assert forall d :: d in DriverConstants.SUPPORTED_DRIVERS ==> d[0] != 'R';
  }

  /**
   * Install a driver and reset it again, dismissing the success message:
   * the screen is back where a freshly created view model over the original
   * status starts, and it matches what the status now says.
   */
  lemma {:induction false} InstallThenResetRestoresScreen(store: StatusManager.Prefs, device: Device, d: string)
    requires !StatusManager.IsDriverInstalled(store)
    requires InstallCanSucceed(d, device) && device.rebootSucceeds
    ensures var start := Create(store);
      var installed := OnInstallClick(OnDriverSelected(start, d), store, device);
      var confirming := OnResetClick(installed.vm, device.hasRoot);
      var reset := OnConfirmReset(confirming, installed.store, device);
      var done := ClearError(reset.vm, reset.store);
      done == start && done.uiState == StatusState(reset.store)
  {
    var start := Create(store);
    var selected := OnDriverSelected(start, d);
    assert SelectionEditable(start.uiState);
    assert SelectedDriver(selected.uiState) == d;
    var installed := OnInstallClick(selected, store, device);
    assert installed.vm.uiState == InstallSuccess(d);
    var confirming := OnResetClick(installed.vm, device.hasRoot);
    assert confirming.uiState == ShowConfirmDialog(d);
    var reset := OnConfirmReset(confirming, installed.store, device);
    assert reset.vm.uiState == ResetSuccess();
    assert !StatusManager.IsDriverInstalled(reset.store);
  }

  /**
   * Left alone, the terminal install ends where the plain install click
   * does: the same state on screen and the same store, written by the
   * repository's install.
   */
  lemma UncancelledInstallMatchesClick(vm: DriverViewModel, store: StatusManager.Prefs, device: Device, clock: Clock)
    ensures var t := StartInstallWithTerminal(vm, store, device, clock, None);
      var c := OnInstallClick(vm, store, device);
      t.vm.uiState == c.vm.uiState && t.store == c.store
  {
  }

  /**
   * Left alone, the terminal reset persists what the confirm-dialog reset
   * persists and succeeds exactly when it does. The screens differ only
   * after a failed reboot: the terminal run words that message without the
   * blank lines of `onConfirmReset`.
   */
  lemma UncancelledResetMatchesConfirm(vm: DriverViewModel, store: StatusManager.Prefs, device: Device, clock: Clock)
    ensures var t := StartResetWithTerminal(vm, store, device, clock, None);
      var c := OnConfirmReset(vm, store, device);
      t.store == c.store && (t.vm.uiState.ResetSuccess? <==> c.vm.uiState.ResetSuccess?)
      && SelectedDriver(t.vm.uiState) == SelectedDriver(c.vm.uiState)
      && (!device.hasRoot || device.rebootSucceeds ==> t.vm.uiState == c.vm.uiState)
      && (device.hasRoot && !device.rebootSucceeds ==> ErrorMessage(t.vm.uiState) != ErrorMessage(c.vm.uiState))
  {
  }

  /** With root and no cancellation, the terminal reset shows the state its own `when` maps the repository's answer to. */
  lemma TerminalResetOutcome(vm: DriverViewModel, store: StatusManager.Prefs, device: Device, clock: Clock)
    requires device.hasRoot
    ensures var t := StartResetWithTerminal(vm, store, device, clock, None);
      t.vm.uiState == SimulatedResetState(ResetLaunched(vm).uiState, ResetDriver(store, device).result)
      && t.store == ResetDriver(store, device).store
  {
  }

  /**
   * A cancellation during the pause after the first post-install line: the
   * install has already been persisted, but the last state written is an
   * install failure.
   */
  lemma CancelAfterInstallDiverges(vm: DriverViewModel, store: StatusManager.Prefs, device: Device,
                                   d: string, clock: Clock, message: string)
    requires InstallCanSucceed(d, device)
    ensures var r := SimulateInstallProcess(vm, store, device, d, clock, Some(Cancellation(9, message)));
      r.vm.uiState == InstallFailure("安装过程出现异常: " + message, d)
      && StatusManager.IsDriverInstalled(r.store) && StatusManager.GetSelectedDriver(r.store) == d
  {
    var run := InstallDriver(d, store, device);
    var preamble := InstallPreamble(CurrentKernelVersion(device), d);
    var script := preamble + InstallEpilogue(run.result);
    assert script[8] == Pause("驱动刷入完成", SUCCESS);
    assert StrikesAt(script, Some(Cancellation(9, message)));
  }

  /** A cancellation before the repository call leaves the status untouched whatever the device. */
  lemma CancelBeforeInstallKeepsStatus(vm: DriverViewModel, store: StatusManager.Prefs, device: Device,
                                       d: string, clock: Clock, n: nat, message: string)
    requires 1 <= n <= 8
    ensures var r := SimulateInstallProcess(vm, store, device, d, clock, Some(Cancellation(n, message)));
      r.vm.uiState == InstallFailure("安装过程出现异常: " + message, d) && r.store == store
  {
    var run := InstallDriver(d, store, device);
    var kernelVersion := CurrentKernelVersion(device);
    PreambleStrikes(vm, store, run, kernelVersion, d, clock, n, message);
  }

  /** A cancellation on a preamble line interrupts the run before the repository is asked. */
  lemma PreambleStrikes(vm: DriverViewModel, store: StatusManager.Prefs, run: InstallRun,
                        kernelVersion: string, d: string, clock: Clock, n: nat, message: string)
    requires 1 <= n <= 8
    ensures var script := InstallPreamble(kernelVersion, d) + InstallEpilogue(run.result);
      SimulateInstallAround(vm, store, run, kernelVersion, d, clock, Some(Cancellation(n, message)))
      == InstallInterrupted(vm, script, n, message, d, clock, store)
  {
    var preamble := InstallPreamble(kernelVersion, d);
    var script := preamble + InstallEpilogue(run.result);
    assert script[n - 1] == preamble[n - 1];
  }

  /**
   * A cancellation while the reboot is being reported: the status is already
   * reset, but the last state written is a failure on the installed side.
   */
  lemma CancelAfterResetDiverges(vm: DriverViewModel, store: StatusManager.Prefs, device: Device,
                                 clock: Clock, message: string)
    requires device.hasRoot && device.rebootSucceeds
    ensures var r := SimulateResetProcess(vm, store, device, clock, Some(Cancellation(10, message)));
      r.vm.uiState == ResetFailure("重置过程出现异常: " + message, SelectedDriver(vm.uiState))
      && IsDriverInstalled(r.vm.uiState) && !StatusManager.IsDriverInstalled(r.store)
  {
    var run := ResetDriver(store, device);
    var script := ResetPreamble() + ResetEpilogue(run.result);
    assert script[9] == Pause("正在重启设备...", PROGRESS);
    assert StrikesAt(script, Some(Cancellation(10, message)));
  }

  /** A cancellation can only land on a pause: one after the final line changes nothing. */
  lemma CancelAfterLastLineIsHarmless(vm: DriverViewModel, store: StatusManager.Prefs, device: Device,
                                      clock: Clock, message: string)
    requires device.hasRoot && device.rebootSucceeds
    ensures SimulateResetProcess(vm, store, device, clock, Some(Cancellation(13, message)))
         == SimulateResetProcess(vm, store, device, clock, None)
  {
    var run := ResetDriver(store, device);
    var script := ResetPreamble() + ResetEpilogue(run.result);
    assert |script| == 13 && !script[12].pauses;
  }
}
