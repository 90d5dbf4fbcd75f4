/**
 * The driver screen's view model: one transition function per public
 * operation over (UI state, terminal log, dialog flags). Each coroutine body
 * is split at its repository call into a launch step (the loading state is
 * published) and a finish step (the result is mapped), and the repository
 * call itself is `InstallDriver`/`ResetDriver` run on the device oracles.
 */
module ViewModel {
  import opened Wrappers
  import opened Terminal
  import opened UiState
  import opened Repository
  import StatusManager
  import DriverConstants

  datatype DriverViewModel = DriverViewModel(
    uiState: DriverUiState,
    terminalLogs: seq<TerminalLog>,
    showTerminalDialog: bool,
    terminalCompleted: bool)

  /** A transition's result: the new view model and the persisted status after it. */
  datatype Step = Step(vm: DriverViewModel, store: StatusManager.Prefs)

  const ROOT_REQUIRED_FOR_RESET: string :=
    "设备未获得Root权限，无法执行重置操作。\n\n请先获取Root权限后再试。\n\n提示：Root权限是执行系统级操作（如重启设备）的必要条件。"
  const REBOOT_FAILED_MESSAGE: string := "驱动状态已重置，但设备重启失败。\n\n请手动重启设备以完成重置过程。"

  /** The state the persisted status says the screen should show. */
  function StatusState(store: StatusManager.Prefs): (s: DriverUiState)
    ensures DefaultFlags(s)
    ensures StatusManager.IsDriverInstalled(store) ==> s.InstallSuccess?
    ensures !StatusManager.IsDriverInstalled(store) ==> s.Initial?
    ensures IsDriverInstalled(s) == StatusManager.IsDriverInstalled(store)
    ensures SelectedDriver(s) ==
      if StatusManager.IsDriverInstalled(store) then StatusManager.GetSelectedDriver(store)
      else DriverConstants.DEFAULT_DRIVER
    ensures !IsLoading(s) && ErrorMessage(s).None?
  {
    if StatusManager.IsDriverInstalled(store) then
      InstallSuccess(installedDriver := StatusManager.GetSelectedDriver(store))
    else
      Initial(isDriverInstalled := false, selectedDriver := DriverConstants.DEFAULT_DRIVER)
  }

  /** `checkDriverStatus` (also `refreshDriverStatus`): only the UI state is replaced. */
  function CheckDriverStatus(vm: DriverViewModel, store: StatusManager.Prefs): (r: DriverViewModel)
    ensures r.uiState == StatusState(store)
    ensures r == vm.(uiState := r.uiState)
  {
    vm.(uiState := StatusState(store))
  }

  /** The view model as constructed: the initial state, then the `init` status check. */
  function Create(store: StatusManager.Prefs): (r: DriverViewModel)
    ensures r.uiState == StatusState(store)
    ensures r.terminalLogs == [] && !r.showTerminalDialog && !r.terminalCompleted
  {
    var initial := DriverViewModel(
      Initial(isDriverInstalled := false, selectedDriver := DriverConstants.DEFAULT_DRIVER), [], false, false);
    CheckDriverStatus(initial, store)
  }

  /** States in which the user may still change the selected driver. */
  predicate SelectionEditable(s: DriverUiState)
  {
    !IsLoading(s) && !IsDriverInstalled(s) && (s.Initial? || s.InstallFailure?)
  }

  /** `onDriverSelected`: only the `selectedDriver` field moves, and only in an editable state. */
  function OnDriverSelected(vm: DriverViewModel, driverName: string): (r: DriverViewModel)
    ensures SelectionEditable(vm.uiState) ==> r == vm.(uiState := vm.uiState.(selectedDriver := driverName))
    ensures SelectionEditable(vm.uiState) ==> SelectedDriver(r.uiState) == driverName
    ensures !SelectionEditable(vm.uiState) ==> r == vm
    ensures DefaultFlags(vm.uiState) ==> DefaultFlags(r.uiState)
  {
    var current := vm.uiState;
    if !IsLoading(current) && !IsDriverInstalled(current) then
      match current
      case Initial(installed, _) => vm.(uiState := Initial(installed, driverName))
      case InstallFailure(message, _, installed) => vm.(uiState := InstallFailure(message, driverName, installed))
      case _ => vm
    else
      vm
  }

  /** The first half of the install coroutine: the driver selected now is the one installed. */
  function InstallLaunched(vm: DriverViewModel): (r: DriverViewModel)
    ensures r.uiState == Installing(selectedDriver := SelectedDriver(vm.uiState))
    ensures IsLoading(r.uiState) && r == vm.(uiState := r.uiState)
  {
    vm.(uiState := Installing(selectedDriver := SelectedDriver(vm.uiState)))
  }

  /** The second half of the install coroutine: the result is shown for the driver captured at launch. */
  function InstallFinished(vm: DriverViewModel, driver: string, result: DriverInstallResult): (r: DriverViewModel)
    ensures SelectedDriver(r.uiState) == driver && DefaultFlags(r.uiState)
    ensures r.uiState.InstallSuccess? <==> result.Success?
    ensures result.Error? ==> r.uiState.InstallFailure? && ErrorMessage(r.uiState) == Some(result.message)
    ensures r == vm.(uiState := r.uiState)
  {
    match result
    case Success => vm.(uiState := InstallSuccess(installedDriver := driver))
    case Error(message) => vm.(uiState := InstallFailure(errorMessage := message, selectedDriver := driver))
  }

  /**
   * `onInstallClick`: without root the failure is shown at once and nothing
   * is installed; with root the install runs for the selected driver. There
   * is no guard against a loading or installed state.
   */
  function OnInstallClick(vm: DriverViewModel, store: StatusManager.Prefs, device: Device): (r: Step)
    ensures !device.hasRoot ==>
      r.store == store && r.vm == vm.(uiState := InstallFailure(ROOT_REQUIRED_FOR_INSTALL, SelectedDriver(vm.uiState)))
    ensures SelectedDriver(r.vm.uiState) == SelectedDriver(vm.uiState)
    ensures r.vm.uiState.InstallSuccess? <==> InstallCanSucceed(SelectedDriver(vm.uiState), device)
    ensures r.vm.uiState.InstallSuccess? ==>
      StatusManager.IsDriverInstalled(r.store) && StatusManager.GetSelectedDriver(r.store) == SelectedDriver(vm.uiState)
    ensures !r.vm.uiState.InstallSuccess? ==> r.vm.uiState.InstallFailure? && r.store == store
    ensures r.vm == vm.(uiState := r.vm.uiState)
    ensures DefaultFlags(r.vm.uiState)
  {
    if !device.hasRoot then
      Step(vm.(uiState := InstallFailure(errorMessage := ROOT_REQUIRED_FOR_INSTALL,
                                         selectedDriver := SelectedDriver(vm.uiState))), store)
    else
      var driver := SelectedDriver(vm.uiState);
      var launched := InstallLaunched(vm);
      var run := InstallDriver(driver, store, device);
      Step(InstallFinished(launched, driver, run.result), run.store)
  }

  /** `onResetClick`: root failure, else the confirm dialog when installed, else nothing. */
  function OnResetClick(vm: DriverViewModel, hasRoot: bool): (r: DriverViewModel)
    ensures !hasRoot ==> r == vm.(uiState := ResetFailure(ROOT_REQUIRED_FOR_RESET, SelectedDriver(vm.uiState)))
    ensures hasRoot && IsDriverInstalled(vm.uiState) ==> r == vm.(uiState := ShowConfirmDialog(SelectedDriver(vm.uiState)))
    ensures hasRoot && !IsDriverInstalled(vm.uiState) ==> r == vm
    ensures SelectedDriver(r.uiState) == SelectedDriver(vm.uiState)
    ensures DefaultFlags(vm.uiState) ==> DefaultFlags(r.uiState)
  {
    if !hasRoot then
      vm.(uiState := ResetFailure(errorMessage := ROOT_REQUIRED_FOR_RESET, installedDriver := SelectedDriver(vm.uiState)))
    else if IsDriverInstalled(vm.uiState) then
      vm.(uiState := ShowConfirmDialog(installedDriver := SelectedDriver(vm.uiState)))
    else
      vm
  }

  /** The first half of the reset coroutine. */
  function ResetLaunched(vm: DriverViewModel): (r: DriverViewModel)
    ensures r.uiState == Resetting(installedDriver := SelectedDriver(vm.uiState))
    ensures IsLoading(r.uiState) && r == vm.(uiState := r.uiState)
  {
    vm.(uiState := Resetting(installedDriver := SelectedDriver(vm.uiState)))
  }

  /** The second half of the reset coroutine: only `Success` leaves the installed side. */
  function ResetFinished(vm: DriverViewModel, driver: string, result: DriverResetResult): (r: DriverViewModel)
    ensures DefaultFlags(r.uiState)
    ensures result.Success? <==> r.uiState == ResetSuccess()
    ensures !result.Success? ==> r.uiState.ResetFailure? && SelectedDriver(r.uiState) == driver
    ensures result.NoRootPermission? ==> ErrorMessage(r.uiState) == Some(ROOT_REQUIRED_FOR_RESET)
    ensures result.RebootFailed? ==> ErrorMessage(r.uiState) == Some(REBOOT_FAILED_MESSAGE)
    ensures result.Error? ==> ErrorMessage(r.uiState) == Some(result.message)
    ensures r == vm.(uiState := r.uiState)
  {
    match result
    case Success => vm.(uiState := ResetSuccess())
    case NoRootPermission =>
      vm.(uiState := ResetFailure(errorMessage := ROOT_REQUIRED_FOR_RESET, installedDriver := driver))
    case RebootFailed =>
      vm.(uiState := ResetFailure(errorMessage := REBOOT_FAILED_MESSAGE, installedDriver := driver))
    case Error(message) =>
      vm.(uiState := ResetFailure(errorMessage := message, installedDriver := driver))
  }

  /** `onConfirmReset`: reset the status for the driver shown, and report how the reboot went. */
  function OnConfirmReset(vm: DriverViewModel, store: StatusManager.Prefs, device: Device): (r: Step)
    ensures r.vm.uiState == ResetSuccess() <==> device.hasRoot && device.rebootSucceeds
    ensures r.vm.uiState != ResetSuccess() ==>
      r.vm.uiState.ResetFailure? && SelectedDriver(r.vm.uiState) == SelectedDriver(vm.uiState)
    ensures !device.hasRoot ==> r.store == store
    ensures device.hasRoot ==> !StatusManager.IsDriverInstalled(r.store)
    ensures r.vm == vm.(uiState := r.vm.uiState)
    ensures DefaultFlags(r.vm.uiState)
  {
    var driver := SelectedDriver(vm.uiState);
    var launched := ResetLaunched(vm);
    var run := ResetDriver(store, device);
    Step(ResetFinished(launched, driver, run.result), run.store)
  }

  /** `onCancelReset`: back from the confirm dialog to the installed state. */
  function OnCancelReset(vm: DriverViewModel): (r: DriverViewModel)
    ensures vm.uiState.ShowConfirmDialog? ==> r == vm.(uiState := InstallSuccess(vm.uiState.installedDriver))
    ensures !vm.uiState.ShowConfirmDialog? ==> r == vm
    ensures DefaultFlags(vm.uiState) ==> DefaultFlags(r.uiState)
  {
    match vm.uiState
    case ShowConfirmDialog(driver, _) => vm.(uiState := InstallSuccess(installedDriver := driver))
    case _ => vm
  }

  /**
   * `clearError`: an install failure returns to selection, a reset failure
   * re-reads the status, a reset success returns to a fresh selection.
   * `clearError` names `AppConstants.Driver.DEFAULT_DRIVER` for the last case,
   * which is not declared anywhere; the catalogue default is used.
   */
  function ClearError(vm: DriverViewModel, store: StatusManager.Prefs): (r: DriverViewModel)
    ensures vm.uiState.InstallFailure? ==> r.uiState == Initial(false, vm.uiState.selectedDriver)
    ensures vm.uiState.ResetFailure? ==> r.uiState == StatusState(store)
    ensures vm.uiState.ResetSuccess? ==> r.uiState == Initial(false, DriverConstants.DEFAULT_DRIVER)
    ensures !(vm.uiState.InstallFailure? || vm.uiState.ResetFailure? || vm.uiState.ResetSuccess?) ==> r == vm
    ensures ErrorMessage(r.uiState).None?
    ensures r == vm.(uiState := r.uiState)
    ensures DefaultFlags(vm.uiState) ==> DefaultFlags(r.uiState)
  {
    match vm.uiState
    case InstallFailure(_, driver, _) => vm.(uiState := Initial(isDriverInstalled := false, selectedDriver := driver))
    case ResetFailure(_, _, _) => CheckDriverStatus(vm, store)
    case ResetSuccess(_, _) => vm.(uiState := Initial(isDriverInstalled := false, selectedDriver := DriverConstants.DEFAULT_DRIVER))
    case _ => vm
  }

  // ---------------------------------------------------------------------
  // The terminal dialog and the simulated install/reset runs behind it.
  // ---------------------------------------------------------------------

  /** Timestamps are opaque: `clock(i)` is the stamp of the line written at log position `i`. */
  type Clock = nat -> string

  /** `addTerminalLog`: append one stamped line; earlier lines are never touched. */
  function AddTerminalLog(vm: DriverViewModel, text: string, kind: LogType, clock: Clock): (r: DriverViewModel)
    ensures |r.terminalLogs| == |vm.terminalLogs| + 1
    ensures r.terminalLogs[..|vm.terminalLogs|] == vm.terminalLogs
    ensures r.terminalLogs[|vm.terminalLogs|] == TerminalLog(text, kind, clock(|vm.terminalLogs|))
    ensures r == vm.(terminalLogs := r.terminalLogs)
  {
    vm.(terminalLogs := vm.terminalLogs + [TerminalLog(text, kind, clock(|vm.terminalLogs|))])
  }

  /** `longer` is `shorter` with at least one line appended. */
  predicate Extends(longer: seq<TerminalLog>, shorter: seq<TerminalLog>)
  {
    |longer| > |shorter| && longer[..|shorter|] == shorter
  }

  /** The most recent terminal line. */
  function LastLog(vm: DriverViewModel): TerminalLog
    requires |vm.terminalLogs| > 0
  {
    vm.terminalLogs[|vm.terminalLogs| - 1]
  }

  /** The first line `r` adds to the log of `vm` is the scripted `line`. */
  predicate FirstWritten(r: DriverViewModel, vm: DriverViewModel, line: ScriptLine, clock: Clock)
  {
    |r.terminalLogs| > |vm.terminalLogs|
    && r.terminalLogs[|vm.terminalLogs|] == TerminalLog(line.text, line.kind, clock(|vm.terminalLogs|))
  }

  /** A scripted line of a simulated run; `pauses` marks a `delay` right after it. */
  datatype ScriptLine = ScriptLine(text: string, kind: LogType, pauses: bool)

  /** Successive `addTerminalLog` calls, one per scripted line, in order. */
  function AppendLines(vm: DriverViewModel, lines: seq<ScriptLine>, clock: Clock): (r: DriverViewModel)
    ensures |r.terminalLogs| == |vm.terminalLogs| + |lines|
    ensures r.terminalLogs[..|vm.terminalLogs|] == vm.terminalLogs
    ensures forall i :: 0 <= i < |lines| ==>
      r.terminalLogs[|vm.terminalLogs| + i] == TerminalLog(lines[i].text, lines[i].kind, clock(|vm.terminalLogs| + i))
    ensures r == vm.(terminalLogs := r.terminalLogs)
    decreases |lines|
  {
    if |lines| == 0 then vm
    else
      var next := AddTerminalLog(vm, lines[0].text, lines[0].kind, clock);
      var r := AppendLines(next, lines[1..], clock);
      assert forall i :: 1 <= i < |lines| ==> lines[1..][i - 1] == lines[i];
      r
  }

  /** The last line written is the last scripted line. */
  lemma AppendLinesLast(vm: DriverViewModel, lines: seq<ScriptLine>, clock: Clock)
    requires |lines| > 0
    ensures var r := AppendLines(vm, lines, clock);
      LastLog(r).text == lines[|lines| - 1].text
      && LastLog(r).kind == lines[|lines| - 1].kind
  {
    var r := AppendLines(vm, lines, clock);
    assert r.terminalLogs[|vm.terminalLogs| + (|lines| - 1)]
        == TerminalLog(lines[|lines| - 1].text, lines[|lines| - 1].kind, clock(|vm.terminalLogs| + (|lines| - 1)));
  }

  /**
   * A coroutine cancellation (the `CancellationException` a `delay` throws)
   * during the pause after the first `afterLine` scripted lines.
   */
  datatype Cancellation = Cancellation(afterLine: nat, message: string)

  /** A cancellation can only strike where the script suspends. */
  predicate StrikesAt(script: seq<ScriptLine>, cancel: Option<Cancellation>)
  {
    cancel.Some? && 1 <= cancel.value.afterLine <= |script| && script[cancel.value.afterLine - 1].pauses
  }

  function Pause(text: string, kind: LogType): ScriptLine { ScriptLine(text, kind, true) }
  function Last(text: string, kind: LogType): ScriptLine { ScriptLine(text, kind, false) }

  /**
   * A run that ends normally: all scripted lines are written, then `finally`
   * marks the terminal completed.
   */
  function RunCompleted(vm: DriverViewModel, script: seq<ScriptLine>, clock: Clock): (r: DriverViewModel)
    requires |script| > 0
    ensures r.terminalCompleted && r.showTerminalDialog == vm.showTerminalDialog && r.uiState == vm.uiState
    ensures Extends(r.terminalLogs, vm.terminalLogs)
    ensures LastLog(r).text == script[|script| - 1].text
    ensures LastLog(r).kind == script[|script| - 1].kind
    ensures FirstWritten(r, vm, script[0], clock)
  {
    AppendLinesLast(vm, script, clock);
    AppendLines(vm, script, clock).(terminalCompleted := true)
  }

  /**
   * A run cut short by a cancellation after `n` lines: the `catch` block
   * writes its two error lines, then `finally` marks the terminal completed.
   */
  function RunInterrupted(vm: DriverViewModel, script: seq<ScriptLine>, n: nat, headline: string,
                          message: string, clock: Clock): (r: DriverViewModel)
    requires n <= |script|
    ensures r.terminalCompleted && r.showTerminalDialog == vm.showTerminalDialog && r.uiState == vm.uiState
    ensures Extends(r.terminalLogs, vm.terminalLogs)
    ensures LastLog(r).kind == ERROR
    ensures n >= 1 ==> FirstWritten(r, vm, script[0], clock)
    ensures |r.terminalLogs| >= |vm.terminalLogs| + n
    ensures r.terminalLogs[..|vm.terminalLogs| + n] == AppendLines(vm, script[..n], clock).terminalLogs
  {
    var written := AppendLines(vm, script[..n], clock);
    var lines := ExceptionLines(headline, message);
    AppendLinesLast(written, lines, clock);
    var logged := AppendLines(written, lines, clock);
    assert logged.terminalLogs[..|vm.terminalLogs|] == vm.terminalLogs by {
      assert logged.terminalLogs[..|written.terminalLogs|][..|vm.terminalLogs|] == vm.terminalLogs;
    }
    logged.(terminalCompleted := true)
  }

  /** Lines written before `simulateInstallProcess` calls the repository. */
  function InstallPreamble(kernelVersion: string, driverName: string): (lines: seq<ScriptLine>)
    ensures |lines| == 8 && lines[0] == Pause("开始刷入驱动...", COMMAND)
    ensures forall i :: 0 <= i < |lines| ==> lines[i].pauses
  {
    [ Pause("开始刷入驱动...", COMMAND),
      Pause("检查设备权限...", INFO),
      Pause("Root权限检查通过", SUCCESS),
      Pause("检测内核版本...", INFO),
      Pause("内核版本: " + kernelVersion, SUCCESS),
      Pause("准备驱动文件...", INFO),
      Pause("驱动文件: " + driverName, SUCCESS),
      Pause("正在刷入驱动...", PROGRESS) ]
  }

  /** Lines written after the repository answers. */
  function InstallEpilogue(result: DriverInstallResult): (lines: seq<ScriptLine>)
    ensures |lines| >= 2
    ensures result.Success? ==> lines[|lines| - 1] == Last("安装完成", COMMAND)
    ensures result.Error? ==> lines[|lines| - 1].kind == ERROR
  {
    match result
    case Success =>
      [ Pause("驱动刷入完成", SUCCESS),
        Pause("正在验证安装...", INFO),
        Pause("驱动安装成功！", SUCCESS),
        Last("安装完成", COMMAND) ]
    case Error(message) =>
      [ Pause("驱动安装失败", ERROR),
        Last("错误信息: " + message, ERROR) ]
  }

  /** The two lines the `catch` block writes. */
  function ExceptionLines(headline: string, message: string): seq<ScriptLine>
  {
    [ Last(headline, ERROR), Last("异常信息: " + message, ERROR) ]
  }

  /** The install run cut short: the `catch` block reports the exception as an install failure. */
  function InstallInterrupted(vm: DriverViewModel, script: seq<ScriptLine>, n: nat, message: string,
                              driverName: string, clock: Clock, store: StatusManager.Prefs): (r: Step)
    requires n <= |script|
    ensures r.vm.terminalCompleted && r.vm.showTerminalDialog == vm.showTerminalDialog
    ensures Extends(r.vm.terminalLogs, vm.terminalLogs)
    ensures r.vm.uiState == InstallFailure("安装过程出现异常: " + message, driverName)
    ensures SelectedDriver(r.vm.uiState) == driverName && DefaultFlags(r.vm.uiState)
    ensures LastLog(r.vm).kind == ERROR
    ensures n >= 1 ==> FirstWritten(r.vm, vm, script[0], clock)
    ensures |r.vm.terminalLogs| >= |vm.terminalLogs| + n
    ensures r.vm.terminalLogs[..|vm.terminalLogs| + n] == AppendLines(vm, script[..n], clock).terminalLogs
    ensures r.store == store
  {
    var logged := RunInterrupted(vm, script, n, "安装过程出现异常", message, clock);
    Step(logged.(uiState := InstallFailure(errorMessage := "安装过程出现异常: " + message, selectedDriver := driverName)), store)
  }

  /** The install run played to the end: the repository's answer decides the state shown. */
  function InstallCompleted(vm: DriverViewModel, script: seq<ScriptLine>, run: InstallRun,
                            driverName: string, clock: Clock): (r: Step)
    requires |script| > 0
    requires script[|script| - 1] == InstallEpilogue(run.result)[|InstallEpilogue(run.result)| - 1]
    ensures r.vm.terminalCompleted && r.vm.showTerminalDialog == vm.showTerminalDialog
    ensures Extends(r.vm.terminalLogs, vm.terminalLogs)
    ensures r.vm.uiState == InstallFinished(vm, driverName, run.result).uiState
    ensures SelectedDriver(r.vm.uiState) == driverName && DefaultFlags(r.vm.uiState)
    ensures run.result.Success? ==> r.vm.uiState.InstallSuccess? && LastLog(r.vm).text == "安装完成"
    ensures run.result.Error? ==> r.vm.uiState.InstallFailure? && LastLog(r.vm).kind == ERROR
    ensures FirstWritten(r.vm, vm, script[0], clock)
    ensures r.store == run.store
  {
    var written := RunCompleted(vm, script, clock);
    Step(written.(uiState := InstallFinished(vm, driverName, run.result).uiState), run.store)
  }

  /**
   * `simulateInstallProcess` around a given answer `run` of the repository.
   * A cancellation before the repository call leaves the status as it was;
   * one after it keeps whatever the install persisted. Either way `finally`
   * marks the terminal completed.
   */
  function SimulateInstallAround(vm: DriverViewModel, store: StatusManager.Prefs, run: InstallRun,
                                 kernelVersion: string, driverName: string, clock: Clock,
                                 cancel: Option<Cancellation>): (r: Step)
    ensures r.vm.terminalCompleted
    ensures r.vm.showTerminalDialog == vm.showTerminalDialog
    ensures Extends(r.vm.terminalLogs, vm.terminalLogs)
    ensures SelectedDriver(r.vm.uiState) == driverName && DefaultFlags(r.vm.uiState)
    ensures r.vm.uiState.InstallSuccess? || r.vm.uiState.InstallFailure?
    ensures r.vm.uiState.InstallSuccess? ==>
      run.result.Success? && r.store == run.store && LastLog(r.vm).text == "安装完成"
    ensures r.vm.uiState.InstallFailure? ==> LastLog(r.vm).kind == ERROR
    ensures FirstWritten(r.vm, vm, Pause("开始刷入驱动...", COMMAND), clock)
    ensures r.store == store || r.store == run.store
    ensures cancel.None? ==> (r.vm.uiState.InstallSuccess? <==> run.result.Success?) && r.store == run.store
  {
    var preamble := InstallPreamble(kernelVersion, driverName);
    var epilogue := InstallEpilogue(run.result);
    var script := preamble + epilogue;
    assert script[|script| - 1] == epilogue[|epilogue| - 1];
    assert script[0] == Pause("开始刷入驱动...", COMMAND);
    if StrikesAt(script, cancel) then
      var n := cancel.value.afterLine;
      InstallInterrupted(vm, script, n, cancel.value.message, driverName, clock,
                         if n <= |preamble| then store else run.store)
    else
      InstallCompleted(vm, script, run, driverName, clock)
  }

  /** `simulateInstallProcess`: the scripted run around the repository's own install. */
  function SimulateInstallProcess(vm: DriverViewModel, store: StatusManager.Prefs, device: Device,
                                  driverName: string, clock: Clock, cancel: Option<Cancellation>): (r: Step)
    ensures r.vm.terminalCompleted
    ensures r.vm.showTerminalDialog == vm.showTerminalDialog
    ensures Extends(r.vm.terminalLogs, vm.terminalLogs)
    ensures SelectedDriver(r.vm.uiState) == driverName && DefaultFlags(r.vm.uiState)
    ensures r.vm.uiState.InstallSuccess? || r.vm.uiState.InstallFailure?
    ensures r.vm.uiState.InstallSuccess? ==>
      InstallCanSucceed(driverName, device) && StatusManager.IsDriverInstalled(r.store)
      && StatusManager.GetSelectedDriver(r.store) == driverName
    ensures FirstWritten(r.vm, vm, Pause("开始刷入驱动...", COMMAND), clock)
    ensures !InstallCanSucceed(driverName, device) ==> r.store == store
    ensures cancel.None? ==>
      (r.vm.uiState.InstallSuccess? <==> InstallCanSucceed(driverName, device))
      && r.store == InstallDriver(driverName, store, device).store
  {
    var run := InstallDriver(driverName, store, device);
    SimulateInstallAround(vm, store, run, CurrentKernelVersion(device), driverName, clock, cancel)
  }

  /** Clearing the log and showing the dialog, as both terminal flows do once root is confirmed. */
  function TerminalOpened(vm: DriverViewModel): (r: DriverViewModel)
    ensures r.terminalLogs == [] && !r.terminalCompleted && r.showTerminalDialog
    ensures r.uiState == vm.uiState
  {
    vm.(terminalLogs := [], terminalCompleted := false, showTerminalDialog := true)
  }

  /**
   * `startInstallWithTerminal`: without root only the UI state changes;
   * otherwise a fresh log is opened and the simulated install runs to
   * completion for the driver selected at launch.
   */
  function StartInstallWithTerminal(vm: DriverViewModel, store: StatusManager.Prefs, device: Device,
                                    clock: Clock, cancel: Option<Cancellation>): (r: Step)
    ensures !device.hasRoot ==>
      r.store == store && r.vm == vm.(uiState := InstallFailure(ROOT_REQUIRED_FOR_INSTALL, SelectedDriver(vm.uiState)))
    ensures device.hasRoot ==>
      r.vm.showTerminalDialog && r.vm.terminalCompleted
      && |r.vm.terminalLogs| >= 1 && r.vm.terminalLogs[0].text == "开始刷入驱动..."
    ensures device.hasRoot && cancel.None? ==>
      (r.vm.uiState.InstallSuccess? <==> InstallCanSucceed(SelectedDriver(vm.uiState), device))
      && r.store == InstallDriver(SelectedDriver(vm.uiState), store, device).store
    ensures SelectedDriver(r.vm.uiState) == SelectedDriver(vm.uiState)
  {
    if !device.hasRoot then
      Step(vm.(uiState := InstallFailure(errorMessage := ROOT_REQUIRED_FOR_INSTALL,
                                         selectedDriver := SelectedDriver(vm.uiState))), store)
    else
      var withTerminal := TerminalOpened(vm);
      var driver := SelectedDriver(withTerminal.uiState);
      var launched := InstallLaunched(withTerminal);
      SimulateInstallProcess(launched, store, device, driver, clock, cancel)
  }

  /** Lines written before `simulateResetProcess` calls the repository. */
  function ResetPreamble(): (lines: seq<ScriptLine>)
    ensures |lines| == 9 && lines[0] == Pause("开始重置驱动...", COMMAND)
    ensures forall i :: 0 <= i < |lines| ==> lines[i].pauses
  {
    [ Pause("开始重置驱动...", COMMAND),
      Pause("检查Root权限...", INFO),
      Pause("Root权限检查通过", SUCCESS),
      Pause("停止相关服务...", INFO),
      Pause("服务已停止", SUCCESS),
      Pause("清理驱动文件...", INFO),
      Pause("驱动文件已清理", SUCCESS),
      Pause("重置系统配置...", INFO),
      Pause("系统配置已重置", SUCCESS) ]
  }

  /** Lines written after the repository answers. */
  function ResetEpilogue(result: DriverResetResult): (lines: seq<ScriptLine>)
    ensures |lines| >= 2
    ensures result.Success? ==> lines[|lines| - 1] == Last("重置完成", COMMAND)
    ensures result.NoRootPermission? || result.Error? ==> lines[|lines| - 1].kind == ERROR
    ensures result.RebootFailed? ==> lines[|lines| - 1].kind == WARNING
  {
    match result
    case Success =>
      [ Pause("正在重启设备...", PROGRESS),
        Pause("设备重启完成", SUCCESS),
        Pause("驱动重置成功！", SUCCESS),
        Last("重置完成", COMMAND) ]
    case NoRootPermission =>
      [ Last("Root权限不足", ERROR), Last("无法执行重置操作", ERROR) ]
    case RebootFailed =>
      [ Last("驱动已重置", SUCCESS), Last("设备重启失败", WARNING), Last("请手动重启设备", WARNING) ]
    case Error(message) =>
      [ Last("重置失败", ERROR), Last("错误信息: " + message, ERROR) ]
  }

  /** The state the simulated reset ends in; failures name the driver the screen shows at that moment. */
  function SimulatedResetState(current: DriverUiState, result: DriverResetResult): (s: DriverUiState)
    ensures DefaultFlags(s)
    ensures result.Success? <==> s == ResetSuccess()
    ensures !result.Success? ==> s.ResetFailure? && SelectedDriver(s) == SelectedDriver(current)
  {
    match result
    case Success => ResetSuccess()
    case NoRootPermission =>
      ResetFailure(errorMessage := "设备未获得Root权限，无法执行重置操作。", installedDriver := SelectedDriver(current))
    case RebootFailed =>
      ResetFailure(errorMessage := "驱动状态已重置，但设备重启失败。请手动重启设备以完成重置过程。",
                   installedDriver := SelectedDriver(current))
    case Error(message) => ResetFailure(errorMessage := message, installedDriver := SelectedDriver(current))
  }

  /** The reset run cut short: the `catch` block reports the exception as a reset failure. */
  function ResetInterrupted(vm: DriverViewModel, script: seq<ScriptLine>, n: nat, message: string,
                            clock: Clock, store: StatusManager.Prefs): (r: Step)
    requires n <= |script|
    ensures r.vm.terminalCompleted && r.vm.showTerminalDialog == vm.showTerminalDialog
    ensures Extends(r.vm.terminalLogs, vm.terminalLogs)
    ensures r.vm.uiState == ResetFailure("重置过程出现异常: " + message, SelectedDriver(vm.uiState))
    ensures DefaultFlags(r.vm.uiState) && SelectedDriver(r.vm.uiState) == SelectedDriver(vm.uiState)
    ensures LastLog(r.vm).kind == ERROR
    ensures n >= 1 ==> FirstWritten(r.vm, vm, script[0], clock)
    ensures r.store == store
  {
    var logged := RunInterrupted(vm, script, n, "重置过程出现异常", message, clock);
    Step(logged.(uiState := ResetFailure(errorMessage := "重置过程出现异常: " + message,
                                         installedDriver := SelectedDriver(logged.uiState))), store)
  }

  /** The reset run played to the end: the repository's answer decides the state shown. */
  function ResetCompleted(vm: DriverViewModel, script: seq<ScriptLine>, run: ResetRun, clock: Clock): (r: Step)
    requires |script| > 0
    requires script[|script| - 1] == ResetEpilogue(run.result)[|ResetEpilogue(run.result)| - 1]
    ensures r.vm.terminalCompleted && r.vm.showTerminalDialog == vm.showTerminalDialog
    ensures Extends(r.vm.terminalLogs, vm.terminalLogs)
    ensures r.vm.uiState == SimulatedResetState(vm.uiState, run.result)
    ensures DefaultFlags(r.vm.uiState)
    ensures run.result.Success? ==> r.vm.uiState.ResetSuccess? && LastLog(r.vm).text == "重置完成"
    ensures !run.result.Success? ==>
      r.vm.uiState.ResetFailure? && SelectedDriver(r.vm.uiState) == SelectedDriver(vm.uiState)
      && LastLog(r.vm).kind in {ERROR, WARNING}
    ensures FirstWritten(r.vm, vm, script[0], clock)
    ensures r.store == run.store
  {
    var written := RunCompleted(vm, script, clock);
    Step(written.(uiState := SimulatedResetState(written.uiState, run.result)), run.store)
  }

  /**
   * `simulateResetProcess` around a given answer `run` of the repository.
   * A cancellation during the preamble leaves the status as it was; one
   * after the repository call keeps what the reset persisted.
   */
  function SimulateResetAround(vm: DriverViewModel, store: StatusManager.Prefs, run: ResetRun,
                               clock: Clock, cancel: Option<Cancellation>): (r: Step)
    ensures r.vm.terminalCompleted
    ensures r.vm.showTerminalDialog == vm.showTerminalDialog
    ensures Extends(r.vm.terminalLogs, vm.terminalLogs)
    ensures DefaultFlags(r.vm.uiState)
    ensures r.vm.uiState.ResetSuccess? || r.vm.uiState.ResetFailure?
    ensures r.vm.uiState.ResetFailure? ==> SelectedDriver(r.vm.uiState) == SelectedDriver(vm.uiState)
    ensures r.vm.uiState.ResetSuccess? ==>
      run.result.Success? && r.store == run.store && LastLog(r.vm).text == "重置完成"
    ensures r.vm.uiState.ResetFailure? ==> LastLog(r.vm).kind in {ERROR, WARNING}
    ensures FirstWritten(r.vm, vm, Pause("开始重置驱动...", COMMAND), clock)
    ensures r.store == store || r.store == run.store
    ensures cancel.None? ==> (r.vm.uiState.ResetSuccess? <==> run.result.Success?) && r.store == run.store
  {
    var epilogue := ResetEpilogue(run.result);
    var script := ResetPreamble() + epilogue;
    assert script[|script| - 1] == epilogue[|epilogue| - 1];
    assert script[0] == Pause("开始重置驱动...", COMMAND);
    if StrikesAt(script, cancel) then
      var n := cancel.value.afterLine;
      ResetInterrupted(vm, script, n, cancel.value.message, clock,
                       if n <= |ResetPreamble()| then store else run.store)
    else
      ResetCompleted(vm, script, run, clock)
  }

  /**
   * `simulateResetProcess`: scripted lines around the repository's reset;
   * `finally` marks the terminal completed on every path.
   */
  function SimulateResetProcess(vm: DriverViewModel, store: StatusManager.Prefs, device: Device,
                                clock: Clock, cancel: Option<Cancellation>): (r: Step)
    ensures r.vm.terminalCompleted
    ensures r.vm.showTerminalDialog == vm.showTerminalDialog
    ensures Extends(r.vm.terminalLogs, vm.terminalLogs)
    ensures DefaultFlags(r.vm.uiState)
    ensures r.vm.uiState.ResetSuccess? || r.vm.uiState.ResetFailure?
    ensures r.vm.uiState.ResetFailure? ==> SelectedDriver(r.vm.uiState) == SelectedDriver(vm.uiState)
    ensures r.vm.uiState.ResetSuccess? ==>
      device.hasRoot && device.rebootSucceeds && !StatusManager.IsDriverInstalled(r.store)
    ensures FirstWritten(r.vm, vm, Pause("开始重置驱动...", COMMAND), clock)
    ensures !device.hasRoot ==> r.store == store
    ensures cancel.None? ==>
      (r.vm.uiState.ResetSuccess? <==> device.hasRoot && device.rebootSucceeds)
      && r.store == ResetDriver(store, device).store
      && (device.hasRoot ==> !StatusManager.IsDriverInstalled(r.store))
  {
    SimulateResetAround(vm, store, ResetDriver(store, device), clock, cancel)
  }

  /**
   * `startResetWithTerminal`: without root only the UI state changes;
   * otherwise a fresh log is opened and the simulated reset runs to completion.
   */
  function StartResetWithTerminal(vm: DriverViewModel, store: StatusManager.Prefs, device: Device,
                                  clock: Clock, cancel: Option<Cancellation>): (r: Step)
    ensures !device.hasRoot ==>
      r.store == store && r.vm == vm.(uiState := ResetFailure(ROOT_REQUIRED_FOR_RESET, SelectedDriver(vm.uiState)))
    ensures device.hasRoot ==>
      r.vm.showTerminalDialog && r.vm.terminalCompleted
      && |r.vm.terminalLogs| >= 1 && r.vm.terminalLogs[0].text == "开始重置驱动..."
    ensures device.hasRoot && cancel.None? ==>
      (r.vm.uiState.ResetSuccess? <==> device.rebootSucceeds)
      && r.store == ResetDriver(store, device).store && !StatusManager.IsDriverInstalled(r.store)
    ensures SelectedDriver(r.vm.uiState) == SelectedDriver(vm.uiState) || r.vm.uiState == ResetSuccess()
  {
    if !device.hasRoot then
      Step(vm.(uiState := ResetFailure(errorMessage := ROOT_REQUIRED_FOR_RESET,
                                       installedDriver := SelectedDriver(vm.uiState))), store)
    else
      var withTerminal := TerminalOpened(vm);
      var launched := ResetLaunched(withTerminal);
      SimulateResetProcess(launched, store, device, clock, cancel)
  }

  /** `closeTerminalDialog`: hide the dialog and forget the run; the UI state stays. */
  function CloseTerminalDialog(vm: DriverViewModel): (r: DriverViewModel)
    ensures !r.showTerminalDialog && r.terminalLogs == [] && !r.terminalCompleted
    ensures r.uiState == vm.uiState
  {
    vm.(showTerminalDialog := false, terminalLogs := [], terminalCompleted := false)
  }
}
