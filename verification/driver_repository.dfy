/**
 * The repository behind the driver screen: install and reset sequencing
 * over the persisted status. Everything privileged is an oracle field of
 * `Device`: root access, the kernel version property, the listing of the
 * driver's asset folder, the outcome of running the script, and whether the
 * reboot command launched.
 */
module Repository {
  import opened Wrappers
  import opened Terminal
  import opened Matcher
  import opened StatusManager

  datatype DriverInstallResult = Success | Error(message: string)

  datatype DriverResetResult = Success | NoRootPermission | RebootFailed | Error(message: string)

  /** One call of the `onLogOutput` callback. */
  datatype LogLine = LogLine(text: string, kind: LogType)

  /**
   * What `executeDriverInstallation` reports: whether `su -c sh <script>`
   * exited with 0, and the lines it passed to the callback on the way.
   */
  datatype ScriptRun = ScriptRun(succeeded: bool, output: seq<LogLine>)

  datatype Device = Device(
    hasRoot: bool,
    osVersion: Option<string>,
    assets: set<string>,
    script: ScriptRun,
    rebootSucceeds: bool,
    now: int)

  /** Driver name to asset folder; only one driver has scripts bundled. */
  const DRIVER_FOLDER_MAP: map<string, string> := map["RTpro" := "RT-devpro"]

  const UNKNOWN_KERNEL: string := "未知"

  const ROOT_REQUIRED_FOR_INSTALL: string :=
    "驱动安装需要Root权限。\n\n请先获取Root权限后再试。\n\n提示：Root权限是安装系统级驱动的必要条件。"
  const INSTALL_FAILED: string := "驱动安装失败，请检查日志信息或重试。"
  const INSTALL_STARTED: LogLine := LogLine("开始驱动安装流程...", INFO)
  const ROOT_CHECK_FAILED: LogLine := LogLine("Root权限检查失败", ERROR)
  const ROOT_CHECK_PASSED: LogLine := LogLine("Root权限检查通过", SUCCESS)

  /** `getCurrentKernelVersion`: the `os.version` property, or "未知" when it is missing. */
  function CurrentKernelVersion(device: Device): (r: string)
    ensures device.osVersion.Some? ==> r == device.osVersion.value
    ensures device.osVersion.None? ==> r == UNKNOWN_KERNEL
  {
    device.osVersion.GetOr(UNKNOWN_KERNEL)
  }

  /**
   * `getDriverFileForKernel`: the matched script, provided the asset folder
   * really holds it. The folder's listing is `assets`, the same listing the
   * matcher's probes read.
   */
  function DriverFileForKernel(kernelVersion: string, assets: set<string>): (r: Option<string>)
    ensures r.Some? ==> r.value in assets && MatchingDriverFileName(kernelVersion, assets) == r
    ensures r.None? <==> var m := MatchingDriverFileName(kernelVersion, assets); m.None? || m.value !in assets
  {
    match MatchingDriverFileName(kernelVersion, assets)
    case None => None
    case Some(name) => if name in assets then Some(name) else None
  }

  datatype InstallRun = InstallRun(result: DriverInstallResult, store: Prefs, log: seq<LogLine>)

  /** The conditions under which `installDriver` reaches a successful script run. */
  predicate InstallCanSucceed(driverName: string, device: Device)
  {
    && device.hasRoot
    && driverName in DRIVER_FOLDER_MAP
    && DriverFileForKernel(CurrentKernelVersion(device), device.assets).Some?
    && device.script.succeeded
  }

  /**
   * `installDriver`: root check, folder lookup, kernel detection, script
   * selection, script run; the status is written only after a successful run.
   */
  function InstallDriver(driverName: string, store: Prefs, device: Device): (r: InstallRun)
    ensures r.result.Success? <==> InstallCanSucceed(driverName, device)
    ensures r.result.Success? ==>
      View(r.store) == View(store).(installed := true, selected := driverName, installTime := device.now)
    ensures r.result.Error? ==> r.store == store
    ensures !device.hasRoot ==> r.result == DriverInstallResult.Error(ROOT_REQUIRED_FOR_INSTALL)
    ensures |r.log| >= 2 && r.log[0] == INSTALL_STARTED
    ensures r.log[|r.log| - 1].kind == ERROR <==> r.result.Error?
  {
    var log0 := [INSTALL_STARTED];
    if !device.hasRoot then
      InstallRun(DriverInstallResult.Error(ROOT_REQUIRED_FOR_INSTALL), store, log0 + [ROOT_CHECK_FAILED])
    else
      var log1 := log0 + [ROOT_CHECK_PASSED];
      if driverName !in DRIVER_FOLDER_MAP then
        InstallRun(
          DriverInstallResult.Error("您选择的驱动 '" + driverName + "' 尚未准备好，请选择其他驱动。"),
          store,
          log1 + [LogLine("驱动 '" + driverName + "' 尚不可用", ERROR)])
      else
        var driverFolder := DRIVER_FOLDER_MAP[driverName];
        var log2 := log1 + [LogLine("选择的驱动: " + driverName + " -> 文件夹: " + driverFolder, INFO)];
        var kernelVersion := CurrentKernelVersion(device);
        var log3 := log2 + [LogLine("检测到内核版本：" + kernelVersion, INFO)];
        var driverFile := DriverFileForKernel(kernelVersion, device.assets);
        if driverFile.None? then
          InstallRun(
            DriverInstallResult.Error("在 '" + driverFolder + "' 文件夹中未找到适配当前内核版本(" + kernelVersion + ")的驱动文件。"),
            store,
            log3 + [LogLine("未找到匹配的驱动文件", ERROR)])
        else
          var log4 := log3 + [LogLine("选择驱动文件：" + driverFile.value, INFO), LogLine("准备驱动文件完成", SUCCESS)]
                      + device.script.output;
          if device.script.succeeded then
            var store' := SetSelectedDriver(SetDriverInstalled(store, true, device.now), driverName);
            InstallRun(DriverInstallResult.Success, store', log4 + [LogLine("驱动安装成功！", SUCCESS)])
          else
            InstallRun(DriverInstallResult.Error(INSTALL_FAILED), store, log4 + [LogLine("驱动安装失败", ERROR)])
  }

  datatype ResetRun = ResetRun(result: DriverResetResult, store: Prefs, log: seq<LogLine>)

  /**
   * `resetDriver`: with root, the status is wiped before the reboot is
   * attempted, so a failed reboot still leaves the driver marked uninstalled.
   */
  function ResetDriver(store: Prefs, device: Device): (r: ResetRun)
    ensures r.result.NoRootPermission? <==> !device.hasRoot
    ensures r.result.RebootFailed? <==> device.hasRoot && !device.rebootSucceeds
    ensures r.result.Success? <==> device.hasRoot && device.rebootSucceeds
    ensures !device.hasRoot ==> r.store == store
    ensures device.hasRoot ==> View(r.store) == DefaultView && r.store.Keys == {DriverInstalled, SelectedDriver}
    ensures |r.log| >= 1 && (r.log[|r.log| - 1].kind == ERROR <==> !r.result.Success?)
  {
    if !device.hasRoot then
      ResetRun(NoRootPermission, store, [ROOT_CHECK_FAILED])
    else
      var log := [
        ROOT_CHECK_PASSED,
        LogLine("正在启动终端重置模式...", INFO),
        LogLine("正在卸载驱动...", PROGRESS),
        LogLine("驱动卸载完成", SUCCESS)
      ];
      var store' := ResetDriverStatus(store);
      var log' := log + [LogLine("驱动状态已重置", SUCCESS), LogLine("准备重启设备以完成重置", INFO)];
      if !device.rebootSucceeds then
        ResetRun(RebootFailed, store', log' + [LogLine("重启设备失败", ERROR)])
      else
        ResetRun(DriverResetResult.Success, store', log')
  }
}
