# Driver installer core of game-camp-android, in Dafny

The Android app installs a kernel driver on a rooted phone, and can reset it
again. The logic behind its driver screen is modelled here:

- the **kernel matcher** picks a driver shell script for the running kernel.
  It tests a family prefix first, then patch substrings. For some patch
  levels it probes lettered revisions ("d", "c", "b") in the asset folder.
  The asset folder is a set of file names.
- the **repository** runs `installDriver` and `resetDriver` in sequence.
  These are total functions over device oracles: root, kernel string,
  available assets, the script's exit status, the reboot's success and the
  clock. Each returns the result variant, the new persisted status and the
  log it emitted.
- **`DriverStatusManager`** is a key–value store with a default on every
  read. Its `clear()` wipes every key. The store also holds the three-flag
  `AssistantSettings` record.
- **`DriverUiState`** is the screen's eight-variant state, with its five
  projections.
- **`DriverViewModel`** has one transition function per public operation
  over (state, terminal log, dialog flags). It also models the simulated
  install and reset runs that fill the terminal dialog, including
  cancellation at any of their `delay`s.
- **`DriverConstants`** is the driver catalogue.

Some properties proved here show where the screen and the persisted status
drift apart:

- A reboot failure after a reset leaves the screen on the installed side,
  although the store already says uninstalled.
- A cancellation after a successful install leaves the store saying
  installed, while the last state the run writes is an install failure.
- No driver in the catalogue can actually be installed. Only "RTpro" has a
  script folder.
- After a successful reset the screen names "RTPRO驱动". That name is not
  in the catalogue.

The eight family prefixes of the matcher are pairwise disjoint
(`MatcherLemmas.FamilyPrefixesDisjoint`), so the order of the family tests
does not matter (`MatcherLemmas.MatchByFamily`). A raw prefix still lets
"6.12.0" match the 6.1 family.

The module layout follows the app's source files:

| module | file |
|---|---|
| `Wrappers`, `Strings` | `Option`; the Kotlin string operations the matcher uses (`startsWith`, `contains`, `split`) |
| `DriverConstants` | constants/DriverConstants.kt |
| `Terminal` | data/TerminalLog.kt |
| `Assistant` | the `AssistantSettings` record of ui/components/AssistantSettingsDialog.kt |
| `StatusManager` | data/DriverStatusManager.kt |
| `Matcher`, `MatcherLemmas` | the matcher and compatibility check of repository/DriverRepository.kt |
| `Repository`, `RepositoryLemmas` | the rest of repository/DriverRepository.kt |
| `UiState` | ui/state/DriverUiState.kt |
| `ViewModel`, `ViewModelLemmas` | viewmodel/DriverViewModel.kt |

## Model

| member | source | states |
|---|---|---|
| Strings.Contains | app/src/main/java/com/gamecamp/repository/DriverRepository.kt:125-151 | `contains` holds exactly when the pattern occurs at some position of the string |
| Strings.Split | app/src/main/java/com/gamecamp/repository/DriverRepository.kt:96-100 | `split` gives one more part than there are delimiters, no part holds the delimiter, and joining the parts gives the input back |
| Strings.SplitSingleIffNoDelimiter | app/src/main/java/com/gamecamp/repository/DriverRepository.kt:96-97 | fewer than two parts exactly when the string has no '.' |
| DriverConstants.IsRecommendedDriver | app/src/main/java/com/gamecamp/constants/DriverConstants.kt:80-82 | the literal "FL驱动" it tests for is exactly the default driver |
| DriverConstants.GetDriverDisplayName | app/src/main/java/com/gamecamp/constants/DriverConstants.kt:66-75 | the recommended driver gets " (推荐)" appended; every other name, known or not, is returned as is |
| DriverConstants.DefaultIsSupported | app/src/main/java/com/gamecamp/constants/DriverConstants.kt:13-25 | the default driver is in the supported list, and the five entries are distinct |
| DriverConstants.EverySupportedDriverIsDescribed | app/src/main/java/com/gamecamp/constants/DriverConstants.kt:13-36 | the description map's keys are exactly the supported drivers |
| DriverConstants.RecommendedIsUniqueDefault | app/src/main/java/com/gamecamp/constants/DriverConstants.kt:25-25 | exactly one supported driver is recommended, and it is the default |
| DriverConstants.DisplayNameExtendsName | app/src/main/java/com/gamecamp/constants/DriverConstants.kt:80-82 | the display name starts with the name and is longer exactly for the recommended driver |
| StatusManager.IsDriverInstalled | app/src/main/java/com/gamecamp/data/DriverStatusManager.kt:37-39 | the stored flag, false when the key was never written |
| StatusManager.GetSelectedDriver | app/src/main/java/com/gamecamp/data/DriverStatusManager.kt:60-62 | the stored name, the catalogue default when the key was never written |
| StatusManager.GetInstallTime | app/src/main/java/com/gamecamp/data/DriverStatusManager.kt:77-79 | the stored stamp, 0 when the key was never written |
| StatusManager.LoadAssistantSettings | app/src/main/java/com/gamecamp/data/DriverStatusManager.kt:130-136 | each of the three flags reads its own key, false when never written |
| StatusManager.SetDriverInstalled | app/src/main/java/com/gamecamp/data/DriverStatusManager.kt:44-55 | `true` sets the flag and stamps the install time with `now`; `false` sets the flag and keeps the old time; nothing else read changes |
| StatusManager.SetSelectedDriver | app/src/main/java/com/gamecamp/data/DriverStatusManager.kt:68-72 | only the selected driver changes |
| StatusManager.SaveAssistantSettings | app/src/main/java/com/gamecamp/data/DriverStatusManager.kt:119-125 | only the three assistant flags change |
| StatusManager.ResetDriverStatus | app/src/main/java/com/gamecamp/data/DriverStatusManager.kt:84-90 | every key is wiped except installed=false and selected=default, so every read gives its default |
| StatusManager.EmptyStoreReadsDefaults | app/src/main/java/com/gamecamp/data/DriverStatusManager.kt:37-79 | an empty store reads not installed, the default driver, time 0 |
| StatusManager.SelectedDriverRoundTrip | app/src/main/java/com/gamecamp/data/DriverStatusManager.kt:60-72 | reading the selected driver after setting it gives it back |
| StatusManager.AssistantSettingsRoundTrip | app/src/main/java/com/gamecamp/data/DriverStatusManager.kt:119-136 | loading after saving gives the same settings, and leaves the installed flag, driver and time as they were |
| StatusManager.ResetIsIdempotent | app/src/main/java/com/gamecamp/data/DriverStatusManager.kt:84-90 | resetting twice equals resetting once, and the result reads like an empty store |
| Matcher.FirstAvailable | app/src/main/java/com/gamecamp/repository/DriverRepository.kt:114-119 | the result is the first candidate present in the assets, or the fallback when none is |
| Matcher.Family54 | app/src/main/java/com/gamecamp/repository/DriverRepository.kt:112-119 | the 5.4 family names a known script, and a lettered one only if it is present |
| Matcher.Family419 | app/src/main/java/com/gamecamp/repository/DriverRepository.kt:123-143 | the 4.19 family names a known script, and a lettered one only if it is present |
| Matcher.Family414 | app/src/main/java/com/gamecamp/repository/DriverRepository.kt:146-162 | the 4.14 family names a known script, and a lettered one only if it is present |
| Matcher.MatchingDriverFileName | app/src/main/java/com/gamecamp/repository/DriverRepository.kt:94-169 | a kernel string without '.' gives no script; any script named is a known one, and a lettered one only if it is present |
| Matcher.FamilyScript | app/src/main/java/com/gamecamp/repository/DriverRepository.kt:104-168 | the same guarantee for the prefix chain alone |
| Matcher.CheckDeviceCompatibility | app/src/main/java/com/gamecamp/repository/DriverRepository.kt:355-364 | a compatible kernel string has at least three characters with a '.' in second place, as every supported version has |
| MatcherLemmas.PrefixesClash | app/src/main/java/com/gamecamp/repository/DriverRepository.kt:104-168 | two prefixes that differ at some position never both match one string |
| MatcherLemmas.FamilyPrefixesDisjoint | app/src/main/java/com/gamecamp/repository/DriverRepository.kt:104-168 | no string starts with two of the eight family prefixes |
| MatcherLemmas.FamilyPrefixHasDot | app/src/main/java/com/gamecamp/repository/DriverRepository.kt:96-97 | a string with a family prefix contains '.', so the split guard never cuts a supported kernel off |
| MatcherLemmas.FamilyScriptIffCompatible | app/src/main/java/com/gamecamp/repository/DriverRepository.kt:355-364 | the prefix chain names a script exactly when the compatibility check passes |
| MatcherLemmas.MatchIffCompatible | app/src/main/java/com/gamecamp/repository/DriverRepository.kt:94-169 | the matcher returns a script exactly when `checkDeviceCompatibility` holds for the same string |
| MatcherLemmas.MatchByFamily | app/src/main/java/com/gamecamp/repository/DriverRepository.kt:104-168 | the matcher agrees with an order-free table keyed by the family the kernel starts with |
| MatcherLemmas.FixedFamilies | app/src/main/java/com/gamecamp/repository/DriverRepository.kt:106-111 | 6.6, 6.1, 5.15, 5.10 and 4.9 give fixed names, whatever the assets |
| MatcherLemmas.GuardPasses | app/src/main/java/com/gamecamp/repository/DriverRepository.kt:96-104 | a kernel string containing '.' passes the split guard, so the result is that of the prefix chain |
| MatcherLemmas.Reaches66 | app/src/main/java/com/gamecamp/repository/DriverRepository.kt:104-106 | a kernel starting with "6.6" gets "6.6.sh" |
| MatcherLemmas.Reaches61 | app/src/main/java/com/gamecamp/repository/DriverRepository.kt:104-107 | a kernel starting with "6.1" gets "6.1.sh"; the earlier "6.6" branch cannot fire |
| MatcherLemmas.Reaches515 | app/src/main/java/com/gamecamp/repository/DriverRepository.kt:104-110 | a kernel starting with "5.15" gets "5.15.sh"; no earlier branch can fire |
| MatcherLemmas.Reaches510 | app/src/main/java/com/gamecamp/repository/DriverRepository.kt:104-111 | a kernel starting with "5.10" gets "5.10.sh"; no earlier branch can fire |
| MatcherLemmas.Reaches54 | app/src/main/java/com/gamecamp/repository/DriverRepository.kt:104-120 | a kernel starting with "5.4" gets the 5.4 probe result; no earlier branch can fire |
| MatcherLemmas.Reaches419 | app/src/main/java/com/gamecamp/repository/DriverRepository.kt:104-143 | a kernel starting with "4.19" gets the 4.19 family result; no earlier branch can fire |
| MatcherLemmas.Reaches414 | app/src/main/java/com/gamecamp/repository/DriverRepository.kt:104-162 | a kernel starting with "4.14" gets the 4.14 family result; no earlier branch can fire |
| MatcherLemmas.Reaches49 | app/src/main/java/com/gamecamp/repository/DriverRepository.kt:104-165 | a kernel starting with "4.9" gets "4.9.186.sh"; no earlier branch can fire |
| MatcherLemmas.FamiliesSeeOnlyLettered | app/src/main/java/com/gamecamp/repository/DriverRepository.kt:112-162 | the 5.4, 4.19 and 4.14 families give the same answer for two asset folders that agree on the lettered scripts |
| MatcherLemmas.LetteredProbing | app/src/main/java/com/gamecamp/repository/DriverRepository.kt:112-156 | 5.4, 4.19.191, 4.19.157 and 4.14.186 probe their lettered revisions in the fixed descending order |
| MatcherLemmas.PatchLevelsInOrder | app/src/main/java/com/gamecamp/repository/DriverRepository.kt:123-162 | the remaining 4.19 and 4.14 patch levels are tested in source order, and the unlettered defaults 4.19.191.sh and 4.14.186.sh close each chain |
| MatcherLemmas.FirstAvailableSeesOnlyCandidates | app/src/main/java/com/gamecamp/repository/DriverRepository.kt:114-119 | probing depends only on which candidates are present |
| MatcherLemmas.OnlyLetteredAssetsMatter | app/src/main/java/com/gamecamp/repository/DriverRepository.kt:174-181 | two asset folders that agree on the lettered scripts give the same match |
| MatcherLemmas.RawPrefixExample | app/src/main/java/com/gamecamp/repository/DriverRepository.kt:107-107 | "6.12.0" matches the raw prefix "6.1" and gets "6.1.sh" |
| MatcherLemmas.GkiKernelExample | app/src/main/java/com/gamecamp/repository/DriverRepository.kt:111-111 | "5.10.66-gki" gets "5.10.sh" |
| MatcherLemmas.LetteredRevisionExample | app/src/main/java/com/gamecamp/repository/DriverRepository.kt:125-130 | a 4.19.191 kernel with only the "c" revision present gets it |
| MatcherLemmas.UnsupportedKernelExample | app/src/main/java/com/gamecamp/repository/DriverRepository.kt:167-167 | "3.18.0" gets no script |
| Repository.CurrentKernelVersion | app/src/main/java/com/gamecamp/repository/DriverRepository.kt:186-188 | the `os.version` property when present, "未知" otherwise |
| Repository.DriverFileForKernel | app/src/main/java/com/gamecamp/repository/DriverRepository.kt:62-87 | a script file is found exactly when the matcher names one and it is present |
| Repository.InstallDriver | app/src/main/java/com/gamecamp/repository/DriverRepository.kt:210-259 | success exactly with root, a script folder for the driver, a matching script and a successful run; success stamps installed, driver and time; every failure leaves the store as it was; the log ends in an error line exactly on failure |
| Repository.ResetDriver | app/src/main/java/com/gamecamp/repository/DriverRepository.kt:394-424 | no root gives NoRootPermission and an untouched store; with root the status is reset before the reboot, then RebootFailed or Success follows the reboot |
| RepositoryLemmas.SupportedDriversNeverInstall | app/src/main/java/com/gamecamp/repository/DriverRepository.kt:49-54 | every catalogue driver fails to install and leaves the store alone, as none has a script folder |
| RepositoryLemmas.BundledFolderCanInstall | app/src/main/java/com/gamecamp/repository/DriverRepository.kt:210-259 | the "RTpro" folder installs on a rooted 5.10 device whose assets hold 5.10.sh and whose script exits zero |
| RepositoryLemmas.FailedScriptKeepsStatus | app/src/main/java/com/gamecamp/repository/DriverRepository.kt:243-258 | a script that fails leaves the installed flag as it was |
| RepositoryLemmas.UnsupportedKernelStopsInstall | app/src/main/java/com/gamecamp/repository/DriverRepository.kt:230-237 | an incompatible kernel fails the install and leaves the store alone, and the outcome is the same whatever the script would have done, so no script runs |
| RepositoryLemmas.ResetTwiceIsResetOnce | app/src/main/java/com/gamecamp/repository/DriverRepository.kt:394-424 | a second reset leaves the same store as the first |
| RepositoryLemmas.ResetNeverErrors | app/src/main/java/com/gamecamp/repository/DriverRepository.kt:419-423 | the generic Error variant of a reset cannot arise |
| RepositoryLemmas.ResetUndoesInstall | app/src/main/java/com/gamecamp/repository/DriverRepository.kt:408-409 | with root, a reset after an install reads uninstalled with the default driver, whether or not the reboot works |
| UiState.InstalledFlagFollowsSide | app/src/main/java/com/gamecamp/ui/state/DriverUiState.kt:12-92 | with every flag at its constructor default, `isDriverInstalled` is true for InstallSuccess, Resetting, ShowConfirmDialog and ResetFailure and false for the other four |
| UiState.IsLoading | app/src/main/java/com/gamecamp/ui/state/DriverUiState.kt:79-80 | the spinner never shows together with an error message |
| UiState.SelectedDriver | app/src/main/java/com/gamecamp/ui/state/DriverUiState.kt:94-104 | `selectedDriver` reads installedDriver on the installed side and selectedDriver elsewhere |
| UiState.ShowsConfirmDialog | app/src/main/java/com/gamecamp/ui/state/DriverUiState.kt:106-107 | the confirm dialog shows only on the installed side, with no spinner and no error |
| UiState.ErrorMessage | app/src/main/java/com/gamecamp/ui/state/DriverUiState.kt:109-114 | an error message is present exactly on InstallFailure and ResetFailure |
| UiState.ConstructorDefaults | app/src/main/java/com/gamecamp/ui/state/DriverUiState.kt:12-73 | every constructor's default flag puts it on its side, and the state's default driver is "RTPRO驱动" |
| ViewModel.StatusState | app/src/main/java/com/gamecamp/viewmodel/DriverViewModel.kt:64-75 | the status check shows InstallSuccess of the stored driver when the store says installed, else Initial with the catalogue default, with no spinner and no error |
| ViewModel.CheckDriverStatus | app/src/main/java/com/gamecamp/viewmodel/DriverViewModel.kt:64-82 | the refresh replaces the state with the store's and touches nothing else |
| ViewModel.Create | app/src/main/java/com/gamecamp/viewmodel/DriverViewModel.kt:36-59 | a fresh view model shows the store's state, an empty log and a closed, incomplete terminal |
| ViewModel.OnDriverSelected | app/src/main/java/com/gamecamp/viewmodel/DriverViewModel.kt:87-96 | only the selected driver changes, and only in Initial or InstallFailure while neither loading nor installed |
| ViewModel.InstallLaunched | app/src/main/java/com/gamecamp/viewmodel/DriverViewModel.kt:112-114 | the install shows Installing for the driver selected at launch |
| ViewModel.InstallFinished | app/src/main/java/com/gamecamp/viewmodel/DriverViewModel.kt:116-127 | Success shows InstallSuccess, Error shows InstallFailure with its message, both for the launch driver |
| ViewModel.OnInstallClick | app/src/main/java/com/gamecamp/viewmodel/DriverViewModel.kt:101-129 | without root the failure shows at once and the store is untouched; otherwise InstallSuccess exactly when the install can succeed, with the store then saying installed |
| ViewModel.OnResetClick | app/src/main/java/com/gamecamp/viewmodel/DriverViewModel.kt:134-151 | ResetFailure without root, the confirm dialog when installed, no change otherwise |
| ViewModel.ResetLaunched | app/src/main/java/com/gamecamp/viewmodel/DriverViewModel.kt:157-159 | the reset shows Resetting for the driver shown at launch |
| ViewModel.ResetFinished | app/src/main/java/com/gamecamp/viewmodel/DriverViewModel.kt:161-184 | Success shows ResetSuccess; the other three results show ResetFailure for the launch driver, each with its own message |
| ViewModel.OnConfirmReset | app/src/main/java/com/gamecamp/viewmodel/DriverViewModel.kt:156-186 | ResetSuccess exactly with root and a working reboot; with root the store says uninstalled, without root it is untouched |
| ViewModel.OnCancelReset | app/src/main/java/com/gamecamp/viewmodel/DriverViewModel.kt:191-198 | the confirm dialog goes back to InstallSuccess of its driver; every other state is kept |
| ViewModel.ClearError | app/src/main/java/com/gamecamp/viewmodel/DriverViewModel.kt:203-227 | an install failure returns to selection, a reset failure re-reads the store, a reset success returns to the catalogue default, others are kept; no error remains |
| ViewModel.AddTerminalLog | app/src/main/java/com/gamecamp/viewmodel/DriverViewModel.kt:306-310 | one stamped line is appended and the old log is its prefix |
| ViewModel.AppendLines | app/src/main/java/com/gamecamp/viewmodel/DriverViewModel.kt:315-337 | successive appends write the scripted lines in order after the old log |
| ViewModel.AppendLinesLast | app/src/main/java/com/gamecamp/viewmodel/DriverViewModel.kt:315-350 | the last line written is the last line scripted |
| ViewModel.RunCompleted | app/src/main/java/com/gamecamp/viewmodel/DriverViewModel.kt:373-375 | a run that ends normally extends the log and marks the terminal completed |
| ViewModel.RunInterrupted | app/src/main/java/com/gamecamp/viewmodel/DriverViewModel.kt:365-375 | a cancelled run ends its log on an error line and still marks the terminal completed |
| ViewModel.InstallPreamble | app/src/main/java/com/gamecamp/viewmodel/DriverViewModel.kt:317-337 | eight lines, each followed by a `delay`, the first being "开始刷入驱动..." |
| ViewModel.InstallEpilogue | app/src/main/java/com/gamecamp/viewmodel/DriverViewModel.kt:342-364 | after a successful install the last line is "安装完成"; after a failure it is an error line |
| ViewModel.InstallInterrupted | app/src/main/java/com/gamecamp/viewmodel/DriverViewModel.kt:365-372 | the exception path shows InstallFailure with the exception message for the running driver |
| ViewModel.InstallCompleted | app/src/main/java/com/gamecamp/viewmodel/DriverViewModel.kt:342-364 | the normal path shows what the repository answered and keeps its store |
| ViewModel.SimulateInstallAround | app/src/main/java/com/gamecamp/viewmodel/DriverViewModel.kt:315-376 | the run always completes the terminal and extends the log; InstallSuccess only after a successful install ending on "安装完成"; a failure ends on an error line; uncancelled, the screen shows InstallSuccess exactly when the repository succeeded and the store is the one the repository wrote |
| ViewModel.SimulateInstallProcess | app/src/main/java/com/gamecamp/viewmodel/DriverViewModel.kt:315-376 | InstallSuccess only when the install can succeed, and then the store says installed with that driver; otherwise the store is untouched; uncancelled, InstallSuccess exactly when the install can succeed and the store is the repository's |
| ViewModel.TerminalOpened | app/src/main/java/com/gamecamp/viewmodel/DriverViewModel.kt:250-253 | the log is emptied, completion cleared and the dialog shown |
| ViewModel.StartInstallWithTerminal | app/src/main/java/com/gamecamp/viewmodel/DriverViewModel.kt:239-263 | without root only the state changes; otherwise the dialog is open, the run completed, and the log starts with "开始刷入驱动..."; with root and uncancelled, InstallSuccess exactly when the selected driver can be installed, with the repository's store |
| ViewModel.ResetPreamble | app/src/main/java/com/gamecamp/viewmodel/DriverViewModel.kt:383-404 | nine lines, each followed by a `delay`, the first being "开始重置驱动..." |
| ViewModel.ResetEpilogue | app/src/main/java/com/gamecamp/viewmodel/DriverViewModel.kt:409-449 | after a successful reset the last line is "重置完成"; NoRootPermission and Error end on an error line, RebootFailed on a warning |
| ViewModel.SimulatedResetState | app/src/main/java/com/gamecamp/viewmodel/DriverViewModel.kt:409-448 | Success shows ResetSuccess; every other result shows ResetFailure for the driver on screen |
| ViewModel.ResetInterrupted | app/src/main/java/com/gamecamp/viewmodel/DriverViewModel.kt:450-457 | the exception path shows ResetFailure with the exception message for the driver on screen |
| ViewModel.ResetCompleted | app/src/main/java/com/gamecamp/viewmodel/DriverViewModel.kt:409-449 | the normal path shows the state mapped from the repository's answer and keeps its store |
| ViewModel.SimulateResetAround | app/src/main/java/com/gamecamp/viewmodel/DriverViewModel.kt:381-461 | the run always completes the terminal; ResetSuccess only after a successful reset ending on "重置完成"; a failure keeps the driver on screen; uncancelled, ResetSuccess exactly when the repository succeeded and the store is the one it wrote |
| ViewModel.SimulateResetProcess | app/src/main/java/com/gamecamp/viewmodel/DriverViewModel.kt:381-461 | ResetSuccess only with root and a working reboot, and then the store says uninstalled; without root the store is untouched; uncancelled, ResetSuccess exactly with root and a working reboot, the store is the repository's and, with root, says uninstalled |
| ViewModel.StartResetWithTerminal | app/src/main/java/com/gamecamp/viewmodel/DriverViewModel.kt:268-292 | without root only the state changes; otherwise the dialog is open, the run completed, and the log starts with "开始重置驱动..."; the screen keeps the driver unless the reset succeeded; with root and uncancelled, ResetSuccess exactly when the reboot works, and the repository's store says uninstalled |
| ViewModel.CloseTerminalDialog | app/src/main/java/com/gamecamp/viewmodel/DriverViewModel.kt:297-301 | the dialog is hidden and the log and completion flag cleared |
| ViewModelLemmas.LastSelectionWins | app/src/main/java/com/gamecamp/viewmodel/DriverViewModel.kt:87-96 | selecting twice equals selecting the second driver |
| ViewModelLemmas.CancelUndoesResetClick | app/src/main/java/com/gamecamp/viewmodel/DriverViewModel.kt:134-198 | cancelling the confirm dialog returns exactly the state before the reset click |
| ViewModelLemmas.RebootFailureLeavesStaleScreen | app/src/main/java/com/gamecamp/viewmodel/DriverViewModel.kt:172-214 | after a failed reboot the screen says installed while the store says not; clearing the error makes them agree |
| ViewModelLemmas.ResetSuccessShowsUncataloguedDriver | app/src/main/java/com/gamecamp/ui/state/DriverUiState.kt:53-56 | the reset-success screen names a driver outside the catalogue; clearing it selects the catalogue default |
| ViewModelLemmas.InstallThenResetRestoresScreen | app/src/main/java/com/gamecamp/viewmodel/DriverViewModel.kt:87-227 | select, install, reset, confirm and dismiss returns the fresh view model, in agreement with the store |
| ViewModelLemmas.UncancelledInstallMatchesClick | app/src/main/java/com/gamecamp/viewmodel/DriverViewModel.kt:101-129 | an uncancelled terminal install ends on the same UI state and the same store as the plain install click (lines 239-263 and 315-376 are the terminal side) |
| ViewModelLemmas.UncancelledResetMatchesConfirm | app/src/main/java/com/gamecamp/viewmodel/DriverViewModel.kt:156-186 | an uncancelled terminal reset and the plain confirm agree on the store, on ResetSuccess and on the driver shown; they are equal except after a failed reboot, where the two error texts differ (lines 268-292 and 381-460 are the terminal side) |
| ViewModelLemmas.TerminalResetOutcome | app/src/main/java/com/gamecamp/viewmodel/DriverViewModel.kt:381-460 | with root and no cancellation, the terminal reset ends on the state its own `when` assigns to the repository's answer, with the repository's store |
| ViewModelLemmas.CancelAfterInstallDiverges | app/src/main/java/com/gamecamp/viewmodel/DriverViewModel.kt:340-372 | a cancellation right after a successful install makes InstallFailure the last state written while the store says installed |
| ViewModelLemmas.CancelBeforeInstallKeepsStatus | app/src/main/java/com/gamecamp/viewmodel/DriverViewModel.kt:315-372 | a cancellation on any of the eight lines before the repository call keeps the store and reports the exception as an install failure |
| ViewModelLemmas.PreambleStrikes | app/src/main/java/com/gamecamp/viewmodel/DriverViewModel.kt:315-340 | for any repository answer, a cancellation on one of the eight preamble lines takes the exception path with the store as it was |
| ViewModelLemmas.CancelAfterResetDiverges | app/src/main/java/com/gamecamp/viewmodel/DriverViewModel.kt:407-457 | a cancellation while the reboot is reported makes ResetFailure on the installed side the last state written while the store says uninstalled |
| ViewModelLemmas.CancelAfterLastLineIsHarmless | app/src/main/java/com/gamecamp/viewmodel/DriverViewModel.kt:410-418 | the last line has no `delay` after it, so nothing can cancel there |

## Left out

- `executeDriverInstallation` (app/src/main/java/com/gamecamp/repository/DriverRepository.kt:268-348) is left out. It runs `su`, drains streams on threads and waits with timeouts. It is the `script` oracle, an exit status plus its output lines.
- `rebootDevice` (app/src/main/java/com/gamecamp/data/DriverStatusManager.kt:97-114) is left out, because it spawns processes. It is the `rebootSucceeds` oracle.
- The root check (`hasRootPermission`, RootChecker.kt) is a filesystem and shell probe. It is the `hasRoot` oracle. The view model's own root check and the repository's use the same oracle within one transition.
- Copying the script out of the assets and deleting it afterwards is file I/O, and is left out. One asset set stands for the folder listed by `getDriverFileForKernel` and for `checkDriverExists`, although the latter always lists "drivers/RT-devpro".
- The unused `baseVersion` of the matcher has no effect, so it is left out.
- Reading the kernel version from the system is left out. It is the `osVersion` oracle, and a missing value reads as "未知".
- The `catch` branches of `installDriver` and `resetDriver` (exceptions from I/O and the system) are not modelled, because every oracle here is total. In the model, `resetDriver` therefore never returns its `Error` variant.
- Repository.InstallDriver: the install time is an unbounded integer, where `installDriver` stores a 64-bit `Long` from the system clock.
- `getAvailableDrivers` and `getRecommendedDriverForCurrentDevice` are left out. Nothing on the driver screen's path calls them.
- The repository's pass-through accessors (`getSelectedDriver`, `setSelectedDriver`, `save/loadAssistantSettings`) are left out. They only delegate to the status store, which is modelled.
- Coroutine `delay`s are not timed. They only mark where a cancellation can strike.
- `SimpleDateFormat` timestamps are an opaque clock indexed by log position.
- The simulated runs catch a cancellation as a general `Exception`, and the model keeps that behaviour. Other exceptions inside them are not modelled.
- Cancellation is modelled at every `delay` of the simulated runs, as a parameter of the run. The app never keeps or cancels the `Job`s it launches on `viewModelScope` (app/src/main/java/com/gamecamp/viewmodel/DriverViewModel.kt:112, 157, 256, 285); a `CancellationException` reaches those `catch` blocks only when the view model is cleared, and then no screen observes the state written.
- ViewModel.OnInstallClick, ViewModel.OnConfirmReset, ViewModel.StartInstallWithTerminal and ViewModel.StartResetWithTerminal: each click is composed atomically with the coroutine it launches. The view model does not refuse a second click while a run is in flight, so two runs can interleave their writes to the UI state and the terminal log; the sequential transitions here cannot express that interleaving.
- All Compose screens, dialogs, animations, themes and colours are left out, because they are presentation only.
- `clearError` names `AppConstants.Driver.DEFAULT_DRIVER`, which no file declares. The model uses `DriverConstants.DEFAULT_DRIVER`.
- Several screens use `assistantSettings` and `launchAssistant` on the view model. It does not declare them, so they are not modelled.
