/**
 * The driver screen's state: eight variants, each carrying the driver it is
 * about and an `isDriverInstalled` flag with a per-variant default.
 */
module UiState {
  import opened Wrappers

  /** The default driver of `Initial` and `ResetSuccess`; note it is not one of the catalogue's drivers. */
  const UI_DEFAULT_DRIVER: string := "RTPRO驱动"

  datatype DriverUiState =
    | Initial(isDriverInstalled: bool := false, selectedDriver: string := UI_DEFAULT_DRIVER)
    | Installing(selectedDriver: string, isDriverInstalled: bool := false)
    | InstallSuccess(installedDriver: string, isDriverInstalled: bool := true)
    | InstallFailure(errorMessage: string, selectedDriver: string, isDriverInstalled: bool := false)
    | Resetting(installedDriver: string, isDriverInstalled: bool := true)
    | ResetSuccess(selectedDriver: string := UI_DEFAULT_DRIVER, isDriverInstalled: bool := false)
    | ResetFailure(errorMessage: string, installedDriver: string, isDriverInstalled: bool := true)
    | ShowConfirmDialog(installedDriver: string, isDriverInstalled: bool := true)

  /** The extension property `isLoading`: a spinner never shows with an error. */
  predicate IsLoading(s: DriverUiState)
    ensures IsLoading(s) ==> ErrorMessage(s).None?
  {
    s.Installing? || s.Resetting?
  }

  /** The extension property `isDriverInstalled`: every variant reports its own flag. */
  predicate IsDriverInstalled(s: DriverUiState)
  {
    match s
    case Initial(installed, _) => installed
    case Installing(_, installed) => installed
    case InstallSuccess(_, installed) => installed
    case InstallFailure(_, _, installed) => installed
    case Resetting(_, installed) => installed
    case ResetSuccess(_, installed) => installed
    case ResetFailure(_, _, installed) => installed
    case ShowConfirmDialog(_, installed) => installed
  }

  /** The extension property `selectedDriver`: the installed driver on the installed side, the selected one otherwise. */
  function SelectedDriver(s: DriverUiState): (r: string)
    ensures InstalledSide(s) ==> r == s.installedDriver
    ensures !InstalledSide(s) ==> r == s.selectedDriver
  {
    match s
    case Initial(_, d) => d
    case Installing(d, _) => d
    case InstallSuccess(d, _) => d
    case InstallFailure(_, d, _) => d
    case Resetting(d, _) => d
    case ResetSuccess(d, _) => d
    case ResetFailure(_, d, _) => d
    case ShowConfirmDialog(d, _) => d
  }

  /** The extension property `showConfirmDialog`: the dialog is asked on the installed side, with no spinner and no error. */
  predicate ShowsConfirmDialog(s: DriverUiState)
    ensures ShowsConfirmDialog(s) ==> InstalledSide(s) && !IsLoading(s) && ErrorMessage(s).None?
  {
    s.ShowConfirmDialog?
  }

  /** The extension property `errorMessage`: present exactly on the two failure variants. */
  function ErrorMessage(s: DriverUiState): (r: Option<string>)
    ensures r.Some? <==> s.InstallFailure? || s.ResetFailure?
  {
    match s
    case InstallFailure(m, _, _) => Some(m)
    case ResetFailure(m, _, _) => Some(m)
    case _ => None
  }

  /** The variants that sit on the "driver installed" side of the screen. */
  predicate InstalledSide(s: DriverUiState)
  {
    s.InstallSuccess? || s.Resetting? || s.ResetFailure? || s.ShowConfirmDialog?
  }

  /** Every variant carries the `isDriverInstalled` value its constructor defaults to. */
  predicate DefaultFlags(s: DriverUiState)
  {
    s.isDriverInstalled == InstalledSide(s)
  }

  /** With every flag left at its default, `isDriverInstalled` holds on the installed side only. */
  lemma InstalledFlagFollowsSide(d: string, m: string)
    ensures IsDriverInstalled(InstallSuccess(d)) && IsDriverInstalled(Resetting(d))
    ensures IsDriverInstalled(ShowConfirmDialog(d)) && IsDriverInstalled(ResetFailure(m, d))
    ensures !IsDriverInstalled(Initial()) && !IsDriverInstalled(Installing(d))
    ensures !IsDriverInstalled(InstallFailure(m, d)) && !IsDriverInstalled(ResetSuccess())
  {
  }

  /** The constructors' defaults give default flags, and the screen's own default driver. */
  lemma ConstructorDefaults(d: string, m: string)
    ensures DefaultFlags(Initial()) && DefaultFlags(Installing(d)) && DefaultFlags(InstallSuccess(d))
    ensures DefaultFlags(InstallFailure(m, d)) && DefaultFlags(Resetting(d)) && DefaultFlags(ResetSuccess())
    ensures DefaultFlags(ResetFailure(m, d)) && DefaultFlags(ShowConfirmDialog(d))
    ensures SelectedDriver(Initial()) == UI_DEFAULT_DRIVER == SelectedDriver(ResetSuccess())
  {
  }
}
