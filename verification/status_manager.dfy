/**
 * The persisted driver status: a key-value preference file with typed
 * getters that fall back to a default when the key is absent.
 */
module StatusManager {
  import opened DriverConstants
  import opened Assistant

  datatype PrefKey =
    | DriverInstalled
    | SelectedDriver
    | InstallTime
    | AntiScreenRecording
    | NoBackgroundMode
    | SingleTransparentMode

  datatype PrefValue = BoolValue(b: bool) | StringValue(s: string) | LongValue(n: int)

  /** The type each key is written with. */
  predicate HasKeyType(k: PrefKey, v: PrefValue)
  {
    match k
    case SelectedDriver => v.StringValue?
    case InstallTime => v.LongValue?
    case _ => v.BoolValue?
  }

  predicate WellTyped(m: map<PrefKey, PrefValue>)
  {
    forall k :: k in m ==> HasKeyType(k, m[k])
  }

  /**
   * The preference file. Only the status manager writes it, always with the
   * key's own type, so a typed read never meets a value of another type.
   */
  type Prefs = m: map<PrefKey, PrefValue> | WellTyped(m) witness map[]

  function GetBoolean(p: Prefs, k: PrefKey, default: bool): bool
    requires k != SelectedDriver && k != InstallTime
  {
    if k in p then p[k].b else default
  }

  /** `isDriverInstalled`: the stored flag, `false` when none was written. */
  function IsDriverInstalled(p: Prefs): (r: bool)
    ensures DriverInstalled !in p ==> !r
    ensures DriverInstalled in p ==> r == p[DriverInstalled].b
  {
    GetBoolean(p, DriverInstalled, false)
  }

  /** `getSelectedDriver`: the stored name, the catalogue default when none was written. */
  function GetSelectedDriver(p: Prefs): (r: string)
    ensures SelectedDriver !in p ==> r == DEFAULT_DRIVER
    ensures SelectedDriver in p ==> r == p[SelectedDriver].s
  {
    if SelectedDriver in p then p[SelectedDriver].s else DEFAULT_DRIVER
  }

  /** `getInstallTime`: the stored stamp, 0 when none was written. */
  function GetInstallTime(p: Prefs): (r: int)
    ensures InstallTime !in p ==> r == 0
    ensures InstallTime in p ==> r == p[InstallTime].n
  {
    if InstallTime in p then p[InstallTime].n else 0
  }

  /** `loadAssistantSettings`: each flag reads its own key, `false` when none was written. */
  function LoadAssistantSettings(p: Prefs): (r: AssistantSettings)
    ensures r.antiScreenRecording == (AntiScreenRecording in p && p[AntiScreenRecording].b)
    ensures r.noBackgroundMode == (NoBackgroundMode in p && p[NoBackgroundMode].b)
    ensures r.singleTransparentMode == (SingleTransparentMode in p && p[SingleTransparentMode].b)
  {
    AssistantSettings(
      antiScreenRecording := GetBoolean(p, AntiScreenRecording, false),
      noBackgroundMode := GetBoolean(p, NoBackgroundMode, false),
      singleTransparentMode := GetBoolean(p, SingleTransparentMode, false))
  }

  /** Everything the getters can observe of a preference file. */
  datatype StatusView = StatusView(installed: bool, selected: string, installTime: int, settings: AssistantSettings)

  function View(p: Prefs): StatusView
  {
    StatusView(IsDriverInstalled(p), GetSelectedDriver(p), GetInstallTime(p), LoadAssistantSettings(p))
  }

  /** What an empty preference file reads as. */
  const DefaultView: StatusView := StatusView(false, DEFAULT_DRIVER, 0, AssistantSettings())

  /** `true` also stamps the install time with `now`; `false` leaves the stamp alone. */
  function SetDriverInstalled(p: Prefs, installed: bool, now: int): (p': Prefs)
    ensures installed ==> View(p') == View(p).(installed := true, installTime := now)
    ensures !installed ==> View(p') == View(p).(installed := false)
    ensures p'.Keys == p.Keys + {DriverInstalled} + (if installed then {InstallTime} else {})
  {
    var p1 := p[DriverInstalled := BoolValue(installed)];
    if installed then p1[InstallTime := LongValue(now)] else p1
  }

  function SetSelectedDriver(p: Prefs, driverName: string): (p': Prefs)
    ensures View(p') == View(p).(selected := driverName)
    ensures p'.Keys == p.Keys + {SelectedDriver}
  {
    p[SelectedDriver := StringValue(driverName)]
  }

  function SaveAssistantSettings(p: Prefs, settings: AssistantSettings): (p': Prefs)
    ensures View(p') == View(p).(settings := settings)
    ensures p'.Keys == p.Keys + {AntiScreenRecording, NoBackgroundMode, SingleTransparentMode}
  {
    p[AntiScreenRecording := BoolValue(settings.antiScreenRecording)]
     [NoBackgroundMode := BoolValue(settings.noBackgroundMode)]
     [SingleTransparentMode := BoolValue(settings.singleTransparentMode)]
  }

  /**
   * `edit().clear().putBoolean(..).putString(..).apply()`: an editor applies
   * `clear()` before its puts, so only the two written keys survive.
   */
  function ResetDriverStatus(p: Prefs): (p': Prefs)
    ensures p'.Keys == {DriverInstalled, SelectedDriver}
    ensures View(p') == DefaultView
  {
    map[DriverInstalled := BoolValue(false), SelectedDriver := StringValue(DEFAULT_DRIVER)]
  }

  /** Every getter returns its default on an empty file. */
  lemma EmptyStoreReadsDefaults()
    ensures View(map[]) == DefaultView
    ensures !IsDriverInstalled(map[]) && GetSelectedDriver(map[]) == DEFAULT_DRIVER
    ensures GetInstallTime(map[]) == 0 && LoadAssistantSettings(map[]) == AssistantSettings(false, false, false)
  {
  }

  lemma SelectedDriverRoundTrip(p: Prefs, driverName: string)
    ensures GetSelectedDriver(SetSelectedDriver(p, driverName)) == driverName
  {
  }

  /** Settings round-trip, and saving them leaves the driver keys alone. */
  lemma AssistantSettingsRoundTrip(p: Prefs, settings: AssistantSettings)
    ensures LoadAssistantSettings(SaveAssistantSettings(p, settings)) == settings
    ensures var p' := SaveAssistantSettings(p, settings);
      IsDriverInstalled(p') == IsDriverInstalled(p)
      && GetSelectedDriver(p') == GetSelectedDriver(p)
      && GetInstallTime(p') == GetInstallTime(p)
  {
  }

  /** A reset store reads exactly like a fresh one, and resetting again changes nothing. */
  lemma ResetIsIdempotent(p: Prefs)
    ensures ResetDriverStatus(ResetDriverStatus(p)) == ResetDriverStatus(p)
    ensures View(ResetDriverStatus(p)) == View(map[])
  {
  }
}
