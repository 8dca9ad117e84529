/**
 * Permission state classification (permission/PermissionChecker.kt).
 *
 * Every operating-system query is a field of `Device`: which manifest
 * permissions are granted, for which the system would show a rationale, and
 * the state of each special setting. The rationale history is the tracker
 * of tracker.dfy, which `GetRuntimePermissionState` both reads and writes.
 */
module Checker {
  import opened Android
  import opened Wrappers
  import opened Permissions
  import opened Tracker
  import Builder

  /** `AppOpsManager.MODE_ALLOWED`. */
  const MODE_ALLOWED: int := 0

  /** The answers of the operating system the checker consults. */
  datatype Device = Device(
    packageName: string,
    granted: set<string>,                           // checkSelfPermission(p) == PERMISSION_GRANTED
    showRationale: set<string>,                     // shouldShowRequestPermissionRationale(p)
    canDrawOverlays: bool,                          // Settings.canDrawOverlays
    enabledListenerPackages: set<string>,           // NotificationManagerCompat.getEnabledListenerPackages
    ignoringBatteryOptimizations: bool,             // PowerManager.isIgnoringBatteryOptimizations(packageName)
    enabledAccessibilityServices: Option<string>,   // Settings.Secure ENABLED_ACCESSIBILITY_SERVICES, nullable
    nfcAdapterEnabled: Option<bool>,                // NfcAdapter.getDefaultAdapter(...)?.isEnabled
    usageStatsMode: int,                            // AppOpsManager mode of OPSTR_GET_USAGE_STATS
    canWriteSettings: bool)                         // Settings.System.canWrite

  // ----- results -----

  /** `Result.Special` and `Result.Runtime`, flattened into one type. */
  datatype CheckResult =
    | SpecialGranted | SpecialDenied
    | RuntimeInitial | RuntimeDeniedCanTryOnce | RuntimeDeniedPermanently | RuntimeGranted
  {
    function IsGranted(): (r: bool)
      ensures r ==> !this.SpecialDenied? && !this.RuntimeInitial? && !this.RuntimeDeniedCanTryOnce? && !this.RuntimeDeniedPermanently?
    {
      this == SpecialGranted || this == RuntimeGranted
    }

    function IsDenied(): (r: bool)
      ensures r <==> this.SpecialDenied? || this.RuntimeInitial? || this.RuntimeDeniedCanTryOnce? || this.RuntimeDeniedPermanently?
    {
      !IsGranted()
    }
  }

  datatype RuntimePermissionState = GRANTED | FIRST_TIME | DENIED_CAN_RETRY | DENIED_PERMANENTLY {
    function CanShowSystemDialog(): (r: bool)
      ensures r <==> this != GRANTED && this != DENIED_PERMANENTLY
    {
      this == FIRST_TIME || this == DENIED_CAN_RETRY
    }

    function NeedsSettingsNavigation(): (r: bool)
      ensures r ==> this != GRANTED && !this.CanShowSystemDialog()
    {
      this == DENIED_PERMANENTLY
    }
  }

  lemma StatePredicatesPartition(s: RuntimePermissionState)
    ensures !(s.CanShowSystemDialog() && s.NeedsSettingsNavigation())
    ensures !s.CanShowSystemDialog() && !s.NeedsSettingsNavigation() <==> s == GRANTED
  {
  }

  lemma IsDeniedIsNotGranted(r: CheckResult)
    ensures r.IsDenied() <==> !r.IsGranted()
  {
  }

  // ----- ':'-separated settings strings -----

  /** Kotlin's `split(":")`: the maximal colon-free pieces, empty ones included. */
  function Split(s: string): (parts: seq<string>)
    ensures |parts| >= 1
  {
    if s == [] then [""]
    else
      var rest := Split(s[1..]);
      if s[0] == ':' then [""] + rest else [[s[0]] + rest[0]] + rest[1..]
  }

  /** The inverse of `Split`: the pieces with ':' between them. */
  function Join(parts: seq<string>): string
    requires |parts| >= 1
  {
    if |parts| == 1 then parts[0] else parts[0] + ":" + Join(parts[1..])
  }

  predicate ColonFree(s: string) { forall i :: 0 <= i < |s| ==> s[i] != ':' }

  /** `Split` loses nothing and its pieces hold no separator. */
  lemma {:induction false} SplitJoin(s: string)
    ensures Join(Split(s)) == s
    ensures forall i :: 0 <= i < |Split(s)| ==> ColonFree(Split(s)[i])
  {
    if s != [] {
      SplitJoin(s[1..]);
      var rest := Split(s[1..]);
      if s[0] == ':' {
        assert Split(s) == [""] + rest;
        assert (["" ] + rest)[1..] == rest;
        assert s == "" + ":" + s[1..];
      } else {
        var parts := Split(s);
        assert parts == [[s[0]] + rest[0]] + rest[1..];
        if |rest| == 1 {
          assert s == [s[0]] + rest[0];
        } else {
          assert parts[1..] == rest[1..];
          assert Join(rest) == rest[0] + ":" + Join(rest[1..]);
          assert s == [s[0]] + s[1..];
        }
        forall i | 0 <= i < |parts|
          ensures ColonFree(parts[i])
        {
          if i > 0 { assert parts[i] == rest[i]; }
          else {
            assert ColonFree(rest[0]);
            forall j | 0 <= j < |parts[0]| ensures parts[0][j] != ':' {
              if j > 0 { assert parts[0][j] == rest[0][j - 1]; }
            }
          }
        }
      }
    }
  }

  /** `any { it.startsWith(prefix) }` over a list of strings. */
  function AnyStartsWith(parts: seq<string>, prefix: string): (r: bool)
    ensures r <==> exists i :: 0 <= i < |parts| && StartsWith(parts[i], prefix)
  {
    if parts == [] then false
    else StartsWith(parts[0], prefix) || AnyStartsWith(parts[1..], prefix)
  }

  /**
   * `checkAccessibilityServiceEnabled`: false when the setting is null,
   * otherwise whether some enabled component name starts with the package.
   */
  function AccessibilityServiceEnabled(d: Device): (r: bool)
    ensures d.enabledAccessibilityServices.None? ==> !r
  {
    if d.enabledAccessibilityServices.None? then false
    else AnyStartsWith(Split(d.enabledAccessibilityServices.value), d.packageName)
  }

  /** With the setting present, the check holds iff some ':'-separated component starts with the package name. */
  lemma AccessibilityServiceEnabledIff(d: Device, setting: string)
    requires d.enabledAccessibilityServices == Some(setting)
    ensures AccessibilityServiceEnabled(d) <==>
      exists i :: 0 <= i < |Split(setting)| && StartsWith(Split(setting)[i], d.packageName)
  {
    assert AccessibilityServiceEnabled(d) == AnyStartsWith(Split(setting), d.packageName);
    if AccessibilityServiceEnabled(d) {
      var i :| 0 <= i < |Split(setting)| && StartsWith(Split(setting)[i], d.packageName);
      assert exists j :: 0 <= j < |Split(setting)| && StartsWith(Split(setting)[j], d.packageName);
    }
  }

  function NfcEnabled(d: Device): bool {
    d.nfcAdapterEnabled == Some(true)
  }

  function UsageStatsAllowed(d: Device): bool {
    d.usageStatsMode == MODE_ALLOWED
  }

  // ----- special permissions -----

  /**
   * `checkSpecialPermission` as written: the write-settings branch matches
   * the manifest string `android.permission.WRITE_SETTINGS`, so the settings
   * action `ACTION_MANAGE_WRITE_SETTINGS` falls to `else`.
   */
  function CheckSpecialPermissionAsWritten(d: Device, action: string): (r: CheckResult)
    ensures r == SpecialGranted || r == SpecialDenied
  {
    var isGranted :=
      if action == ACTION_MANAGE_OVERLAY_PERMISSION then d.canDrawOverlays
      else if action == ACTION_NOTIFICATION_LISTENER_SETTINGS then d.packageName in d.enabledListenerPackages
      else if action == ACTION_REQUEST_IGNORE_BATTERY_OPTIMIZATIONS then d.ignoringBatteryOptimizations
      else if action == ACTION_ACCESSIBILITY_SETTINGS then AccessibilityServiceEnabled(d)
      else if action == ACTION_NFC_SETTINGS then NfcEnabled(d)
      else if action == ACTION_USAGE_ACCESS_SETTINGS then UsageStatsAllowed(d)
      else if action == WRITE_SETTINGS then d.canWriteSettings
      else false;
    if isGranted then SpecialGranted else SpecialDenied
  }

  /** The settings actions the checker knows how to query. */
  const CheckedSpecialActions: set<string> := {
    ACTION_MANAGE_OVERLAY_PERMISSION, ACTION_NOTIFICATION_LISTENER_SETTINGS,
    ACTION_REQUEST_IGNORE_BATTERY_OPTIMIZATIONS, ACTION_ACCESSIBILITY_SETTINGS,
    ACTION_NFC_SETTINGS, ACTION_USAGE_ACCESS_SETTINGS, ACTION_MANAGE_WRITE_SETTINGS, WRITE_SETTINGS
  }

  /** The special permission a builder call with the write-settings action produces is always denied. */
  lemma WriteSettingsActionAlwaysDeniedAsWritten(d: Device)
    requires d.canWriteSettings
    ensures Builder.IsSpecialPermission(ACTION_MANAGE_WRITE_SETTINGS)
    ensures !Builder.IsSpecialPermission(WRITE_SETTINGS)
    ensures CheckSpecialPermissionAsWritten(d, ACTION_MANAGE_WRITE_SETTINGS) == SpecialDenied
  {
    Builder.SpecialIffSettingsPrefix(ACTION_MANAGE_WRITE_SETTINGS);
    Builder.ManifestStringsAreRuntime("WRITE_SETTINGS");
  }

  /**
   * `checkSpecialPermission` with the write-settings branch also matching
   * the settings action the builder and the default tables use.
   */
  function CheckSpecialPermission(d: Device, action: string): (r: CheckResult)
    ensures r == SpecialGranted || r == SpecialDenied
    ensures action !in CheckedSpecialActions ==> r == SpecialDenied
    ensures action == ACTION_MANAGE_OVERLAY_PERMISSION ==> (r.IsGranted() <==> d.canDrawOverlays)
    ensures action == ACTION_NOTIFICATION_LISTENER_SETTINGS ==> (r.IsGranted() <==> d.packageName in d.enabledListenerPackages)
    ensures action == ACTION_REQUEST_IGNORE_BATTERY_OPTIMIZATIONS ==> (r.IsGranted() <==> d.ignoringBatteryOptimizations)
    ensures action == ACTION_ACCESSIBILITY_SETTINGS ==> (r.IsGranted() <==> AccessibilityServiceEnabled(d))
    ensures action == ACTION_NFC_SETTINGS ==> (r.IsGranted() <==> d.nfcAdapterEnabled == Some(true))
    ensures action == ACTION_USAGE_ACCESS_SETTINGS ==> (r.IsGranted() <==> d.usageStatsMode == MODE_ALLOWED)
    ensures action == ACTION_MANAGE_WRITE_SETTINGS || action == WRITE_SETTINGS ==> (r.IsGranted() <==> d.canWriteSettings)
  {
    if action == ACTION_MANAGE_WRITE_SETTINGS then
      if d.canWriteSettings then SpecialGranted else SpecialDenied
    else CheckSpecialPermissionAsWritten(d, action)
  }

  /** The correction changes the answer for the write-settings action only. */
  lemma CorrectionOnlyTouchesWriteSettings(d: Device, action: string)
    requires action != ACTION_MANAGE_WRITE_SETTINGS
    ensures CheckSpecialPermission(d, action) == CheckSpecialPermissionAsWritten(d, action)
  {
  }

  // ----- runtime permissions -----

  predicate AllGranted(d: Device, permissions: seq<string>) {
    forall i :: 0 <= i < |permissions| ==> permissions[i] in d.granted
  }

  /** `checkRuntimePermission`: Granted when every permission is granted (vacuously when none), else DeniedCanTryOnce. */
  function CheckRuntimePermission(d: Device, permissions: seq<string>): (r: CheckResult)
    ensures r == RuntimeGranted || r == RuntimeDeniedCanTryOnce
    ensures r == RuntimeGranted <==> AllGranted(d, permissions)
    ensures permissions == [] ==> r == RuntimeGranted
  {
    if permissions == [] then RuntimeGranted
    else if AllGranted(d, permissions) then RuntimeGranted
    else RuntimeDeniedCanTryOnce
  }

  /** `check`: dispatch on the kind of permission, to the special check as written. */
  function Check(d: Device, p: Permission): (r: CheckResult)
    ensures p.Special? ==> r == CheckSpecialPermissionAsWritten(d, p.action)
    ensures p.Special? && p.action == ACTION_MANAGE_WRITE_SETTINGS ==> r == SpecialDenied
    ensures p.IsRuntime() ==> r == CheckRuntimePermission(d, p.ManifestPermissions())
  {
    match p
    case Special(_, action) => CheckSpecialPermissionAsWritten(d, action)
    case RuntimeSingle(_, permission) => CheckRuntimePermission(d, [permission])
    case RuntimeGroup(_, permissions) => CheckRuntimePermission(d, permissions)
  }

  /** `check` as it would be with the corrected special check. */
  function CheckCorrected(d: Device, p: Permission): (r: CheckResult)
    ensures p.Special? ==> r == CheckSpecialPermission(d, p.action)
    ensures p.Special? && p.action == ACTION_MANAGE_WRITE_SETTINGS ==> (r.IsGranted() <==> d.canWriteSettings)
    ensures p.IsRuntime() ==> r == CheckRuntimePermission(d, p.ManifestPermissions())
  {
    match p
    case Special(_, action) => CheckSpecialPermission(d, action)
    case RuntimeSingle(_, permission) => CheckRuntimePermission(d, [permission])
    case RuntimeGroup(_, permissions) => CheckRuntimePermission(d, permissions)
  }

  /** The two `check`s differ exactly on the write-settings action of a device that can write settings. */
  lemma CheckCorrectionOnlyTouchesWriteSettings(d: Device, p: Permission)
    ensures Check(d, p) != CheckCorrected(d, p) <==>
      p.Special? && p.action == ACTION_MANAGE_WRITE_SETTINGS && d.canWriteSettings
  {
    if p.Special? && p.action != ACTION_MANAGE_WRITE_SETTINGS {
      CorrectionOnlyTouchesWriteSettings(d, p.action);
    }
  }

  /** Equal permissions give equal results, whatever their resource ids. */
  lemma CheckRespectsEquals(d: Device, a: Permission, b: Permission)
    requires Equals(a, b)
    ensures Check(d, a) == Check(d, b)
  {
  }

  // ----- detailed state -----

  /**
   * The detailed state of one runtime permission, given the rationale
   * history before the query: granted first, then the rationale flag, then
   * the history.
   */
  function RuntimeStateOf(d: Device, prefs: map<string, bool>, p: string): (s: RuntimePermissionState)
    ensures s == GRANTED <==> p in d.granted
    ensures s == DENIED_CAN_RETRY <==> p !in d.granted && p in d.showRationale
    ensures s == DENIED_PERMANENTLY <==> p !in d.granted && p !in d.showRationale && ShownIn(prefs, p)
    ensures s == FIRST_TIME <==> p !in d.granted && p !in d.showRationale && !ShownIn(prefs, p)
  {
    if p in d.granted then GRANTED
    else if p in d.showRationale then DENIED_CAN_RETRY
    else if ShownIn(prefs, p) then DENIED_PERMANENTLY
    else FIRST_TIME
  }

  /** The history after querying `p`: recorded exactly when the query answered DENIED_CAN_RETRY. */
  function AfterQuery(d: Device, prefs: map<string, bool>, p: string): map<string, bool> {
    if p !in d.granted && p in d.showRationale then prefs[Key(p) := true] else prefs
  }

  /**
   * A permission once seen with a rationale, then denied with no rationale
   * offered any more, is permanently denied: that is what the history is for.
   */
  lemma RationaleThenPermanentlyDenied(before: Device, after: Device, prefs: map<string, bool>, p: string)
    requires p !in before.granted && p in before.showRationale
    requires p !in after.granted && p !in after.showRationale
    ensures RuntimeStateOf(before, prefs, p) == DENIED_CAN_RETRY
    ensures RuntimeStateOf(after, AfterQuery(before, prefs, p), p) == DENIED_PERMANENTLY
  {
    MarkThenShown(prefs, p, p);
  }

  /** Without the history a permission with no rationale offered reads as a first request. */
  lemma NoHistoryIsFirstTime(d: Device, p: string)
    requires p !in d.granted && p !in d.showRationale
    ensures RuntimeStateOf(d, map[], p) == FIRST_TIME
  {
  }

  /** Recording a query never changes the state any permission is classified in. */
  lemma AfterQueryPreservesStates(d: Device, prefs: map<string, bool>, p: string, q: string)
    ensures RuntimeStateOf(d, AfterQuery(d, prefs, p), q) == RuntimeStateOf(d, prefs, q)
  {
    MarkThenShown(prefs, p, q);
  }

  /** `getRuntimePermissionState`, with its write to the history. */
  method GetRuntimePermissionState(d: Device, tracker: PermissionRequestTracker, permission: string)
    returns (state: RuntimePermissionState)
    modifies tracker
    ensures state == RuntimeStateOf(d, old(tracker.prefs), permission)
    ensures tracker.prefs == AfterQuery(d, old(tracker.prefs), permission)
  {
    var isGranted := permission in d.granted;
    if isGranted {
      return GRANTED;
    }
    var showRationale := permission in d.showRationale;
    if showRationale {
      tracker.MarkRationaleShown(permission);
      return DENIED_CAN_RETRY;
    }
    var wasRationaleEverShown := tracker.WasRationaleEverShown(permission);
    state := if wasRationaleEverShown then DENIED_PERMANENTLY else FIRST_TIME;
  }

  /** The priority rule combining per-permission states into a group state. */
  function CombineStates(states: seq<RuntimePermissionState>): (s: RuntimePermissionState)
    ensures states == [] ==> s == GRANTED
    ensures s == GRANTED <==> forall i :: 0 <= i < |states| ==> states[i] == GRANTED
    ensures s == DENIED_PERMANENTLY <==> DENIED_PERMANENTLY in states
    ensures s == DENIED_CAN_RETRY <==> DENIED_PERMANENTLY !in states && DENIED_CAN_RETRY in states
    ensures s == FIRST_TIME <==> !(forall i :: 0 <= i < |states| ==> states[i] == GRANTED) &&
                                 DENIED_PERMANENTLY !in states && DENIED_CAN_RETRY !in states
  {
    if forall i :: 0 <= i < |states| ==> states[i] == GRANTED then GRANTED
    else if DENIED_PERMANENTLY in states then DENIED_PERMANENTLY
    else if DENIED_CAN_RETRY in states then DENIED_CAN_RETRY
    else FIRST_TIME
  }

  /** The per-permission states of a list, all against one history. */
  function StatesOf(d: Device, prefs: map<string, bool>, permissions: seq<string>): (r: seq<RuntimePermissionState>)
    ensures |r| == |permissions|
    ensures forall i :: 0 <= i < |permissions| ==> r[i] == RuntimeStateOf(d, prefs, permissions[i])
  {
    if permissions == [] then []
    else StatesOf(d, prefs, permissions[..|permissions| - 1]) + [RuntimeStateOf(d, prefs, permissions[|permissions| - 1])]
  }

  function GroupStateOf(d: Device, prefs: map<string, bool>, permissions: seq<string>): RuntimePermissionState {
    CombineStates(StatesOf(d, prefs, permissions))
  }

  /** A group is GRANTED exactly when its runtime check is Granted. */
  lemma GroupStateAgreesWithCheck(d: Device, prefs: map<string, bool>, permissions: seq<string>)
    ensures GroupStateOf(d, prefs, permissions) == GRANTED <==> CheckRuntimePermission(d, permissions) == RuntimeGranted
  {
    var states := StatesOf(d, prefs, permissions);
    if GroupStateOf(d, prefs, permissions) == GRANTED {
      forall i | 0 <= i < |permissions| ensures permissions[i] in d.granted {
        assert states[i] == GRANTED;
      }
    }
  }

  /** The history a group query leaves: each member queried in turn. */
  function AfterQueries(d: Device, prefs: map<string, bool>, permissions: seq<string>): map<string, bool>
    decreases |permissions|
  {
    if permissions == [] then prefs
    else AfterQuery(d, AfterQueries(d, prefs, permissions[..|permissions| - 1]), permissions[|permissions| - 1])
  }

  lemma {:induction false} AfterQueriesPreservesStates(d: Device, prefs: map<string, bool>, permissions: seq<string>, q: string)
    ensures RuntimeStateOf(d, AfterQueries(d, prefs, permissions), q) == RuntimeStateOf(d, prefs, q)
    decreases |permissions|
  {
    if permissions != [] {
      var init := permissions[..|permissions| - 1];
      AfterQueriesPreservesStates(d, prefs, init, q);
      AfterQueryPreservesStates(d, AfterQueries(d, prefs, init), permissions[|permissions| - 1], q);
    }
  }

  /**
   * `getGroupRuntimePermissionState`: each member is queried in order (each
   * query may record its rationale), then the states are combined. The
   * recording never changes a later member's state, so the result is the
   * combination of the states against the history before the call.
   */
  method GetGroupRuntimePermissionState(d: Device, tracker: PermissionRequestTracker, permissions: seq<string>)
    returns (state: RuntimePermissionState)
    modifies tracker
    ensures state == GroupStateOf(d, old(tracker.prefs), permissions)
    ensures tracker.prefs == AfterQueries(d, old(tracker.prefs), permissions)
  {
    if |permissions| == 0 {
      return GRANTED;
    }
    var states: seq<RuntimePermissionState> := [];
    var i := 0;
    while i < |permissions|
      invariant 0 <= i <= |permissions|
      invariant tracker.prefs == AfterQueries(d, old(tracker.prefs), permissions[..i])
      invariant states == StatesOf(d, old(tracker.prefs), permissions[..i])
    {
      assert permissions[..i + 1][..i] == permissions[..i];
      AfterQueriesPreservesStates(d, old(tracker.prefs), permissions[..i], permissions[i]);
      var s := GetRuntimePermissionState(d, tracker, permissions[i]);
      states := states + [s];
      i := i + 1;
    }
    assert permissions[..|permissions|] == permissions;
    if forall j :: 0 <= j < |states| ==> states[j] == GRANTED {
      return GRANTED;
    }
    if DENIED_PERMANENTLY in states {
      return DENIED_PERMANENTLY;
    }
    state := if DENIED_CAN_RETRY in states then DENIED_CAN_RETRY else FIRST_TIME;
  }

  /** `getPermissionState` against a history: special permissions are GRANTED or DENIED_CAN_RETRY only. */
  function PermissionStateOf(d: Device, prefs: map<string, bool>, p: Permission): (s: RuntimePermissionState)
    ensures p.Special? ==> (s == GRANTED <==> CheckSpecialPermissionAsWritten(d, p.action).IsGranted())
    ensures p.Special? ==> s == GRANTED || s == DENIED_CAN_RETRY
  {
    match p
    case Special(_, action) => if CheckSpecialPermissionAsWritten(d, action).IsGranted() then GRANTED else DENIED_CAN_RETRY
    case RuntimeSingle(_, permission) => RuntimeStateOf(d, prefs, permission)
    case RuntimeGroup(_, permissions) => GroupStateOf(d, prefs, permissions)
  }

  /** The detailed state is GRANTED exactly when `check` says granted, for every kind of permission. */
  lemma StateAgreesWithCheck(d: Device, prefs: map<string, bool>, p: Permission)
    ensures PermissionStateOf(d, prefs, p) == GRANTED <==> Check(d, p).IsGranted()
  {
    if p.RuntimeGroup? {
      GroupStateAgreesWithCheck(d, prefs, p.permissions);
    } else if p.RuntimeSingle? {
      assert [p.permission][0] == p.permission;
    }
  }

  /** The write-settings action reads denied in both `check` and `getPermissionState`, whatever the device. */
  lemma WriteSettingsActionReadsDenied(d: Device, prefs: map<string, bool>, p: Permission)
    requires p.Special? && p.action == ACTION_MANAGE_WRITE_SETTINGS
    ensures Check(d, p) == SpecialDenied
    ensures PermissionStateOf(d, prefs, p) == DENIED_CAN_RETRY
  {
  }

  method GetPermissionState(d: Device, tracker: PermissionRequestTracker, p: Permission)
    returns (state: RuntimePermissionState)
    modifies tracker
    ensures state == PermissionStateOf(d, old(tracker.prefs), p)
    ensures p.Special? ==> tracker.prefs == old(tracker.prefs)
    ensures p.RuntimeSingle? ==> tracker.prefs == AfterQuery(d, old(tracker.prefs), p.permission)
    ensures p.RuntimeGroup? ==> tracker.prefs == AfterQueries(d, old(tracker.prefs), p.permissions)
  {
    match p
    case Special(_, action) =>
      var result := CheckSpecialPermissionAsWritten(d, action);
      state := if result.IsGranted() then GRANTED else DENIED_CAN_RETRY;
    case RuntimeSingle(_, permission) =>
      state := GetRuntimePermissionState(d, tracker, permission);
    case RuntimeGroup(_, permissions) =>
      state := GetGroupRuntimePermissionState(d, tracker, permissions);
  }
}
