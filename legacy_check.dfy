/**
 * The state refresh of the legacy library (kr/.../util/CheckPermission.kt):
 * each record's `perState` is recomputed from the device. The seven
 * settings screens answer from their own system query; every other string
 * is a runtime permission, which only ever turns on. The answers of the
 * operating system are fields of `LegacyDevice`.
 */
module LegacyCheck {
  import opened Android
  import opened Wrappers
  import opened LegacySettings

  /** `AppOpsManager.MODE_ALLOWED`. */
  const MODE_ALLOWED: int := 0

  /** What the legacy checks ask the operating system. */
  datatype LegacyDevice = LegacyDevice(
    sdk: int,                                   // Build.VERSION.SDK_INT
    packageName: string,                        // context.packageName
    granted: set<string>,                       // ContextCompat.checkSelfPermission(p) == PERMISSION_GRANTED
    canDrawOverlays: bool,                      // Settings.canDrawOverlays
    enabledListenerPackages: set<string>,       // NotificationManagerCompat.getEnabledListenerPackages
    ignoringBatteryOptimizations: bool,         // PowerManager.isIgnoringBatteryOptimizations(packageName)
    hasNfcFeature: bool,                        // PackageManager.hasSystemFeature(FEATURE_NFC)
    nfcAdapterEnabled: Option<bool>,            // NfcAdapter.getDefaultAdapter(context)?.isEnabled
    enabledServicePackages: seq<string>,        // package names of getEnabledAccessibilityServiceList, in order
    wifiEnabled: bool,                          // WifiManager.isWifiEnabled
    usageStatsMode: int)                        // AppOpsManager mode of OPSTR_GET_USAGE_STATS

  /** `isOverlayPermissionGranted`: always granted below API 23. */
  function IsOverlayPermissionGranted(d: LegacyDevice): (r: bool)
    ensures d.sdk < M ==> r
    ensures d.sdk >= M ==> (r <==> d.canDrawOverlays)
  {
    if d.sdk >= M then d.canDrawOverlays else true
  }

  /** `isNotificationListenerSettingsPermissionGranted`. */
  function IsNotificationListenerSettingsPermissionGranted(d: LegacyDevice): (r: bool)
    ensures r <==> d.packageName in d.enabledListenerPackages
  {
    d.packageName in d.enabledListenerPackages
  }

  /** `isIgnoringBatteryOptimizations`. */
  function IsIgnoringBatteryOptimizations(d: LegacyDevice): (r: bool)
    ensures r <==> d.ignoringBatteryOptimizations
  {
    d.ignoringBatteryOptimizations
  }

  /** `isNfcPermissionGranted`: false without the NFC feature or without an adapter. */
  function IsNfcPermissionGranted(d: LegacyDevice): (r: bool)
    ensures r <==> d.hasNfcFeature && d.nfcAdapterEnabled == Some(true)
  {
    if !d.hasNfcFeature then false
    else d.nfcAdapterEnabled.Some? && d.nfcAdapterEnabled.value
  }

  /** What `isAccessibilityServiceEnabled` answers: some enabled service belongs to this package. */
  predicate AccessibilityServiceEnabled(d: LegacyDevice) {
    d.packageName in d.enabledServicePackages
  }

  /** `isAccessibilityServiceEnabled`: the scan of the enabled services, stopping at the first of this package. */
  method IsAccessibilityServiceEnabled(d: LegacyDevice) returns (r: bool)
    ensures r <==> AccessibilityServiceEnabled(d)
  {
    var serviceList := d.enabledServicePackages;
    var i := 0;
    while i < |serviceList|
      invariant 0 <= i <= |serviceList|
      invariant d.packageName !in serviceList[..i]
    {
      if serviceList[i] == d.packageName {
        return true;
      }
      assert serviceList[..i + 1] == serviceList[..i] + [serviceList[i]];
      i := i + 1;
    }
    assert serviceList[..i] == serviceList;
    return false;
  }

  /** `isWifiEnabled`. */
  function IsWifiEnabled(d: LegacyDevice): (r: bool)
    ensures r <==> d.wifiEnabled
  {
    d.wifiEnabled
  }

  /** `isUsageAccessPermissionGranted`: the mode of either API branch is `MODE_ALLOWED`. */
  function IsUsageAccessPermissionGranted(d: LegacyDevice): (r: bool)
    ensures r <==> d.usageStatsMode == MODE_ALLOWED
  {
    d.usageStatsMode == MODE_ALLOWED
  }

  /** The strings with a branch of their own in `checkSelfPermission`. */
  const SettingKeys: set<string> := {
    ACTION_MANAGE_OVERLAY_PERMISSION, ACTION_IGNORE_BATTERY_OPTIMIZATION_SETTINGS, ACTION_NFC_SETTINGS,
    ACTION_NOTIFICATION_LISTENER_SETTINGS, ACTION_ACCESSIBILITY_SETTINGS, CHANGE_WIFI_STATE,
    ACTION_USAGE_ACCESS_SETTINGS}

  /** The answer of a settings branch. */
  function SettingState(d: LegacyDevice, key: string): bool
    requires key in SettingKeys
  {
    if key == ACTION_MANAGE_OVERLAY_PERMISSION then IsOverlayPermissionGranted(d)
    else if key == ACTION_IGNORE_BATTERY_OPTIMIZATION_SETTINGS then IsIgnoringBatteryOptimizations(d)
    else if key == ACTION_NFC_SETTINGS then IsNfcPermissionGranted(d)
    else if key == ACTION_NOTIFICATION_LISTENER_SETTINGS then IsNotificationListenerSettingsPermissionGranted(d)
    else if key == ACTION_ACCESSIBILITY_SETTINGS then AccessibilityServiceEnabled(d)
    else if key == CHANGE_WIFI_STATE then IsWifiEnabled(d)
    else IsUsageAccessPermissionGranted(d)
  }

  /**
   * One record after the refresh: only `perState` changes. A settings record
   * takes the system's answer, which may turn it off; a runtime record turns
   * on when the permission is granted and otherwise keeps its state.
   */
  function Refreshed(d: LegacyDevice, m: AxPermissionModel): (r: AxPermissionModel)
    ensures r == m.(perState := r.perState)
    ensures m.permission in SettingKeys ==> r.perState == SettingState(d, m.permission)
    ensures m.permission !in SettingKeys ==> (r.perState <==> m.perState || m.permission in d.granted)
  {
    if m.permission in SettingKeys then m.(perState := SettingState(d, m.permission))
    else if m.permission in d.granted then m.(perState := true)
    else m
  }

  /** The whole list refreshed, record by record. */
  function RefreshAll(d: LegacyDevice, list: seq<AxPermissionModel>): (r: seq<AxPermissionModel>)
    ensures |r| == |list|
  {
    seq(|list|, i requires 0 <= i < |list| => Refreshed(d, list[i]))
  }

  /**
   * `checkSelfPermission(context, currentPerList)`: a null list is left
   * alone; otherwise every record is refreshed in place, in order.
   */
  method CheckSelfPermission(d: LegacyDevice, currentPerList: Option<seq<AxPermissionModel>>)
    returns (r: Option<seq<AxPermissionModel>>)
    ensures currentPerList.None? ==> r.None?
    ensures currentPerList.Some? ==> r == Some(RefreshAll(d, currentPerList.value))
  {
    if currentPerList.None? {
      return None;
    }
    var list := currentPerList.value;
    var i := 0;
    while i < |list|
      invariant 0 <= i <= |list| && |list| == |currentPerList.value|
      invariant forall j :: 0 <= j < i ==> list[j] == Refreshed(d, currentPerList.value[j])
      invariant forall j :: i <= j < |list| ==> list[j] == currentPerList.value[j]
    {
      var it := list[i];
      if it.permission == ACTION_MANAGE_OVERLAY_PERMISSION {
        it := it.(perState := IsOverlayPermissionGranted(d));
      } else if it.permission == ACTION_IGNORE_BATTERY_OPTIMIZATION_SETTINGS {
        it := it.(perState := IsIgnoringBatteryOptimizations(d));
      } else if it.permission == ACTION_NFC_SETTINGS {
        it := it.(perState := IsNfcPermissionGranted(d));
      } else if it.permission == ACTION_NOTIFICATION_LISTENER_SETTINGS {
        it := it.(perState := IsNotificationListenerSettingsPermissionGranted(d));
      } else if it.permission == ACTION_ACCESSIBILITY_SETTINGS {
        var enabled := IsAccessibilityServiceEnabled(d);
        it := it.(perState := enabled);
      } else if it.permission == CHANGE_WIFI_STATE {
        it := it.(perState := IsWifiEnabled(d));
      } else if it.permission == ACTION_USAGE_ACCESS_SETTINGS {
        it := it.(perState := IsUsageAccessPermissionGranted(d));
      } else if it.permission in d.granted {
        it := it.(perState := true);
      }
      assert it == Refreshed(d, list[i]);
      list := list[i := it];
      i := i + 1;
    }
    assert list == RefreshAll(d, currentPerList.value);
    r := Some(list);
  }

  /** The refresh keeps the list's length, order and every field but the state. */
  lemma RefreshKeepsRecords(d: LegacyDevice, list: seq<AxPermissionModel>)
    ensures |RefreshAll(d, list)| == |list|
    ensures forall i :: 0 <= i < |list| ==> RefreshAll(d, list)[i] == list[i].(perState := RefreshAll(d, list)[i].perState)
  {
  }

  /** A second refresh against the same device changes nothing. */
  lemma RefreshIsIdempotent(d: LegacyDevice, list: seq<AxPermissionModel>)
    ensures RefreshAll(d, RefreshAll(d, list)) == RefreshAll(d, list)
  {
  }

  /** A runtime record never turns off: a revoked runtime permission still shows granted. */
  lemma RuntimeStateOnlyTurnsOn(d: LegacyDevice, m: AxPermissionModel)
    requires m.permission !in SettingKeys
    ensures m.perState ==> Refreshed(d, m).perState
    ensures m.permission !in d.granted ==> Refreshed(d, m).perState == m.perState
  {
  }

  /** A settings record follows the system both ways: switched off in the settings, it turns off. */
  lemma SettingStateFollowsDevice(d: LegacyDevice, m: AxPermissionModel)
    requires m.permission == ACTION_MANAGE_OVERLAY_PERMISSION && m.perState && d.sdk >= M && !d.canDrawOverlays
    ensures !Refreshed(d, m).perState
  {
  }

  /** On a device without NFC the NFC record is off whatever the adapter says. */
  lemma NfcNeedsFeature(d: LegacyDevice, m: AxPermissionModel)
    requires m.permission == ACTION_NFC_SETTINGS && !d.hasNfcFeature
    ensures !Refreshed(d, m).perState
  {
  }
}
