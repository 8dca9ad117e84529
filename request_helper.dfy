/**
 * Opening the settings screen of a special permission
 * (permission/PermissionRequestHelper.kt): which actions need the app's
 * package URI, the one retry with the URI toggled when no activity handles
 * the intent, and the animation rule. Whether a launch finds an activity
 * is an oracle of the caller.
 */
module RequestHelper {
  import opened Android
  import opened Wrappers
  import opened Permissions

  /** The parts of an `Intent` the helper sets: its action and its data URI. */
  datatype Intent = Intent(action: string, data: Option<string>)

  /** `"package:${packageName}".toUri()`. */
  function PackageUri(packageName: string): string {
    "package:" + packageName
  }

  /** `needsPackageUri`. */
  function NeedsPackageUri(settingsAction: string): (r: bool)
    ensures r ==> settingsAction != ACTION_NOTIFICATION_LISTENER_SETTINGS && settingsAction != ACTION_ACCESSIBILITY_SETTINGS
    ensures settingsAction == ACTION_MANAGE_OVERLAY_PERMISSION ==> r
    ensures settingsAction == ACTION_REQUEST_IGNORE_BATTERY_OPTIMIZATIONS ==> r
  {
    settingsAction == ACTION_MANAGE_OVERLAY_PERMISSION || settingsAction == ACTION_REQUEST_IGNORE_BATTERY_OPTIMIZATIONS
  }

  lemma OnlyTwoActionsNeedPackageUri(settingsAction: string)
    ensures NeedsPackageUri(settingsAction) <==> settingsAction in {ACTION_MANAGE_OVERLAY_PERMISSION, ACTION_REQUEST_IGNORE_BATTERY_OPTIMIZATIONS}
    ensures !NeedsPackageUri(ACTION_NOTIFICATION_LISTENER_SETTINGS)
  {
  }

  /** `needsActivityAnimation` at SDK level `sdk`. */
  function NeedsActivityAnimation(sdk: int, settingsAction: string): (r: bool)
    ensures r ==> sdk <= UPSIDE_DOWN_CAKE && settingsAction != ACTION_REQUEST_IGNORE_BATTERY_OPTIMIZATIONS
    ensures sdk <= UPSIDE_DOWN_CAKE && settingsAction != ACTION_REQUEST_IGNORE_BATTERY_OPTIMIZATIONS ==> r
  {
    if sdk > UPSIDE_DOWN_CAKE then false
    else settingsAction != ACTION_REQUEST_IGNORE_BATTERY_OPTIMIZATIONS
  }

  /** Above API 34 no action animates; at or below it only the battery-optimisation request does not. */
  lemma AnimationRule(sdk: int, settingsAction: string)
    ensures sdk > UPSIDE_DOWN_CAKE ==> !NeedsActivityAnimation(sdk, settingsAction)
    ensures sdk <= UPSIDE_DOWN_CAKE ==> (NeedsActivityAnimation(sdk, settingsAction) <==> settingsAction != ACTION_REQUEST_IGNORE_BATTERY_OPTIMIZATIONS)
    ensures NeedsActivityAnimation(sdk, ACTION_MANAGE_OVERLAY_PERMISSION) <==> sdk <= UPSIDE_DOWN_CAKE
  {
  }

  /** The intent built first: the action, with the package URI exactly when the action needs one. */
  function FirstIntent(settingsAction: string, packageName: string): (i: Intent)
    ensures i.action == settingsAction
    ensures i.data.Some? <==> NeedsPackageUri(settingsAction)
    ensures i.data.Some? ==> i.data.value == PackageUri(packageName)
  {
    Intent(settingsAction, if NeedsPackageUri(settingsAction) then Some(PackageUri(packageName)) else None)
  }

  /** The retry's intent: no URI becomes the package URI, a URI becomes none. */
  function Toggled(i: Intent, packageName: string): (t: Intent)
    ensures t.action == i.action
    ensures i.data.None? <==> t.data == Some(PackageUri(packageName))
    ensures i.data.Some? <==> t.data.None?
  {
    if i.data.None? then i.(data := Some(PackageUri(packageName))) else i.(data := None)
  }

  /**
   * `requestSpecialPermission`: the intents launched, in order. `launches`
   * says whether a launch finds an activity; the second failure is logged
   * and swallowed, so the call never fails.
   */
  method RequestSpecialPermission(packageName: string, permission: Permission, launches: Intent -> bool)
    returns (attempts: seq<Intent>)
    requires permission.Special?
    ensures 1 <= |attempts| <= 2
    ensures attempts[0] == FirstIntent(permission.action, packageName)
    ensures |attempts| == 2 <==> !launches(attempts[0])
    ensures |attempts| == 2 ==> attempts[1] == Toggled(attempts[0], packageName)
  {
    var settingsAction := permission.action;
    var intent := Intent(settingsAction, None);
    if NeedsPackageUri(settingsAction) {
      intent := intent.(data := Some(PackageUri(packageName)));
    }
    attempts := [intent];
    if !launches(intent) {
      if intent.data.None? {
        intent := intent.(data := Some(PackageUri(packageName)));
      } else {
        intent := intent.(data := None);
      }
      attempts := attempts + [intent];
    }
  }

  /** The retry never repeats the first intent, and both attempts name the same action. */
  lemma RetryDiffersFromFirst(settingsAction: string, packageName: string)
    ensures Toggled(FirstIntent(settingsAction, packageName), packageName) != FirstIntent(settingsAction, packageName)
    ensures Toggled(FirstIntent(settingsAction, packageName), packageName).action == settingsAction
  {
  }

  const LEGACY_UNSUPPORTED: string := "Legacy Permission.Special is no longer supported. Use Permission2.Special."

  /** `requestSpecialPermissionLegacy`: always throws. */
  method RequestSpecialPermissionLegacy(packageName: string, permission: Permission) returns (outcome: Outcome)
    requires permission.Special?
    ensures outcome == Fail(UnsupportedOperation(LEGACY_UNSUPPORTED))
  {
    outcome := Fail(UnsupportedOperation(LEGACY_UNSUPPORTED));
  }
}
