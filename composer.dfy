/**
 * The entry point of the library (ax/AxPermission.kt): the process-wide
 * `AxPermission` object with its callback and screen configuration, and the
 * `AxPermissionComposer` that collects a theme and two permission lists and
 * then either reports success at once or starts the permission screen.
 */
module Composer {
  import opened Wrappers
  import opened Permissions
  import opened Checker
  import opened Builder
  import Android

  datatype PermissionTheme = Day | Night | DayAndNight

  /** `PermissionTheme.Default`. */
  const DefaultTheme: PermissionTheme := DayAndNight

  /**
   * `AxPermissionGlobalConfigurations`. Sizes are kept in dp, as passed to
   * the setters. `AxPermissionGlobalConfigurations` declares no
   * `bottomSheetCornerRadius`, `grantedItemBackgroundColorResId` or
   * `highlightColorResId` field, so the `copy(...)` calls of the three
   * composer setters that write them do not compile as written. The model
   * gives the configuration these three fields, absent until set.
   */
  datatype Configurations = Configurations(
    appNameResId: int,
    cornerRadiusDp: int,
    iconPaddingsDp: int,
    primaryColorResId: ResId,
    textTitleColorResId: ResId,
    textDescriptionColorResId: ResId,
    backgroundColorResId: ResId,
    bottomSheetCornerRadiusDp: Option<int>,
    grantedItemBackgroundColorResId: Option<ResId>,
    highlightColorResId: Option<ResId>)

  /** `AxPermissionGlobalConfigurations.Default`: no app name yet. */
  const DefaultConfigurations: Configurations := Configurations(
    0, 8, 10,
    R("color.ax_permission_primary_color"),
    R("color.ax_permission_text_color_dark"),
    R("color.ax_permission_text_color_light"),
    R("color.ax_permission_background_color"),
    None, None, None)

  /** A registered `AxPermission.Callback`, identified by the caller. */
  datatype Callback = Callback(id: nat)

  const APP_NAME_MISSING: string := "앱 이름이 설정되지 않았습니다. `setAppName()` 메서드를 사용하여 앱 이름을 설정하세요."

  /** What one `checkAndShow` does. */
  datatype ShowOutcome =
    | Rejected(error: KotlinError)
      /** `onRequiredPermissionsAllGranted` called on the callback held at the time, if any. */
    | CalledBack(callback: Option<Callback>)
    | ScreenStarted(theme: PermissionTheme, requiredPermissions: seq<Permission>,
                    optionalPermissions: seq<Permission>, configurations: Configurations)

  /** `requiredPermissions.all { check(activity, it).isGranted }`. */
  predicate AllRequiredGranted(d: Device, requiredPermissions: seq<Permission>) {
    forall i :: 0 <= i < |requiredPermissions| ==> Check(d, requiredPermissions[i]).IsGranted()
  }

  /** The decision `checkAndShow` takes from the global state and the composer's fields. */
  function Decide(d: Device, configurations: Configurations, callback: Option<Callback>, theme: PermissionTheme,
                  requiredPermissions: seq<Permission>, optionalPermissions: seq<Permission>): (r: ShowOutcome)
    ensures r.Rejected? ==> r.error == IllegalState(APP_NAME_MISSING)
    ensures r.CalledBack? ==> r.callback == callback && AllRequiredGranted(d, requiredPermissions)
    ensures r.ScreenStarted? ==>
      r == ScreenStarted(theme, requiredPermissions, optionalPermissions, configurations) &&
      !AllRequiredGranted(d, requiredPermissions)
  {
    if configurations.appNameResId == 0 then Rejected(IllegalState(APP_NAME_MISSING))
    else if AllRequiredGranted(d, requiredPermissions) then CalledBack(callback)
    else ScreenStarted(theme, requiredPermissions, optionalPermissions, configurations)
  }

  /** Without an app name nothing else happens: no check, no callback, no screen. */
  lemma MissingAppNameRejectsFirst(d: Device, c: Configurations, cb: Option<Callback>, t: PermissionTheme,
                                   req: seq<Permission>, opt: seq<Permission>)
    ensures Decide(d, c, cb, t, req, opt).Rejected? <==> c.appNameResId == 0
    ensures c.appNameResId == 0 ==> Decide(d, c, cb, t, req, opt) == Rejected(IllegalState(APP_NAME_MISSING))
  {
  }

  /** With an app name, the callback is reached exactly when every required permission checks granted; an empty list always does. */
  lemma CallbackIffRequiredGranted(d: Device, c: Configurations, cb: Option<Callback>, t: PermissionTheme,
                                   req: seq<Permission>, opt: seq<Permission>)
    requires c.appNameResId != 0
    ensures Decide(d, c, cb, t, req, opt) == CalledBack(cb) <==> forall p :: p in req ==> Check(d, p).IsGranted()
    ensures Decide(d, c, cb, t, [], opt) == CalledBack(cb)
  {
    if forall p :: p in req ==> Check(d, p).IsGranted() {
      assert AllRequiredGranted(d, req);
    }
  }

  /** Otherwise the screen gets the current theme, both lists and configurations unchanged. */
  lemma ScreenCarriesComposerState(d: Device, c: Configurations, cb: Option<Callback>, t: PermissionTheme,
                                   req: seq<Permission>, opt: seq<Permission>)
    requires c.appNameResId != 0 && !AllRequiredGranted(d, req)
    ensures Decide(d, c, cb, t, req, opt) == ScreenStarted(t, req, opt, c)
    ensures exists i :: 0 <= i < |req| && !Check(d, req[i]).IsGranted()
  {
  }

  /**
   * A required write-settings action never checks granted, so with an app
   * name the screen is started even on a device that can write settings.
   */
  lemma RequiredWriteSettingsStartsScreen(d: Device, c: Configurations, cb: Option<Callback>, t: PermissionTheme,
                                          req: seq<Permission>, opt: seq<Permission>, i: nat)
    requires c.appNameResId != 0
    requires i < |req| && req[i].Special? && req[i].action == Android.ACTION_MANAGE_WRITE_SETTINGS
    ensures Decide(d, c, cb, t, req, opt) == ScreenStarted(t, req, opt, c)
  {
    assert !Check(d, req[i]).IsGranted();
  }

  /** The `AxPermission` object: the callback and the configurations shared by every composer. */
  class AxPermissionGlobal {
    var callback: Option<Callback>
    var configurations: Configurations

    constructor()
      ensures callback == None && configurations == DefaultConfigurations
    {
      callback := None;
      configurations := DefaultConfigurations;
    }

    /** `clear()`: forgets the callback and keeps the configurations. */
    method Clear()
      modifies this
      ensures callback == None
      ensures configurations == old(configurations)
    {
      callback := None;
    }
  }

  class AxPermissionComposer {
    const global: AxPermissionGlobal
    var theme: PermissionTheme
    var requiredPermissions: seq<Permission>
    var optionalPermissions: seq<Permission>

    /** `AxPermission.from(activity)`: a fresh composer, which drops any callback left from an earlier request. */
    constructor(global: AxPermissionGlobal)
      modifies global
      ensures this.global == global
      ensures global.callback == None && global.configurations == old(global.configurations)
      ensures theme == DefaultTheme && requiredPermissions == [] && optionalPermissions == []
    {
      this.global := global;
      theme := DefaultTheme;
      requiredPermissions := [];
      optionalPermissions := [];
      new;
      global.callback := None;
    }

    /** `setOnlyDayTheme`, `setOnlyNightTheme`, `setDayNightTheme`: the last call wins. */
    method SetTheme(t: PermissionTheme)
      modifies this
      ensures theme == t
      ensures requiredPermissions == old(requiredPermissions) && optionalPermissions == old(optionalPermissions)
    {
      theme := t;
    }

    method SetOnlyDayTheme()
      modifies this
      ensures theme == Day
      ensures requiredPermissions == old(requiredPermissions) && optionalPermissions == old(optionalPermissions)
    {
      SetTheme(Day);
    }

    method SetOnlyNightTheme()
      modifies this
      ensures theme == Night
      ensures requiredPermissions == old(requiredPermissions) && optionalPermissions == old(optionalPermissions)
    {
      SetTheme(Night);
    }

    method SetDayNightTheme()
      modifies this
      ensures theme == DayAndNight
      ensures requiredPermissions == old(requiredPermissions) && optionalPermissions == old(optionalPermissions)
    {
      SetTheme(DayAndNight);
    }

    method SetAppName(strResId: int)
      modifies global
      ensures global.configurations == old(global.configurations).(appNameResId := strResId)
      ensures global.callback == old(global.callback)
    {
      global.configurations := global.configurations.(appNameResId := strResId);
    }

    method SetIconPaddingsDp(paddings: int)
      modifies global
      ensures global.configurations == old(global.configurations).(iconPaddingsDp := paddings)
      ensures global.callback == old(global.callback)
    {
      global.configurations := global.configurations.(iconPaddingsDp := paddings);
    }

    method SetCornerRadiusDp(cornerRadius: int)
      modifies global
      ensures global.configurations == old(global.configurations).(cornerRadiusDp := cornerRadius)
      ensures global.callback == old(global.callback)
    {
      global.configurations := global.configurations.(cornerRadiusDp := cornerRadius);
    }

    method SetBottomSheetCornerRadiusDp(cornerRadius: int)
      modifies global
      ensures global.configurations == old(global.configurations).(bottomSheetCornerRadiusDp := Some(cornerRadius))
      ensures global.callback == old(global.callback)
    {
      global.configurations := global.configurations.(bottomSheetCornerRadiusDp := Some(cornerRadius));
    }

    method SetPrimaryColor(colorResId: int)
      modifies global
      ensures global.configurations == old(global.configurations).(primaryColorResId := Literal(colorResId))
      ensures global.callback == old(global.callback)
    {
      global.configurations := global.configurations.(primaryColorResId := Literal(colorResId));
    }

    method SetGrantedItemBackgroundColor(colorResId: int)
      modifies global
      ensures global.configurations == old(global.configurations).(grantedItemBackgroundColorResId := Some(Literal(colorResId)))
      ensures global.callback == old(global.callback)
    {
      global.configurations := global.configurations.(grantedItemBackgroundColorResId := Some(Literal(colorResId)));
    }

    method SetHighlightColor(colorResId: int)
      modifies global
      ensures global.configurations == old(global.configurations).(highlightColorResId := Some(Literal(colorResId)))
      ensures global.callback == old(global.callback)
    {
      global.configurations := global.configurations.(highlightColorResId := Some(Literal(colorResId)));
    }

    /**
     * `setRequiredPermissions { ... }`: the block runs on a fresh builder and
     * its list replaces the old one; a block that throws leaves it as it was.
     */
    method SetRequiredPermissions(block: seq<AddCall>) returns (outcome: Outcome)
      modifies this
      ensures BuildAll(block).Success? ==> outcome == Pass && requiredPermissions == BuildAll(block).value
      ensures BuildAll(block).Failure? ==> outcome == Fail(BuildAll(block).error) && requiredPermissions == old(requiredPermissions)
      ensures theme == old(theme) && optionalPermissions == old(optionalPermissions)
    {
      var built := RunBlock(block);
      if built.Failure? {
        return Fail(built.error);
      }
      requiredPermissions := built.value;
      outcome := Pass;
    }

    method SetOptionalPermissions(block: seq<AddCall>) returns (outcome: Outcome)
      modifies this
      ensures BuildAll(block).Success? ==> outcome == Pass && optionalPermissions == BuildAll(block).value
      ensures BuildAll(block).Failure? ==> outcome == Fail(BuildAll(block).error) && optionalPermissions == old(optionalPermissions)
      ensures theme == old(theme) && requiredPermissions == old(requiredPermissions)
    {
      var built := RunBlock(block);
      if built.Failure? {
        return Fail(built.error);
      }
      optionalPermissions := built.value;
      outcome := Pass;
    }

    method SetCallback(callback: Callback)
      modifies global
      ensures global.callback == Some(callback)
      ensures global.configurations == old(global.configurations)
    {
      global.callback := Some(callback);
    }

    /**
     * `checkAndShow()`: the app-name `check` first; then the callback and
     * `clear()` when every required permission is granted; otherwise the
     * screen, with the callback kept for the screen to report to.
     */
    method CheckAndShow(d: Device) returns (outcome: ShowOutcome)
      modifies global
      ensures outcome == Decide(d, old(global.configurations), old(global.callback), theme,
                                requiredPermissions, optionalPermissions)
      ensures global.configurations == old(global.configurations)
      ensures global.callback == (if outcome.CalledBack? then None else old(global.callback))
    {
      if global.configurations.appNameResId == 0 {
        return Rejected(IllegalState(APP_NAME_MISSING));
      }
      var allGranted := AllRequiredGranted(d, requiredPermissions);
      if allGranted {
        outcome := CalledBack(global.callback);
        global.Clear();
        return;
      }
      outcome := ScreenStarted(theme, requiredPermissions, optionalPermissions, global.configurations);
    }
  }
}
