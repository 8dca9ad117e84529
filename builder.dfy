/**
 * The permission DSL builder (permission/PermissionBuilder.kt): `add` turns
 * a call with one or more permission strings into one `Permission`, using
 * the supplied resource ids or the defaults, and appends it; `build` takes a
 * copy of the list.
 */
module Builder {
  import opened Android
  import opened Wrappers
  import opened Permissions
  import opened DefaultResources

  /** The settings actions the builder recognises as special even without the prefix. */
  const KnownSpecialPermissions: set<string> := {
    ACTION_MANAGE_OVERLAY_PERMISSION,
    ACTION_NOTIFICATION_LISTENER_SETTINGS,
    ACTION_REQUEST_IGNORE_BATTERY_OPTIMIZATIONS
  }

  /** `isSpecialPermission`: a known action, or any string under the settings prefix. */
  function IsSpecialPermission(permission: string): (r: bool)
    ensures StartsWith(permission, SETTINGS_PREFIX) ==> r
    ensures !StartsWith(permission, SETTINGS_PREFIX) ==> (r <==> permission in KnownSpecialPermissions)
  {
    permission in KnownSpecialPermissions || StartsWith(permission, SETTINGS_PREFIX)
  }

  /** Every known special action carries the settings prefix, so the prefix test alone decides. */
  lemma SpecialIffSettingsPrefix(permission: string)
    ensures IsSpecialPermission(permission) <==> StartsWith(permission, SETTINGS_PREFIX)
  {
    assert StartsWith(ACTION_MANAGE_OVERLAY_PERMISSION, SETTINGS_PREFIX);
    assert StartsWith(ACTION_NOTIFICATION_LISTENER_SETTINGS, SETTINGS_PREFIX);
    assert StartsWith(ACTION_REQUEST_IGNORE_BATTERY_OPTIMIZATIONS, SETTINGS_PREFIX);
  }

  /** Manifest permission strings are never classified special. */
  lemma ManifestStringsAreRuntime(name: string)
    ensures !IsSpecialPermission("android.permission." + name)
  {
    var s := "android.permission." + name;
    SpecialIffSettingsPrefix(s);
    assert s[8] == 'p' && SETTINGS_PREFIX[8] == 's';
  }

  /** The message of the `require` that rejects a special call with several strings. */
  function SpecialArityMessage(first: string): string {
    "특별 권한은 한 번에 하나만 추가할 수 있습니다: " + first
  }

  /** A call that `add` accepts and turns into a permission. */
  predicate Accepts(permissions: seq<string>) {
    |permissions| > 0 && (IsSpecialPermission(permissions[0]) ==> |permissions| == 1)
  }

  /** The defaults the call falls back to, `Unknown` when the tables have none. */
  function DefaultsFor(permissions: seq<string>): ResourceIds
    requires |permissions| > 0
  {
    if IsSpecialPermission(permissions[0]) then GetForSpecial(permissions[0]).GetOr(Unknown)
    else if |permissions| == 1 then GetForRuntime(permissions[0]).GetOr(Unknown)
    else GetForRuntimeGroup(permissions).GetOr(Unknown)
  }

  /** The permission an accepted `add` appends. */
  function NewPermission(permissions: seq<string>, icon: Option<ResId>, title: Option<ResId>, description: Option<ResId>): (p: Permission)
    requires Accepts(permissions)
    ensures p.Special? <==> IsSpecialPermission(permissions[0])
    ensures p.Special? ==> p.action == permissions[0]
    ensures p.RuntimeSingle? <==> !IsSpecialPermission(permissions[0]) && |permissions| == 1
    ensures p.IsRuntime() ==> p.ManifestPermissions() == permissions
    ensures p.res.iconResId == icon.GetOr(DefaultsFor(permissions).iconResId)
    ensures p.res.titleResId == title.GetOr(DefaultsFor(permissions).titleResId)
    ensures p.res.descriptionResId == description.GetOr(DefaultsFor(permissions).descriptionResId)
  {
    var defaults := DefaultsFor(permissions);
    var res := ResourceIds(icon.GetOr(defaults.iconResId), title.GetOr(defaults.titleResId),
                           description.GetOr(defaults.descriptionResId));
    if IsSpecialPermission(permissions[0]) then Special(res, permissions[0])
    else if |permissions| == 1 then RuntimeSingle(res, permissions[0])
    else RuntimeGroup(res, permissions)
  }

  /** A runtime call with no ids and no table entry gets exactly the `Unknown` resources. */
  lemma UnknownRuntimeGetsUnknownResources(permission: string)
    requires !IsSpecialPermission(permission) && permission !in RuntimeResources
    ensures NewPermission([permission], None, None, None).res == Unknown
  {
  }

  /** A known runtime string with no ids gets its table entry; the partner of `UnknownRuntimeGetsUnknownResources`. */
  lemma KnownRuntimeGetsTableDefaults(permission: string)
    requires !IsSpecialPermission(permission) && permission in RuntimeResources
    ensures NewPermission([permission], None, None, None) == RuntimeSingle(RuntimeResources[permission], permission)
  {
  }

  /** CAMERA is such a string. */
  lemma CameraGetsTableDefaults()
    ensures NewPermission([CAMERA], None, None, None)
         == RuntimeSingle(RuntimeResources[CAMERA], CAMERA)
  {
    ManifestStringsAreRuntime("CAMERA");
    KnownRuntimeGetsTableDefaults(CAMERA);
  }

  class PermissionBuilder {
    var permissionList: seq<Permission>

    constructor()
      ensures permissionList == []
    {
      permissionList := [];
    }

    /**
     * `add(vararg permissions, iconResId, titleResId, descriptionResId)`.
     * An empty call is ignored; a special call with several strings throws
     * before anything is appended; otherwise exactly one permission is
     * appended at the end.
     */
    method Add(permissions: seq<string>, icon: Option<ResId>, title: Option<ResId>, description: Option<ResId>)
      returns (outcome: Outcome)
      modifies this
      ensures |permissions| == 0 ==> outcome == Pass && permissionList == old(permissionList)
      ensures |permissions| > 0 && !Accepts(permissions) ==>
        outcome == Fail(IllegalArgument(SpecialArityMessage(permissions[0]))) && permissionList == old(permissionList)
      ensures Accepts(permissions) ==>
        outcome == Pass && permissionList == old(permissionList) + [NewPermission(permissions, icon, title, description)]
    {
      if |permissions| == 0 {
        return Pass;
      }
      var isSpecial := IsSpecialPermission(permissions[0]);
      if isSpecial && |permissions| != 1 {
        return Fail(IllegalArgument(SpecialArityMessage(permissions[0])));
      }
      permissionList := permissionList + [NewPermission(permissions, icon, title, description)];
      outcome := Pass;
    }

    /** `build()`: a copy of the list; being a value, later `add` calls cannot change it. */
    method Build() returns (r: seq<Permission>)
      ensures r == permissionList
    {
      r := permissionList;
    }
  }

  /** One `add(...)` call of the DSL block. */
  datatype AddCall = AddCall(permissions: seq<string>, icon: Option<ResId>, title: Option<ResId>, description: Option<ResId>)

  /**
   * The list a DSL block builds from scratch: the calls applied in order,
   * stopping at the first one that throws.
   */
  function BuildAll(calls: seq<AddCall>): (r: Result<seq<Permission>>)
    ensures r.Success? ==> |r.value| <= |calls|
    ensures r.Success? <==> forall i :: 0 <= i < |calls| ==> |calls[i].permissions| == 0 || Accepts(calls[i].permissions)
  {
    if calls == [] then Success([])
    else
      var prefix :- BuildAll(calls[..|calls| - 1]);
      var c := calls[|calls| - 1];
      if |c.permissions| == 0 then Success(prefix)
      else if !Accepts(c.permissions) then Failure(IllegalArgument(SpecialArityMessage(c.permissions[0])))
      else Success(prefix + [NewPermission(c.permissions, c.icon, c.title, c.description)])
  }

  /** Runs a DSL block on a fresh builder and builds the list (the `PermissionBuilder().apply(block).build()` idiom). */
  method RunBlock(calls: seq<AddCall>) returns (r: Result<seq<Permission>>)
    ensures r == BuildAll(calls)
  {
    var b := new PermissionBuilder();
    var i := 0;
    while i < |calls|
      invariant 0 <= i <= |calls|
      invariant BuildAll(calls[..i]) == Success(b.permissionList)
    {
      var c := calls[i];
      assert calls[..i + 1][..i] == calls[..i];
      var outcome := b.Add(c.permissions, c.icon, c.title, c.description);
      if outcome.Fail? {
        assert BuildAll(calls[..i + 1]).Failure?;
        BuildAllStopsAtFailure(calls, i + 1);
        assert calls[..|calls|] == calls;
        return Failure(outcome.error);
      }
      i := i + 1;
    }
    assert calls[..|calls|] == calls;
    var built := b.Build();
    r := Success(built);
  }

  /** Once a prefix of the block throws, so does the whole block, with the same error. */
  lemma {:induction false} BuildAllStopsAtFailure(calls: seq<AddCall>, k: nat)
    requires k <= |calls|
    requires BuildAll(calls[..k]).Failure?
    ensures BuildAll(calls) == BuildAll(calls[..k])
    decreases |calls| - k
  {
    if k < |calls| {
      assert calls[..|calls| - 1][..k] == calls[..k];
      BuildAllStopsAtFailure(calls[..|calls| - 1], k);
    } else {
      assert calls[..k] == calls;
    }
  }
}
