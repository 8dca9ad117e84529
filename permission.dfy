/**
 * The permission catalogue of the new library (model/Permission.kt).
 *
 * A permission is either a special permission, identified by the settings
 * action that opens its settings screen, or a runtime permission over one or
 * several manifest permission strings. Each carries three resource ids (icon,
 * title, description) that take no part in equality.
 */
module Permissions {
  import opened Android
  import opened Wrappers

  /** An Android resource id: a literal integer (such as 0) or a generated `R.*` reference. */
  datatype ResId = Literal(n: int) | R(name: string)

  /** The icon, title and description resource ids of a permission. */
  datatype ResourceIds = ResourceIds(iconResId: ResId, titleResId: ResId, descriptionResId: ResId)

  /**
   * `Permission.Special` and the two shapes of `Permission.Runtime` the
   * builder and the checker construct: `Runtime.Single(permission)` and
   * `Runtime.Group(permissions)`. Both runtime shapes expose the manifest
   * list `manifestPermissions`.
   */
  datatype Permission =
    | Special(res: ResourceIds, action: string)
    | RuntimeSingle(res: ResourceIds, permission: string)
    | RuntimeGroup(res: ResourceIds, permissions: seq<string>)
  {
    predicate IsRuntime() { RuntimeSingle? || RuntimeGroup? }

    /** The manifest list of a runtime permission: `[permission]` or `permissions`. */
    function ManifestPermissions(): seq<string>
      requires IsRuntime()
    {
      match this
      case RuntimeSingle(_, s) => [s]
      case RuntimeGroup(_, ps) => ps
    }
  }

  /**
   * The overridden `equals`: two special permissions are equal when their
   * actions are, two runtime permissions when their manifest lists are (in
   * order); resource ids are ignored and the two families never meet.
   */
  function Equals(a: Permission, b: Permission): (r: bool)
    ensures a == b ==> r
    ensures r ==> (a.Special? <==> b.Special?)
    ensures r ==> HashCode(a) == HashCode(b)
  {
    if a.Special? && b.Special? then a.action == b.action
    else if a.IsRuntime() && b.IsRuntime() then a.ManifestPermissions() == b.ManifestPermissions()
    else false
  }

  // ----- hashCode -----

  const TWO_32: int := 0x1_0000_0000

  /** One step of the hash recurrence, h = 31 * h + u, in 32-bit wrap-around arithmetic. */
  function HashStep(h: int, u: int): (h': int)
    ensures 0 <= h' < TWO_32
  {
    (31 * h + u) % TWO_32
  }

  /**
   * `String.hashCode`: the recurrence over the string's UTF-16 code units. A
   * character above U+FFFF is two units, its high and then its low surrogate.
   */
  function StringHash(s: string): (h: int)
    ensures 0 <= h < TWO_32
  {
    if s == [] then 0
    else
      var prefix := StringHash(s[..|s| - 1]);
      var c := s[|s| - 1] as int;
      if c < 0x1_0000 then HashStep(prefix, c)
      else HashStep(HashStep(prefix, 0xD800 + (c - 0x1_0000) / 0x400), 0xDC00 + (c - 0x1_0000) % 0x400)
  }

  /** A character outside the Basic Multilingual Plane hashes as its surrogate pair: U+1F600 gives 31 * 0xD83D + 0xDE00. */
  lemma SupplementaryCharHashesAsSurrogatePair()
    ensures StringHash("\U{1F600}") == 31 * 0xD83D + 0xDE00
    ensures StringHash("\U{1F600}") != 0x1F600
  {
    assert "\U{1F600}"[..0] == [];
  }

  /** `List.hashCode`: h = 31 * h + hash(e), starting from 1, in 32-bit wrap-around arithmetic. */
  function ListHash(ps: seq<string>): (h: int)
    ensures 0 <= h < TWO_32
  {
    if ps == [] then 1 else HashStep(ListHash(ps[..|ps| - 1]), StringHash(ps[|ps| - 1]))
  }

  /** The overridden `hashCode`: that of the action, or that of the manifest list. */
  function HashCode(p: Permission): (h: int)
    ensures 0 <= h < TWO_32
    ensures p.RuntimeSingle? ==> h == ListHash([p.permission])
  {
    if p.Special? then StringHash(p.action) else ListHash(p.ManifestPermissions())
  }

  lemma HashCodeConsistentWithEquals(a: Permission, b: Permission)
    requires Equals(a, b)
    ensures HashCode(a) == HashCode(b)
  {
  }

  lemma EqualsIsEquivalence(a: Permission, b: Permission, c: Permission)
    ensures Equals(a, a)
    ensures Equals(a, b) <==> Equals(b, a)
    ensures Equals(a, b) && Equals(b, c) ==> Equals(a, c)
  {
  }

  /** Runtime equality is list equality: resource ids play no part, and order matters. */
  lemma RuntimeEqualsIff(a: Permission, b: Permission)
    requires a.IsRuntime() && b.IsRuntime()
    ensures Equals(a, b) <==> a.ManifestPermissions() == b.ManifestPermissions()
  {
  }

  lemma SpecialEqualsIff(a: Permission, b: Permission)
    requires a.Special? && b.Special?
    ensures Equals(a, b) <==> a.action == b.action
  {
  }

  /** Two runtime permissions over the same strings in another order are not equal. */
  lemma RuntimeEqualsIsOrderSensitive(res: ResourceIds)
    ensures !Equals(RuntimeGroup(res, [ACCESS_FINE_LOCATION, ACCESS_COARSE_LOCATION]),
                    RuntimeGroup(res, [ACCESS_COARSE_LOCATION, ACCESS_FINE_LOCATION]))
  {
    var a := [ACCESS_FINE_LOCATION, ACCESS_COARSE_LOCATION];
    var b := [ACCESS_COARSE_LOCATION, ACCESS_FINE_LOCATION];
    assert a[0][26] != b[0][26];
  }

  // ----- copy -----

  /**
   * `copy(iconResId, titleResId, descriptionResId)` with Kotlin's default
   * arguments: an argument left out (None) keeps the current id. The
   * action or manifest list is kept, so the copy equals the original.
   */
  function Copy(p: Permission, icon: Option<ResId>, title: Option<ResId>, description: Option<ResId>): (c: Permission)
    ensures Equals(c, p) && Equals(p, c)
    ensures c.Special? == p.Special? && c.RuntimeSingle? == p.RuntimeSingle?
    ensures c.res.iconResId == icon.GetOr(p.res.iconResId)
    ensures c.res.titleResId == title.GetOr(p.res.titleResId)
    ensures c.res.descriptionResId == description.GetOr(p.res.descriptionResId)
  {
    var res := ResourceIds(icon.GetOr(p.res.iconResId), title.GetOr(p.res.titleResId),
                           description.GetOr(p.res.descriptionResId));
    p.(res := res)
  }

  // ----- isEmptyPermissions -----

  function IsEmptyPermissions(p: Permission): (r: bool)
    ensures p.Special? ==> (r <==> p.action == [])
    ensures p.RuntimeSingle? ==> !r
    ensures p.RuntimeGroup? ==> (r <==> p.permissions == [])
  {
    if p.Special? then |p.action| == 0 else |p.ManifestPermissions()| == 0
  }

  // ----- factories -----

  /** A runtime permission over a manifest list: Single for one string, Group otherwise. */
  function RuntimeOf(res: ResourceIds, ps: seq<string>): (p: Permission)
    ensures p.IsRuntime() && p.ManifestPermissions() == ps && p.res == res
    ensures p.RuntimeSingle? <==> |ps| == 1
  {
    if |ps| == 1 then RuntimeSingle(res, ps[0]) else RuntimeGroup(res, ps)
  }

  function Drawable(name: string): ResId { R("drawable." + name) }
  function Str(name: string): ResId { R("string." + name) }

  function Res(icon: string, title: string, description: string): ResourceIds {
    ResourceIds(Drawable(icon), Str(title), Str(description))
  }

  function Camera(): (p: Permission)
    ensures p.IsRuntime() && p.ManifestPermissions() == [CAMERA]
  {
    RuntimeOf(Res("ic_ax_permission_camera", "ax_permission_camera_name", "ax_permission_camera_description"), [CAMERA])
  }

  function RecordAudio(): (p: Permission)
    ensures p.IsRuntime() && p.ManifestPermissions() == [RECORD_AUDIO]
  {
    RuntimeOf(Res("ic_ax_permission_microphone", "ax_permission_microphone_name", "ax_permission_microphone_description"), [RECORD_AUDIO])
  }

  function AccessFineLocation(): (p: Permission)
    ensures p.IsRuntime() && p.ManifestPermissions() == [ACCESS_FINE_LOCATION]
  {
    RuntimeOf(Res("ic_ax_permission_location", "ax_permission_location_fine_name", "ax_permission_location_fine_description"), [ACCESS_FINE_LOCATION])
  }

  function AccessCoarseLocation(): (p: Permission)
    ensures p.IsRuntime() && p.ManifestPermissions() == [ACCESS_COARSE_LOCATION]
  {
    RuntimeOf(Res("ic_ax_permission_location", "ax_permission_location_coarse_name", "ax_permission_location_coarse_description"), [ACCESS_COARSE_LOCATION])
  }

  function AccessFineAndCoarseLocation(): (p: Permission)
    ensures p.IsRuntime() && p.ManifestPermissions() == [ACCESS_FINE_LOCATION, ACCESS_COARSE_LOCATION]
  {
    RuntimeOf(Res("ic_ax_permission_location", "ax_permission_location_fine_name", "ax_permission_location_fine_description"),
              [ACCESS_FINE_LOCATION, ACCESS_COARSE_LOCATION])
  }

  /** Background location exists from API 29 (Q); below it the manifest list is empty. */
  function AccessBackgroundLocation(sdk: int): (p: Permission)
    ensures p.IsRuntime()
    ensures IsEmptyPermissions(p) <==> sdk < Q
    ensures !IsEmptyPermissions(p) ==> p.ManifestPermissions() == [ACCESS_BACKGROUND_LOCATION]
  {
    RuntimeOf(Res("ic_ax_permission_location", "ax_permission_location_background_name", "ax_permission_location_background_description"),
              if sdk >= Q then [ACCESS_BACKGROUND_LOCATION] else [])
  }

  /** Photos and videos from API 33 (TIRAMISU); below it, READ_EXTERNAL_STORAGE alone. */
  function ReadMediaVisual(sdk: int): (p: Permission)
    ensures p.IsRuntime() && !IsEmptyPermissions(p)
    ensures sdk < TIRAMISU ==> p.ManifestPermissions() == [READ_EXTERNAL_STORAGE]
    ensures sdk >= TIRAMISU ==> p.ManifestPermissions() == [READ_MEDIA_IMAGES, READ_MEDIA_VIDEO]
  {
    RuntimeOf(Res("ic_ax_permission_storage", "ax_permission_storage_read_name", "ax_permission_storage_read_description"),
              if sdk >= TIRAMISU then [READ_MEDIA_IMAGES, READ_MEDIA_VIDEO] else [READ_EXTERNAL_STORAGE])
  }

  function ReadMediaAudio(sdk: int): (p: Permission)
    ensures p.IsRuntime() && !IsEmptyPermissions(p)
    ensures sdk < TIRAMISU ==> p.ManifestPermissions() == [READ_EXTERNAL_STORAGE]
    ensures sdk >= TIRAMISU ==> p.ManifestPermissions() == [READ_MEDIA_AUDIO]
  {
    RuntimeOf(Res("ic_ax_permission_storage", "ax_permission_storage_read_name", "ax_permission_storage_read_description"),
              if sdk >= TIRAMISU then [READ_MEDIA_AUDIO] else [READ_EXTERNAL_STORAGE])
  }

  function ReadMediaAll(sdk: int): (p: Permission)
    ensures p.IsRuntime() && !IsEmptyPermissions(p)
    ensures sdk < TIRAMISU ==> p.ManifestPermissions() == [READ_EXTERNAL_STORAGE]
    ensures sdk >= TIRAMISU ==> p.ManifestPermissions() == [READ_MEDIA_IMAGES, READ_MEDIA_VIDEO, READ_MEDIA_AUDIO]
  {
    RuntimeOf(Res("ic_ax_permission_storage", "ax_permission_storage_read_name", "ax_permission_storage_read_description"),
              if sdk >= TIRAMISU then [READ_MEDIA_IMAGES, READ_MEDIA_VIDEO, READ_MEDIA_AUDIO] else [READ_EXTERNAL_STORAGE])
  }

  /** Legacy storage read: only up to API 32 (S_V2). */
  function ReadExternalStorage(sdk: int): (p: Permission)
    ensures p.IsRuntime()
    ensures IsEmptyPermissions(p) <==> sdk > S_V2
    ensures !IsEmptyPermissions(p) ==> p.ManifestPermissions() == [READ_EXTERNAL_STORAGE]
  {
    RuntimeOf(Res("ic_ax_permission_storage", "ax_permission_storage_read_name", "ax_permission_storage_read_description"),
              if sdk <= S_V2 then [READ_EXTERNAL_STORAGE] else [])
  }

  /** Legacy storage write: only up to API 28 (P). */
  function WriteExternalStorage(sdk: int): (p: Permission)
    ensures p.IsRuntime()
    ensures IsEmptyPermissions(p) <==> sdk > P
    ensures !IsEmptyPermissions(p) ==> p.ManifestPermissions() == [WRITE_EXTERNAL_STORAGE]
  {
    RuntimeOf(Res("ic_ax_permission_storage", "ax_permission_storage_write_name", "ax_permission_storage_write_description"),
              if sdk <= P then [WRITE_EXTERNAL_STORAGE] else [])
  }

  /** Notifications need a runtime grant from API 33; below it the list is empty (granted implicitly). */
  function PostNotifications(sdk: int): (p: Permission)
    ensures p.IsRuntime()
    ensures IsEmptyPermissions(p) <==> sdk < TIRAMISU
    ensures !IsEmptyPermissions(p) ==> p.ManifestPermissions() == [POST_NOTIFICATIONS]
  {
    RuntimeOf(Res("ic_ax_permission_notification", "ax_permission_notification_name", "ax_permission_notification_description"),
              if sdk >= TIRAMISU then [POST_NOTIFICATIONS] else [])
  }

  function ReadContacts(): (p: Permission)
    ensures p.IsRuntime() && p.ManifestPermissions() == [READ_CONTACTS]
  {
    RuntimeOf(Res("ic_ax_permission_contacts", "ax_permission_contacts_read_name", "ax_permission_contacts_read_description"), [READ_CONTACTS])
  }

  function WriteContacts(): (p: Permission)
    ensures p.IsRuntime() && p.ManifestPermissions() == [WRITE_CONTACTS]
  {
    RuntimeOf(Res("ic_ax_permission_contacts", "ax_permission_contacts_write_name", "ax_permission_contacts_write_description"), [WRITE_CONTACTS])
  }

  function ReadWriteContacts(): (p: Permission)
    ensures p.IsRuntime() && p.ManifestPermissions() == [READ_CONTACTS, WRITE_CONTACTS]
  {
    RuntimeOf(Res("ic_ax_permission_contacts", "ax_permission_contacts_read_name", "ax_permission_contacts_read_description"),
              [READ_CONTACTS, WRITE_CONTACTS])
  }

  function ReadPhoneState(): (p: Permission)
    ensures p.IsRuntime() && p.ManifestPermissions() == [READ_PHONE_STATE]
  {
    RuntimeOf(Res("ic_ax_permission_phone", "ax_permission_phone_name", "ax_permission_phone_description"), [READ_PHONE_STATE])
  }

  function CallPhone(): (p: Permission)
    ensures p.IsRuntime() && p.ManifestPermissions() == [CALL_PHONE]
  {
    RuntimeOf(Res("ic_ax_permission_call", "ax_permission_call_phone_name", "ax_permission_call_phone_description"), [CALL_PHONE])
  }

  function ReadCalendar(): (p: Permission)
    ensures p.IsRuntime() && p.ManifestPermissions() == [READ_CALENDAR]
  {
    RuntimeOf(Res("ic_ax_permission_calendar", "ax_permission_calendar_read_name", "ax_permission_calendar_read_description"), [READ_CALENDAR])
  }

  function WriteCalendar(): (p: Permission)
    ensures p.IsRuntime() && p.ManifestPermissions() == [WRITE_CALENDAR]
  {
    RuntimeOf(Res("ic_ax_permission_calendar", "ax_permission_calendar_write_name", "ax_permission_calendar_write_description"), [WRITE_CALENDAR])
  }

  function ReadWriteCalendar(): (p: Permission)
    ensures p.IsRuntime() && p.ManifestPermissions() == [READ_CALENDAR, WRITE_CALENDAR]
  {
    RuntimeOf(Res("ic_ax_permission_calendar", "ax_permission_calendar_read_name", "ax_permission_calendar_read_description"),
              [READ_CALENDAR, WRITE_CALENDAR])
  }

  function ActionManageOverlayPermission(): (p: Permission)
    ensures p.Special? && p.action == ACTION_MANAGE_OVERLAY_PERMISSION
  {
    Special(Res("ic_ax_permission_draw_overlays", "ax_permission_draw_overlays_name", "ax_permission_draw_overlays_description"),
            ACTION_MANAGE_OVERLAY_PERMISSION)
  }

  function ActionNotificationListenerSettings(): (p: Permission)
    ensures p.Special? && p.action == ACTION_NOTIFICATION_LISTENER_SETTINGS
  {
    Special(Res("ic_ax_permission_alarm", "ax_permission_access_notification_name", "ax_permission_access_notification_description"),
            ACTION_NOTIFICATION_LISTENER_SETTINGS)
  }

  function ActionRequestIgnoreBatteryOptimizations(): (p: Permission)
    ensures p.Special? && p.action == ACTION_REQUEST_IGNORE_BATTERY_OPTIMIZATIONS
  {
    Special(Res("ic_ax_permission_battery", "ax_permission_ignore_battery_optimization_name", "ax_permission_ignore_battery_optimization_description"),
            ACTION_REQUEST_IGNORE_BATTERY_OPTIMIZATIONS)
  }

  /** Below API 33 the three media factories and ReadExternalStorage are the same permission under `equals`. */
  lemma MediaFactoriesAgreeBelowTiramisu(sdk: int)
    requires sdk < TIRAMISU
    ensures Equals(ReadMediaVisual(sdk), ReadMediaAudio(sdk))
    ensures Equals(ReadMediaAudio(sdk), ReadMediaAll(sdk))
    ensures Equals(ReadMediaVisual(sdk), ReadExternalStorage(sdk))
  {
  }
}
