/**
 * The default icon, title and description of each known permission string
 * (model/PermissionDefaultResources.kt): three immutable tables and their
 * lookups. A missing entry reads as `None` (Kotlin's `null`).
 */
module DefaultResources {
  import opened Android
  import opened Wrappers
  import opened Permissions

  /** `DefaultResources.Unknown`: no icon, and the generic "unknown" title and description. */
  const Unknown: ResourceIds :=
    ResourceIds(Literal(0), Str("ax_permission_unknown_name"), Str("ax_permission_unknown_description"))

  const NoIcon: ResId := Literal(0)

  /** The resources named `ax_permission_<stem>_name` and `ax_permission_<stem>_description`. */
  function Named(icon: ResId, stem: string): ResourceIds {
    ResourceIds(icon, Str("ax_permission_" + stem + "_name"), Str("ax_permission_" + stem + "_description"))
  }

  const RuntimeResources: map<string, ResourceIds> := map[
    CAMERA := Named(Drawable("ic_ax_permission_camera"), "camera"),
    RECORD_AUDIO := Named(Drawable("ic_ax_permission_microphone"), "record_audio"),
    ACCESS_FINE_LOCATION := Named(Drawable("ic_ax_permission_location"), "access_fine_location"),
    ACCESS_COARSE_LOCATION := Named(Drawable("ic_ax_permission_location"), "access_coarse_location"),
    ACCESS_BACKGROUND_LOCATION := Named(Drawable("ic_ax_permission_location"), "access_background_location"),
    ACCESS_MEDIA_LOCATION := Named(Drawable("ic_ax_permission_location"), "access_media_location"),
    READ_MEDIA_IMAGES := Named(Drawable("ic_ax_permission_storage"), "read_media_images"),
    READ_MEDIA_VIDEO := Named(Drawable("ic_ax_permission_storage"), "read_media_video"),
    READ_MEDIA_AUDIO := Named(Drawable("ic_ax_permission_storage"), "read_media_audio"),
    READ_MEDIA_VISUAL_USER_SELECTED := Named(Drawable("ic_ax_permission_storage"), "group_photos_and_videos"),
    READ_EXTERNAL_STORAGE := Named(Drawable("ic_ax_permission_storage"), "read_external_storage"),
    WRITE_EXTERNAL_STORAGE := Named(Drawable("ic_ax_permission_storage"), "write_external_storage"),
    POST_NOTIFICATIONS := Named(Drawable("ic_ax_permission_notification"), "post_notifications"),
    READ_CONTACTS := Named(NoIcon, "read_contacts"),
    WRITE_CONTACTS := Named(NoIcon, "write_contacts"),
    READ_PHONE_STATE := Named(Drawable("ic_ax_permission_phone"), "read_phone_state"),
    CALL_PHONE := Named(Drawable("ic_ax_permission_call"), "call_phone"),
    READ_PHONE_NUMBERS := Named(Drawable("ic_ax_permission_phone"), "read_phone_numbers"),
    SEND_SMS := Named(Drawable("ic_ax_permission_phone"), "send_sms"),
    READ_CALENDAR := Named(NoIcon, "read_calendar"),
    WRITE_CALENDAR := Named(NoIcon, "write_calendar"),
    BLUETOOTH_CONNECT := Named(NoIcon, "bluetooth_connect"),
    BLUETOOTH_SCAN := Named(NoIcon, "bluetooth_scan"),
    NEARBY_WIFI_DEVICES := Named(NoIcon, "nearby_wifi_devices"),
    ACTIVITY_RECOGNITION := Named(NoIcon, "activity_recognition")
  ]

  const SpecialResources: map<string, ResourceIds> := map[
    ACTION_MANAGE_OVERLAY_PERMISSION := Named(Drawable("ic_ax_permission_draw_overlays"), "action_manage_overlay_permission"),
    ACTION_NOTIFICATION_LISTENER_SETTINGS := Named(Drawable("ic_ax_permission_notification"), "action_notification_listener_settings"),
    ACTION_REQUEST_IGNORE_BATTERY_OPTIMIZATIONS := Named(NoIcon, "action_request_ignore_battery_optimizations"),
    ACTION_ACCESSIBILITY_SETTINGS := Named(Drawable("ic_ax_permission_accessibility_service"), "action_accessibility_settings"),
    ACTION_NFC_SETTINGS := Named(NoIcon, "action_nfc_settings"),
    ACTION_USAGE_ACCESS_SETTINGS := Named(NoIcon, "action_usage_access_settings"),
    ACTION_MANAGE_WRITE_SETTINGS := Named(NoIcon, "action_manage_write_settings"),
    ACTION_REQUEST_SCHEDULE_EXACT_ALARM := Named(NoIcon, "action_request_schedule_exact_alarm")
  ]

  const LocationGroup: ResourceIds := Named(Drawable("ic_ax_permission_location"), "group_location")
  const PhotosAndVideosGroup: ResourceIds := Named(Drawable("ic_ax_permission_storage"), "group_photos_and_videos")
  const ContactsGroup: ResourceIds := Named(NoIcon, "group_contacts")
  const CalendarGroup: ResourceIds := Named(NoIcon, "group_calendar")
  const StorageGroup: ResourceIds := Named(Drawable("ic_ax_permission_storage"), "group_storage")
  const NearbyDevicesGroup: ResourceIds := Named(NoIcon, "group_nearby_devices")
  const PhoneGroup: ResourceIds := Named(Drawable("ic_ax_permission_phone"), "group_phone")

  /** Group defaults, keyed by the set of manifest strings. */
  const RuntimeGroupResources: map<set<string>, ResourceIds> := map[
    {ACCESS_FINE_LOCATION, ACCESS_COARSE_LOCATION} := LocationGroup,
    {READ_MEDIA_IMAGES, READ_MEDIA_VIDEO} := PhotosAndVideosGroup,
    {READ_MEDIA_IMAGES, READ_MEDIA_VIDEO, READ_MEDIA_VISUAL_USER_SELECTED} := PhotosAndVideosGroup,
    {READ_CONTACTS, WRITE_CONTACTS} := ContactsGroup,
    {READ_CALENDAR, WRITE_CALENDAR} := CalendarGroup,
    {READ_EXTERNAL_STORAGE, WRITE_EXTERNAL_STORAGE} := StorageGroup,
    {BLUETOOTH_CONNECT, BLUETOOTH_SCAN} := NearbyDevicesGroup,
    {BLUETOOTH_CONNECT, BLUETOOTH_SCAN, NEARBY_WIFI_DEVICES} := NearbyDevicesGroup,
    {READ_PHONE_STATE, CALL_PHONE} := PhoneGroup,
    {READ_PHONE_STATE, READ_PHONE_NUMBERS} := PhoneGroup,
    {CALL_PHONE, READ_PHONE_NUMBERS} := PhoneGroup,
    {READ_PHONE_STATE, CALL_PHONE, READ_PHONE_NUMBERS} := PhoneGroup
  ]

  /** `List.toSet`. */
  function ToSet(ps: seq<string>): (s: set<string>)
    ensures forall x :: x in s <==> x in ps
  {
    set x | x in ps
  }

  function GetForRuntime(permission: string): (r: Option<ResourceIds>)
    ensures r.Some? <==> permission in RuntimeResources
    ensures r.Some? ==> r.value == RuntimeResources[permission]
  {
    if permission in RuntimeResources then Some(RuntimeResources[permission]) else None
  }

  function GetForRuntimeGroup(permissions: seq<string>): (r: Option<ResourceIds>)
    ensures r.Some? <==> ToSet(permissions) in RuntimeGroupResources
    ensures r.Some? ==> r.value == RuntimeGroupResources[ToSet(permissions)]
  {
    var key := ToSet(permissions);
    if key in RuntimeGroupResources then Some(RuntimeGroupResources[key]) else None
  }

  function GetForSpecial(action: string): (r: Option<ResourceIds>)
    ensures r.Some? <==> action in SpecialResources
    ensures r.Some? ==> r.value == SpecialResources[action]
  {
    if action in SpecialResources then Some(SpecialResources[action]) else None
  }

  // ----- properties -----

  lemma UnknownHasNoIcon()
    ensures Unknown.iconResId == Literal(0)
  {
  }

  /** The group lookup sees only the set of strings: permutations and duplicates give the same answer. */
  lemma GroupLookupIgnoresOrderAndDuplicates(ps: seq<string>, qs: seq<string>)
    requires forall x :: x in ps <==> x in qs
    ensures GetForRuntimeGroup(ps) == GetForRuntimeGroup(qs)
  {
    assert ToSet(ps) == ToSet(qs);
  }

  /** Every group key holds at least two strings. */
  lemma GroupKeysHaveTwoOrMore()
    ensures forall k :: k in RuntimeGroupResources ==> |k| >= 2
  {
    forall k | k in RuntimeGroupResources
      ensures |k| >= 2
    {
      assert exists a, b :: a in k && b in k && a != b;
      var a, b :| a in k && b in k && a != b;
      assert {a, b} <= k;
      assert |{a, b}| == 2;
      SubsetCard({a, b}, k);
    }
  }

  lemma SubsetCard(a: set<string>, b: set<string>)
    requires a <= b
    ensures |a| <= |b|
  {
    assert b == a + (b - a);
  }

  /** A one-string list never finds a group default. */
  lemma SingletonHasNoGroupDefault(p: string)
    ensures GetForRuntimeGroup([p]) == None
  {
    GroupKeysHaveTwoOrMore();
    assert ToSet([p]) == {p};
  }

  /** Fine and coarse location, in either order, find the location-group resources. */
  lemma FineAndCoarseFindLocationGroup()
    ensures GetForRuntimeGroup([ACCESS_FINE_LOCATION, ACCESS_COARSE_LOCATION]) == Some(LocationGroup)
    ensures GetForRuntimeGroup([ACCESS_COARSE_LOCATION, ACCESS_FINE_LOCATION]) == Some(LocationGroup)
  {
    var key := {ACCESS_FINE_LOCATION, ACCESS_COARSE_LOCATION};
    assert ToSet([ACCESS_FINE_LOCATION, ACCESS_COARSE_LOCATION]) == key;
    assert ToSet([ACCESS_COARSE_LOCATION, ACCESS_FINE_LOCATION]) == key;
    assert RuntimeGroupResources[key] == LocationGroup;
  }
}
