/**
 * The Android platform constants the library uses: permission names of
 * `android.Manifest.permission`, intent actions of `android.provider.Settings`,
 * and the API levels of `android.os.Build.VERSION_CODES`.
 */
module Android {

  // ----- android.Manifest.permission -----
  const CAMERA: string := "android.permission.CAMERA"
  const RECORD_AUDIO: string := "android.permission.RECORD_AUDIO"
  const ACCESS_FINE_LOCATION: string := "android.permission.ACCESS_FINE_LOCATION"
  const ACCESS_COARSE_LOCATION: string := "android.permission.ACCESS_COARSE_LOCATION"
  const ACCESS_BACKGROUND_LOCATION: string := "android.permission.ACCESS_BACKGROUND_LOCATION"
  const ACCESS_MEDIA_LOCATION: string := "android.permission.ACCESS_MEDIA_LOCATION"
  const READ_MEDIA_IMAGES: string := "android.permission.READ_MEDIA_IMAGES"
  const READ_MEDIA_VIDEO: string := "android.permission.READ_MEDIA_VIDEO"
  const READ_MEDIA_AUDIO: string := "android.permission.READ_MEDIA_AUDIO"
  const READ_MEDIA_VISUAL_USER_SELECTED: string := "android.permission.READ_MEDIA_VISUAL_USER_SELECTED"
  const READ_EXTERNAL_STORAGE: string := "android.permission.READ_EXTERNAL_STORAGE"
  const WRITE_EXTERNAL_STORAGE: string := "android.permission.WRITE_EXTERNAL_STORAGE"
  const POST_NOTIFICATIONS: string := "android.permission.POST_NOTIFICATIONS"
  const READ_CONTACTS: string := "android.permission.READ_CONTACTS"
  const WRITE_CONTACTS: string := "android.permission.WRITE_CONTACTS"
  const READ_PHONE_STATE: string := "android.permission.READ_PHONE_STATE"
  const CALL_PHONE: string := "android.permission.CALL_PHONE"
  const READ_PHONE_NUMBERS: string := "android.permission.READ_PHONE_NUMBERS"
  const SEND_SMS: string := "android.permission.SEND_SMS"
  const READ_CALENDAR: string := "android.permission.READ_CALENDAR"
  const WRITE_CALENDAR: string := "android.permission.WRITE_CALENDAR"
  const BLUETOOTH: string := "android.permission.BLUETOOTH"
  const BLUETOOTH_ADMIN: string := "android.permission.BLUETOOTH_ADMIN"
  const BLUETOOTH_CONNECT: string := "android.permission.BLUETOOTH_CONNECT"
  const BLUETOOTH_SCAN: string := "android.permission.BLUETOOTH_SCAN"
  const NEARBY_WIFI_DEVICES: string := "android.permission.NEARBY_WIFI_DEVICES"
  const ACTIVITY_RECOGNITION: string := "android.permission.ACTIVITY_RECOGNITION"
  const WRITE_SETTINGS: string := "android.permission.WRITE_SETTINGS"
  const CHANGE_WIFI_STATE: string := "android.permission.CHANGE_WIFI_STATE"
  const ACCESS_WIFI_STATE: string := "android.permission.ACCESS_WIFI_STATE"
  const PACKAGE_USAGE_STATS: string := "android.permission.PACKAGE_USAGE_STATS"
  const VIBRATE: string := "android.permission.VIBRATE"
  const MODIFY_AUDIO_SETTINGS: string := "android.permission.MODIFY_AUDIO_SETTINGS"
  const ACCESS_NOTIFICATION_POLICY: string := "android.permission.ACCESS_NOTIFICATION_POLICY"
  const SET_ALARM: string := "com.android.alarm.permission.SET_ALARM"
  const SCHEDULE_EXACT_ALARM: string := "android.permission.SCHEDULE_EXACT_ALARM"

  // ----- android.provider.Settings -----
  const ACTION_MANAGE_OVERLAY_PERMISSION: string := SETTINGS_PREFIX + "action.MANAGE_OVERLAY_PERMISSION"
  const ACTION_NOTIFICATION_LISTENER_SETTINGS: string := SETTINGS_PREFIX + "ACTION_NOTIFICATION_LISTENER_SETTINGS"
  const ACTION_REQUEST_IGNORE_BATTERY_OPTIMIZATIONS: string := SETTINGS_PREFIX + "REQUEST_IGNORE_BATTERY_OPTIMIZATIONS"
  const ACTION_IGNORE_BATTERY_OPTIMIZATION_SETTINGS: string := SETTINGS_PREFIX + "IGNORE_BATTERY_OPTIMIZATION_SETTINGS"
  const ACTION_ACCESSIBILITY_SETTINGS: string := SETTINGS_PREFIX + "ACCESSIBILITY_SETTINGS"
  const ACTION_NFC_SETTINGS: string := SETTINGS_PREFIX + "NFC_SETTINGS"
  const ACTION_USAGE_ACCESS_SETTINGS: string := SETTINGS_PREFIX + "USAGE_ACCESS_SETTINGS"
  const ACTION_MANAGE_WRITE_SETTINGS: string := SETTINGS_PREFIX + "action.MANAGE_WRITE_SETTINGS"
  const ACTION_REQUEST_SCHEDULE_EXACT_ALARM: string := SETTINGS_PREFIX + "REQUEST_SCHEDULE_EXACT_ALARM"

  /** The prefix every `Settings.ACTION_*` string starts with. */
  const SETTINGS_PREFIX: string := "android.settings."

  // ----- android.os.Build.VERSION_CODES -----
  const M: int := 23
  const P: int := 28
  const Q: int := 29
  const S: int := 31
  const S_V2: int := 32
  const TIRAMISU: int := 33
  const UPSIDE_DOWN_CAKE: int := 34

  // ----- android.content.pm.PackageManager -----
  const PERMISSION_GRANTED: int := 0
  const PERMISSION_DENIED: int := -1

  predicate StartsWith(s: string, prefix: string) {
    |prefix| <= |s| && s[..|prefix|] == prefix
  }
}
