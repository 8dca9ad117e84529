# ax-permission, modelled in Dafny

ax-permission is an Android library for asking users for permissions. It has two generations, and a demo application comes with it.

- **The current library** (`com.ax.library.ax_permission`):
  - A permission is either a *runtime* permission, made of one or more manifest strings, or a *special* permission, made of one settings screen action.
  - A builder DSL collects the required and optional permissions.
  - A checker asks the system whether each permission is granted. It also classifies a runtime permission as granted, first time, denied-can-retry or permanently denied, using a rationale tracker stored in shared preferences.
  - The composer, `AxPermission.from(activity)`, either calls the callback straight away (every required permission is already granted) or starts the permission screen. A view model holds the screen's rows.
  - A request helper opens the settings screen of a special permission. When the first intent fails, it retries with the package URI toggled.
  - Default icon, title and description resources are looked up in tables.
- **The legacy library** (`kr.co.permission.ax_permission`):
  - The caller builds a parcelable list of permission strings.
  - A settings catalogue turns the list into display records. READ_MEDIA_IMAGES and READ_MEDIA_VIDEO are merged into one entry.
  - A refresh recomputes each record's state from the device.
  - A sectioned adapter shows a header and then the records, for the required section and then the optional one.
  - An activity walks the records, requesting each runtime permission that is not yet granted.
- **The demo application's `PermissionHelper`** chooses the location, storage and Bluetooth permission lists by SDK level.

Modelling choices shared by all twenty files:

- Whatever the operating system would answer is a field of a `Device` value (`Checker.Device`, `LegacyCheck.LegacyDevice`). This covers `checkSelfPermission`, `shouldShowRequestPermissionRationale`, `canDrawOverlays`, the enabled listeners and accessibility services, NFC and app-ops. The SDK level is a parameter.
- Kotlin `object` singletons become class instances that are passed in:
  - the global configuration and callback holder (`Composer.AxPermissionGlobal`);
  - the rationale tracker's shared preferences (`Tracker.PermissionRequestTracker`).
- Kotlin exceptions become values:
  - `require`/`check` failures, index-out-of-bounds and `UnsupportedOperationException` are `Wrappers.KotlinError`;
  - a member that can throw returns a `Result` or an `Outcome`.
- Resource ids are `Permissions.ResId`: either a literal integer, where the source writes `0` or a caller's id, or a named `R.*` reference.
- The legacy display records (`LegacySettings.AxPermissionModel`) are values. Each operation that mutates them in the source returns the updated list, or updates the field of the class that owns the list.

Where the code and its descriptions disagree, the model follows the code:

- `Permission.Runtime.equals` compares manifest lists in order. The group-resource lookup compares them as sets. Both are kept.
- `Item.kt` declares `PermissionItem` as an interface with `Special` and `Runtime` classes that hold no single `permission`. `PermissionItemData.kt` and `PermissionViewModel.kt` build and read one `PermissionItem(permission = ...)`. The model follows these callers: one row kind that holds the permission and takes that permission's resource ids.
- The composer's dp setters store raw dp values in the configuration.
- The enum constant for the system-following theme is `DayAndNight`, but `setDayNightTheme` and `initTheme` write `PermissionTheme.DayNight`, a name the enum does not declare. The model reads both as `DayAndNight`.
- The doc comment of `add` (ax/permission/PermissionBuilder.kt:28) says an exception is thrown when no ids are given for a permission without defaults. The code (lines 55-56 and 72) falls back to `DefaultResources.Unknown` instead. The model follows the code (`Builder.DefaultsFor`, `Builder.UnknownRuntimeGetsUnknownResources`).
- `checkSpecialPermission` tests for `WRITE_SETTINGS` with the manifest string rather than the settings action (see "## Findings"). `check` and `getPermissionState` call it as written, and so do the model's `Checker.Check`, `Checker.PermissionStateOf` and `Checker.GetPermissionState`. Everything built on them follows suit: the rows of `ItemData`, the `PermissionViewModel`, and `Composer.Decide` with `CheckAndShow`. So the write-settings action reads denied on every device, and a composer that requires it always starts the screen. The corrected check is kept beside them as `Checker.CheckSpecialPermission` and `Checker.CheckCorrected`.

## Model

| member | source | states |
|---|---|---|
| Permissions.StringHash | ax-permission/src/main/java/com/ax/library/ax_permission/model/Permission.kt:84-86 | Every hash is an unsigned 32-bit value, the reduction of `String.hashCode`'s wrap-around. The recurrence runs over UTF-16 code units, so a character above U+FFFF contributes its high and then its low surrogate. |
| Permissions.SupplementaryCharHashesAsSurrogatePair | ax-permission/src/main/java/com/ax/library/ax_permission/model/Permission.kt:84-86 | The one-character string U+1F600 hashes as the surrogate pair 0xD83D, 0xDE00 (31·0xD83D + 0xDE00), not as its code point. |
| Permissions.ListHash | ax-permission/src/main/java/com/ax/library/ax_permission/model/Permission.kt:84-86 | A list's hash is an unsigned 32-bit value, the reduction of `List.hashCode`'s wrap-around. |
| Permissions.HashCodeConsistentWithEquals | ax-permission/src/main/java/com/ax/library/ax_permission/model/Permission.kt:75-86 | Permissions that are equal under the overridden `equals` have equal `hashCode`s, for the Runtime pair and for the Special pair (`hashCode` at lines 359-361). |
| Permissions.Equals | ax-permission/src/main/java/com/ax/library/ax_permission/model/Permission.kt:75-82 | A permission equals itself; a special permission never equals a runtime one; equal permissions have equal hash codes. The special variant at lines 350-357 compares actions the same way. |
| Permissions.HashCode | ax-permission/src/main/java/com/ax/library/ax_permission/model/Permission.kt:84-86 | The hash is an unsigned 32-bit value, and a single runtime permission hashes like its one-element manifest list. The special variant at lines 359-361 hashes the action. |
| Permissions.IsEmptyPermissions | ax-permission/src/main/java/com/ax/library/ax_permission/model/Permission.kt:43-47 | A special permission is empty exactly when its action is the empty string, a group exactly when its list is empty; a single permission never is. |
| Permissions.EqualsIsEquivalence | ax-permission/src/main/java/com/ax/library/ax_permission/model/Permission.kt:75-82 | The overridden `equals` is reflexive, symmetric and transitive. |
| Permissions.RuntimeEqualsIff | ax-permission/src/main/java/com/ax/library/ax_permission/model/Permission.kt:75-82 | Two runtime permissions are equal exactly when their manifest lists are equal; their resource ids are ignored. |
| Permissions.SpecialEqualsIff | ax-permission/src/main/java/com/ax/library/ax_permission/model/Permission.kt:350-357 | Two special permissions are equal exactly when their settings actions are equal. |
| Permissions.RuntimeEqualsIsOrderSensitive | ax-permission/src/main/java/com/ax/library/ax_permission/model/Permission.kt:75-82 | The same two manifest strings in the other order make a different runtime permission. |
| Permissions.Copy | ax-permission/src/main/java/com/ax/library/ax_permission/model/Permission.kt:64-73 | A copy equals its original both ways and keeps its kind. Each resource id is the one passed in, or else the original's. The Special copy is at lines 339-348. |
| Permissions.RuntimeOf | ax-permission/src/main/java/com/ax/library/ax_permission/model/Permission.kt:56-61 | The runtime permission holds exactly the given manifest list and resource ids. It is the single-string form exactly when the list has one string. |
| Permissions.Camera | ax-permission/src/main/java/com/ax/library/ax_permission/model/Permission.kt:94-99 | A runtime permission of exactly CAMERA. |
| Permissions.RecordAudio | ax-permission/src/main/java/com/ax/library/ax_permission/model/Permission.kt:103-108 | A runtime permission of exactly RECORD_AUDIO. |
| Permissions.AccessFineLocation | ax-permission/src/main/java/com/ax/library/ax_permission/model/Permission.kt:112-117 | A runtime permission of exactly ACCESS_FINE_LOCATION. |
| Permissions.AccessCoarseLocation | ax-permission/src/main/java/com/ax/library/ax_permission/model/Permission.kt:121-126 | A runtime permission of exactly ACCESS_COARSE_LOCATION. |
| Permissions.AccessFineAndCoarseLocation | ax-permission/src/main/java/com/ax/library/ax_permission/model/Permission.kt:131-139 | A runtime permission of fine location, then coarse location. |
| Permissions.AccessBackgroundLocation | ax-permission/src/main/java/com/ax/library/ax_permission/model/Permission.kt:143-152 | Empty exactly below API 29; otherwise exactly ACCESS_BACKGROUND_LOCATION. |
| Permissions.ReadMediaVisual | ax-permission/src/main/java/com/ax/library/ax_permission/model/Permission.kt:161-173 | Never empty. READ_EXTERNAL_STORAGE below API 33; from API 33 on, images then video. |
| Permissions.ReadMediaAudio | ax-permission/src/main/java/com/ax/library/ax_permission/model/Permission.kt:177-186 | Never empty. READ_EXTERNAL_STORAGE below API 33; from API 33 on, READ_MEDIA_AUDIO. |
| Permissions.ReadMediaAll | ax-permission/src/main/java/com/ax/library/ax_permission/model/Permission.kt:190-203 | Never empty. READ_EXTERNAL_STORAGE below API 33; from API 33 on, images, video and audio. |
| Permissions.ReadExternalStorage | ax-permission/src/main/java/com/ax/library/ax_permission/model/Permission.kt:207-216 | Empty exactly above API 32; otherwise exactly READ_EXTERNAL_STORAGE. |
| Permissions.WriteExternalStorage | ax-permission/src/main/java/com/ax/library/ax_permission/model/Permission.kt:220-229 | Empty exactly above API 28; otherwise exactly WRITE_EXTERNAL_STORAGE. |
| Permissions.PostNotifications | ax-permission/src/main/java/com/ax/library/ax_permission/model/Permission.kt:233-242 | Empty exactly below API 33; otherwise exactly POST_NOTIFICATIONS. |
| Permissions.ReadContacts | ax-permission/src/main/java/com/ax/library/ax_permission/model/Permission.kt:246-251 | A runtime permission of exactly READ_CONTACTS. |
| Permissions.WriteContacts | ax-permission/src/main/java/com/ax/library/ax_permission/model/Permission.kt:255-260 | A runtime permission of exactly WRITE_CONTACTS. |
| Permissions.ReadWriteContacts | ax-permission/src/main/java/com/ax/library/ax_permission/model/Permission.kt:264-272 | A runtime permission of READ_CONTACTS, then WRITE_CONTACTS. |
| Permissions.ReadPhoneState | ax-permission/src/main/java/com/ax/library/ax_permission/model/Permission.kt:276-281 | A runtime permission of exactly READ_PHONE_STATE. |
| Permissions.CallPhone | ax-permission/src/main/java/com/ax/library/ax_permission/model/Permission.kt:285-290 | A runtime permission of exactly CALL_PHONE. |
| Permissions.ReadCalendar | ax-permission/src/main/java/com/ax/library/ax_permission/model/Permission.kt:294-299 | A runtime permission of exactly READ_CALENDAR. |
| Permissions.WriteCalendar | ax-permission/src/main/java/com/ax/library/ax_permission/model/Permission.kt:303-308 | A runtime permission of exactly WRITE_CALENDAR. |
| Permissions.ReadWriteCalendar | ax-permission/src/main/java/com/ax/library/ax_permission/model/Permission.kt:312-320 | A runtime permission of READ_CALENDAR, then WRITE_CALENDAR. |
| Permissions.ActionManageOverlayPermission | ax-permission/src/main/java/com/ax/library/ax_permission/model/Permission.kt:369-374 | A special permission of the overlay settings action. |
| Permissions.ActionNotificationListenerSettings | ax-permission/src/main/java/com/ax/library/ax_permission/model/Permission.kt:378-383 | A special permission of the notification-listener settings action. |
| Permissions.ActionRequestIgnoreBatteryOptimizations | ax-permission/src/main/java/com/ax/library/ax_permission/model/Permission.kt:387-392 | A special permission of the battery-optimisation request action. |
| Permissions.MediaFactoriesAgreeBelowTiramisu | ax-permission/src/main/java/com/ax/library/ax_permission/model/Permission.kt:161-216 | Below API 33 the three media factories and READ_EXTERNAL_STORAGE are all the same permission under `equals`. |
| DefaultResources.ToSet | ax-permission/src/main/java/com/ax/library/ax_permission/model/PermissionDefaultResources.kt:394 | The set holds exactly the list's elements. |
| DefaultResources.GetForRuntime | ax-permission/src/main/java/com/ax/library/ax_permission/model/PermissionDefaultResources.kt:383-385 | There is a result exactly when the string has a table entry, and the result is that entry. |
| DefaultResources.GetForRuntimeGroup | ax-permission/src/main/java/com/ax/library/ax_permission/model/PermissionDefaultResources.kt:393-396 | There is a result exactly when the list's set of strings is a key of the group table, and the result is that key's entry. |
| DefaultResources.GetForSpecial | ax-permission/src/main/java/com/ax/library/ax_permission/model/PermissionDefaultResources.kt:404-406 | There is a result exactly when the action has a table entry, and the result is that entry. |
| DefaultResources.UnknownHasNoIcon | ax-permission/src/main/java/com/ax/library/ax_permission/model/PermissionDefaultResources.kt:21-25 | The fallback resources have icon id 0. A fact about the constant, kept as documentation. |
| DefaultResources.GroupLookupIgnoresOrderAndDuplicates | ax-permission/src/main/java/com/ax/library/ax_permission/model/PermissionDefaultResources.kt:393-396 | Two lists with the same elements, in any order and with any repeats, get the same group defaults. |
| DefaultResources.GroupKeysHaveTwoOrMore | ax-permission/src/main/java/com/ax/library/ax_permission/model/PermissionDefaultResources.kt:238-375 | Every key of the group table has at least two permissions. |
| DefaultResources.SingletonHasNoGroupDefault | ax-permission/src/main/java/com/ax/library/ax_permission/model/PermissionDefaultResources.kt:238-396 | A one-string list never has group defaults. |
| DefaultResources.FineAndCoarseFindLocationGroup | ax-permission/src/main/java/com/ax/library/ax_permission/model/PermissionDefaultResources.kt:242-249 | Fine and coarse location, in either order, find the location group's resources. An instance of `GroupLookupIgnoresOrderAndDuplicates`. |
| WithResources.WithResourcesSingle | ax-permission/src/main/java/com/ax/library/ax_permission/model/PermissionsWithResources.kt:21-35 | The one permission is kept. Each id is the given one, or else that field's default; the icon's result is always present. |
| WithResources.WithResourcesGroup | ax-permission/src/main/java/com/ax/library/ax_permission/model/PermissionsWithResources.kt:41-67 | When all three ids are given, they are used and the defaults are never consulted. Otherwise the result fails exactly when the defaults lookup throws, with the same error, and on success it takes all three defaults. |
| WithResources.SingleFallbackIsPerField | ax-permission/src/main/java/com/ax/library/ax_permission/model/PermissionsWithResources.kt:30-33 | For one permission, the given icon does not affect the title or description: the fallback is per field. |
| WithResources.GroupPartialIdsAreDiscarded | ax-permission/src/main/java/com/ax/library/ax_permission/model/PermissionsWithResources.kt:56-65 | For a group, any partial set of ids gives the same result as none: every partial id is discarded. |
| WithResources.GroupFullIdsIgnoreDefaults | ax-permission/src/main/java/com/ax/library/ax_permission/model/PermissionsWithResources.kt:48-55 | For a group with all three ids, the result is a success whatever the defaults lookup would do. |
| Builder.SpecialIffSettingsPrefix | ax-permission/src/main/java/com/ax/library/ax_permission/permission/PermissionBuilder.kt:116-119 | A string is classed as special exactly when it starts with `android.settings.`. |
| Builder.IsSpecialPermission | ax-permission/src/main/java/com/ax/library/ax_permission/permission/PermissionBuilder.kt:116-119 | Every string under `android.settings.` is special; without that prefix, exactly the three known actions are. |
| Builder.ManifestStringsAreRuntime | ax-permission/src/main/java/com/ax/library/ax_permission/permission/PermissionBuilder.kt:116-119 | No `android.permission.*` string is classed as special. |
| Builder.NewPermission | ax-permission/src/main/java/com/ax/library/ax_permission/permission/PermissionBuilder.kt:48-90 | The permission is special exactly when the first string is special, and then its action is that string. It is single exactly when one runtime string is given. A runtime permission's manifest list is the input. Each id is the given one, or else the table default, or else the unknown default. |
| Builder.UnknownRuntimeGetsUnknownResources | ax-permission/src/main/java/com/ax/library/ax_permission/permission/PermissionBuilder.kt:68-72 | A runtime string with no table entry and no given ids gets the fallback resources. |
| Builder.KnownRuntimeGetsTableDefaults | ax-permission/src/main/java/com/ax/library/ax_permission/permission/PermissionBuilder.kt:68-88 | Any single runtime string with a table entry and no given ids gets exactly that entry's resources. This is the partner of `UnknownRuntimeGetsUnknownResources`. |
| Builder.CameraGetsTableDefaults | ax-permission/src/main/java/com/ax/library/ax_permission/permission/PermissionBuilder.kt:68-88 | `add(CAMERA)` with no ids gives the single CAMERA permission with the table's CAMERA resources. |
| Builder.PermissionBuilder.constructor | ax-permission/src/main/java/com/ax/library/ax_permission/permission/PermissionBuilder.kt:22 | A new builder has an empty list. |
| Builder.PermissionBuilder.Add | ax-permission/src/main/java/com/ax/library/ax_permission/permission/PermissionBuilder.kt:35-92 | No strings: nothing changes. A special call with more than one string fails the `require` with its message, and the list is unchanged. Any accepted call appends exactly one permission, `NewPermission` of the call. |
| Builder.PermissionBuilder.Build | ax-permission/src/main/java/com/ax/library/ax_permission/permission/PermissionBuilder.kt:97 | `build()` returns the collected list. |
| Builder.BuildAll | ax-permission/src/main/java/com/ax/library/ax_permission/permission/PermissionBuilder.kt:35-97 | A DSL block succeeds exactly when each of its calls is empty or accepted. It then yields at most one permission per call. |
| Builder.RunBlock | ax-permission/src/main/java/com/ax/library/ax_permission/permission/PermissionBuilder.kt:35-97 | Running the calls on a fresh builder gives `BuildAll` of the calls: the first failing `require` ends the block. |
| Builder.BuildAllStopsAtFailure | ax-permission/src/main/java/com/ax/library/ax_permission/permission/PermissionBuilder.kt:52 | Once a prefix of the block fails, the calls after it do not change the outcome. |
| Tracker.Key | ax-permission/src/main/java/com/ax/library/ax_permission/permission/PermissionRequestTracker.kt:26-30 | The key is the prefix `rationale_shown_` followed by the permission. |
| Tracker.KeyInjective | ax-permission/src/main/java/com/ax/library/ax_permission/permission/PermissionRequestTracker.kt:15 | Two permissions share a key exactly when they are equal. |
| Tracker.MarkThenShown | ax-permission/src/main/java/com/ax/library/ax_permission/permission/PermissionRequestTracker.kt:26-30 | After marking p, p reads as shown and every other permission reads as before. |
| Tracker.MarkedAllSpec | ax-permission/src/main/java/com/ax/library/ax_permission/permission/PermissionRequestTracker.kt:37-43 | After marking a list, q reads as shown exactly when q is in the list or was shown before. |
| Tracker.ClearSpec | ax-permission/src/main/java/com/ax/library/ax_permission/permission/PermissionRequestTracker.kt:59-63 | After clearing p, p reads as not shown and every other permission reads as before. |
| Tracker.ClearAllSpec | ax-permission/src/main/java/com/ax/library/ax_permission/permission/PermissionRequestTracker.kt:69-71 | After clearing everything, no permission reads as shown. |
| Tracker.NeverMarkedReadsFalse | ax-permission/src/main/java/com/ax/library/ax_permission/permission/PermissionRequestTracker.kt:51-53 | A permission without a stored key reads as not shown (the default `false`). |
| Tracker.PermissionRequestTracker.constructor | ax-permission/src/main/java/com/ax/library/ax_permission/permission/PermissionRequestTracker.kt:17-19 | The tracker starts with the given preferences. |
| Tracker.PermissionRequestTracker.MarkRationaleShown | ax-permission/src/main/java/com/ax/library/ax_permission/permission/PermissionRequestTracker.kt:26-30 | Stores `true` under p's key. p is now shown and every other answer is unchanged. |
| Tracker.PermissionRequestTracker.MarkRationaleShownAll | ax-permission/src/main/java/com/ax/library/ax_permission/permission/PermissionRequestTracker.kt:37-43 | Marks each element. q is shown exactly when it is in the list or was shown before. |
| Tracker.PermissionRequestTracker.WasRationaleEverShown | ax-permission/src/main/java/com/ax/library/ax_permission/permission/PermissionRequestTracker.kt:51-53 | `true` exactly when p's key is stored with value `true`. |
| Tracker.PermissionRequestTracker.Clear | ax-permission/src/main/java/com/ax/library/ax_permission/permission/PermissionRequestTracker.kt:59-63 | Removes p's key. p is no longer shown and every other answer is unchanged. |
| Tracker.PermissionRequestTracker.ClearAll | ax-permission/src/main/java/com/ax/library/ax_permission/permission/PermissionRequestTracker.kt:69-71 | Empties the preferences, so no permission is shown. |
| Checker.StatePredicatesPartition | ax-permission/src/main/java/com/ax/library/ax_permission/permission/PermissionChecker.kt:267-287 | No state both allows the system dialog and needs the settings screen. The state that does neither is exactly GRANTED. |
| Checker.IsDeniedIsNotGranted | ax-permission/src/main/java/com/ax/library/ax_permission/permission/PermissionChecker.kt:292-334 | A result is denied exactly when it is not granted. |
| Checker.CheckResult.IsGranted | ax-permission/src/main/java/com/ax/library/ax_permission/permission/PermissionChecker.kt:292-334 | No denied, initial or can-retry result counts as granted. |
| Checker.CheckResult.IsDenied | ax-permission/src/main/java/com/ax/library/ax_permission/permission/PermissionChecker.kt:296-297 | The denied results are exactly special-denied, initial, denied-can-retry and denied-permanently. |
| Checker.RuntimePermissionState.CanShowSystemDialog | ax-permission/src/main/java/com/ax/library/ax_permission/permission/PermissionChecker.kt:281-282 | The system dialog can show exactly for a state that is neither granted nor permanently denied. |
| Checker.RuntimePermissionState.NeedsSettingsNavigation | ax-permission/src/main/java/com/ax/library/ax_permission/permission/PermissionChecker.kt:285-286 | A state that needs the settings screen is not granted and cannot show the system dialog. |
| Checker.Split | ax-permission/src/main/java/com/ax/library/ax_permission/permission/PermissionChecker.kt:83 | `split(":")` gives at least one part. |
| Checker.SplitJoin | ax-permission/src/main/java/com/ax/library/ax_permission/permission/PermissionChecker.kt:83 | Joining the parts with ":" gives back the string, and no part contains a colon. |
| Checker.AnyStartsWith | ax-permission/src/main/java/com/ax/library/ax_permission/permission/PermissionChecker.kt:83-85 | True exactly when some part starts with the prefix. |
| Checker.AccessibilityServiceEnabled | ax-permission/src/main/java/com/ax/library/ax_permission/permission/PermissionChecker.kt:73-90 | A missing setting means not enabled. |
| Checker.AccessibilityServiceEnabledIff | ax-permission/src/main/java/com/ax/library/ax_permission/permission/PermissionChecker.kt:73-90 | With the setting present, enabled exactly when some colon-separated component starts with the package name. |
| Checker.CheckSpecialPermissionAsWritten | ax-permission/src/main/java/com/ax/library/ax_permission/permission/PermissionChecker.kt:40-68 | The code as written: every action gives SpecialGranted or SpecialDenied. |
| Checker.WriteSettingsActionAlwaysDeniedAsWritten | ax-permission/src/main/java/com/ax/library/ax_permission/permission/PermissionChecker.kt:62-63 | As written, the settings action for WRITE_SETTINGS is denied even on a device that grants it. The builder never gives the manifest string the branch tests for a special permission. |
| Checker.CheckSpecialPermission | ax-permission/src/main/java/com/ax/library/ax_permission/permission/PermissionChecker.kt:40-68 | Each checked action is granted exactly when its system query says so. The write-settings action and the string the code tests are both granted exactly when the app can write settings. Any other action is SpecialDenied. |
| Checker.CorrectionOnlyTouchesWriteSettings | ax-permission/src/main/java/com/ax/library/ax_permission/permission/PermissionChecker.kt:40-68 | The corrected check agrees with the code as written on every action except the write-settings one. |
| Checker.CheckRuntimePermission | ax-permission/src/main/java/com/ax/library/ax_permission/permission/PermissionChecker.kt:138-160 | RuntimeGranted exactly when every manifest string is granted; an empty list is granted. Otherwise RuntimeDeniedCanTryOnce. |
| Checker.Check | ax-permission/src/main/java/com/ax/library/ax_permission/permission/PermissionChecker.kt:26-32 | `check` sends a special permission to `checkSpecialPermission` as written (`CheckSpecialPermissionAsWritten`), so the write-settings action is always denied. A runtime permission goes to the runtime check by manifest list. |
| Checker.CheckCorrected | ax-permission/src/main/java/com/ax/library/ax_permission/permission/PermissionChecker.kt:26-32 | `check` with the corrected special check: the write-settings action is granted exactly when the app can write settings. |
| Checker.CheckCorrectionOnlyTouchesWriteSettings | ax-permission/src/main/java/com/ax/library/ax_permission/permission/PermissionChecker.kt:26-68 | `check` and its corrected form differ exactly on the write-settings action, on a device that can write settings. |
| Checker.CheckRespectsEquals | ax-permission/src/main/java/com/ax/library/ax_permission/permission/PermissionChecker.kt:26-32 | Permissions that are equal under `equals` get the same check result. |
| Checker.RuntimeStateOf | ax-permission/src/main/java/com/ax/library/ax_permission/permission/PermissionChecker.kt:174-199 | GRANTED iff granted. DENIED_CAN_RETRY iff not granted and a rationale is due. DENIED_PERMANENTLY iff neither, after a rationale was once shown. FIRST_TIME iff neither, with none ever shown. |
| Checker.RationaleThenPermanentlyDenied | ax-permission/src/main/java/com/ax/library/ax_permission/permission/PermissionChecker.kt:183-195 | A permission whose rationale is shown is recorded. Once the system stops offering it, the next query reports DENIED_PERMANENTLY. |
| Checker.NoHistoryIsFirstTime | ax-permission/src/main/java/com/ax/library/ax_permission/permission/PermissionChecker.kt:190-197 | With empty preferences, a permission that is neither granted nor due a rationale is FIRST_TIME. |
| Checker.AfterQueryPreservesStates | ax-permission/src/main/java/com/ax/library/ax_permission/permission/PermissionChecker.kt:185 | Recording one query never changes the state that any permission reports on the same device. |
| Checker.GetRuntimePermissionState | ax-permission/src/main/java/com/ax/library/ax_permission/permission/PermissionChecker.kt:174-199 | Reports `RuntimeStateOf` on the old preferences. It records a rationale exactly when the state is DENIED_CAN_RETRY. |
| Checker.CombineStates | ax-permission/src/main/java/com/ax/library/ax_permission/permission/PermissionChecker.kt:213-243 | GRANTED iff every member is granted, or the list is empty. Otherwise DENIED_PERMANENTLY iff some member is; otherwise DENIED_CAN_RETRY iff some member is; otherwise FIRST_TIME. |
| Checker.StatesOf | ax-permission/src/main/java/com/ax/library/ax_permission/permission/PermissionChecker.kt:218 | The member states, in order, each as the single-permission query reports it. |
| Checker.GroupStateAgreesWithCheck | ax-permission/src/main/java/com/ax/library/ax_permission/permission/PermissionChecker.kt:213-243 | The group is GRANTED exactly when the runtime check reports it granted. |
| Checker.AfterQueriesPreservesStates | ax-permission/src/main/java/com/ax/library/ax_permission/permission/PermissionChecker.kt:218 | Recording a whole group's queries never changes any later state on the same device. |
| Checker.GetGroupRuntimePermissionState | ax-permission/src/main/java/com/ax/library/ax_permission/permission/PermissionChecker.kt:213-243 | Reports the combined state of the members on the old preferences, and records each member's query in order. |
| Checker.PermissionStateOf | ax-permission/src/main/java/com/ax/library/ax_permission/permission/PermissionChecker.kt:249-262 | A special permission is GRANTED when `checkSpecialPermission` as written grants it, and DENIED_CAN_RETRY otherwise. |
| Checker.WriteSettingsActionReadsDenied | ax-permission/src/main/java/com/ax/library/ax_permission/permission/PermissionChecker.kt:26-68 | On every device the write-settings action is SpecialDenied under `check`, and DENIED_CAN_RETRY under `getPermissionState`. |
| Checker.StateAgreesWithCheck | ax-permission/src/main/java/com/ax/library/ax_permission/permission/PermissionChecker.kt:249-262 | `getPermissionState` reports GRANTED exactly when `check` reports granted, for every kind of permission. |
| Checker.GetPermissionState | ax-permission/src/main/java/com/ax/library/ax_permission/permission/PermissionChecker.kt:249-262 | Reports `PermissionStateOf`, whose special branch uses `checkSpecialPermission` as written. A special permission leaves the preferences untouched; a runtime one records its queries. |
| Items.DerivedFlagsAreNegations | ax-permission/src/main/java/com/ax/library/ax_permission/model/Item.kt:38-42 | `isOptional` is the negation of `isRequired`, and `isNotGranted` the negation of `isGranted`. |
| Items.ContentsSameImpliesItemsSame | ax-permission/src/main/java/com/ax/library/ax_permission/model/Item.kt:87-90 | Equal contents imply the same row id. Equal rows have equal contents, and equality of contents is symmetric. |
| Items.AreItemsTheSame | ax-permission/src/main/java/com/ax/library/ax_permission/model/Item.kt:88 | Equal rows are the same item, and the same item means the same id. |
| Items.AreContentsTheSame | ax-permission/src/main/java/com/ax/library/ax_permission/model/Item.kt:89 | Equal rows have the same contents, and the same contents mean the same id and the same kind of row. |
| Items.ContentsIgnorePermissionResources | ax-permission/src/main/java/com/ax/library/ax_permission/model/Item.kt:87-90 | Replacing the resource ids of a row's permission leaves the contents the same, because the permission is compared by its own `equals`. |
| ItemData.GenerateItem | ax-permission/src/main/java/com/ax/library/ax_permission/permission/PermissionItemData.kt:39-52 | A permission row with the given id, permission and required flag. It is granted exactly as `Check` reports, so with the special check as written, and never highlighted. |
| ItemData.RowsFrom | ax-permission/src/main/java/com/ax/library/ax_permission/permission/PermissionItemData.kt:20-22 | One row per permission, in order, numbered from the base. |
| ItemData.SectionLayout | ax-permission/src/main/java/com/ax/library/ax_permission/permission/PermissionItemData.kt:18-24 | A non-empty section is a header, then its rows in order, then a footer, numbered consecutively from the base. An empty section has no rows. |
| ItemData.EmptyInputsGiveNoItems | ax-permission/src/main/java/com/ax/library/ax_permission/permission/PermissionItemData.kt:18-32 | With no permissions there are no rows at all. |
| ItemData.InitialItemsIds | ax-permission/src/main/java/com/ax/library/ax_permission/permission/PermissionItemData.kt:10-37 | The ids are exactly 0, 1, 2, ... over the whole list, whose length is the two section lengths. |
| ItemData.InitialItemsRows | ax-permission/src/main/java/com/ax/library/ax_permission/permission/PermissionItemData.kt:10-37 | Required permission k is row k+1. Optional permission k follows the required section's rows and its own header. |
| ItemData.InitialItemsRequiredFirst | ax-permission/src/main/java/com/ax/library/ax_permission/permission/PermissionItemData.kt:10-37 | A permission row is required exactly when it lies inside the first section. |
| ItemData.SectionRowsFlag | ax-permission/src/main/java/com/ax/library/ax_permission/permission/PermissionItemData.kt:20-30 | Every permission row of a section carries that section's required flag. |
| ItemData.AppendRows | ax-permission/src/main/java/com/ax/library/ax_permission/permission/PermissionItemData.kt:20-22 | The `forEach` appends exactly the section's rows, numbered on from the running index, and advances the index by the number of permissions. |
| ItemData.AppendSection | ax-permission/src/main/java/com/ax/library/ax_permission/permission/PermissionItemData.kt:18-32 | The loop appends exactly one section and advances the running index by its length. |
| ItemData.GenerateInitialItems | ax-permission/src/main/java/com/ax/library/ax_permission/permission/PermissionItemData.kt:10-37 | The running-index loops build exactly the specified list of rows. |
| ViewModel.PermissionItems | ax-permission/src/main/java/com/ax/library/ax_permission/ui/PermissionViewModel.kt:36-38 | Keeps exactly the permission rows, and nothing else. |
| ViewModel.PermissionItemsAppend | ax-permission/src/main/java/com/ax/library/ax_permission/ui/PermissionViewModel.kt:36-38 | The filter distributes over concatenation, so it keeps the rows' order. |
| ViewModel.IsAllPermissionsGranted | ax-permission/src/main/java/com/ax/library/ax_permission/ui/PermissionViewModel.kt:43-45 | True exactly when every permission row is granted. |
| ViewModel.IsRequiredPermissionsAllGranted | ax-permission/src/main/java/com/ax/library/ax_permission/ui/PermissionViewModel.kt:50-56 | True exactly when every required permission row is granted. |
| ViewModel.IsOptionalPermissionsAllGranted | ax-permission/src/main/java/com/ax/library/ax_permission/ui/PermissionViewModel.kt:61-67 | True exactly when every optional permission row is granted. |
| ViewModel.AllGrantedSplits | ax-permission/src/main/java/com/ax/library/ax_permission/ui/PermissionViewModel.kt:43-67 | Every row is granted exactly when every required row and every optional row is granted. |
| ViewModel.FirstNotGrantedPermissionItemIndex | ax-permission/src/main/java/com/ax/library/ax_permission/ui/PermissionViewModel.kt:72-75 | None exactly when every row is granted. Otherwise it is the index, among the permission rows, of the first one not granted. |
| ViewModel.Updated | ax-permission/src/main/java/com/ax/library/ax_permission/ui/PermissionViewModel.kt:89-99 | The list keeps its length. |
| ViewModel.UpdatedChangesOnlyMatchingGrants | ax-permission/src/main/java/com/ax/library/ax_permission/ui/PermissionViewModel.kt:89-99 | Only the rows whose permission equals the given one change, and only in `isGranted`. Ids and every other row are kept. |
| ViewModel.UpdatedIsIdempotent | ax-permission/src/main/java/com/ax/library/ax_permission/ui/PermissionViewModel.kt:89-99 | Applying the same update twice changes nothing more. |
| ViewModel.GrantedRowsAfterUpdate | ax-permission/src/main/java/com/ax/library/ax_permission/ui/PermissionViewModel.kt:89-99 | Granting marks every matching row granted and keeps the all-granted state. |
| ViewModel.PermissionViewModel.constructor | ax-permission/src/main/java/com/ax/library/ax_permission/ui/PermissionViewModel.kt:78-84 | The rows start as the generated initial items of the two permission lists. |
| ViewModel.PermissionViewModel.UpdatePermissionGrantedState | ax-permission/src/main/java/com/ax/library/ax_permission/ui/PermissionViewModel.kt:89-99 | The rows become `Updated` of the old rows. |
| CollectionsExts.FirstIndexWhere | ax-permission/src/main/java/com/ax/library/ax_permission/util/CollectionsExts.kt:6-16 | -1 when nothing matches. Otherwise the first matching index. |
| CollectionsExts.FirstMatchIsUnique | ax-permission/src/main/java/com/ax/library/ax_permission/util/CollectionsExts.kt:6-16 | Any index with the first-match property is the one `FirstIndexWhere` returns. |
| CollectionsExts.IndexOfFirst | ax-permission/src/main/java/com/ax/library/ax_permission/util/CollectionsExts.kt:6-16 | A negative start throws. From a valid start the result is the first match at or after it, or -1 when there is none. From 0 it is `FirstIndexWhere`. |
| Composer.MissingAppNameRejectsFirst | ax-permission/src/main/java/com/ax/library/ax_permission/ax/AxPermission.kt:239-263 | `checkAndShow` throws `IllegalStateException` exactly when no app name is set, before any permission is checked. |
| Composer.Decide | ax-permission/src/main/java/com/ax/library/ax_permission/ax/AxPermission.kt:239-263 | A rejection carries the missing-app-name error; a callback outcome carries the held callback and means every required permission is granted; a started screen carries the theme, both lists and the configuration, and means some required permission is not granted. "Granted" is `Check`, with the special check as written. |
| Composer.RequiredWriteSettingsStartsScreen | ax-permission/src/main/java/com/ax/library/ax_permission/ax/AxPermission.kt:245-263 | With an app name and the write-settings action among the required permissions, the screen is started on every device. This carries the as-written special check up to `checkAndShow`. |
| Composer.CallbackIffRequiredGranted | ax-permission/src/main/java/com/ax/library/ax_permission/ax/AxPermission.kt:245-253 | With an app name, the callback is called exactly when every required permission checks granted. It always is with no required permissions. |
| Composer.ScreenCarriesComposerState | ax-permission/src/main/java/com/ax/library/ax_permission/ax/AxPermission.kt:255-262 | Otherwise the screen starts with the theme, both lists and the configuration, and some required permission is denied. |
| Composer.AxPermissionGlobal.constructor | ax-permission/src/main/java/com/ax/library/ax_permission/ax/AxPermission.kt:35-38 | No callback, and the default configuration. |
| Composer.AxPermissionGlobal.Clear | ax-permission/src/main/java/com/ax/library/ax_permission/ax/AxPermission.kt:50-53 | Clears the callback and keeps the configuration. |
| Composer.AxPermissionComposer.constructor | ax-permission/src/main/java/com/ax/library/ax_permission/ax/AxPermission.kt:80-86 | Creating a composer clears the global callback and keeps the configuration. The theme is the default, with empty lists. |
| Composer.AxPermissionComposer.SetTheme | ax-permission/src/main/java/com/ax/library/ax_permission/ax/AxPermission.kt:80-113 | Sets the theme only. |
| Composer.AxPermissionComposer.SetOnlyDayTheme | ax-permission/src/main/java/com/ax/library/ax_permission/ax/AxPermission.kt:93-95 | Sets the Day theme only. |
| Composer.AxPermissionComposer.SetOnlyNightTheme | ax-permission/src/main/java/com/ax/library/ax_permission/ax/AxPermission.kt:102-104 | Sets the Night theme only. |
| Composer.AxPermissionComposer.SetDayNightTheme | ax-permission/src/main/java/com/ax/library/ax_permission/ax/AxPermission.kt:111-113 | Sets the DayAndNight theme only. |
| Composer.AxPermissionComposer.SetAppName | ax-permission/src/main/java/com/ax/library/ax_permission/ax/AxPermission.kt:123-125 | Changes only the configuration's app name. |
| Composer.AxPermissionComposer.SetIconPaddingsDp | ax-permission/src/main/java/com/ax/library/ax_permission/ax/AxPermission.kt:135-137 | Changes only the icon paddings. |
| Composer.AxPermissionComposer.SetCornerRadiusDp | ax-permission/src/main/java/com/ax/library/ax_permission/ax/AxPermission.kt:147-149 | Changes only the corner radius. |
| Composer.AxPermissionComposer.SetBottomSheetCornerRadiusDp | ax-permission/src/main/java/com/ax/library/ax_permission/ax/AxPermission.kt:159-161 | Changes only the bottom sheet's corner radius. |
| Composer.AxPermissionComposer.SetPrimaryColor | ax-permission/src/main/java/com/ax/library/ax_permission/ax/AxPermission.kt:171-173 | Changes only the primary colour. |
| Composer.AxPermissionComposer.SetGrantedItemBackgroundColor | ax-permission/src/main/java/com/ax/library/ax_permission/ax/AxPermission.kt:183-185 | Changes only the granted row's background colour. |
| Composer.AxPermissionComposer.SetHighlightColor | ax-permission/src/main/java/com/ax/library/ax_permission/ax/AxPermission.kt:195-197 | Changes only the highlight colour. |
| Composer.AxPermissionComposer.SetRequiredPermissions | ax-permission/src/main/java/com/ax/library/ax_permission/ax/AxPermission.kt:205-208 | The required list becomes the built list, or the builder's failure propagates and the list stays. Nothing else changes. |
| Composer.AxPermissionComposer.SetOptionalPermissions | ax-permission/src/main/java/com/ax/library/ax_permission/ax/AxPermission.kt:216-219 | The optional list becomes the built list, or the builder's failure propagates and the list stays. Nothing else changes. |
| Composer.AxPermissionComposer.SetCallback | ax-permission/src/main/java/com/ax/library/ax_permission/ax/AxPermission.kt:227-229 | Stores the callback and keeps the configuration. |
| Composer.AxPermissionComposer.CheckAndShow | ax-permission/src/main/java/com/ax/library/ax_permission/ax/AxPermission.kt:239-263 | The outcome is `Decide` on the old global state. The callback is cleared exactly when it is called, and the configuration is kept. |
| RequestHelper.OnlyTwoActionsNeedPackageUri | ax-permission/src/main/java/com/ax/library/ax_permission/permission/PermissionRequestHelper.kt:78-84 | A package URI is needed exactly for the overlay and battery-optimisation actions; the notification-listener action does not need one. |
| RequestHelper.NeedsPackageUri | ax-permission/src/main/java/com/ax/library/ax_permission/permission/PermissionRequestHelper.kt:78-84 | The overlay and battery-optimisation requests take the package URI; the notification-listener and accessibility screens do not. |
| RequestHelper.AnimationRule | ax-permission/src/main/java/com/ax/library/ax_permission/permission/PermissionRequestHelper.kt:86-98 | No animation after API 34. Up to API 34, every action except battery optimisation is animated. |
| RequestHelper.NeedsActivityAnimation | ax-permission/src/main/java/com/ax/library/ax_permission/permission/PermissionRequestHelper.kt:86-98 | An animation is used exactly at API 34 or below and for an action other than the battery-optimisation request. |
| RequestHelper.FirstIntent | ax-permission/src/main/java/com/ax/library/ax_permission/permission/PermissionRequestHelper.kt:26-31 | The first intent carries the action. It has data exactly when the action needs the package URI, and the data is that URI. |
| RequestHelper.Toggled | ax-permission/src/main/java/com/ax/library/ax_permission/permission/PermissionRequestHelper.kt:39-43 | The retry keeps the action and flips the data: it is added when missing and removed when present. |
| RequestHelper.RequestSpecialPermission | ax-permission/src/main/java/com/ax/library/ax_permission/permission/PermissionRequestHelper.kt:20-61 | One or two launch attempts. The second happens exactly when the first fails, and it is the toggled intent. |
| RequestHelper.RetryDiffersFromFirst | ax-permission/src/main/java/com/ax/library/ax_permission/permission/PermissionRequestHelper.kt:33-50 | The retry is never the same intent as the first attempt, and it opens the same action. |
| RequestHelper.RequestSpecialPermissionLegacy | ax-permission/src/main/java/com/ax/library/ax_permission/permission/PermissionRequestHelper.kt:66-73 | The legacy entry point always throws `UnsupportedOperationException`. |
| LegacySettings.CatalogueWellKeyed | ax-permission/src/main/java/kr/co/permission/ax_permission/util/AxPermissionSettings.kt:50-286 | Each catalogue entry is stored under its own permission string. |
| LegacySettings.CatalogueStartsDenied | ax-permission/src/main/java/kr/co/permission/ax_permission/util/AxPermissionSettings.kt:50-286 | Every catalogue entry starts off. |
| LegacySettings.CatalogueTypes | ax-permission/src/main/java/kr/co/permission/ax_permission/util/AxPermissionSettings.kt:50-286 | Every entry is either a settings-screen (action) entry or a runtime (access) entry. |
| LegacySettings.CatalogueMembers | ax-permission/src/main/java/kr/co/permission/ax_permission/util/AxPermissionSettings.kt:140-150 | Images, video and camera are in the catalogue; coarse location and READ_MEDIA_AUDIO are not. Instances of the catalogue's key set, kept as documentation. |
| LegacySettings.Override | ax-permission/src/main/java/kr/co/permission/ax_permission/util/AxPermissionSettings.kt:27-32 | An override changes only the title and the content. |
| LegacySettings.MergeAll | ax-permission/src/main/java/kr/co/permission/ax_permission/util/AxPermissionSettings.kt:14-48 | The catalogue keeps its keys. At most one entry is added per requested item, and every added entry is a catalogue key. |
| LegacySettings.KnownNonMedia | ax-permission/src/main/java/kr/co/permission/ax_permission/util/AxPermissionSettings.kt:36-44 | At most one kept string per requested item. |
| LegacySettings.MergeAllAppend | ax-permission/src/main/java/kr/co/permission/ax_permission/util/AxPermissionSettings.kt:14-48 | Merging a concatenation is merging the first part, then the second. |
| LegacySettings.MergeAllAround | ax-permission/src/main/java/kr/co/permission/ax_permission/util/AxPermissionSettings.kt:18-46 | The loop over a list is the loop over the part before one request, then that request, then the part after it. |
| LegacySettings.KnownNonMediaAppend | ax-permission/src/main/java/kr/co/permission/ax_permission/util/AxPermissionSettings.kt:36-44 | The kept non-media strings of a concatenation are those of each part, in order. |
| LegacySettings.MergeAllWithoutMedia | ax-permission/src/main/java/kr/co/permission/ax_permission/util/AxPermissionSettings.kt:36-44 | Once media is handled, or when none is requested, the result lists the known requested strings in request order. |
| LegacySettings.MergeOrderWithoutMedia | ax-permission/src/main/java/kr/co/permission/ax_permission/util/AxPermissionSettings.kt:14-48 | Without known media, the result lists exactly the known requested strings, in request order. |
| LegacySettings.MergeOrderWithMedia | ax-permission/src/main/java/kr/co/permission/ax_permission/util/AxPermissionSettings.kt:22-35 | The first known media request takes its place in the order. Later media requests are dropped and the other strings keep request order. |
| LegacySettings.MergeAllSingle | ax-permission/src/main/java/kr/co/permission/ax_permission/util/AxPermissionSettings.kt:22-35 | The first media request is appended and marks media as added. |
| LegacySettings.AtMostOneMediaEntry | ax-permission/src/main/java/kr/co/permission/ax_permission/util/AxPermissionSettings.kt:22-35 | The result holds at most one of images and video. The media marker is set exactly when one is there. |
| LegacySettings.KeptKeysAreRequestedAndKnown | ax-permission/src/main/java/kr/co/permission/ax_permission/util/AxPermissionSettings.kt:19-20 | Earlier entries are kept. Every new entry is a catalogue key that was requested; unknown strings are dropped. |
| LegacySettings.MergeKeepsFixedFields | ax-permission/src/main/java/kr/co/permission/ax_permission/util/AxPermissionSettings.kt:27-42 | Permission, state, type and icon of every catalogue entry are never changed, and keying is preserved. |
| LegacySettings.OverrideRule | ax-permission/src/main/java/kr/co/permission/ax_permission/util/AxPermissionSettings.kt:22-44 | A repeated media request changes nothing. Any other known request overrides a non-empty title or description and appends its key; other entries are untouched. |
| LegacySettings.UnknownIsDropped | ax-permission/src/main/java/kr/co/permission/ax_permission/util/AxPermissionSettings.kt:19-20 | A string that is not in the catalogue changes nothing. |
| LegacySettings.OverridesPersist | ax-permission/src/main/java/kr/co/permission/ax_permission/util/AxPermissionSettings.kt:27-42 | A title override stays in the catalogue: a later request without a title returns the overridden entry. |
| LegacySettings.AxPermissionSettings.constructor | ax-permission/src/main/java/kr/co/permission/ax_permission/util/AxPermissionSettings.kt:50-286 | The catalogue starts as the fixed table. |
| LegacySettings.AxPermissionSettings.SetPermission | ax-permission/src/main/java/kr/co/permission/ax_permission/util/AxPermissionSettings.kt:14-48 | The catalogue and the result are those of `MergeAll`. There is at most one record per request, and each returned record is the catalogue's current entry. |
| LegacyList.RecordToStringOmitsTitle | ax-permission/src/main/java/kr/co/permission/ax_permission/util/AxPermissionList.kt:37-39 | `toString` does not depend on the title and begins with the permission. |
| LegacyList.RecordToString | ax-permission/src/main/java/kr/co/permission/ax_permission/util/AxPermissionList.kt:37-39 | The text is 43 characters of fixed framing plus the permission and the description, so the title takes no part. |
| LegacyList.ReadTypedList | ax-permission/src/main/java/kr/co/permission/ax_permission/util/AxPermissionList.kt:46-48 | A missing, non-integer or negative count reads no records; `ListRoundTrip` shows that a written list reads back unchanged. |
| LegacyList.WriteRecord | ax-permission/src/main/java/kr/co/permission/ax_permission/util/AxPermissionList.kt:17-21 | A record is written as three parcel values. |
| LegacyList.RecordRoundTrip | ax-permission/src/main/java/kr/co/permission/ax_permission/util/AxPermissionList.kt:11-21 | Reading a written record back, anywhere in a parcel, gives the record and moves past exactly its three values. |
| LegacyList.NullReadsAsEmpty | ax-permission/src/main/java/kr/co/permission/ax_permission/util/AxPermissionList.kt:11-15 | A null title or description reads as "". |
| LegacyList.WriteTypedList | ax-permission/src/main/java/kr/co/permission/ax_permission/util/AxPermissionList.kt:66-68 | A list is a count followed by four values per record. |
| LegacyList.WriteRecordsFrom | ax-permission/src/main/java/kr/co/permission/ax_permission/util/AxPermissionList.kt:66-68 | Four values per record. |
| LegacyList.RecordsRoundTrip | ax-permission/src/main/java/kr/co/permission/ax_permission/util/AxPermissionList.kt:46-48 | Reading back the written records, anywhere in a parcel, gives the records. |
| LegacyList.ListRoundTrip | ax-permission/src/main/java/kr/co/permission/ax_permission/util/AxPermissionList.kt:46-68 | `AxPermissionList(parcel)` after `writeToParcel` gives back the same list. |
| LegacyList.AxPermissionList.constructor | ax-permission/src/main/java/kr/co/permission/ax_permission/util/AxPermissionList.kt:42-44 | A new list is empty. |
| LegacyList.AxPermissionList.FromParcel | ax-permission/src/main/java/kr/co/permission/ax_permission/util/AxPermissionList.kt:46-48 | The list is the one read from the parcel. |
| LegacyList.AxPermissionList.Add | ax-permission/src/main/java/kr/co/permission/ax_permission/util/AxPermissionList.kt:50-52 | Appends the string with an empty title and description. |
| LegacyList.AxPermissionList.AddWithDetails | ax-permission/src/main/java/kr/co/permission/ax_permission/util/AxPermissionList.kt:54-56 | Appends one record with the given fields. |
| LegacyList.AxPermissionList.GetPermissions | ax-permission/src/main/java/kr/co/permission/ax_permission/util/AxPermissionList.kt:58-60 | Returns the list. |
| LegacyList.AxPermissionList.ForEach | ax-permission/src/main/java/kr/co/permission/ax_permission/util/AxPermissionList.kt:62-64 | Applies the action to each record, in order. |
| LegacyList.AxPermissionList.WriteToParcel | ax-permission/src/main/java/kr/co/permission/ax_permission/util/AxPermissionList.kt:66-68 | Writes the typed list, which reads back as the same records. |
| LegacyCheck.IsOverlayPermissionGranted | ax-permission/src/main/java/kr/co/permission/ax_permission/util/CheckPermission.kt:55-62 | Always granted below API 23; otherwise granted exactly when overlays are allowed. |
| LegacyCheck.IsNfcPermissionGranted | ax-permission/src/main/java/kr/co/permission/ax_permission/util/CheckPermission.kt:95-106 | True exactly when the device has NFC and an adapter that is enabled. |
| LegacyCheck.IsNotificationListenerSettingsPermissionGranted | ax-permission/src/main/java/kr/co/permission/ax_permission/util/CheckPermission.kt:70-73 | Granted exactly when the package is among the enabled notification listeners. |
| LegacyCheck.IsIgnoringBatteryOptimizations | ax-permission/src/main/java/kr/co/permission/ax_permission/util/CheckPermission.kt:83-87 | Granted exactly when the power manager reports the package as ignoring battery optimisations. |
| LegacyCheck.IsWifiEnabled | ax-permission/src/main/java/kr/co/permission/ax_permission/util/CheckPermission.kt:137-140 | On exactly when the Wi-Fi manager reports Wi-Fi enabled. |
| LegacyCheck.IsUsageAccessPermissionGranted | ax-permission/src/main/java/kr/co/permission/ax_permission/util/CheckPermission.kt:148-156 | Granted exactly when the usage-stats app-op mode, from either API branch, is `MODE_ALLOWED` (0). |
| LegacyCheck.IsAccessibilityServiceEnabled | ax-permission/src/main/java/kr/co/permission/ax_permission/util/CheckPermission.kt:116-130 | The scan answers true exactly when some enabled service belongs to this package. |
| LegacyCheck.Refreshed | ax-permission/src/main/java/kr/co/permission/ax_permission/util/CheckPermission.kt:28-45 | Only the state changes. A settings record takes the system's answer; a runtime record is on exactly when it was on or is now granted. |
| LegacyCheck.RefreshAll | ax-permission/src/main/java/kr/co/permission/ax_permission/util/CheckPermission.kt:28-45 | The refresh keeps the list's length. |
| LegacyCheck.CheckSelfPermission | ax-permission/src/main/java/kr/co/permission/ax_permission/util/CheckPermission.kt:28-45 | A null list stays null; otherwise every record is refreshed in place. |
| LegacyCheck.RefreshKeepsRecords | ax-permission/src/main/java/kr/co/permission/ax_permission/util/CheckPermission.kt:28-45 | The refresh keeps the length, the order and every field except the state. |
| LegacyCheck.RefreshIsIdempotent | ax-permission/src/main/java/kr/co/permission/ax_permission/util/CheckPermission.kt:28-45 | A second refresh against the same device changes nothing. |
| LegacyCheck.RuntimeStateOnlyTurnsOn | ax-permission/src/main/java/kr/co/permission/ax_permission/util/CheckPermission.kt:38-42 | A runtime record never turns off, and it changes only when the permission is granted. |
| LegacyCheck.SettingStateFollowsDevice | ax-permission/src/main/java/kr/co/permission/ax_permission/util/CheckPermission.kt:31-37 | A settings record that the system no longer allows turns off. An instance of the `Refreshed` ensures. |
| LegacyCheck.NfcNeedsFeature | ax-permission/src/main/java/kr/co/permission/ax_permission/util/CheckPermission.kt:97-101 | Without the NFC feature the NFC record is off. An instance of the `IsNfcPermissionGranted` ensures. |
| LegacyAdapter.Locate | ax-permission/src/main/java/kr/co/permission/ax_permission/AxPermissionAdapter.kt:70-86 | A body row found by the walk lies inside its section's list, at a non-negative index when the position is at or after the start. |
| LegacyAdapter.SumSizesPrefix | ax-permission/src/main/java/kr/co/permission/ax_permission/AxPermissionAdapter.kt:27-32 | The record count of the first i headers splits into the first header and the rest. |
| LegacyAdapter.LocateSection | ax-permission/src/main/java/kr/co/permission/ax_permission/AxPermissionAdapter.kt:70-86 | Section i's header sits at its offset and its records follow it in order. |
| LegacyAdapter.LocateInverse | ax-permission/src/main/java/kr/co/permission/ax_permission/AxPermissionAdapter.kt:70-86 | Whatever the walk finds sits exactly where `LocateSection` puts it. |
| LegacyAdapter.LocateCovers | ax-permission/src/main/java/kr/co/permission/ax_permission/AxPermissionAdapter.kt:70-86 | From the start, a row is found exactly below the header count plus the record count. |
| LegacyAdapter.HeaderTypeIffHeaderBind | ax-permission/src/main/java/kr/co/permission/ax_permission/AxPermissionAdapter.kt:49-86 | The view type is HEADER exactly where the header is bound. At a non-negative position, the view type is BODY exactly where a record is bound. |
| LegacyAdapter.AxPermissionAdapter.constructor | ax-permission/src/main/java/kr/co/permission/ax_permission/AxPermissionAdapter.kt:22-24 | Empty map, no headers, count 0. |
| LegacyAdapter.AxPermissionAdapter.SetPerItemMap | ax-permission/src/main/java/kr/co/permission/ax_permission/AxPermissionAdapter.kt:27-32 | Stores the map and its key order. The count is the number of headers plus the number of records. |
| LegacyAdapter.AxPermissionAdapter.PositionsBelowCount | ax-permission/src/main/java/kr/co/permission/ax_permission/AxPermissionAdapter.kt:68-86 | Exactly the positions from 0 below `getItemCount()` hold a row. |
| LegacyAdapter.AxPermissionAdapter.GetItemViewType | ax-permission/src/main/java/kr/co/permission/ax_permission/AxPermissionAdapter.kt:70-86 | The loop answers as the walk does. A position past the end throws `IllegalArgumentException`. |
| LegacyAdapter.AxPermissionAdapter.GetItemCount | ax-permission/src/main/java/kr/co/permission/ax_permission/AxPermissionAdapter.kt:68 | In a valid adapter the count includes a row for every header; `PositionsBelowCount` shows that exactly the positions below it hold a row. |
| LegacyAdapter.AxPermissionAdapter.OnBindViewHolder | ax-permission/src/main/java/kr/co/permission/ax_permission/AxPermissionAdapter.kt:49-66 | Binds what the walk finds. The header's title is hidden exactly when its section is empty, and a negative record index throws. |
| LegacyActivity.NextIndex | ax-permission/src/main/java/kr/co/permission/ax_permission/AxPermissionActivity.kt:301-352 | The first index from the start whose record needs handling, or the end of the list. |
| LegacyActivity.NextIndexIsFirstStop | ax-permission/src/main/java/kr/co/permission/ax_permission/AxPermissionActivity.kt:301-352 | Any index with the first-stop property is `NextIndex`. |
| LegacyActivity.NextIndexIsStable | ax-permission/src/main/java/kr/co/permission/ax_permission/AxPermissionActivity.kt:301-352 | Requesting again, without advancing, stays at the same index. |
| LegacyActivity.StopMatchesIndex | ax-permission/src/main/java/kr/co/permission/ax_permission/AxPermissionActivity.kt:309-347 | The walk is idle exactly past the end of the list. A runtime request asks for the record's own access permission. |
| LegacyActivity.MarkGranted | ax-permission/src/main/java/kr/co/permission/ax_permission/AxPermissionActivity.kt:375-403 | Only the states change, and a record is on exactly when it was on or is now granted. |
| LegacyActivity.WithState | ax-permission/src/main/java/kr/co/permission/ax_permission/AxPermissionActivity.kt:452-472 | Exactly the records of the given permission take the given state; all others are kept. |
| LegacyActivity.Rows | ax-permission/src/main/java/kr/co/permission/ax_permission/AxPermissionActivity.kt:386-401 | The notified rows are consecutive positions from the base, one per record. |
| LegacyActivity.SectionsAreKeyOrdered | ax-permission/src/main/java/kr/co/permission/ax_permission/AxPermissionActivity.kt:162-172 | The adapter's header list is exactly the keys of the section map, each once. |
| LegacyActivity.NotifiedRowsShowTheirRecords | ax-permission/src/main/java/kr/co/permission/ax_permission/AxPermissionActivity.kt:386-401 | Each position the activity notifies is, in the adapter, the record it changed. |
| LegacyActivity.MarkGrantedIndexed | ax-permission/src/main/java/kr/co/permission/ax_permission/AxPermissionActivity.kt:375-403 | The indexed loop computes `MarkGranted` and the rows to notify. |
| LegacyActivity.WithStateIndexed | ax-permission/src/main/java/kr/co/permission/ax_permission/AxPermissionActivity.kt:452-472 | The indexed loop computes `WithState` and the rows to notify. |
| LegacyActivity.AxPermissionActivity.constructor | ax-permission/src/main/java/kr/co/permission/ax_permission/AxPermissionActivity.kt:113-160 | Each list is absent when its extra is absent; otherwise it is the catalogue merge of the required list, then of the optional one. The index starts at 0 with the required list active. |
| LegacyActivity.AxPermissionActivity.RequestNextPermission | ax-permission/src/main/java/kr/co/permission/ax_permission/AxPermissionActivity.kt:301-352 | The index moves to `NextIndex` of the active list, and the result is the stop found there. The lists are unchanged. |
| LegacyActivity.AxPermissionActivity.AreAllPermissionsGranted | ax-permission/src/main/java/kr/co/permission/ax_permission/AxPermissionActivity.kt:475-482 | True exactly when every required record is on; an absent list counts as granted. |
| LegacyActivity.AxPermissionActivity.UpdatePermissionStatus | ax-permission/src/main/java/kr/co/permission/ax_permission/AxPermissionActivity.kt:375-403 | Both lists are marked from the granted set, and every row is notified. |
| LegacyActivity.AxPermissionActivity.UpdateAndRefreshPermissions | ax-permission/src/main/java/kr/co/permission/ax_permission/AxPermissionActivity.kt:452-472 | Both lists set the state of the given permission, and every row is notified. |
| LegacyActivity.AxPermissionActivity.OnRequestPermissionsResult | ax-permission/src/main/java/kr/co/permission/ax_permission/AxPermissionActivity.kt:354-373 | Another request code changes nothing. For code 1001, the denied dialog shows exactly when the first result is not a grant. A grant marks both lists, reports the rows `UpdatePermissionStatus` notifies, and returns the confirm button's new visibility: shown exactly when every required record is on. A denial leaves the lists and the button unchanged. The flag is unchanged. While the required list is handled, the walk resumes past the current index and the stop is what the record at the new index asks for; otherwise the index stays and nothing is requested. |
| LegacyActivity.AxPermissionActivity.OnPermissionLauncherResult | ax-permission/src/main/java/kr/co/permission/ax_permission/AxPermissionActivity.kt:510-514 | A null permission changes nothing. Otherwise the given permission's records take the launcher's result. |
| LegacyActivity.AxPermissionActivity.RefreshBoth | ax-permission/src/main/java/kr/co/permission/ax_permission/AxPermissionActivity.kt:251-252 | Both lists are refreshed from the device. |
| LegacyActivity.AxPermissionActivity.OnPerClick | ax-permission/src/main/java/kr/co/permission/ax_permission/AxPermissionActivity.kt:250-299 | After the refresh: a settings record opens its screen, and a granted runtime record shows the already-granted dialog. A runtime record found in a list moves the walk to its first position there, the required list first, and requests it. In every other case the flag is kept and the walk resumes from the current index, stopping where `StopAt` says. |
| LegacyActivity.AxPermissionActivity.DismissActionDialog | ax-permission/src/main/java/kr/co/permission/ax_permission/AxPermissionActivity.kt:339-343 | Declining the dialog skips the record: the lists and the flag are unchanged, the walk resumes after the current index, and the stop is what the record at the new index asks for. |
| LegacyActivity.AxPermissionActivity.CheckPermission | ax-permission/src/main/java/kr/co/permission/ax_permission/AxPermissionActivity.kt:485-508 | Refreshes both lists. The button shows exactly when every required record is on. The screen finishes granted exactly for the "check" state with the button option. Otherwise "check" resumes the walk with the flag unchanged, and returns the stop at the new index. |
| LegacyActivity.MarkGrantedOnlyTurnsOn | ax-permission/src/main/java/kr/co/permission/ax_permission/AxPermissionActivity.kt:375-403 | Marking never turns a record off, and marking twice is marking once. |
| LegacyActivity.WithStateIsLocal | ax-permission/src/main/java/kr/co/permission/ax_permission/AxPermissionActivity.kt:452-472 | Records of other permissions are untouched, and setting the same state twice is setting it once. |
| DemoPermissionHelper.Without | app/src/main/java/com/ax/library/ax_permission/app/aa/PermissionHelper.kt:16-18 | Exactly the other elements, and never more than the input. |
| DemoPermissionHelper.GetLocationPermissions | app/src/main/java/com/ax/library/ax_permission/app/aa/PermissionHelper.kt:14-26 | The foreground group without background location, plus background location when asked for at API 29 or above. |
| DemoPermissionHelper.LocationPermissionsOrder | app/src/main/java/com/ax/library/ax_permission/app/aa/PermissionHelper.kt:14-26 | Fine, then coarse, and background location appears exactly when asked for at API 29 or above. Instances of the `GetLocationPermissions` ensures, kept as documentation. |
| DemoPermissionHelper.GetStoragePermissions | app/src/main/java/com/ax/library/ax_permission/app/aa/PermissionHelper.kt:33-49 | The legacy storage pair below API 33. From API 33 on, the requested media permissions in images, video, audio order. |
| DemoPermissionHelper.StorageSelectsRequested | app/src/main/java/com/ax/library/ax_permission/app/aa/PermissionHelper.kt:38-44 | Each media permission is present exactly when it is requested, and none requested gives an empty list. |
| DemoPermissionHelper.BluetoothByGeneration | app/src/main/java/com/ax/library/ax_permission/app/aa/PermissionHelper.kt:56-70 | Two permissions: scan and connect from API 31 on, and Bluetooth and admin before it. |
| DemoPermissionHelper.GetBluetoothPermissions | app/src/main/java/com/ax/library/ax_permission/app/aa/PermissionHelper.kt:56-70 | Two distinct permissions, and the scan permission is among them exactly from API 31 on. |

## Left out

- Logging, and the `try`/`catch` blocks around system queries. Each query is a field of the device value, so the model has no exception path in which a query fails and is treated as `false`.
- Display-metric conversion (`.dp`) in the composer's setters. The configuration stores the raw value.
- `toString` of `Permission.Runtime`, `Permission.Special` and `AxPermissionList`. These are diagnostic strings. The record's `toString`, which leaves out the title, is modelled.
- The API-level choice between `unsafeCheckOpNoThrow` and `checkOpNoThrow` for usage access. Either call gives an app-ops mode, which is one device field.
- The coroutines and `StateFlow` timing of the view model and the composer. Each update is applied at once.
- Object identity in the legacy screen. In the source, `setPermission` hands out the catalogue's own mutable records; the required and optional lists share them with the catalogue; and the adapter's map holds copies of the lists made by `toMutableList()`. The model works on values. A state change made to a list does not reach the catalogue, and when the lists change the adapter's sections are derived from them again.
- Null entries of `readTypedList`. A parcel written by `writeTypedList` holds no null records, and only such parcels are modelled.
- The user interface of the legacy screen: dialogs, toasts, `finish`, the settings launcher and the result handler that launches it, the back-press handling and the confirm button's click. The model keeps only their effect on the lists and on the walk index.
- The iteration order of the `HashMap` that holds the two section titles. It is a parameter of `SetPerItemMap`. The activity passes it as a constant, required section first, which is the order Java's hash buckets give for the two titles.
- The `ClassCastException` of the adapter's view-holder casts. View holders are not modelled.
- Kotlin `Int` overflow of positions, indices and counters is not modelled. Lists are far below 2^31 entries.
- `Permission2.getDefaultResources()` and `getDefaultResourcesOrThrow()` are not part of this model. They are parameters of the `WithResources` functions.
- RequestHelper.RequestSpecialPermission takes the settings action from the special permission's `action` field. The source reads `permission.constant`, which `Permission.Special` does not declare. Its `settingsAction` is the only string it carries.
- The resource contents of the default tables, meaning the actual drawables and strings. They are named references (`R("...")`).
- Kotlin's `Parcel` encoding of strings and lengths on the wire. A parcel is a sequence of integers and nullable strings.

## Findings

| source | as written | input that shows it | evidently intended | confidence | as-written member | corrected member |
|---|---|---|---|---|---|---|
| ax-permission/src/main/java/com/ax/library/ax_permission/permission/PermissionChecker.kt:62-63 | `checkSpecialPermission` grants write-settings only for `Manifest.permission.WRITE_SETTINGS`, the manifest string `android.permission.WRITE_SETTINGS`. The builder never makes that string a special permission, because it does not start with `android.settings.`. | The special permission `Settings.ACTION_MANAGE_WRITE_SETTINGS`, which has an entry in the special defaults table, on a device where `Settings.System.canWrite` is true. It falls to `else -> false`, so it is reported denied. | The write-settings action is granted exactly when the app can write system settings. | not executed | Checker.WriteSettingsActionAlwaysDeniedAsWritten | Checker.CheckSpecialPermission |

The library's flow (`Checker.Check` and everything built on it) keeps the code as written. `Checker.CheckCorrected` is `check` with the correction, and `Checker.CheckCorrectionOnlyTouchesWriteSettings` states exactly where the two differ.
