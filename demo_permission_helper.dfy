/**
 * The demo application's permission lists (app/.../aa/PermissionHelper.kt):
 * location, storage and Bluetooth permissions chosen by SDK level. The SDK
 * level is a parameter.
 */
module DemoPermissionHelper {
  import opened Android

  /** `RuntimePermissionGroups.LOCATION`. */
  const LOCATION: seq<string> := [ACCESS_FINE_LOCATION, ACCESS_COARSE_LOCATION, ACCESS_BACKGROUND_LOCATION]

  /** `RuntimePermissionGroups.STORAGE_LEGACY`. */
  const STORAGE_LEGACY: seq<string> := [READ_EXTERNAL_STORAGE, WRITE_EXTERNAL_STORAGE]

  /** `filter { it != x }`: the elements other than `x`, in order. */
  function Without(list: seq<string>, x: string): (r: seq<string>)
    ensures x !in r
    ensures forall y :: y in r <==> y in list && y != x
    ensures |r| <= |list|
    decreases |list|
  {
    if list == [] then []
    else Without(list[..|list| - 1], x) + (if list[|list| - 1] != x then [list[|list| - 1]] else [])
  }

  /** `getLocationPermissions(includeBackground)` at SDK level `sdk`. */
  method GetLocationPermissions(sdk: int, includeBackground: bool) returns (permissions: seq<string>)
    ensures permissions == Without(LOCATION, ACCESS_BACKGROUND_LOCATION) +
      (if includeBackground && sdk >= Q then [ACCESS_BACKGROUND_LOCATION] else [])
  {
    permissions := [];
    var i := 0;
    while i < |LOCATION|
      invariant 0 <= i <= |LOCATION|
      invariant permissions == Without(LOCATION[..i], ACCESS_BACKGROUND_LOCATION)
    {
      assert LOCATION[..i + 1][..i] == LOCATION[..i];
      if LOCATION[i] != ACCESS_BACKGROUND_LOCATION {
        permissions := permissions + [LOCATION[i]];
      }
      i := i + 1;
    }
    assert LOCATION[..i] == LOCATION;
    if includeBackground && sdk >= Q {
      permissions := permissions + [ACCESS_BACKGROUND_LOCATION];
    }
  }

  /**
   * The location list in full: fine then coarse, and the background
   * permission last exactly when it is asked for at API 29 or above.
   */
  lemma LocationPermissionsOrder(sdk: int, includeBackground: bool)
    ensures Without(LOCATION, ACCESS_BACKGROUND_LOCATION) == [ACCESS_FINE_LOCATION, ACCESS_COARSE_LOCATION]
    ensures ACCESS_BACKGROUND_LOCATION in
      Without(LOCATION, ACCESS_BACKGROUND_LOCATION) + (if includeBackground && sdk >= Q then [ACCESS_BACKGROUND_LOCATION] else [])
      <==> includeBackground && sdk >= Q
  {
    assert ACCESS_FINE_LOCATION[26] != ACCESS_BACKGROUND_LOCATION[26];
    assert ACCESS_COARSE_LOCATION[26] != ACCESS_BACKGROUND_LOCATION[26];
    var l1, l2 := [ACCESS_FINE_LOCATION], [ACCESS_FINE_LOCATION, ACCESS_COARSE_LOCATION];
    assert l1[..0] == [] && l2[..1] == l1 && LOCATION[..2] == l2;
    assert Without(l1, ACCESS_BACKGROUND_LOCATION) == l1;
    assert Without(l2, ACCESS_BACKGROUND_LOCATION) == l2;
  }

  /** `getStoragePermissions(needImages, needVideos, needAudio)` at SDK level `sdk`. */
  method GetStoragePermissions(sdk: int, needImages: bool, needVideos: bool, needAudio: bool) returns (r: seq<string>)
    ensures sdk < TIRAMISU ==> r == STORAGE_LEGACY
    ensures sdk >= TIRAMISU ==>
      r == (if needImages then [READ_MEDIA_IMAGES] else []) +
        (if needVideos then [READ_MEDIA_VIDEO] else []) + (if needAudio then [READ_MEDIA_AUDIO] else [])
  {
    if sdk >= TIRAMISU {
      r := [];
      if needImages {
        r := r + [READ_MEDIA_IMAGES];
      }
      if needVideos {
        r := r + [READ_MEDIA_VIDEO];
      }
      if needAudio {
        r := r + [READ_MEDIA_AUDIO];
      }
    } else {
      r := STORAGE_LEGACY;
    }
  }

  /** At API 33 and above each media permission is in the list exactly when it is asked for; nothing asked gives none. */
  lemma StorageSelectsRequested(needImages: bool, needVideos: bool, needAudio: bool)
    ensures var r := (if needImages then [READ_MEDIA_IMAGES] else []) +
      (if needVideos then [READ_MEDIA_VIDEO] else []) + (if needAudio then [READ_MEDIA_AUDIO] else []);
      (READ_MEDIA_IMAGES in r <==> needImages) && (READ_MEDIA_VIDEO in r <==> needVideos) &&
      (READ_MEDIA_AUDIO in r <==> needAudio) && (r == [] <==> !needImages && !needVideos && !needAudio)
  {
    assert READ_MEDIA_IMAGES[30] != READ_MEDIA_VIDEO[30] && READ_MEDIA_IMAGES[30] != READ_MEDIA_AUDIO[30];
    assert READ_MEDIA_VIDEO[30] != READ_MEDIA_AUDIO[30];
  }

  /** `getBluetoothPermissions()` at SDK level `sdk`. */
  function GetBluetoothPermissions(sdk: int): (r: seq<string>)
    ensures |r| == 2 && r[0] != r[1]
    ensures sdk >= S <==> BLUETOOTH_SCAN in r
  {
    if sdk >= S then [BLUETOOTH_SCAN, BLUETOOTH_CONNECT] else [BLUETOOTH, BLUETOOTH_ADMIN]
  }

  /**
   * Exactly one generation of Bluetooth permissions is asked for: the
   * nearby-devices pair from API 31 on, the pre-12 pair before it.
   */
  lemma BluetoothByGeneration(sdk: int)
    ensures |GetBluetoothPermissions(sdk)| == 2
    ensures BLUETOOTH_SCAN in GetBluetoothPermissions(sdk) <==> sdk >= S
    ensures BLUETOOTH_CONNECT in GetBluetoothPermissions(sdk) <==> sdk >= S
    ensures BLUETOOTH in GetBluetoothPermissions(sdk) <==> sdk < S
    ensures BLUETOOTH_ADMIN in GetBluetoothPermissions(sdk) <==> sdk < S
  {
    assert |BLUETOOTH| == 28 && |BLUETOOTH_SCAN| == 33 && |BLUETOOTH_ADMIN| == 34 && |BLUETOOTH_CONNECT| == 36;
  }
}
