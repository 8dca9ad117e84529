/**
 * The catalogue of the legacy library (kr/.../util/AxPermissionSettings.kt):
 * a fixed table from permission string or settings action to its display
 * record, and `setPermission`, which turns a request list into the records
 * to show. Unknown strings are dropped, the photo and video permissions
 * share one record, and a non-empty title or description in the request
 * overrides the record's own.
 */
module LegacySettings {
  import opened Android
  import opened Permissions
  import opened LegacyList

  /** `AxPermissionModel`: what one row of the legacy screen shows. */
  datatype AxPermissionModel = AxPermissionModel(
    perTitle: string, perContent: string, permission: string, perState: bool, perType: string, perIcon: ResId)

  /** `perType` of an entry granted through a settings screen. */
  const ACTION_TYPE: string := "action"
  /** `perType` of an entry granted through the runtime dialog. */
  const ACCESS_TYPE: string := "access"

  /** The marker `setPermission` records once the shared media record is in the output. */
  const READ_MEDIA_MARKER: string := "READ_MEDIA"

  /** A catalogue record, not yet granted. */
  function Entry(title: string, content: string, permission: string, perType: string, icon: ResId): AxPermissionModel {
    AxPermissionModel(title, content, permission, false, perType, icon)
  }

  /** The `perMap` that `init` fills. */
  const Catalogue: map<string, AxPermissionModel> := map[
    ACTION_MANAGE_OVERLAY_PERMISSION := Entry("앱 위에 그리기",
      "앱이 다른 앱 위에 표시되도록 허용하여, 더욱 편리한 사용자 경험을 제공합니다.",
      ACTION_MANAGE_OVERLAY_PERMISSION, ACTION_TYPE, R("drawable.android_draw")),
    ACTION_IGNORE_BATTERY_OPTIMIZATION_SETTINGS := Entry("배터리 최적화 무시 설정",
      "앱이 백그라운드에서 원활하게 실행될 수 있도록 배터리 최적화에서 제외하여, 실시간 알림이나 업데이트 등을 놓치지 않도록 합니다.",
      ACTION_IGNORE_BATTERY_OPTIMIZATION_SETTINGS, ACTION_TYPE, R("drawable.ignore_battery")),
    ACTION_NFC_SETTINGS := Entry("NFC 설정",
      "NFC 기능을 사용하여 간편하게 기기 간 데이터를 주고받거나 결제 등을 할 수 있도록 합니다.",
      ACTION_NFC_SETTINGS, ACTION_TYPE, R("drawable.android_nfc")),
    ACTION_ACCESSIBILITY_SETTINGS := Entry("접근성 설정",
      "앱이 시스템 설정에 접근하여 사용자의 접근성을 향상시키는 기능을 제공합니다. 예를 들어, 시각 장애인을 위한 화면 읽기 기능을 지원하거나, 특정 기능을 자동화할 수 있습니다.",
      ACTION_ACCESSIBILITY_SETTINGS, ACTION_TYPE, R("drawable.android_access")),
    CHANGE_WIFI_STATE := Entry("WiFi 상태 변경",
      "WiFi 상태를 변경하기 위해 필요한 권한입니다.",
      CHANGE_WIFI_STATE, ACTION_TYPE, R("drawable.android_wifi")),
    ACTION_NOTIFICATION_LISTENER_SETTINGS := Entry("알람 접근 설정",
      "앱이 알림을 접근하고 관리하기 위해 필요한 권한입니다.이 권한을 통해 앱은 다른 앱에서 오는 알림을 읽고, 특정 알림에 기반한 자동 응답 또는 작업을 수행할 수 있습니다.",
      ACTION_NOTIFICATION_LISTENER_SETTINGS, ACTION_TYPE, R("drawable.android_alarm")),
    ACTION_USAGE_ACCESS_SETTINGS := Entry("사용정보 접근 설정",
      "스마트폰 사용 정보를 읽어오기 위해 사용정보 접근 권한이 필요합니다. \n 권한을 동의하지 않을 경우, 스마트폰 사용정보 를 읽어오실 수 없습니다.",
      ACTION_USAGE_ACCESS_SETTINGS, ACTION_TYPE, R("drawable.android_condition")),
    CALL_PHONE := Entry("전화 걸기",
      "앱이 사용자의 기기에서 직접 전화를 걸 수 있도록 허용하는 권한입니다. 예를 들어, 저장된 연락처에 바로 전화를 걸거나, 특정 번호로 자동 연결하는 기능을 사용할 수 있습니다.",
      CALL_PHONE, ACCESS_TYPE, Literal(0)),
    POST_NOTIFICATIONS := Entry("알림",
      "앱이 사용자에게 중요한 정보를 알리기 위해 알림을 표시할 수 있도록 허용하는 권한입니다. 이 권한을 통해 새로운 메시지, 이벤트, 업데이트 등 중요한 정보를 알림으로 전달합니다. 예를 들어, 새로운 메시지가 도착했을 때 알림창을 통해 알려줍니다.",
      POST_NOTIFICATIONS, ACCESS_TYPE, Literal(0)),
    PACKAGE_USAGE_STATS := Entry("사용자 기기 상태 접근",
      "앱이 사용자가 설치한 다른 앱들의 사용 시간, 빈도 등의 통계 정보를 수집할 수 있도록 허용하는 권한입니다. 이 권한을 통해 사용자의 앱 사용 패턴을 분석하여 더욱 개인화된 서비스를 제공합니다. 예를 들어, 사용자가 자주 사용하는 앱을 기반으로 맞춤형 추천 기능을 제공할 수 있습니다.",
      PACKAGE_USAGE_STATS, ACCESS_TYPE, Literal(0)),
    CAMERA := Entry("카메라",
      "앱이 카메라를 사용하여 사진이나 동영상을 촬영하거나 스캔 기능을 제공하기 위해 필요한 권한입니다.",
      CAMERA, ACCESS_TYPE, Literal(0)),
    WRITE_EXTERNAL_STORAGE := Entry("저장소 쓰기",
      "앱이 사용자의 사진, 동영상, 파일 등을 저장하거나 불러오기 위해 필요한 권한입니다. 예를 들어, 갤러리 앱에서 사진을 편집하거나, 파일 관리 앱에서 파일을 이동할 때 사용됩니다.",
      WRITE_EXTERNAL_STORAGE, ACCESS_TYPE, Literal(0)),
    READ_EXTERNAL_STORAGE := Entry("저장소 읽기",
      "앱이 사용자의 사진, 동영상, 파일 등을 저장하거나 불러오기 위해 필요한 권한입니다. 예를 들어, 갤러리 앱에서 사진을 편집하거나, 파일 관리 앱에서 파일을 이동할 때 사용됩니다.",
      READ_EXTERNAL_STORAGE, ACCESS_TYPE, Literal(0)),
    READ_MEDIA_IMAGES := Entry("사진 및 동영상",
      "앱이 사용자의 사진이나 동영상 파일을 읽어서 보여주거나 편집하기 위해 필요한 권한입니다.",
      READ_MEDIA_IMAGES, ACCESS_TYPE, Literal(0)),
    READ_MEDIA_VIDEO := Entry("사진 및 동영상",
      "앱이 사용자의 사진이나 동영상 파일을 읽어서 보여주거나 편집하기 위해 필요한 권한입니다.",
      READ_MEDIA_VIDEO, ACCESS_TYPE, Literal(0)),
    VIBRATE := Entry("진동 사용",
      "앱이 진동 기능을 사용하여 알림이나 사용자에게 특정 상황을 알리기 위해 필요한 권한입니다.",
      VIBRATE, ACCESS_TYPE, Literal(0)),
    RECORD_AUDIO := Entry("오디오",
      "앱이 마이크를 사용하여 음성을 녹음하거나 음성 인식 기능을 제공하기 위해 필요한 권한입니다.",
      RECORD_AUDIO, ACCESS_TYPE, Literal(0)),
    READ_PHONE_NUMBERS := Entry("전화번호 가져오기",
      "앱이 사용자의 전화번호 정보를 읽거나 통화 상태를 확인하여 관련 기능을 제공하기 위해 필요한 권한입니다.",
      READ_PHONE_NUMBERS, ACCESS_TYPE, Literal(0)),
    READ_PHONE_STATE := Entry("전화번호 정보 읽기",
      "앱이 사용자의 전화번호 정보를 읽거나 통화 상태를 확인하여 관련 기능을 제공하기 위해 필요한 권한입니다.",
      READ_PHONE_STATE, ACCESS_TYPE, Literal(0)),
    ACCESS_MEDIA_LOCATION := Entry("미디어 위치 접근",
      "앱이 사용자의 정확한 위치 정보를 얻어서 위치 기반 서비스를 제공하기 위해 필요한 권한입니다.",
      ACCESS_MEDIA_LOCATION, ACCESS_TYPE, Literal(0)),
    BLUETOOTH_CONNECT := Entry("블루투스 연결",
      "앱이 블루투스 기능을 사용하여 다른 기기와 연결하거나 데이터를 주고받기 위해 필요한 권한입니다.",
      BLUETOOTH_CONNECT, ACCESS_TYPE, Literal(0)),
    BLUETOOTH_SCAN := Entry("블루투스 스캔",
      "앱이 블루투스 기능을 사용하여 다른 기기와 연결하거나 데이터를 주고받기 위해 필요한 권한입니다.",
      BLUETOOTH_SCAN, ACCESS_TYPE, Literal(0)),
    BLUETOOTH_ADMIN := Entry("블루투스 연결",
      "앱이 블루투스 기능을 사용하여 다른 기기와 연결하거나 데이터를 주고받기 위해 필요한 권한입니다.",
      BLUETOOTH_ADMIN, ACCESS_TYPE, Literal(0)),
    BLUETOOTH := Entry("블루투스 스캔",
      "앱이 블루투스 기능을 사용하여 다른 기기와 연결하거나 데이터를 주고받기 위해 필요한 권한입니다.",
      BLUETOOTH, ACCESS_TYPE, Literal(0)),
    READ_CONTACTS := Entry("연락처 읽기",
      "연락처 정보를 읽기 위해 필요한 권한입니다.",
      READ_CONTACTS, ACCESS_TYPE, Literal(0)),
    SEND_SMS := Entry("SMS 전송",
      "앱이 사용자의 기기에서 SMS 메시지를 보낼 수 있도록 허용하는 권한입니다. 예를 들어, 문자 메시지로 인증번호를 받거나 친구에게 메시지를 보낼 수 있습니다.",
      SEND_SMS, ACCESS_TYPE, Literal(0)),
    MODIFY_AUDIO_SETTINGS := Entry("오디오 설정 수정",
      "앱이 시스템의 오디오 설정을 변경하기 위해 필요한 권한입니다.",
      MODIFY_AUDIO_SETTINGS, ACCESS_TYPE, Literal(0)),
    ACCESS_NOTIFICATION_POLICY := Entry("알림 정책 접근",
      "알림 정책에 접근하기 위해 필요한 권한입니다.",
      ACCESS_NOTIFICATION_POLICY, ACCESS_TYPE, Literal(0)),
    WRITE_SETTINGS := Entry("설정 쓰기",
      "앱이 시스템 알림 설정을 변경하거나 시스템 설정에 접근하여 특정 기능을 수행하기 위해 필요한 권한입니다.\n",
      WRITE_SETTINGS, ACTION_TYPE, Literal(0)),
    ACCESS_WIFI_STATE := Entry("WiFi 상태 접근",
      "앱이 Wi-Fi 연결 상태를 확인하여 더욱 안정적인 서비스를 제공하기 위해 필요한 권한입니다.",
      ACCESS_WIFI_STATE, ACCESS_TYPE, Literal(0)),
    ACTIVITY_RECOGNITION := Entry("활동 인식",
      "앱이 사용자의 활동을 인식하여 맞춤형 서비스를 제공하기 위해 필요한 권한입니다.",
      ACTIVITY_RECOGNITION, ACCESS_TYPE, Literal(0)),
    SET_ALARM := Entry("알람 설정",
      "앱이 사용자 기기에서 알람을 설정하거나 정확한 시간에 작업을 예약할 수 있도록 허용하는 권한입니다. 이 권한을 통해 알람, 타이머, 일정 관리 등의 기능을 제공합니다.",
      SET_ALARM, ACCESS_TYPE, Literal(0)),
    SCHEDULE_EXACT_ALARM := Entry("정확한 알람 일정",
      "앱이 사용자 기기에서 알람을 설정하거나 정확한 시간에 작업을 예약할 수 있도록 허용하는 권한입니다. 이 권한을 통해 알람, 타이머, 일정 관리 등의 기능을 제공합니다.",
      SCHEDULE_EXACT_ALARM, ACCESS_TYPE, Literal(0)),
    ACCESS_FINE_LOCATION := Entry("위치 정보",
      "앱이 사용자의 정확한 위치 정보를 얻어서 위치 기반 서비스를 제공하기 위해 필요한 권한입니다.",
      ACCESS_FINE_LOCATION, ACCESS_TYPE, Literal(0))
  ]

  /** Every record is filed under its own permission string. */
  predicate WellKeyed(perMap: map<string, AxPermissionModel>) {
    forall k :: k in perMap ==> perMap[k].permission == k
  }

  lemma CatalogueWellKeyed()
    ensures WellKeyed(Catalogue)
  {
  }

  lemma CatalogueStartsDenied()
    ensures forall k :: k in Catalogue ==> !Catalogue[k].perState
  {
  }

  lemma CatalogueTypes()
    ensures forall k :: k in Catalogue ==> Catalogue[k].perType == ACTION_TYPE || Catalogue[k].perType == ACCESS_TYPE
  {
  }

  lemma CatalogueMembers()
    ensures READ_MEDIA_IMAGES in Catalogue && READ_MEDIA_VIDEO in Catalogue && CAMERA in Catalogue
    ensures ACCESS_COARSE_LOCATION !in Catalogue && READ_MEDIA_AUDIO !in Catalogue
  {
  }

  predicate IsMediaPermission(permission: string) {
    permission == READ_MEDIA_IMAGES || permission == READ_MEDIA_VIDEO
  }

  /** A catalogue record after a request's overrides: only a non-empty title or description replaces the record's own. */
  function Override(m: AxPermissionModel, data: AxPermission): (r: AxPermissionModel)
    ensures r.permission == m.permission && r.perState == m.perState && r.perType == m.perType && r.perIcon == m.perIcon
  {
    m.(perTitle := if |data.title| > 0 then data.title else m.perTitle,
       perContent := if |data.description| > 0 then data.description else m.perContent)
  }

  /** The variables of `setPermission`: the catalogue, the keys of `perData` so far and `addedPermissions`. */
  datatype MergeState = MergeState(perMap: map<string, AxPermissionModel>, keys: seq<string>, addedPermissions: set<string>)

  /** The loop body of `setPermission` for one request. */
  function Step(s: MergeState, data: AxPermission): MergeState {
    var k := data.permission;
    if k !in s.perMap then s
    else if IsMediaPermission(k) then
      if READ_MEDIA_MARKER in s.addedPermissions then s
      else MergeState(s.perMap[k := Override(s.perMap[k], data)], s.keys + [k], s.addedPermissions + {READ_MEDIA_MARKER})
    else MergeState(s.perMap[k := Override(s.perMap[k], data)], s.keys + [k], s.addedPermissions)
  }

  /** The whole loop over the request list, in order. */
  function MergeAll(s: MergeState, list: seq<AxPermission>): (r: MergeState)
    ensures r.perMap.Keys == s.perMap.Keys
    ensures |s.keys| <= |r.keys| <= |s.keys| + |list|
    ensures KeysKnown(s) ==> KeysKnown(r)
    decreases |list|
  {
    if list == [] then s else Step(MergeAll(s, list[..|list| - 1]), list[|list| - 1])
  }

  /** Every kept key is a catalogue key. */
  predicate KeysKnown(s: MergeState) {
    forall i :: 0 <= i < |s.keys| ==> s.keys[i] in s.perMap
  }

  function Start(perMap: map<string, AxPermissionModel>): MergeState {
    MergeState(perMap, [], {})
  }

  /** `perData`: each kept key's catalogue record as it stands once the loop is done. */
  function Entries(s: MergeState): seq<AxPermissionModel>
    requires KeysKnown(s)
  {
    seq(|s.keys|, i requires 0 <= i < |s.keys| => s.perMap[s.keys[i]])
  }

  /** The keys a list keeps when no media record can be added: the known, non-media strings, in order, duplicates kept. */
  function KnownNonMedia(list: seq<AxPermission>, known: set<string>): (r: seq<string>)
    ensures |r| <= |list|
    decreases |list|
  {
    if list == [] then []
    else
      var k := list[|list| - 1].permission;
      KnownNonMedia(list[..|list| - 1], known) + (if k in known && !IsMediaPermission(k) then [k] else [])
  }

  predicate NoKnownMedia(list: seq<AxPermission>, known: set<string>) {
    forall j :: 0 <= j < |list| ==> !(list[j].permission in known && IsMediaPermission(list[j].permission))
  }

  /** Running the loop on a concatenation is running it on each part in turn. */
  lemma {:induction false} MergeAllAppend(s: MergeState, a: seq<AxPermission>, b: seq<AxPermission>)
    ensures MergeAll(s, a + b) == MergeAll(MergeAll(s, a), b)
    decreases |b|
  {
    if b == [] {
      assert a + b == a;
    } else {
      assert (a + b)[..|a + b| - 1] == a + b[..|b| - 1];
      assert (a + b)[|a + b| - 1] == b[|b| - 1];
      MergeAllAppend(s, a, b[..|b| - 1]);
    }
  }

  lemma {:induction false} KnownNonMediaAppend(a: seq<AxPermission>, b: seq<AxPermission>, known: set<string>)
    ensures KnownNonMedia(a + b, known) == KnownNonMedia(a, known) + KnownNonMedia(b, known)
    decreases |b|
  {
    if b == [] {
      assert a + b == a;
    } else {
      assert (a + b)[..|a + b| - 1] == a + b[..|b| - 1];
      assert (a + b)[|a + b| - 1] == b[|b| - 1];
      KnownNonMediaAppend(a, b[..|b| - 1], known);
    }
  }

  /**
   * Once the media record is in (or with no known media string ahead), the
   * loop appends exactly the known non-media strings and the media marker
   * stays as it was.
   */
  lemma {:induction false} MergeAllWithoutMedia(s: MergeState, list: seq<AxPermission>)
    requires READ_MEDIA_MARKER in s.addedPermissions || NoKnownMedia(list, s.perMap.Keys)
    ensures MergeAll(s, list).keys == s.keys + KnownNonMedia(list, s.perMap.Keys)
    ensures MergeAll(s, list).addedPermissions == s.addedPermissions
    decreases |list|
  {
    if list != [] {
      var init := list[..|list| - 1];
      assert NoKnownMedia(list, s.perMap.Keys) ==> NoKnownMedia(init, s.perMap.Keys);
      MergeAllWithoutMedia(s, init);
      var last := list[|list| - 1];
      var mid := MergeAll(s, init);
      if last.permission in mid.perMap && IsMediaPermission(last.permission) {
        assert READ_MEDIA_MARKER in mid.addedPermissions;
      }
    }
  }

  /** With no known photo or video string, the kept keys are the known strings, in input order, duplicates kept. */
  lemma MergeOrderWithoutMedia(perMap: map<string, AxPermissionModel>, list: seq<AxPermission>)
    requires NoKnownMedia(list, perMap.Keys)
    ensures MergeAll(Start(perMap), list).keys == KnownNonMedia(list, perMap.Keys)
  {
    MergeAllWithoutMedia(Start(perMap), list);
  }

  /**
   * With a known photo or video string at `m` and none before it, the one
   * media record sits where that string occurred, between the known
   * non-media strings before and after it; later media strings are dropped.
   */
  lemma MergeOrderWithMedia(perMap: map<string, AxPermissionModel>, list: seq<AxPermission>, m: nat)
    requires m < |list| && list[m].permission in perMap && IsMediaPermission(list[m].permission)
    requires NoKnownMedia(list[..m], perMap.Keys)
    ensures MergeAll(Start(perMap), list).keys
      == KnownNonMedia(list[..m], perMap.Keys) + [list[m].permission] + KnownNonMedia(list[m + 1..], perMap.Keys)
  {
    var s0 := Start(perMap);
    var before, rest := list[..m], list[m + 1..];
    var s1 := MergeAll(s0, before);
    assert s1.keys == KnownNonMedia(before, perMap.Keys) && READ_MEDIA_MARKER !in s1.addedPermissions by {
      MergeAllWithoutMedia(s0, before);
    }
    var s2 := MergeAll(s1, [list[m]]);
    assert s2.keys == s1.keys + [list[m].permission] && READ_MEDIA_MARKER in s2.addedPermissions by {
      MergeAllSingle(s1, list[m]);
    }
    assert MergeAll(s2, rest).keys == s2.keys + KnownNonMedia(rest, perMap.Keys) by {
      MergeAllWithoutMedia(s2, rest);
    }
    assert MergeAll(s0, list) == MergeAll(s2, rest) by {
      MergeAllAround(s0, list, m);
    }
  }

  /** Running the loop around request `m` is running it on the part before, on request `m`, then on the part after. */
  lemma MergeAllAround(s: MergeState, list: seq<AxPermission>, m: nat)
    requires m < |list|
    ensures MergeAll(s, list) == MergeAll(MergeAll(MergeAll(s, list[..m]), [list[m]]), list[m + 1..])
  {
    assert list[..m + 1] == list[..m] + [list[m]];
    assert list == list[..m + 1] + list[m + 1..];
    MergeAllAppend(s, list[..m], [list[m]]);
    MergeAllAppend(s, list[..m + 1], list[m + 1..]);
  }

  /** The first accepted photo or video request: its key is appended and the marker set. */
  lemma MergeAllSingle(s: MergeState, data: AxPermission)
    requires data.permission in s.perMap && IsMediaPermission(data.permission) && READ_MEDIA_MARKER !in s.addedPermissions
    ensures MergeAll(s, [data]).keys == s.keys + [data.permission]
    ensures READ_MEDIA_MARKER in MergeAll(s, [data]).addedPermissions
    ensures MergeAll(s, [data]).perMap.Keys == s.perMap.Keys
  {
    assert [data][..0] == [];
  }

  /** At most one media record comes out, and the marker is set exactly when it did. */
  lemma {:induction false} AtMostOneMediaEntry(perMap: map<string, AxPermissionModel>, list: seq<AxPermission>)
    ensures var keys := MergeAll(Start(perMap), list).keys;
      forall i, j :: 0 <= i < |keys| && 0 <= j < |keys| && IsMediaPermission(keys[i]) && IsMediaPermission(keys[j]) ==> i == j
    ensures var r := MergeAll(Start(perMap), list);
      READ_MEDIA_MARKER in r.addedPermissions <==> exists i :: 0 <= i < |r.keys| && IsMediaPermission(r.keys[i])
    decreases |list|
  {
    if list != [] {
      var init := list[..|list| - 1];
      AtMostOneMediaEntry(perMap, init);
      var mid := MergeAll(Start(perMap), init);
      var r := MergeAll(Start(perMap), list);
      var k := list[|list| - 1].permission;
      assert r == Step(mid, list[|list| - 1]);
      if r != mid {
        assert r.keys == mid.keys + [k];
        assert r.keys[|mid.keys|] == k;
        if IsMediaPermission(k) {
          assert READ_MEDIA_MARKER !in mid.addedPermissions;
          assert READ_MEDIA_MARKER in r.addedPermissions;
        } else {
          assert r.addedPermissions == mid.addedPermissions;
          if exists i :: 0 <= i < |r.keys| && IsMediaPermission(r.keys[i]) {
            var i :| 0 <= i < |r.keys| && IsMediaPermission(r.keys[i]);
            assert i < |mid.keys| && r.keys[i] == mid.keys[i];
          }
          if READ_MEDIA_MARKER in mid.addedPermissions {
            var i :| 0 <= i < |mid.keys| && IsMediaPermission(mid.keys[i]);
            assert r.keys[i] == mid.keys[i];
          }
        }
      }
    }
  }

  /** Every kept key came out of the request list and is a catalogue key. */
  lemma {:induction false} KeptKeysAreRequestedAndKnown(s: MergeState, list: seq<AxPermission>)
    ensures forall i :: |s.keys| <= i < |MergeAll(s, list).keys| ==>
      MergeAll(s, list).keys[i] in s.perMap && exists j :: 0 <= j < |list| && list[j].permission == MergeAll(s, list).keys[i]
    ensures MergeAll(s, list).keys[..|s.keys|] == s.keys
    decreases |list|
  {
    if list != [] {
      var init := list[..|list| - 1];
      KeptKeysAreRequestedAndKnown(s, init);
      var mid := MergeAll(s, init);
      var r := MergeAll(s, list);
      assert r == Step(mid, list[|list| - 1]);
      assert r == mid || r.keys == mid.keys + [list[|list| - 1].permission];
      forall i | |s.keys| <= i < |r.keys|
        ensures r.keys[i] in s.perMap && exists j :: 0 <= j < |list| && list[j].permission == r.keys[i]
      {
        if i < |mid.keys| {
          assert r.keys[i] == mid.keys[i];
          var j :| 0 <= j < |init| && init[j].permission == mid.keys[i];
          assert list[j] == init[j];
        } else {
          assert list[|list| - 1].permission == r.keys[i];
        }
      }
      assert r.keys[..|mid.keys|] == mid.keys;
      assert mid.keys[..|s.keys|] == s.keys;
    }
  }

  /**
   * The loop never changes a record's permission, state, type or icon, and
   * keeps every record filed under its own key.
   */
  lemma {:induction false} MergeKeepsFixedFields(s: MergeState, list: seq<AxPermission>)
    ensures forall k :: k in s.perMap ==>
      MergeAll(s, list).perMap[k].permission == s.perMap[k].permission &&
      MergeAll(s, list).perMap[k].perState == s.perMap[k].perState &&
      MergeAll(s, list).perMap[k].perType == s.perMap[k].perType &&
      MergeAll(s, list).perMap[k].perIcon == s.perMap[k].perIcon
    ensures WellKeyed(s.perMap) ==> WellKeyed(MergeAll(s, list).perMap)
    decreases |list|
  {
    if list != [] {
      var mid := MergeAll(s, list[..|list| - 1]);
      MergeKeepsFixedFields(s, list[..|list| - 1]);
      StepKeepsFixedFields(mid, list[|list| - 1]);
      assert MergeAll(s, list) == Step(mid, list[|list| - 1]);
    }
  }

  /** One step changes no record's permission, state, type or icon, and keeps records under their own keys. */
  lemma StepKeepsFixedFields(s: MergeState, data: AxPermission)
    ensures Step(s, data).perMap.Keys == s.perMap.Keys
    ensures forall k :: k in s.perMap ==>
      Step(s, data).perMap[k].permission == s.perMap[k].permission &&
      Step(s, data).perMap[k].perState == s.perMap[k].perState &&
      Step(s, data).perMap[k].perType == s.perMap[k].perType &&
      Step(s, data).perMap[k].perIcon == s.perMap[k].perIcon
    ensures WellKeyed(s.perMap) ==> WellKeyed(Step(s, data).perMap)
  {
  }

  /**
   * One accepted request: its record takes the non-empty title and
   * description, and no other record changes. A second photo or video
   * request after the first changes nothing at all.
   */
  lemma OverrideRule(s: MergeState, data: AxPermission)
    requires data.permission in s.perMap
    ensures IsMediaPermission(data.permission) && READ_MEDIA_MARKER in s.addedPermissions ==> Step(s, data) == s
    ensures !IsMediaPermission(data.permission) || READ_MEDIA_MARKER !in s.addedPermissions ==>
      Step(s, data).perMap[data.permission].perTitle == (if data.title != "" then data.title else s.perMap[data.permission].perTitle) &&
      Step(s, data).perMap[data.permission].perContent == (if data.description != "" then data.description else s.perMap[data.permission].perContent) &&
      Step(s, data).keys == s.keys + [data.permission]
    ensures forall k :: k in s.perMap && k != data.permission ==> Step(s, data).perMap[k] == s.perMap[k]
  {
  }

  /** An unknown string is dropped: the loop state does not change. */
  lemma UnknownIsDropped(s: MergeState, data: AxPermission)
    requires data.permission !in s.perMap
    ensures Step(s, data) == s
  {
  }

  /**
   * Overrides stay in the catalogue: after a request with a title, a later
   * request for the same permission without one shows that title.
   */
  lemma OverridesPersist(perMap: map<string, AxPermissionModel>, k: string, title: string)
    requires k in perMap && !IsMediaPermission(k) && title != ""
    ensures var after := MergeAll(Start(perMap), [AxPermission(k, title, "")]).perMap;
      k in after && Entries(MergeAll(Start(after), [AxPermission(k, "", "")])) == [after[k]] && after[k].perTitle == title
  {
    var first := [AxPermission(k, title, "")];
    assert first[..0] == [];
    var after := MergeAll(Start(perMap), first).perMap;
    var second := [AxPermission(k, "", "")];
    assert second[..0] == [];
    assert MergeAll(Start(perMap), first) == Step(Start(perMap), first[0]);
    assert after == perMap[k := Override(perMap[k], first[0])];
    var r := MergeAll(Start(after), second);
    assert MergeAll(Start(after), second[..0]) == Start(after);
    assert r == Step(Start(after), second[0]);
    assert r.keys == [k];
  }

  class AxPermissionSettings {
    var perMap: map<string, AxPermissionModel>

    /** `init`: the catalogue. */
    constructor()
      ensures perMap == Catalogue
    {
      perMap := Catalogue;
    }

    /**
     * `setPermission(perList)`: the records for the request list, in its
     * order, with the overrides written into the catalogue itself. The
     * returned records are the catalogue's, as they stand after the call.
     */
    method SetPermission(perList: AxPermissionList) returns (perData: seq<AxPermissionModel>)
      modifies this
      ensures var r := MergeAll(Start(old(perMap)), perList.permissions);
        perMap == r.perMap && |perData| == |r.keys| && KeysKnown(r) && perData == Entries(r)
      ensures |perData| <= |perList.permissions|
      ensures WellKeyed(old(perMap)) ==>
        forall i :: 0 <= i < |perData| ==> perData[i].permission in perMap && perData[i] == perMap[perData[i].permission]
    {
      ghost var s0 := Start(perMap);
      var list := perList.permissions;
      var keys: seq<string> := [];
      var addedPermissions: set<string> := {};
      var i := 0;
      while i < |list|
        invariant 0 <= i <= |list|
        invariant MergeAll(s0, list[..i]) == MergeState(perMap, keys, addedPermissions)
      {
        assert list[..i + 1][..i] == list[..i];
        var data := list[i];
        if data.permission in perMap {
          var permission := perMap[data.permission];
          var isMediaPermission := data.permission == READ_MEDIA_IMAGES || data.permission == READ_MEDIA_VIDEO;
          if isMediaPermission {
            if READ_MEDIA_MARKER !in addedPermissions {
              perMap := perMap[data.permission := Override(permission, data)];
              keys := keys + [data.permission];
              addedPermissions := addedPermissions + {READ_MEDIA_MARKER};
            }
          } else {
            perMap := perMap[data.permission := Override(permission, data)];
            keys := keys + [data.permission];
          }
        }
        i := i + 1;
      }
      assert list[..|list|] == list;
      var records := perMap;
      perData := seq(|keys|, j requires 0 <= j < |keys| && keys[j] in records => records[keys[j]]);
      MergeKeepsFixedFields(s0, list);
    }
  }
}
