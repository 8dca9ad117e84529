/**
 * The legacy permission screen (kr/.../AxPermissionActivity.kt): the two
 * record lists, the request sequencer that walks the active list from
 * `currentPermissionIndex`, and the handlers that write grant results back
 * into the records. Records are values here; the adapter's sections are
 * derived from the current lists, since the adapter holds the very same
 * record objects. Dialogs, toasts and launches are returned as outcomes.
 */
module LegacyActivity {
  import opened Wrappers
  import opened Android
  import opened LegacyList
  import opened LegacySettings
  import opened LegacyCheck
  import opened LegacyAdapter
  import opened CollectionsExts

  const PERMISSION_REQUEST_CODE: int := 1001
  const REQUIRED_HEADER: string := "* 필수 권한 *"
  const OPTIONAL_HEADER: string := "* 선택 권한 *"

  /** Where the sequencer stops: the record is an ungranted runtime permission, or a settings screen not yet on. */
  predicate StopsAt(m: AxPermissionModel, granted: set<string>) {
    (m.perType == ACCESS_TYPE && m.permission !in granted) || (m.perType == ACTION_TYPE && !m.perState)
  }

  /**
   * The index `requestNextPermission` comes to rest at from `start`: the
   * first stopping index at or after it, the list's size when there is
   * none, and `start` itself when it is already at or past the end.
   */
  function NextIndex(list: seq<AxPermissionModel>, granted: set<string>, start: nat): (r: nat)
    ensures start <= r
    ensures start >= |list| ==> r == start
    ensures start < |list| ==> r <= |list|
    ensures r < |list| ==> StopsAt(list[r], granted)
    ensures forall j :: start <= j < r && j < |list| ==> !StopsAt(list[j], granted)
    decreases |list| - start
  {
    if start >= |list| || StopsAt(list[start], granted) then start else NextIndex(list, granted, start + 1)
  }

  /** Any index with those properties is the one `NextIndex` finds. */
  lemma NextIndexIsFirstStop(list: seq<AxPermissionModel>, granted: set<string>, start: nat, r: nat)
    requires start <= r <= |list|
    requires r < |list| ==> StopsAt(list[r], granted)
    requires forall j :: start <= j < r ==> !StopsAt(list[j], granted)
    ensures NextIndex(list, granted, start) == r
    decreases |list| - start
  {
    if start < r {
      NextIndexIsFirstStop(list, granted, start + 1, r);
    }
  }

  /** Without a new event the sequencer stays put: resuming at its resting index rests there again. */
  lemma NextIndexIsStable(list: seq<AxPermissionModel>, granted: set<string>, start: nat)
    ensures NextIndex(list, granted, NextIndex(list, granted, start)) == NextIndex(list, granted, start)
  {
  }

  /** What the sequencer ends with. */
  datatype NextStop =
    | RequestRuntime(permission: string)            // ActivityCompat.requestPermissions with code 1001
    | ActionDialog(model: AxPermissionModel)        // the custom dialog that opens a settings screen
    | Idle

  function StopAt(list: seq<AxPermissionModel>, granted: set<string>, i: nat): NextStop {
    if i < |list| && list[i].perType == ACCESS_TYPE && list[i].permission !in granted then RequestRuntime(list[i].permission)
    else if i < |list| && list[i].perType == ACTION_TYPE && !list[i].perState then ActionDialog(list[i])
    else Idle
  }

  /** The resting index names what is requested: a runtime request, a settings dialog, or nothing past the end. */
  lemma StopMatchesIndex(list: seq<AxPermissionModel>, granted: set<string>, start: nat)
    ensures var i := NextIndex(list, granted, start);
      (StopAt(list, granted, i) == Idle <==> i >= |list|) &&
      (StopAt(list, granted, i).RequestRuntime? ==> list[i].perType == ACCESS_TYPE && StopAt(list, granted, i).permission == list[i].permission)
  {
  }

  /** `areAllPermissionsGranted`: every required record is on; a null or empty list counts as all on. */
  predicate RequiredAllOn(required: Option<seq<AxPermissionModel>>) {
    required.None? || forall i :: 0 <= i < |required.value| ==> required.value[i].perState
  }

  /** `updatePermissionStatus` on one list: granted runtime permissions turn on, nothing turns off. */
  function MarkGranted(granted: set<string>, list: seq<AxPermissionModel>): (r: seq<AxPermissionModel>)
    ensures |r| == |list|
    ensures forall i :: 0 <= i < |list| ==> r[i] == list[i].(perState := r[i].perState)
    ensures forall i :: 0 <= i < |list| ==> (r[i].perState <==> list[i].perState || list[i].permission in granted)
  {
    seq(|list|, i requires 0 <= i < |list| => if list[i].permission in granted then list[i].(perState := true) else list[i])
  }

  /** `updateAndRefreshPermissions` on one list: the records of `permission` take `isGranted`, the others stay. */
  function WithState(list: seq<AxPermissionModel>, permission: string, isGranted: bool): (r: seq<AxPermissionModel>)
    ensures |r| == |list|
    ensures forall i :: 0 <= i < |list| && list[i].permission == permission ==> r[i] == list[i].(perState := isGranted)
    ensures forall i :: 0 <= i < |list| && list[i].permission != permission ==> r[i] == list[i]
  {
    seq(|list|, i requires 0 <= i < |list| => if list[i].permission == permission then list[i].(perState := isGranted) else list[i])
  }

  function MapList(o: Option<seq<AxPermissionModel>>, f: seq<AxPermissionModel> -> seq<AxPermissionModel>): Option<seq<AxPermissionModel>> {
    if o.None? then None else Some(f(o.value))
  }

  function SizeOr0(o: Option<seq<AxPermissionModel>>): nat {
    if o.None? then 0 else |o.value|
  }

  /** The positions one list's records are refreshed at: `base`, `base + 1`, ... */
  function Rows(o: Option<seq<AxPermissionModel>>, base: int): (r: seq<int>)
    ensures |r| == SizeOr0(o)
    ensures forall i :: 0 <= i < |r| ==> r[i] == base + i
  {
    seq(SizeOr0(o), i => base + i)
  }

  /** `notifyItemChanged` calls: required record i at i + 1, optional record i at requiredSize + 2 + i. */
  function NotifiedRows(required: Option<seq<AxPermissionModel>>, optional: Option<seq<AxPermissionModel>>): seq<int> {
    Rows(required, 1) + Rows(optional, SizeOr0(required) + 2)
  }

  /** The `perItemMap` of `onCreate`: a section per present list. */
  function SectionsOf(required: Option<seq<AxPermissionModel>>, optional: Option<seq<AxPermissionModel>>): Sections {
    var m: Sections := if required.Some? then map[REQUIRED_HEADER := required.value] else map[];
    if optional.Some? then m[OPTIONAL_HEADER := optional.value] else m
  }

  /** The iteration order of that `HashMap`: the required header's bucket comes first. */
  function HeadersOf(required: Option<seq<AxPermissionModel>>, optional: Option<seq<AxPermissionModel>>): seq<string> {
    (if required.Some? then [REQUIRED_HEADER] else []) + (if optional.Some? then [OPTIONAL_HEADER] else [])
  }

  /** The headers are the sections' keys, each once, so `setPerItemMap` may be called with them. */
  lemma SectionsAreKeyOrdered(required: Option<seq<AxPermissionModel>>, optional: Option<seq<AxPermissionModel>>)
    ensures IsKeyOrder(SectionsOf(required, optional), HeadersOf(required, optional))
  {
    assert REQUIRED_HEADER[2] != OPTIONAL_HEADER[2];
  }

  /**
   * With both lists present, each refreshed position shows the record it is
   * meant for: required record i sits at i + 1 and optional record i at
   * requiredSize + 2 + i.
   */
  lemma NotifiedRowsShowTheirRecords(required: seq<AxPermissionModel>, optional: seq<AxPermissionModel>, i: nat)
    ensures var m := SectionsOf(Some(required), Some(optional));
      i < |required| ==> Locate(m, HeadersOf(Some(required), Some(optional)), i + 1, 0) == Some(BodyRow(REQUIRED_HEADER, i))
    ensures var m := SectionsOf(Some(required), Some(optional));
      i < |optional| ==> Locate(m, HeadersOf(Some(required), Some(optional)), |required| + 2 + i, 0) == Some(BodyRow(OPTIONAL_HEADER, i))
  {
    var m := SectionsOf(Some(required), Some(optional));
    var hs := HeadersOf(Some(required), Some(optional));
    assert REQUIRED_HEADER[2] != OPTIONAL_HEADER[2];
    assert hs == [REQUIRED_HEADER, OPTIONAL_HEADER] && m[REQUIRED_HEADER] == required && m[OPTIONAL_HEADER] == optional;
    LocateSection(m, hs, 0, i, 0);
    assert hs[..1][1..] == [];
    assert SumSizes(m, hs[..1]) == |required|;
    LocateSection(m, hs, 1, i, 0);
  }

  /** One list's `forEachIndexed` of `updatePermissionStatus`: the marked list and the positions notified. */
  method MarkGrantedIndexed(granted: set<string>, list: seq<AxPermissionModel>, base: int)
    returns (updated: seq<AxPermissionModel>, notified: seq<int>)
    ensures updated == MarkGranted(granted, list)
    ensures notified == Rows(Some(list), base)
  {
    updated := list;
    notified := [];
    var index := 0;
    while index < |list|
      invariant 0 <= index <= |list| && |updated| == |list|
      invariant forall j :: 0 <= j < index ==> updated[j] == MarkGranted(granted, list)[j]
      invariant forall j :: index <= j < |list| ==> updated[j] == list[j]
      invariant notified == Rows(Some(list), base)[..index]
    {
      if list[index].permission in granted {
        updated := updated[index := list[index].(perState := true)];
      }
      assert Rows(Some(list), base)[..index + 1] == Rows(Some(list), base)[..index] + [base + index];
      notified := notified + [base + index];
      index := index + 1;
    }
    assert updated == MarkGranted(granted, list);
  }

  /** One list's `forEachIndexed` of `updateAndRefreshPermissions`. */
  method WithStateIndexed(list: seq<AxPermissionModel>, permission: string, isGranted: bool, base: int)
    returns (updated: seq<AxPermissionModel>, notified: seq<int>)
    ensures updated == WithState(list, permission, isGranted)
    ensures notified == Rows(Some(list), base)
  {
    updated := list;
    notified := [];
    var index := 0;
    while index < |list|
      invariant 0 <= index <= |list| && |updated| == |list|
      invariant forall j :: 0 <= j < index ==> updated[j] == WithState(list, permission, isGranted)[j]
      invariant forall j :: index <= j < |list| ==> updated[j] == list[j]
      invariant notified == Rows(Some(list), base)[..index]
    {
      if list[index].permission == permission {
        updated := updated[index := list[index].(perState := isGranted)];
      }
      assert Rows(Some(list), base)[..index + 1] == Rows(Some(list), base)[..index] + [base + index];
      notified := notified + [base + index];
      index := index + 1;
    }
    assert updated == WithState(list, permission, isGranted);
  }

  /** What a click does besides walking the sequencer. */
  datatype ClickEffect =
    | LaunchedAction(model: AxPermissionModel)   // requestPermissionWithPackageName for a settings record
    | AlreadyGrantedDialog
    | Selected(essential: bool, index: nat)
    | NoClickEffect

  /** What `checkPermission` does: the confirm button's visibility, and whether the screen closes granted. */
  datatype CheckOutcome = CheckOutcome(buttonVisible: bool, finishedGranted: bool, stop: NextStop)

  class AxPermissionActivity {
    var requiredPermissionsItemList: Option<seq<AxPermissionModel>>
    var optionalPermissionsItemList: Option<seq<AxPermissionModel>>
    var currentPermissionIndex: nat
    var isHandlingEssentialPermissions: bool

    /**
     * `onCreate`: both extras go through one catalogue, required first, so
     * the optional list sees the overrides of the required one.
     */
    constructor(requiredPermissionsList: Option<AxPermissionList>, optionalPermissionsList: Option<AxPermissionList>)
      ensures var afterRequired := if requiredPermissionsList.Some?
          then MergeAll(Start(Catalogue), requiredPermissionsList.value.permissions).perMap else Catalogue;
        (requiredPermissionsList.None? ==> requiredPermissionsItemList.None?) &&
        (requiredPermissionsList.Some? ==>
          requiredPermissionsItemList == Some(Entries(MergeAll(Start(Catalogue), requiredPermissionsList.value.permissions)))) &&
        (optionalPermissionsList.None? ==> optionalPermissionsItemList.None?) &&
        (optionalPermissionsList.Some? ==>
          optionalPermissionsItemList == Some(Entries(MergeAll(Start(afterRequired), optionalPermissionsList.value.permissions))))
      ensures currentPermissionIndex == 0 && isHandlingEssentialPermissions
    {
      var settings := new AxPermissionSettings();
      var required: Option<seq<AxPermissionModel>> := None;
      var optional: Option<seq<AxPermissionModel>> := None;
      if requiredPermissionsList.Some? {
        var perData := settings.SetPermission(requiredPermissionsList.value);
        required := Some(perData);
      }
      if optionalPermissionsList.Some? {
        var perData := settings.SetPermission(optionalPermissionsList.value);
        optional := Some(perData);
      }
      requiredPermissionsItemList := required;
      optionalPermissionsItemList := optional;
      currentPermissionIndex := 0;
      isHandlingEssentialPermissions := true;
    }

    /** The list `requestNextPermission` walks. */
    function ActiveList(): Option<seq<AxPermissionModel>>
      reads this
    {
      if isHandlingEssentialPermissions then requiredPermissionsItemList else optionalPermissionsItemList
    }

    /** The sections the adapter shows, which hold the same records as the two lists. */
    function AdapterSections(): Sections
      reads this
    {
      SectionsOf(requiredPermissionsItemList, optionalPermissionsItemList)
    }

    /**
     * `requestNextPermission`: skips granted runtime permissions, settings
     * records already on and records of any other kind, and stops at the
     * first stopping record. A null list, or an index at or past its end,
     * does nothing.
     */
    method RequestNextPermission(granted: set<string>) returns (stop: NextStop)
      modifies this
      ensures requiredPermissionsItemList == old(requiredPermissionsItemList)
      ensures optionalPermissionsItemList == old(optionalPermissionsItemList)
      ensures isHandlingEssentialPermissions == old(isHandlingEssentialPermissions)
      ensures ActiveList().None? ==> currentPermissionIndex == old(currentPermissionIndex) && stop == Idle
      ensures ActiveList().Some? ==>
        currentPermissionIndex == NextIndex(ActiveList().value, granted, old(currentPermissionIndex)) &&
        stop == StopAt(ActiveList().value, granted, currentPermissionIndex)
    {
      var permissionList := ActiveList();
      if permissionList.None? {
        return Idle;
      }
      var list := permissionList.value;
      while currentPermissionIndex < |list|
        invariant requiredPermissionsItemList == old(requiredPermissionsItemList)
        invariant optionalPermissionsItemList == old(optionalPermissionsItemList)
        invariant isHandlingEssentialPermissions == old(isHandlingEssentialPermissions)
        invariant NextIndex(list, granted, currentPermissionIndex) == NextIndex(list, granted, old(currentPermissionIndex))
        decreases |list| - currentPermissionIndex
      {
        var permissionModel := list[currentPermissionIndex];
        if permissionModel.perType == ACCESS_TYPE && permissionModel.permission !in granted {
          return RequestRuntime(permissionModel.permission);
        } else if permissionModel.perType == ACTION_TYPE {
          if permissionModel.perState {
            currentPermissionIndex := currentPermissionIndex + 1;
          } else {
            return ActionDialog(permissionModel);
          }
        } else {
          currentPermissionIndex := currentPermissionIndex + 1;
        }
      }
      return Idle;
    }

    /** `areAllPermissionsGranted`: the required records only, stopping at the first that is off. */
    method AreAllPermissionsGranted() returns (r: bool)
      ensures r <==> RequiredAllOn(requiredPermissionsItemList)
    {
      if requiredPermissionsItemList.None? {
        return true;
      }
      var list := requiredPermissionsItemList.value;
      var i := 0;
      while i < |list|
        invariant 0 <= i <= |list|
        invariant forall j :: 0 <= j < i ==> list[j].perState
      {
        if !list[i].perState {
          return false;
        }
        i := i + 1;
      }
      return true;
    }

    /** `updatePermissionStatus`: both lists marked, with the positions notified in order. */
    method UpdatePermissionStatus(granted: set<string>) returns (notified: seq<int>)
      modifies this
      ensures requiredPermissionsItemList == MapList(old(requiredPermissionsItemList), list => MarkGranted(granted, list))
      ensures optionalPermissionsItemList == MapList(old(optionalPermissionsItemList), list => MarkGranted(granted, list))
      ensures notified == NotifiedRows(old(requiredPermissionsItemList), old(optionalPermissionsItemList))
      ensures currentPermissionIndex == old(currentPermissionIndex)
      ensures isHandlingEssentialPermissions == old(isHandlingEssentialPermissions)
    {
      var requiredSize := SizeOr0(requiredPermissionsItemList);
      var requiredRows: seq<int> := [];
      var optionalRows: seq<int> := [];
      if requiredPermissionsItemList.Some? {
        var updated;
        updated, requiredRows := MarkGrantedIndexed(granted, requiredPermissionsItemList.value, 1);
        requiredPermissionsItemList := Some(updated);
      }
      if optionalPermissionsItemList.Some? {
        var updated;
        updated, optionalRows := MarkGrantedIndexed(granted, optionalPermissionsItemList.value, requiredSize + 2);
        optionalPermissionsItemList := Some(updated);
      }
      notified := requiredRows + optionalRows;
    }

    /** `updateAndRefreshPermissions(permission, isGranted)`. */
    method UpdateAndRefreshPermissions(permission: string, isGranted: bool) returns (notified: seq<int>)
      modifies this
      ensures requiredPermissionsItemList == MapList(old(requiredPermissionsItemList), list => WithState(list, permission, isGranted))
      ensures optionalPermissionsItemList == MapList(old(optionalPermissionsItemList), list => WithState(list, permission, isGranted))
      ensures notified == NotifiedRows(old(requiredPermissionsItemList), old(optionalPermissionsItemList))
      ensures currentPermissionIndex == old(currentPermissionIndex)
      ensures isHandlingEssentialPermissions == old(isHandlingEssentialPermissions)
    {
      var requiredSize := SizeOr0(requiredPermissionsItemList);
      var requiredRows: seq<int> := [];
      var optionalRows: seq<int> := [];
      if requiredPermissionsItemList.Some? {
        var updated;
        updated, requiredRows := WithStateIndexed(requiredPermissionsItemList.value, permission, isGranted, 1);
        requiredPermissionsItemList := Some(updated);
      }
      if optionalPermissionsItemList.Some? {
        var updated;
        updated, optionalRows := WithStateIndexed(optionalPermissionsItemList.value, permission, isGranted, requiredSize + 2);
        optionalPermissionsItemList := Some(updated);
      }
      notified := requiredRows + optionalRows;
    }

    /**
     * `onRequestPermissionsResult`: only code 1001 is handled. A first
     * result granted marks both lists and sets the button's visibility
     * (`buttonShown`, `None` when the button is left alone), anything else
     * shows the denied dialog; then, while the required list is handled, the index moves past the
     * record just asked for and the sequencer resumes.
     */
    method OnRequestPermissionsResult(requestCode: int, grantResults: seq<int>, granted: set<string>)
      returns (notified: seq<int>, deniedDialog: bool, buttonShown: Option<bool>, stop: NextStop)
      modifies this
      ensures buttonShown.Some? <==> requestCode == PERMISSION_REQUEST_CODE && !deniedDialog
      ensures buttonShown.Some? ==> (buttonShown.value <==> RequiredAllOn(requiredPermissionsItemList))
      ensures requestCode != PERMISSION_REQUEST_CODE ==>
        requiredPermissionsItemList == old(requiredPermissionsItemList) &&
        optionalPermissionsItemList == old(optionalPermissionsItemList) &&
        currentPermissionIndex == old(currentPermissionIndex) && notified == [] && !deniedDialog && stop == Idle
      ensures requestCode == PERMISSION_REQUEST_CODE ==>
        (deniedDialog <==> !(|grantResults| > 0 && grantResults[0] == PERMISSION_GRANTED))
      ensures requestCode == PERMISSION_REQUEST_CODE && !deniedDialog ==>
        requiredPermissionsItemList == MapList(old(requiredPermissionsItemList), list => MarkGranted(granted, list)) &&
        optionalPermissionsItemList == MapList(old(optionalPermissionsItemList), list => MarkGranted(granted, list))
      ensures requestCode == PERMISSION_REQUEST_CODE && deniedDialog ==>
        requiredPermissionsItemList == old(requiredPermissionsItemList) &&
        optionalPermissionsItemList == old(optionalPermissionsItemList) && notified == []
      ensures isHandlingEssentialPermissions == old(isHandlingEssentialPermissions)
      ensures requestCode == PERMISSION_REQUEST_CODE && !isHandlingEssentialPermissions ==>
        currentPermissionIndex == old(currentPermissionIndex) && stop == Idle
      ensures requestCode == PERMISSION_REQUEST_CODE && !deniedDialog ==>
        notified == NotifiedRows(old(requiredPermissionsItemList), old(optionalPermissionsItemList))
      ensures requestCode == PERMISSION_REQUEST_CODE && isHandlingEssentialPermissions && ActiveList().Some? ==>
        currentPermissionIndex == NextIndex(ActiveList().value, granted, old(currentPermissionIndex) + 1) &&
        stop == StopAt(ActiveList().value, granted, currentPermissionIndex)
      ensures requestCode == PERMISSION_REQUEST_CODE && isHandlingEssentialPermissions && ActiveList().None? ==>
        currentPermissionIndex == old(currentPermissionIndex) + 1 && stop == Idle
    {
      notified, deniedDialog, buttonShown, stop := [], false, None, Idle;
      if requestCode == PERMISSION_REQUEST_CODE {
        if |grantResults| > 0 && grantResults[0] == PERMISSION_GRANTED {
          notified := UpdatePermissionStatus(granted);
          var allGranted := AreAllPermissionsGranted();
          buttonShown := Some(allGranted);
        } else {
          deniedDialog := true;
        }
        if isHandlingEssentialPermissions {
          currentPermissionIndex := currentPermissionIndex + 1;
          stop := RequestNextPermission(granted);
        }
      }
    }

    /** `onPermissionLauncherResult`: a named permission takes the result in both lists; a null one does nothing. */
    method OnPermissionLauncherResult(permission: Option<string>, isGranted: bool) returns (notified: seq<int>)
      modifies this
      ensures permission.None? ==>
        requiredPermissionsItemList == old(requiredPermissionsItemList) &&
        optionalPermissionsItemList == old(optionalPermissionsItemList) && notified == []
      ensures permission.Some? ==>
        requiredPermissionsItemList == MapList(old(requiredPermissionsItemList), list => WithState(list, permission.value, isGranted)) &&
        optionalPermissionsItemList == MapList(old(optionalPermissionsItemList), list => WithState(list, permission.value, isGranted))
      ensures currentPermissionIndex == old(currentPermissionIndex)
      ensures isHandlingEssentialPermissions == old(isHandlingEssentialPermissions)
    {
      notified := [];
      if permission.Some? {
        notified := UpdateAndRefreshPermissions(permission.value, isGranted);
      }
    }

    /** Both `checkSelfPermission` calls that open `onPerClick` and `checkPermission`. */
    method RefreshBoth(d: LegacyDevice)
      modifies this
      ensures requiredPermissionsItemList == MapList(old(requiredPermissionsItemList), list => RefreshAll(d, list))
      ensures optionalPermissionsItemList == MapList(old(optionalPermissionsItemList), list => RefreshAll(d, list))
      ensures currentPermissionIndex == old(currentPermissionIndex)
      ensures isHandlingEssentialPermissions == old(isHandlingEssentialPermissions)
    {
      var required := CheckSelfPermission(d, requiredPermissionsItemList);
      var optional := CheckSelfPermission(d, optionalPermissionsItemList);
      requiredPermissionsItemList := required;
      optionalPermissionsItemList := optional;
    }

    /**
     * `onPerClick(permissionModel, _)`. `clicked` is the record the row
     * showed; it is one of the lists' records, so the refresh reaches it too.
     * A settings record is launched; a granted runtime record gets the
     * already-granted dialog; an ungranted one selects its list and its first
     * position there. The sequencer runs in every case.
     */
    method OnPerClick(d: LegacyDevice, clicked: AxPermissionModel) returns (effect: ClickEffect, stop: NextStop)
      modifies this
      ensures requiredPermissionsItemList == MapList(old(requiredPermissionsItemList), list => RefreshAll(d, list))
      ensures optionalPermissionsItemList == MapList(old(optionalPermissionsItemList), list => RefreshAll(d, list))
      ensures var m := Refreshed(d, clicked);
        m.perType == ACCESS_TYPE && m.permission !in d.granted &&
        requiredPermissionsItemList.Some? && m in requiredPermissionsItemList.value ==>
          effect == Selected(true, FirstIndexWhere(requiredPermissionsItemList.value, x => x == m)) &&
          isHandlingEssentialPermissions && currentPermissionIndex == effect.index && stop == RequestRuntime(m.permission)
      ensures var m := Refreshed(d, clicked);
        m.perType == ACCESS_TYPE && m.permission !in d.granted &&
        !(requiredPermissionsItemList.Some? && m in requiredPermissionsItemList.value) &&
        optionalPermissionsItemList.Some? && m in optionalPermissionsItemList.value ==>
          effect == Selected(false, FirstIndexWhere(optionalPermissionsItemList.value, x => x == m)) &&
          !isHandlingEssentialPermissions && currentPermissionIndex == effect.index && stop == RequestRuntime(m.permission)
      ensures var m := Refreshed(d, clicked);
        m.perType == ACTION_TYPE ==> effect == LaunchedAction(m)
      ensures var m := Refreshed(d, clicked);
        m.perType == ACCESS_TYPE && m.permission in d.granted ==> effect == AlreadyGrantedDialog
      ensures var m := Refreshed(d, clicked);
        m.perType != ACTION_TYPE && m.perType != ACCESS_TYPE ==> effect == NoClickEffect
      ensures var m := Refreshed(d, clicked);
        m.perType == ACCESS_TYPE && m.permission !in d.granted &&
        !(requiredPermissionsItemList.Some? && m in requiredPermissionsItemList.value) &&
        !(optionalPermissionsItemList.Some? && m in optionalPermissionsItemList.value) ==>
          effect == NoClickEffect
      ensures !effect.Selected? ==> isHandlingEssentialPermissions == old(isHandlingEssentialPermissions)
      ensures !effect.Selected? && ActiveList().None? ==> currentPermissionIndex == old(currentPermissionIndex) && stop == Idle
      ensures !effect.Selected? && ActiveList().Some? ==>
        currentPermissionIndex == NextIndex(ActiveList().value, d.granted, old(currentPermissionIndex)) &&
        stop == StopAt(ActiveList().value, d.granted, currentPermissionIndex)
    {
      RefreshBoth(d);
      var permissionModel := Refreshed(d, clicked);
      effect := NoClickEffect;
      if permissionModel.perType == ACTION_TYPE {
        effect := LaunchedAction(permissionModel);
      } else if permissionModel.perType == ACCESS_TYPE {
        if permissionModel.permission in d.granted {
          effect := AlreadyGrantedDialog;
        } else if requiredPermissionsItemList.Some? && permissionModel in requiredPermissionsItemList.value {
          var index := FirstIndexWhere(requiredPermissionsItemList.value, x => x == permissionModel);
          isHandlingEssentialPermissions := true;
          currentPermissionIndex := index;
          effect := Selected(true, index);
        } else if optionalPermissionsItemList.Some? && permissionModel in optionalPermissionsItemList.value {
          var index := FirstIndexWhere(optionalPermissionsItemList.value, x => x == permissionModel);
          isHandlingEssentialPermissions := false;
          currentPermissionIndex := index;
          effect := Selected(false, index);
        }
      }
      ghost var selected := effect.Selected?;
      stop := RequestNextPermission(d.granted);
      if selected {
        assert NextIndex(ActiveList().value, d.granted, effect.index) == effect.index;
      }
    }

    /** The negative button of the settings dialog: move past the record and resume. */
    method DismissActionDialog(granted: set<string>) returns (stop: NextStop)
      modifies this
      ensures requiredPermissionsItemList == old(requiredPermissionsItemList)
      ensures optionalPermissionsItemList == old(optionalPermissionsItemList)
      ensures isHandlingEssentialPermissions == old(isHandlingEssentialPermissions)
      ensures ActiveList().Some? ==>
        currentPermissionIndex == NextIndex(ActiveList().value, granted, old(currentPermissionIndex) + 1) &&
        stop == StopAt(ActiveList().value, granted, currentPermissionIndex)
      ensures ActiveList().None? ==> currentPermissionIndex == old(currentPermissionIndex) + 1 && stop == Idle
    {
      currentPermissionIndex := currentPermissionIndex + 1;
      stop := RequestNextPermission(granted);
    }

    /**
     * `checkPermission` (from `onStart`): refresh both lists; with state
     * "check", close granted when all required records are on and the
     * confirm button was pressed before, or run the sequencer when they are
     * not; with "restart" or any other state only the button is updated.
     */
    method CheckPermission(d: LegacyDevice, state: Option<string>, isPermissionBt: bool) returns (outcome: CheckOutcome)
      modifies this
      ensures requiredPermissionsItemList == MapList(old(requiredPermissionsItemList), list => RefreshAll(d, list))
      ensures optionalPermissionsItemList == MapList(old(optionalPermissionsItemList), list => RefreshAll(d, list))
      ensures outcome.buttonVisible <==> RequiredAllOn(requiredPermissionsItemList)
      ensures outcome.finishedGranted <==> state == Some("check") && RequiredAllOn(requiredPermissionsItemList) && isPermissionBt
      ensures (state != Some("check") || RequiredAllOn(requiredPermissionsItemList)) ==>
        outcome.stop == Idle && currentPermissionIndex == old(currentPermissionIndex)
      ensures isHandlingEssentialPermissions == old(isHandlingEssentialPermissions)
      ensures state == Some("check") && !RequiredAllOn(requiredPermissionsItemList) && ActiveList().Some? ==>
        currentPermissionIndex == NextIndex(ActiveList().value, d.granted, old(currentPermissionIndex)) &&
        outcome.stop == StopAt(ActiveList().value, d.granted, currentPermissionIndex)
      ensures state == Some("check") && !RequiredAllOn(requiredPermissionsItemList) && ActiveList().None? ==>
        currentPermissionIndex == old(currentPermissionIndex) && outcome.stop == Idle
    {
      RefreshBoth(d);
      var allGranted := AreAllPermissionsGranted();
      outcome := CheckOutcome(allGranted, false, Idle);
      if state == Some("check") {
        if allGranted {
          if isPermissionBt {
            outcome := outcome.(finishedGranted := true);
          }
        } else {
          var stop := RequestNextPermission(d.granted);
          outcome := outcome.(stop := stop);
        }
      }
    }
  }

  /** Marking grants never turns a record off, and a second marking with the same grants changes nothing. */
  lemma MarkGrantedOnlyTurnsOn(granted: set<string>, list: seq<AxPermissionModel>)
    ensures forall i :: 0 <= i < |list| && list[i].perState ==> MarkGranted(granted, list)[i].perState
    ensures MarkGranted(granted, MarkGranted(granted, list)) == MarkGranted(granted, list)
  {
  }

  /** A launcher result for one permission leaves every other permission's records as they were. */
  lemma WithStateIsLocal(list: seq<AxPermissionModel>, permission: string, isGranted: bool, other: string)
    requires other != permission
    ensures forall i :: 0 <= i < |list| && list[i].permission == other ==> WithState(list, permission, isGranted)[i] == list[i]
    ensures WithState(WithState(list, permission, isGranted), permission, isGranted) == WithState(list, permission, isGranted)
  {
  }
}
