/**
 * The state behind the permission screen (ui/PermissionViewModel.kt): the
 * current rows, the values derived from them, and the update that records a
 * new grant result. The flows that publish the derived values are modelled
 * as plain functions of the rows.
 */
module ViewModel {
  import opened Wrappers
  import opened Permissions
  import opened Checker
  import opened Items
  import opened ItemData
  import opened CollectionsExts

  /** `filterIsInstance<Item.PermissionItem>()`: the permission rows, in order; `PermissionItemsAppend` proves the order is kept. */
  function PermissionItems(items: seq<Item>): (r: seq<Item>)
    ensures |r| <= |items|
    ensures forall k :: 0 <= k < |r| ==> r[k].PermissionItem? && r[k] in items
    ensures forall i :: 0 <= i < |items| && items[i].PermissionItem? ==> items[i] in r
    decreases |items|
  {
    if items == [] then []
    else PermissionItems(items[..|items| - 1]) + (if items[|items| - 1].PermissionItem? then [items[|items| - 1]] else [])
  }

  /** Filtering distributes over concatenation, so it keeps the relative order of the rows. */
  lemma {:induction false} PermissionItemsAppend(a: seq<Item>, b: seq<Item>)
    ensures PermissionItems(a + b) == PermissionItems(a) + PermissionItems(b)
    decreases |b|
  {
    if b == [] {
      assert a + b == a;
    } else {
      var init := b[..|b| - 1];
      assert (a + b)[..|a + b| - 1] == a + init;
      PermissionItemsAppend(a, init);
    }
  }

  /** `isAllPermissionsGranted`. */
  function IsAllPermissionsGranted(items: seq<Item>): (r: bool)
    ensures r <==> forall i :: 0 <= i < |items| && items[i].PermissionItem? ==> items[i].isGranted
  {
    var ps := PermissionItems(items);
    var all := forall k :: 0 <= k < |ps| ==> ps[k].isGranted;
    assert all ==> forall i :: 0 <= i < |items| && items[i].PermissionItem? ==> items[i].isGranted by {
      if all {
        forall i | 0 <= i < |items| && items[i].PermissionItem? ensures items[i].isGranted {
          var k :| 0 <= k < |ps| && ps[k] == items[i];
        }
      }
    }
    all
  }

  /** `isRequiredPermissionsAllGranted`: every required row granted, vacuously so with none. */
  function IsRequiredPermissionsAllGranted(items: seq<Item>): (r: bool)
    ensures r <==> forall i :: 0 <= i < |items| && items[i].PermissionItem? && items[i].isRequired ==> items[i].isGranted
  {
    var ps := PermissionItems(items);
    var all := forall k :: 0 <= k < |ps| && ps[k].isRequired ==> ps[k].isGranted;
    assert all ==> forall i :: 0 <= i < |items| && items[i].PermissionItem? && items[i].isRequired ==> items[i].isGranted by {
      if all {
        forall i | 0 <= i < |items| && items[i].PermissionItem? && items[i].isRequired ensures items[i].isGranted {
          var k :| 0 <= k < |ps| && ps[k] == items[i];
        }
      }
    }
    all
  }

  /** `isOptionalPermissionsAllGranted`: every optional row granted, vacuously so with none. */
  function IsOptionalPermissionsAllGranted(items: seq<Item>): (r: bool)
    ensures r <==> forall i :: 0 <= i < |items| && items[i].PermissionItem? && items[i].IsOptional() ==> items[i].isGranted
  {
    var ps := PermissionItems(items);
    var all := forall k :: 0 <= k < |ps| && ps[k].IsOptional() ==> ps[k].isGranted;
    assert all ==> forall i :: 0 <= i < |items| && items[i].PermissionItem? && items[i].IsOptional() ==> items[i].isGranted by {
      if all {
        forall i | 0 <= i < |items| && items[i].PermissionItem? && items[i].IsOptional() ensures items[i].isGranted {
          var k :| 0 <= k < |ps| && ps[k] == items[i];
        }
      }
    }
    all
  }

  /** All granted is exactly required-all-granted and optional-all-granted. */
  lemma AllGrantedSplits(items: seq<Item>)
    ensures IsAllPermissionsGranted(items) <==> IsRequiredPermissionsAllGranted(items) && IsOptionalPermissionsAllGranted(items)
  {
  }

  /** The predicate `firstNotGrantedPermissionItemIndex` searches with. */
  function IsNotGrantedRow(it: Item): bool {
    it.PermissionItem? && it.IsNotGranted()
  }

  /**
   * `firstNotGrantedPermissionItemIndex`: the position, among the permission
   * rows, of the first one not granted; none when all are granted.
   */
  function FirstNotGrantedPermissionItemIndex(items: seq<Item>): (r: Option<nat>)
    ensures r.None? <==> IsAllPermissionsGranted(items)
    ensures r.Some? ==> r.value < |PermissionItems(items)| && !PermissionItems(items)[r.value].isGranted
    ensures r.Some? ==> forall j :: 0 <= j < r.value ==> PermissionItems(items)[j].isGranted
  {
    var ps := PermissionItems(items);
    var index := FirstIndexWhere(ps, IsNotGrantedRow);
    if index >= 0 then Some(index)
    else
      assert IsAllPermissionsGranted(items) by {
        forall i | 0 <= i < |items| && items[i].PermissionItem? ensures items[i].isGranted {
          var k :| 0 <= k < |ps| && ps[k] == items[i];
          assert !IsNotGrantedRow(ps[k]);
        }
      }
      None
  }

  /** One row after `updatePermissionGrantedState`. */
  function UpdatedItem(it: Item, permission: Permission, isGranted: bool): Item {
    if it.PermissionItem? && Equals(it.permission, permission) then it.(isGranted := isGranted) else it
  }

  /** The rows after `updatePermissionGrantedState`: each row mapped on its own. */
  function Updated(items: seq<Item>, permission: Permission, isGranted: bool): (r: seq<Item>)
    ensures |r| == |items|
  {
    seq(|items|, i requires 0 <= i < |items| => UpdatedItem(items[i], permission, isGranted))
  }

  /**
   * The update keeps length, order and ids, sets `isGranted` exactly on the
   * permission rows whose permission equals the argument, and leaves every
   * other field and every other row as it was.
   */
  lemma UpdatedChangesOnlyMatchingGrants(items: seq<Item>, permission: Permission, isGranted: bool)
    ensures |Updated(items, permission, isGranted)| == |items|
    ensures forall i :: 0 <= i < |items| ==> Updated(items, permission, isGranted)[i].id == items[i].id
    ensures forall i :: 0 <= i < |items| && items[i].PermissionItem? && Equals(items[i].permission, permission) ==>
      Updated(items, permission, isGranted)[i] == items[i].(isGranted := isGranted)
    ensures forall i :: 0 <= i < |items| && !(items[i].PermissionItem? && Equals(items[i].permission, permission)) ==>
      Updated(items, permission, isGranted)[i] == items[i]
  {
  }

  /** Updating twice with the same arguments is updating once. */
  lemma UpdatedIsIdempotent(items: seq<Item>, permission: Permission, isGranted: bool)
    ensures Updated(Updated(items, permission, isGranted), permission, isGranted) == Updated(items, permission, isGranted)
  {
  }

  /** After granting a permission, no row showing it is reported as not granted. */
  lemma GrantedRowsAfterUpdate(items: seq<Item>, permission: Permission)
    ensures forall i :: 0 <= i < |items| && items[i].PermissionItem? && Equals(items[i].permission, permission) ==>
      Updated(items, permission, true)[i].isGranted
    ensures IsAllPermissionsGranted(items) ==> IsAllPermissionsGranted(Updated(items, permission, true))
  {
  }

  class PermissionViewModel {
    var items: seq<Item>

    /** `init`: the rows start as the initial rows of both lists. */
    constructor(d: Device, requiredPermissions: seq<Permission>, optionalPermissions: seq<Permission>)
      ensures items == InitialItems(d, requiredPermissions, optionalPermissions)
    {
      var generated := GenerateInitialItems(d, requiredPermissions, optionalPermissions);
      items := generated;
    }

    function FirstNotGrantedIndex(): Option<nat>
      reads this
    {
      FirstNotGrantedPermissionItemIndex(items)
    }

    /** `updatePermissionGrantedState`: replaces the rows with their updated copy. */
    method UpdatePermissionGrantedState(permissionType: Permission, isGranted: bool)
      modifies this
      ensures items == Updated(old(items), permissionType, isGranted)
    {
      items := Updated(items, permissionType, isGranted);
    }
  }
}
