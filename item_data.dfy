/**
 * The initial rows of the permission screen (permission/PermissionItemData.kt):
 * a required section and an optional one, each a header, one row per
 * permission and a footer, numbered 0, 1, 2, ... in order. An empty list
 * has no section at all.
 */
module ItemData {
  import opened Permissions
  import opened Checker
  import opened Items

  const REQUIRED_HEADER: string := "필수 권한"
  const REQUIRED_FOOTER: string := "* 필수 권한은 모두 허용 후에 앱을 이용할 수 있습니다."
  const OPTIONAL_HEADER: string := "선택 권한"
  const OPTIONAL_FOOTER: string := "* 선택 권한은 허용하지 않아도 앱을 이용할 수 있습니다."

  /**
   * `generateItem`: the permission row, granted as the checker reports and
   * never highlighted. Its resource ids are those of the permission.
   */
  function GenerateItem(d: Device, p: Permission, itemId: int, isRequired: bool): (it: Item)
    ensures it.PermissionItem? && it.id == itemId && it.permission == p && it.isRequired == isRequired
    ensures it.isGranted == Check(d, p).IsGranted() && !it.isHighlights
  {
    PermissionItem(itemId, p, p.res.iconResId, p.res.titleResId, p.res.descriptionResId,
                   isRequired, Check(d, p).IsGranted(), false)
  }

  /** The rows of `ps`, numbered from `base`. */
  function RowsFrom(d: Device, ps: seq<Permission>, base: int, isRequired: bool): (rows: seq<Item>)
    ensures |rows| == |ps|
    ensures forall k :: 0 <= k < |ps| ==> rows[k] == GenerateItem(d, ps[k], base + k, isRequired)
  {
    if ps == [] then []
    else RowsFrom(d, ps[..|ps| - 1], base, isRequired) + [GenerateItem(d, ps[|ps| - 1], base + |ps| - 1, isRequired)]
  }

  /** The number of rows a section of `n` permissions takes. */
  function SectionLength(n: nat): nat {
    if n > 0 then n + 2 else 0
  }

  /** One section numbered from `base`: header, rows and footer, or nothing for an empty list. */
  function Section(d: Device, ps: seq<Permission>, base: int, isRequired: bool): seq<Item> {
    if ps == [] then []
    else
      [Header(base, if isRequired then REQUIRED_HEADER else OPTIONAL_HEADER)]
      + RowsFrom(d, ps, base + 1, isRequired)
      + [Footer(base + 1 + |ps|, if isRequired then REQUIRED_FOOTER else OPTIONAL_FOOTER)]
  }

  function InitialItems(d: Device, required: seq<Permission>, optional: seq<Permission>): seq<Item> {
    Section(d, required, 0, true) + Section(d, optional, SectionLength(|required|), false)
  }

  /** A section's layout: its length, its ids from `base`, and where each of its rows sits. */
  lemma SectionLayout(d: Device, ps: seq<Permission>, base: int, isRequired: bool)
    ensures |Section(d, ps, base, isRequired)| == SectionLength(|ps|)
    ensures forall j :: 0 <= j < |Section(d, ps, base, isRequired)| ==> Section(d, ps, base, isRequired)[j].id == base + j
    ensures ps != [] ==> Section(d, ps, base, isRequired)[0].Header?
    ensures ps != [] ==> Section(d, ps, base, isRequired)[|ps| + 1].Footer?
    ensures forall k :: 0 <= k < |ps| ==> Section(d, ps, base, isRequired)[k + 1] == GenerateItem(d, ps[k], base + 1 + k, isRequired)
  {
    if ps != [] {
      var s := Section(d, ps, base, isRequired);
      var rows := RowsFrom(d, ps, base + 1, isRequired);
      forall j | 0 <= j < |s| ensures s[j].id == base + j {
        if 0 < j <= |ps| { assert s[j] == rows[j - 1]; }
      }
      forall k | 0 <= k < |ps| ensures s[k + 1] == GenerateItem(d, ps[k], base + 1 + k, isRequired) {
        assert s[k + 1] == rows[k];
      }
    }
  }

  /** Both lists empty: no rows. */
  lemma EmptyInputsGiveNoItems(d: Device)
    ensures InitialItems(d, [], []) == []
  {
  }

  /** The whole list: its length, and ids 0, 1, 2, ... in order (hence unique). */
  lemma InitialItemsIds(d: Device, required: seq<Permission>, optional: seq<Permission>)
    ensures |InitialItems(d, required, optional)| == SectionLength(|required|) + SectionLength(|optional|)
    ensures forall j :: 0 <= j < |InitialItems(d, required, optional)| ==> InitialItems(d, required, optional)[j].id == j
  {
    var a: seq<Item> := Section(d, required, 0, true);
    var b: seq<Item> := Section(d, optional, SectionLength(|required|), false);
    SectionLayout(d, required, 0, true);
    SectionLayout(d, optional, SectionLength(|required|), false);
    forall j | |a| <= j < |a + b| ensures (a + b)[j].id == j {
      assert (a + b)[j] == b[j - |a|];
    }
  }

  /** The k-th row of the required section shows the k-th required permission; so for the optional section. */
  lemma InitialItemsRows(d: Device, required: seq<Permission>, optional: seq<Permission>)
    ensures forall k :: 0 <= k < |required| ==>
      InitialItems(d, required, optional)[k + 1] == GenerateItem(d, required[k], k + 1, true)
    ensures forall k :: 0 <= k < |optional| ==>
      InitialItems(d, required, optional)[SectionLength(|required|) + k + 1]
        == GenerateItem(d, optional[k], SectionLength(|required|) + k + 1, false)
  {
    forall k | 0 <= k < |required|
      ensures InitialItems(d, required, optional)[k + 1] == GenerateItem(d, required[k], k + 1, true)
    {
      RequiredRowAt(d, required, optional, k);
    }
    forall k | 0 <= k < |optional|
      ensures InitialItems(d, required, optional)[SectionLength(|required|) + k + 1]
        == GenerateItem(d, optional[k], SectionLength(|required|) + k + 1, false)
    {
      OptionalRowAt(d, required, optional, k);
    }
  }

  /** A section's length. */
  lemma SectionSize(d: Device, ps: seq<Permission>, base: int, isRequired: bool)
    ensures |Section(d, ps, base, isRequired)| == SectionLength(|ps|)
  {
  }

  /** The row of the k-th permission sits just after the header. */
  lemma SectionRowAt(d: Device, ps: seq<Permission>, base: int, isRequired: bool, k: nat)
    requires k < |ps|
    ensures Section(d, ps, base, isRequired)[k + 1] == GenerateItem(d, ps[k], base + 1 + k, isRequired)
  {
    var rows := RowsFrom(d, ps, base + 1, isRequired);
    assert Section(d, ps, base, isRequired)[k + 1] == rows[k];
  }

  /** One row of the required section. */
  lemma RequiredRowAt(d: Device, required: seq<Permission>, optional: seq<Permission>, k: nat)
    requires k < |required|
    ensures InitialItems(d, required, optional)[k + 1] == GenerateItem(d, required[k], k + 1, true)
  {
    var a: seq<Item> := Section(d, required, 0, true);
    var b: seq<Item> := Section(d, optional, SectionLength(|required|), false);
    SectionSize(d, required, 0, true);
    SectionRowAt(d, required, 0, true, k);
    assert InitialItems(d, required, optional) == a + b;
    assert (a + b)[k + 1] == a[k + 1];
  }

  /** One row of the optional section. */
  lemma OptionalRowAt(d: Device, required: seq<Permission>, optional: seq<Permission>, k: nat)
    requires k < |optional|
    ensures InitialItems(d, required, optional)[SectionLength(|required|) + k + 1]
      == GenerateItem(d, optional[k], SectionLength(|required|) + k + 1, false)
  {
    var a: seq<Item> := Section(d, required, 0, true);
    var b: seq<Item> := Section(d, optional, SectionLength(|required|), false);
    SectionSize(d, required, 0, true);
    SectionSize(d, optional, SectionLength(|required|), false);
    SectionRowAt(d, optional, SectionLength(|required|), false, k);
    assert InitialItems(d, required, optional) == a + b;
    assert (a + b)[|a| + k + 1] == b[k + 1];
  }

  /** A permission row is required exactly when it sits before the end of the required section. */
  lemma InitialItemsRequiredFirst(d: Device, required: seq<Permission>, optional: seq<Permission>)
    ensures forall j :: 0 <= j < |InitialItems(d, required, optional)| && InitialItems(d, required, optional)[j].PermissionItem? ==>
      (InitialItems(d, required, optional)[j].isRequired <==> j < SectionLength(|required|))
  {
    var a: seq<Item> := Section(d, required, 0, true);
    var b: seq<Item> := Section(d, optional, SectionLength(|required|), false);
    SectionRowsFlag(d, required, 0, true);
    SectionRowsFlag(d, optional, SectionLength(|required|), false);
    forall j | 0 <= j < |a + b| && (a + b)[j].PermissionItem?
      ensures (a + b)[j].isRequired <==> j < |a|
    {
      if j >= |a| { assert (a + b)[j] == b[j - |a|]; }
    }
  }

  /** Every permission row of a section carries the section's flag. */
  lemma SectionRowsFlag(d: Device, ps: seq<Permission>, base: int, isRequired: bool)
    ensures |Section(d, ps, base, isRequired)| == SectionLength(|ps|)
    ensures forall j :: 0 <= j < |Section(d, ps, base, isRequired)| && Section(d, ps, base, isRequired)[j].PermissionItem? ==>
      Section(d, ps, base, isRequired)[j].isRequired == isRequired
  {
    if ps != [] {
      var s := Section(d, ps, base, isRequired);
      var rows := RowsFrom(d, ps, base + 1, isRequired);
      forall j | 0 <= j < |s| && s[j].PermissionItem? ensures s[j].isRequired == isRequired {
        assert 0 < j <= |ps|;
        assert s[j] == rows[j - 1];
      }
    }
  }

  /** Extending the permissions by one appends that permission's row. */
  lemma RowsFromSnoc(d: Device, ps: seq<Permission>, k: nat, base: int, isRequired: bool)
    requires k < |ps|
    ensures RowsFrom(d, ps[..k + 1], base, isRequired) == RowsFrom(d, ps[..k], base, isRequired) + [GenerateItem(d, ps[k], base + k, isRequired)]
  {
    assert ps[..k + 1][..k] == ps[..k];
  }

  /** Appending one item to `a + b` appends it to `b`. */
  lemma SnocRegroups<T>(a: seq<T>, b: seq<T>, x: T)
    ensures (a + b) + [x] == a + (b + [x])
  {
  }

  /** Header, rows and footer appended one after another form one block. */
  lemma FramedRegroups<T>(a: seq<T>, h: T, rows: seq<T>, f: T)
    ensures ((a + [h]) + rows) + [f] == a + ([h] + rows + [f])
  {
  }

  /** The `forEach` of a section: a row per permission, numbered on from `index`. */
  method AppendRows(d: Device, items: seq<Item>, index: int, ps: seq<Permission>, isRequired: bool)
    returns (items': seq<Item>, index': int)
    ensures items' == items + RowsFrom(d, ps, index, isRequired)
    ensures index' == index + |ps|
  {
    items', index' := items, index;
    var k := 0;
    while k < |ps|
      invariant 0 <= k <= |ps|
      invariant index' == index + k
      invariant items' == items + RowsFrom(d, ps[..k], index, isRequired)
    {
      var row := GenerateItem(d, ps[k], index', isRequired);
      RowsFromSnoc(d, ps, k, index, isRequired);
      SnocRegroups(items, RowsFrom(d, ps[..k], index, isRequired), row);
      items' := items' + [row];
      index' := index' + 1;
      k := k + 1;
    }
    assert ps[..|ps|] == ps;
  }

  /** One section of `generateInitialItems`: the header, a row per permission and the footer, numbered on from `index`. */
  method AppendSection(d: Device, items: seq<Item>, index: int, ps: seq<Permission>, isRequired: bool)
    returns (items': seq<Item>, index': int)
    ensures items' == items + Section(d, ps, index, isRequired)
    ensures index' == index + SectionLength(|ps|)
  {
    items', index' := items, index;
    if |ps| > 0 {
      var header := Header(index', if isRequired then REQUIRED_HEADER else OPTIONAL_HEADER);
      items' := items' + [header];
      index' := index' + 1;
      items', index' := AppendRows(d, items', index', ps, isRequired);
      var footer := Footer(index', if isRequired then REQUIRED_FOOTER else OPTIONAL_FOOTER);
      assert Section(d, ps, index, isRequired) == [header] + RowsFrom(d, ps, index + 1, isRequired) + [footer];
      FramedRegroups(items, header, RowsFrom(d, ps, index + 1, isRequired), footer);
      items' := items' + [footer];
      index' := index' + 1;
    }
  }

  /** `generateInitialItems`, with its running `index` counter shared by both sections. */
  method GenerateInitialItems(d: Device, required: seq<Permission>, optional: seq<Permission>) returns (items: seq<Item>)
    ensures items == InitialItems(d, required, optional)
  {
    var index := 0;
    items, index := AppendSection(d, [], index, required, true);
    assert items == Section(d, required, 0, true);
    items, index := AppendSection(d, items, index, optional, false);
  }
}
