/**
 * The rows of the permission list (model/Item.kt): section headers and
 * footers, dividers, permission rows and the bottom spacer, each with a
 * list-wide id, and the callback DiffUtil compares them with.
 */
module Items {
  import opened Permissions

  /**
   * One row. A permission row carries the permission it shows, its three
   * resource ids and the flags the screen renders.
   */
  datatype Item =
    | Header(id: int, text: string)
    | Footer(id: int, text: string)
    | Divider(id: int)
    | PermissionItem(id: int, permission: Permission, iconResId: ResId, titleResId: ResId, descriptionResId: ResId,
                     isRequired: bool, isGranted: bool, isHighlights: bool)
    | EmptySpaceFooter(id: int)
  {
    predicate IsOptional() requires PermissionItem? { !isRequired }
    predicate IsNotGranted() requires PermissionItem? { !isGranted }
  }

  lemma DerivedFlagsAreNegations(it: Item)
    requires it.PermissionItem?
    ensures it.IsOptional() <==> !it.isRequired
    ensures it.IsNotGranted() <==> !it.isGranted
  {
  }

  /** `areItemsTheSame`: the same row when the ids agree. */
  function AreItemsTheSame(a: Item, b: Item): (r: bool)
    ensures a == b ==> r
    ensures r ==> b.id == a.id
  {
    a.id == b.id
  }

  /**
   * `areContentsTheSame`: data-class equality, which compares every field,
   * the permission by its own overridden `equals`.
   */
  function AreContentsTheSame(a: Item, b: Item): (r: bool)
    ensures a == b ==> r
    ensures r ==> a.id == b.id && (a.PermissionItem? <==> b.PermissionItem?)
  {
    match a
    case PermissionItem(id, p, icon, title, description, req, granted, highlights) =>
      b.PermissionItem? && b.id == id && Equals(p, b.permission) && b.iconResId == icon && b.titleResId == title &&
      b.descriptionResId == description && b.isRequired == req && b.isGranted == granted && b.isHighlights == highlights
    case _ => a == b
  }

  /** Same contents imply the same row; equal rows have the same contents; the relation is symmetric. */
  lemma ContentsSameImpliesItemsSame(a: Item, b: Item)
    ensures AreContentsTheSame(a, b) ==> AreItemsTheSame(a, b)
    ensures a == b ==> AreContentsTheSame(a, b)
    ensures AreContentsTheSame(a, b) <==> AreContentsTheSame(b, a)
  {
    if a.PermissionItem? && b.PermissionItem? {
      EqualsIsEquivalence(a.permission, b.permission, a.permission);
    }
  }

  /** Two rows showing equal permissions with different resource ids on the permission still compare the same. */
  lemma ContentsIgnorePermissionResources(a: Item, r: ResourceIds)
    requires a.PermissionItem?
    ensures AreContentsTheSame(a, a.(permission := a.permission.(res := r)))
  {
  }
}
