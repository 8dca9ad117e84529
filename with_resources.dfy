/**
 * Attaching resource ids to the enum-style permissions (`Permission2`, one
 * manifest or settings constant each) and to their groups
 * (model/PermissionsWithResources.kt).
 *
 * The default resources of a `Permission2` and of a `PermissionGroup`
 * (`getDefaultResources`, `getDefaultResourcesOrThrow`) are not part of this
 * model; their outcome is a parameter.
 */
module WithResources {
  import opened Wrappers
  import opened Permissions

  /** `Permission2.Special` and `Permission2.Runtime` enum entries, by their constant. */
  datatype Permission2 = Special2(constant: string) | Runtime2(constant: string)

  /** `PermissionGroup`: a list of runtime enum entries. */
  datatype PermissionGroup = PermissionGroup(permissions: seq<Permission2>)

  /** The wrapped permissions with their ids; the icon is nullable, as declared. */
  datatype PermissionsWithResources = PermissionsWithResources(
    permissions: seq<Permission2>,
    iconResId: Option<ResId>,
    titleResId: ResId,
    descriptionResId: ResId)

  /**
   * `Permission2.withResourcesInternal`: the permission alone, each id
   * falling back to the default on its own.
   */
  function WithResourcesSingle(p: Permission2, icon: Option<ResId>, title: Option<ResId>, description: Option<ResId>,
                               defaults: ResourceIds): (r: PermissionsWithResources)
    ensures r.permissions == [p]
    ensures r.iconResId == Some(icon.GetOr(defaults.iconResId))
    ensures r.titleResId == title.GetOr(defaults.titleResId)
    ensures r.descriptionResId == description.GetOr(defaults.descriptionResId)
  {
    PermissionsWithResources([p], Some(icon.GetOr(defaults.iconResId)), title.GetOr(defaults.titleResId),
                             description.GetOr(defaults.descriptionResId))
  }

  /**
   * `PermissionGroup.withResourcesInternal`: with all three ids given they
   * are used as they are; with any missing, all three come from the
   * defaults (whose lookup may throw) and the given ones are dropped.
   */
  function WithResourcesGroup(g: PermissionGroup, icon: Option<ResId>, title: Option<ResId>, description: Option<ResId>,
                              defaultsOrThrow: Result<ResourceIds>): (r: Result<PermissionsWithResources>)
    ensures r.Success? ==> r.value.permissions == g.permissions
    ensures icon.Some? && title.Some? && description.Some? ==>
      r == Success(PermissionsWithResources(g.permissions, icon, title.value, description.value))
    ensures !(icon.Some? && title.Some? && description.Some?) ==>
      (r.Failure? <==> defaultsOrThrow.Failure?) &&
      (r.Failure? ==> r.error == defaultsOrThrow.error) &&
      (r.Success? ==> r.value.iconResId == Some(defaultsOrThrow.value.iconResId) &&
                      r.value.titleResId == defaultsOrThrow.value.titleResId &&
                      r.value.descriptionResId == defaultsOrThrow.value.descriptionResId)
  {
    if icon.Some? && title.Some? && description.Some? then
      Success(PermissionsWithResources(g.permissions, icon, title.value, description.value))
    else
      var resources :- defaultsOrThrow;
      Success(PermissionsWithResources(g.permissions, Some(resources.iconResId), resources.titleResId,
                                       resources.descriptionResId))
  }

  /** Supplying one id of a single permission changes no other field. */
  lemma SingleFallbackIsPerField(p: Permission2, icon: Option<ResId>, icon': Option<ResId>, title: Option<ResId>,
                                 description: Option<ResId>, defaults: ResourceIds)
    ensures WithResourcesSingle(p, icon, title, description, defaults).titleResId
         == WithResourcesSingle(p, icon', title, description, defaults).titleResId
    ensures WithResourcesSingle(p, icon, title, description, defaults).descriptionResId
         == WithResourcesSingle(p, icon', title, description, defaults).descriptionResId
  {
  }

  /** With any id missing, the ids a group call was given make no difference to its result. */
  lemma GroupPartialIdsAreDiscarded(g: PermissionGroup,
                                    i1: Option<ResId>, t1: Option<ResId>, d1: Option<ResId>,
                                    i2: Option<ResId>, t2: Option<ResId>, d2: Option<ResId>,
                                    defaultsOrThrow: Result<ResourceIds>)
    requires !(i1.Some? && t1.Some? && d1.Some?)
    requires !(i2.Some? && t2.Some? && d2.Some?)
    ensures WithResourcesGroup(g, i1, t1, d1, defaultsOrThrow) == WithResourcesGroup(g, i2, t2, d2, defaultsOrThrow)
  {
  }

  /** With all three ids given the defaults are never consulted, so a throwing lookup cannot fail the call. */
  lemma GroupFullIdsIgnoreDefaults(g: PermissionGroup, icon: ResId, title: ResId, description: ResId,
                                   e1: Result<ResourceIds>, e2: Result<ResourceIds>)
    ensures WithResourcesGroup(g, Some(icon), Some(title), Some(description), e1)
         == WithResourcesGroup(g, Some(icon), Some(title), Some(description), e2)
    ensures WithResourcesGroup(g, Some(icon), Some(title), Some(description), e1).Success?
  {
  }
}
