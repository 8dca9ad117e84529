/**
 * The rationale history (permission/PermissionRequestTracker.kt): a private
 * preferences file that remembers, per permission string, that the system
 * once asked the app to show a rationale. The preferences file becomes a
 * map from key to boolean; storage I/O is not modelled.
 */
module Tracker {

  const PREFS_NAME: string := "ax_permission_tracker"
  const KEY_PREFIX_RATIONALE_SHOWN: string := "rationale_shown_"

  /** The preferences key of a permission. */
  function Key(permission: string): (k: string)
    ensures |k| == |KEY_PREFIX_RATIONALE_SHOWN| + |permission|
    ensures k[..|KEY_PREFIX_RATIONALE_SHOWN|] == KEY_PREFIX_RATIONALE_SHOWN
    ensures k[|KEY_PREFIX_RATIONALE_SHOWN|..] == permission
  {
    KEY_PREFIX_RATIONALE_SHOWN + permission
  }

  /** Distinct permissions have distinct keys. */
  lemma KeyInjective(p: string, q: string)
    ensures Key(p) == Key(q) <==> p == q
  {
    if Key(p) == Key(q) {
      assert p == Key(p)[|KEY_PREFIX_RATIONALE_SHOWN|..] == Key(q)[|KEY_PREFIX_RATIONALE_SHOWN|..] == q;
    }
  }

  /** `getBoolean(key, false)`. */
  function GetBoolean(prefs: map<string, bool>, key: string): bool {
    key in prefs && prefs[key]
  }

  /** Whether the history records a rationale for `permission`. */
  function ShownIn(prefs: map<string, bool>, permission: string): bool {
    GetBoolean(prefs, Key(permission))
  }

  /** The store after marking each permission of the list, in order. */
  function MarkedAll(prefs: map<string, bool>, permissions: seq<string>): (r: map<string, bool>)
    decreases |permissions|
  {
    if permissions == [] then prefs
    else MarkedAll(prefs, permissions[..|permissions| - 1])[Key(permissions[|permissions| - 1]) := true]
  }

  lemma MarkThenShown(prefs: map<string, bool>, p: string, q: string)
    ensures ShownIn(prefs[Key(p) := true], p)
    ensures q != p ==> ShownIn(prefs[Key(p) := true], q) == ShownIn(prefs, q)
  {
    KeyInjective(p, q);
  }

  /** Marking a list records exactly its elements and leaves every other permission as it was. */
  lemma {:induction false} MarkedAllSpec(prefs: map<string, bool>, permissions: seq<string>, q: string)
    ensures ShownIn(MarkedAll(prefs, permissions), q) == (q in permissions || ShownIn(prefs, q))
    decreases |permissions|
  {
    if permissions != [] {
      var init := permissions[..|permissions| - 1];
      var last := permissions[|permissions| - 1];
      MarkedAllSpec(prefs, init, q);
      MarkThenShown(MarkedAll(prefs, init), last, q);
      assert permissions == init + [last];
    }
  }

  lemma ClearSpec(prefs: map<string, bool>, p: string, q: string)
    ensures !ShownIn(prefs - {Key(p)}, p)
    ensures q != p ==> ShownIn(prefs - {Key(p)}, q) == ShownIn(prefs, q)
  {
    KeyInjective(p, q);
  }

  lemma ClearAllSpec(q: string)
    ensures !ShownIn(map[], q)
  {
  }

  /** A store that never saw a permission reads false for it. */
  lemma NeverMarkedReadsFalse(prefs: map<string, bool>, q: string)
    requires Key(q) !in prefs
    ensures !ShownIn(prefs, q)
  {
  }

  class PermissionRequestTracker {
    var prefs: map<string, bool>

    constructor(initial: map<string, bool>)
      ensures prefs == initial
    {
      prefs := initial;
    }

    function WasShown(permission: string): bool
      reads this
    {
      ShownIn(prefs, permission)
    }

    method MarkRationaleShown(permission: string)
      modifies this
      ensures prefs == old(prefs)[Key(permission) := true]
      ensures WasShown(permission)
      ensures forall q :: q != permission ==> WasShown(q) == old(WasShown(q))
    {
      prefs := prefs[Key(permission) := true];
      forall q | q != permission
        ensures WasShown(q) == old(WasShown(q))
      {
        MarkThenShown(old(prefs), permission, q);
      }
    }

    /** The list overload: one editor, one `putBoolean` per element. */
    method MarkRationaleShownAll(permissions: seq<string>)
      modifies this
      ensures prefs == MarkedAll(old(prefs), permissions)
      ensures forall q :: WasShown(q) == (q in permissions || old(WasShown(q)))
    {
      var editor := prefs;
      var i := 0;
      while i < |permissions|
        invariant 0 <= i <= |permissions|
        invariant editor == MarkedAll(prefs, permissions[..i])
      {
        assert permissions[..i + 1][..i] == permissions[..i];
        editor := editor[Key(permissions[i]) := true];
        i := i + 1;
      }
      assert permissions[..|permissions|] == permissions;
      prefs := editor;
      forall q
        ensures WasShown(q) == (q in permissions || old(WasShown(q)))
      {
        MarkedAllSpec(old(prefs), permissions, q);
      }
    }

    method WasRationaleEverShown(permission: string) returns (shown: bool)
      ensures shown == WasShown(permission)
      ensures shown <==> Key(permission) in prefs && prefs[Key(permission)]
    {
      shown := GetBoolean(prefs, Key(permission));
    }

    method Clear(permission: string)
      modifies this
      ensures prefs == old(prefs) - {Key(permission)}
      ensures !WasShown(permission)
      ensures forall q :: q != permission ==> WasShown(q) == old(WasShown(q))
    {
      prefs := prefs - {Key(permission)};
      forall q | q != permission
        ensures WasShown(q) == old(WasShown(q))
      {
        ClearSpec(old(prefs), permission, q);
      }
    }

    method ClearAll()
      modifies this
      ensures prefs == map[]
      ensures forall q :: !WasShown(q)
    {
      prefs := map[];
    }
  }
}
