/**
 * The search helper of util/CollectionsExts.kt: the index of the first
 * element at or after `startIndex` that satisfies a predicate, or -1.
 */
module CollectionsExts {
  import opened Wrappers

  /**
   * The ordinary first-match search (the standard library's one-argument
   * `indexOfFirst`), the reference the helper is compared with.
   */
  function FirstIndexWhere<T>(list: seq<T>, matches: T -> bool): (r: int)
    ensures -1 <= r < |list|
    ensures r >= 0 ==> matches(list[r]) && forall j :: 0 <= j < r ==> !matches(list[j])
    ensures r == -1 ==> forall j :: 0 <= j < |list| ==> !matches(list[j])
  {
    if list == [] then -1
    else if matches(list[0]) then 0
    else
      var rest := FirstIndexWhere(list[1..], matches);
      if rest < 0 then -1 else rest + 1
  }

  /** Any index that is the first match from 0 (or -1 with no match) is the one the reference search finds. */
  lemma FirstMatchIsUnique<T>(list: seq<T>, matches: T -> bool, r: int)
    requires -1 <= r < |list|
    requires r >= 0 ==> matches(list[r]) && forall j :: 0 <= j < r ==> !matches(list[j])
    requires r == -1 ==> forall j :: 0 <= j < |list| ==> !matches(list[j])
    ensures r == FirstIndexWhere(list, matches)
  {
  }

  /**
   * `indexOfFirst(startIndex, predicate)`: walks `startIndex..lastIndex` and
   * returns the first index whose element satisfies the predicate. A
   * negative `startIndex` reads `this[startIndex]` and throws; a
   * `startIndex` past the end finds nothing.
   */
  method IndexOfFirst<T>(list: seq<T>, startIndex: int, matches: T -> bool) returns (r: Result<int>)
    ensures startIndex < 0 ==> r == Failure(IndexOutOfBounds(startIndex))
    ensures startIndex >= 0 ==> r.Success? && (r.value == -1 || startIndex <= r.value < |list|)
    ensures startIndex >= 0 && r.Success? && r.value >= 0 ==>
      matches(list[r.value]) && forall j :: startIndex <= j < r.value ==> !matches(list[j])
    ensures startIndex >= 0 && r == Success(-1) ==> forall j :: startIndex <= j < |list| ==> !matches(list[j])
    ensures startIndex >= |list| ==> r == Success(-1)
    ensures startIndex == 0 ==> r == Success(FirstIndexWhere(list, matches))
  {
    var index := startIndex;
    while index < |list|
      invariant index == startIndex || 0 <= startIndex <= index <= |list|
      invariant forall j :: startIndex <= j < index ==> 0 <= j < |list| && !matches(list[j])
    {
      if index < 0 {
        return Failure(IndexOutOfBounds(index));
      }
      if matches(list[index]) {
        if startIndex == 0 {
          FirstMatchIsUnique(list, matches, index);
        }
        return Success(index);
      }
      index := index + 1;
    }
    if startIndex == 0 {
      FirstMatchIsUnique(list, matches, -1);
    }
    r := Success(-1);
  }
}
