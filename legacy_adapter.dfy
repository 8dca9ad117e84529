/**
 * The list adapter of the legacy permission screen
 * (kr/.../AxPermissionAdapter.kt): sections of records, each shown as a
 * header row followed by one row per record. A position is resolved by
 * walking the headers with a running position; the walk is the function
 * `Locate`, and both position queries of the adapter are proved to follow it.
 */
module LegacyAdapter {
  import opened Wrappers
  import opened LegacySettings

  const VIEW_TYPE_HEADER: int := 0
  const VIEW_TYPE_BODY: int := 1
  const INVALID_POSITION: string := "Invalid position"

  /** `perItemMap`: a section's title to its records. */
  type Sections = map<string, seq<AxPermissionModel>>

  /** `map.keys.toList()`: every key once, in the map's iteration order. */
  predicate IsKeyOrder(m: Sections, headers: seq<string>) {
    (forall i :: 0 <= i < |headers| ==> headers[i] in m) &&
    (forall k :: k in m ==> k in headers) &&
    (forall i, j :: 0 <= i < j < |headers| ==> headers[i] != headers[j])
  }

  /** The number of body rows of a header; a header without records has none. */
  function Size(m: Sections, header: string): nat {
    if header in m then |m[header]| else 0
  }

  /** The body rows of all the headers. */
  function SumSizes(m: Sections, headers: seq<string>): nat
    decreases |headers|
  {
    if headers == [] then 0 else Size(m, headers[0]) + SumSizes(m, headers[1..])
  }

  /** What sits at a position: a section's header, or the record at `index` of its list. */
  datatype Row = HeaderRow(header: string) | BodyRow(header: string, index: int)

  /**
   * The walk of `getItemViewType` and `onBindViewHolder`, resuming at header
   * list `headers` with running position `current`: a header takes one
   * position, its records the next `Size` positions.
   */
  function Locate(m: Sections, headers: seq<string>, position: int, current: int): (r: Option<Row>)
    ensures r.Some? && r.value.BodyRow? ==> r.value.header in m && r.value.index < |m[r.value.header]|
    ensures r.Some? && r.value.BodyRow? && current <= position ==> 0 <= r.value.index
    decreases |headers|
  {
    if headers == [] then None
    else if current == position then Some(HeaderRow(headers[0]))
    else if headers[0] in m && position < current + 1 + |m[headers[0]]| then Some(BodyRow(headers[0], position - (current + 1)))
    else Locate(m, headers[1..], position, current + 1 + Size(m, headers[0]))
  }

  /** The position of the header of section `i`. */
  function Offset(m: Sections, headers: seq<string>, i: nat): nat
    requires i <= |headers|
  {
    i + SumSizes(m, headers[..i])
  }

  /** `getItemViewType` as a function of the walk; a position past the last row throws. */
  function ViewTypeOf(row: Option<Row>): Result<int> {
    match row
    case None => Failure(IllegalArgument(INVALID_POSITION))
    case Some(HeaderRow(_)) => Success(VIEW_TYPE_HEADER)
    case Some(BodyRow(_, _)) => Success(VIEW_TYPE_BODY)
  }

  /** What `onBindViewHolder` does to its holder. */
  datatype Bind =
    | BindHeader(header: string, titleVisible: bool)
    | BindBody(model: AxPermissionModel)
    | NoBind

  /** `headerBind`: the title is hidden exactly when its section exists and is empty. */
  predicate HeaderVisible(m: Sections, header: string) {
    !(header in m && |m[header]| == 0)
  }

  /** `onBindViewHolder` as a function of the walk; a negative list index throws. */
  function BindOf(m: Sections, row: Option<Row>): Result<Bind>
    requires row.Some? && row.value.BodyRow? ==> row.value.header in m && row.value.index < |m[row.value.header]|
  {
    match row
    case None => Success(NoBind)
    case Some(HeaderRow(h)) => Success(BindHeader(h, HeaderVisible(m, h)))
    case Some(BodyRow(h, i)) => if 0 <= i then Success(BindBody(m[h][i])) else Failure(IndexOutOfBounds(i))
  }

  lemma {:induction false} SumSizesPrefix(m: Sections, headers: seq<string>, i: nat)
    requires 0 < i <= |headers|
    ensures SumSizes(m, headers[..i]) == Size(m, headers[0]) + SumSizes(m, headers[1..][..i - 1])
  {
    assert headers[..i][1..] == headers[1..][..i - 1];
  }

  /**
   * Section `i` occupies `1 + Size` consecutive positions from its offset:
   * its header first, then its records in list order.
   */
  lemma {:induction false} LocateSection(m: Sections, headers: seq<string>, i: nat, k: nat, current: int)
    requires i < |headers|
    ensures Locate(m, headers, current + Offset(m, headers, i), current) == Some(HeaderRow(headers[i]))
    ensures k < Size(m, headers[i]) ==>
      Locate(m, headers, current + Offset(m, headers, i) + 1 + k, current) == Some(BodyRow(headers[i], k))
    decreases i
  {
    if i > 0 {
      SumSizesPrefix(m, headers, i);
      var next := current + 1 + Size(m, headers[0]);
      assert current + Offset(m, headers, i) == next + Offset(m, headers[1..], i - 1);
      LocateSection(m, headers[1..], i - 1, k, next);
    }
  }

  /**
   * Conversely, whatever the walk finds sits where `LocateSection` puts it:
   * a header at its section's offset, a record right behind it.
   */
  lemma {:induction false} LocateInverse(m: Sections, headers: seq<string>, position: int, current: int)
    requires Locate(m, headers, position, current).Some?
    ensures var row := Locate(m, headers, position, current).value;
      exists i :: 0 <= i < |headers| && headers[i] == row.header &&
        (row.HeaderRow? ==> position == current + Offset(m, headers, i)) &&
        (row.BodyRow? ==> position == current + Offset(m, headers, i) + 1 + row.index)
    decreases |headers|
  {
    var row := Locate(m, headers, position, current).value;
    if current == position {
      assert headers[0] == row.header && position == current + Offset(m, headers, 0);
    } else if headers[0] in m && position < current + 1 + |m[headers[0]]| {
      assert headers[0] == row.header && position == current + Offset(m, headers, 0) + 1 + row.index;
    } else {
      var next := current + 1 + Size(m, headers[0]);
      LocateInverse(m, headers[1..], position, next);
      var i :| 0 <= i < |headers[1..]| && headers[1..][i] == row.header &&
        (row.HeaderRow? ==> position == next + Offset(m, headers[1..], i)) &&
        (row.BodyRow? ==> position == next + Offset(m, headers[1..], i) + 1 + row.index);
      SumSizesPrefix(m, headers, i + 1);
      assert current + Offset(m, headers, i + 1) == next + Offset(m, headers[1..], i);
    }
  }

  /** From the running position on, the walk finds a row exactly below `current + headers + records`. */
  lemma {:induction false} LocateCovers(m: Sections, headers: seq<string>, position: int, current: int)
    requires current <= position
    ensures Locate(m, headers, position, current).Some? <==> position < current + |headers| + SumSizes(m, headers)
    decreases |headers|
  {
    if headers != [] && current != position && !(headers[0] in m && position < current + 1 + |m[headers[0]]|) {
      LocateCovers(m, headers[1..], position, current + 1 + Size(m, headers[0]));
    }
  }

  /** `getItemViewType` answers HEADER exactly where `onBindViewHolder` binds a header. */
  lemma HeaderTypeIffHeaderBind(m: Sections, headers: seq<string>, position: int)
    ensures ViewTypeOf(Locate(m, headers, position, 0)) == Success(VIEW_TYPE_HEADER) <==>
      BindOf(m, Locate(m, headers, position, 0)).Success? && BindOf(m, Locate(m, headers, position, 0)).value.BindHeader?
    ensures ViewTypeOf(Locate(m, headers, position, 0)) == Success(VIEW_TYPE_BODY) && position >= 0 ==>
      BindOf(m, Locate(m, headers, position, 0)).Success? && BindOf(m, Locate(m, headers, position, 0)).value.BindBody?
  {
  }

  class AxPermissionAdapter {
    var perItemMap: Sections
    var headers: seq<string>
    var itemCount: int

    constructor()
      ensures perItemMap == map[] && headers == [] && itemCount == 0
      ensures Valid()
    {
      perItemMap := map[];
      headers := [];
      itemCount := 0;
    }

    /** The fields agree: `headers` are the map's keys and `itemCount` counts headers and records. */
    predicate Valid()
      reads this
    {
      IsKeyOrder(perItemMap, headers) && itemCount == |headers| + SumSizes(perItemMap, headers)
    }

    /**
     * `setPerItemMap(map)`. `keyOrder` is the map's iteration order. Summing
     * the sizes over the keys sums them over the values, each key occurring once.
     */
    method SetPerItemMap(m: Sections, keyOrder: seq<string>)
      requires IsKeyOrder(m, keyOrder)
      modifies this
      ensures perItemMap == m && headers == keyOrder && itemCount == |keyOrder| + SumSizes(m, keyOrder)
      ensures Valid()
    {
      perItemMap := m;
      headers := keyOrder;
      itemCount := SumSizes(m, keyOrder) + |headers|;
    }

    /** `getItemCount()`. */
    function GetItemCount(): (n: int)
      reads this
      ensures Valid() ==> n >= |headers|
    {
      itemCount
    }

    /**
     * Every position from 0 below the count holds exactly one row, a header
     * or a record; from the count on there is none.
     */
    lemma PositionsBelowCount(position: int)
      requires Valid() && 0 <= position
      ensures Locate(perItemMap, headers, position, 0).Some? <==> position < GetItemCount()
    {
      LocateCovers(perItemMap, headers, position, 0);
    }

    /** `getItemViewType(position)`. */
    method GetItemViewType(position: int) returns (r: Result<int>)
      ensures r == ViewTypeOf(Locate(perItemMap, headers, position, 0))
    {
      var currentPosition := 0;
      var i := 0;
      while i < |headers|
        invariant 0 <= i <= |headers|
        invariant Locate(perItemMap, headers, position, 0) == Locate(perItemMap, headers[i..], position, currentPosition)
      {
        var header := headers[i];
        assert headers[i..][0] == header && headers[i..][1..] == headers[i + 1..];
        if currentPosition == position {
          return Success(VIEW_TYPE_HEADER);
        }
        currentPosition := currentPosition + 1;
        if header in perItemMap {
          var items := perItemMap[header];
          if position < currentPosition + |items| {
            return Success(VIEW_TYPE_BODY);
          }
          currentPosition := currentPosition + |items|;
        }
        i := i + 1;
      }
      return Failure(IllegalArgument(INVALID_POSITION));
    }

    /** `onBindViewHolder(holder, position)`: which holder binding happens. */
    method OnBindViewHolder(position: int) returns (r: Result<Bind>)
      ensures r == BindOf(perItemMap, Locate(perItemMap, headers, position, 0))
    {
      var currentPosition := 0;
      var i := 0;
      while i < |headers|
        invariant 0 <= i <= |headers|
        invariant Locate(perItemMap, headers, position, 0) == Locate(perItemMap, headers[i..], position, currentPosition)
      {
        var header := headers[i];
        assert headers[i..][0] == header && headers[i..][1..] == headers[i + 1..];
        if currentPosition == position {
          return Success(BindHeader(header, HeaderVisible(perItemMap, header)));
        }
        currentPosition := currentPosition + 1;
        if header in perItemMap {
          var items := perItemMap[header];
          if position < currentPosition + |items| {
            var index := position - currentPosition;
            if index < 0 {
              return Failure(IndexOutOfBounds(index));
            }
            return Success(BindBody(items[index]));
          }
          currentPosition := currentPosition + |items|;
        }
        i := i + 1;
      }
      return Success(NoBind);
    }
  }
}
