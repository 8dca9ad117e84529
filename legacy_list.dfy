/**
 * The request list of the legacy library (kr/.../util/AxPermissionList.kt):
 * records of a permission string with an optional title and description
 * override, kept in insertion order, and their parcel encoding. A parcel is
 * a sequence of typed slots read back in the order they were written.
 */
module LegacyList {
  import opened Wrappers

  /** `AxPermission(permission, title, description)`. */
  datatype AxPermission = AxPermission(permission: string, title: string, description: string)

  /** `toString()`: the permission and the description, not the title. */
  function RecordToString(r: AxPermission): (s: string)
    ensures |s| == 43 + |r.permission| + |r.description|
  {
    "AxPermission(permission='" + r.permission + "', description='" + r.description + "')"
  }

  lemma RecordToStringOmitsTitle(r: AxPermission, title: string)
    ensures RecordToString(r.(title := title)) == RecordToString(r)
    ensures RecordToString(r)[..|"AxPermission(permission='"| + |r.permission|] == "AxPermission(permission='" + r.permission
  {
    var s := RecordToString(r);
    assert s == ("AxPermission(permission='" + r.permission) + ("', description='" + r.description + "')");
  }

  // ----- parcels -----

  /** One slot of a parcel: an int, or a string that may be null. */
  datatype ParcelValue = PInt(i: int) | PString(s: Option<string>)

  /** `writeToParcel`: the three strings in declaration order. */
  function WriteRecord(r: AxPermission): (p: seq<ParcelValue>)
    ensures |p| == 3
  {
    [PString(Some(r.permission)), PString(Some(r.title)), PString(Some(r.description))]
  }

  /** `readString() ?: ""`: a null, a slot of another kind or the end of the parcel reads as "". */
  function ReadStringOrEmpty(p: seq<ParcelValue>, pos: nat): string {
    if pos < |p| && p[pos].PString? && p[pos].s.Some? then p[pos].s.value else ""
  }

  /** `AxPermission(parcel)`: three strings from `pos`; the record and the position after it. */
  function ReadRecord(p: seq<ParcelValue>, pos: nat): (AxPermission, nat) {
    (AxPermission(ReadStringOrEmpty(p, pos), ReadStringOrEmpty(p, pos + 1), ReadStringOrEmpty(p, pos + 2)), pos + 3)
  }

  /** Writing a record and reading it back, wherever it sits in the parcel, gives the same record. */
  lemma RecordRoundTrip(before: seq<ParcelValue>, r: AxPermission, after: seq<ParcelValue>)
    ensures ReadRecord(before + WriteRecord(r) + after, |before|) == (r, |before| + 3)
  {
    var p := before + WriteRecord(r) + after;
    assert p[|before|] == PString(Some(r.permission));
    assert p[|before| + 1] == PString(Some(r.title));
    assert p[|before| + 2] == PString(Some(r.description));
  }

  /** A null string slot is read as the empty string. */
  lemma NullReadsAsEmpty(permission: string)
    ensures ReadRecord([PString(Some(permission)), PString(None), PString(None)], 0) == (AxPermission(permission, "", ""), 3)
  {
  }

  /** `writeTypedList`: the count, then for each record a non-null marker 1 and its fields. */
  function WriteTypedList(rs: seq<AxPermission>): (p: seq<ParcelValue>)
    ensures |p| == 1 + 4 * |rs|
  {
    [PInt(|rs|)] + WriteRecordsFrom(rs)
  }

  /**
   * The `n` records from `pos`, each behind its marker; a 0 marker is a null
   * entry, which this list never writes and which is skipped here.
   */
  function ReadRecords(p: seq<ParcelValue>, pos: nat, n: nat): seq<AxPermission>
    decreases n
  {
    if n == 0 then []
    else if pos < |p| && p[pos] == PInt(0) then ReadRecords(p, pos + 1, n - 1)
    else
      var (r, next) := ReadRecord(p, pos + 1);
      [r] + ReadRecords(p, next, n - 1)
  }

  /** `readTypedList`: the count, then the records; a negative or missing count reads no list. */
  function ReadTypedList(p: seq<ParcelValue>, pos: nat): (rs: seq<AxPermission>)
    ensures pos >= |p| || !p[pos].PInt? || p[pos].i < 0 ==> rs == []
  {
    if pos < |p| && p[pos].PInt? && p[pos].i >= 0 then ReadRecords(p, pos + 1, p[pos].i) else []
  }

  /** The records front to back, each behind its marker. */
  function WriteRecordsFrom(rs: seq<AxPermission>): (p: seq<ParcelValue>)
    ensures |p| == 4 * |rs|
  {
    if rs == [] then [] else [PInt(1)] + WriteRecord(rs[0]) + WriteRecordsFrom(rs[1..])
  }

  /** A non-empty run of written records, seen as its first marker and record, then the rest. */
  lemma WrittenRecordsSplit(before: seq<ParcelValue>, rs: seq<AxPermission>, after: seq<ParcelValue>)
    requires rs != []
    ensures before + WriteRecordsFrom(rs) + after == (before + [PInt(1)]) + WriteRecord(rs[0]) + (WriteRecordsFrom(rs[1..]) + after)
    ensures before + WriteRecordsFrom(rs) + after == (before + [PInt(1)] + WriteRecord(rs[0])) + WriteRecordsFrom(rs[1..]) + after
    ensures (before + WriteRecordsFrom(rs) + after)[|before|] == PInt(1)
  {
    assert WriteRecordsFrom(rs) == [PInt(1)] + WriteRecord(rs[0]) + WriteRecordsFrom(rs[1..]);
  }

  /** Behind a non-null marker, one record is read and the rest follow it. */
  lemma ReadRecordsStep(p: seq<ParcelValue>, pos: nat, n: nat)
    requires n > 0 && pos < |p| && p[pos] == PInt(1)
    ensures ReadRecords(p, pos, n) == [ReadRecord(p, pos + 1).0] + ReadRecords(p, ReadRecord(p, pos + 1).1, n - 1)
  {
  }

  /** Reading back `|rs|` records written anywhere in a parcel gives `rs`. */
  lemma {:induction false} RecordsRoundTrip(before: seq<ParcelValue>, rs: seq<AxPermission>, after: seq<ParcelValue>)
    ensures ReadRecords(before + WriteRecordsFrom(rs) + after, |before|, |rs|) == rs
    decreases |rs|
  {
    if rs != [] {
      var p := before + WriteRecordsFrom(rs) + after;
      WrittenRecordsSplit(before, rs, after);
      RecordRoundTrip(before + [PInt(1)], rs[0], WriteRecordsFrom(rs[1..]) + after);
      ReadRecordsStep(p, |before|, |rs|);
      RecordsRoundTrip(before + [PInt(1)] + WriteRecord(rs[0]), rs[1..], after);
      assert [rs[0]] + rs[1..] == rs;
    }
  }

  /** Writing a list and reading it back gives the same records, in the same order. */
  lemma ListRoundTrip(rs: seq<AxPermission>)
    ensures ReadTypedList(WriteTypedList(rs), 0) == rs
  {
    var p := WriteTypedList(rs);
    assert p == [PInt(|rs|)] + WriteRecordsFrom(rs) + [];
    RecordsRoundTrip([PInt(|rs|)], rs, []);
  }

  /** `AxPermissionList`: the records in the order they were added. */
  class AxPermissionList {
    var permissions: seq<AxPermission>

    constructor()
      ensures permissions == []
    {
      permissions := [];
    }

    /** `AxPermissionList(parcel)`: the list read back from a parcel. */
    constructor FromParcel(p: seq<ParcelValue>)
      ensures permissions == ReadTypedList(p, 0)
    {
      permissions := ReadTypedList(p, 0);
    }

    /** `add(permission)`: no title or description override. */
    method Add(permission: string)
      modifies this
      ensures permissions == old(permissions) + [AxPermission(permission, "", "")]
    {
      AddWithDetails(permission, "", "");
    }

    /** `add(permission, title, description)`. */
    method AddWithDetails(permission: string, title: string, description: string)
      modifies this
      ensures permissions == old(permissions) + [AxPermission(permission, title, description)]
    {
      permissions := permissions + [AxPermission(permission, title, description)];
    }

    method GetPermissions() returns (r: seq<AxPermission>)
      ensures r == permissions
    {
      r := permissions;
    }

    /** `forEach(action)`: the action's results, one per record in insertion order. */
    method ForEach<T>(action: AxPermission -> T) returns (results: seq<T>)
      ensures |results| == |permissions|
      ensures forall i :: 0 <= i < |permissions| ==> results[i] == action(permissions[i])
    {
      results := [];
      var i := 0;
      while i < |permissions|
        invariant 0 <= i <= |permissions|
        invariant |results| == i
        invariant forall j :: 0 <= j < i ==> results[j] == action(permissions[j])
      {
        results := results + [action(permissions[i])];
        i := i + 1;
      }
    }

    /** `writeToParcel`. */
    method WriteToParcel() returns (p: seq<ParcelValue>)
      ensures p == WriteTypedList(permissions)
      ensures ReadTypedList(p, 0) == permissions
    {
      p := WriteTypedList(permissions);
      ListRoundTrip(permissions);
    }
  }
}
