/**
  The searches of `getZone` (main.go:144-151) and `getRecord` (main.go:163-170):
  a scan, in the provider's order, for the first entry whose name equals the key
  exactly. The list is what the provider returned; fetching it is modelled in Updater.
*/
module Lookup {
  import opened Wrappers
  import opened Cloudflare

  /** The index of the first occurrence of `key` in `names`, or None when there is none. */
  function FirstIndex(names: seq<string>, key: string): (r: Option<nat>)
    ensures r.None? <==> key !in names
    ensures r.Some? ==> r.value < |names| && names[r.value] == key && key !in names[..r.value]
    decreases |names|
  {
    if |names| == 0 then None
    else if names[0] == key then Some(0)
    else
      match FirstIndex(names[1..], key)
      case None => None
      case Some(k) =>
        assert names[..k + 1] == [names[0]] + names[1..][..k];
        Some(k + 1)
  }

  /** The name of each entry, in order. */
  function Names<T>(entries: seq<T>, name: T -> string): (names: seq<string>)
    ensures |names| == |entries| && forall i :: 0 <= i < |entries| ==> names[i] == name(entries[i])
  {
    seq(|entries|, i requires 0 <= i < |entries| => name(entries[i]))
  }

  /** The zone `getZone(s)` returns for the list `zones`: the earliest zone named
      exactly `s`, or a not-found error naming `s` when no zone has that name. */
  function FindZone(zones: seq<Zone>, s: string): (r: Result<Zone, Error>)
    ensures r.Failure? <==> forall i :: 0 <= i < |zones| ==> zones[i].name != s
    ensures r.Failure? ==> r.error == ZoneNotFound(s)
    ensures r.Success? ==>
      r.value.name == s &&
      exists i :: 0 <= i < |zones| && zones[i] == r.value && forall j :: 0 <= j < i ==> zones[j].name != s
  {
    var names := Names(zones, (z: Zone) => z.name);
    match FirstIndex(names, s)
    case None =>
      assert forall i :: 0 <= i < |zones| ==> names[i] != s;
      Failure(ZoneNotFound(s))
    case Some(i) =>
      assert forall j :: 0 <= j < i ==> names[..i][j] == names[j];
      Success(zones[i])
  }

  /** The record `getRecord(s, zoneId)` returns for the list `records`: the earliest
      record named exactly `s`, or a not-found error naming `s` and the zone id. */
  function FindRecord(records: seq<Record>, s: string, zoneId: string): (r: Result<Record, Error>)
    ensures r.Failure? <==> forall i :: 0 <= i < |records| ==> records[i].name != s
    ensures r.Failure? ==> r.error == RecordNotFound(s, zoneId)
    ensures r.Success? ==>
      r.value.name == s &&
      exists i :: 0 <= i < |records| && records[i] == r.value && forall j :: 0 <= j < i ==> records[j].name != s
  {
    var names := Names(records, (r: Record) => r.name);
    match FirstIndex(names, s)
    case None =>
      assert forall i :: 0 <= i < |records| ==> names[i] != s;
      Failure(RecordNotFound(s, zoneId))
    case Some(i) =>
      assert forall j :: 0 <= j < i ==> names[..i][j] == names[j];
      Success(records[i])
  }

  /** Whatever its position, the first zone with the requested name is the one found. */
  lemma FindZoneFirstMatch(zones: seq<Zone>, s: string, i: nat)
    requires i < |zones| && zones[i].name == s
    requires forall j :: 0 <= j < i ==> zones[j].name != s
    ensures FindZone(zones, s) == Success(zones[i])
  {
    var names := Names(zones, (z: Zone) => z.name);
    var r := FirstIndex(names, s);
    assert names[i] == s;
    assert r.Some? && r.value == i;
  }

  /** Whatever its position, the first record with the requested name is the one found. */
  lemma FindRecordFirstMatch(records: seq<Record>, s: string, zoneId: string, i: nat)
    requires i < |records| && records[i].name == s
    requires forall j :: 0 <= j < i ==> records[j].name != s
    ensures FindRecord(records, s, zoneId) == Success(records[i])
  {
    var names := Names(records, (r: Record) => r.name);
    var r := FirstIndex(names, s);
    assert names[i] == s;
    assert r.Some? && r.value == i;
  }

  /** `getZone`'s loop: scan `zones` in order and stop at the first exact name match. */
  method GetZone(zones: seq<Zone>, s: string) returns (r: Result<Zone, Error>)
    ensures r == FindZone(zones, s)
  {
    var i := 0;
    while i < |zones|
      invariant 0 <= i <= |zones|
      invariant forall j :: 0 <= j < i ==> zones[j].name != s
    {
      var zone := zones[i];
      if zone.name == s {
        FindZoneFirstMatch(zones, s, i);
        return Success(zone);
      }
      i := i + 1;
    }
    return Failure(ZoneNotFound(s));
  }

  /** `getRecord`'s loop: scan `records` in order and stop at the first exact name match. */
  method GetRecord(records: seq<Record>, s: string, zoneId: string) returns (r: Result<Record, Error>)
    ensures r == FindRecord(records, s, zoneId)
  {
    var i := 0;
    while i < |records|
      invariant 0 <= i <= |records|
      invariant forall j :: 0 <= j < i ==> records[j].name != s
    {
      var record := records[i];
      if record.name == s {
        FindRecordFirstMatch(records, s, zoneId, i);
        return Success(record);
      }
      i := i + 1;
    }
    return Failure(RecordNotFound(s, zoneId));
  }
}
