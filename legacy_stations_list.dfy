/** The older callsign -> Station registry of the root-level stations_list.py,
    over the stub `Station` of the root-level station.py. */
module LegacyRegistry {
  import opened Wrappers
  import opened Feed
  import opened LegacyStationData

  /** The stub `Station` of station.py. */
  class LegacyStation {
    const callsign: Value
    var latest: LegacyRecord

    /** `Station(callsign)` (station.py:5-7): `StationData()` without a
        dict sets no attribute. */
    constructor (callsign: Value)
      ensures this.callsign == callsign && latest == LegacyRecord(map[])
    {
      this.callsign := callsign;
      var empty := Construct(None);
      latest := empty;
    }

    /** `update_from_json_item` (station.py:12-13) calls
        `self.latest.update_from_dict`, which the root-level StationData does
        not define: the attribute lookup raises AttributeError before anything
        changes, so the update never completes. */
    method Update(item: Item) returns (ok: bool)
      ensures !ok
    {
      ok := false;
    }
  }

  class StationsList {
    var stations: map<Value, LegacyStation>
    var order: seq<Value>

    /** The dict's keys in insertion order, each filed under its own
        callsign and no Station filed twice. */
    ghost predicate Valid()
      reads this
    {
      (forall k :: k in stations <==> k in order) &&
      (forall i, j :: 0 <= i < j < |order| ==> order[i] != order[j]) &&
      (forall k :: k in stations ==> stations[k].callsign == k)
    }

    /** `StationsList()` (stations_list.py:5-6): an empty dict. */
    constructor ()
      ensures Valid() && stations == map[] && order == []
    {
      stations := map[];
      order := [];
    }

    /** `get` (stations_list.py:8-9). */
    function Get(callsign: Value): (r: Option<LegacyStation>)
      reads this
      ensures r.None? <==> callsign !in stations
      ensures r.Some? ==> r.value == stations[callsign]
    {
      if callsign in stations then Some(stations[callsign]) else None
    }

    /** `update_from_json_item` (stations_list.py:12-18): file the item under
        its callsign, creating and inserting a Station on first sight, then
        update it. The update's exception propagates (`ok` is false) and the
        inserted entry stays. */
    method Update(item: Item) returns (ok: bool)
      requires Valid()
      modifies this
      ensures Valid()
      ensures var c := CallsignOf(item);
        stations.Keys == old(stations.Keys) + {c} &&
        order == (if c in old(stations) then old(order) else old(order) + [c]) &&
        (c in old(stations) ==> stations[c] == old(stations[c])) &&
        (c !in old(stations) ==> fresh(stations[c]) && stations[c].latest == LegacyRecord(map[]))
      ensures forall k :: k in old(stations) ==> stations[k] == old(stations[k])
      ensures !ok
    {
      var callsign := CallsignOf(item);
      var existing := Get(callsign);
      var station: LegacyStation;
      if existing.None? {
        station := new LegacyStation(callsign);
        stations := stations[callsign := station];
        order := order + [callsign];
      } else {
        station := existing.value;
      }
      ok := station.Update(item);
    }

    /** `get_stations` (stations_list.py:20-21): the Stations in insertion
        order, one per callsign. */
    function GetStations(): (r: seq<LegacyStation>)
      reads this
      requires Valid()
      ensures |r| == |order|
      ensures forall i :: 0 <= i < |r| ==> r[i] == stations[order[i]] && r[i].callsign == order[i]
      ensures forall i, j :: 0 <= i < j < |r| ==> r[i] != r[j]
      ensures forall k :: k in stations ==> stations[k] in r
    {
      var keys, table := order, stations;
      var r := seq(|keys|, i requires 0 <= i < |keys| && keys[i] in table => table[keys[i]]);
      assert forall k :: k in table ==> exists i :: 0 <= i < |keys| && keys[i] == k && r[i] == table[k];
      r
    }
  }
}
