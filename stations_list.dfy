/** The callsign -> Station registry of
    src/contest_scoreboard_monitor/stations_list.py. Python's dict keeps
    insertion order; `order` is that order. */
module Registry {
  import opened Wrappers
  import opened Feed
  import opened StationData
  import opened StationEngine

  /** A Station's state and `mark` after `update_from_json_item` with `item`:
      the engine's step, with `mark` set only when the step completed. */
  function Updated(before: StationState, wasMarked: bool, item: Item, mark: bool): (StationState, bool) {
    var (after, ok) := Step(before, Built(item));
    (after, if ok then mark else wasMarked)
  }

  class StationsList {
    var stations: map<Value, Station>
    var order: seq<Value>

    /** The dict's keys in insertion order, each Station filed once and
        under its own callsign. */
    ghost predicate Shape()
      reads this
    {
      (forall k :: k in stations <==> k in order) &&
      (forall i, j :: 0 <= i < j < |order| ==> order[i] != order[j]) &&
      (forall k1, k2 :: k1 in stations && k2 in stations && k1 != k2 ==> stations[k1] != stations[k2]) &&
      (forall k :: k in stations ==> stations[k].callsign == k)
    }

    ghost predicate Valid()
      reads this, stations.Values
    {
      Shape() && forall k :: k in stations ==> stations[k].Valid()
    }

    constructor ()
      ensures Valid() && stations == map[] && order == []
    {
      stations := map[];
      order := [];
    }

    /** `get` (stations_list.py:10-11): the stored Station, or None for an
        unknown callsign. */
    function Get(callsign: Value): (r: Option<Station>)
      reads this
      ensures r.Some? <==> callsign in stations
      ensures r.Some? ==> r.value == stations[callsign]
    {
      if callsign in stations then Some(stations[callsign]) else None
    }

    /** `get_stations` (stations_list.py:26-27): one Station per callsign,
        in first-insertion order. */
    function GetStations(): (r: seq<Station>)
      reads this, stations.Values
      requires Valid()
      ensures |r| == |order|
      ensures forall i :: 0 <= i < |r| ==> r[i] == stations[order[i]]
      ensures forall i, j :: 0 <= i < j < |r| ==> r[i] != r[j]
      ensures forall k :: k in stations ==> stations[k] in r
    {
      var keys, table := order, stations;
      seq(|keys|, i requires 0 <= i < |keys| && keys[i] in table => table[keys[i]])
    }

    /** `update_from_json_item` (stations_list.py:14-24): file the item under
        its callsign, creating and inserting a Station on first sight, then
        update that Station. An exception from the update is logged and
        swallowed; `mark` is set only when the update completed. */
    method Update(item: Item, mark: bool)
      requires Valid()
      modifies this, stations.Values
      ensures Valid()
      ensures var c := CallsignOf(item);
        stations.Keys == old(stations.Keys) + {c} &&
        order == (if c in old(stations) then old(order) else old(order) + [c]) &&
        (c in old(stations) ==> stations[c] == old(stations[c])) &&
        (c !in old(stations) ==> fresh(stations[c]))
      ensures var c := CallsignOf(item);
        forall k :: k in old(stations) && k != c ==> stations[k] == old(stations[k]) && unchanged(stations[k])
      ensures var c := CallsignOf(item);
        var before := if c in old(stations) then old(stations[c].State()) else Initial;
        var wasMarked := c in old(stations) && old(stations[c].mark);
        (stations[c].State(), stations[c].mark) == Updated(before, wasMarked, item, mark)
    {
      var callsign := CallsignOf(item);
      ghost var before := if callsign in stations then stations[callsign].State() else Initial;
      ghost var wasMarked := callsign in stations && stations[callsign].mark;
      var station := Lookup(callsign);
      assert station.State() == before && station.mark == wasMarked;
      label Filed:
      UpdateStation(callsign, station, item, mark);
      assert stations[callsign] == station;
      forall k | k in old(stations) && k != callsign
        ensures stations[k] == old(stations[k]) && unchanged(stations[k])
      {
        assert unchanged@Filed(stations[k]);
      }
      // otherwise: logging.error(...), the exception does not propagate
    }

    /** Lines 17-19 of `update_from_json_item`: the Station filed under
        `callsign`, created and inserted on first sight. */
    method Lookup(callsign: Value) returns (station: Station)
      requires Valid()
      modifies this
      ensures Valid() && callsign in stations && station == stations[callsign]
      ensures stations.Keys == old(stations.Keys) + {callsign}
      ensures order == if callsign in old(stations) then old(order) else old(order) + [callsign]
      ensures callsign in old(stations) ==> station == old(stations[callsign])
      ensures callsign !in old(stations) ==>
        fresh(station) && station.State() == Initial && !station.mark
      ensures forall k :: k in old(stations) ==> stations[k] == old(stations[k])
    {
      var existing := Get(callsign);
      if existing.None? {
        station := new Station(callsign);
        stations := stations[callsign := station];
        order := order + [callsign];
      } else {
        station := existing.value;
      }
    }

    /** Lines 20-22 of `update_from_json_item`, inside its `try`: only the
        Station filed under `callsign` changes. */
    method UpdateStation(callsign: Value, station: Station, item: Item, mark: bool)
      requires Valid() && callsign in stations && station == stations[callsign]
      modifies station
      ensures Valid()
      ensures forall k :: k in stations && k != callsign ==> unchanged(stations[k])
      ensures (station.State(), station.mark) == Updated(old(station.State()), old(station.mark), item, mark)
    {
      ghost var s0, m0 := station.State(), station.mark;
      var ok := station.Update(item);
      if ok {
        station.mark := mark;
      }
      assert (station.State(), station.mark) == (Step(s0, Built(item)).0, if ok then mark else m0);
      forall k | k in stations
        ensures stations[k].Valid()
      {
        if k != callsign {
          assert stations[k] != station;
        }
      }
    }

    /** `clear` (stations_list.py:29-30). */
    method Clear()
      modifies this
      ensures Valid() && stations == map[] && order == []
    {
      stations := map[];
      order := [];
    }
  }
}
