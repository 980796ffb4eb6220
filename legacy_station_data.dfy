/** The older snapshot record of the root-level station_data.py: a dataclass
    whose own constructor copies a dict onto the instance with `setattr`,
    converting nothing. */
module LegacyStationData {
  import opened Wrappers
  import opened Feed

  /** The attributes set on the instance. Only `clubname` has a class
      default; reading any other attribute that was not set raises. */
  datatype LegacyRecord = LegacyRecord(attrs: map<string, Value>)

  /** Attribute access `record.name`; None where it raises AttributeError. */
  function Field(r: LegacyRecord, name: string): (v: Option<Value>)
    ensures name in r.attrs ==> v == Some(r.attrs[name])
    ensures name !in r.attrs ==> (v.Some? <==> name == "clubname")
    ensures name !in r.attrs && name == "clubname" ==> v == Some(Str(""))
  {
    if name in r.attrs then Some(r.attrs[name])
    else if name == "clubname" then Some(Str(""))
    else None
  }

  /** The attributes set by `setattr(self, key, value)` over `es` in order. */
  function Setattrs(es: seq<(string, Value)>): map<string, Value> {
    if es == [] then map[]
    else Setattrs(es[..|es| - 1])[es[|es| - 1].0 := es[|es| - 1].1]
  }

  /** `StationData.__init__(dict_data)` (station_data.py:39-42); `data` is
      None for a call without argument. A None or empty dict sets nothing. */
  method Construct(data: Option<Item>) returns (r: LegacyRecord)
    ensures data.None? ==> r.attrs == map[]
    ensures data.Some? ==> r.attrs == Setattrs(data.value.entries)
  {
    var attrs: map<string, Value> := map[];
    if data.Some? && data.value.entries != [] {
      var es := data.value.entries;
      var i := 0;
      while i < |es|
        invariant 0 <= i <= |es|
        invariant attrs == Setattrs(es[..i])
      {
        assert es[..i + 1][..i] == es[..i];
        attrs := attrs[es[i].0 := es[i].1];
        i := i + 1;
      }
      assert es[..|es|] == es;
    }
    r := LegacyRecord(attrs);
  }

  /** Exactly the keys of the dict become attributes, declared or not. */
  lemma {:induction false} SetattrsKeys(es: seq<(string, Value)>)
    ensures forall k :: k in Setattrs(es) <==> exists j :: 0 <= j < |es| && es[j].0 == k
  {
    if es != [] {
      var init := es[..|es| - 1];
      SetattrsKeys(init);
      forall k | k in Setattrs(es)
        ensures exists j :: 0 <= j < |es| && es[j].0 == k
      {
        if k != es[|es| - 1].0 {
          assert k in Setattrs(init);
          var j :| 0 <= j < |init| && init[j].0 == k;
          assert es[j].0 == k;
        }
      }
      forall k | exists j :: 0 <= j < |es| && es[j].0 == k
        ensures k in Setattrs(es)
      {
        var j :| 0 <= j < |es| && es[j].0 == k;
        if j < |es| - 1 {
          assert init[j].0 == k;
        }
      }
    }
  }

  /** Every value is stored verbatim under its key; a `date` string stays a
      string. */
  lemma {:induction false} SetattrsValue(es: seq<(string, Value)>, j: nat)
    requires j < |es|
    requires forall k :: j < k < |es| ==> es[k].0 != es[j].0
    ensures es[j].0 in Setattrs(es) && Setattrs(es)[es[j].0] == es[j].1
  {
    if j < |es| - 1 {
      var init := es[..|es| - 1];
      SetattrsValue(init, j);
    }
  }

  /** The record read through `Field`: supplied keys give their values,
      `clubname` falls back to "", every other name raises. */
  lemma ConstructFields(item: Item, name: string)
    ensures var f := Field(LegacyRecord(Setattrs(item.entries)), name);
      (Get(item, name).Some? ==> f == Get(item, name)) &&
      (Get(item, name).None? ==> (f.Some? <==> name == "clubname"))
  {
    SetattrsKeys(item.entries);
    var g := Get(item, name);
    if g.Some? {
      var j :| 0 <= j < |item.entries| && item.entries[j] == (name, g.value) &&
               forall k :: j < k < |item.entries| ==> item.entries[k].0 != name;
      SetattrsValue(item.entries, j);
    }
  }
}
