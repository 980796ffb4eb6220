/** One scoreboard snapshot of one station: the `StationData` dataclass of
    src/contest_scoreboard_monitor/station_data.py and its constructor, which
    copies a feed item onto the class defaults key by key. */
module StationData {
  import opened Wrappers
  import opened Feed
  import Dates

  /** What an attribute of a record holds: a feed value stored as given, or a
      report time parsed from a string `date` (seconds, UTC). */
  datatype Attr = Plain(v: Value) | Time(seconds: int)

  /** The attributes set on the instance by the constructor; every other
      attribute reads the class default. */
  datatype Record = Record(attrs: map<string, Attr>)

  /** Declared fields whose class default is 0 (`lat` and `lon` default to
      0.0 in the source and are modelled with the integer 0). */
  const IntFields: set<string> := {
    "ctassis", "ctband", "ctmode", "ctopera", "ctoverl", "ctpwr", "ctstatn", "cttime", "cttrans",
    "elap", "hrs", "itu", "lat", "lon",
    "m10", "m15", "m160", "m20", "m40", "m80",
    "mctotal", "mptotal", "mstotal", "mtotal", "mztotal",
    "p10", "p15", "p160", "p20", "p40", "p80", "ptotal",
    "q10", "q15", "q160", "q20", "q40", "q80", "qtotal",
    "rownum", "score", "waz", "rate"
  }

  /** Declared fields whose class default is ''. */
  const StrFields: set<string> := {"auth", "dxcc", "sign", "soft", "wac"}

  /** The class default of a declared field; None for an undeclared name
      (reading it raises AttributeError). */
  function ClassDefault(name: string): (r: Option<Attr>)
    ensures r.Some? <==> name in IntFields || name in StrFields || name == "date"
  {
    if name in IntFields then Some(Plain(Int(0)))
    else if name in StrFields then Some(Plain(Str("")))
    else if name == "date" then Some(Plain(Null))
    else None
  }

  /** Attribute access `record.name`. */
  function Field(r: Record, name: string): Option<Attr> {
    if name in r.attrs then Some(r.attrs[name]) else ClassDefault(name)
  }

  /** The record's `date` attribute (declared, so always readable). */
  function DateOf(r: Record): Attr {
    if "date" in r.attrs then r.attrs["date"] else Plain(Null)
  }

  /** The value the constructor stores for one entry, or None where
      `strptime` raises: only a string under `date` is converted. */
  function Convert(entry: (string, Value)): Option<Attr> {
    if entry.0 == "date" && entry.1.Str? then
      match Dates.ParseDate(entry.1.s)
      case Some(t) => Some(Time(t))
      case None => None
    else Some(Plain(entry.1))
  }

  /** Index of the entry whose conversion raises, or the number of entries
      when none does. */
  function FailIndex(es: seq<(string, Value)>): (k: nat)
    ensures k <= |es|
    ensures forall j :: 0 <= j < k ==> Convert(es[j]).Some?
    ensures k < |es| ==> Convert(es[k]).None?
  {
    if es == [] then 0
    else if Convert(es[0]).None? then 0
    else 1 + FailIndex(es[1..])
  }

  /** The attributes set by running `setattr` over `es` in order. */
  function Assigned(es: seq<(string, Value)>): map<string, Attr>
    requires forall j :: 0 <= j < |es| ==> Convert(es[j]).Some?
  {
    if es == [] then map[]
    else Assigned(es[..|es| - 1])[es[|es| - 1].0 := Convert(es[|es| - 1]).value]
  }

  /** The record `StationData(item)` builds: the entries before the first
      failing one are assigned; the exception is logged and swallowed. */
  function Built(item: Item): Record {
    var es := item.entries;
    Record(Assigned(es[..FailIndex(es)]))
  }

  /** `StationData.__init__` (src/contest_scoreboard_monitor/station_data.py:59-68). */
  method Construct(item: Item) returns (r: Record)
    ensures r == Built(item)
  {
    var es := item.entries;
    var attrs: map<string, Attr> := map[];
    var i := 0;
    while i < |es|
      invariant 0 <= i <= FailIndex(es)
      invariant attrs == Assigned(es[..i])
    {
      var (key, value) := es[i];
      var stored: Attr;
      if key == "date" && value.Str? {
        var parsed := Dates.ParseDate(value.s);
        if parsed.None? {
          // strptime raised ValueError: logged, the remaining keys are skipped
          assert Convert(es[i]).None?;
          break;
        }
        stored := Time(parsed.value);
      } else {
        stored := Plain(value);
      }
      assert Convert(es[i]) == Some(stored);
      assert es[..i + 1][..i] == es[..i];
      attrs := attrs[key := stored];
      i := i + 1;
    }
    assert i == FailIndex(es);
    r := Record(attrs);
  }

  lemma {:induction false} AssignedKeys(es: seq<(string, Value)>, key: string)
    requires forall j :: 0 <= j < |es| ==> Convert(es[j]).Some?
    ensures key in Assigned(es) <==> exists j :: 0 <= j < |es| && es[j].0 == key
  {
    if es != [] {
      var init := es[..|es| - 1];
      AssignedKeys(init, key);
      if key in Assigned(init) {
        var j :| 0 <= j < |init| && init[j].0 == key;
        assert es[j].0 == key;
      }
      if exists j :: 0 <= j < |es| && es[j].0 == key {
        var j :| 0 <= j < |es| && es[j].0 == key;
        if j < |init| {
          assert init[j].0 == key;
        }
      }
    }
  }

  lemma {:induction false} AssignedValue(es: seq<(string, Value)>, j: nat)
    requires forall j :: 0 <= j < |es| ==> Convert(es[j]).Some?
    requires forall i, k :: 0 <= i < k < |es| ==> es[i].0 != es[k].0
    requires j < |es|
    ensures es[j].0 in Assigned(es) && Assigned(es)[es[j].0] == Convert(es[j]).value
  {
    if j < |es| - 1 {
      var init := es[..|es| - 1];
      assert init[j] == es[j];
      AssignedValue(init, j);
    }
  }

  /** Every entry before the failing one sets the same-named attribute to
      its value unchanged (a string `date` to its parsed time), whether or
      not the name is a declared field. */
  lemma BuiltAssigns(item: Item, j: nat)
    requires j < FailIndex(item.entries)
    ensures var (key, value) := item.entries[j];
      Field(Built(item), key) == Some(if key == "date" && value.Str?
                                      then Time(Dates.ParseDate(value.s).value)
                                      else Plain(value))
  {
    var es := item.entries;
    var pre := es[..FailIndex(es)];
    forall i, k | 0 <= i < k < |pre|
      ensures pre[i].0 != pre[k].0
    {
      assert KeyAt(es, i) != KeyAt(es, k);
    }
    assert pre[j] == es[j];
    AssignedValue(pre, j);
  }

  /** A name no entry before the failing one carries keeps its class
      default: absent fields, the failing `date` and every later key. */
  lemma BuiltDefaults(item: Item, name: string)
    requires forall j :: 0 <= j < FailIndex(item.entries) ==> item.entries[j].0 != name
    ensures Field(Built(item), name) == ClassDefault(name)
  {
    var es := item.entries;
    var pre := es[..FailIndex(es)];
    AssignedKeys(pre, name);
  }

  /** An empty item gives the all-default record. */
  lemma EmptyItemDefaults(name: string)
    ensures Built(Object([])) == Record(map[])
    ensures Field(Built(Object([])), name) == ClassDefault(name)
  {
  }

  /** The constructor stops at a string `date` that does not parse, and
      only there. */
  lemma FailureIsUnparsableDate(item: Item)
    requires FailIndex(item.entries) < |item.entries|
    ensures var (key, value) := item.entries[FailIndex(item.entries)];
      key == "date" && value.Str? && Dates.ParseDate(value.s).None?
  {
  }
}
