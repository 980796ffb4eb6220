/** The per-station rolling history and delta engine: `Station` in
    src/contest_scoreboard_monitor/station.py.

    A Python exception raised part-way through an update is modelled as an
    `ok == false` result; whatever the source had already changed before
    the raise stays changed. */
module StationEngine {
  import opened Wrappers
  import opened Feed
  import opened StationData

  /** `_max_history`: the count bound of both histories, and the length in
      minutes of the time window. */
  const MaxHistory: nat := 10
  /** `range`: how many of the newest deltas `range_total` sums. */
  const Range: nat := 10
  /** `timedelta(minutes=_max_history)`, in seconds. */
  const WindowSeconds: int := MaxHistory * 60

  /** The 16 fields the engine differences and sums, in the order the source
      computes them: 4 totals, 6 per-band QSO counts, 6 per-band multipliers. */
  const CountFields: seq<string> := [
    "qtotal", "score", "ptotal", "mtotal",
    "q10", "q15", "q20", "q40", "q80", "q160",
    "m10", "m15", "m20", "m40", "m80", "m160"
  ]
  const QTotal: nat := 0

  type Counts = s: seq<int> | |s| == 16 witness [0, 0, 0, 0, 0, 0, 0, 0, 0, 0, 0, 0, 0, 0, 0, 0]

  /** A delta or range-total record: a fresh all-default `StationData` whose
      16 count fields and `rate` the engine then sets. */
  datatype Tally = Tally(counts: Counts, rate: int)

  const Zeros: Counts := [0, 0, 0, 0, 0, 0, 0, 0, 0, 0, 0, 0, 0, 0, 0, 0]

  /** Count field `i` of a record, when it holds an integer; None when the
      value is a string or None, where `-` raises TypeError. */
  function CountOf(r: Record, i: nat): Option<int>
    requires i < 16
  {
    match Field(r, CountFields[i])
    case Some(Plain(Int(n))) => Some(n)
    case _ => None
  }

  function Last<T>(s: seq<T>): T
    requires s != []
  {
    s[|s| - 1]
  }

  /** `b` ends with `a`. */
  predicate IsSuffix<T(==)>(a: seq<T>, b: seq<T>) {
    |a| <= |b| && a == b[|b| - |a|..]
  }

  // ----- history eviction (drop_old_data) -----

  /** The last `n` elements: the result of popping the front while longer
      than `n`. */
  function KeepLast<T>(s: seq<T>, n: nat): seq<T> {
    if |s| > n then s[|s| - n..] else s
  }

  /** The time-based trim: pop the front while its date is before
      `threshold`; the bool is false where comparing a non-datetime date
      raises TypeError, with the pops done so far kept. */
  function DropStale(h: seq<Record>, threshold: int): (seq<Record>, bool) {
    if h == [] then ([], true)
    else match DateOf(h[0])
      case Time(t) => if t < threshold then DropStale(h[1..], threshold) else (h, true)
      case Plain(_) => (h, false)
  }

  /** `drop_old_data` on a non-empty history: the count trim, then the time
      trim against the newest date minus ten minutes. Subtracting ten minutes
      from a date that is not a datetime raises TypeError. */
  function Evict(h: seq<Record>): (seq<Record>, bool)
    requires h != []
  {
    var kept := KeepLast(h, MaxHistory);
    match DateOf(Last(kept))
    case Time(t) => DropStale(kept, t - WindowSeconds)
    case Plain(_) => (kept, false)
  }

  // ----- delta (update_delta) -----

  predicate Subtractable(cur: Record, prev: Record, i: nat)
    requires i < 16
  {
    CountOf(cur, i).Some? && CountOf(prev, i).Some?
  }

  /** `current.f - previous.f` for count field `i` (0 where it would raise). */
  function Diff(cur: Record, prev: Record, i: nat): int
    requires i < 16
  {
    if Subtractable(cur, prev, i) then CountOf(cur, i).value - CountOf(prev, i).value else 0
  }

  /** The first count field from `i` on whose subtraction raises, or 16. */
  function FirstUnsubtractable(cur: Record, prev: Record, i: nat): (k: nat)
    requires i <= 16
    ensures i <= k <= 16
    ensures forall j :: i <= j < k ==> Subtractable(cur, prev, j)
    ensures k < 16 ==> !Subtractable(cur, prev, k)
    decreases 16 - i
  {
    if i == 16 then 16
    else if !Subtractable(cur, prev, i) then i
    else FirstUnsubtractable(cur, prev, i + 1)
  }

  /** The count fields of a fresh record after the first `k` subtractions. */
  function PartialDiff(cur: Record, prev: Record, k: nat): Counts {
    seq(16, i requires 0 <= i < 16 => if i < k then Diff(cur, prev, i) else 0)
  }

  /** The delta record `update_delta` leaves in `self.delta`, and whether it
      got through all 16 subtractions. On a TypeError the fields before the
      failing one hold their differences and the rest keep the default 0. */
  function DeltaOf(cur: Record, prev: Record): (Tally, bool) {
    var k := FirstUnsubtractable(cur, prev, 0);
    (Tally(PartialDiff(cur, prev, k), 0), k == 16)
  }

  /** Append to the delta history, then pop its front while it is longer
      than `_max_history`. */
  function PushCapped(ds: seq<Tally>, d: Tally): seq<Tally> {
    KeepLast(ds + [d], MaxHistory)
  }

  // ----- range total and rate (update_range_total) -----

  /** Sum of count field `i` over `ds`. */
  function SumField(ds: seq<Tally>, i: nat): int
    requires i < 16
  {
    if ds == [] then 0 else SumField(ds[..|ds| - 1], i) + Last(ds).counts[i]
  }

  /** Python's `int(a / n)` for exact `a / n`: division truncating toward zero. */
  function TruncDiv(a: int, n: int): int
    requires n > 0
  {
    if a >= 0 then a / n else -((-a) / n)
  }

  /** The deltas `range_total` sums: the last `range` of them. */
  function RangeWindow(ds: seq<Tally>): seq<Tally> {
    KeepLast(ds, Range)
  }

  /** The `range_total` record: the window's field sums, and, when the delta
      history is non-empty and there is an oldest snapshot, the hourly rate
      `int(qtotal_sum / len(delta_history) * 60)`; otherwise rate keeps 0. */
  function RangeTotal(ds: seq<Tally>, hasOldest: bool): Tally {
    var w := RangeWindow(ds);
    var sums: Counts := seq(16, i requires 0 <= i < 16 => SumField(w, i));
    Tally(sums, if |ds| > 0 && hasOldest then TruncDiv(sums[QTotal] * 60, |ds|) else 0)
  }

  // ----- one update (update_from_json_item) -----

  /** The engine's state: `_data_history`, `delta`, `_delta_history` and
      `range_total`. */
  datatype StationState = StationState(
    history: seq<Record>, delta: Option<Tally>, deltas: seq<Tally>, rangeTotal: Option<Tally>)

  const Initial: StationState := StationState([], None, [], None)

  /** Only the newest retained snapshot's date is compared. */
  predicate IsDuplicate(h: seq<Record>, r: Record) {
    h != [] && DateOf(r) == DateOf(Last(h))
  }

  /** The state after `update_from_json_item` with the snapshot `r`, and
      whether it completed without raising. `StationData()` at station.py:78
      and :106 is taken as the evidently intended fresh all-default record
      (as written it raises TypeError; see StepAsWritten). */
  function Step(s: StationState, r: Record): (StationState, bool) {
    if IsDuplicate(s.history, r) then (s, true)
    else
      var (h, evicted) := Evict(s.history + [r]);
      if !evicted then (s.(history := h), false)
      else Recompute(s.(history := h))
  }

  /** `update_delta` followed by `update_range_total` on the evicted history. */
  function Recompute(s: StationState): (StationState, bool) {
    var h := s.history;
    if |h| < 2 then (s.(rangeTotal := Some(RangeTotal(s.deltas, h != []))), true)
    else
      var (d, computed) := DeltaOf(Last(h), h[|h| - 2]);
      if !computed then (s.(delta := Some(d)), false)
      else
        var ds := PushCapped(s.deltas, d);
        (StationState(h, Some(d), ds, Some(RangeTotal(ds, true))), true)
  }

  /** The update as written: once a snapshot is accepted and evicted,
      `StationData()` is called without its required argument, at
      station.py:78 when two snapshots are retained and at station.py:106
      otherwise, and raises TypeError before `delta` or `range_total` is
      assigned. */
  function StepAsWritten(s: StationState, r: Record): (StationState, bool) {
    if IsDuplicate(s.history, r) then (s, true)
    else (s.(history := Evict(s.history + [r]).0), false)
  }

  class Station {
    const callsign: Value
    var delta: Option<Tally>
    var rangeTotal: Option<Tally>
    var history: seq<Record>
    var deltas: seq<Tally>
    var mark: bool

    ghost predicate Valid()
      reads this
    {
      |history| <= MaxHistory && |deltas| <= MaxHistory
    }

    function State(): StationState
      reads this
    {
      StationState(history, delta, deltas, rangeTotal)
    }

    constructor (callsign: Value)
      ensures Valid() && this.callsign == callsign && !mark
      ensures State() == Initial
    {
      this.callsign := callsign;
      delta := None;
      rangeTotal := None;
      history := [];
      deltas := [];
      mark := false;
    }

    /** `current()`: the newest retained snapshot. */
    function Current(): (r: Option<Record>)
      reads this
      ensures r.Some? <==> history != []
      ensures r.Some? ==> r.value == history[|history| - 1]
    {
      if |history| < 1 then None else Some(Last(history))
    }

    /** `previous()`: the snapshot retained just before the newest one. */
    function Previous(): (r: Option<Record>)
      reads this
      ensures r.Some? <==> |history| >= 2
      ensures r.Some? ==> r.value == history[|history| - 2]
    {
      if |history| < 2 then None else Some(history[|history| - 2])
    }

    /** `oldest()`: the front of the retained history. */
    function Oldest(): (r: Option<Record>)
      reads this
      ensures r.Some? <==> history != []
      ensures r.Some? ==> r.value == history[0]
    {
      if |history| < 1 then None else Some(history[0])
    }

    /** `data_history()`: the retained snapshots, oldest first. */
    function DataHistory(): (r: seq<Record>)
      reads this
      ensures |r| == |history| && forall i :: 0 <= i < |r| ==> r[i] == history[i]
    {
      history
    }

    /** `drop_old_data` (station.py:61-68). */
    method DropOldData() returns (ok: bool)
      requires history != []
      modifies this`history
      ensures (history, ok) == Evict(old(history))
    {
      while |history| > MaxHistory
        invariant history != []
        invariant KeepLast(history, MaxHistory) == KeepLast(old(history), MaxHistory)
      {
        history := history[1..];
      }
      var newest := DateOf(Last(history));
      if !newest.Time? {
        // `self.current().date - timedelta(...)` raises TypeError
        return false;
      }
      var threshold := newest.seconds - WindowSeconds;
      while history != []
        invariant DropStale(history, threshold) == Evict(old(history))
      {
        var front := DateOf(history[0]);
        if !front.Time? {
          // `date < threshold` raises TypeError
          return false;
        }
        if front.seconds >= threshold {
          break;
        }
        history := history[1..];
      }
      ok := true;
    }

    /** `update_delta` (station.py:70-102), with `StationData()` at line 78
        taken as a fresh all-default record. */
    method UpdateDelta() returns (ok: bool)
      modifies this`delta, this`deltas
      ensures |history| < 2 ==> ok && delta == old(delta) && deltas == old(deltas)
      ensures |history| >= 2 ==>
        var (d, computed) := DeltaOf(Last(history), history[|history| - 2]);
        delta == Some(d) && ok == computed &&
        deltas == if computed then PushCapped(old(deltas), d) else old(deltas)
    {
      if |history| < 2 {
        return true;
      }
      var counts, computed := Differences(Last(history), history[|history| - 2]);
      var d := Tally(counts, 0);
      delta := Some(d);
      if !computed {
        return false;
      }
      PushDelta(d);
      ok := true;
    }

    /** The field-by-field subtractions of `update_delta` (station.py:80-96):
        `counts` holds the fields set before the first TypeError, and
        `computed` says whether all 16 went through. */
    static method Differences(cur: Record, prev: Record) returns (counts: Counts, computed: bool)
      ensures DeltaOf(cur, prev) == (Tally(counts, 0), computed)
    {
      ghost var k := FirstUnsubtractable(cur, prev, 0);
      counts := Zeros;
      assert counts == PartialDiff(cur, prev, 0);
      var i := 0;
      while i < 16
        invariant 0 <= i <= k
        invariant counts == PartialDiff(cur, prev, i)
      {
        if !Subtractable(cur, prev, i) {
          // `current.f - previous.f` raises TypeError; the delta keeps the
          // fields set so far
          assert k == i;
          return counts, false;
        }
        PartialDiffStep(cur, prev, i);
        counts := counts[i := CountOf(cur, i).value - CountOf(prev, i).value];
        i := i + 1;
      }
      assert k == 16;
      computed := true;
    }

    /** Lines 98-102 of `update_delta`: append the delta to the delta history,
        then pop its front while it is longer than `_max_history`. */
    method PushDelta(d: Tally)
      modifies this`deltas
      ensures deltas == PushCapped(old(deltas), d)
    {
      deltas := deltas + [d];
      while |deltas| > MaxHistory
        invariant KeepLast(deltas, MaxHistory) == PushCapped(old(deltas), d)
      {
        deltas := deltas[1..];
      }
    }

    /** `update_range_total` (station.py:104-135), with `StationData()` at
        line 106 taken as a fresh all-default record. */
    method UpdateRangeTotal()
      modifies this`rangeTotal
      ensures rangeTotal == Some(RangeTotal(deltas, history != []))
    {
      var start := if |deltas| > Range then |deltas| - Range else 0;
      var window := deltas[start..];
      assert window == RangeWindow(deltas);
      var sums: Counts := Zeros;
      for k := 0 to |window|
        invariant forall i :: 0 <= i < 16 ==> sums[i] == SumField(window[..k], i)
      {
        assert window[..k + 1][..k] == window[..k];
        sums := seq(16, i requires 0 <= i < 16 => sums[i] + window[k].counts[i]);
      }
      assert window[..|window|] == window;
      assert sums == RangeTotal(deltas, history != []).counts;
      var rate := 0;
      if |deltas| > 0 {
        if history != [] {
          rate := TruncDiv(sums[QTotal] * 60, |deltas|);
        }
      }
      rangeTotal := Some(Tally(sums, rate));
    }

    /** `update_from_json_item` (station.py:23-31): build the snapshot from
        the item, then ingest it. */
    method Update(item: Item) returns (ok: bool)
      requires Valid()
      modifies this
      ensures Valid()
      ensures (State(), ok) == Step(old(State()), Built(item))
      ensures mark == old(mark)
    {
      var newData := Construct(item);
      ok := Ingest(newData);
    }

    /** Lines 25-31 of `update_from_json_item`: the duplicate check, then
        append, evict, delta and range total. */
    method Ingest(newData: Record) returns (ok: bool)
      requires Valid()
      modifies this
      ensures Valid()
      ensures (State(), ok) == Step(old(State()), newData)
      ensures mark == old(mark)
    {
      ghost var s0 := State();
      if history != [] && DateOf(newData) == DateOf(Last(history)) {
        return true;
      }
      history := history + [newData];
      ok := DropOldData();
      EvictBounded(s0.history + [newData]);
      assert State() == s0.(history := history);
      if !ok {
        StepRejected(s0, newData, history);
        return;
      }
      StepAccepted(s0, newData, history);
      ok := Refresh();
    }

    /** Lines 30-31 of `update_from_json_item`: `update_delta`, then, unless
        it raised, `update_range_total`. */
    method Refresh() returns (ok: bool)
      requires Valid()
      modifies this
      ensures Valid()
      ensures (State(), ok) == Recompute(old(State()))
      ensures mark == old(mark)
    {
      ghost var s0 := State();
      ok := UpdateDelta();
      if !ok {
        RecomputeLong(s0);
        assert State() == s0.(delta := delta);
        return;
      }
      UpdateRangeTotal();
      if |history| < 2 {
        RecomputeShort(s0);
        assert State() == s0.(rangeTotal := rangeTotal);
      } else {
        RecomputeLong(s0);
        assert State() == StationState(s0.history, delta, deltas, rangeTotal);
      }
    }

    /** The update exactly as written: after the eviction the no-argument
        `StationData()` raises, so `delta`, `_delta_history` and
        `range_total` never change and the caller always sees the
        exception. */
    method UpdateAsWritten(item: Item) returns (ok: bool)
      requires Valid()
      modifies this
      ensures Valid()
      ensures (State(), ok) == StepAsWritten(old(State()), Built(item))
      ensures mark == old(mark)
    {
      var newData := Construct(item);
      ok := IngestAsWritten(newData);
    }

    /** Lines 25-31 as written. */
    method IngestAsWritten(newData: Record) returns (ok: bool)
      requires Valid()
      modifies this
      ensures Valid()
      ensures (State(), ok) == StepAsWritten(old(State()), newData)
      ensures mark == old(mark)
    {
      if history != [] && DateOf(newData) == DateOf(Last(history)) {
        return true;
      }
      history := history + [newData];
      ok := DropOldData();
      EvictBounded(old(history) + [newData]);
      assert StepAsWritten(old(State()), newData) == (State(), false);
      // update_delta: `StationData()` at line 78 raises TypeError, or, with
      // fewer than two snapshots, update_range_total's at line 106 does
      ok := false;
    }
  }

  // ----- properties -----

  lemma {:induction false} DropStaleSuffix(h: seq<Record>, threshold: int)
    ensures IsSuffix(DropStale(h, threshold).0, h)
  {
    if h != [] && DateOf(h[0]).Time? && DateOf(h[0]).seconds < threshold {
      DropStaleSuffix(h[1..], threshold);
    }
  }

  /** The time trim never removes a snapshot dated at or after the threshold,
      so it keeps the newest one. */
  lemma {:induction false} DropStaleKeepsNewest(h: seq<Record>, threshold: int)
    requires h != [] && DateOf(Last(h)).Time? && DateOf(Last(h)).seconds >= threshold
    ensures DropStale(h, threshold).0 != [] && Last(DropStale(h, threshold).0) == Last(h)
  {
    DropStaleSuffix(h, threshold);
    if DateOf(h[0]).Time? && DateOf(h[0]).seconds < threshold {
      assert |h| > 1;
      DropStaleKeepsNewest(h[1..], threshold);
    }
  }

  /** When the time trim completes, its front is dated at or after the
      threshold. */
  lemma {:induction false} DropStaleFront(h: seq<Record>, threshold: int)
    requires DropStale(h, threshold).1 && DropStale(h, threshold).0 != []
    ensures DateOf(DropStale(h, threshold).0[0]).Time?
    ensures DateOf(DropStale(h, threshold).0[0]).seconds >= threshold
  {
    if DateOf(h[0]).Time? && DateOf(h[0]).seconds < threshold {
      DropStaleFront(h[1..], threshold);
    }
  }

  lemma PartialDiffStep(cur: Record, prev: Record, i: nat)
    requires i < 16 && Subtractable(cur, prev, i)
    ensures PartialDiff(cur, prev, i + 1) ==
      PartialDiff(cur, prev, i)[i := CountOf(cur, i).value - CountOf(prev, i).value]
  {
  }

  lemma KeepLastSuffix<T>(s: seq<T>, n: nat)
    ensures IsSuffix(KeepLast(s, n), s) && |KeepLast(s, n)| == if |s| > n then n else |s|
  {
  }

  /** The eviction keeps a contiguous, order-preserving suffix of at most
      `_max_history` snapshots, ending with the newest one. */
  lemma EvictBounded(h: seq<Record>)
    requires h != []
    ensures IsSuffix(Evict(h).0, h) && |Evict(h).0| <= MaxHistory
    ensures Evict(h).0 != [] && Last(Evict(h).0) == Last(h)
  {
    var kept := KeepLast(h, MaxHistory);
    KeepLastSuffix(h, MaxHistory);
    assert Last(kept) == Last(h);
    match DateOf(Last(kept))
    case Time(t) =>
      DropStaleSuffix(kept, t - WindowSeconds);
      DropStaleKeepsNewest(kept, t - WindowSeconds);
    case Plain(_) =>
  }

  /** A snapshot dated like the newest retained one changes nothing. */
  lemma DuplicateIgnored(s: StationState, r: Record)
    requires s.history != [] && DateOf(r) == DateOf(s.history[|s.history| - 1])
    ensures Step(s, r) == (s, true)
  {
  }

  /** An accepted snapshot (even one whose update then raises) ends up as the
      newest entry of a history of at most `_max_history` snapshots, which
      is a contiguous suffix of the old history followed by the snapshot. */
  lemma StepHistory(s: StationState, r: Record)
    requires !IsDuplicate(s.history, r)
    ensures var h := Step(s, r).0.history;
      h != [] && Last(h) == r && |h| <= MaxHistory && IsSuffix(h, s.history + [r])
  {
    EvictBounded(s.history + [r]);
  }

  /** An accepted snapshot's history is the eviction's, and the update
      completes only where the eviction did. */
  lemma StepEvicts(s: StationState, r: Record)
    requires !IsDuplicate(s.history, r)
    ensures Step(s, r).0.history == Evict(s.history + [r]).0
    ensures Step(s, r).1 ==> Evict(s.history + [r]).1
  {
  }

  /** With fewer than two snapshots only the range total is recomputed. */
  lemma RecomputeShort(s: StationState)
    requires |s.history| < 2
    ensures Recompute(s) == (s.(rangeTotal := Some(RangeTotal(s.deltas, s.history != []))), true)
  {
  }

  /** With two or more, the delta is set; it is pushed and summed only when
      all its subtractions went through. */
  lemma RecomputeLong(s: StationState)
    requires |s.history| >= 2
    ensures var (d, computed) := DeltaOf(Last(s.history), s.history[|s.history| - 2]);
      Recompute(s) ==
        if computed then
          (StationState(s.history, Some(d), PushCapped(s.deltas, d), Some(RangeTotal(PushCapped(s.deltas, d), true))), true)
        else (s.(delta := Some(d)), false)
  {
  }

  /** An accepted snapshot whose eviction completes goes on to the delta and
      range total. */
  lemma StepAccepted(s: StationState, r: Record, h: seq<Record>)
    requires !IsDuplicate(s.history, r) && s.history + [r] != [] && Evict(s.history + [r]) == (h, true)
    ensures Step(s, r) == Recompute(s.(history := h))
  {
  }

  /** An accepted snapshot whose eviction raises stops there. */
  lemma StepRejected(s: StationState, r: Record, h: seq<Record>)
    requires !IsDuplicate(s.history, r) && s.history + [r] != [] && Evict(s.history + [r]) == (h, false)
    ensures Step(s, r) == (s.(history := h), false)
  {
  }

  /** When the eviction completes, its front is dated within ten minutes of
      the newest snapshot `r`. */
  lemma EvictWindow(all: seq<Record>, r: Record)
    requires all != [] && Last(all) == r && Evict(all).1
    ensures DateOf(r).Time?
    ensures var h := Evict(all).0;
      h != [] && DateOf(h[0]).Time? && DateOf(h[0]).seconds >= DateOf(r).seconds - WindowSeconds
  {
    var kept := KeepLast(all, MaxHistory);
    KeepLastSuffix(all, MaxHistory);
    assert Last(kept) == r;
    EvictBounded(all);
    DropStaleFront(kept, DateOf(r).seconds - WindowSeconds);
  }

  /** After an update that completes, the new snapshot and the front of the
      history carry datetimes, and the front is at most ten minutes older
      than the new snapshot. Snapshots behind the front are not re-checked
      and may hold other dates. */
  lemma StepWindow(s: StationState, r: Record)
    requires !IsDuplicate(s.history, r) && Step(s, r).1
    ensures DateOf(r).Time?
    ensures var h := Step(s, r).0.history;
      h != [] && DateOf(h[0]).Time? && DateOf(h[0]).seconds >= DateOf(r).seconds - WindowSeconds
  {
    StepEvicts(s, r);
    EvictWindow(s.history + [r], r);
  }

  /** Dates of `h` are datetimes in non-decreasing order. */
  predicate Ascending(h: seq<Record>) {
    (forall i :: 0 <= i < |h| ==> DateOf(h[i]).Time?) &&
    forall i, j :: 0 <= i <= j < |h| ==> DateOf(h[i]).seconds <= DateOf(h[j]).seconds
  }

  /** When the feed's dates ascend, a completed update leaves every retained
      snapshot within ten minutes of the newest. */
  lemma StepWindowAll(s: StationState, r: Record)
    requires !IsDuplicate(s.history, r) && Step(s, r).1
    requires Ascending(s.history + [r])
    ensures var h := Step(s, r).0.history;
      forall i :: 0 <= i < |h| ==>
        DateOf(h[i]).Time? && DateOf(r).seconds - WindowSeconds <= DateOf(h[i]).seconds <= DateOf(r).seconds
  {
    var all := s.history + [r];
    var h := Step(s, r).0.history;
    StepWindow(s, r);
    StepHistory(s, r);
    forall i | 0 <= i < |h|
      ensures DateOf(h[i]).Time? &&
        DateOf(r).seconds - WindowSeconds <= DateOf(h[i]).seconds <= DateOf(r).seconds
    {
      var off := |all| - |h|;
      assert h[i] == all[off + i] && h[0] == all[off] && r == all[|all| - 1];
    }
  }

  /** With fewer than two retained snapshots `update_delta` changes nothing;
      otherwise each delta field is newest minus previous, signed and never
      clamped, and the delta is appended to the capped delta history. */
  lemma StepDelta(s: StationState, r: Record)
    requires !IsDuplicate(s.history, r) && Evict(s.history + [r]).1
    ensures var (s', ok) := Step(s, r);
      var h := s'.history;
      (|h| < 2 ==> ok && s'.delta == s.delta && s'.deltas == s.deltas) &&
      (|h| >= 2 && ok ==>
        s'.delta.Some? &&
        (forall i :: 0 <= i < 16 ==>
          CountOf(r, i).Some? && CountOf(h[|h| - 2], i).Some? &&
          s'.delta.value.counts[i] == CountOf(r, i).value - CountOf(h[|h| - 2], i).value) &&
        s'.deltas == PushCapped(s.deltas, s'.delta.value))
  {
    StepHistory(s, r);
    var h := Evict(s.history + [r]).0;
    StepEvicts(s, r);
    assert Step(s, r) == Recompute(s.(history := h));
    if |h| >= 2 && DeltaOf(r, h[|h| - 2]).1 {
      DeltaOfFull(r, h[|h| - 2]);
    }
  }

  /** A delta that got through all 16 subtractions holds newest minus
      previous in every field. */
  lemma DeltaOfFull(cur: Record, prev: Record)
    requires DeltaOf(cur, prev).1
    ensures forall i :: 0 <= i < 16 ==>
      CountOf(cur, i).Some? && CountOf(prev, i).Some? &&
      DeltaOf(cur, prev).0.counts[i] == CountOf(cur, i).value - CountOf(prev, i).value
  {
    var k := FirstUnsubtractable(cur, prev, 0);
    forall i | 0 <= i < 16
      ensures CountOf(cur, i).Some? && CountOf(prev, i).Some?
      ensures PartialDiff(cur, prev, k)[i] == CountOf(cur, i).value - CountOf(prev, i).value
    {
      assert Subtractable(cur, prev, i);
    }
  }

  /** A delta history pushed with the cap stays within the cap, ends with the
      new delta and is a contiguous suffix of the old one followed by it. */
  lemma PushCappedBounded(ds: seq<Tally>, d: Tally)
    ensures var ds' := PushCapped(ds, d);
      |ds'| <= MaxHistory && ds' != [] && Last(ds') == d && IsSuffix(ds', ds + [d])
  {
    KeepLastSuffix(ds + [d], MaxHistory);
  }

  /** Summing is additive over concatenation, so the sum is the same
      whichever way the deltas are grouped. */
  lemma {:induction false} SumFieldAppend(a: seq<Tally>, b: seq<Tally>, i: nat)
    requires i < 16
    ensures SumField(a + b, i) == SumField(a, i) + SumField(b, i)
    decreases |b|
  {
    if b == [] {
      assert a + b == a;
    } else {
      assert (a + b)[..|a + b| - 1] == a + b[..|b| - 1];
      assert Last(a + b) == Last(b);
      SumFieldAppend(a, b[..|b| - 1], i);
    }
  }

  /** Because `range` equals `_max_history`, `range_total` sums every delta
      the history retains. */
  lemma RangeCoversHistory(ds: seq<Tally>)
    requires |ds| <= MaxHistory
    ensures RangeWindow(ds) == ds
  {
  }

  /** The hourly rate truncates `qtotal_sum * 60 / n` toward zero: its
      magnitude is the floor of the exact magnitude and its sign is the
      sum's. */
  lemma RateTruncates(a: int, n: int)
    requires n > 0
    ensures var r := TruncDiv(a, n);
      (a >= 0 ==> r >= 0 && r * n <= a < (r + 1) * n) &&
      (a < 0 ==> r <= 0 && (r - 1) * n < a <= r * n)
  {
    if a >= 0 {
      DivBounds(a, n);
    } else {
      DivBounds(-a, n);
      var q := (-a) / n;
      assert (-q - 1) * n == -(q * n) - n;
      assert (-q) * n == -(q * n);
    }
  }

  lemma DivBounds(a: nat, n: int)
    requires n > 0
    ensures a / n >= 0 && (a / n) * n <= a < (a / n + 1) * n
  {
    var q, m := a / n, a % n;
    assert a == q * n + m && 0 <= m < n;
    assert (q + 1) * n == q * n + n;
  }

  /** `range_total` after a completed update: each field is the sum over the
      retained deltas, and the rate is set from the QSO sum when there are
      deltas and stays 0 when there are none. */
  lemma StepRangeTotal(s: StationState, r: Record)
    requires !IsDuplicate(s.history, r) && Step(s, r).1 && |s.deltas| <= MaxHistory
    ensures var s' := Step(s, r).0;
      s'.rangeTotal.Some? &&
      (forall i :: 0 <= i < 16 ==> s'.rangeTotal.value.counts[i] == SumField(s'.deltas, i)) &&
      s'.rangeTotal.value.rate ==
        (if s'.deltas == [] then 0 else TruncDiv(SumField(s'.deltas, QTotal) * 60, |s'.deltas|))
  {
    StepHistory(s, r);
    var s' := Step(s, r).0;
    if |s'.history| >= 2 {
      PushCappedBounded(s.deltas, s'.delta.value);
    }
    RangeCoversHistory(s'.deltas);
  }

  /** As written, the engine never produces a delta or a range total and
      every accepted snapshot ends in an exception. */
  lemma AsWrittenNeverComputes(s: StationState, r: Record)
    requires !IsDuplicate(s.history, r)
    ensures var (s', ok) := StepAsWritten(s, r);
      !ok && s'.delta == s.delta && s'.deltas == s.deltas && s'.rangeTotal == s.rangeTotal
  {
  }
}
