# Contest scoreboard monitor — a Dafny model of the station engine

The contest scoreboard monitor polls a radio-contest scoreboard feed once a
minute. It keeps a short rolling history of snapshots for each station. From
that history it derives per-interval differences ("deltas"), their running
total and an hourly QSO rate.

This project models that engine and the small pieces around it, and proves
what they promise:

- `StationEngine` (station.dfy) is the `Station` class of
  src/contest_scoreboard_monitor/station.py. It covers the duplicate check,
  appending and evicting by count and by time, the newest-minus-previous
  delta, the capped delta history, and the range total with its rate.
  - The class keeps the source's fields and its `while`/`for` loops.
  - Each method is proved against a specification function on a
    `StationState` value (`Step`, `Recompute`, `Evict`, `DeltaOf`,
    `RangeTotal`).
  - The history properties are proved as lemmas about those functions.
- `StationData` (station_data.dfy) is the snapshot record and its
  constructor. The constructor copies a feed item key by key onto the class
  defaults, parses a string `date`, and stops silently at the first date
  that does not parse.
- `Dates` (dates.dfy) is the `%Y-%m-%d %H:%M:%S` parser, as seconds since
  0001-01-01 UTC. It comes with its printer, round trips both ways and
  monotonicity.
- `Registry` (stations_list.dfy) is the callsign → Station map, with
  create-on-first-sight, the `ERROR` placeholder, swallowed exceptions and
  `mark`.
- `LegacyStationData`, `LegacyRegistry` (legacy_station_data.dfy,
  legacy_stations_list.dfy) are the older root-level record, registry and
  stub station that main.py uses.
- `App` (app.dfy) holds main.py's non-GUI logic:
  - the contest and category pick-lists and lookups by display label;
  - the station-count entry, with `validate_number` and the `int()`
    fallback;
  - start, stop and toggle of monitoring;
  - the WAZ-zone filter that feeds the registry.
- `Feed`, `Decimal` and `Wrappers` are shared pieces:
  - `Feed` holds the decoded JSON item and Python's `dict.get`,
    truthiness and `str()`;
  - `Decimal` reads and prints ASCII decimal numbers;
  - `Wrappers` defines `Option`.

Python exceptions are modelled as an `ok: bool` result. Whatever the source
changed before the raise stays changed in the model.

Points of the code's behaviour worth stating (station files are under
src/contest_scoreboard_monitor/; main.py is at the top level):

- A delta is the newest snapshot minus the *previous* one (station.py:80-96),
  and the deltas are kept in a history capped at 10 entries.
- The rate is `int(qtotal_sum / len(delta_history) * 60)` (station.py:135):
  the QTotal sum over the last ten deltas, divided by the number of
  deltas held, times 60.
  - As written, no rate is ever produced: station.py:78 and :106 raise (see
    "## Findings"). In the corrected model (`Step`), two snapshots five
    minutes apart with qtotal 10 then 40 give one delta of 30 and a rate of
    30 * 60 / 1 = 1800.
- Numeric fields of a record default to 0 and text fields to '' (station_data.py:9-57).
- The only admission test for a feed item is the WAZ-zone comparison in
  main.py:295; there is no other category or station filter.
- A feed item is a decoded JSON object, a Python dict, so the model's
  `Feed.Item` never repeats a key.

## Model

| member | source | states |
|---|---|---|
| Feed.CallsignOf | src/contest_scoreboard_monitor/stations_list.py:16 | an item without `sign` is filed under "ERROR"; otherwise it is filed under its `sign` value |
| Dates.ParseFormat | src/contest_scoreboard_monitor/station_data.py:65 | every valid date-time printed as `%Y-%m-%d %H:%M:%S` parses back to itself and to its seconds count |
| Dates.FormatParse | src/contest_scoreboard_monitor/station_data.py:65 | whatever parses is a calendar-valid date-time whose printed form is exactly the input text |
| Dates.ToSecondsMonotone | src/contest_scoreboard_monitor/station_data.py:65 | a strictly earlier date-time gives strictly fewer seconds, so the engine's `<` on dates is the calendar order |
| Dates.ToSecondsInjective | src/contest_scoreboard_monitor/station_data.py:65 | two valid date-times are equal exactly when their second counts are, so comparing second counts compares the calendar times they hold |
| StationData.ClassDefault | src/contest_scoreboard_monitor/station_data.py:9-57 | a class default exists exactly for the declared fields: 0 for counts, '' for strings, None for `date` |
| StationData.FailIndex | src/contest_scoreboard_monitor/station_data.py:60-68 | the entries before the returned index all convert; the entry at it is the one whose conversion raises |
| StationData.Construct | src/contest_scoreboard_monitor/station_data.py:59-68 | the loop leaves exactly the attributes of the entries before the first unparsable string `date` |
| StationData.AssignedKeys | src/contest_scoreboard_monitor/station_data.py:62-66 | the attributes set are exactly the keys processed, declared or not |
| StationData.AssignedValue | src/contest_scoreboard_monitor/station_data.py:64-66 | each processed key holds its value, with a string `date` converted to its parsed time |
| StationData.BuiltAssigns | src/contest_scoreboard_monitor/station_data.py:62-66 | each entry before the failing one is readable under its key: as its parsed time for a string `date`, verbatim otherwise |
| StationData.BuiltDefaults | src/contest_scoreboard_monitor/station_data.py:9-57 | a name that no entry before the failure carries reads as its class default; this covers the failing key and every later key |
| StationData.EmptyItemDefaults | src/contest_scoreboard_monitor/station_data.py:61 | an empty item gives the all-default record |
| StationData.FailureIsUnparsableDate | src/contest_scoreboard_monitor/station_data.py:64-68 | within the modelled values, the constructor stops only at a string `date` that the parser rejects |
| StationEngine.FirstUnsubtractable | src/contest_scoreboard_monitor/station.py:80-97 | the first of the 16 fields whose subtraction raises, with every earlier field subtractable |
| StationEngine.Station.constructor | src/contest_scoreboard_monitor/station.py:9-17 | a new station has empty histories, no delta or range total, and `mark` false |
| StationEngine.Station.Current | src/contest_scoreboard_monitor/station.py:42-45 | None exactly when the history is empty; otherwise the newest snapshot |
| StationEngine.Station.Previous | src/contest_scoreboard_monitor/station.py:47-50 | None exactly when fewer than two snapshots are held; otherwise the one before the newest |
| StationEngine.Station.Oldest | src/contest_scoreboard_monitor/station.py:52-55 | None exactly when the history is empty; otherwise the front snapshot |
| StationEngine.Station.DataHistory | src/contest_scoreboard_monitor/station.py:57-59 | a copy of the retained snapshots, oldest first |
| StationEngine.Station.DropOldData | src/contest_scoreboard_monitor/station.py:61-68 | both trimming loops together compute `Evict`: the count trim, then the time trim from the front, and the exception for a date that is not a datetime |
| StationEngine.Station.UpdateDelta | src/contest_scoreboard_monitor/station.py:70-102 | with fewer than two snapshots nothing changes; otherwise each field is newest minus previous and the delta is pushed onto the capped delta history |
| StationEngine.Station.Differences | src/contest_scoreboard_monitor/station.py:80-96 | the 16 subtractions in order give exactly `DeltaOf`: the fields before the first TypeError hold their differences, the rest stay 0 |
| StationEngine.Station.PushDelta | src/contest_scoreboard_monitor/station.py:98-102 | appending and then popping the front while over the cap leaves exactly the capped push |
| StationEngine.Station.UpdateRangeTotal | src/contest_scoreboard_monitor/station.py:104-135 | the new range total holds the sums of the last `range` deltas, and a rate only when there are deltas and a front snapshot |
| StationEngine.Station.Update | src/contest_scoreboard_monitor/station.py:23-31 | the new state and the outcome are exactly `Step` of the old state and the snapshot built from the item; `mark` does not change |
| StationEngine.Station.Ingest | src/contest_scoreboard_monitor/station.py:25-31 | the duplicate check, the append, the eviction and the recomputation together equal `Step` |
| StationEngine.Station.Refresh | src/contest_scoreboard_monitor/station.py:30-31 | `update_delta` then, unless it raised, `update_range_total`, equals `Recompute` |
| StationEngine.Station.UpdateAsWritten | src/contest_scoreboard_monitor/station.py:23-31 | the update as written: every accepted snapshot ends in the TypeError of the no-argument `StationData()` |
| StationEngine.Station.IngestAsWritten | src/contest_scoreboard_monitor/station.py:25-31 | lines 25-31 as written equal `StepAsWritten` |
| StationEngine.PartialDiffStep | src/contest_scoreboard_monitor/station.py:80-97 | one more subtraction sets exactly that field of the partial delta |
| StationEngine.KeepLastSuffix | src/contest_scoreboard_monitor/station.py:63-64 | popping the front down to a length bound keeps a suffix of exactly that length, or the whole list when it is shorter |
| StationEngine.DropStaleSuffix | src/contest_scoreboard_monitor/station.py:67-68 | the time trim only pops from the front, so it keeps a contiguous suffix |
| StationEngine.DropStaleKeepsNewest | src/contest_scoreboard_monitor/station.py:66-68 | the time trim never removes the newest snapshot, whose date defines the threshold |
| StationEngine.DropStaleFront | src/contest_scoreboard_monitor/station.py:66-68 | when the time trim completes, its front is a datetime no older than the threshold |
| StationEngine.EvictBounded | src/contest_scoreboard_monitor/station.py:61-68 | eviction keeps a non-empty, contiguous, order-preserving suffix of at most 10 snapshots that ends with the newest one |
| StationEngine.DuplicateIgnored | src/contest_scoreboard_monitor/station.py:25-27 | a snapshot dated like the newest retained one leaves history, delta, delta history and range total unchanged, and completes |
| StationEngine.StepHistory | src/contest_scoreboard_monitor/station.py:28-29 | an accepted snapshot is the newest entry of a history of at most 10 snapshots, which is a suffix of the old history followed by it |
| StationEngine.StepWindow | src/contest_scoreboard_monitor/station.py:66-68 | after a completed update the new snapshot and the front one carry datetimes, and the front is at most ten minutes older than the new one |
| StationEngine.StepWindowAll | src/contest_scoreboard_monitor/station.py:66-68 | when the dates ascend, every retained snapshot lies within ten minutes of the newest |
| StationEngine.StepDelta | src/contest_scoreboard_monitor/station.py:73-102 | with fewer than two snapshots `update_delta` changes nothing; otherwise each of the 16 fields is newest minus previous, signed and unclamped, pushed onto the capped delta history |
| StationEngine.DeltaOfFull | src/contest_scoreboard_monitor/station.py:80-96 | a delta that got through all 16 subtractions holds newest minus previous in every field |
| StationEngine.EvictWindow | src/contest_scoreboard_monitor/station.py:61-68 | when the eviction completes, the newest date is a datetime and the front is at most ten minutes older |
| StationEngine.PushCappedBounded | src/contest_scoreboard_monitor/station.py:99-102 | the delta history stays within 10 entries, ends with the new delta and is a suffix of the old one followed by it |
| StationEngine.SumFieldAppend | src/contest_scoreboard_monitor/station.py:112-130 | summing a field over the deltas is additive over concatenation |
| StationEngine.RangeCoversHistory | src/contest_scoreboard_monitor/station.py:108-111 | with `range` equal to the history cap, the summed window is the whole delta history |
| StationEngine.RateTruncates | src/contest_scoreboard_monitor/station.py:135 | the rate is `qtotal_sum * 60 / n` truncated toward zero: the floor of the magnitude, with the sum's sign |
| StationEngine.StepRangeTotal | src/contest_scoreboard_monitor/station.py:104-135 | after a completed update each range-total field is the sum over all retained deltas; the rate is the truncated hourly figure, or 0 with no deltas |
| StationEngine.AsWrittenNeverComputes | src/contest_scoreboard_monitor/station.py:78 | as written, an accepted snapshot never yields a delta or a range total, and the update always raises |
| Registry.StationsList.constructor | src/contest_scoreboard_monitor/stations_list.py:7-8 | the registry starts empty |
| Registry.StationsList.Get | src/contest_scoreboard_monitor/stations_list.py:10-11 | None exactly for an unknown callsign; otherwise the stored Station |
| Registry.StationsList.GetStations | src/contest_scoreboard_monitor/stations_list.py:26-27 | one Station per callsign, each exactly once, in first-insertion order |
| Registry.StationsList.Update | src/contest_scoreboard_monitor/stations_list.py:14-24 | the item's station is created and inserted on first sight and kept even when its update raises; it steps by `Step`; `mark` is set only when the update completes; all other stations are unchanged |
| Registry.StationsList.Lookup | src/contest_scoreboard_monitor/stations_list.py:16-20 | the existing Station, or a fresh initial one appended to the insertion order |
| Registry.StationsList.UpdateStation | src/contest_scoreboard_monitor/stations_list.py:21-22 | the station steps by `Step`, and `mark` is set only when that completes |
| Registry.StationsList.Clear | src/contest_scoreboard_monitor/stations_list.py:29-30 | the registry is emptied |
| LegacyStationData.Field | station_data.py:6-37 | a set attribute reads its value; an unset one reads "" for `clubname` and raises for any other name |
| LegacyStationData.Construct | station_data.py:39-42 | a None dict sets nothing; otherwise the entries are applied in order by `setattr` |
| LegacyStationData.SetattrsKeys | station_data.py:41-42 | exactly the dict's keys become attributes, including undeclared ones |
| LegacyStationData.SetattrsValue | station_data.py:41-42 | every value is stored verbatim under its key, so a `date` string stays a string |
| LegacyStationData.ConstructFields | station_data.py:37-42 | reading a field gives the item's value for a supplied key; for an unsupplied key it succeeds only for `clubname` |
| LegacyRegistry.LegacyStation.constructor | station.py:5-7 | a new stub station holds a record with no attributes set |
| LegacyRegistry.LegacyStation.Update | station.py:12-13 | the update always raises AttributeError (`update_from_dict` does not exist) |
| LegacyRegistry.StationsList.constructor | stations_list.py:5-6 | the registry starts empty |
| LegacyRegistry.StationsList.Get | stations_list.py:8-9 | None exactly for an unknown callsign; otherwise the stored Station |
| LegacyRegistry.StationsList.Update | stations_list.py:12-18 | the Station is created and inserted on first sight and reused later; it is inserted before the update; the update's exception propagates and the entry stays |
| LegacyRegistry.StationsList.GetStations | stations_list.py:20-21 | one Station per key, each exactly once, in insertion order |
| App.FirstWhere | main.py:130 | `next(...)` over a filtered generator: the first matching index, or None exactly when nothing matches |
| App.FilterAppend | main.py:206-215 | a filtering comprehension keeps the input order: it distributes over concatenation |
| App.ContestOf | main.py:207-212 | a missing `name` becomes 'Unknown'; missing dates become ''; `testid` is taken as given |
| App.CategoryOf | main.py:236-247 | `catid` is taken as given, and a missing `categoryname` becomes 'Unknown' |
| App.ContestsFromSound | main.py:205-215 | every loaded contest has a truthy `testid` and comes from a feed item |
| App.ContestsFromComplete | main.py:205-215 | every feed item with a truthy `testid` gives a loaded contest |
| App.ContestsFromAppend | main.py:205-215 | the loaded contests keep feed order |
| App.ValidateNumber | main.py:114-118 | true exactly when the text is empty or all ASCII digits |
| App.ParseIntDigits | main.py:163 | `int()` of a non-empty digit string is the number it spells when it has at most 4300 digits, and raises ValueError past that limit |
| App.ParseIntNegated | main.py:163 | `int()` of a minus sign followed by a digit string is the negated number when the digits number at most 4300, and raises past that limit |
| App.ParseIntShow | main.py:163 | `int(str(n)) == n` for every integer of at most 4300 digits (the integers Python's `str` prints); past that `int()` raises |
| App.StationsCountValidated | main.py:162-165 | an empty entry gives 10; a validated non-empty entry gives its own value when it has at most 4300 digits, and 10 when it is longer |
| App.StationsCountFallback | main.py:162-165 | text with no digit at all gives 10 |
| App.ZoneItems | main.py:294-298 | every forwarded item carries `waz` equal to the zone; an item without `waz` is never forwarded |
| App.FirstInZone | main.py:291-298 | the loop reaches the first item in zone, which is the first of the zone items; when there is none, no item is in zone |
| App.ZoneItemsFirst | main.py:291-298 | the first item in zone after a run of items out of zone is the first item forwarded to the registry |
| App.Application.constructor | main.py:20-31 | zone 14, "OVERALL", "", "10", the ready status, empty lists and registry, not monitoring |
| App.Application.GetSelectedContestId | main.py:128-131 | the `testid` of the first contest labelled `name (testid)` like the selection; None exactly when none is |
| App.Application.GetSelectedCategory | main.py:138-141 | the first category labelled `categoryname (catid)` like the selection; None exactly when none is |
| App.Application.GetSelectedCategoryId | main.py:133-136 | the selected category's `catid`; None exactly when no category is selected |
| App.Application.EditStations | main.py:71-73 | an edit of the station-count entry is applied exactly when `validate_number` accepts it |
| App.Application.OnContestSelected | main.py:120-126 | a matching contest sets the "Selected" status and returns its `testid` for the category load; otherwise nothing changes |
| App.Application.StartMonitoring | main.py:156-174 | with no matching contest, or a falsy id, it sets the error status and leaves `is_monitoring` unchanged; otherwise it starts monitoring that id with the parsed station count |
| App.Application.StopMonitoring | main.py:176-184 | monitoring stops, with the "Monitoring stopped" status |
| App.Application.ToggleMonitoring | main.py:150-181 | when monitoring, it stops with status "Monitoring stopped"; otherwise it starts exactly when a contest with a truthy id is selected, with status "Monitoring contest <id>..." and a task for that id and station count, and without one it sets the select-a-contest error |
| App.Application.LoadContests | main.py:205-228 | an empty list changes nothing; otherwise the contests are replaced, and the first one is selected and its categories requested |
| App.Application.LoadCategories | main.py:234-259 | an empty list changes nothing; otherwise the categories are replaced and the first one is selected |
| App.Application.ProcessContestData | main.py:287-300 | with no selected category it raises before the loop; otherwise only items in zone reach the registry, in feed order, and the stub's exception ends the call at the first one; that item's callsign is added to the registry (appended to the order when new, with an empty record), and every existing entry is unchanged |

## Left out

- The Tk user interface is not modelled: widget layout, `add_to_scrolledtext`, the `__str__` formatting, `enable_widgets`, `update_stations_display`, `update_status` and find_font.py. The status text is kept as a string field.
- Networking, threads and asyncio are not modelled: `fetch_json`, `monitor_contest`, `start_async_tasks`, `on_closing` and the task cancellation in `stop_monitoring`. The fetched JSON is a parameter of `LoadContests`, `LoadCategories` and `ProcessContestData`, and a scheduled task is a returned value.
- `root.after(0, ...)` is modelled as taking effect at once; the UI thread's ordering is not modelled.
- The `EF8R` debug block (station.py:32-39) is not modelled. Besides printing, it can raise: `StationData.__str__` formats every attribute with `<7` (station_data.py:73), which raises TypeError for a null feed value. The registry then logs the error and leaves `mark` unset; the model completes the update instead.
- StationData.FailureIsUnparsableDate: `setattr` of a key such as `__class__` or `__dict__` raises inside the constructor's `try` (station_data.py:66) and stops the copy there; the model's keys are plain attribute names and never raise.
- StationEngine.Evict: `date - timedelta(minutes=10)` raises OverflowError when the newest date is before 0001-01-01 00:10:00 (station.py:66); the model computes a negative threshold and completes the eviction.
- logging, userconfig.py (configparser and files), inpersonate.py (a constant header map), log.py and the entry points are not part of this model.
- StationEngine.RateTruncates: the source computes the rate in floating point (`a / n * 60`); the model uses exact integer truncation toward zero, which float rounding could in principle differ from.
- `lat` and `lon` are floats in the source; they are modelled as integers defaulting to 0 and are never read.
- Feed values are integers, strings and null. JSON floats, booleans, lists and nested objects are not modelled, so `True == 1` and `14.0 == 14` in the zone test are not covered.
- Dates.ParseFormat: `strptime` is modelled as a strict fixed-width parser. It rejects the shorter digit widths `strptime` also accepts (such as `2024-1-5 3:04:05`), and time zones beyond the fixed UTC tag are not modelled.
- Dates.FormatParse: the lemma holds for the strict fixed-width parser only. `strptime` also accepts shorter fields such as `2024-1-5 3:04:05`, which do not print back to the same text.
- App.ValidateNumber: `str.isdigit` is modelled for ASCII digits only; other Unicode digits are not covered.
- App.StationsCountValidated: `int()` is modelled for ASCII digits and the ASCII whitespace it skips (tab, line feed, vertical tab, form feed, carriage return, space); Unicode digits and non-ASCII whitespace, which `int()` also accepts, are not covered.
- App.ParseIntShow: Python's `str(n)` raises ValueError for an integer of more than 4300 digits; the model's `Decimal.IntToString` prints every integer, so labels built by `Feed.Show` never raise, and the lemma states only that `int()` rejects such text.
- App.MaxStrDigits is CPython's default limit of 4300 digits; an interpreter configured otherwise (`sys.set_int_max_str_digits`, `PYTHONINTMAXSTRDIGITS`) is not modelled.
- `%d` in `logging.debug` with a non-integer id fails inside logging without raising, and is not modelled.

## Findings

| source | as written | input that shows it | evidently intended | confidence | as-written member | corrected member |
|---|---|---|---|---|---|---|
| src/contest_scoreboard_monitor/station.py:78 | `StationData()` is called without the required `dict_data` argument, and at line 106 as well, so every accepted snapshot raises TypeError. The registry swallows it, and no delta or range total is ever produced. | any first snapshot for a station whose date parses (line 106 raises; a missing, null or unparsable date raises earlier at line 66); a later snapshot with a new date reaches line 78 only while an earlier one is still retained, and otherwise raises at line 106 | a fresh all-default record, to be filled with the differences and sums | not executed | StationEngine.AsWrittenNeverComputes | StationEngine.Station.Update |
