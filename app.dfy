/** The non-GUI logic of the `Application` window in main.py: the contest and
    category pick-lists and their lookups by display label, the station-count
    entry and its fallback, start/stop of monitoring, and the WAZ-zone filter
    that feeds the registry of the root-level stations_list.py. */
module App {
  import opened Wrappers
  import opened Feed
  import Decimal
  import LegacyRegistry
  import LegacyStationData

  // ---------------------------------------------------------------------
  // Generic helpers: `next(...)` over a generator and a filtering
  // comprehension.

  /** `next((x for x in xs if p(x)), None)`, as an index into `xs`. */
  function FirstWhere<T>(xs: seq<T>, p: T -> bool): (r: Option<nat>)
    ensures r.None? <==> forall j :: 0 <= j < |xs| ==> !p(xs[j])
    ensures r.Some? ==> r.value < |xs| && p(xs[r.value]) &&
                        forall j :: 0 <= j < r.value ==> !p(xs[j])
  {
    if xs == [] then None
    else if p(xs[0]) then Some(0)
    else match FirstWhere(xs[1..], p)
      case None => None
      case Some(i) => Some(i + 1)
  }

  /** `[x for x in xs if p(x)]`. */
  function Filter<T>(xs: seq<T>, p: T -> bool): (r: seq<T>)
    ensures |r| <= |xs|
    ensures forall j :: 0 <= j < |r| ==> p(r[j]) && r[j] in xs
    ensures forall j :: 0 <= j < |xs| && p(xs[j]) ==> xs[j] in r
  {
    if xs == [] then []
    else
      var init := Filter(xs[..|xs| - 1], p);
      assert forall j :: 0 <= j < |xs| - 1 ==> xs[..|xs| - 1][j] == xs[j];
      init + if p(xs[|xs| - 1]) then [xs[|xs| - 1]] else []
  }

  /** Filtering keeps the feed order: it distributes over concatenation. */
  lemma {:induction false} FilterAppend<T>(xs: seq<T>, ys: seq<T>, p: T -> bool)
    ensures Filter(xs + ys, p) == Filter(xs, p) + Filter(ys, p)
    decreases |ys|
  {
    if ys == [] {
      assert xs + ys == xs;
    } else {
      var ys' := ys[..|ys| - 1];
      assert (xs + ys)[..|xs + ys| - 1] == xs + ys';
      assert (xs + ys)[|xs + ys| - 1] == ys[|ys| - 1];
      FilterAppend(xs, ys', p);
    }
  }

  /** What is filtered from a prefix is a prefix of what is filtered from
      the whole. */
  lemma {:induction false} FilterPrefix<T>(xs: seq<T>, i: nat, p: T -> bool)
    requires i <= |xs|
    ensures Filter(xs[..i], p) <= Filter(xs, p)
  {
    var front, back := xs[..i], xs[i..];
    assert xs == front + back;
    FilterAppend(front, back, p);
    assert Filter(xs, p) == Filter(front, p) + Filter(back, p);
  }

  // ---------------------------------------------------------------------
  // The `Contest` and `Category` records and their pick-lists.

  /** contest.py's dataclass, fields as the feed gave them. */
  datatype Contest = Contest(testid: Value, name: Value, startdate: Value, enddate: Value)

  /** category.py's dataclass, fields as the feed gave them. */
  datatype Category = Category(
    catid: Value, testid: Value, ctoper: Value, cttrans: Value, ctpwr: Value,
    categoryname: Value, wherescores: Value,
    ctOper: Value, ctTrans: Value, ctPower: Value)

  /** The dropdown label `f"{c.name} ({c.testid})"`. */
  function ContestLabel(c: Contest): string {
    Show(c.name) + " (" + Show(c.testid) + ")"
  }

  /** The dropdown label `f"{c.categoryname} ({c.catid})"`. */
  function CategoryLabel(c: Category): string {
    Show(c.categoryname) + " (" + Show(c.catid) + ")"
  }

  predicate HasTestId(item: Item) {
    Truthy(GetOr(item, "testid", Null))
  }

  predicate HasCatId(item: Item) {
    Truthy(GetOr(item, "catid", Null))
  }

  /** One element of the `load_contests` comprehension (main.py:207-212). */
  function ContestOf(item: Item): (c: Contest)
    ensures Get(item, "name").None? ==> c.name == Str("Unknown")
    ensures Get(item, "startdate").None? ==> c.startdate == Str("")
    ensures Get(item, "enddate").None? ==> c.enddate == Str("")
    ensures c.testid == GetOr(item, "testid", Null)
    ensures Get(item, "name").Some? ==> c.name == Get(item, "name").value
  {
    Contest(GetOr(item, "testid", Null), GetOr(item, "name", Str("Unknown")),
            GetOr(item, "startdate", Str("")), GetOr(item, "enddate", Str("")))
  }

  /** One element of the `load_categories` comprehension (main.py:236-247). */
  function CategoryOf(item: Item): (c: Category)
    ensures c.catid == GetOr(item, "catid", Null)
    ensures Get(item, "categoryname").None? ==> c.categoryname == Str("Unknown")
  {
    Category(
      GetOr(item, "catid", Null), GetOr(item, "testid", Null),
      GetOr(item, "ctoper", Int(0)), GetOr(item, "cttrans", Int(0)), GetOr(item, "ctpwr", Int(0)),
      GetOr(item, "categoryname", Str("Unknown")), GetOr(item, "wherescores", Str("")),
      GetOr(item, "ct_oper", Str("")), GetOr(item, "ct_trans", Str("")), GetOr(item, "ct_power", Str("")))
  }

  /** `[f(x) for x in xs]`. */
  function Map<T, U>(xs: seq<T>, f: T -> U): (r: seq<U>)
    ensures |r| == |xs| && forall i :: 0 <= i < |xs| ==> r[i] == f(xs[i])
  {
    seq(|xs|, i requires 0 <= i < |xs| => f(xs[i]))
  }

  lemma MapAppend<T, U>(xs: seq<T>, ys: seq<T>, f: T -> U)
    ensures Map(xs + ys, f) == Map(xs, f) + Map(ys, f)
  {
    assert forall i :: 0 <= i < |ys| ==> (xs + ys)[|xs| + i] == ys[i];
  }

  /** The contest list built by `load_contests` (main.py:206-215). */
  function ContestsFrom(data: seq<Item>): seq<Contest> {
    Map(Filter(data, HasTestId), ContestOf)
  }

  /** The category list built by `load_categories` (main.py:235-250). */
  function CategoriesFrom(data: seq<Item>): seq<Category> {
    Map(Filter(data, HasCatId), CategoryOf)
  }

  /** Every contest `load_contests` keeps comes from an item with a truthy
      `testid`. */
  lemma ContestsFromSound(data: seq<Item>)
    ensures forall c :: c in ContestsFrom(data) ==>
      Truthy(c.testid) && exists j :: 0 <= j < |data| && HasTestId(data[j]) && c == ContestOf(data[j])
  {
    var kept := Filter(data, HasTestId);
    forall c | c in ContestsFrom(data)
      ensures Truthy(c.testid) &&
              exists j :: 0 <= j < |data| && HasTestId(data[j]) && c == ContestOf(data[j])
    {
      var i :| 0 <= i < |kept| && ContestsFrom(data)[i] == c;
      assert kept[i] in data;
      var j :| 0 <= j < |data| && data[j] == kept[i];
      assert HasTestId(data[j]);
    }
  }

  /** Every item with a truthy `testid` gives a contest. */
  lemma ContestsFromComplete(data: seq<Item>)
    ensures forall j :: 0 <= j < |data| && HasTestId(data[j]) ==> ContestOf(data[j]) in ContestsFrom(data)
  {
    var kept := Filter(data, HasTestId);
    forall j | 0 <= j < |data| && HasTestId(data[j])
      ensures ContestOf(data[j]) in ContestsFrom(data)
    {
      assert data[j] in kept;
      var i :| 0 <= i < |kept| && kept[i] == data[j];
      assert ContestsFrom(data)[i] == ContestOf(data[j]);
    }
  }

  /** The contests keep the feed order. */
  lemma ContestsFromAppend(data: seq<Item>, more: seq<Item>)
    ensures ContestsFrom(data + more) == ContestsFrom(data) + ContestsFrom(more)
  {
    FilterAppend(data, more, HasTestId);
    MapAppend(Filter(data, HasTestId), Filter(more, HasTestId), ContestOf);
  }

  // ---------------------------------------------------------------------
  // The station-count entry.

  /** `validate_number` (main.py:114-118): `value.isdigit() or value == ""`,
      with ASCII digits for `isdigit`. */
  function ValidateNumber(value: string): (r: bool)
    ensures r <==> forall i :: 0 <= i < |value| ==> '0' <= value[i] <= '9'
  {
    (|value| > 0 && Decimal.AllDigits(value)) || value == ""
  }

  /** The ASCII whitespace `int()` skips around the number: tab, line feed,
      vertical tab, form feed, carriage return and space. The separators
      28-31, which `str.isspace` also accepts, are not skipped. */
  predicate IsSpace(c: char) {
    (9 <= c as int <= 13) || c as int == 32
  }

  function TrimStart(s: string): (r: string)
    ensures |r| <= |s|
    ensures r != [] ==> !IsSpace(r[0])
    ensures s == [] || !IsSpace(s[0]) ==> r == s
  {
    if s != [] && IsSpace(s[0]) then TrimStart(s[1..]) else s
  }

  function TrimEnd(s: string): (r: string)
    ensures |r| <= |s|
    ensures r != [] ==> !IsSpace(r[|r| - 1])
    ensures s == [] || !IsSpace(s[|s| - 1]) ==> r == s
  {
    if s != [] && IsSpace(s[|s| - 1]) then TrimEnd(s[..|s| - 1]) else s
  }

  /** `str.strip()` of the whitespace `int()` ignores around the number. */
  function Strip(text: string): string {
    TrimEnd(TrimStart(text))
  }

  /** Digits, optionally grouped by single underscores between digits, as
      `int()` accepts them. */
  predicate DigitGroups(s: string) {
    |s| > 0 && Decimal.IsDigit(s[0]) && Decimal.IsDigit(s[|s| - 1]) &&
    (forall i :: 0 <= i < |s| ==> Decimal.IsDigit(s[i]) || s[i] == '_') &&
    (forall i :: 0 <= i < |s| - 1 ==> s[i] == '_' ==> s[i + 1] != '_')
  }

  /** The digits of `s` with the underscores removed. */
  function Ungrouped(s: string): (r: string)
    requires forall i :: 0 <= i < |s| ==> Decimal.IsDigit(s[i]) || s[i] == '_'
    ensures Decimal.AllDigits(r)
    ensures Decimal.AllDigits(s) ==> r == s
  {
    if s == [] then []
    else (if s[0] == '_' then [] else [s[0]]) + Ungrouped(s[1..])
  }

  /** CPython's default limit on the digits of an integer string
      (`sys.int_info.default_max_str_digits`, since 3.10.7): `int()` and
      `str()` raise ValueError past it. */
  const MaxStrDigits := 4300

  /** The unsigned number `b` spells, if it is one within the digit limit.
      Underscores do not count towards the limit; leading zeros do. */
  function ParseUnsigned(b: string): Option<int> {
    if DigitGroups(b) && |Ungrouped(b)| <= MaxStrDigits then Some(Decimal.DigitsValue(Ungrouped(b))) else None
  }

  /** An optional sign, then an unsigned number. */
  function ParseSigned(t: string): Option<int> {
    if |t| > 0 && t[0] == '-' then
      match ParseUnsigned(t[1..])
      case Some(m) => Some(-m)
      case None => None
    else if |t| > 0 && t[0] == '+' then ParseUnsigned(t[1..])
    else ParseUnsigned(t)
  }

  /** Python's `int(text)` in base 10; None where it raises ValueError. */
  function ParseInt(text: string): Option<int> {
    ParseSigned(Strip(text))
  }

  /** `int(text or "10")` falling back to 10 on ValueError
      (main.py:162-165). */
  function StationsCount(text: string): int {
    if text == "" then 10
    else match ParseInt(text)
      case Some(n) => n
      case None => 10
  }

  lemma DigitsAreGroups(s: string)
    requires |s| > 0 && Decimal.AllDigits(s)
    ensures ParseUnsigned(s) == if |s| <= MaxStrDigits then Some(Decimal.DigitsValue(s) as int) else None
  {
    assert DigitGroups(s);
  }

  /** Text that neither starts nor ends in whitespace is left alone. */
  lemma StripKeeps(s: string)
    requires |s| > 0 && !IsSpace(s[0]) && !IsSpace(s[|s| - 1])
    ensures Strip(s) == s
  {
    assert TrimStart(s) == s;
  }

  /** A digit string reads as the number it spells, up to the digit limit,
      and raises past it. */
  lemma {:induction false} ParseIntDigits(s: string)
    requires |s| > 0 && Decimal.AllDigits(s)
    ensures ParseInt(s) == if |s| <= MaxStrDigits then Some(Decimal.DigitsValue(s) as int) else None
  {
    assert Decimal.IsDigit(s[0]) && Decimal.IsDigit(s[|s| - 1]);
    StripKeeps(s);
    DigitsAreGroups(s);
  }

  /** A minus sign followed by a digit string reads as the negated number,
      up to the digit limit, and raises past it. */
  lemma {:induction false} ParseIntNegated(d: string)
    requires |d| > 0 && Decimal.AllDigits(d)
    ensures ParseInt("-" + d) == if |d| <= MaxStrDigits then Some(-(Decimal.DigitsValue(d) as int)) else None
  {
    StripSigned(d);
    SignedNegated(d);
  }

  lemma StripSigned(d: string)
    requires |d| > 0 && Decimal.AllDigits(d)
    ensures Strip("-" + d) == "-" + d
  {
    var s := "-" + d;
    assert s[|s| - 1] == d[|d| - 1] && Decimal.IsDigit(d[|d| - 1]);
    StripKeeps(s);
  }

  lemma SignedNegated(d: string)
    requires |d| > 0 && Decimal.AllDigits(d)
    ensures ParseSigned("-" + d) == if |d| <= MaxStrDigits then Some(-(Decimal.DigitsValue(d) as int)) else None
  {
    if |d| <= MaxStrDigits {
      NegatedWithin(d);
    } else {
      NegatedPast(d);
    }
  }

  lemma NegatedWithin(d: string)
    requires |d| > 0 && Decimal.AllDigits(d) && |d| <= MaxStrDigits
    ensures ParseSigned("-" + d) == Some(-(Decimal.DigitsValue(d) as int))
  {
    MinusSign(d);
    DigitsAreGroups(d);
  }

  lemma NegatedPast(d: string)
    requires |d| > 0 && Decimal.AllDigits(d) && |d| > MaxStrDigits
    ensures ParseSigned("-" + d) == None
  {
    MinusSign(d);
    DigitsAreGroups(d);
  }

  /** A leading minus negates what follows it, or raises with it. */
  lemma MinusSign(d: string)
    ensures ParseSigned("-" + d) == (match ParseUnsigned(d)
                                     case Some(m) => Some(-m)
                                     case None => None)
  {
    assert ("-" + d)[1..] == d;
  }

  /** The number of decimal digits of `n`, sign not counted. */
  function DigitCount(n: int): nat {
    |Decimal.NatToString(if n < 0 then -n else n)|
  }

  lemma {:induction false} ShowNegative(m: nat)
    requires m > 0
    ensures ParseInt(Decimal.IntToString(-(m as int))) ==
      if DigitCount(m) <= MaxStrDigits then Some(-(m as int)) else None
  {
    var d := Decimal.NatToString(m);
    assert Decimal.IntToString(-(m as int)) == "-" + d;
    Decimal.NatToStringValue(m);
    ParseIntNegated(d);
  }

  lemma {:induction false} ShowNatural(m: nat)
    ensures ParseInt(Decimal.IntToString(m)) == if DigitCount(m) <= MaxStrDigits then Some(m) else None
  {
    var d := Decimal.NatToString(m);
    assert Decimal.IntToString(m) == d;
    Decimal.NatToStringValue(m);
    ParseIntDigits(d);
  }

  /** `int(str(n)) == n` for every `n` whose `str` Python prints, that is
      with at most `MaxStrDigits` digits; past the limit `int()` raises. */
  lemma {:induction false} ParseIntShow(n: int)
    ensures ParseInt(Decimal.IntToString(n)) == if DigitCount(n) <= MaxStrDigits then Some(n) else None
  {
    if n < 0 {
      assert DigitCount(n) == DigitCount(-n);
      ShowNegative(-n);
    } else {
      ShowNatural(n);
    }
  }

  /** Text that got through `validate_number` gives its own value up to the
      digit limit; the empty entry and a longer digit string give 10. */
  lemma StationsCountValidated(text: string)
    requires ValidateNumber(text)
    ensures text == "" ==> StationsCount(text) == 10
    ensures text != "" ==>
              Decimal.AllDigits(text) &&
              StationsCount(text) == if |text| <= MaxStrDigits then Decimal.DigitsValue(text) else 10
  {
    if text != "" {
      ParseIntDigits(text);
    }
  }

  lemma {:induction false} TrimStartKeepsNoDigit(s: string)
    requires forall i :: 0 <= i < |s| ==> !Decimal.IsDigit(s[i])
    ensures forall i :: 0 <= i < |TrimStart(s)| ==> !Decimal.IsDigit(TrimStart(s)[i])
  {
    if s != [] && IsSpace(s[0]) {
      assert forall i :: 0 <= i < |s[1..]| ==> s[1..][i] == s[i + 1];
      TrimStartKeepsNoDigit(s[1..]);
    }
  }

  lemma {:induction false} TrimEndKeepsNoDigit(s: string)
    requires forall i :: 0 <= i < |s| ==> !Decimal.IsDigit(s[i])
    ensures forall i :: 0 <= i < |TrimEnd(s)| ==> !Decimal.IsDigit(TrimEnd(s)[i])
  {
    if s != [] && IsSpace(s[|s| - 1]) {
      TrimEndKeepsNoDigit(s[..|s| - 1]);
    }
  }

  /** Text without a digit in it never parses, so it falls back to 10. */
  lemma {:induction false} StationsCountFallback(text: string)
    requires forall i :: 0 <= i < |text| ==> !Decimal.IsDigit(text[i])
    ensures StationsCount(text) == 10
  {
    TrimStartKeepsNoDigit(text);
    TrimEndKeepsNoDigit(TrimStart(text));
    var t := Strip(text);
    if |t| > 1 {
      assert !Decimal.IsDigit(t[1]);
    }
  }

  // ---------------------------------------------------------------------
  // The WAZ-zone filter of `process_contest_data`.

  /** `item.get('waz', "") == zone`: an item without `waz` never matches. */
  predicate InZone(item: Item, zone: int) {
    GetOr(item, "waz", Str("")) == Int(zone)
  }

  function InZoneOf(zone: int): Item -> bool {
    (item: Item) => InZone(item, zone)
  }

  /** The items `process_contest_data` hands to the registry, in feed
      order, when no update raises. */
  function ZoneItems(data: seq<Item>, zone: int): (r: seq<Item>)
    ensures forall j :: 0 <= j < |r| ==> Get(r[j], "waz") == Some(Int(zone))
  {
    Filter(data, InZoneOf(zone))
  }

  lemma ZoneItemsPrefix(data: seq<Item>, i: nat, zone: int)
    requires i <= |data|
    ensures ZoneItems(data[..i], zone) <= ZoneItems(data, zone)
  {
    FilterPrefix(data, i, InZoneOf(zone));
  }

  lemma ZoneItemsStep(data: seq<Item>, i: nat, zone: int)
    requires i < |data|
    ensures ZoneItems(data[..i + 1], zone) ==
      ZoneItems(data[..i], zone) + if InZone(data[i], zone) then [data[i]] else []
  {
    assert data[..i + 1][..i] == data[..i];
  }

  /** An item in zone after a stretch of items out of zone is the first
      item `process_contest_data` forwards. */
  lemma ZoneItemsFirst(data: seq<Item>, i: nat, zone: int)
    requires i < |data| && ZoneItems(data[..i], zone) == [] && InZone(data[i], zone)
    ensures ZoneItems(data, zone) != [] && ZoneItems(data, zone)[0] == data[i]
  {
    ZoneItemsStep(data, i, zone);
    assert ZoneItems(data[..i + 1], zone) == [data[i]];
    ZoneItemsPrefix(data, i + 1, zone);
  }

  /** The `for item in data` loop of `process_contest_data` (main.py:291-296)
      up to the first item in zone: `i` is its index, or `|data|` when there
      is none. */
  method FirstInZone(data: seq<Item>, zone: int) returns (i: nat)
    ensures i <= |data|
    ensures i == |data| ==> ZoneItems(data, zone) == []
    ensures i < |data| ==> InZone(data[i], zone) && ZoneItems(data, zone)[0] == data[i]
  {
    i := 0;
    while i < |data|
      invariant 0 <= i <= |data|
      invariant ZoneItems(data[..i], zone) == []
    {
      if InZone(data[i], zone) {
        ZoneItemsFirst(data, i, zone);
        return;
      }
      ZoneItemsStep(data, i, zone);
      i := i + 1;
    }
    assert data[..i] == data;
  }

  /** The main window, without its widgets. */
  class Application {
    const zone: int
    var entryType: string
    var contestVar: string
    var stationsVar: string
    var statusVar: string
    var stations: LegacyRegistry.StationsList
    var contests: seq<Contest>
    var categories: seq<Category>
    var isMonitoring: bool

    ghost predicate Valid()
      reads this, stations
    {
      stations.Valid() && ValidateNumber(stationsVar)
    }

    /** `Application.__init__` (main.py:20-31), without the widgets and the
        event-loop thread. */
    constructor ()
      ensures Valid() && fresh(stations)
      ensures zone == 14 && entryType == "OVERALL" && contestVar == "" && stationsVar == "10"
      ensures statusVar == "Ready to start monitoring"
      ensures stations.stations == map[] && contests == [] && categories == [] && !isMonitoring
    {
      zone := 14;
      entryType := "OVERALL";
      contestVar := "";
      stationsVar := "10";
      statusVar := "Ready to start monitoring";
      stations := new LegacyRegistry.StationsList();
      contests := [];
      categories := [];
      isMonitoring := false;
    }

    /** The index of the contest whose label is `selected`. */
    static function ContestIndex(contests: seq<Contest>, selected: string): Option<nat> {
      FirstWhere(contests, c => ContestLabel(c) == selected)
    }

    /** The index of the category whose label is `selected`. */
    static function CategoryIndex(categories: seq<Category>, selected: string): Option<nat> {
      FirstWhere(categories, c => CategoryLabel(c) == selected)
    }

    /** `get_selected_contest_id` (main.py:128-131): the `testid` of the first
        contest labelled as the dropdown's selection, None when none is. */
    function GetSelectedContestId(): (r: Option<Value>)
      reads this
      ensures r.None? <==> forall j :: 0 <= j < |contests| ==> ContestLabel(contests[j]) != contestVar
      ensures r.Some? ==> exists i :: (
        0 <= i < |contests| && r.value == contests[i].testid && ContestLabel(contests[i]) == contestVar &&
        forall j :: 0 <= j < i ==> ContestLabel(contests[j]) != contestVar)
    {
      match ContestIndex(contests, contestVar)
      case Some(i) => Some(contests[i].testid)
      case None => None
    }

    /** `get_selected_category` (main.py:138-141). */
    function GetSelectedCategory(): (r: Option<Category>)
      reads this
      ensures r.None? <==> forall j :: 0 <= j < |categories| ==> CategoryLabel(categories[j]) != entryType
      ensures r.Some? ==> exists i :: (
        0 <= i < |categories| && r.value == categories[i] && CategoryLabel(categories[i]) == entryType &&
        forall j :: 0 <= j < i ==> CategoryLabel(categories[j]) != entryType)
    {
      match CategoryIndex(categories, entryType)
      case Some(i) => Some(categories[i])
      case None => None
    }

    /** `get_selected_category_id` (main.py:133-136). */
    function GetSelectedCategoryId(): (r: Option<Value>)
      reads this
      ensures r.None? <==> GetSelectedCategory().None?
      ensures r.Some? ==> r.value == GetSelectedCategory().value.catid
    {
      match GetSelectedCategory()
      case Some(c) => Some(c.catid)
      case None => None
    }

    /** A keystroke in the station-count entry: Tk applies the edit only
        when `validate_number` accepts the proposed text (main.py:71-73). */
    method EditStations(proposed: string) returns (accepted: bool)
      requires Valid()
      modifies this`stationsVar
      ensures Valid()
      ensures accepted <==> ValidateNumber(proposed)
      ensures stationsVar == if accepted then proposed else old(stationsVar)
    {
      accepted := ValidateNumber(proposed);
      if accepted {
        stationsVar := proposed;
      }
    }

    /** `on_contest_selected` (main.py:120-126): announce the contest picked
        in the dropdown and return the id whose categories get loaded. */
    method OnContestSelected() returns (load: Option<Value>)
      modifies this`statusVar
      ensures var i := ContestIndex(contests, contestVar);
        (i.None? ==> load.None? && statusVar == old(statusVar)) &&
        (i.Some? ==>
           load == Some(contests[i.value].testid) &&
           statusVar == "Selected: " + Show(contests[i.value].name) + " (ID: " + Show(contests[i.value].testid) + ")")
    {
      var i := ContestIndex(contests, contestVar);
      load := None;
      if i.Some? {
        var contest := contests[i.value];
        statusVar := "Selected: " + Show(contest.name) + " (ID: " + Show(contest.testid) + ")";
        load := Some(contest.testid);
      }
    }

    /** `start_monitoring` (main.py:156-174). `launched` is the
        `monitor_contest(contest_id, stations_count)` task it schedules. */
    method StartMonitoring() returns (launched: Option<(Value, int)>)
      requires Valid()
      modifies this`isMonitoring, this`statusVar
      ensures Valid()
      ensures var id := old(GetSelectedContestId());
        if id.None? || !Truthy(id.value) then
          launched.None? && isMonitoring == old(isMonitoring) &&
          statusVar == "Error: Please select a contest first"
        else
          isMonitoring && statusVar == "Monitoring contest " + Show(id.value) + "..." &&
          launched == Some((id.value, StationsCount(stationsVar)))
    {
      var contestId := GetSelectedContestId();
      if contestId.None? || !Truthy(contestId.value) {
        statusVar := "Error: Please select a contest first";
        return None;
      }
      var stationsCount := StationsCount(stationsVar);
      isMonitoring := true;
      statusVar := "Monitoring contest " + Show(contestId.value) + "...";
      launched := Some((contestId.value, stationsCount));
    }

    /** `stop_monitoring` (main.py:176-184), without the task cancellation. */
    method StopMonitoring()
      modifies this`isMonitoring, this`statusVar
      ensures !isMonitoring && statusVar == "Monitoring stopped"
    {
      isMonitoring := false;
      statusVar := "Monitoring stopped";
    }

    /** `toggle_monitoring` (main.py:150-154). */
    method ToggleMonitoring() returns (launched: Option<(Value, int)>)
      requires Valid()
      modifies this`isMonitoring, this`statusVar
      ensures Valid()
      ensures old(isMonitoring) ==> !isMonitoring && launched.None? && statusVar == "Monitoring stopped"
      ensures !old(isMonitoring) ==> var id := old(GetSelectedContestId());
        if id.None? || !Truthy(id.value) then
          launched.None? && !isMonitoring && statusVar == "Error: Please select a contest first"
        else
          isMonitoring && statusVar == "Monitoring contest " + Show(id.value) + "..." &&
          launched == Some((id.value, StationsCount(stationsVar)))
    {
      if !isMonitoring {
        launched := StartMonitoring();
      } else {
        StopMonitoring();
        launched := None;
      }
    }

    /** The list-building part of `load_contests` (main.py:205-227) given the
        fetched `data`; `load` is the contest whose categories get loaded
        next. An empty list changes nothing. */
    method LoadContests(data: seq<Item>) returns (load: Option<Value>)
      modifies this`contests, this`contestVar
      ensures data == [] ==> contests == old(contests) && contestVar == old(contestVar) && load.None?
      ensures data != [] ==> contests == ContestsFrom(data)
      ensures data != [] && contests != [] ==>
        contestVar == ContestLabel(contests[0]) && load == Some(contests[0].testid)
      ensures data != [] && contests == [] ==> contestVar == old(contestVar) && load.None?
    {
      load := None;
      if data != [] {
        contests := ContestsFrom(data);
        if contests != [] {
          contestVar := ContestLabel(contests[0]);
          load := Some(contests[0].testid);
        }
      }
    }

    /** The list-building part of `load_categories` (main.py:234-259). */
    method LoadCategories(data: seq<Item>)
      modifies this`categories, this`entryType
      ensures data == [] ==> categories == old(categories) && entryType == old(entryType)
      ensures data != [] ==> categories == CategoriesFrom(data)
      ensures data != [] && categories != [] ==> entryType == CategoryLabel(categories[0])
      ensures data != [] && categories == [] ==> entryType == old(entryType)
    {
      if data != [] {
        categories := CategoriesFrom(data);
        if categories != [] {
          entryType := CategoryLabel(categories[0]);
        }
      }
    }

    /** `process_contest_data` (main.py:287-300). With no selected category
        the debug line raises before the loop. Otherwise the items in zone
        go to the registry in feed order until an update raises, which ends
        the call; `forwarded` is what reached the registry. The registry's
        stub Station raises on every update, so the first item in zone is the
        only one forwarded. */
    method ProcessContestData(data: seq<Item>, stationsCount: int) returns (ok: bool, ghost forwarded: seq<Item>)
      requires Valid()
      modifies stations
      ensures Valid()
      ensures GetSelectedCategory().None? ==> !ok && forwarded == []
      ensures var zs := ZoneItems(data, zone);
        GetSelectedCategory().Some? ==> (ok <==> zs == []) && forwarded == (if zs == [] then [] else [zs[0]])
      ensures forwarded == [] ==> stations.stations == old(stations.stations)
      ensures forwarded != [] ==> var c := CallsignOf(forwarded[0]);
        stations.stations.Keys == old(stations.stations.Keys) + {c} &&
        stations.order == (if c in old(stations.stations) then old(stations.order) else old(stations.order) + [c]) &&
        (c !in old(stations.stations) ==> stations.stations[c].latest == LegacyStationData.LegacyRecord(map[]))
      ensures forall k :: k in old(stations.stations) ==> stations.stations[k] == old(stations.stations[k])
      ensures forwarded == [] ==> stations.order == old(stations.order)
    {
      forwarded := [];
      var category := GetSelectedCategory();
      if category.None? {
        return false, forwarded;
      }
      var i := FirstInZone(data, zone);
      ghost var zs := ZoneItems(data, zone);
      if i == |data| {
        assert zs == [];
        return true, forwarded;
      }
      assert zs != [] && zs[0] == data[i];
      // The stub's update raises every time; the exception leaves the loop.
      var _ := stations.Update(data[i]);
      assert GetSelectedCategory() == category;
      forwarded := [data[i]];
      ok := false;
    }
  }
}
