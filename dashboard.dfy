/** The administrator dashboard (src/assets/scripts/dashboard.js): its
    machine list, the search of the machines table, the upcoming and
    scheduled maintenance lists, the grid of open maintenance, the status
    chart's counts, and the parsing of history timestamps. */
module Dashboard {
  import opened Text
  import opened Sorting
  import opened Stamps
  import opened Client

  // ---------------------------------------------------------------------
  // getStatusClass
  // ---------------------------------------------------------------------

  /** The badge class of a status; the three statuses that hold a machine
      back share the maintenance colour, and an unknown status shows as
      'status-ok'. */
  function StatusClass(status: Js): (c: string)
    ensures c in {"status-ok", "status-operation", "status-maintenance", "status-inoperative"}
    ensures c == "status-maintenance" <==>
      status in {Str("EM MANUTENÇÃO"), Str("ESPERANDO PEÇAS"), Str("HORAS EXCEDENTES")}
    ensures c == "status-operation" <==> status == Str("EM OPERAÇÃO")
    ensures c == "status-inoperative" <==> status == Str("INOPERANTE")
  {
    if status == Str("OK") then "status-ok"
    else if status == Str("EM OPERAÇÃO") then "status-operation"
    else if status == Str("EM MANUTENÇÃO") then "status-maintenance"
    else if status == Str("INOPERANTE") then "status-inoperative"
    else if status == Str("ESPERANDO PEÇAS") then "status-maintenance"
    else if status == Str("HORAS EXCEDENTES") then "status-maintenance"
    else "status-ok"
  }

  // ---------------------------------------------------------------------
  // filterMachines
  // ---------------------------------------------------------------------

  /** `m.name.toLowerCase().includes(term) || m.id.toLowerCase()... ||
      (m.capacity && m.capacity.toLowerCase()...)`, evaluated left to
      right; `None` is the TypeError a non-string name, id or truthy
      capacity raises when its operand is reached. */
  function MatchesSearch(m: Machine, term: string): (r: Option<bool>)
    ensures r == Some(true) ==>
      (m.name.Str? && Contains(Lower(m.name.s), term))
      || (m.id.Str? && Contains(Lower(m.id.s), term))
      || (m.capacity.Str? && Truthy(m.capacity) && Contains(Lower(m.capacity.s), term))
    ensures m.name.Str? && m.id.Str? && (!Truthy(m.capacity) || m.capacity.Str?) ==> r.Some?
    ensures !m.name.Str? ==> r.None?
    ensures m.name.Str? && !Contains(Lower(m.name.s), term) && !m.id.Str? ==> r.None?
    ensures (m.name.Str? && !Contains(Lower(m.name.s), term) && m.id.Str? && !Contains(Lower(m.id.s), term)
             && Truthy(m.capacity) && !m.capacity.Str?) ==> r.None?
    ensures m.name.Str? && Contains(Lower(m.name.s), term) ==> r == Some(true)
    ensures m.name.Str? && m.id.Str? && Contains(Lower(m.id.s), term) ==> r == Some(true)
    ensures m.name.Str? && m.id.Str? && m.capacity.Str? && Truthy(m.capacity) && Contains(Lower(m.capacity.s), term) ==>
      r == Some(true)
  {
    if !m.name.Str? then None
    else if Contains(Lower(m.name.s), term) then Some(true)
    else if !m.id.Str? then None
    else if Contains(Lower(m.id.s), term) then Some(true)
    else if !Truthy(m.capacity) then Some(false)
    else if !m.capacity.Str? then None
    else Some(Contains(Lower(m.capacity.s), term))
  }

  /** The status select: '' keeps every status. */
  predicate MatchesStatus(m: Machine, statusFilter: string) {
    statusFilter == "" || m.status == Str(statusFilter)
  }

  predicate Kept(m: Machine, term: string, statusFilter: string)
    requires MatchesSearch(m, term).Some?
  {
    MatchesSearch(m, term).value && MatchesStatus(m, statusFilter)
  }

  /** `machines.filter(...)`: the machines kept, in order, or `None` when the
      test throws on some machine. */
  function FilterBy(ms: seq<Machine>, term: string, statusFilter: string): (r: Option<seq<Machine>>)
    ensures r.None? <==> exists i :: 0 <= i < |ms| && MatchesSearch(ms[i], term).None?
    ensures r.Some? ==> |r.value| <= |ms|
    ensures r.Some? ==> forall i :: 0 <= i < |r.value| ==> r.value[i] in ms && Kept(r.value[i], term, statusFilter)
    ensures r.Some? ==> forall i :: 0 <= i < |ms| && Kept(ms[i], term, statusFilter) ==> ms[i] in r.value
  {
    if |ms| == 0 then Some([])
    else
      var last := ms[|ms| - 1];
      var init := FilterBy(ms[..|ms| - 1], term, statusFilter);
      if init.None? then
        var i :| 0 <= i < |ms| - 1 && MatchesSearch(ms[..|ms| - 1][i], term).None?;
        assert ms[i] == ms[..|ms| - 1][i];
        None
      else if MatchesSearch(last, term).None? then None
      else
        assert forall i :: 0 <= i < |ms| - 1 ==> ms[..|ms| - 1][i] == ms[i];
        assert forall x :: x in init.value ==> x in ms;
        Some(init.value + if Kept(last, term, statusFilter) then [last] else [])
  }

  /** The search and status test as one total predicate. */
  function KeptTest(term: string, statusFilter: string): Machine -> bool {
    (m: Machine) => MatchesSearch(m, term) == Some(true) && MatchesStatus(m, statusFilter)
  }

  /** When no machine throws, the list drawn is exactly the machines that
      match the search and the status, in list order. */
  lemma {:induction false} FilterByIsFilter(ms: seq<Machine>, term: string, statusFilter: string)
    ensures FilterBy(ms, term, statusFilter).Some? ==>
      FilterBy(ms, term, statusFilter).value == Filter(ms, KeptTest(term, statusFilter))
  {
    if |ms| > 0 {
      FilterByIsFilter(ms[..|ms| - 1], term, statusFilter);
    }
  }

  /** An empty search and no status selected keep every machine whose name
      and id are strings. */
  lemma {:induction false} EmptySearchKeepsAll(ms: seq<Machine>)
    requires forall i :: 0 <= i < |ms| ==> ms[i].name.Str? && ms[i].id.Str?
    ensures FilterBy(ms, "", "") == Some(ms)
  {
    if |ms| > 0 {
      EmptySearchKeepsAll(ms[..|ms| - 1]);
      assert Contains(Lower(ms[|ms| - 1].name.s), "");
      assert ms == ms[..|ms| - 1] + [ms[|ms| - 1]];
    }
  }

  // ---------------------------------------------------------------------
  // Schedules
  // ---------------------------------------------------------------------

  /** The scheduled date as the text compared; ISO dates order as text the
      way they order as dates. */
  function DueText(m: Machine): string {
    if m.nextMaint.Some? then AsString(m.nextMaint.value.date) else ""
  }

  predicate DueNoLater(a: Machine, b: Machine) { LexLessEq(DueText(a), DueText(b)) }

  function HasDateTest(): Machine -> bool { (m: Machine) => HasScheduledDate(m) }

  lemma DueNoLaterTotal()
    ensures Total(DueNoLater)
  {
    forall a: Machine, b: Machine ensures DueNoLater(a, b) || DueNoLater(b, a) {
      LexLessAsymmetric(DueText(a), DueText(b));
    }
  }

  /** `renderScheduleList`'s list: the machines with a scheduled date,
      soonest first. */
  function ScheduleList(ms: seq<Machine>): (r: seq<Machine>)
    ensures multiset(r) == multiset(Filter(ms, HasDateTest()))
    ensures forall i :: 0 <= i < |r| ==> HasScheduledDate(r[i])
    ensures forall i :: 0 < i < |r| ==> LexLessEq(DueText(r[i - 1]), DueText(r[i]))
  {
    var own := Filter(ms, HasDateTest());
    DueNoLaterTotal();
    SortKeeps(own, DueNoLater, HasDateTest());
    Sort(own, DueNoLater)
  }

  /** A list sorted by due date has every earlier entry due no later than
      every later one. */
  lemma {:induction false} SortedByDueIsOrdered(s: seq<Machine>, i: nat, j: nat)
    requires forall k :: 0 < k < |s| ==> LexLessEq(DueText(s[k - 1]), DueText(s[k]))
    requires i <= j < |s|
    ensures LexLessEq(DueText(s[i]), DueText(s[j]))
    decreases j - i
  {
    if i == j {
      LexLessAsymmetric(DueText(s[i]), DueText(s[i]));
    } else {
      SortedByDueIsOrdered(s, i, j - 1);
      LexLessEqTransitive(DueText(s[i]), DueText(s[j - 1]), DueText(s[j]));
    }
  }

  /** `renderUpcomingMaintenance`'s list: the first five of the schedule
      list. */
  function Upcoming(ms: seq<Machine>): (r: seq<Machine>)
    ensures |r| <= 5 && |r| == if |ScheduleList(ms)| < 5 then |ScheduleList(ms)| else 5
    ensures forall i :: 0 <= i < |r| ==> HasScheduledDate(r[i])
    ensures r == ScheduleList(ms)[..|r|]
  {
    var all := ScheduleList(ms);
    all[..if |all| < 5 then |all| else 5]
  }

  /** The upcoming list holds the soonest dates: none of the scheduled
      machines it leaves out is due before any it shows. */
  lemma UpcomingAreSoonest(ms: seq<Machine>, i: nat, j: nat)
    requires i < |Upcoming(ms)| <= j < |ScheduleList(ms)|
    ensures LexLessEq(DueText(Upcoming(ms)[i]), DueText(ScheduleList(ms)[j]))
  {
    SortedByDueIsOrdered(ScheduleList(ms), i, j);
  }

  // ---------------------------------------------------------------------
  // renderMaintenanceGrid
  // ---------------------------------------------------------------------

  /** `m.maintenance && m.maintenance.some(maint => !maint.end_date)`. */
  predicate HasOpenEvent(m: Machine) {
    m.maintenance.Some? && exists k :: 0 <= k < |m.maintenance.value| && IsOpen(m.maintenance.value[k])
  }

  /** `m.maintenance.find(maint => !maint.end_date)`: the first open event. */
  function FirstOpen(xs: seq<Maint>): (r: Option<nat>)
    ensures r.None? <==> forall k :: 0 <= k < |xs| ==> !IsOpen(xs[k])
    ensures r.Some? ==> r.value < |xs| && IsOpen(xs[r.value]) && forall k :: 0 <= k < r.value ==> !IsOpen(xs[k])
  {
    if |xs| == 0 then None
    else if IsOpen(xs[0]) then Some(0)
    else
      match FirstOpen(xs[1..])
      case None => None
      case Some(k) => Some(k + 1)
  }

  /** The cards of the grid: each machine with an open event, in list
      order, with its first open event. */
  function HasOpenTest(): Machine -> bool { (m: Machine) => HasOpenEvent(m) }

  function MaintenanceGrid(ms: seq<Machine>): (r: seq<(Machine, Maint)>)
    ensures |r| == Count(ms, HasOpenTest())
    ensures forall i :: 0 <= i < |r| ==> r[i].0 in ms && HasOpenEvent(r[i].0)
    ensures |r| == |Filter(ms, HasOpenTest())| && forall i :: 0 <= i < |r| ==> r[i].0 == Filter(ms, HasOpenTest())[i]
    ensures forall i :: 0 <= i < |r| ==>
      FirstOpen(Maints(r[i].0)).Some? && r[i].1 == Maints(r[i].0)[FirstOpen(Maints(r[i].0)).value]
  {
    var active := Filter(ms, HasOpenTest());
    CountIsFilterLength(ms, HasOpenTest());
    seq(|active|, i requires 0 <= i < |active| =>
      var xs := Maints(active[i]);
      assert HasOpenEvent(active[i]);
      (active[i], xs[FirstOpen(xs).value]))
  }

  // ---------------------------------------------------------------------
  // initStatusChart
  // ---------------------------------------------------------------------

  function StatusCountsSum(counts: seq<nat>): nat {
    if |counts| == 0 then 0 else StatusCountsSum(counts[..|counts| - 1]) + counts[|counts| - 1]
  }

  lemma {:induction false} StatusCountsSumBump(counts: seq<nat>, k: nat)
    requires k < |counts|
    ensures StatusCountsSum(counts[k := counts[k] + 1]) == StatusCountsSum(counts) + 1
  {
    var bumped := counts[k := counts[k] + 1];
    if k < |counts| - 1 {
      StatusCountsSumBump(counts[..|counts| - 1], k);
      assert bumped[..|counts| - 1] == counts[..|counts| - 1][k := counts[k] + 1];
    } else {
      assert bumped[..|counts| - 1] == counts[..|counts| - 1];
    }
  }

  lemma {:induction false} StatusCountsSumZero(counts: seq<nat>)
    requires forall k :: 0 <= k < |counts| ==> counts[k] == 0
    ensures StatusCountsSum(counts) == 0
  {
    if |counts| > 0 {
      StatusCountsSumZero(counts[..|counts| - 1]);
    }
  }

  /** `statusCounts.hasOwnProperty(m.status)`: one of the six statuses. */
  predicate KnownStatus(m: Machine) {
    m.status.Str? && m.status.s in Statuses
  }

  function KnownTest(): Machine -> bool { (m: Machine) => KnownStatus(m) }

  /** The counts behind the status chart: one per status, in the order of
      the six statuses, each counting the machines with exactly that
      status; a machine with any other status is not counted, so the counts
      add up to the number of machines with a known status. */
  method StatusChartCounts(ms: seq<Machine>) returns (counts: seq<nat>)
    ensures |counts| == |Statuses|
    ensures forall k :: 0 <= k < |Statuses| ==> counts[k] == Count(ms, StatusIs(Statuses[k]))
    ensures StatusCountsSum(counts) == Count(ms, KnownTest()) <= |ms|
  {
    counts := [0, 0, 0, 0, 0, 0];
    StatusCountsSumZero(counts);
    var i := 0;
    while i < |ms|
      invariant 0 <= i <= |ms|
      invariant ChartCountsOf(counts, ms[..i])
    {
      var k := 0;
      while k < |Statuses| && ms[i].status != Str(Statuses[k])
        invariant 0 <= k <= |Statuses|
        invariant forall k' :: 0 <= k' < k ==> ms[i].status != Str(Statuses[k'])
      {
        k := k + 1;
      }
      ChartStep(ms, i, counts, k);
      if k < |Statuses| {
        counts := counts[k := counts[k] + 1];
      }
      i := i + 1;
    }
    assert ms[..i] == ms;
    CountIsFilterLength(ms, KnownTest());
  }

  /** When every status is one of the six, the chart counts every
      machine. */
  lemma ChartCountsAllWhenAllKnown(ms: seq<Machine>)
    requires forall i :: 0 <= i < |ms| ==> KnownStatus(ms[i])
    ensures Count(ms, KnownTest()) == |ms|
  {
    FilterAll(ms, KnownTest());
    CountIsFilterLength(ms, KnownTest());
  }

  /** The chart counts are those of the machines `s`. */
  predicate ChartCountsOf(counts: seq<nat>, s: seq<Machine>) {
    && |counts| == |Statuses|
    && (forall k :: 0 <= k < |Statuses| ==> counts[k] == Count(s, StatusIs(Statuses[k])))
    && StatusCountsSum(counts) == Count(s, KnownTest())
  }

  /** One machine more: its status found at `k` is bumped, or nothing when
      the search ran off the end. */
  lemma ChartStep(ms: seq<Machine>, i: nat, counts: seq<nat>, k: nat)
    requires i < |ms| && ChartCountsOf(counts, ms[..i]) && k <= |Statuses|
    requires forall k' :: 0 <= k' < k ==> ms[i].status != Str(Statuses[k'])
    requires k < |Statuses| ==> ms[i].status == Str(Statuses[k])
    ensures ChartCountsOf(if k < |Statuses| then counts[k := counts[k] + 1] else counts, ms[..i + 1])
  {
    StatusesDistinct();
    forall k' | 0 <= k' < |Statuses| {
      CountPrefix(ms, i, StatusIs(Statuses[k']));
    }
    CountPrefix(ms, i, KnownTest());
    if k < |Statuses| {
      assert KnownStatus(ms[i]);
      StatusCountsSumBump(counts, k);
    } else {
      assert !KnownStatus(ms[i]);
    }
  }

  // ---------------------------------------------------------------------
  // parseHistoryDate
  // ---------------------------------------------------------------------

  /** The six arguments handed to `new Date(...)`; `None` is NaN. */
  datatype DateArgs = DateArgs(year: Option<int>, monthIndex: Option<int>, day: Option<int>,
                               hour: Option<int>, minute: Option<int>, second: Option<int>)

  /** `parseInt(parts[i])`: NaN for a missing part. */
  function IntAt(parts: seq<string>, i: nat): Option<int> {
    if i < |parts| then ParseLeadingInt(parts[i]) else None
  }

  /** Reads "DD/MM/YYYY HH:MM:SS": the date before the first space, split
      on '/', the time after it split on ':', or midnight when there is no
      time; the month is made 0-based. */
  function ParseHistoryDate(s: string): DateArgs {
    var parts := Split(s, ' ');
    var hasTime := |parts| > 1 && parts[1] != "";
    DateArgsOf(Split(parts[0], '/'), if hasTime then Some(Split(parts[1], ':')) else None)
  }

  /** The arguments from the date fields and the time fields, if any. */
  function DateArgsOf(dateParts: seq<string>, timeParts: Option<seq<string>>): DateArgs {
    DateArgs(IntAt(dateParts, 2),
             match IntAt(dateParts, 1) case Some(m) => Some(m - 1) case None => None,
             IntAt(dateParts, 0),
             if timeParts.Some? then IntAt(timeParts.value, 0) else Some(0),
             if timeParts.Some? then IntAt(timeParts.value, 1) else Some(0),
             if timeParts.Some? then IntAt(timeParts.value, 2) else Some(0))
  }

  /** A date without a time is read as midnight. */
  lemma DateOnlyIsMidnight(s: string)
    requires ' ' !in s
    ensures var r := ParseHistoryDate(s); r.hour == r.minute == r.second == Some(0)
  {
    SplitNoSeparator(s, ' ');
  }

  /** "a<sep>b<sep>c" splits into its three digit runs. */
  lemma SplitThree(a: string, b: string, c: string, sep: char)
    requires IsAllDigits(a) && IsAllDigits(b) && IsAllDigits(c) && !IsDigit(sep)
    ensures Split(a + [sep] + b + [sep] + c, sep) == [a, b, c]
  {
    DigitsHaveNo(a, sep); DigitsHaveNo(b, sep); DigitsHaveNo(c, sep);
    assert a + [sep] + b + [sep] + c == a + [sep] + (b + [sep] + c);
    SplitAtFirst(a, sep, b + [sep] + c);
    SplitAtFirst(b, sep, c);
    SplitNoSeparator(c, sep);
  }

  /** Any "D/M/Y H:M:S" made of digit runs is read field by field. */
  lemma ParseOfDigitFields(d: string, mo: string, y: string, h: string, mi: string, se: string)
    requires IsAllDigits(d) && IsAllDigits(mo) && IsAllDigits(y) && IsAllDigits(h) && IsAllDigits(mi) && IsAllDigits(se)
    requires |h| > 0
    ensures ParseHistoryDate(DateTimeText(d, mo, y, h, mi, se)) == DateArgsOf([d, mo, y], Some([h, mi, se]))
  {
    var date := d + "/" + mo + "/" + y;
    var time := h + ":" + mi + ":" + se;
    var text := DateTimeText(d, mo, y, h, mi, se);
    assert Split(text, ' ') == [date, time] by {
      assert ' ' !in date && ' ' !in time by {
        DigitsHaveNo(d, ' '); DigitsHaveNo(mo, ' '); DigitsHaveNo(y, ' ');
        DigitsHaveNo(h, ' '); DigitsHaveNo(mi, ' '); DigitsHaveNo(se, ' ');
      }
      assert text == date + [' '] + time;
      SplitAtFirst(date, ' ', time);
      SplitNoSeparator(time, ' ');
    }
    assert Split(date, '/') == [d, mo, y] by {
      SplitThree(d, mo, y, '/');
    }
    assert Split(time, ':') == [h, mi, se] by {
      SplitThree(h, mi, se, ':');
    }
    assert time != "";
  }

  /** The arguments from three date and three time fields. */
  lemma DateArgsOfFields(d: string, mo: string, y: string, h: string, mi: string, se: string,
                         year: int, month: int, day: int, hour: int, minute: int, second: int)
    requires ParseLeadingInt(d) == Some(day) && ParseLeadingInt(mo) == Some(month) && ParseLeadingInt(y) == Some(year)
    requires ParseLeadingInt(h) == Some(hour) && ParseLeadingInt(mi) == Some(minute) && ParseLeadingInt(se) == Some(second)
    ensures DateArgsOf([d, mo, y], Some([h, mi, se]))
      == DateArgs(Some(year), Some(month - 1), Some(day), Some(hour), Some(minute), Some(second))
  {
    IntAtThree(d, mo, y);
    IntAtThree(h, mi, se);
  }

  lemma IntAtThree(a: string, b: string, c: string)
    ensures IntAt([a, b, c], 0) == ParseLeadingInt(a)
    ensures IntAt([a, b, c], 1) == ParseLeadingInt(b)
    ensures IntAt([a, b, c], 2) == ParseLeadingInt(c)
  {
  }

  /** A field of digits that `parseInt` reads as `v`. */
  predicate FieldReads(s: string, v: int) {
    IsAllDigits(s) && ParseLeadingInt(s) == Some(v)
  }

  lemma PaddedReads(n: nat, w: nat)
    requires 1 <= w && n < Pow10(w)
    ensures FieldReads(Padded(n, w), n)
  {
    ParsePadded(n, w);
  }

  /** Any "D/M/Y H:M:S" whose fields are digits is read field by field,
      with the month made 0-based. */
  lemma ParseHistoryDateReadsFields(d: string, mo: string, y: string, h: string, mi: string, se: string,
                                    day: int, month: int, year: int, hour: int, minute: int, second: int)
    requires FieldReads(d, day) && FieldReads(mo, month) && FieldReads(y, year)
    requires FieldReads(h, hour) && FieldReads(mi, minute) && FieldReads(se, second)
    ensures ParseHistoryDate(DateTimeText(d, mo, y, h, mi, se))
      == DateArgs(Some(year), Some(month - 1), Some(day), Some(hour), Some(minute), Some(second))
  {
    assert |h| > 0;
    ParseOfDigitFields(d, mo, y, h, mi, se);
    DateArgsOfFields(d, mo, y, h, mi, se, year, month, day, hour, minute, second);
  }

  /** The backend's "d/m/Y H:i:s" text of a valid moment is such a text,
      its fields reading back as the moment's; with the lemma above,
      `parseHistoryDate` gets back the moment the backend formatted. */
  lemma FormatFieldsRead(t: Stamp) returns (d: string, mo: string, y: string, h: string, mi: string, se: string)
    requires ValidStamp(t)
    ensures FormatDmyHis(t) == DateTimeText(d, mo, y, h, mi, se)
    ensures FieldReads(d, t.day) && FieldReads(mo, t.month) && FieldReads(y, t.year)
    ensures FieldReads(h, t.hour) && FieldReads(mi, t.minute) && FieldReads(se, t.second)
  {
    d, mo, y := Padded(t.day, 2), Padded(t.month, 2), Padded(t.year, 4);
    h, mi, se := Padded(t.hour, 2), Padded(t.minute, 2), Padded(t.second, 2);
    assert Pow10(2) == 100 && Pow10(4) == 10000;
    PaddedReads(t.day, 2); PaddedReads(t.month, 2); PaddedReads(t.year, 4);
    PaddedReads(t.hour, 2); PaddedReads(t.minute, 2); PaddedReads(t.second, 2);
  }

  // ---------------------------------------------------------------------
  // The page's state
  // ---------------------------------------------------------------------

  /** The script's global `machines`. */
  class DashboardState {
    var machines: seq<Machine>

    constructor ()
      ensures machines == []
    {
      machines := [];
    }

    /** `loadMachines`: a successful response replaces the list (`None`
        inside when it carries no list) and returns it; a failed request
        keeps the list and returns an empty one. */
    method LoadMachines(response: Option<Option<seq<Machine>>>) returns (r: seq<Machine>)
      modifies this
      ensures response.Some? ==> machines == response.value.GetOr([]) && r == machines
      ensures response.None? ==> machines == old(machines) && r == []
    {
      if response.Some? {
        machines := response.value.GetOr([]);
        return machines;
      }
      return [];
    }

    /** `filterMachines`: the table is drawn from the filtered list, then
        the full list is put back. `None` is the TypeError thrown before the
        list is touched. */
    method FilterMachines(term: string, statusFilter: string) returns (rendered: Option<seq<Machine>>)
      modifies this
      ensures machines == old(machines)
      ensures rendered == FilterBy(old(machines), term, statusFilter)
    {
      var filtered := FilterBy(machines, term, statusFilter);
      if filtered.None? {
        return None;
      }
      var original := machines;
      machines := filtered.value;
      rendered := Some(machines);
      machines := original;
    }
  }
}
