/** The machine list page (src/assets/scripts/script.js): its view state,
    the filter/search/sort pipeline behind the table, pagination, the
    maintenance alert, date display, the HTML escaping of user text, the
    normalisation of loaded data, and the counters of the metric cards and
    the status table. */
module ListPage {
  import opened Text
  import opened Sorting
  import opened Client

  // ---------------------------------------------------------------------
  // escapeHtml
  // ---------------------------------------------------------------------

  /** The entity each of & < > " ' is written as; other characters stay. */
  function EscapeChar(c: char): (r: string)
    ensures |r| >= 1
    ensures c !in "&<>\"'" ==> r == [c]
    ensures forall i :: 0 <= i < |r| ==> r[i] !in "<>\"'"
  {
    if c == '&' then "&amp;"
    else if c == '<' then "&lt;"
    else if c == '>' then "&gt;"
    else if c == '"' then "&quot;"
    else if c == '\'' then "&#39;"
    else [c]
  }

  /** Every character replaced by its escape: the result holds none of
      < > " ', and text without the five special characters is unchanged. */
  function EscapeText(s: string): (r: string)
    ensures forall i :: 0 <= i < |r| ==> r[i] !in "<>\"'"
    ensures (forall i :: 0 <= i < |s| ==> s[i] !in "&<>\"'") ==> r == s
    ensures |r| >= |s|
    decreases |s|
  {
    if |s| == 0 then ""
    else
      var head := EscapeChar(s[0]);
      var tail := EscapeText(s[1..]);
      assert forall i :: |head| <= i < |head + tail| ==> (head + tail)[i] == tail[i - |head|];
      assert s == [s[0]] + s[1..];
      head + tail
  }

  /** `escapeHtml(v)`: empty for null and undefined, else `String(v)`
      escaped. */
  function EscapeHtml(v: Js): (r: string)
    ensures v == Undef || v == Nil ==> r == ""
    ensures v.Str? ==> r == EscapeText(v.s)
    ensures forall i :: 0 <= i < |r| ==> r[i] !in "<>\"'"
  {
    if v == Undef || v == Nil then "" else EscapeText(AsString(v))
  }

  /** What a browser shows for escaped text: each of the five entities read
      back as its character. */
  function Unescape(s: string): string
    decreases |s|
  {
    if |s| == 0 then ""
    else if StartsWith(s, "&amp;") then "&" + Unescape(s[5..])
    else if StartsWith(s, "&lt;") then "<" + Unescape(s[4..])
    else if StartsWith(s, "&gt;") then ">" + Unescape(s[4..])
    else if StartsWith(s, "&quot;") then "\"" + Unescape(s[6..])
    else if StartsWith(s, "&#39;") then "'" + Unescape(s[5..])
    else [s[0]] + Unescape(s[1..])
  }

  lemma UnescapeHead(c: char, rest: string)
    ensures Unescape(EscapeChar(c) + rest) == [c] + Unescape(rest)
  {
    if c !in "&<>\"'" {
      UnescapePlain(c, rest);
    } else {
      UnescapeEntity(c, rest);
    }
  }

  /** A character with no entity is read back as itself. */
  lemma UnescapePlain(c: char, rest: string)
    requires c !in "&<>\"'"
    ensures Unescape([c] + rest) == [c] + Unescape(rest)
  {
    var t := [c] + rest;
    assert t[0] == c && t[1..] == rest;
    assert !StartsWith(t, "&amp;") && !StartsWith(t, "&lt;") && !StartsWith(t, "&gt;")
      && !StartsWith(t, "&quot;") && !StartsWith(t, "&#39;") by {
      assert forall p: string :: |p| > 0 && StartsWith(t, p) ==> t[0] == p[0];
    }
  }

  /** An entity is read back as the character it stands for: the entities
      before it in the scan differ from it in their second character. */
  lemma UnescapeEntity(c: char, rest: string)
    requires c in "&<>\"'"
    ensures Unescape(EscapeChar(c) + rest) == [c] + Unescape(rest)
  {
    var e := EscapeChar(c);
    var t := e + rest;
    assert t[..|e|] == e && t[|e|..] == rest;
    assert t[1] == e[1];
    if c != '&' {
      SecondCharDiffers(t, "&amp;");
    }
    if c != '&' && c != '<' {
      SecondCharDiffers(t, "&lt;");
    }
    if c == '"' || c == '\'' {
      SecondCharDiffers(t, "&gt;");
    }
    if c == '\'' {
      SecondCharDiffers(t, "&quot;");
    }
  }

  lemma SecondCharDiffers(t: string, p: string)
    requires |p| > 1 && |t| > 1 && t[1] != p[1]
    ensures !StartsWith(t, p)
  {
    if |p| <= |t| {
      assert t[..|p|][1] == t[1];
    }
  }

  /** Escaping loses nothing: reading the escaped text back gives the
      original. */
  lemma {:induction false} UnescapeEscape(s: string)
    ensures Unescape(EscapeText(s)) == s
    decreases |s|
  {
    if |s| > 0 {
      UnescapeEscape(s[1..]);
      UnescapeHead(s[0], EscapeText(s[1..]));
      assert s == [s[0]] + s[1..];
    }
  }

  // ---------------------------------------------------------------------
  // getProcessedItems
  // ---------------------------------------------------------------------

  /** The status filter: 'all', or exactly that status. */
  predicate StatusPasses(m: Machine, filter: string) {
    filter == "all" || m.status == Str(filter)
  }

  function StatusTest(filter: string): Machine -> bool {
    (m: Machine) => StatusPasses(m, filter)
  }

  /** The search box: a blank trimmed query keeps everything; otherwise the
      lower-cased query must occur in the lower-cased id, name or
      manufacturer. */
  predicate SearchPasses(m: Machine, search: string) {
    var q := Lower(Trim(search));
    q == ""
    || Contains(Lower(TextOrEmpty(m.id)), q)
    || Contains(Lower(TextOrEmpty(m.name)), q)
    || Contains(Lower(TextOrEmpty(m.manufacturer)), q)
  }

  function SearchTest(search: string): Machine -> bool {
    (m: Machine) => SearchPasses(m, search)
  }

  /** `a.quantity || 0` as a number. */
  function QuantityOf(m: Machine): int {
    if m.quantity.Num? then m.quantity.n else 0
  }

  /** The text a column sorts by: the property, or '', lower-cased. */
  function SortText(m: Machine, sortBy: string): string {
    Lower(TextOrEmpty(Prop(m, sortBy)))
  }

  /** `compare(a, b) <= 0` for the page's comparator: quantities compare as
      numbers, every other column as lower-cased text; 'asc' ascending and
      any other direction descending. */
  predicate Precedes(sortBy: string, sortDir: string, a: Machine, b: Machine) {
    if sortBy == "quantity" then
      if sortDir == "asc" then QuantityOf(a) <= QuantityOf(b) else QuantityOf(b) <= QuantityOf(a)
    else if sortDir == "asc" then LexLessEq(SortText(a, sortBy), SortText(b, sortBy))
    else LexLessEq(SortText(b, sortBy), SortText(a, sortBy))
  }

  function Comparator(sortBy: string, sortDir: string): (Machine, Machine) -> bool {
    (a, b) => Precedes(sortBy, sortDir, a, b)
  }

  /** The comparator is consistent: any two machines are ordered, and the
      order is transitive. */
  lemma ComparatorIsTotalOrder(sortBy: string, sortDir: string)
    ensures Total(Comparator(sortBy, sortDir))
    ensures forall a, b, c :: Precedes(sortBy, sortDir, a, b) && Precedes(sortBy, sortDir, b, c) ==> Precedes(sortBy, sortDir, a, c)
  {
    forall a, b ensures Precedes(sortBy, sortDir, a, b) || Precedes(sortBy, sortDir, b, a) {
      LexLessAsymmetric(SortText(a, sortBy), SortText(b, sortBy));
    }
    forall a, b, c | Precedes(sortBy, sortDir, a, b) && Precedes(sortBy, sortDir, b, c)
      ensures Precedes(sortBy, sortDir, a, c)
    {
      if sortBy != "quantity" {
        if sortDir == "asc" {
          LexLessEqTransitive(SortText(a, sortBy), SortText(b, sortBy), SortText(c, sortBy));
        } else {
          LexLessEqTransitive(SortText(c, sortBy), SortText(b, sortBy), SortText(a, sortBy));
        }
      }
    }
  }

  function PassesBoth(filter: string, search: string): Machine -> bool {
    (m: Machine) => StatusPasses(m, filter) && SearchPasses(m, search)
  }

  /** The rows of the table before pagination: the machines passing the
      status filter and the search, ordered by the comparator. */
  function ProcessedItems(ms: seq<Machine>, filter: string, search: string, sortBy: string, sortDir: string): (r: seq<Machine>)
    ensures |r| <= |ms|
    ensures Sorted(r, Comparator(sortBy, sortDir))
    ensures forall i :: 0 <= i < |r| ==> StatusPasses(r[i], filter) && SearchPasses(r[i], search)
  {
    var byStatus := Filter(ms, StatusTest(filter));
    var kept := Filter(byStatus, SearchTest(search));
    ComparatorIsTotalOrder(sortBy, sortDir);
    assert forall i :: 0 <= i < |kept| ==> PassesBoth(filter, search)(kept[i]) by {
      forall i | 0 <= i < |kept| ensures PassesBoth(filter, search)(kept[i]) {
        assert kept[i] in byStatus;
      }
    }
    SortKeeps(kept, Comparator(sortBy, sortDir), PassesBoth(filter, search));
    Sort(kept, Comparator(sortBy, sortDir))
  }

  /** The rows are a permutation of the machines that pass both tests: each
      passing machine appears as often as in the list, any other not at all. */
  lemma ProcessedItemsArePassingMachines(ms: seq<Machine>, filter: string, search: string, sortBy: string,
                                         sortDir: string, x: Machine)
    ensures multiset(ProcessedItems(ms, filter, search, sortBy, sortDir))[x]
      == if StatusPasses(x, filter) && SearchPasses(x, search) then multiset(ms)[x] else 0
  {
    var byStatus := Filter(ms, StatusTest(filter));
    FilterMultiset(ms, StatusTest(filter), x);
    FilterMultiset(byStatus, SearchTest(search), x);
  }

  /** With filter 'all' and a blank query the rows are all the machines,
      reordered. */
  lemma UnfilteredKeepsAll(ms: seq<Machine>, search: string, sortBy: string, sortDir: string)
    requires Trim(search) == ""
    ensures multiset(ProcessedItems(ms, "all", search, sortBy, sortDir)) == multiset(ms)
  {
    FilterAll(ms, StatusTest("all"));
    FilterAll(ms, SearchTest(search));
  }

  // ---------------------------------------------------------------------
  // Pagination (render, updateShowingRange)
  // ---------------------------------------------------------------------

  /** `Math.ceil(total / size)`: the fewest pages of `size` rows that hold
      `total` rows. */
  function CeilDiv(total: nat, size: nat): (pages: nat)
    requires size > 0
    ensures pages * size >= total
    ensures pages == 0 || (pages - 1) * size < total
  {
    var q := (total + size - 1) / size;
    assert q * size <= total + size - 1 < q * size + size;
    q
  }

  /** The page clamp of `render`: not past the last page when there is one,
      and never below 1. */
  function ClampPage(page: int, totalPages: nat): (p: int)
    ensures p >= 1
    ensures totalPages > 0 ==> p <= totalPages
    ensures 1 <= page && (totalPages == 0 || page <= totalPages) ==> p == page
  {
    var p := if page > totalPages && totalPages > 0 then totalPages else page;
    if p < 1 then 1 else p
  }

  function Min(a: int, b: int): int { if a <= b then a else b }

  /** `items.slice(start, start + size)` for page `page`: the rows from
      `(page - 1) * size`, at most `size` of them. */
  function PageSlice<T>(items: seq<T>, page: int, size: nat): (r: seq<T>)
    requires page >= 1
    ensures |r| <= size
    ensures var start := PageStart(page, size);
      |r| == Min(size, |items| - start) || (start >= |items| && r == [])
    ensures forall i :: 0 <= i < |r| ==> PageStart(page, size) + i < |items| && r[i] == items[PageStart(page, size) + i]
  {
    var start := PageStart(page, size);
    if start >= |items| then [] else items[start..Min(start + size, |items|)]
  }

  /** The index of the first row of page `page`. */
  function PageStart(page: int, size: nat): nat
    requires page >= 1
  {
    (page - 1) * size
  }

  /** `updateShowingRange`: the 1-based number of the first row shown (0
      when there are none) and of the last. */
  function ShowingRange(total: nat, start: int, pagedLength: nat): (r: (int, int))
    ensures total == 0 ==> r.0 == 0
    ensures total > 0 ==> r.0 == start + 1
    ensures r.1 <= total && r.1 <= start + pagedLength
    ensures r.1 == start + pagedLength || r.1 == total
  {
    (if total == 0 then 0 else start + 1, Min(start + pagedLength, total))
  }

  /** After the clamp, a non-empty result always shows a non-empty page, and
      the range counts exactly the rows on it. */
  lemma RenderedRangeIsThePage(items: seq<Machine>, page: int, size: nat)
    requires size > 0 && |items| > 0
    ensures var p := ClampPage(page, CeilDiv(|items|, size));
      var paged := PageSlice(items, p, size);
      var range := ShowingRange(|items|, PageStart(p, size), |paged|);
      && 1 <= |paged|
      && 1 <= range.0 <= range.1 <= |items|
      && range.1 - range.0 + 1 == |paged|
  {
    var pages := CeilDiv(|items|, size);
    var p := ClampPage(page, pages);
    assert 1 <= p <= pages;
    assert PageStart(p, size) < |items| by {
      assert (pages - 1) * size - (p - 1) * size == (pages - p) * size;
    }
  }

  // ---------------------------------------------------------------------
  // getMaintAlertStatus
  // ---------------------------------------------------------------------

  datatype Alert = Danger | Warning

  /** The alert for a machine, given today's date as YYYY-MM-DD: overdue
      when the scheduled date sorts before today, due when it is today, and
      none otherwise or without a date. */
  function AlertStatus(m: Machine, today: string): (r: Option<Alert>)
    ensures !HasScheduledDate(m) ==> r.None?
    ensures HasScheduledDate(m) && m.nextMaint.value.date.Str? ==>
      var d := m.nextMaint.value.date.s;
      && (r == Some(Danger) <==> LexLess(d, today))
      && (r == Some(Warning) <==> d == today)
      && (r.None? <==> LexLess(today, d))
  {
    if !HasScheduledDate(m) then None
    else match m.nextMaint.value.date
      case Str(d) =>
        LexLessTotal(d, today);
        LexLessAsymmetric(d, today);
        if LexLess(d, today) then Some(Danger)
        else if d == today then Some(Warning)
        else None
      case _ => None
  }

  // ---------------------------------------------------------------------
  // formatDate
  // ---------------------------------------------------------------------

  /** Matches `^\d{4}-\d{2}-\d{2}$`. */
  predicate IsIsoDate(s: string) {
    |s| == 10 && IsAllDigits(s[..4]) && s[4] == '-' && IsAllDigits(s[5..7]) && s[7] == '-' && IsAllDigits(s[8..])
  }

  lemma IsoSplit(s: string)
    requires IsIsoDate(s)
    ensures Split(s, '-') == [s[..4], s[5..7], s[8..]]
  {
    assert s == s[..4] + ['-'] + (s[5..7] + ['-'] + s[8..]);
    assert '-' !in s[..4] && '-' !in s[5..7] && '-' !in s[8..];
    SplitAtFirst(s[..4], '-', s[5..7] + ['-'] + s[8..]);
    SplitAtFirst(s[5..7], '-', s[8..]);
    SplitNoSeparator(s[8..], '-');
  }

  /** `formatDate`: 'N/A' for an empty value, DD/MM/YYYY for an ISO date,
      and otherwise whatever the locale formatting `locale` gives. */
  function FormatDate(v: Js, locale: string -> string): (r: string)
    ensures !Truthy(v) ==> r == "N/A"
    ensures v.Str? && IsIsoDate(v.s) ==> r == v.s[8..] + "/" + v.s[5..7] + "/" + v.s[..4]
  {
    if !Truthy(v) then "N/A"
    else if v.Str? && IsIsoDate(v.s) then
      var parts := Split(v.s, '-');
      IsoSplit(v.s);
      parts[2] + "/" + parts[1] + "/" + parts[0]
    else locale(AsString(v))
  }

  /** The DD/MM/YYYY display of an ISO date determines the date: splitting
      it on '/' and reversing the pieces gives the ISO text back. */
  lemma DisplayedIsoDateRoundTrip(s: string, locale: string -> string)
    requires IsIsoDate(s)
    ensures var parts := Split(FormatDate(Str(s), locale), '/');
      |parts| == 3 && parts[2] + "-" + parts[1] + "-" + parts[0] == s
  {
    var shown := FormatDate(Str(s), locale);
    assert shown == s[8..] + ['/'] + (s[5..7] + ['/'] + s[..4]);
    assert '/' !in s[8..] && '/' !in s[5..7] && '/' !in s[..4];
    SplitAtFirst(s[8..], '/', s[5..7] + ['/'] + s[..4]);
    SplitAtFirst(s[5..7], '/', s[..4]);
    SplitNoSeparator(s[..4], '/');
    assert s == s[..4] + "-" + s[5..7] + "-" + s[8..];
  }

  // ---------------------------------------------------------------------
  // The sort header
  // ---------------------------------------------------------------------

  /** A click on the header of column `key`: the same column flips the
      direction; another column becomes the sort column, ascending. */
  function ToggleSort(sortBy: string, sortDir: string, key: string): (r: (string, string))
    ensures r.0 == key && r.1 in {"asc", "desc"}
    ensures key != sortBy ==> r.1 == "asc"
    ensures key == sortBy && sortDir in {"asc", "desc"} ==> r.1 != sortDir
  {
    if sortBy == key then (sortBy, if sortDir == "asc" then "desc" else "asc")
    else (key, "asc")
  }

  /** Two clicks on the sort column restore its direction. */
  lemma ToggleSortTwice(sortBy: string, sortDir: string)
    requires sortDir in {"asc", "desc"}
    ensures var once := ToggleSort(sortBy, sortDir, sortBy);
      ToggleSort(once.0, once.1, sortBy) == (sortBy, sortDir)
  {
  }

  // ---------------------------------------------------------------------
  // loadState
  // ---------------------------------------------------------------------

  /** The defaults `loadState` fills into an event: a missing step list
      becomes empty, a missing id becomes the load time `stamp`, a missing
      technician 'N/A', and a falsy cost null. */
  function NormaliseMaint(x: Maint, stamp: int): (y: Maint)
    ensures y.startDate == x.startDate && y.endDate == x.endDate && y.kind == x.kind && y.desc == x.desc
    ensures y.steps == Some(x.steps.GetOr([]))
    ensures y.id == (if Truthy(x.id) then x.id else Num(stamp))
    ensures y.tecnico == (if Truthy(x.tecnico) then x.tecnico else Str("N/A"))
    ensures y.cost == (if Truthy(x.cost) then x.cost else Nil)
  {
    x.(steps := Some(x.steps.GetOr([])),
       id := if Truthy(x.id) then x.id else Num(stamp),
       tecnico := if Truthy(x.tecnico) then x.tecnico else Str("N/A"),
       cost := if Truthy(x.cost) then x.cost else Nil)
  }

  /** An event as `loadState` leaves it. */
  predicate MaintNormalised(x: Maint) {
    x.steps.Some? && Truthy(x.id) && Truthy(x.tecnico) && (Truthy(x.cost) || x.cost == Nil)
  }

  /** A machine as `loadState` leaves it. */
  predicate Normalised(m: Machine) {
    m.maintenance.Some? && m.history.Some? && m.quantity.Num?
    && forall i :: 0 <= i < |m.maintenance.value| ==> MaintNormalised(m.maintenance.value[i])
  }

  /** `loadState`'s rewrite of one machine; `quantity` becomes
      `Number(quantity) || 0`. Everything else is kept. */
  function Normalise(m: Machine, stamp: int): (n: Machine)
    ensures stamp != 0 ==> Normalised(n)
    ensures n.id == m.id && n.name == m.name && n.capacity == m.capacity && n.manufacturer == m.manufacturer
    ensures n.status == m.status && n.nextMaint == m.nextMaint
    ensures n.history == Some(m.history.GetOr([]))
    ensures n.quantity == Num(NumberOf(m.quantity).GetOr(0))
    ensures |Maints(n)| == |Maints(m)|
    ensures forall i :: 0 <= i < |Maints(m)| ==> Maints(n)[i] == NormaliseMaint(Maints(m)[i], stamp)
  {
    var ms := Maints(m);
    m.(maintenance := Some(seq(|ms|, i requires 0 <= i < |ms| => NormaliseMaint(ms[i], stamp))),
       history := Some(m.history.GetOr([])),
       quantity := Num(NumberOf(m.quantity).GetOr(0)))
  }

  /** A machine already normalised is left as it is, so loading twice is
      loading once. */
  lemma NormaliseKeepsNormalised(m: Machine, stamp: int)
    requires Normalised(m)
    ensures Normalise(m, stamp) == m
  {
    var n := Normalise(m, stamp);
    assert n.maintenance.value == m.maintenance.value;
  }

  lemma NormaliseIdempotent(m: Machine, stamp: int, stamp2: int)
    requires stamp != 0
    ensures Normalise(Normalise(m, stamp), stamp2) == Normalise(m, stamp)
  {
    NormaliseKeepsNormalised(Normalise(m, stamp), stamp2);
  }

  // ---------------------------------------------------------------------
  // renderStatusTable: counting statuses
  // ---------------------------------------------------------------------

  /** The property name a status is counted under: `String(status)`. */
  function KeyOf(m: Machine): string { AsString(m.status) }

  function HasKey(k: string): Machine -> bool {
    (m: Machine) => KeyOf(m) == k
  }

  function SumCounts(counts: seq<(string, nat)>): nat {
    if |counts| == 0 then 0 else SumCounts(counts[..|counts| - 1]) + counts[|counts| - 1].1
  }

  lemma {:induction false} SumCountsAppend(counts: seq<(string, nat)>, c: (string, nat))
    ensures SumCounts(counts + [c]) == SumCounts(counts) + c.1
  {
    assert (counts + [c])[..|counts|] == counts;
  }

  lemma {:induction false} SumCountsBump(counts: seq<(string, nat)>, j: nat)
    requires j < |counts|
    ensures SumCounts(counts[j := (counts[j].0, counts[j].1 + 1)]) == SumCounts(counts) + 1
  {
    var bumped := counts[j := (counts[j].0, counts[j].1 + 1)];
    if j < |counts| - 1 {
      SumCountsBump(counts[..|counts| - 1], j);
      assert bumped[..|counts| - 1] == counts[..|counts| - 1][j := (counts[j].0, counts[j].1 + 1)];
    } else {
      assert bumped[..|counts| - 1] == counts[..|counts| - 1];
    }
  }

  lemma {:induction false} SumCountsZero(counts: seq<(string, nat)>)
    requires forall j :: 0 <= j < |counts| ==> counts[j].1 == 0
    ensures SumCounts(counts) == 0
  {
    if |counts| > 0 {
      SumCountsZero(counts[..|counts| - 1]);
    }
  }

  /** The index of key `k` in the counter object, if present. */
  function IndexOf(counts: seq<(string, nat)>, k: string): (r: Option<nat>)
    ensures r.Some? ==> r.value < |counts| && counts[r.value].0 == k
    ensures r.None? ==> forall j :: 0 <= j < |counts| ==> counts[j].0 != k
  {
    if |counts| == 0 then None
    else if counts[|counts| - 1].0 == k then Some(|counts| - 1)
    else IndexOf(counts[..|counts| - 1], k)
  }

  function InitialCounts(): (c: seq<(string, nat)>)
    ensures |c| == |Statuses|
    ensures forall k :: 0 <= k < |c| ==> c[k] == (Statuses[k], 0)
  {
    seq(|Statuses|, k requires 0 <= k < |Statuses| => (Statuses[k], 0))
  }

  function Keys(counts: seq<(string, nat)>): (r: seq<string>)
    ensures |r| == |counts| && forall j :: 0 <= j < |counts| ==> r[j] == counts[j].0
  {
    seq(|counts|, j requires 0 <= j < |counts| => counts[j].0)
  }

  predicate DistinctKeys(counts: seq<(string, nat)>) {
    forall j, k :: 0 <= j < k < |counts| ==> counts[j].0 != counts[k].0
  }

  /** Every key holds the number of machines of `s` with that status. */
  predicate CountsOf(counts: seq<(string, nat)>, s: seq<Machine>) {
    forall j :: 0 <= j < |counts| ==> counts[j].1 == Count(s, HasKey(counts[j].0))
  }

  /** Every machine of `s` has its status among the keys. */
  predicate Covers(counts: seq<(string, nat)>, s: seq<Machine>) {
    forall i :: 0 <= i < |s| ==> KeyOf(s[i]) in Keys(counts)
  }

  /** `counts[key] = (counts[key] || 0) + 1`: an existing key is bumped in
      place, a new one is added last with 1. */
  function Tally(counts: seq<(string, nat)>, key: string): (r: seq<(string, nat)>)
    ensures |r| >= |counts| && forall k :: 0 <= k < |counts| ==> r[k].0 == counts[k].0
    ensures key in Keys(r)
    ensures SumCounts(r) == SumCounts(counts) + 1
  {
    match IndexOf(counts, key)
    case Some(j) =>
      SumCountsBump(counts, j);
      var r := counts[j := (key, counts[j].1 + 1)];
      assert Keys(r)[j] == key;
      r
    case None =>
      SumCountsAppend(counts, (key, 1));
      var r := counts + [(key, 1)];
      assert Keys(r)[|counts|] == key;
      r
  }

  /** Tallying keeps the keys distinct. */
  lemma TallyDistinct(counts: seq<(string, nat)>, key: string)
    requires DistinctKeys(counts)
    ensures DistinctKeys(Tally(counts, key))
  {
  }

  /** One machine tallied keeps every key's count right for one machine
      more. */
  lemma TallyCounts(ms: seq<Machine>, i: nat, counts: seq<(string, nat)>)
    requires i < |ms|
    requires DistinctKeys(counts) && CountsOf(counts, ms[..i]) && Covers(counts, ms[..i])
    ensures CountsOf(Tally(counts, KeyOf(ms[i])), ms[..i + 1])
  {
    var key := KeyOf(ms[i]);
    var r := Tally(counts, key);
    forall j | 0 <= j < |r| ensures r[j].1 == Count(ms[..i + 1], HasKey(r[j].0)) {
      CountPrefix(ms, i, HasKey(r[j].0));
      if j == |counts| {
        assert IndexOf(counts, key).None?;
        TallyNewKeyAbsent(ms, i, counts);
      }
    }
  }

  /** A key not yet in the counter belongs to none of the machines seen. */
  lemma TallyNewKeyAbsent(ms: seq<Machine>, i: nat, counts: seq<(string, nat)>)
    requires i < |ms|
    requires Covers(counts, ms[..i])
    requires IndexOf(counts, KeyOf(ms[i])).None?
    ensures Count(ms[..i], HasKey(KeyOf(ms[i]))) == 0
  {
    var key := KeyOf(ms[i]);
    forall i' | 0 <= i' < i ensures !HasKey(key)(ms[..i][i']) {
      assert KeyOf(ms[..i][i']) in Keys(counts);
    }
    CountNone(ms[..i], HasKey(key));
  }

  /** One machine tallied keeps every machine's status among the keys. */
  lemma TallyCovers(ms: seq<Machine>, i: nat, counts: seq<(string, nat)>)
    requires i < |ms|
    requires Covers(counts, ms[..i])
    ensures Covers(Tally(counts, KeyOf(ms[i])), ms[..i + 1])
  {
    var r := Tally(counts, KeyOf(ms[i]));
    forall i' | 0 <= i' < i + 1 ensures KeyOf(ms[i']) in Keys(r) {
      if i' < i {
        assert ms[..i][i'] == ms[i'];
        var j :| 0 <= j < |counts| && Keys(counts)[j] == KeyOf(ms[i']);
        assert Keys(r)[j] == Keys(counts)[j];
      }
    }
  }

  /** The `counts` object of `renderStatusTable`, as its keys in insertion
      order with their values: the six statuses first, then any other status
      met; each key counts the machines with that status, and so the counts
      add up to the number of machines. */
  method StatusCounts(ms: seq<Machine>) returns (counts: seq<(string, nat)>)
    ensures |counts| >= |Statuses| && forall k :: 0 <= k < |Statuses| ==> counts[k].0 == Statuses[k]
    ensures DistinctKeys(counts)
    ensures CountsOf(counts, ms)
    ensures forall i :: 0 <= i < |ms| ==> KeyOf(ms[i]) in Keys(counts)
    ensures SumCounts(counts) == |ms|
  {
    counts := InitialCounts();
    StatusesDistinct();
    SumCountsZero(counts);
    var i := 0;
    while i < |ms|
      invariant 0 <= i <= |ms|
      invariant |counts| >= |Statuses| && forall k :: 0 <= k < |Statuses| ==> counts[k].0 == Statuses[k]
      invariant DistinctKeys(counts) && CountsOf(counts, ms[..i]) && Covers(counts, ms[..i])
      invariant SumCounts(counts) == i
    {
      TallyDistinct(counts, KeyOf(ms[i]));
      TallyCounts(ms, i, counts);
      TallyCovers(ms, i, counts);
      counts := Tally(counts, KeyOf(ms[i]));
      i := i + 1;
    }
    assert ms[..i] == ms;
  }

  // ---------------------------------------------------------------------
  // updateMetrics
  // ---------------------------------------------------------------------

  /** An event closed on or after `since`: its end date is a string that
      does not sort before `since`. */
  predicate CompletedSince(x: Maint, since: string) {
    Truthy(x.endDate) && x.endDate.Str? && LexLessEq(since, x.endDate.s)
  }

  function CompletedTest(since: string): Maint -> bool { (x: Maint) => CompletedSince(x, since) }

  /** A scheduled date inside [today, horizon], compared as text. */
  predicate UpcomingWithin(m: Machine, today: string, horizon: string) {
    HasScheduledDate(m) && m.nextMaint.value.date.Str?
    && LexLessEq(today, m.nextMaint.value.date.s) && LexLessEq(m.nextMaint.value.date.s, horizon)
  }

  function UpcomingTest(today: string, horizon: string): Machine -> bool {
    (m: Machine) => UpcomingWithin(m, today, horizon)
  }

  /** Events over all machines. */
  function EventTotal(ms: seq<Machine>): nat {
    if |ms| == 0 then 0 else EventTotal(ms[..|ms| - 1]) + |Maints(ms[|ms| - 1])|
  }

  /** Events over all machines satisfying `p`. */
  function EventCount(ms: seq<Machine>, p: Maint -> bool): nat {
    if |ms| == 0 then 0 else EventCount(ms[..|ms| - 1], p) + Count(Maints(ms[|ms| - 1]), p)
  }

  function QuantityTotal(ms: seq<Machine>): int {
    if |ms| == 0 then 0 else QuantityTotal(ms[..|ms| - 1]) + QuantityOf(ms[|ms| - 1])
  }

  datatype Metrics = Metrics(total: nat, quantityTotal: int, upcoming: nat, active: nat, completed: nat,
                             inOperation: nat, inMaintenance: nat, inoperative: nat)

  /** `updateMetrics`, with today and the two 30-day bounds passed in as
      YYYY-MM-DD text: every counter is the count its definition gives. */
  method UpdateMetrics(ms: seq<Machine>, today: string, monthAgo: string, horizon: string) returns (r: Metrics)
    ensures r.total == |ms| && r.quantityTotal == QuantityTotal(ms)
    ensures r.upcoming == Count(ms, UpcomingTest(today, horizon))
    ensures r.active == EventCount(ms, OpenTest())
    ensures r.completed == EventCount(ms, CompletedTest(monthAgo))
    ensures r.inOperation == Count(ms, StatusIs("EM OPERAÇÃO"))
    ensures r.inMaintenance == Count(ms, StatusIs("EM MANUTENÇÃO"))
    ensures r.inoperative == Count(ms, StatusIs("INOPERANTE"))
  {
    var quantityTotal := 0;
    var i := 0;
    while i < |ms|
      invariant 0 <= i <= |ms|
      invariant quantityTotal == QuantityTotal(ms[..i])
    {
      assert ms[..i + 1][..i] == ms[..i];
      quantityTotal := quantityTotal + QuantityOf(ms[i]);
      i := i + 1;
    }
    var upcoming, active, completed := 0, 0, 0;
    i := 0;
    while i < |ms|
      invariant 0 <= i <= |ms|
      invariant upcoming == Count(ms[..i], UpcomingTest(today, horizon))
      invariant active == EventCount(ms[..i], OpenTest())
      invariant completed == EventCount(ms[..i], CompletedTest(monthAgo))
    {
      CountPrefix(ms, i, UpcomingTest(today, horizon));
      if UpcomingWithin(ms[i], today, horizon) {
        upcoming := upcoming + 1;
      }
      var events := Maints(ms[i]);
      var activeHere, completedHere := 0, 0;
      var j := 0;
      while j < |events|
        invariant 0 <= j <= |events|
        invariant activeHere == Count(events[..j], OpenTest())
        invariant completedHere == Count(events[..j], CompletedTest(monthAgo))
      {
        CountPrefix(events, j, OpenTest());
        CountPrefix(events, j, CompletedTest(monthAgo));
        if IsOpen(events[j]) {
          activeHere := activeHere + 1;
        } else if CompletedSince(events[j], monthAgo) {
          completedHere := completedHere + 1;
        }
        j := j + 1;
      }
      assert events[..j] == events;
      assert ms[..i + 1][..i] == ms[..i];
      active := active + activeHere;
      completed := completed + completedHere;
      i := i + 1;
    }
    assert ms[..i] == ms;
    r := Metrics(|ms|, quantityTotal, upcoming, active, completed,
                 |Filter(ms, StatusIs("EM OPERAÇÃO"))|, |Filter(ms, StatusIs("EM MANUTENÇÃO"))|,
                 |Filter(ms, StatusIs("INOPERANTE"))|);
    CountIsFilterLength(ms, StatusIs("EM OPERAÇÃO"));
    CountIsFilterLength(ms, StatusIs("EM MANUTENÇÃO"));
    CountIsFilterLength(ms, StatusIs("INOPERANTE"));
  }

  lemma {:induction false} CountDisjoint<T>(s: seq<T>, p: T -> bool, q: T -> bool)
    requires forall i :: 0 <= i < |s| ==> !(p(s[i]) && q(s[i]))
    ensures Count(s, p) + Count(s, q) <= |s|
  {
    if |s| > 0 {
      CountDisjoint(s[..|s| - 1], p, q);
    }
  }

  /** An event without an end date counts as active and never as
      completed, so the two counters together never exceed the events. */
  lemma {:induction false} ActiveAndCompletedAreDisjoint(ms: seq<Machine>, since: string)
    ensures EventCount(ms, OpenTest()) + EventCount(ms, CompletedTest(since)) <= EventTotal(ms)
  {
    if |ms| > 0 {
      ActiveAndCompletedAreDisjoint(ms[..|ms| - 1], since);
      CountDisjoint(Maints(ms[|ms| - 1]), OpenTest(), CompletedTest(since));
    }
  }

  // ---------------------------------------------------------------------
  // getStatusClass
  // ---------------------------------------------------------------------

  /** The badge class of a status; an unknown status shows as 'ok'. */
  function StatusClass(status: Js): (c: string)
    ensures c in {"ok", "op", "maint", "inop", "wait", "exc"}
    ensures forall k :: 0 <= k < |Statuses| ==> (status == Str(Statuses[k]) ==> c == ["ok", "op", "maint", "inop", "wait", "exc"][k])
    ensures (forall k :: 0 <= k < |Statuses| ==> status != Str(Statuses[k])) ==> c == "ok"
  {
    assert Statuses[1] == "EM OPERAÇÃO" && Statuses[2] == "EM MANUTENÇÃO" && Statuses[3] == "INOPERANTE"
      && Statuses[4] == "ESPERANDO PEÇAS" && Statuses[5] == "HORAS EXCEDENTES";
    if status == Str("OK") then "ok"
    else if status == Str("EM OPERAÇÃO") then "op"
    else if status == Str("EM MANUTENÇÃO") then "maint"
    else if status == Str("INOPERANTE") then "inop"
    else if status == Str("ESPERANDO PEÇAS") then "wait"
    else if status == Str("HORAS EXCEDENTES") then "exc"
    else "ok"
  }

  // ---------------------------------------------------------------------
  // The page's state
  // ---------------------------------------------------------------------

  /** What `render` puts on screen: the rows of the page, the page count for
      the pager, and the "showing x-y" range. */
  datatype PageView = PageView(rows: seq<Machine>, totalPages: nat, range: (int, int))

  /** The page's `state` object. */
  class ListView {
    var machines: seq<Machine>
    var search: string
    var filter: string
    var sortBy: string
    var sortDir: string
    var page: int
    const pageSize: nat := 8

    constructor ()
      ensures machines == [] && search == "" && filter == "all"
      ensures sortBy == "id" && sortDir == "asc" && page == 1
    {
      machines, search, filter := [], "", "all";
      sortBy, sortDir, page := "id", "asc", 1;
    }

    function Processed(): seq<Machine>
      reads this
    {
      ProcessedItems(machines, filter, search, sortBy, sortDir)
    }

    /** `render`: clamps the page against the processed rows and shows that
        page. */
    method Render() returns (view: PageView)
      modifies this
      ensures machines == old(machines) && search == old(search) && filter == old(filter)
      ensures sortBy == old(sortBy) && sortDir == old(sortDir)
      ensures view.totalPages == CeilDiv(|Processed()|, pageSize)
      ensures page == ClampPage(old(page), view.totalPages)
      ensures view.rows == PageSlice(Processed(), page, pageSize)
      ensures view.range == ShowingRange(|Processed()|, PageStart(page, pageSize), |view.rows|)
    {
      var filtered := ProcessedItems(machines, filter, search, sortBy, sortDir);
      var total := |filtered|;
      var totalPages := CeilDiv(total, pageSize);
      if page > totalPages && totalPages > 0 {
        page := totalPages;
      }
      if page < 1 {
        page := 1;
      }
      var start := PageStart(page, pageSize);
      var paged := PageSlice(filtered, page, pageSize);
      view := PageView(paged, totalPages, ShowingRange(total, start, |paged|));
    }

    /** A click on a sortable header, then `render`. */
    method OnSortHeaderClick(key: string) returns (view: PageView)
      modifies this
      ensures (sortBy, sortDir) == ToggleSort(old(sortBy), old(sortDir), key)
      ensures machines == old(machines) && search == old(search) && filter == old(filter)
      ensures page == ClampPage(old(page), view.totalPages)
      ensures view.rows == PageSlice(Processed(), page, pageSize)
    {
      if sortBy == key {
        sortDir := if sortDir == "asc" then "desc" else "asc";
      } else {
        sortBy := key;
        sortDir := "asc";
      }
      view := Render();
    }

    /** Typing in the search box: back to page 1, then `render`. */
    method OnSearchInput(value: string) returns (view: PageView)
      modifies this
      ensures search == value && page == 1
      ensures machines == old(machines) && filter == old(filter) && sortBy == old(sortBy) && sortDir == old(sortDir)
      ensures view.rows == PageSlice(Processed(), 1, pageSize)
    {
      search := value;
      page := 1;
      view := Render();
    }

    /** Choosing a status filter: back to page 1, then `render`. */
    method OnFilterChange(value: string) returns (view: PageView)
      modifies this
      ensures filter == value && page == 1
      ensures machines == old(machines) && search == old(search) && sortBy == old(sortBy) && sortDir == old(sortDir)
      ensures view.rows == PageSlice(Processed(), 1, pageSize)
    {
      filter := value;
      page := 1;
      view := Render();
    }

    /** `loadState`: a successful response's machines, normalised with the
        load time `stamp`; an empty list when the request failed. */
    method LoadState(response: Option<seq<Machine>>, stamp: int)
      modifies this
      ensures response.None? ==> machines == []
      ensures response.Some? ==> |machines| == |response.value|
      ensures response.Some? ==>
        forall i :: 0 <= i < |machines| ==> machines[i] == Normalise(response.value[i], stamp)
      ensures search == old(search) && filter == old(filter) && sortBy == old(sortBy)
      ensures sortDir == old(sortDir) && page == old(page)
    {
      if response.None? {
        machines := [];
      } else {
        var loaded := response.value;
        machines := seq(|loaded|, i requires 0 <= i < |loaded| => Normalise(loaded[i], stamp));
      }
    }
  }
}
