/** The read side of the backend: `handleGetMachines`
    (backend/api.php:89-168) assembles, for every machine row, the JSON
    object the browser works with, joining in its history, its schedule, its
    maintenance events and each event's steps. */
module ApiRead {
  import opened Text
  import opened Sorting
  import opened Stamps
  import opened ApiTables

  /** The five tables. */
  datatype Db = Db(machines: seq<MachineRow>, schedules: seq<ScheduleRow>, events: seq<EventRow>,
                   steps: seq<StepRow>, history: seq<HistoryRow>)

  /** A dated line: a history entry `{date, text}` or a step `{date, description}`. */
  datatype Entry = Entry(date: string, text: Value)

  datatype NextMaint = NextMaint(date: Value, desc: Value)

  datatype EventView = EventView(id: nat, startDate: Value, endDate: Value, serviceType: Value,
                                 desc: Value, technician: Value, cost: Option<real>, steps: seq<Entry>)

  datatype MachineView = MachineView(id: Value, name: Value, capacity: Value, manufacturer: Value,
                                     quantity: int, status: Value, maintenance: seq<EventView>,
                                     history: seq<Entry>, nextMaint: Option<NextMaint>)

  /** The text of the entry shown for a machine with no history. */
  const LoadedNote: Value := Str("Carregado do banco de dados.")

  // ---------------------------------------------------------------------
  // The ORDER BY clauses
  // ---------------------------------------------------------------------

  /** `ORDER BY data_hora DESC`. */
  predicate NewerOrSame(a: HistoryRow, b: HistoryRow) { StampKey(a.at) >= StampKey(b.at) }

  /** `ORDER BY data_hora ASC`. */
  predicate StepNoLater(a: StepRow, b: StepRow) { StampKey(a.at) <= StampKey(b.at) }

  /** The text a start date sorts by; a missing date sorts as the least. */
  function DateKey(v: Value): string { AsText(v) }

  /** `ORDER BY data_servico DESC`. */
  predicate StartsNoEarlier(a: EventRow, b: EventRow) { LexLessEq(DateKey(b.startDate), DateKey(a.startDate)) }

  lemma StartsNoEarlierTotal()
    ensures Total(StartsNoEarlier)
  {
    forall a: EventRow, b: EventRow ensures StartsNoEarlier(a, b) || StartsNoEarlier(b, a) {
      LexLessAsymmetric(DateKey(a.startDate), DateKey(b.startDate));
    }
  }

  // ---------------------------------------------------------------------
  // Per-machine groups
  // ---------------------------------------------------------------------

  /** `WHERE maquina_id = ?` on the history table. */
  function HistoryOf(mid: nat): HistoryRow -> bool { (h: HistoryRow) => h.machineId == mid }

  /** `WHERE manutencao_id = ?` on the steps table. */
  function StepsOf(id: nat): StepRow -> bool { (s: StepRow) => IdMatches(id, s.eventRef) }

  /** `WHERE maquina_id = ?` on the events table. */
  function EventsOf(mid: nat): EventRow -> bool { (e: EventRow) => e.machineId == mid }

  lemma NewerOrSameTotal()
    ensures Total(NewerOrSame)
  {
  }

  lemma StepNoLaterTotal()
    ensures Total(StepNoLater)
  {
  }

  /** The machine's history rows, newest first. */
  function HistoryRowsOf(history: seq<HistoryRow>, mid: nat): (r: seq<HistoryRow>)
    ensures multiset(r) == multiset(Filter(history, HistoryOf(mid)))
    ensures forall i :: 0 <= i < |r| ==> r[i].machineId == mid
    ensures forall i :: 0 < i < |r| ==> StampKey(r[i - 1].at) >= StampKey(r[i].at)
  {
    var own := Filter(history, HistoryOf(mid));
    NewerOrSameTotal();
    SortKeeps(own, NewerOrSame, HistoryOf(mid));
    Sort(own, NewerOrSame)
  }

  /** The steps of event `id`, oldest first. */
  function StepRowsOf(steps: seq<StepRow>, id: nat): (r: seq<StepRow>)
    ensures multiset(r) == multiset(Filter(steps, StepsOf(id)))
    ensures forall i :: 0 <= i < |r| ==> IdMatches(id, r[i].eventRef)
    ensures forall i :: 0 < i < |r| ==> StampKey(r[i - 1].at) <= StampKey(r[i].at)
  {
    var own := Filter(steps, StepsOf(id));
    StepNoLaterTotal();
    SortKeeps(own, StepNoLater, StepsOf(id));
    Sort(own, StepNoLater)
  }

  /** The machine's maintenance events, newest start date first. */
  function EventRowsOf(events: seq<EventRow>, mid: nat): (r: seq<EventRow>)
    ensures multiset(r) == multiset(Filter(events, EventsOf(mid)))
    ensures forall i :: 0 <= i < |r| ==> r[i].machineId == mid
    ensures forall i :: 0 < i < |r| ==> LexLessEq(DateKey(r[i].startDate), DateKey(r[i - 1].startDate))
  {
    var own := Filter(events, EventsOf(mid));
    StartsNoEarlierTotal();
    SortKeeps(own, StartsNoEarlier, EventsOf(mid));
    Sort(own, StartsNoEarlier)
  }

  function StepEntries(rows: seq<StepRow>): (r: seq<Entry>)
    ensures |r| == |rows|
    ensures forall i :: 0 <= i < |rows| ==> r[i] == Entry(FormatDmyHis(rows[i].at), rows[i].description)
  {
    seq(|rows|, i requires 0 <= i < |rows| => Entry(FormatDmyHis(rows[i].at), rows[i].description))
  }

  /** The history list sent for a machine: its rows newest first, or, when it
      has none, the one entry saying it was loaded, stamped `now`. */
  function HistoryFor(history: seq<HistoryRow>, mid: nat, now: Stamp): (r: seq<Entry>)
    ensures |r| >= 1
    ensures Count(history, HistoryOf(mid)) == 0 ==>
      r == [Entry(FormatDmyHis(now), LoadedNote)]
    ensures Count(history, HistoryOf(mid)) > 0 ==>
      var rows := HistoryRowsOf(history, mid);
      |r| == |rows| && forall i :: 0 <= i < |rows| ==> r[i] == Entry(FormatDmyHis(rows[i].at), rows[i].description)
  {
    var rows := HistoryRowsOf(history, mid);
    CountIsFilterLength(history, HistoryOf(mid));
    assert |rows| == |Filter(history, HistoryOf(mid))| by {
      assert |multiset(rows)| == |rows|;
    }
    if |rows| == 0 then [Entry(FormatDmyHis(now), LoadedNote)]
    else seq(|rows|, i requires 0 <= i < |rows| => Entry(FormatDmyHis(rows[i].at), rows[i].description))
  }

  /** `nextMaint`: the machine's first schedule row, if it has one. */
  function NextMaintFor(schedules: seq<ScheduleRow>, mid: nat): (r: Option<NextMaint>)
    ensures r.Some? <==> exists i :: 0 <= i < |schedules| && schedules[i].machineId == mid
    ensures r.Some? ==>
      exists i :: 0 <= i < |schedules| && schedules[i].machineId == mid && r.value == NextMaint(schedules[i].date, schedules[i].note)
  {
    var own := SchedulesOf(schedules, mid);
    if |own| == 0 then
      assert forall i :: 0 <= i < |schedules| && schedules[i].machineId == mid ==> false by {
        forall i | 0 <= i < |schedules| && schedules[i].machineId == mid ensures false {
          FilterMultiset(schedules, (s: ScheduleRow) => s.machineId == mid, schedules[i]);
        }
      }
      None
    else
      assert own[0] in schedules;
      Some(NextMaint(own[0].date, own[0].note))
  }

  function EventViewOf(steps: seq<StepRow>, e: EventRow): EventView {
    EventView(e.id, e.startDate, e.endDate, e.serviceType, e.notes, e.technician, e.cost,
              StepEntries(StepRowsOf(steps, e.id)))
  }

  /** The events of a machine as sent, each with its steps. */
  function EventsFor(db: Db, mid: nat): (r: seq<EventView>)
    ensures |r| == Count(db.events, EventsOf(mid))
    ensures forall i :: 0 < i < |r| ==> LexLessEq(DateKey(r[i].startDate), DateKey(r[i - 1].startDate))
    ensures |r| == |EventRowsOf(db.events, mid)|
    ensures forall i :: 0 <= i < |r| ==> r[i] == EventViewOf(db.steps, EventRowsOf(db.events, mid)[i])
  {
    EventRowsCount(db.events, mid);
    EventViews(db.steps, EventRowsOf(db.events, mid))
  }

  function EventViews(steps: seq<StepRow>, rows: seq<EventRow>): (r: seq<EventView>)
    ensures |r| == |rows|
    ensures forall i :: 0 <= i < |r| ==> r[i] == EventViewOf(steps, rows[i])
  {
    seq(|rows|, i requires 0 <= i < |rows| => EventViewOf(steps, rows[i]))
  }

  lemma EventRowsCount(events: seq<EventRow>, mid: nat)
    ensures |EventRowsOf(events, mid)| == Count(events, EventsOf(mid))
  {
    var rows := EventRowsOf(events, mid);
    CountIsFilterLength(events, EventsOf(mid));
    assert |multiset(rows)| == |rows|;
  }

  /** Every event sent for a machine is one of its rows in the events
      table, with that row's steps. */
  lemma EventsForComeFromTable(db: Db, mid: nat, i: nat)
    requires i < |EventsFor(db, mid)|
    ensures exists k ::
      0 <= k < |db.events| && db.events[k].machineId == mid && EventsFor(db, mid)[i] == EventViewOf(db.steps, db.events[k])
  {
    var rows := EventRowsOf(db.events, mid);
    assert rows[i] in multiset(rows);
    assert rows[i] in db.events;
    var k :| 0 <= k < |db.events| && db.events[k] == rows[i];
  }

  /** The object `handleGetMachines` builds for one machine row. */
  function MachineViewOf(db: Db, m: MachineRow, now: Stamp): (r: MachineView)
    ensures r.id == Str(m.tag) && r.name == Cell(m, Nome) && r.status == Cell(m, Status)
    ensures r.manufacturer == Null
    ensures r.capacity == if Cell(m, Descricao) == Null then Str("N/A") else Cell(m, Descricao)
    ensures r.quantity == if Cell(m, HorasUso) == Null then 1 else PhpInt(Cell(m, HorasUso))
    ensures |r.history| >= 1
    ensures r.nextMaint.Some? <==> exists i :: 0 <= i < |db.schedules| && db.schedules[i].machineId == m.id
    ensures |r.maintenance| == Count(db.events, EventsOf(m.id))
  {
    var horas := Cell(m, HorasUso);
    MachineView(Str(m.tag), Cell(m, Nome),
                if Cell(m, Descricao) == Null then Str("N/A") else Cell(m, Descricao),
                Null,
                PhpInt(if horas == Null then Num(1) else horas),
                Cell(m, Status),
                EventsFor(db, m.id),
                HistoryFor(db.history, m.id, now),
                NextMaintFor(db.schedules, m.id))
  }

  /** The `machines` list of a GET response: one object per machine row, in
      table order. */
  function GetMachines(db: Db, now: Stamp): (r: seq<MachineView>)
    ensures |r| == |db.machines|
    ensures forall i :: 0 <= i < |r| ==> r[i] == MachineViewOf(db, db.machines[i], now)
    ensures forall i :: 0 <= i < |r| ==> r[i].id == Str(db.machines[i].tag)
  {
    seq(|db.machines|, i requires 0 <= i < |db.machines| => MachineViewOf(db, db.machines[i], now))
  }

  /** With at most one schedule per machine, `nextMaint` is that schedule. */
  lemma NextMaintIsTheSchedule(schedules: seq<ScheduleRow>, k: nat)
    requires DistinctBy(schedules, ScheduleOwner)
    requires k < |schedules|
    ensures NextMaintFor(schedules, schedules[k].machineId) == Some(NextMaint(schedules[k].date, schedules[k].note))
  {
    var mid := schedules[k].machineId;
    var r := NextMaintFor(schedules, mid);
    var i :| 0 <= i < |schedules| && schedules[i].machineId == mid
      && r.value == NextMaint(schedules[i].date, schedules[i].note);
    assert ScheduleOwner(schedules[i]) == ScheduleOwner(schedules[k]);
  }
}
