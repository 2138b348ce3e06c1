/** The backend's database as one object, with one method per request
    handler of backend/api.php. Each method checks what the handler checks,
    in the same order, and changes the tables as the handler's SQL statements
    do; the functions of `ApiTables` say what each statement does to a table.
    A tag is bound, stored and compared as its text; the other columns keep
    the JSON type they arrive with. */
module ApiStore {
  import opened Text
  import opened Sorting
  import opened Stamps
  import opened ApiTables
  import opened ApiRead
  import opened ApiRoutes

  /** The decoded request body: `data`, `tag`, `field` and `value`. */
  datatype Body = Body(action: Value, data: Data, tag: Value, field: Value, value: Value)

  /** The `data` member: an object of scalars, a JSON array of objects, or
      anything else (absent, null, a scalar). */
  datatype Data = Object(fields: Fields) | Rows(items: seq<Fields>) | Other

  /** `$data[...]` reads of a handler that expects an object: anything that
      is not an object has none of the keys. */
  function FieldsOf(d: Data): (f: Fields)
    ensures d.Object? ==> f == d.fields
    ensures !d.Object? ==> f == map[]
  {
    if d.Object? then d.fields else map[]
  }

  /** What `foreach ($machines as $data)` visits: an array's elements, or an
      object's scalar members, which have none of the keys; `None` when the
      value is not an array. */
  function BatchInput(d: Data): (rows: Option<seq<Fields>>)
    ensures d.Other? <==> rows.None?
    ensures d.Rows? ==> rows == Some(d.items)
    ensures d.Object? ==> rows.Some? && |rows.value| == |d.fields| && forall k :: 0 <= k < |rows.value| ==> !RowAccepted(rows.value[k])
  {
    match d
    case Rows(items) => Some(items)
    case Object(f) => Some(seq(|f|, _ => map[]))
    case Other => None
  }

  // ---------------------------------------------------------------------
  // Each handler as a function of the state before the request
  // ---------------------------------------------------------------------

  /** Everything a request can change: the five tables and the two
      AUTO_INCREMENT counters. */
  datatype State = State(db: Db, nextMachineId: nat, nextEventId: nat)

  /** `handleAddMachine`: the state after the request, and the response. */
  function AddMachineEffect(s: State, data: Fields): (State, Response) {
    if Missing(data, "id") || Missing(data, "name") then (s, Failure(MissingFields))
    else if HasTag(s.db.machines, AsText(data["id"])) then (s, Failure(DuplicateTag))
    else
      var row := MachineRow(s.nextMachineId, AsText(data["id"]), NewMachineCols(data));
      (s.(db := s.db.(machines := s.db.machines + [row]), nextMachineId := s.nextMachineId + 1),
       Success(Done("Máquina adicionada com sucesso.")))
  }

  /** `handleAddHistory`. */
  function AddHistoryEffect(s: State, data: Fields, now: Stamp): (State, Response) {
    if Missing(data, "tag") || Missing(data, "description") then (s, Failure(MissingFields))
    else match FindMachine(s.db.machines, data["tag"])
      case None => (s, Failure(MachineNotFound))
      case Some(mid) =>
        (s.(db := s.db.(history := s.db.history + [HistoryRow(mid, now, data["description"])])),
         Success(Done("Histórico adicionado.")))
  }

  /** Every tag is bound as its text, so a machine added under the number
      n is the machine of the text of n: history under that text reaches it,
      and adding that text again hits the unique key. */
  lemma NumericTagIsItsText(s: State, data: Fields, n: nat, later: Fields, now: Stamp)
    requires Field(data, "id") == Num(n) && AddMachineEffect(s, data).1.Success?
    requires Field(later, "id") == Str(DecimalText(n)) && Field(later, "tag") == Str(DecimalText(n))
    requires !Missing(later, "name") && !Missing(later, "description")
    ensures AddMachineEffect(AddMachineEffect(s, data).0, later).1 == Failure(DuplicateTag)
    ensures AddHistoryEffect(AddMachineEffect(s, data).0, later, now).1.Success?
  {
    var t := AddMachineEffect(s, data).0;
    DecimalTextValue(n);
    assert DigitsValue("0") == 0;
    var last := |t.db.machines| - 1;
    assert t.db.machines[last].tag == DecimalText(n);
    assert TagMatches(t.db.machines[last], Str(DecimalText(n)));
  }

  /** `handleUpdateField`. */
  function UpdateFieldEffect(s: State, tag: Value, field: Value, value: Value,
                             decode: string -> Option<Fields>): (State, Response) {
    match ColumnFor(field)
    case Some(c) =>
      (s.(db := s.db.(machines := SetColumn(s.db.machines, tag, c, value))), Success(Done("Campo atualizado.")))
    case None =>
      if field != Str("nextMaint") then (s, Failure(FieldNotAllowed))
      else match FindMachine(s.db.machines, tag)
        case None => (s, Failure(MachineNotFound))
        case Some(mid) =>
          (s.(db := s.db.(schedules := ReplaceSchedule(s.db.schedules, mid, ScheduleToInsert(value, decode)))),
           Success(Done("Agendamento atualizado.")))
  }

  /** `handleDeleteMachine`. */
  function DeleteMachineEffect(s: State, tag: Value): (State, Response) {
    (s.(db := s.db.(machines := Filter(s.db.machines, (m: MachineRow) => !TagMatches(m, tag)))),
     Success(Done("Máquina deletada.")))
  }

  /** `handleStartMaintenance`. */
  function StartMaintenanceEffect(s: State, data: Fields): (State, Response) {
    if Missing(data, "tag") || Missing(data, "type") then (s, Failure(MissingFields))
    else match FindMachine(s.db.machines, data["tag"])
      case None => (s, Failure(MachineNotFound))
      case Some(mid) =>
        var e := EventRow(s.nextEventId, mid, Field(data, "start_date"), Null, data["type"], Field(data, "desc"),
                          FieldOr(data, "tecnico", Null), None);
        (s.(db := s.db.(events := s.db.events + [e]), nextEventId := s.nextEventId + 1),
         Success(MaintStarted(s.nextEventId)))
  }

  /** `handleAddMaintStep`. */
  function AddMaintStepEffect(s: State, data: Fields, now: Stamp): (State, Response) {
    if Missing(data, "maint_id") || Missing(data, "description") then (s, Failure(MissingFields))
    else
      (s.(db := s.db.(steps := s.db.steps + [StepRow(data["maint_id"], now, data["description"])])),
       Success(StepAdded(Entry(FormatDmyHis(now), data["description"]))))
  }

  /** `handleEndMaintenance`. */
  function EndMaintenanceEffect(s: State, data: Fields, toFloat: string -> real): (State, Response) {
    if Missing(data, "tag") || Missing(data, "end_date") || Missing(data, "maint_id") then (s, Failure(MissingFields))
    else match FindMachine(s.db.machines, data["tag"])
      case None => (s, Failure(MachineNotFound))
      case Some(mid) =>
        if Affected(s.db.events, data["maint_id"], mid) == 0 then (s, Failure(NoActiveMaintenance))
        else
          (s.(db := s.db.(events := CloseEvents(s.db.events, data["maint_id"], mid, data["end_date"],
                                                EndCost(data, toFloat)))),
           Success(Done("Manutenção finalizada.")))
  }

  /** `handleBatchAddMachines`. */
  function BatchAddMachinesEffect(s: State, input: Option<seq<Fields>>): (State, Response) {
    if input.None? || input.value == [] then (s, Failure(NoMachineData))
    else
      var up := UpsertAll(s.db.machines, s.nextMachineId, input.value);
      (s.(db := s.db.(machines := up.0), nextMachineId := up.1), Success(Imported(Count(input.value, RowAccepted))))
  }

  /** The dispatcher: the route of (method, action) names the handler whose
      effect the request has. */
  function Dispatch(s: State, verb: string, body: Body, now: Stamp, toFloat: string -> real,
                    decode: string -> Option<Fields>): (State, Response) {
    match RouteOf(verb, body.action)
    case Preflight => (s, Success(NoBody))
    case ListMachines => (s, Success(Machines(GetMachines(s.db, now))))
    case AddMachine => AddMachineEffect(s, FieldsOf(body.data))
    case AddHistory => AddHistoryEffect(s, FieldsOf(body.data), now)
    case StartMaintenance => StartMaintenanceEffect(s, FieldsOf(body.data))
    case BatchAddMachines => BatchAddMachinesEffect(s, BatchInput(body.data))
    case UpdateField => UpdateFieldEffect(s, body.tag, body.field, body.value, decode)
    case AddMaintStep => AddMaintStepEffect(s, FieldsOf(body.data), now)
    case EndMaintenance => EndMaintenanceEffect(s, FieldsOf(body.data), toFloat)
    case DeleteMachine => DeleteMachineEffect(s, body.tag)
    case UnknownAction => (s, Failure(UnknownActionError))
    case BadMethod => (s, Failure(MethodNotAllowed))
  }

  class Store {
    var machines: seq<MachineRow>
    var schedules: seq<ScheduleRow>
    var events: seq<EventRow>
    var steps: seq<StepRow>
    var history: seq<HistoryRow>
    /** The next AUTO_INCREMENT value of maquinas and of manutencoes. */
    var nextMachineId: nat
    var nextEventId: nat

    /** Keys are sound and each machine has at most one schedule. Nothing
        here says a machine has at most one open event: the server does not
        enforce that. */
    ghost predicate Valid()
      reads this
    {
      1 <= nextMachineId && MachineKeysOk(machines, nextMachineId)
      && 1 <= nextEventId && EventKeysOk(events, nextEventId)
      && DistinctBy(schedules, ScheduleOwner)
    }

    function Tables(): Db
      reads this
    {
      Db(machines, schedules, events, steps, history)
    }

    function Snapshot(): State
      reads this
    {
      State(Tables(), nextMachineId, nextEventId)
    }

    constructor ()
      ensures Valid()
      ensures Tables() == Db([], [], [], [], [])
    {
      machines, schedules, events, steps, history := [], [], [], [], [];
      nextMachineId, nextEventId := 1, 1;
    }

    /** `handleAddMachine`: id and name are required; the row is inserted
        with the defaults of `NewMachineCols`. A tag already in the table is
        refused by its unique key. */
    method AddMachine(data: Fields) returns (r: Response)
      requires Valid()
      modifies this
      ensures Valid()
      ensures Missing(data, "id") || Missing(data, "name") ==>
        r == Failure(MissingFields) && Tables() == old(Tables()) && nextMachineId == old(nextMachineId)
      ensures !Missing(data, "id") && !Missing(data, "name") && HasTag(old(machines), AsText(data["id"])) ==>
        r == Failure(DuplicateTag) && Tables() == old(Tables()) && nextMachineId == old(nextMachineId)
      ensures !Missing(data, "id") && !Missing(data, "name") && !HasTag(old(machines), AsText(data["id"])) ==>
        && r == Success(Done("Máquina adicionada com sucesso."))
        && machines == old(machines) + [MachineRow(old(nextMachineId), AsText(data["id"]), NewMachineCols(data))]
        && nextMachineId == old(nextMachineId) + 1
        && Tables().(machines := []) == old(Tables()).(machines := [])
      ensures nextEventId == old(nextEventId)
      ensures (Snapshot(), r) == AddMachineEffect(old(Snapshot()), data)
    {
      if Missing(data, "id") || Missing(data, "name") {
        return Failure(MissingFields);
      }
      if HasTag(machines, AsText(data["id"])) {
        return Failure(DuplicateTag);
      }
      machines := machines + [MachineRow(nextMachineId, AsText(data["id"]), NewMachineCols(data))];
      nextMachineId := nextMachineId + 1;
      r := Success(Done("Máquina adicionada com sucesso."));
    }

    /** `handleAddHistory`: tag and description are required and the tag
        must name a machine; one entry stamped `now` is appended. */
    method AddHistory(data: Fields, now: Stamp) returns (r: Response)
      requires Valid()
      modifies this
      ensures Valid()
      ensures r != Failure(DuplicateTag)
      ensures Missing(data, "tag") || Missing(data, "description") ==>
        r == Failure(MissingFields) && Tables() == old(Tables())
      ensures !Missing(data, "tag") && !Missing(data, "description") && FindMachine(machines, data["tag"]).None? ==>
        r == Failure(MachineNotFound) && Tables() == old(Tables())
      ensures !Missing(data, "tag") && !Missing(data, "description") && FindMachine(old(machines), data["tag"]).Some? ==>
        && r == Success(Done("Histórico adicionado."))
        && history == old(history) + [HistoryRow(FindMachine(old(machines), data["tag"]).value, now, data["description"])]
        && Tables().(history := []) == old(Tables()).(history := [])
      ensures nextMachineId == old(nextMachineId) && nextEventId == old(nextEventId)
      ensures (Snapshot(), r) == AddHistoryEffect(old(Snapshot()), data, now)
    {
      if Missing(data, "tag") || Missing(data, "description") {
        return Failure(MissingFields);
      }
      var mid := FindMachine(machines, data["tag"]);
      if mid.None? {
        return Failure(MachineNotFound);
      }
      history := history + [HistoryRow(mid.value, now, data["description"])];
      r := Success(Done("Histórico adicionado."));
    }

    /** `handleUpdateField`: an allowed field updates its column on every
        machine with the tag, and succeeds even when none has it; the
        `nextMaint` pseudo-field replaces the machine's schedule; any other
        field is refused. */
    method UpdateField(tag: Value, field: Value, value: Value, decode: string -> Option<Fields>) returns (r: Response)
      requires Valid()
      modifies this
      ensures Valid()
      ensures r != Failure(DuplicateTag)
      ensures ColumnFor(field).Some? ==>
        && r == Success(Done("Campo atualizado."))
        && machines == SetColumn(old(machines), tag, ColumnFor(field).value, value)
        && Tables().(machines := []) == old(Tables()).(machines := [])
      ensures ColumnFor(field).None? && field == Str("nextMaint") && FindMachine(machines, tag).None? ==>
        r == Failure(MachineNotFound) && Tables() == old(Tables())
      ensures ColumnFor(field).None? && field == Str("nextMaint") && FindMachine(old(machines), tag).Some? ==>
        && r == Success(Done("Agendamento atualizado."))
        && schedules == ReplaceSchedule(old(schedules), FindMachine(old(machines), tag).value, ScheduleToInsert(value, decode))
        && Tables().(schedules := []) == old(Tables()).(schedules := [])
      ensures ColumnFor(field).None? && field != Str("nextMaint") ==>
        r == Failure(FieldNotAllowed) && Tables() == old(Tables())
      ensures nextMachineId == old(nextMachineId) && nextEventId == old(nextEventId)
      ensures (Snapshot(), r) == UpdateFieldEffect(old(Snapshot()), tag, field, value, decode)
    {
      var column := ColumnFor(field);
      if column.None? {
        if field == Str("nextMaint") {
          var mid := FindMachine(machines, tag);
          if mid.None? {
            return Failure(MachineNotFound);
          }
          ReplaceScheduleKeepsOnePerMachine(schedules, mid.value, ScheduleToInsert(value, decode));
          schedules := ReplaceSchedule(schedules, mid.value, ScheduleToInsert(value, decode));
          return Success(Done("Agendamento atualizado."));
        }
        return Failure(FieldNotAllowed);
      }
      SetColumnKeepsKeys(machines, nextMachineId, tag, column.value, value);
      machines := SetColumn(machines, tag, column.value, value);
      r := Success(Done("Campo atualizado."));
    }

    /** `handleDeleteMachine`: removes the machines with the tag, if any, and
        always succeeds. */
    method DeleteMachine(tag: Value) returns (r: Response)
      requires Valid()
      modifies this
      ensures Valid()
      ensures r == Success(Done("Máquina deletada."))
      ensures machines == Filter(old(machines), (m: MachineRow) => !TagMatches(m, tag))
      ensures Tables().(machines := []) == old(Tables()).(machines := [])
      ensures nextMachineId == old(nextMachineId) && nextEventId == old(nextEventId)
      ensures (Snapshot(), r) == DeleteMachineEffect(old(Snapshot()), tag)
    {
      DeleteKeepsKeys(machines, nextMachineId, tag);
      machines := Filter(machines, (m: MachineRow) => !TagMatches(m, tag));
      r := Success(Done("Máquina deletada."));
    }

    /** `handleStartMaintenance`: tag and type are required and the tag must
        name a machine; a new open event with no cost is appended and its
        fresh id returned. An event already open on the machine does not
        prevent it. */
    method StartMaintenance(data: Fields) returns (r: Response)
      requires Valid()
      modifies this
      ensures Valid()
      ensures r != Failure(DuplicateTag)
      ensures Missing(data, "tag") || Missing(data, "type") ==>
        r == Failure(MissingFields) && Tables() == old(Tables()) && nextEventId == old(nextEventId)
      ensures !Missing(data, "tag") && !Missing(data, "type") && FindMachine(machines, data["tag"]).None? ==>
        r == Failure(MachineNotFound) && Tables() == old(Tables()) && nextEventId == old(nextEventId)
      ensures !Missing(data, "tag") && !Missing(data, "type") && FindMachine(old(machines), data["tag"]).Some? ==>
        && r == Success(MaintStarted(old(nextEventId)))
        && events == old(events) + [EventRow(old(nextEventId), FindMachine(old(machines), data["tag"]).value,
                                             Field(data, "start_date"), Null, data["type"], Field(data, "desc"),
                                             FieldOr(data, "tecnico", Null), None)]
        && nextEventId == old(nextEventId) + 1
        && Tables().(events := []) == old(Tables()).(events := [])
      ensures r.Success? ==> r.payload.MaintStarted? && forall i :: 0 <= i < |old(events)| ==> r.payload.maintId != old(events)[i].id
      ensures nextMachineId == old(nextMachineId)
      ensures (Snapshot(), r) == StartMaintenanceEffect(old(Snapshot()), data)
    {
      if Missing(data, "tag") || Missing(data, "type") {
        return Failure(MissingFields);
      }
      var mid := FindMachine(machines, data["tag"]);
      if mid.None? {
        return Failure(MachineNotFound);
      }
      var e := EventRow(nextEventId, mid.value, Field(data, "start_date"), Null, data["type"],
                        Field(data, "desc"), FieldOr(data, "tecnico", Null), None);
      AppendEventKeepsKeys(events, nextEventId, e);
      events := events + [e];
      r := Success(MaintStarted(nextEventId));
      nextEventId := nextEventId + 1;
    }

    /** `handleAddMaintStep`: maint_id and description are required; the step
        is appended, stamped `now`, and returned with that stamp as the server
        formats it. The event id is not checked against the events. */
    method AddMaintStep(data: Fields, now: Stamp) returns (r: Response)
      requires Valid()
      modifies this
      ensures Valid()
      ensures r != Failure(DuplicateTag)
      ensures Missing(data, "maint_id") || Missing(data, "description") ==>
        r == Failure(MissingFields) && Tables() == old(Tables())
      ensures !Missing(data, "maint_id") && !Missing(data, "description") ==>
        && r == Success(StepAdded(Entry(FormatDmyHis(now), data["description"])))
        && steps == old(steps) + [StepRow(data["maint_id"], now, data["description"])]
        && Tables().(steps := []) == old(Tables()).(steps := [])
      ensures nextMachineId == old(nextMachineId) && nextEventId == old(nextEventId)
      ensures (Snapshot(), r) == AddMaintStepEffect(old(Snapshot()), data, now)
    {
      if Missing(data, "maint_id") || Missing(data, "description") {
        return Failure(MissingFields);
      }
      steps := steps + [StepRow(data["maint_id"], now, data["description"])];
      r := Success(StepAdded(Entry(FormatDmyHis(now), data["description"])));
    }

    /** The fields an end request must carry. */
    static predicate EndFieldsPresent(data: Fields) {
      !Missing(data, "tag") && !Missing(data, "end_date") && !Missing(data, "maint_id")
    }

    /** Whether an end request with these fields would find no open event
        to close. */
    predicate EndWouldFail(data: Fields)
      reads this
    {
      match FindMachine(machines, Field(data, "tag"))
      case None => true
      case Some(mid) => Affected(events, Field(data, "maint_id"), mid) == 0
    }

    /** `handleEndMaintenance`: tag, end_date and maint_id are required and
        the tag must name a machine; then the conditional update closes the
        event only while its end date is unset, and no affected row is an
        error. After a success, the same request fails. */
    method EndMaintenance(data: Fields, toFloat: string -> real) returns (r: Response)
      requires Valid()
      modifies this
      ensures Valid()
      ensures r != Failure(DuplicateTag)
      ensures !EndFieldsPresent(data) ==> r == Failure(MissingFields) && Tables() == old(Tables())
      ensures EndFieldsPresent(data) && FindMachine(machines, data["tag"]).None? ==>
        r == Failure(MachineNotFound) && Tables() == old(Tables())
      ensures EndFieldsPresent(data) && FindMachine(old(machines), data["tag"]).Some? ==>
        var mid := FindMachine(old(machines), data["tag"]).value;
        if Affected(old(events), data["maint_id"], mid) == 0 then
          r == Failure(NoActiveMaintenance) && Tables() == old(Tables())
        else
          && r == Success(Done("Manutenção finalizada."))
          && Affected(old(events), data["maint_id"], mid) == 1
          && events == CloseEvents(old(events), data["maint_id"], mid, data["end_date"], EndCost(data, toFloat))
          && Tables().(events := []) == old(Tables()).(events := [])
      ensures r.Success? ==> EndWouldFail(data)
      ensures nextMachineId == old(nextMachineId) && nextEventId == old(nextEventId)
      ensures (Snapshot(), r) == EndMaintenanceEffect(old(Snapshot()), data, toFloat)
    {
      if !EndFieldsPresent(data) {
        return Failure(MissingFields);
      }
      var mid := FindMachine(machines, data["tag"]);
      if mid.None? {
        return Failure(MachineNotFound);
      }
      var cost := EndCost(data, toFloat);
      var affected := Affected(events, data["maint_id"], mid.value);
      if affected == 0 {
        return Failure(NoActiveMaintenance);
      }
      AffectedAtMostOne(events, data["maint_id"], mid.value);
      CloseTwiceAffectsNone(events, data["maint_id"], mid.value, data["end_date"], cost, Null, None);
      events := CloseEvents(events, data["maint_id"], mid.value, data["end_date"], cost);
      r := Success(Done("Manutenção finalizada."));
    }

    /** `handleBatchAddMachines`: a value that is not an array, or an empty
        one, is refused; otherwise rows with an empty id or name are skipped
        and every other row is upserted by tag, in order, and counted. No
        statement of the loop can fail here, so the transaction always
        commits. */
    method BatchAddMachines(input: Option<seq<Fields>>) returns (r: Response)
      requires Valid()
      modifies this
      ensures Valid()
      ensures r != Failure(DuplicateTag)
      ensures input.None? || input == Some([]) ==> r == Failure(NoMachineData) && Tables() == old(Tables())
      ensures input.Some? && input.value != [] ==>
        && r == Success(Imported(Count(input.value, RowAccepted)))
        && (machines, nextMachineId) == UpsertAll(old(machines), old(nextMachineId), input.value)
        && Tables().(machines := []) == old(Tables()).(machines := [])
      ensures nextEventId == old(nextEventId)
      ensures (Snapshot(), r) == BatchAddMachinesEffect(old(Snapshot()), input)
    {
      if input.None? || input.value == [] {
        return Failure(NoMachineData);
      }
      var rows := input.value;
      var count := 0;
      var i := 0;
      while i < |rows|
        invariant 0 <= i <= |rows|
        invariant count == Count(rows[..i], RowAccepted)
        invariant (machines, nextMachineId) == UpsertAll(old(machines), old(nextMachineId), rows[..i])
        invariant Valid()
        invariant Tables().(machines := []) == old(Tables()).(machines := [])
        invariant nextEventId == old(nextEventId)
      {
        var row := rows[i];
        UpsertAllStep(old(machines), old(nextMachineId), rows, i);
        CountPrefix(rows, i, RowAccepted);
        if RowAccepted(row) {
          UpsertKeepsKeys(machines, nextMachineId, AsText(row["id"]), BatchMachineCols(row));
          var up := Upsert(machines, nextMachineId, AsText(row["id"]), BatchMachineCols(row));
          machines, nextMachineId := up.0, up.1;
          count := count + 1;
        }
        i := i + 1;
      }
      assert rows[..i] == rows;
      r := Success(Imported(count));
    }

    /** `handleGetMachines`: the tables as the browser receives them. */
    function ListMachines(now: Stamp): (ms: seq<MachineView>)
      reads this
      ensures |ms| == |machines|
      ensures forall i :: 0 <= i < |ms| ==> ms[i] == MachineViewOf(Tables(), machines[i], now)
    {
      GetMachines(Tables(), now)
    }

    /** The dispatcher: the route of (method, action) picks the handler, and
        the outcome picks the status code. */
    method Handle(verb: string, body: Body, now: Stamp, toFloat: string -> real, decode: string -> Option<Fields>)
      returns (status: int, r: Response)
      requires Valid()
      modifies this
      ensures Valid()
      ensures status == HttpStatus(r)
      ensures RouteOf(verb, body.action) == Route.Preflight ==> r == Success(NoBody) && Tables() == old(Tables())
      ensures RouteOf(verb, body.action) == Route.ListMachines ==>
        r == Success(Machines(GetMachines(old(Tables()), now))) && Tables() == old(Tables())
      ensures RouteOf(verb, body.action) == Route.UnknownAction ==>
        r == Failure(UnknownActionError) && Tables() == old(Tables())
      ensures RouteOf(verb, body.action) == Route.BadMethod ==>
        status == 405 && Tables() == old(Tables())
      ensures status == 500 ==> RouteOf(verb, body.action) == Route.AddMachine && Tables() == old(Tables())
      ensures (Snapshot(), r) == Dispatch(old(Snapshot()), verb, body, now, toFloat, decode)
    {
      var route := RouteOf(verb, body.action);
      match route {
      case Preflight => r := Success(NoBody);
      case ListMachines => r := Success(Machines(GetMachines(Tables(), now)));
      case AddMachine => r := AddMachine(FieldsOf(body.data));
      case AddHistory => r := AddHistory(FieldsOf(body.data), now);
      case StartMaintenance => r := StartMaintenance(FieldsOf(body.data));
      case BatchAddMachines => r := BatchAddMachines(BatchInput(body.data));
      case UpdateField => r := UpdateField(body.tag, body.field, body.value, decode);
      case AddMaintStep => r := AddMaintStep(FieldsOf(body.data), now);
      case EndMaintenance => r := EndMaintenance(FieldsOf(body.data), toFloat);
      case DeleteMachine => r := DeleteMachine(body.tag);
      case UnknownAction => r := Failure(UnknownActionError);
      case BadMethod => r := Failure(MethodNotAllowed);
      }
      status := HttpStatus(r);
    }
  }
}
