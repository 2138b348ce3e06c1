/** The data the maintenance backend (backend/api.php) works on: request
    values as PHP sees them after `json_decode`, the five tables it reads and
    writes (maquinas, agendamentos, manutencoes, passos_manutencao,
    historico), and the effect of each SQL statement it issues, stated as a
    function of the table before the statement. */
module ApiTables {
  import opened Text
  import opened Sorting
  import opened Stamps

  // ---------------------------------------------------------------------
  // Request values
  // ---------------------------------------------------------------------

  /** A JSON scalar as PHP holds it after decoding. */
  datatype Value = Null | Str(s: string) | Num(n: int)

  /** A JSON object of scalars: the `data` member of a request body. */
  type Fields = map<string, Value>

  /** PHP's `empty()` on a value: null, "", "0" and 0 are empty. */
  predicate IsEmptyValue(v: Value) {
    v == Null || v == Str("") || v == Str("0") || v == Num(0)
  }

  /** `$data[key]`: a missing key reads as null. */
  function Field(d: Fields, key: string): Value {
    if key in d then d[key] else Null
  }

  /** `empty($data[key])`. */
  predicate Missing(d: Fields, key: string) { IsEmptyValue(Field(d, key)) }

  /** `isset($data[key])`: present and not null. */
  predicate IsSet(d: Fields, key: string) { Field(d, key) != Null }

  /** `isset($data[key]) ? $data[key] : default`. */
  function FieldOr(d: Fields, key: string, default: Value): (v: Value)
    ensures v == Null ==> default == Null
  {
    if IsSet(d, key) then d[key] else default
  }

  /** A value converted to a string, as `str_replace` does with its subject
      and as PDO binds a parameter passed to `execute`. */
  function AsText(v: Value): string {
    match v
    case Null => ""
    case Str(s) => s
    case Num(n) => if n < 0 then "-" + DecimalText(-n) else DecimalText(n)
  }

  /** PHP's `(int)` cast: a number is kept, a string gives its leading
      integer (0 when it has none), null gives 0. */
  function PhpInt(v: Value): int {
    match v
    case Null => 0
    case Num(n) => n
    case Str(s) => ParseLeadingInt(s).GetOr(0)
  }

  /** `WHERE id = :ref` against an integer id: the reference may arrive as a
      number or as the decimal text of one. */
  predicate IdMatches(id: nat, ref: Value) {
    ref == Num(id) || ref == Str(DecimalText(id))
  }

  /** A reference matches at most one id. */
  lemma IdMatchesUnique(a: nat, b: nat, ref: Value)
    requires IdMatches(a, ref) && IdMatches(b, ref)
    ensures a == b
  {
    if ref.Str? {
      DecimalTextValue(a);
      DecimalTextValue(b);
    }
  }

  // ---------------------------------------------------------------------
  // Rows
  // ---------------------------------------------------------------------

  /** The columns of `maquinas` that requests may write. */
  datatype Column = Nome | Descricao | HorasUso | Status

  /** A machine: internal id, external tag (the text stored in the tag
      column), and its other columns. */
  datatype MachineRow = MachineRow(id: nat, tag: string, cols: map<Column, Value>)

  function Cell(row: MachineRow, c: Column): Value {
    if c in row.cols then row.cols[c] else Null
  }

  /** A scheduled maintenance (agendamentos). */
  datatype ScheduleRow = ScheduleRow(machineId: nat, date: Value, note: Value)

  /** A maintenance event (manutencoes); `endDate == Null` means still open. */
  datatype EventRow = EventRow(id: nat, machineId: nat, startDate: Value, endDate: Value,
                               serviceType: Value, notes: Value, technician: Value, cost: Option<real>)

  /** A maintenance step (passos_manutencao), stamped by the server. */
  datatype StepRow = StepRow(eventRef: Value, at: Stamp, description: Value)

  /** A history entry (historico), stamped by the server. */
  datatype HistoryRow = HistoryRow(machineId: nat, at: Stamp, description: Value)

  function MachineIdOf(m: MachineRow): nat { m.id }
  function MachineTagOf(m: MachineRow): string { m.tag }
  function EventIdOf(e: EventRow): nat { e.id }
  function ScheduleOwner(s: ScheduleRow): nat { s.machineId }

  /** No two elements share a key. */
  ghost predicate DistinctBy<T, K>(s: seq<T>, key: T -> K) {
    forall i, j :: 0 <= i < j < |s| ==> key(s[i]) != key(s[j])
  }

  lemma {:induction false} FilterKeepsDistinct<T(!new), K>(s: seq<T>, p: T -> bool, key: T -> K)
    requires DistinctBy(s, key)
    ensures DistinctBy(Filter(s, p), key)
  {
    if |s| > 0 {
      var init := s[..|s| - 1];
      var last := s[|s| - 1];
      FilterKeepsDistinct(init, p, key);
      var f := Filter(init, p);
      forall i | 0 <= i < |f| ensures key(f[i]) != key(last) {
        var k :| 0 <= k < |init| && init[k] == f[i];
      }
    }
  }

  // ---------------------------------------------------------------------
  // SELECT id FROM maquinas WHERE tag = ?
  // ---------------------------------------------------------------------

  /** `WHERE tag = :tag`: the parameter is bound as its text, so the number
      1001 and the text "1001" name the same machine; SQL's `= NULL` matches
      no row. */
  predicate TagMatches(m: MachineRow, tag: Value) { tag != Null && m.tag == AsText(tag) }

  /** The internal id of the first machine with the tag, if any. */
  function FindMachine(ms: seq<MachineRow>, tag: Value): (r: Option<nat>)
    ensures r.None? <==> forall i :: 0 <= i < |ms| ==> !TagMatches(ms[i], tag)
    ensures r.Some? ==> exists i :: 0 <= i < |ms| && TagMatches(ms[i], tag) && ms[i].id == r.value
  {
    if |ms| == 0 then None
    else if TagMatches(ms[0], tag) then Some(ms[0].id)
    else
      var r := FindMachine(ms[1..], tag);
      assert forall i :: 1 <= i < |ms| ==> ms[i] == ms[1..][i - 1];
      r
  }

  // ---------------------------------------------------------------------
  // INSERT INTO maquinas (add_machine, and the insert half of the batch)
  // ---------------------------------------------------------------------

  /** The columns `add_machine` writes: name as given, capacity or null,
      quantity or 1, status or 'OK'. */
  function NewMachineCols(d: Fields): (cols: map<Column, Value>)
    ensures cols.Keys == {Nome, Descricao, HorasUso, Status}
    ensures cols[HorasUso] == (if IsSet(d, "quantity") then d["quantity"] else Num(1))
    ensures cols[Status] == (if IsSet(d, "status") then d["status"] else Str("OK"))
  {
    map[Nome := Field(d, "name"), Descricao := FieldOr(d, "capacity", Null),
        HorasUso := FieldOr(d, "quantity", Num(1)), Status := FieldOr(d, "status", Str("OK"))]
  }

  /** The columns a batch row writes: as for `add_machine`, except that the
      quantity goes through PHP's `(int)` cast. */
  function BatchMachineCols(d: Fields): (cols: map<Column, Value>)
    ensures cols.Keys == {Nome, Descricao, HorasUso, Status}
    ensures cols[HorasUso] == Num(if IsSet(d, "quantity") then PhpInt(d["quantity"]) else 1)
    ensures cols[Status] == (if IsSet(d, "status") then d["status"] else Str("OK"))
  {
    map[Nome := Field(d, "name"), Descricao := FieldOr(d, "capacity", Null),
        HorasUso := Num(if IsSet(d, "quantity") then PhpInt(d["quantity"]) else 1),
        Status := FieldOr(d, "status", Str("OK"))]
  }

  // ---------------------------------------------------------------------
  // UPDATE maquinas SET <column> = :value WHERE tag = :tag
  // ---------------------------------------------------------------------

  /** The column an `update_field` request names: the browser's names
      (name, capacity, manufacturer, quantity, status) are mapped, and a name
      already equal to an allowed column passes the allow-list as it is. */
  function ColumnFor(field: Value): (c: Option<Column>)
    ensures c == Some(Nome) <==> field in {Str("name"), Str("nome")}
    ensures c == Some(Descricao) <==> field in {Str("capacity"), Str("manufacturer"), Str("descricao")}
    ensures c == Some(HorasUso) <==> field in {Str("quantity"), Str("horas_uso")}
    ensures c == Some(Status) <==> field == Str("status")
  {
    match field
    case Str(f) =>
      if f == "name" || f == "nome" then Some(Nome)
      else if f == "capacity" || f == "manufacturer" || f == "descricao" then Some(Descricao)
      else if f == "quantity" || f == "horas_uso" then Some(HorasUso)
      else if f == "status" then Some(Status)
      else None
    case _ => None
  }

  /** Every row whose tag matches gets the new value in column `c`; nothing
      else changes, and no row is added or removed. */
  function SetColumn(ms: seq<MachineRow>, tag: Value, c: Column, v: Value): (r: seq<MachineRow>)
    ensures |r| == |ms|
    ensures forall i :: 0 <= i < |ms| ==> r[i].id == ms[i].id && r[i].tag == ms[i].tag
    ensures forall i :: 0 <= i < |ms| ==> Cell(r[i], c) == if TagMatches(ms[i], tag) then v else Cell(ms[i], c)
    ensures forall i, c' :: 0 <= i < |ms| && c' != c ==> Cell(r[i], c') == Cell(ms[i], c')
  {
    seq(|ms|, i requires 0 <= i < |ms| =>
      if TagMatches(ms[i], tag) then ms[i].(cols := ms[i].cols[c := v]) else ms[i])
  }

  // ---------------------------------------------------------------------
  // The batch import: INSERT ... ON DUPLICATE KEY UPDATE, keyed by tag
  // ---------------------------------------------------------------------

  /** A batch row is used only when both its id (tag) and name are non-empty. */
  predicate RowAccepted(d: Fields) { !Missing(d, "id") && !Missing(d, "name") }

  /** Some machine already holds the tag text (the unique key). */
  predicate HasTag(ms: seq<MachineRow>, tag: string) {
    exists i :: 0 <= i < |ms| && ms[i].tag == tag
  }

  /** Inserts a machine under a fresh id, or overwrites the columns of the
      machine that already has the tag. */
  function Upsert(ms: seq<MachineRow>, nextId: nat, tag: string, cols: map<Column, Value>): (r: (seq<MachineRow>, nat))
    ensures HasTag(r.0, tag)
    ensures r.1 >= nextId
    ensures HasTag(ms, tag) ==> r.1 == nextId && |r.0| == |ms|
    ensures !HasTag(ms, tag) ==> r.1 == nextId + 1 && r.0 == ms + [MachineRow(nextId, tag, cols)]
    ensures forall i :: 0 <= i < |ms| ==> r.0[i].id == ms[i].id && r.0[i].tag == ms[i].tag
    ensures forall i :: 0 <= i < |ms| ==> r.0[i].cols == if ms[i].tag == tag then ms[i].cols + cols else ms[i].cols
  {
    if HasTag(ms, tag) then
      var updated := seq(|ms|, i requires 0 <= i < |ms| =>
        if ms[i].tag == tag then ms[i].(cols := ms[i].cols + cols) else ms[i]);
      assert HasTag(updated, tag) by {
        var j :| 0 <= j < |ms| && ms[j].tag == tag;
        assert updated[j].tag == tag;
      }
      (updated, nextId)
    else
      var r := ms + [MachineRow(nextId, tag, cols)];
      assert r[|ms|].tag == tag;
      (r, nextId + 1)
  }

  /** The accepted rows of a batch, upserted in order. */
  function UpsertAll(ms: seq<MachineRow>, nextId: nat, rows: seq<Fields>): (r: (seq<MachineRow>, nat))
  {
    if |rows| == 0 then (ms, nextId)
    else
      var before := UpsertAll(ms, nextId, rows[..|rows| - 1]);
      var last := rows[|rows| - 1];
      if RowAccepted(last) then Upsert(before.0, before.1, AsText(Field(last, "id")), BatchMachineCols(last))
      else before
  }

  /** One row more of a batch: the batch so far, then that row upserted
      when it is accepted. */
  lemma UpsertAllStep(ms: seq<MachineRow>, nextId: nat, rows: seq<Fields>, i: nat)
    requires i < |rows|
    ensures var before := UpsertAll(ms, nextId, rows[..i]);
      UpsertAll(ms, nextId, rows[..i + 1])
        == if RowAccepted(rows[i]) then Upsert(before.0, before.1, AsText(Field(rows[i], "id")), BatchMachineCols(rows[i]))
           else before
  {
    assert rows[..i + 1][..i] == rows[..i];
  }

  /** After a batch, every accepted row's tag names a machine, every machine
      there before is still there under the same id and tag, and at most one
      new machine was added per accepted row. */
  lemma {:induction false} UpsertAllEffect(ms: seq<MachineRow>, nextId: nat, rows: seq<Fields>)
    ensures var r := UpsertAll(ms, nextId, rows);
      && |ms| <= |r.0| <= |ms| + Count(rows, RowAccepted)
      && (forall i :: 0 <= i < |ms| ==> r.0[i].id == ms[i].id && r.0[i].tag == ms[i].tag)
      && (forall k :: 0 <= k < |rows| && RowAccepted(rows[k]) ==> HasTag(r.0, AsText(Field(rows[k], "id"))))
  {
    if |rows| > 0 {
      var init := rows[..|rows| - 1];
      var last := rows[|rows| - 1];
      UpsertAllEffect(ms, nextId, init);
      var before := UpsertAll(ms, nextId, init);
      if RowAccepted(last) {
        var after := Upsert(before.0, before.1, AsText(Field(last, "id")), BatchMachineCols(last));
        forall k | 0 <= k < |rows| && RowAccepted(rows[k]) ensures HasTag(after.0, AsText(Field(rows[k], "id"))) {
          if k < |rows| - 1 {
            assert rows[k] == init[k];
            var j :| 0 <= j < |before.0| && before.0[j].tag == AsText(Field(rows[k], "id"));
            assert after.0[j].tag == before.0[j].tag;
          }
        }
      } else {
        forall k | 0 <= k < |rows| && RowAccepted(rows[k]) ensures HasTag(before.0, AsText(Field(rows[k], "id"))) {
          assert k < |rows| - 1 && rows[k] == init[k];
        }
      }
    }
  }

  /** Machine ids are positive and below the next id to hand out, and no
      id or tag occurs twice. */
  ghost predicate MachineKeysOk(ms: seq<MachineRow>, nextId: nat) {
    (forall i :: 0 <= i < |ms| ==> 1 <= ms[i].id < nextId)
    && DistinctBy(ms, MachineIdOf) && DistinctBy(ms, MachineTagOf)
  }

  /** An upsert keeps the keys sound. */
  lemma UpsertKeepsKeys(ms: seq<MachineRow>, nextId: nat, tag: string, cols: map<Column, Value>)
    requires MachineKeysOk(ms, nextId) && 1 <= nextId
    ensures MachineKeysOk(Upsert(ms, nextId, tag, cols).0, Upsert(ms, nextId, tag, cols).1)
  {
    var r := Upsert(ms, nextId, tag, cols);
    if !HasTag(ms, tag) {
      assert forall i :: 0 <= i < |ms| ==> r.0[i] == ms[i];
    }
  }

  /** A whole batch keeps the keys sound. */
  lemma {:induction false} UpsertAllKeepsKeys(ms: seq<MachineRow>, nextId: nat, rows: seq<Fields>)
    requires MachineKeysOk(ms, nextId) && 1 <= nextId
    ensures MachineKeysOk(UpsertAll(ms, nextId, rows).0, UpsertAll(ms, nextId, rows).1)
    ensures UpsertAll(ms, nextId, rows).1 >= nextId
  {
    if |rows| > 0 {
      var init := rows[..|rows| - 1];
      var last := rows[|rows| - 1];
      UpsertAllKeepsKeys(ms, nextId, init);
      var before := UpsertAll(ms, nextId, init);
      if RowAccepted(last) {
        UpsertKeepsKeys(before.0, before.1, AsText(Field(last, "id")), BatchMachineCols(last));
      }
    }
  }

  /** Deleting rows keeps the keys sound. */
  lemma DeleteKeepsKeys(ms: seq<MachineRow>, nextId: nat, tag: Value)
    requires MachineKeysOk(ms, nextId)
    ensures MachineKeysOk(Filter(ms, (m: MachineRow) => !TagMatches(m, tag)), nextId)
  {
    FilterKeepsDistinct(ms, (m: MachineRow) => !TagMatches(m, tag), MachineIdOf);
    FilterKeepsDistinct(ms, (m: MachineRow) => !TagMatches(m, tag), MachineTagOf);
  }

  /** Updating a column keeps the keys sound. */
  lemma SetColumnKeepsKeys(ms: seq<MachineRow>, nextId: nat, tag: Value, c: Column, v: Value)
    requires MachineKeysOk(ms, nextId)
    ensures MachineKeysOk(SetColumn(ms, tag, c, v), nextId)
  {
    var r := SetColumn(ms, tag, c, v);
    assert forall i :: 0 <= i < |ms| ==> MachineIdOf(r[i]) == MachineIdOf(ms[i]) && MachineTagOf(r[i]) == MachineTagOf(ms[i]);
  }

  /** With sound keys, a tag names at most one machine, so the first match
      is the match. */
  lemma FindMachineUnique(ms: seq<MachineRow>, nextId: nat, k: nat)
    requires MachineKeysOk(ms, nextId) && k < |ms|
    ensures FindMachine(ms, Str(ms[k].tag)) == Some(ms[k].id)
  {
    var r := FindMachine(ms, Str(ms[k].tag));
    var i :| 0 <= i < |ms| && TagMatches(ms[i], Str(ms[k].tag)) && ms[i].id == r.value;
    assert MachineTagOf(ms[i]) == MachineTagOf(ms[k]);
  }

  /** Event ids are positive, below the next id, and unique. */
  ghost predicate EventKeysOk(evs: seq<EventRow>, nextId: nat) {
    (forall i :: 0 <= i < |evs| ==> 1 <= evs[i].id < nextId) && DistinctBy(evs, EventIdOf)
  }

  /** Appending an event numbered with the next id keeps the keys sound,
      and that id is not yet taken. */
  lemma AppendEventKeepsKeys(evs: seq<EventRow>, nextId: nat, e: EventRow)
    requires 1 <= nextId && EventKeysOk(evs, nextId) && e.id == nextId
    ensures EventKeysOk(evs + [e], nextId + 1)
    ensures forall i :: 0 <= i < |evs| ==> evs[i].id != nextId
  {
    var r := evs + [e];
    assert forall i :: 0 <= i < |evs| ==> r[i] == evs[i];
  }

  // ---------------------------------------------------------------------
  // agendamentos: DELETE ... WHERE maquina_id = ?, then maybe one INSERT
  // ---------------------------------------------------------------------

  function SchedulesOf(ss: seq<ScheduleRow>, mid: nat): seq<ScheduleRow> {
    Filter(ss, (s: ScheduleRow) => s.machineId == mid)
  }

  /** The `nextMaint` pseudo-field: a truthy value other than the text
      'null' that decodes to an object with a `date` yields the (date, note)
      pair to insert; anything else clears the schedule. `decode` stands for
      `json_decode`, giving the object or `None`. */
  function ScheduleToInsert(value: Value, decode: string -> Option<Fields>): (r: Option<(Value, Value)>)
    ensures r.Some? ==> !IsEmptyValue(value) && value != Str("null") && value.Str?
    ensures r.Some? ==> r.value.0 != Null
    ensures (value.Str? && !IsEmptyValue(value) && value != Str("null") && decode(value.s).Some?
             && IsSet(decode(value.s).value, "date"))
      ==> r == Some((decode(value.s).value["date"], Field(decode(value.s).value, "desc")))
  {
    if IsEmptyValue(value) || value == Str("null") then None
    else match value
      case Str(s) =>
        (match decode(s)
         case Some(obj) => if IsSet(obj, "date") then Some((obj["date"], Field(obj, "desc"))) else None
         case None => None)
      case _ => None
  }

  /** Deletes every schedule of machine `mid`, then inserts the new one if
      there is one. */
  function ReplaceSchedule(ss: seq<ScheduleRow>, mid: nat, ins: Option<(Value, Value)>): seq<ScheduleRow> {
    Filter(ss, (s: ScheduleRow) => s.machineId != mid)
      + (if ins.Some? then [ScheduleRow(mid, ins.value.0, ins.value.1)] else [])
  }

  lemma {:induction false} FilterNone<T(!new)>(s: seq<T>, p: T -> bool)
    requires forall i :: 0 <= i < |s| ==> !p(s[i])
    ensures Filter(s, p) == []
  {
    if |s| > 0 {
      FilterNone(s[..|s| - 1], p);
    }
  }

  lemma {:induction false} FilterOfFilter<T(!new)>(s: seq<T>, q: T -> bool, p: T -> bool)
    requires forall i :: 0 <= i < |s| && p(s[i]) ==> q(s[i])
    ensures Filter(Filter(s, q), p) == Filter(s, p)
  {
    if |s| > 0 {
      var init := s[..|s| - 1];
      var last := s[|s| - 1];
      assert forall i :: 0 <= i < |init| ==> init[i] == s[i];
      FilterOfFilter(init, q, p);
      var f := Filter(init, q);
      var tail := if q(last) then [last] else [];
      assert Filter(s, q) == f + tail;
      FilterAppend(f, tail, p);
      if q(last) {
        assert Filter(tail, p) == Filter([], p) + (if p(last) then [last] else []);
      }
    }
  }

  /** The schedule is replaced, not accumulated: afterwards the machine has
      exactly the new schedule, or none when the value cleared it, and every
      other machine keeps its schedules. */
  lemma ReplaceScheduleEffect(ss: seq<ScheduleRow>, mid: nat, ins: Option<(Value, Value)>, other: nat)
    requires other != mid
    ensures SchedulesOf(ReplaceSchedule(ss, mid, ins), mid)
      == if ins.Some? then [ScheduleRow(mid, ins.value.0, ins.value.1)] else []
    ensures SchedulesOf(ReplaceSchedule(ss, mid, ins), other) == SchedulesOf(ss, other)
  {
    var kept := Filter(ss, (s: ScheduleRow) => s.machineId != mid);
    var tail := if ins.Some? then [ScheduleRow(mid, ins.value.0, ins.value.1)] else [];
    var isMid := (s: ScheduleRow) => s.machineId == mid;
    var isOther := (s: ScheduleRow) => s.machineId == other;
    FilterNone(kept, isMid);
    FilterAppend(kept, tail, isMid);
    FilterAppend(kept, tail, isOther);
    if ins.Some? {
      FilterAll(tail, isMid);
      FilterNone(tail, isOther);
    }
    FilterOfFilter(ss, (s: ScheduleRow) => s.machineId != mid, isOther);
  }

  lemma {:induction false} FilterAppend<T(!new)>(a: seq<T>, b: seq<T>, p: T -> bool)
    ensures Filter(a + b, p) == Filter(a, p) + Filter(b, p)
    decreases |b|
  {
    if |b| > 0 {
      var b' := b[..|b| - 1];
      FilterAppend(a, b', p);
      assert (a + b)[..|a + b| - 1] == a + b';
    } else {
      assert a + b == a;
    }
  }

  /** Setting a schedule twice leaves exactly the second one. */
  lemma ScheduleTwiceLeavesOne(ss: seq<ScheduleRow>, mid: nat, first: Option<(Value, Value)>, second: (Value, Value))
    ensures SchedulesOf(ReplaceSchedule(ReplaceSchedule(ss, mid, first), mid, Some(second)), mid)
      == [ScheduleRow(mid, second.0, second.1)]
  {
    ReplaceScheduleEffect(ReplaceSchedule(ss, mid, first), mid, Some(second), mid + 1);
  }

  /** At most one schedule per machine survives a replacement. */
  lemma ReplaceScheduleKeepsOnePerMachine(ss: seq<ScheduleRow>, mid: nat, ins: Option<(Value, Value)>)
    requires DistinctBy(ss, ScheduleOwner)
    ensures DistinctBy(ReplaceSchedule(ss, mid, ins), ScheduleOwner)
  {
    var kept := Filter(ss, (s: ScheduleRow) => s.machineId != mid);
    FilterKeepsDistinct(ss, (s: ScheduleRow) => s.machineId != mid, ScheduleOwner);
  }

  // ---------------------------------------------------------------------
  // UPDATE manutencoes SET data_fim, custo_total
  //   WHERE id = :maint_id AND maquina_id = :maquina_id AND data_fim IS NULL
  // ---------------------------------------------------------------------

  predicate OpenMatch(e: EventRow, ref: Value, mid: nat) {
    IdMatches(e.id, ref) && e.machineId == mid && e.endDate == Null
  }

  /** The number of rows the conditional update affects. */
  function Affected(evs: seq<EventRow>, ref: Value, mid: nat): nat {
    Count(evs, (e: EventRow) => OpenMatch(e, ref, mid))
  }

  /** The conditional update: open events with that id and machine get the
      end date and cost; every other event is left as it was. */
  function CloseEvents(evs: seq<EventRow>, ref: Value, mid: nat, end: Value, cost: Option<real>): (r: seq<EventRow>)
    ensures |r| == |evs|
    ensures forall i :: 0 <= i < |evs| && !OpenMatch(evs[i], ref, mid) ==> r[i] == evs[i]
    ensures forall i :: 0 <= i < |evs| && OpenMatch(evs[i], ref, mid) ==>
      r[i] == evs[i].(endDate := end, cost := cost)
  {
    seq(|evs|, i requires 0 <= i < |evs| =>
      if OpenMatch(evs[i], ref, mid) then evs[i].(endDate := end, cost := cost) else evs[i])
  }

  /** The compare-and-swap closes once: after an end with a non-null end
      date, the same request affects no row, so a second end fails. */
  lemma CloseTwiceAffectsNone(evs: seq<EventRow>, ref: Value, mid: nat, end: Value, cost: Option<real>,
                              end2: Value, cost2: Option<real>)
    requires end != Null
    ensures Affected(CloseEvents(evs, ref, mid, end, cost), ref, mid) == 0
    ensures CloseEvents(CloseEvents(evs, ref, mid, end, cost), ref, mid, end2, cost2)
      == CloseEvents(evs, ref, mid, end, cost)
  {
    var r := CloseEvents(evs, ref, mid, end, cost);
    CountNone(r, (e: EventRow) => OpenMatch(e, ref, mid));
  }

  /** With unique event ids the update affects at most one row. */
  lemma {:induction false} AffectedAtMostOne(evs: seq<EventRow>, ref: Value, mid: nat)
    requires DistinctBy(evs, EventIdOf)
    ensures Affected(evs, ref, mid) <= 1
  {
    if |evs| > 0 {
      var init := evs[..|evs| - 1];
      var last := evs[|evs| - 1];
      AffectedAtMostOne(init, ref, mid);
      if OpenMatch(last, ref, mid) {
        forall i | 0 <= i < |init| ensures !OpenMatch(init[i], ref, mid) {
          assert EventIdOf(evs[i]) != EventIdOf(evs[|evs| - 1]);
          if OpenMatch(init[i], ref, mid) {
            IdMatchesUnique(init[i].id, last.id, ref);
          }
        }
        CountNone(init, (e: EventRow) => OpenMatch(e, ref, mid));
      }
    }
  }

  /** `str_replace(',', '.', s)`: comma decimal separators become dots. */
  function NormalizeDecimal(s: string): (r: string)
    ensures |r| == |s| && ',' !in r
    ensures forall i :: 0 <= i < |s| && s[i] != ',' ==> r[i] == s[i]
  {
    seq(|s|, i requires 0 <= i < |s| => if s[i] == ',' then '.' else s[i])
  }

  /** Two amounts written the same way except for comma or dot decimal
      separators normalise to the same text. */
  lemma NormalizeDecimalSeparators(a: string, b: string)
    requires |a| == |b|
    requires forall i :: 0 <= i < |a| ==> a[i] == b[i] || (a[i] in ",." && b[i] in ",.")
    ensures NormalizeDecimal(a) == NormalizeDecimal(b)
  {
  }

  /** The cost an `end_maintenance` request stores: unset when absent,
      otherwise the number `toFloat` (PHP's `(float)` cast) reads from the
      text with commas turned into dots, and unset again when that is
      negative. */
  function EndCost(d: Fields, toFloat: string -> real): (c: Option<real>)
    ensures c.Some? ==> c.value >= 0.0
    ensures c.Some? <==> IsSet(d, "cost") && toFloat(NormalizeDecimal(AsText(d["cost"]))) >= 0.0
    ensures c.Some? ==> c.value == toFloat(NormalizeDecimal(AsText(d["cost"])))
  {
    if !IsSet(d, "cost") then None
    else
      var c := toFloat(NormalizeDecimal(AsText(d["cost"])));
      if c < 0.0 then None else Some(c)
  }

  /** "150,99" and "150.99" are stored as the same cost. */
  lemma CommaCostEqualsDotCost(toFloat: string -> real)
    ensures EndCost(map["cost" := Str("150,99")], toFloat) == EndCost(map["cost" := Str("150.99")], toFloat)
  {
    NormalizeDecimalSeparators("150,99", "150.99");
  }
}
