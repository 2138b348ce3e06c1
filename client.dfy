/** The machine objects the two browser scripts (src/assets/scripts/script.js
    and src/assets/scripts/dashboard.js) work on: the JSON the backend's GET
    sends, as JavaScript values, and the JavaScript conversions the scripts
    apply to them. */
module Client {
  import opened Text

  /** A JSON scalar as JavaScript holds it, plus `undefined` for a missing
      property. */
  datatype Js = Undef | Nil | Str(s: string) | Num(n: int)

  /** A value `if (v)` accepts: a non-empty string or a non-zero number. */
  predicate Truthy(v: Js) {
    (v.Str? && v.s != "") || (v.Num? && v.n != 0)
  }

  /** `String(v)`. */
  function AsString(v: Js): string {
    match v
    case Undef => "undefined"
    case Nil => "null"
    case Str(s) => s
    case Num(n) => if n < 0 then "-" + DecimalText(-n) else DecimalText(n)
  }

  /** `(v || '').toString()`: the text of a truthy value, else empty. */
  function TextOrEmpty(v: Js): (r: string)
    ensures !Truthy(v) ==> r == ""
    ensures v.Str? ==> r == v.s
  {
    if Truthy(v) then AsString(v) else ""
  }

  datatype Step = Step(date: Js, description: Js)
  datatype HistoryEntry = HistoryEntry(date: Js, text: Js)

  /** A maintenance event; `steps` is `None` when the property is missing. */
  datatype Maint = Maint(id: Js, startDate: Js, endDate: Js, kind: Js, desc: Js,
                         tecnico: Js, cost: Js, steps: Option<seq<Step>>)

  datatype Sched = Sched(date: Js, desc: Js)

  /** A machine; a list property is `None` when missing or null. */
  datatype Machine = Machine(id: Js, name: Js, capacity: Js, manufacturer: Js, quantity: Js, status: Js,
                             maintenance: Option<seq<Maint>>, history: Option<seq<HistoryEntry>>,
                             nextMaint: Option<Sched>)

  /** `m[key]` for the properties a sort header or search names. */
  function Prop(m: Machine, key: string): Js {
    if key == "id" then m.id
    else if key == "name" then m.name
    else if key == "capacity" then m.capacity
    else if key == "manufacturer" then m.manufacturer
    else if key == "quantity" then m.quantity
    else if key == "status" then m.status
    else Undef
  }

  /** `m.maintenance || []`. */
  function Maints(m: Machine): seq<Maint> { m.maintenance.GetOr([]) }

  /** An event still in progress: `!maint.end_date`. */
  predicate IsOpen(x: Maint) { !Truthy(x.endDate) }

  function OpenTest(): Maint -> bool { (x: Maint) => IsOpen(x) }

  /** `m.nextMaint && m.nextMaint.date`: the machine has a scheduled date. */
  predicate HasScheduledDate(m: Machine) {
    m.nextMaint.Some? && Truthy(m.nextMaint.value.date)
  }

  /** The six statuses, in the order both scripts list them. */
  const Statuses: seq<string> :=
    ["OK", "EM OPERAÇÃO", "EM MANUTENÇÃO", "INOPERANTE", "ESPERANDO PEÇAS", "HORAS EXCEDENTES"]

  /** `m.status === s`. */
  function StatusIs(s: string): Machine -> bool { (m: Machine) => m.status == Str(s) }

  lemma StatusesDistinct()
    ensures |Statuses| == 6
    ensures forall i, j :: 0 <= i < j < |Statuses| ==> Statuses[i] != Statuses[j]
  {
  }

  /** The JavaScript `Number(v)`, on integers: `None` is NaN. Fractions and
      exponents are not modelled. */
  function NumberOf(v: Js): (r: Option<int>)
    ensures v.Num? ==> r == Some(v.n)
    ensures v == Nil ==> r == Some(0)
    ensures v == Undef ==> r.None?
  {
    match v
    case Undef => None
    case Nil => Some(0)
    case Num(n) => Some(n)
    case Str(s) =>
      var t := Trim(s);
      if t == "" then Some(0)
      else
        var neg := t[0] == '-';
        var digits := if t[0] == '-' || t[0] == '+' then t[1..] else t;
        if |digits| > 0 && IsAllDigits(digits) then Some(if neg then -(DigitsValue(digits) as int) else DigitsValue(digits) as int)
        else None
  }
}
