/**
 * The values the client exchanges with the remote engine: cost centers and their
 * expense lines, the loosely typed session records (JavaScript objects whose keys may be
 * missing and whose values may be `undefined` or `null`), and the shape of a reply.
 */
module Records {
  import opened Wrappers
  import opened Text

  // ---------------------------------------------------------------------------
  // Cost centers

  /** A routine expense line; `amount` is its value. */
  datatype RoutineExpense = RoutineExpense(id: int, name: string, amount: Option<int>)

  /** An employee line; progress reads `salaryBenefits`, the CSV export `totalAmount`. */
  datatype EmployeeExpense = EmployeeExpense(name: string, salaryBenefits: Option<int>, totalAmount: Option<int>)

  /** An equipment line; progress reads `currentValue`, the CSV export `monthDepreciation`. */
  datatype EquipmentExpense = EquipmentExpense(name: string, currentValue: Option<int>, monthDepreciation: Option<int>)

  /** A cost center; each of its three expense lists may be missing. */
  datatype CostCenter = CostCenter(
    id: int,
    name: string,
    totalAmount: Option<int>,
    routineExpenses: Option<seq<RoutineExpense>>,
    employeeExpenses: Option<seq<EmployeeExpense>>,
    equipmentExpenses: Option<seq<EquipmentExpense>>)

  /** `list?.length || 0`: a missing list has no lines. */
  function Length<T>(list: Option<seq<T>>): nat {
    match list
    case Some(l) => |l|
    case None => 0
  }

  /** The number of expense lines of a center, over its three lists. */
  function ItemCount(c: CostCenter): nat {
    Length(c.routineExpenses) + Length(c.employeeExpenses) + Length(c.equipmentExpenses)
  }

  /** The number of expense lines of all centers. */
  function TotalItems(cs: seq<CostCenter>): nat {
    if cs == [] then 0 else ItemCount(cs[0]) + TotalItems(cs[1..])
  }

  lemma {:induction false} TotalItemsConcat(a: seq<CostCenter>, b: seq<CostCenter>)
    ensures TotalItems(a + b) == TotalItems(a) + TotalItems(b)
  {
    if a != [] {
      assert (a + b)[1..] == a[1..] + b;
      TotalItemsConcat(a[1..], b);
    } else {
      assert a + b == b;
    }
  }

  predicate HasAllLists(c: CostCenter) {
    c.routineExpenses.Some? && c.employeeExpenses.Some? && c.equipmentExpenses.Some?
  }

  // ---------------------------------------------------------------------------
  // JavaScript values of session records

  /** The values a session record holds. */
  datatype Value =
    | Undefined
    | Null
    | Bool(b: bool)
    | Str(s: string)
    | CenterRef(center: CostCenter)
    | CenterList(centers: seq<CostCenter>)

  /** JavaScript truthiness: objects and arrays are truthy, the empty string is not. */
  predicate Truthy(v: Value) {
    match v
    case Undefined => false
    case Null => false
    case Bool(b) => b
    case Str(s) => s != ""
    case CenterRef(_) => true
    case CenterList(_) => true
  }

  /** `a || b`: the first operand when it is truthy, otherwise the second. */
  function Or(a: Value, b: Value): Value {
    if Truthy(a) then a else b
  }

  /** The keys of a session record. */
  datatype Field =
    | SessionId | UserId | CreatedAt | CurrentCostCenter | CurrentQuestion
    | CurrentField | IsActive | IsComplete | CostCenters

  function FieldName(f: Field): string {
    match f
    case SessionId => "sessionId"
    case UserId => "userId"
    case CreatedAt => "createdAt"
    case CurrentCostCenter => "currentCostCenter"
    case CurrentQuestion => "currentQuestion"
    case CurrentField => "currentField"
    case IsActive => "isActive"
    case IsComplete => "isComplete"
    case CostCenters => "costCenters"
  }

  /** A plain object: the keys it has and the value each holds (possibly `undefined`). */
  type JsObject = map<Field, Value>

  /** Property access: a missing key reads as `undefined`. */
  function Get(o: JsObject, f: Field): Value {
    if f in o then o[f] else Undefined
  }

  /** `o?.f` on a possibly null object. */
  function GetOpt(o: Option<JsObject>, f: Field): Value {
    match o
    case Some(obj) => Get(obj, f)
    case None => Undefined
  }

  /** `{ ...base, ...update }`: own keys of `update` overwrite, others keep their value;
      spreading `null` contributes no key. */
  function Spread(base: Option<JsObject>, update: JsObject): (r: JsObject)
    ensures r.Keys == update.Keys + (if base.Some? then base.value.Keys else {})
    ensures forall f :: f in update ==> Get(r, f) == update[f]
    ensures forall f :: f !in update ==> Get(r, f) == GetOpt(base, f)
  {
    (if base.Some? then base.value else map[]) + update
  }

  /** A truthy `costCenters` is an array: otherwise iterating it throws. */
  predicate CentersIsList(o: JsObject) {
    Truthy(Get(o, CostCenters)) ==> Get(o, CostCenters).CenterList?
  }

  /** `${v}` in a template literal. */
  function ValueText(v: Value): string {
    match v
    case Undefined => "undefined"
    case Null => "null"
    case Bool(b) => if b then "true" else "false"
    case Str(s) => s
    case CenterRef(_) => "[object Object]"
    case CenterList(cs) => Join(seq(|cs|, _ => "[object Object]"), ",")
  }

  // ---------------------------------------------------------------------------
  // Replies and errors

  /** A point in time, seen only through its two renderings: `toISOString()` and the
      `pt-BR` hour:minute clock text. */
  datatype Time = Time(iso: string, clock: string)

  /** A thrown JavaScript `Error`, seen through its message. */
  datatype Error = Error(message: string)

  /** The JSON body of a reply: `{ success, data, error }`. */
  datatype Body<T> = Body(success: bool, data: Option<T>, error: Option<string>)

  /** An HTTP reply: the `ok` flag, the status line, the raw text and the parsed body. */
  datatype Reply<T> = Reply(ok: bool, status: int, statusText: string, text: string, body: Body<T>)

  /** The error thrown for a reply that is not ok: `HTTP ${status}: ${statusText}`. */
  function HttpError(status: int, statusText: string): Error {
    Error("HTTP " + IntToString(status) + ": " + statusText)
  }

  /** `data.error || fallback`. */
  function ErrorOr(error: Option<string>, fallback: string): string {
    if error.Some? && error.value != "" then error.value else fallback
  }

  /** The `data` of a message or command reply. */
  datatype ExchangeData = ExchangeData(
    botMessage: Option<string>,
    result: Option<string>,
    updatedCenter: Option<CostCenter>,
    nextCenter: Option<CostCenter>,
    finished: bool)
}
