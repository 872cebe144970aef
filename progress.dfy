/**
 * The progress view of a session (`SessionManager.calculateProgress`): how many expense
 * fields the selected cost centers have, how many of them hold a positive amount, and
 * the rounded percentage of the two.
 */
module SessionProgress {
  import opened Wrappers
  import opened Records

  datatype Progress = Progress(totalFields: nat, completedFields: nat, percentage: nat)

  const NoProgress := Progress(0, 0, 0)

  /** `x && x > 0`: a field is filled in when its amount is present and strictly positive. */
  predicate Filled(v: Option<int>) {
    v.Some? && v.value > 0
  }

  /** The amount each progress field of a center holds, in order: routine `amount`s,
      employee `salaryBenefits`, equipment `currentValue`s; a missing list adds none. */
  function CenterValues(c: CostCenter): (vs: seq<Option<int>>)
    ensures |vs| == ItemCount(c)
  {
    RoutineValues(c.routineExpenses) + EmployeeValues(c.employeeExpenses) + EquipmentValues(c.equipmentExpenses)
  }

  function RoutineValues(list: Option<seq<RoutineExpense>>): (vs: seq<Option<int>>)
    ensures |vs| == Length(list)
  {
    match list
    case None => []
    case Some(l) => seq(|l|, i requires 0 <= i < |l| => l[i].amount)
  }

  function EmployeeValues(list: Option<seq<EmployeeExpense>>): (vs: seq<Option<int>>)
    ensures |vs| == Length(list)
  {
    match list
    case None => []
    case Some(l) => seq(|l|, i requires 0 <= i < |l| => l[i].salaryBenefits)
  }

  function EquipmentValues(list: Option<seq<EquipmentExpense>>): (vs: seq<Option<int>>)
    ensures |vs| == Length(list)
  {
    match list
    case None => []
    case Some(l) => seq(|l|, i requires 0 <= i < |l| => l[i].currentValue)
  }

  /** The progress fields of all centers, center by center. */
  function AllValues(cs: seq<CostCenter>): seq<Option<int>> {
    if cs == [] then [] else CenterValues(cs[0]) + AllValues(cs[1..])
  }

  /** How many of the fields are filled in. */
  function CountFilled(vs: seq<Option<int>>): (n: nat)
    ensures n <= |vs|
  {
    if vs == [] then 0 else (if Filled(vs[0]) then 1 else 0) + CountFilled(vs[1..])
  }

  /** `Math.round(completed / total * 100)`, or 0 when there are no fields: the integer
      nearest to 100 * completed / total, halves rounded up. */
  function Percentage(completed: nat, total: nat): (p: nat)
    ensures total == 0 ==> p == 0
    ensures total > 0 ==> 2 * total * p <= 200 * completed + total < 2 * total * p + 2 * total
  {
    if total > 0 then (200 * completed + total) / (2 * total) else 0
  }

  /** The progress view of a list of centers. */
  function ProgressOf(cs: seq<CostCenter>): (p: Progress)
    ensures p.completedFields <= p.totalFields
    ensures p.totalFields == 0 ==> p.percentage == 0
  {
    var vs := AllValues(cs);
    Progress(|vs|, CountFilled(vs), Percentage(CountFilled(vs), |vs|))
  }

  /** `calculateProgress(sessionData)`: all zero without data or without cost centers. */
  function ProgressOfData(sessionData: Option<JsObject>): Progress {
    match sessionData
    case None => NoProgress
    case Some(d) =>
      match Get(d, CostCenters)
      case CenterList(cs) => ProgressOf(cs)
      case _ => NoProgress
  }

  /** What iterating a truthy `costCenters` that is not an array throws. */
  const ForEachError := Error("sessionData.costCenters.forEach is not a function")

  /** `calculateProgress(sessionData)` as a value: it fails exactly when a truthy
      `costCenters` cannot be iterated. */
  function ProgressResult(sessionData: Option<JsObject>): (r: Result<Progress, Error>)
    ensures r.Success? <==> sessionData.None? || CentersIsList(sessionData.value)
    ensures r.Success? ==> r.value == ProgressOfData(sessionData)
    ensures r.Failure? ==> r.error == ForEachError
  {
    if sessionData.Some? && !CentersIsList(sessionData.value) then Failure(ForEachError)
    else Success(ProgressOfData(sessionData))
  }

  /** `calculateProgress`: walks the centers, adding each list's length to the total and the
      number of its filled-in fields to the completed count, then rounds the ratio; fails
      where iterating `costCenters` throws. */
  method CalculateProgress(sessionData: Option<JsObject>) returns (r: Result<Progress, Error>)
    ensures r == ProgressResult(sessionData)
    ensures r.Success? ==> r.value.completedFields <= r.value.totalFields && r.value.percentage <= 100
  {
    if sessionData.None? || !Truthy(Get(sessionData.value, CostCenters)) {
      return Success(NoProgress);
    }
    if !CentersIsList(sessionData.value) {
      return Failure(ForEachError);
    }
    var cs := Get(sessionData.value, CostCenters).centers;
    var totalFields, completedFields := 0, 0;
    var i := 0;
    while i < |cs|
      invariant 0 <= i <= |cs|
      invariant totalFields == |AllValues(cs[..i])|
      invariant completedFields == CountFilled(AllValues(cs[..i]))
    {
      var center := cs[i];
      ghost var total0, completed0 := totalFields, completedFields;
      if center.routineExpenses.Some? {
        totalFields := totalFields + |center.routineExpenses.value|;
        completedFields := completedFields + CountFilled(RoutineValues(center.routineExpenses));
      }
      if center.employeeExpenses.Some? {
        totalFields := totalFields + |center.employeeExpenses.value|;
        completedFields := completedFields + CountFilled(EmployeeValues(center.employeeExpenses));
      }
      if center.equipmentExpenses.Some? {
        totalFields := totalFields + |center.equipmentExpenses.value|;
        completedFields := completedFields + CountFilled(EquipmentValues(center.equipmentExpenses));
      }
      assert totalFields == total0 + ItemCount(center);
      assert completedFields == completed0 + CountFilled(RoutineValues(center.routineExpenses))
        + CountFilled(EmployeeValues(center.employeeExpenses)) + CountFilled(EquipmentValues(center.equipmentExpenses));
      PrefixStep(cs, i);
      i := i + 1;
    }
    assert cs[..i] == cs;
    PercentageRange(completedFields, totalFields);
    r := Success(Progress(totalFields, completedFields, Percentage(completedFields, totalFields)));
  }

  // ---------------------------------------------------------------------------
  // Properties

  /** What one more center adds to the running totals of the loop. */
  lemma PrefixStep(cs: seq<CostCenter>, i: nat)
    requires i < |cs|
    ensures |AllValues(cs[..i + 1])| == |AllValues(cs[..i])| + ItemCount(cs[i])
    ensures CountFilled(AllValues(cs[..i + 1])) == CountFilled(AllValues(cs[..i]))
      + CountFilled(RoutineValues(cs[i].routineExpenses))
      + CountFilled(EmployeeValues(cs[i].employeeExpenses))
      + CountFilled(EquipmentValues(cs[i].equipmentExpenses))
  {
    var c := cs[i];
    AllValuesConcat(cs[..i], [c]);
    assert cs[..i + 1] == cs[..i] + [c];
    assert AllValues([c]) == CenterValues(c) by {
      assert [c][1..] == [];
    }
    CountFilledConcat(AllValues(cs[..i]), CenterValues(c));
    CountFilledConcat(RoutineValues(c.routineExpenses), EmployeeValues(c.employeeExpenses));
    CountFilledConcat(RoutineValues(c.routineExpenses) + EmployeeValues(c.employeeExpenses),
                      EquipmentValues(c.equipmentExpenses));
  }

  lemma {:induction false} CountFilledConcat(a: seq<Option<int>>, b: seq<Option<int>>)
    ensures CountFilled(a + b) == CountFilled(a) + CountFilled(b)
  {
    if a == [] {
      assert a + b == b;
    } else {
      assert (a + b)[1..] == a[1..] + b;
      CountFilledConcat(a[1..], b);
    }
  }

  lemma {:induction false} AllValuesConcat(a: seq<CostCenter>, b: seq<CostCenter>)
    ensures AllValues(a + b) == AllValues(a) + AllValues(b)
  {
    if a == [] {
      assert a + b == b;
    } else {
      assert (a + b)[1..] == a[1..] + b;
      AllValuesConcat(a[1..], b);
    }
  }

  /** `totalFields` is the sum, over all centers, of the lengths of their three lists. */
  lemma {:induction false} TotalFieldsIsItemCount(cs: seq<CostCenter>)
    ensures ProgressOf(cs).totalFields == TotalItems(cs)
  {
    if cs != [] {
      TotalFieldsIsItemCount(cs[1..]);
    }
  }

  /** The percentage lies in 0..100, is 0 with nothing filled in and 100 with everything
      filled in. */
  lemma PercentageRange(completed: nat, total: nat)
    requires completed <= total
    ensures Percentage(completed, total) <= 100
    ensures completed == 0 ==> Percentage(completed, total) == 0
    ensures 0 < total == completed ==> Percentage(completed, total) == 100
  {
    if total > 0 {
      var p := Percentage(completed, total);
      // 2t * p <= 200c + t <= 201t < 202t, so p < 101
      ScaledLess(2 * total, p, 101);
      if completed == 0 {
        // 2t * 0 <= t < 2t * p + 2t, and 2t * p <= t < 2t * 1, so p < 1
        ScaledLess(2 * total, p, 1);
      }
      if completed == total {
        // 200t = 200c < 2t * p + 2t = 2t * (p + 1), so 100 < p + 1
        ScaledLess(2 * total, 100, p + 1);
      }
    }
  }

  /** Dividing both sides of `k * x < k * y` by a positive `k`. */
  lemma ScaledLess(k: nat, x: int, y: int)
    requires k > 0
    ensures k * x < k * y ==> x < y
  {
    assert k * y - k * x == k * (y - x);
  }

  /** The progress view is always in range: completed at most total, percentage at most 100. */
  lemma ProgressInRange(cs: seq<CostCenter>)
    ensures var p := ProgressOf(cs); p.completedFields <= p.totalFields && p.percentage <= 100
  {
    var vs := AllValues(cs);
    PercentageRange(CountFilled(vs), |vs|);
  }

  /** Filling in one field that was not filled in raises the completed count by exactly one
      and leaves the total alone. */
  lemma {:induction false} FillOneField(vs: seq<Option<int>>, i: nat, v: Option<int>)
    requires i < |vs| && !Filled(vs[i]) && Filled(v)
    ensures |vs[i := v]| == |vs|
    ensures CountFilled(vs[i := v]) == CountFilled(vs) + 1
  {
    if i > 0 {
      assert vs[i := v][1..] == vs[1..][i - 1 := v];
      FillOneField(vs[1..], i - 1, v);
    } else {
      assert vs[i := v][1..] == vs[1..];
    }
  }

  /** One center with three routine lines at amount 0: three fields, none completed. Setting
      one amount to 100 gives one of three, rounded to 33 percent. */
  lemma ThreeLineScenario(name: string)
    ensures var zero := RoutineExpense(1, "a", Some(0));
      var before := CostCenter(1, name, Some(0), Some([zero, zero.(id := 2), zero.(id := 3)]), Some([]), Some([]));
      var after := before.(routineExpenses := Some([zero.(amount := Some(100)), zero.(id := 2), zero.(id := 3)]));
      ProgressOf([before]) == Progress(3, 0, 0) && ProgressOf([after]) == Progress(3, 1, 33)
  {
    var zero := RoutineExpense(1, "a", Some(0));
    var before := CostCenter(1, name, Some(0), Some([zero, zero.(id := 2), zero.(id := 3)]), Some([]), Some([]));
    var after := before.(routineExpenses := Some([zero.(amount := Some(100)), zero.(id := 2), zero.(id := 3)]));
    assert AllValues([before]) == [Some(0), Some(0), Some(0)];
    assert AllValues([after]) == [Some(100), Some(0), Some(0)];
    assert CountFilled([Some(0), Some(0), Some(0)]) == 0 by {
      assert [Some(0), Some(0), Some(0)][1..] == [Some(0), Some(0)];
      assert [Some(0), Some(0)][1..] == [Some(0)];
    }
    assert CountFilled([Some(100), Some(0), Some(0)]) == 1 by {
      assert [Some(100), Some(0), Some(0)][1..] == [Some(0), Some(0)];
      assert [Some(0), Some(0)][1..] == [Some(0)];
    }
  }
}
