/**
 * The pure part of `CostCenterApp` (assets/js/app.js): the default cost centers, the
 * selection (a JavaScript `Set`, iterated in insertion order), the filter of selected
 * centers, the field count behind the progress bar and the session record a successful
 * start builds.
 */
module Selection {
  import opened Wrappers
  import opened Text
  import opened Records
  import opened SessionProgress

  // ---------------------------------------------------------------------------
  // Default cost centers

  function ZeroRoutine(id: int, name: string): RoutineExpense {
    RoutineExpense(id, name, Some(0))
  }

  function DefaultCenter(id: int, name: string, routine: seq<RoutineExpense>): CostCenter {
    CostCenter(id, name, Some(0), Some(routine), Some([]), Some([]))
  }

  /** `getDefaultCostCenters()`: three centers with five, three and three routine expenses
      at amount 0, and no employees or equipment. */
  function DefaultCostCenters(): (cs: seq<CostCenter>)
    ensures |cs| == 3
    ensures cs[0].id == 1 && cs[1].id == 2 && cs[2].id == 3
    ensures cs[0].name == "Administrativo" && cs[1].name == "Comercial" && cs[2].name == "Produção"
    ensures Length(cs[0].routineExpenses) == 5 && Length(cs[1].routineExpenses) == 3
      && Length(cs[2].routineExpenses) == 3
    ensures forall c :: c in cs ==>
      HasAllLists(c) && c.totalAmount == Some(0) && c.employeeExpenses == Some([]) && c.equipmentExpenses == Some([])
      && forall e :: e in c.routineExpenses.value ==> e.amount == Some(0)
  {
    [ DefaultCenter(1, "Administrativo", [
        ZeroRoutine(1, "Água"), ZeroRoutine(2, "Energia Elétrica"), ZeroRoutine(3, "Telefone"),
        ZeroRoutine(4, "Internet"), ZeroRoutine(5, "Aluguel")]),
      DefaultCenter(2, "Comercial", [
        ZeroRoutine(1, "Marketing"), ZeroRoutine(2, "Vendas"), ZeroRoutine(3, "Comissões")]),
      DefaultCenter(3, "Produção", [
        ZeroRoutine(1, "Matéria Prima"), ZeroRoutine(2, "Mão de Obra"), ZeroRoutine(3, "Manutenção")]) ]
  }

  /** `loadDefaultCostCenters()`: the fetched list when there is one that renders (every
      center has its three lists), otherwise the defaults. */
  function LoadedCenters(fetched: Option<seq<CostCenter>>): (cs: seq<CostCenter>)
    ensures forall c :: c in cs ==> HasAllLists(c)
    ensures fetched.Some? && (forall c :: c in fetched.value ==> HasAllLists(c)) ==> cs == fetched.value
    ensures fetched.None? || (exists c :: c in fetched.value && !HasAllLists(c)) ==> cs == DefaultCostCenters()
  {
    if fetched.Some? && forall c :: c in fetched.value ==> HasAllLists(c) then fetched.value
    else DefaultCostCenters()
  }

  // ---------------------------------------------------------------------------
  // Selection

  predicate Distinct(ids: seq<int>) {
    forall i, j :: 0 <= i < j < |ids| ==> ids[i] != ids[j]
  }

  /** `ids` without `id`, in order. */
  function Remove(ids: seq<int>, id: int): (r: seq<int>)
    ensures forall x :: x in r <==> x in ids && x != id
    ensures Distinct(ids) ==> Distinct(r)
    ensures id !in ids ==> r == ids
  {
    if ids == [] then []
    else
      var rest := Remove(ids[1..], id);
      if ids[0] == id then rest
      else
        assert Distinct(ids) ==> ids[0] !in rest;
        [ids[0]] + rest
  }

  /** `toggleCostCenter(id)`: deletes a selected id, adds an unselected one at the end. */
  function Toggled(selected: seq<int>, id: int): (r: seq<int>)
    ensures id in r <==> id !in selected
    ensures forall x :: x != id ==> (x in r <==> x in selected)
    ensures Distinct(selected) ==> Distinct(r)
  {
    if id in selected then Remove(selected, id) else selected + [id]
  }

  /** `costCenters.filter(c => selectedCenters.has(c.id))`. */
  function SelectedCenters(cs: seq<CostCenter>, selected: seq<int>): (r: seq<CostCenter>)
    ensures forall c :: c in r <==> c in cs && c.id in selected
    ensures |r| <= |cs|
  {
    if cs == [] then []
    else (if cs[0].id in selected then [cs[0]] else []) + SelectedCenters(cs[1..], selected)
  }

  /** `costCenters.find(c => c.id === id)`: the first center with that id. */
  function FindCenter(cs: seq<CostCenter>, id: int): (r: Option<CostCenter>)
    ensures r.Some? ==> r.value in cs && r.value.id == id
    ensures r.None? ==> forall c :: c in cs ==> c.id != id
    ensures forall k :: 0 <= k < |cs| && cs[k].id == id && (forall j :: 0 <= j < k ==> cs[j].id != id) ==>
      r == Some(cs[k])
  {
    if cs == [] then None
    else if cs[0].id == id then Some(cs[0])
    else FindCenter(cs[1..], id)
  }

  /** The fields a selected id contributes: the three list lengths of its center, or 0
      when no center has that id. */
  function FieldsOf(cs: seq<CostCenter>, id: int): nat {
    match FindCenter(cs, id)
    case Some(c) => ItemCount(c)
    case None => 0
  }

  /** The total `updateProgress` computes: the fields of each selected id, in selection
      order. */
  function SelectedFieldCount(cs: seq<CostCenter>, selected: seq<int>): nat {
    if selected == [] then 0
    else SelectedFieldCount(cs, selected[..|selected| - 1]) + FieldsOf(cs, selected[|selected| - 1])
  }

  predicate UniqueIds(cs: seq<CostCenter>) {
    forall i, j :: 0 <= i < j < |cs| ==> cs[i].id != cs[j].id
  }

  // ---------------------------------------------------------------------------
  // Starting a session

  /** The `data` of a successful session-creation reply. */
  datatype StartData = StartData(sessionId: Value, currentCenter: Option<CostCenter>, botMessage: Option<string>)

  /** The error a session-creation reply that is not ok throws. */
  function StartHttpError(status: int, statusText: string, text: string): Error {
    Error("Erro HTTP: " + IntToString(status) + " - " + statusText + "\nDetalhes: " + text)
  }

  /** The outcome of the creation request: an HTTP error, the reply's error (or the
      fallback) without `success && data`, else the data. */
  function StartOutcome(reply: Reply<StartData>): (r: Result<StartData, Error>)
    ensures r.Success? <==> reply.ok && reply.body.success && reply.body.data.Some?
    ensures r.Success? ==> r.value == reply.body.data.value
    ensures !reply.ok ==> r == Failure(StartHttpError(reply.status, reply.statusText, reply.text))
    ensures reply.ok && r.Failure? ==> r.error == Error(ErrorOr(reply.body.error, "Erro ao criar sessão"))
  {
    if !reply.ok then Failure(StartHttpError(reply.status, reply.statusText, reply.text))
    else if reply.body.success && reply.body.data.Some? then Success(reply.body.data.value)
    else Failure(Error(ErrorOr(reply.body.error, "Erro ao criar sessão")))
  }

  function OptCenter(c: Option<CostCenter>): Value {
    if c.Some? then CenterRef(c.value) else Undefined
  }

  function OptText(s: Option<string>): Value {
    if s.Some? then Str(s.value) else Undefined
  }

  /** The session record a successful start builds: identity, center and question from the
      reply, active and not complete, created now, over the selected centers. */
  function NewSessionRecord(data: StartData, now: Time, selected: seq<CostCenter>): (r: JsObject)
    ensures r.Keys == {SessionId, CurrentCostCenter, CurrentQuestion, IsActive, IsComplete, CreatedAt, CostCenters}
    ensures r[SessionId] == data.sessionId
    ensures r[CurrentCostCenter] == OptCenter(data.currentCenter)
    ensures r[CurrentQuestion] == OptText(data.botMessage)
    ensures r[IsActive] == Bool(true) && r[IsComplete] == Bool(false)
    ensures r[CreatedAt] == Str(now.iso)
    ensures r[CostCenters] == CenterList(selected)
  {
    map[SessionId := data.sessionId,
        CurrentCostCenter := OptCenter(data.currentCenter),
        CurrentQuestion := OptText(data.botMessage),
        IsActive := Bool(true),
        IsComplete := Bool(false),
        CreatedAt := Str(now.iso),
        CostCenters := CenterList(selected)]
  }

  const StartGreeting := "Sessão iniciada! Como posso ajudá-lo?"

  /** The first welcome line of `initializeChat`: the question, or a fixed greeting. */
  function StartWelcome(record: JsObject): (text: string)
    ensures Get(record, CurrentQuestion).Str? && Get(record, CurrentQuestion).s != "" ==>
      text == Get(record, CurrentQuestion).s
    ensures !Truthy(Get(record, CurrentQuestion)) ==> text == StartGreeting
  {
    var question := Get(record, CurrentQuestion);
    if question.Str? && question.s != "" then question.s
    else if Truthy(question) then ValueText(question)
    else StartGreeting
  }

  // ---------------------------------------------------------------------------
  // Properties

  /** Toggling an id twice gives back the same selection as a set; when the id was not
      selected, the very same sequence. */
  lemma ToggleTwice(selected: seq<int>, id: int)
    requires Distinct(selected)
    ensures forall x :: x in Toggled(Toggled(selected, id), id) <==> x in selected
    ensures id !in selected ==> Toggled(Toggled(selected, id), id) == selected
  {
    if id !in selected {
      RemoveLast(selected, id);
    }
  }

  lemma {:induction false} RemoveLast(ids: seq<int>, id: int)
    requires id !in ids
    ensures Remove(ids + [id], id) == ids
  {
    if ids == [] {
      assert Remove([id][1..], id) == [];
    } else {
      assert (ids + [id])[1..] == ids[1..] + [id];
      RemoveLast(ids[1..], id);
    }
  }

  /** Filtering keeps the input order: it distributes over concatenation. */
  lemma {:induction false} SelectedCentersConcat(a: seq<CostCenter>, b: seq<CostCenter>, selected: seq<int>)
    ensures SelectedCenters(a + b, selected) == SelectedCenters(a, selected) + SelectedCenters(b, selected)
  {
    if a == [] {
      assert a + b == b;
    } else {
      assert (a + b)[1..] == a[1..] + b;
      SelectedCentersConcat(a[1..], b, selected);
    }
  }

  /** Selecting one more id adds exactly that center's fields to the selected total. */
  lemma {:induction false} SelectOneMore(cs: seq<CostCenter>, selected: seq<int>, id: int)
    requires UniqueIds(cs) && id !in selected
    ensures TotalItems(SelectedCenters(cs, selected + [id]))
      == TotalItems(SelectedCenters(cs, selected)) + FieldsOf(cs, id)
  {
    if cs != [] {
      var c, rest := cs[0], cs[1..];
      var more := selected + [id];
      assert UniqueIds(rest) by {
        forall i, j | 0 <= i < j < |rest| ensures rest[i].id != rest[j].id {
          assert rest[i] == cs[i + 1] && rest[j] == cs[j + 1];
        }
      }
      SelectOneMore(rest, selected, id);
      var headMore := if c.id in more then [c] else [];
      var headSel := if c.id in selected then [c] else [];
      assert SelectedCenters(cs, more) == headMore + SelectedCenters(rest, more);
      assert SelectedCenters(cs, selected) == headSel + SelectedCenters(rest, selected);
      TotalItemsConcat(headMore, SelectedCenters(rest, more));
      TotalItemsConcat(headSel, SelectedCenters(rest, selected));
      if c.id == id {
        assert FindCenter(rest, id).None? by {
          forall k | 0 <= k < |rest| ensures rest[k].id != id {
            assert rest[k] == cs[k + 1];
          }
        }
        assert TotalItems(headMore) == ItemCount(c) && TotalItems(headSel) == 0;
      } else {
        assert headMore == headSel;
        assert FieldsOf(cs, id) == FieldsOf(rest, id);
      }
    }
  }

  /** With unique center ids and a duplicate-free selection, the app's field count is the
      number of fields of the selected centers, which is also the `totalFields` the session
      manager computes for the session that starts with them. */
  lemma {:induction false} SelectedCountIsTotal(cs: seq<CostCenter>, selected: seq<int>)
    requires UniqueIds(cs) && Distinct(selected)
    ensures SelectedFieldCount(cs, selected) == TotalItems(SelectedCenters(cs, selected))
    ensures SelectedFieldCount(cs, selected) == ProgressOf(SelectedCenters(cs, selected)).totalFields
  {
    TotalFieldsIsItemCount(SelectedCenters(cs, selected));
    if selected == [] {
      assert SelectedCenters(cs, []) == [] by {
        assert forall c :: c !in SelectedCenters(cs, []);
      }
    } else {
      var init := selected[..|selected| - 1];
      var last := selected[|selected| - 1];
      assert selected == init + [last];
      assert Distinct(init);
      assert last !in init;
      SelectedCountIsTotal(cs, init);
      SelectOneMore(cs, init, last);
    }
  }

  /** The defaults hold eleven fields, none filled in. */
  lemma DefaultProgress()
    ensures ProgressOf(DefaultCostCenters()) == Progress(11, 0, 0)
  {
    var cs := DefaultCostCenters();
    assert AllValues(cs[2..]) == CenterValues(cs[2]) + AllValues([]);
    assert AllValues(cs[1..]) == CenterValues(cs[1]) + AllValues(cs[2..]);
    assert AllValues(cs) == CenterValues(cs[0]) + AllValues(cs[1..]);
    var vs := AllValues(cs);
    assert |vs| == 11;
    assert forall i :: 0 <= i < |vs| ==> vs[i] == Some(0);
    NoneFilled(vs);
  }

  lemma {:induction false} NoneFilled(vs: seq<Option<int>>)
    requires forall i :: 0 <= i < |vs| ==> vs[i] == Some(0)
    ensures CountFilled(vs) == 0
  {
    if vs != [] {
      NoneFilled(vs[1..]);
    }
  }

  /** A freshly started session wants periodic sync, is active and not complete, and its
      progress covers the selected centers. */
  lemma NewRecordState(data: StartData, now: Time, selected: seq<CostCenter>)
    ensures var r := NewSessionRecord(data, now, selected);
      Truthy(Get(r, IsActive)) && !Truthy(Get(r, IsComplete)) && CentersIsList(r)
      && ProgressOfData(Some(r)) == ProgressOf(selected)
  {
  }
}
