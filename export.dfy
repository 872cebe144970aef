/**
 * `ExportManager` (components/export.js): the export request and its result check, the
 * CSV rendering of the cost centers, the session summary statistics, file-name
 * sanitisation, the names of the downloaded files and the export statistics.
 */
module Export {
  import opened Wrappers
  import opened Text
  import opened Records
  import opened Sequences
  import opened Session

  /** The `data` of an export reply. */
  datatype ExportData = ExportData(costCenters: Option<seq<CostCenter>>)

  /** `x || 0` on an amount. */
  function AmountOr0(v: Option<int>): int {
    if v.Some? then v.value else 0
  }

  // ---------------------------------------------------------------------------
  // File names

  /** The characters `[<>:"/\\|?*]` replaces. */
  predicate Forbidden(c: char) {
    c == '<' || c == '>' || c == ':' || c == '"' || c == '/' || c == '\\' || c == '|' || c == '?' || c == '*'
  }

  /** `.replace(/[<>:"/\\|?*]/g, '_')`. */
  function ReplaceForbidden(s: string): (r: string)
    ensures |r| == |s|
    ensures forall i :: 0 <= i < |s| ==> r[i] == if Forbidden(s[i]) then '_' else s[i]
  {
    seq(|s|, i requires 0 <= i < |s| => if Forbidden(s[i]) then '_' else s[i])
  }

  /** `.replace(/\s+/g, '_')`: each maximal run of whitespace becomes one `_`. */
  function CollapseSpace(s: string): (r: string)
    ensures forall i :: 0 <= i < |r| ==> !IsSpace(r[i])
    ensures forall i :: 0 <= i < |r| ==> r[i] == '_' || r[i] in s
    decreases |s|
  {
    if s == [] then []
    else if IsSpace(s[0]) then
      var rest := TrimStart(s);
      "_" + CollapseSpace(rest)
    else [s[0]] + CollapseSpace(s[1..])
  }

  /** `sanitizeFilename(name)`. */
  function SanitizeFilename(name: string): (r: string)
    ensures forall i :: 0 <= i < |r| ==> !Forbidden(r[i]) && !IsSpace(r[i])
    ensures forall i :: 0 <= i < |r| ==> !IsUpperChar(r[i]) && LowerChar(r[i]) == r[i]
  {
    var collapsed := CollapseSpace(ReplaceForbidden(name));
    assert forall i :: 0 <= i < |collapsed| ==> !Forbidden(collapsed[i]);
    ToLower(collapsed)
  }

  /** `cost_center_{id}_{sanitized name}.json`. */
  function CenterFileName(c: CostCenter): string {
    "cost_center_" + IntToString(c.id) + "_" + SanitizeFilename(c.name) + ".json"
  }

  function ConsolidatedName(sessionId: Value): string {
    "cost_centers_" + ValueText(sessionId) + "_consolidated.json"
  }

  function ZipName(sessionId: Value): string {
    "cost_centers_" + ValueText(sessionId) + "_individual.zip"
  }

  function SummaryName(sessionId: Value): string {
    "session_summary_" + ValueText(sessionId) + ".json"
  }

  function CsvName(sessionId: Value): string {
    "cost_centers_" + ValueText(sessionId) + ".csv"
  }

  // ---------------------------------------------------------------------------
  // CSV

  const HeaderFields := ["Centro de Custo ID", "Nome do Centro", "Valor Total", "Tipo de Despesa", "Item", "Valor"]

  /** `Centro de Custo ID,Nome do Centro,Valor Total,Tipo de Despesa,Item,Valor`. */
  const CsvHeader := Join(HeaderFields, ",")

  function Quoted(s: string): string {
    "\"" + s + "\""
  }

  /** The six fields of one row: center id, quoted center name, center total, expense
      type, quoted item name, item value. */
  function RowFields(c: CostCenter, kind: string, item: string, value: Option<int>): (fs: seq<string>)
    ensures |fs| == 6
  {
    [IntToString(c.id), Quoted(c.name), IntToString(AmountOr0(c.totalAmount)), kind, Quoted(item),
     IntToString(AmountOr0(value))]
  }

  /** The six fields joined with commas. */
  function Row(c: CostCenter, kind: string, item: string, value: Option<int>): string {
    Join(RowFields(c, kind, item, value), ",")
  }

  /** An expense item as the CSV sees it: its type, its name and its value. */
  datatype Item = Item(kind: string, name: string, value: Option<int>)

  /** One `Rotina` item per routine expense, valued by `amount`. */
  function RoutineItems(c: CostCenter): (items: seq<Item>)
    ensures |items| == Length(c.routineExpenses)
  {
    match c.routineExpenses
    case None => []
    case Some(l) => seq(|l|, i requires 0 <= i < |l| => Item("Rotina", l[i].name, l[i].amount))
  }

  /** One `Funcionário` item per employee, valued by `totalAmount`. */
  function EmployeeItems(c: CostCenter): (items: seq<Item>)
    ensures |items| == Length(c.employeeExpenses)
  {
    match c.employeeExpenses
    case None => []
    case Some(l) => seq(|l|, i requires 0 <= i < |l| => Item("Funcionário", l[i].name, l[i].totalAmount))
  }

  /** One `Equipamento` item per equipment, valued by `monthDepreciation`. */
  function EquipmentItems(c: CostCenter): (items: seq<Item>)
    ensures |items| == Length(c.equipmentExpenses)
  {
    match c.equipmentExpenses
    case None => []
    case Some(l) => seq(|l|, i requires 0 <= i < |l| => Item("Equipamento", l[i].name, l[i].monthDepreciation))
  }

  /** A center's items: routine, then employee, then equipment. */
  function Items(c: CostCenter): (items: seq<Item>)
    ensures |items| == ItemCount(c)
  {
    RoutineItems(c) + EmployeeItems(c) + EquipmentItems(c)
  }

  /** One row per item, in order. */
  function RowsOf(c: CostCenter, items: seq<Item>): (rows: seq<string>)
    ensures |rows| == |items|
  {
    seq(|items|, i requires 0 <= i < |items| => Row(c, items[i].kind, items[i].name, items[i].value))
  }

  function CenterRows(c: CostCenter): (rows: seq<string>)
    ensures |rows| == ItemCount(c)
  {
    RowsOf(c, Items(c))
  }

  /** The data rows, center by center in input order. */
  function CsvRows(cs: seq<CostCenter>): seq<string> {
    FlatMap(cs, CenterRows)
  }

  /** The CSV text `convertToCSV` returns for a list of centers. */
  function CsvText(cs: seq<CostCenter>): string {
    Join([CsvHeader] + CsvRows(cs), "\n")
  }

  /** `convertToCSV(exportData)`: fails without `costCenters`; otherwise pushes the header
      and then each center's rows, and joins them with newlines. */
  method ConvertToCSV(data: ExportData) returns (r: Result<string, Error>)
    ensures data.costCenters.None? ==> r == Failure(Error("Dados não encontrados"))
    ensures data.costCenters.Some? ==> r == Success(CsvText(data.costCenters.value))
  {
    if data.costCenters.None? {
      return Failure(Error("Dados não encontrados"));
    }
    var cs := data.costCenters.value;
    var rows := [CsvHeader];
    var i := 0;
    while i < |cs|
      invariant 0 <= i <= |cs|
      invariant rows == [CsvHeader] + CsvRows(cs[..i])
    {
      var center := cs[i];
      var before := rows;
      var routine, employee, equipment :=
        RowsOf(center, RoutineItems(center)), RowsOf(center, EmployeeItems(center)), RowsOf(center, EquipmentItems(center));
      rows := PushRows(rows, center, RoutineItems(center));
      rows := PushRows(rows, center, EmployeeItems(center));
      rows := PushRows(rows, center, EquipmentItems(center));
      CenterRowsSplit(center);
      SeqAssoc(before, routine, employee);
      SeqAssoc(before, routine + employee, equipment);
      SeqAssoc([CsvHeader], CsvRows(cs[..i]), CenterRows(center));
      CsvRowsStep(cs, i);
      i := i + 1;
    }
    assert cs[..i] == cs;
    return Success(Join(rows, "\n"));
  }

  /** One `forEach` over an expense list: pushes one row per item. */
  method PushRows(rows: seq<string>, c: CostCenter, items: seq<Item>) returns (r: seq<string>)
    ensures r == rows + RowsOf(c, items)
  {
    r := rows;
    var j := 0;
    while j < |items|
      invariant 0 <= j <= |items|
      invariant r == rows + RowsOf(c, items[..j])
    {
      r := r + [Row(c, items[j].kind, items[j].name, items[j].value)];
      assert RowsOf(c, items[..j + 1]) == RowsOf(c, items[..j]) + [Row(c, items[j].kind, items[j].name, items[j].value)];
      j := j + 1;
    }
    assert items[..j] == items;
  }

  /** A center's rows are its routine rows, then its employee rows, then its equipment
      rows. */
  lemma CenterRowsSplit(c: CostCenter)
    ensures CenterRows(c) == RowsOf(c, RoutineItems(c)) + RowsOf(c, EmployeeItems(c)) + RowsOf(c, EquipmentItems(c))
  {
    RowsOfConcat(c, RoutineItems(c), EmployeeItems(c));
    RowsOfConcat(c, RoutineItems(c) + EmployeeItems(c), EquipmentItems(c));
  }

  lemma RowsOfConcat(c: CostCenter, a: seq<Item>, b: seq<Item>)
    ensures RowsOf(c, a + b) == RowsOf(c, a) + RowsOf(c, b)
  {
  }

  // ---------------------------------------------------------------------------
  // Session summary

  datatype Statistics = Statistics(
    totalCostCenters: nat,
    totalAmount: int,
    routineExpensesCount: nat,
    employeeExpensesCount: nat,
    equipmentExpensesCount: nat)

  datatype CenterSummary = CenterSummary(
    id: int, name: string, totalAmount: int,
    routineExpenses: nat, employeeExpenses: nat, equipmentExpenses: nat)

  datatype SessionInfo = SessionInfo(sessionId: Value, userId: Value, createdAt: Value, exportedAt: string)

  datatype SummaryDoc = SummaryDoc(sessionInfo: SessionInfo, statistics: Statistics, costCenterSummary: seq<CenterSummary>)

  function Summarize(c: CostCenter): CenterSummary {
    CenterSummary(c.id, c.name, AmountOr0(c.totalAmount),
      Length(c.routineExpenses), Length(c.employeeExpenses), Length(c.equipmentExpenses))
  }

  /** The accumulated statistics over a list of centers (the count field is set apart). */
  function Accumulate(cs: seq<CostCenter>): (st: Statistics)
    ensures st.totalCostCenters == 0
  {
    if cs == [] then Statistics(0, 0, 0, 0, 0)
    else
      var st := Accumulate(cs[..|cs| - 1]);
      var c := cs[|cs| - 1];
      Statistics(0, st.totalAmount + AmountOr0(c.totalAmount),
        st.routineExpensesCount + Length(c.routineExpenses),
        st.employeeExpensesCount + Length(c.employeeExpenses),
        st.equipmentExpensesCount + Length(c.equipmentExpenses))
  }

  /** The summary of an export: the session's identity, the statistics over its centers and
      one entry per center, in order. */
  function SummaryOf(session: JsObject, data: ExportData, now: Time): SummaryDoc {
    var cs := if data.costCenters.Some? then data.costCenters.value else [];
    var st := Accumulate(cs);
    SummaryDoc(
      SessionInfo(Get(session, SessionId), Get(session, UserId), Get(session, CreatedAt), now.iso),
      st.(totalCostCenters := |cs|),
      seq(|cs|, i requires 0 <= i < |cs| => Summarize(cs[i])))
  }

  // ---------------------------------------------------------------------------
  // Export manager

  const NoExportSession := Error("Sessão não encontrada")
  const NullSessionId := Error("Cannot read properties of null (reading 'sessionId')")
  const UndefinedCostCenters := Error("Cannot read properties of undefined (reading 'costCenters')")

  /** The result check of `getExportData`: an HTTP error, the reply's error (or the
      fallback) when `success` is false, else `data.data`, which may be absent. */
  function ExportReply(reply: Reply<ExportData>): (r: Result<Option<ExportData>, Error>)
    ensures r.Success? <==> reply.ok && reply.body.success
    ensures r.Success? ==> r.value == reply.body.data
    ensures !reply.ok ==> r == Failure(HttpError(reply.status, reply.statusText))
    ensures reply.ok && !reply.body.success ==> r == Failure(Error(ErrorOr(reply.body.error, "Falha no export")))
  {
    if !reply.ok then Failure(HttpError(reply.status, reply.statusText))
    else if reply.body.success then Success(reply.body.data)
    else Failure(Error(ErrorOr(reply.body.error, "Falha no export")))
  }

  /** The files an individual export produces: one per center and the summary. With the
      zip library they go into one archive whose entries are listed separately. */
  function IndividualFiles(sessionId: Value, data: Option<ExportData>, zipAvailable: bool)
    : (r: Result<seq<string>, Error>)
    ensures data.None? ==> r == Failure(UndefinedCostCenters)
    ensures data.Some? && zipAvailable ==> r == Success([ZipName(sessionId)])
    ensures data.Some? && !zipAvailable && data.value.costCenters.None? ==>
      r == Failure(Error("Dados de centros de custo não encontrados"))
    ensures data.Some? && !zipAvailable && data.value.costCenters.Some? ==>
      var cs := data.value.costCenters.value;
      r == Success(seq(|cs|, i requires 0 <= i < |cs| => CenterFileName(cs[i])) + [SummaryName(sessionId)])
  {
    match data
    case None => Failure(UndefinedCostCenters)
    case Some(d) =>
      if zipAvailable then Success([ZipName(sessionId)])
      else if d.costCenters.None? then Failure(Error("Dados de centros de custo não encontrados"))
      else
        var cs := d.costCenters.value;
        Success(seq(|cs|, i requires 0 <= i < |cs| => CenterFileName(cs[i])) + [SummaryName(sessionId)])
  }

  /** The entries of the zip archive: one file per center, then `session_summary.json`. */
  function ZipEntries(data: ExportData): (names: seq<string>)
    ensures |names| == (if data.costCenters.Some? then |data.costCenters.value| else 0) + 1
    ensures data.costCenters.Some? ==>
      forall i :: 0 <= i < |data.costCenters.value| ==> names[i] == CenterFileName(data.costCenters.value[i])
    ensures names[|names| - 1] == "session_summary.json"
  {
    var cs := if data.costCenters.Some? then data.costCenters.value else [];
    seq(|cs|, i requires 0 <= i < |cs| => CenterFileName(cs[i])) + ["session_summary.json"]
  }

  /** The zip archive holds the same per-center files the sequential fallback downloads,
      in the same order; only the summary's name differs. */
  lemma ZipMatchesSequential(sessionId: Value, d: ExportData)
    requires d.costCenters.Some?
    ensures var entries := ZipEntries(d);
      IndividualFiles(sessionId, Some(d), false) ==
        Success(entries[..|entries| - 1] + [SummaryName(sessionId)])
  {
    var entries := ZipEntries(d);
    var cs := d.costCenters.value;
    assert entries[..|entries| - 1] == seq(|cs|, i requires 0 <= i < |cs| => CenterFileName(cs[i]));
  }

  /** What `handleDownload` ends with: the downloaded files, or the error it shows. */
  datatype DownloadResult = Downloaded(files: seq<string>) | Shown(message: string)

  /** `getExportStatistics()` for an existing session. */
  datatype ExportStats = ExportStats(sessionId: Value, canExport: Value, costCentersCount: nat, availableFormats: seq<string>)

  /** A file handed to the browser: its name and its text. */
  datatype Download = Download(filename: string, content: string)

  class ExportManager {
    var currentSession: Option<JsObject>

    constructor ()
      ensures currentSession == None
    {
      currentSession := None;
    }

    /** `setSession(session)`. */
    method SetSession(session: Option<JsObject>)
      modifies this
      ensures currentSession == session
    {
      currentSession := session;
    }

    /** `getExportData(consolidated)`: no request without a session. */
    method GetExportData(consolidated: bool, reply: Reply<ExportData>)
      returns (sent: bool, r: Result<Option<ExportData>, Error>)
      ensures sent <==> currentSession.Some?
      ensures currentSession.None? ==> r == Failure(NoExportSession)
      ensures currentSession.Some? ==> r == ExportReply(reply)
    {
      if currentSession.None? {
        return false, Failure(NoExportSession);
      }
      sent := true;
      r := ExportReply(reply);
    }

    /** `getExportStatistics()`: null without a session; exporting is allowed once the
      session is complete. */
    function ExportStatistics(): (s: Option<ExportStats>)
      reads this
      ensures s.None? <==> currentSession.None?
      ensures s.Some? ==> s.value.sessionId == Get(currentSession.value, SessionId)
      ensures s.Some? ==> (Truthy(s.value.canExport) <==> Truthy(Get(currentSession.value, IsComplete)))
      ensures s.Some? && Truthy(Get(currentSession.value, IsComplete)) ==> s.value.canExport == Get(currentSession.value, IsComplete)
      ensures s.Some? && !Truthy(Get(currentSession.value, IsComplete)) ==> s.value.canExport == Bool(false)
      ensures s.Some? ==> s.value.costCentersCount == LengthOr0(Get(currentSession.value, CostCenters))
      ensures s.Some? ==> s.value.availableFormats == ["JSON", "CSV", "ZIP"]
    {
      match currentSession
      case None => None
      case Some(session) =>
        Some(ExportStats(Get(session, SessionId), Or(Get(session, IsComplete), Bool(false)),
          LengthOr0(Get(session, CostCenters)), ["JSON", "CSV", "ZIP"]))
    }

    /** `exportToCSV()`: fails without a session, with a failed export request, or when the
      data has no centers; otherwise the CSV file named after the session. */
    method ExportToCSV(reply: Reply<ExportData>) returns (r: Result<Download, Error>)
      ensures currentSession.None? ==> r == Failure(Error("Nenhuma sessão ativa"))
      ensures currentSession.Some? && ExportReply(reply).Failure? ==> r == Failure(ExportReply(reply).error)
      ensures currentSession.Some? && ExportReply(reply) == Success(None) ==> r == Failure(UndefinedCostCenters)
      ensures currentSession.Some? && ExportReply(reply).Success? && ExportReply(reply).value.Some? ==>
        var d := ExportReply(reply).value.value;
        (d.costCenters.None? ==> r == Failure(Error("Dados não encontrados"))) &&
        (d.costCenters.Some? ==> r == Success(Download(CsvName(Get(currentSession.value, SessionId)), CsvText(d.costCenters.value))))
    {
      if currentSession.None? {
        return Failure(Error("Nenhuma sessão ativa"));
      }
      var sent, data := GetExportData(true, reply);
      if data.Failure? {
        return Failure(data.error);
      }
      if data.value.None? {
        return Failure(UndefinedCostCenters);
      }
      var csv := ConvertToCSV(data.value.value);
      if csv.Failure? {
        return Failure(csv.error);
      }
      r := Success(Download(CsvName(Get(currentSession.value, SessionId)), csv.value));
    }

    /** `createSessionSummary(exportData)` without the chat history: walks the centers,
      accumulating the statistics and one summary entry per center. */
    method CreateSessionSummary(data: ExportData, now: Time) returns (r: Result<SummaryDoc, Error>)
      ensures currentSession.None? ==> r == Failure(NullSessionId)
      ensures currentSession.Some? ==> r == Success(SummaryOf(currentSession.value, data, now))
    {
      if currentSession.None? {
        return Failure(NullSessionId);
      }
      var session := currentSession.value;
      var cs := if data.costCenters.Some? then data.costCenters.value else [];
      var statistics := Statistics(|cs|, 0, 0, 0, 0);
      var summaries: seq<CenterSummary> := [];
      var i := 0;
      while i < |cs|
        invariant 0 <= i <= |cs|
        invariant statistics == Accumulate(cs[..i]).(totalCostCenters := |cs|)
        invariant summaries == seq(i, k requires 0 <= k < i => Summarize(cs[k]))
      {
        var center := cs[i];
        statistics := statistics.(
          totalAmount := statistics.totalAmount + AmountOr0(center.totalAmount),
          routineExpensesCount := statistics.routineExpensesCount + Length(center.routineExpenses),
          employeeExpensesCount := statistics.employeeExpensesCount + Length(center.employeeExpenses),
          equipmentExpensesCount := statistics.equipmentExpensesCount + Length(center.equipmentExpenses));
        summaries := summaries + [Summarize(center)];
        assert cs[..i + 1][..i] == cs[..i];
        i := i + 1;
      }
      assert cs[..i] == cs;
      var info := SessionInfo(Get(session, SessionId), Get(session, UserId), Get(session, CreatedAt), now.iso);
      r := Success(SummaryDoc(info, statistics, summaries));
    }

    /** `handleDownload()`: without a session it shows a fixed message; otherwise it fetches
      the export and downloads the consolidated file or the individual ones, showing any
      error with an `Erro no export:` prefix. */
    method HandleDownload(consolidated: bool, reply: Reply<ExportData>, zipAvailable: bool)
      returns (result: DownloadResult)
      ensures currentSession.None? ==> result == Shown("Nenhuma sessão ativa para exportar")
      ensures currentSession.Some? && ExportReply(reply).Failure? ==>
        result == Shown("Erro no export: " + ExportReply(reply).error.message)
      ensures currentSession.Some? && ExportReply(reply).Success? && consolidated ==>
        result == Downloaded([ConsolidatedName(Get(currentSession.value, SessionId))])
      ensures currentSession.Some? && ExportReply(reply).Success? && !consolidated ==>
        match IndividualFiles(Get(currentSession.value, SessionId), ExportReply(reply).value, zipAvailable)
        case Success(files) => result == Downloaded(files)
        case Failure(e) => result == Shown("Erro no export: " + e.message)
    {
      if currentSession.None? {
        return Shown("Nenhuma sessão ativa para exportar");
      }
      var sessionId := Get(currentSession.value, SessionId);
      var sent, data := GetExportData(consolidated, reply);
      if data.Failure? {
        return Shown("Erro no export: " + data.error.message);
      }
      if consolidated {
        return Downloaded([ConsolidatedName(sessionId)]);
      }
      var files := IndividualFiles(sessionId, data.value, zipAvailable);
      if files.Failure? {
        return Shown("Erro no export: " + files.error.message);
      }
      result := Downloaded(files.value);
    }
  }

  // ---------------------------------------------------------------------------
  // Properties

  /** The CSV has one data row per expense item. */
  lemma {:induction false} CsvRowCount(cs: seq<CostCenter>)
    ensures |CsvRows(cs)| == TotalItems(cs)
  {
    if cs != [] {
      var c := cs[0];
      CsvRowCount(cs[1..]);
      assert cs == [c] + cs[1..];
      CsvRowsConcat([c], cs[1..]);
      assert CsvRows([c]) == CenterRows(c) by {
        assert [c][..0] == [];
        assert FlatMap([c], CenterRows) == FlatMap([], CenterRows) + CenterRows(c);
        assert [] + CenterRows(c) == CenterRows(c);
      }
    }
  }

  /** Rows go center by center in input order. */
  lemma CsvRowsConcat(a: seq<CostCenter>, b: seq<CostCenter>)
    ensures CsvRows(a + b) == CsvRows(a) + CsvRows(b)
  {
    FlatMapConcat(a, b, CenterRows);
  }

  /** Extending a prefix by one center appends that center's rows. */
  lemma CsvRowsStep(cs: seq<CostCenter>, i: nat)
    requires i < |cs|
    ensures CsvRows(cs[..i + 1]) == CsvRows(cs[..i]) + CenterRows(cs[i])
  {
    assert cs[..i + 1][..i] == cs[..i];
  }

  /** A row splits back into its six fields when neither name holds a comma. */
  lemma RowFieldsRoundTrip(c: CostCenter, kind: string, item: string, value: Option<int>)
    requires ',' !in c.name && ',' !in item && ',' !in kind
    ensures Split(Row(c, kind, item, value), ',') == RowFields(c, kind, item, value)
  {
    var fs := RowFields(c, kind, item, value);
    forall k | 0 <= k < 6
      ensures ',' !in fs[k]
    {
      if k == 0 || k == 2 || k == 5 {
        assert forall j :: 0 <= j < |fs[k]| ==> IsDigit(fs[k][j]) || fs[k][j] == '-';
      }
    }
    SplitJoin(fs, ',');
  }

  /** When no name holds a newline, splitting the CSV on newlines gives the header and then
      exactly the data rows. */
  lemma CsvLinesRoundTrip(cs: seq<CostCenter>)
    requires forall r :: r in CsvRows(cs) ==> '\n' !in r
    ensures Split(CsvText(cs), '\n') == [CsvHeader] + CsvRows(cs)
  {
    HeaderThenRows(CsvRows(cs));
  }

  lemma HeaderThenRows(rows: seq<string>)
    requires forall r :: r in rows ==> '\n' !in r
    ensures Split(Join([CsvHeader] + rows, "\n"), '\n') == [CsvHeader] + rows
  {
    var lines := [CsvHeader] + rows;
    HeaderWithoutNewline();
    assert forall k :: 0 < k < |lines| ==> lines[k] == rows[k - 1];
    assert forall k :: 0 <= k < |lines| ==> '\n' !in lines[k];
    SplitJoin(lines, '\n');
  }

  lemma HeaderWithoutNewline()
    ensures '\n' !in CsvHeader
  {
    assert forall k :: 0 <= k < |HeaderFields| ==> '\n' !in HeaderFields[k];
    JoinAvoids(HeaderFields, ",", '\n');
  }

  /** A row holds a newline only when one of its names does. */
  lemma RowWithoutNewline(c: CostCenter, kind: string, item: string, value: Option<int>)
    requires '\n' !in c.name && '\n' !in item && '\n' !in kind
    ensures '\n' !in Row(c, kind, item, value)
  {
    var fs := RowFields(c, kind, item, value);
    forall k | 0 <= k < 6
      ensures '\n' !in fs[k]
    {
      if k == 0 || k == 2 || k == 5 {
        assert forall j :: 0 <= j < |fs[k]| ==> IsDigit(fs[k][j]) || fs[k][j] == '-';
      }
    }
    JoinAvoids(fs, ",", '\n');
  }

  /** The summary counts every center and every expense item exactly once. */
  lemma {:induction false} SummaryCountsItems(cs: seq<CostCenter>)
    ensures var st := Accumulate(cs);
      st.routineExpensesCount + st.employeeExpensesCount + st.equipmentExpensesCount == TotalItems(cs)
  {
    if cs != [] {
      var init, last := cs[..|cs| - 1], cs[|cs| - 1];
      SummaryCountsItems(init);
      assert cs == init + [last];
      TotalItemsConcat(init, [last]);
      assert TotalItems([last]) == ItemCount(last) by {
        assert [last][1..] == [];
      }
    }
  }

  /** The statistics of a summary match its entries: as many entries as centers, each
      describing the center at the same position. */
  lemma SummaryMatchesCenters(session: JsObject, cs: seq<CostCenter>, now: Time)
    ensures var doc := SummaryOf(session, ExportData(Some(cs)), now);
      doc.statistics.totalCostCenters == |doc.costCenterSummary| == |cs| &&
      forall i :: 0 <= i < |cs| ==>
        doc.costCenterSummary[i].id == cs[i].id &&
        doc.costCenterSummary[i].name == cs[i].name &&
        doc.costCenterSummary[i].totalAmount == AmountOr0(cs[i].totalAmount) &&
        doc.costCenterSummary[i].routineExpenses == Length(cs[i].routineExpenses) &&
        doc.costCenterSummary[i].employeeExpenses == Length(cs[i].employeeExpenses) &&
        doc.costCenterSummary[i].equipmentExpenses == Length(cs[i].equipmentExpenses)
  {
    var doc := SummaryOf(session, ExportData(Some(cs)), now);
    assert doc.statistics.totalCostCenters == |cs|;
    assert |doc.costCenterSummary| == |cs|;
    assert forall i :: 0 <= i < |cs| ==> doc.costCenterSummary[i] == Summarize(cs[i]);
  }

  /** Replacing forbidden characters leaves a text without them unchanged. */
  lemma ReplaceForbiddenNoop(s: string)
    requires forall i :: 0 <= i < |s| ==> !Forbidden(s[i])
    ensures ReplaceForbidden(s) == s
  {
  }

  /** Collapsing whitespace leaves a text without whitespace unchanged. */
  lemma {:induction false} CollapseSpaceNoop(s: string)
    requires forall i :: 0 <= i < |s| ==> !IsSpace(s[i])
    ensures CollapseSpace(s) == s
    decreases |s|
  {
    if s != [] {
      CollapseSpaceNoop(s[1..]);
    }
  }

  /** A whitespace run followed by a non-space character (or the end) becomes a single
      underscore. */
  lemma CollapseRun(w: string, rest: string)
    requires |w| > 0 && AllSpace(w)
    requires rest == [] || !IsSpace(rest[0])
    ensures CollapseSpace(w + rest) == "_" + CollapseSpace(rest)
  {
    var s := w + rest;
    assert s[0] == w[0];
    TrimRun(w, rest);
  }

  lemma {:induction false} TrimRun(w: string, rest: string)
    requires AllSpace(w)
    requires rest == [] || !IsSpace(rest[0])
    ensures TrimStart(w + rest) == rest
    decreases |w|
  {
    if w != [] {
      assert (w + rest)[1..] == w[1..] + rest;
      TrimRun(w[1..], rest);
    } else {
      assert w + rest == rest;
    }
  }

  /** Sanitising twice is sanitising once. */
  lemma SanitizeIdempotent(name: string)
    ensures SanitizeFilename(SanitizeFilename(name)) == SanitizeFilename(name)
  {
    var s := SanitizeFilename(name);
    ReplaceForbiddenNoop(s);
    CollapseSpaceNoop(s);
    assert ToLower(s) == s;
  }

  /** Different center ids give different file names, whatever the names. */
  lemma CenterFileNamesDistinct(a: CostCenter, b: CostCenter)
    requires CenterFileName(a) == CenterFileName(b)
    ensures a.id == b.id
  {
    var x, y := IntToString(a.id), IntToString(b.id);
    var ra, rb := NameTail(a), NameTail(b);
    CenterFileNameShape(a);
    CenterFileNameShape(b);
    PrefixCancel("cost_center_", x + ra, y + rb);
    IdBeforeUnderscore(x, ra, y, rb);
    IntToStringInjective(a.id, b.id);
  }

  /** What follows the id in a center's file name. */
  function NameTail(c: CostCenter): (t: string)
    ensures |t| > 0 && t[0] == '_'
  {
    "_" + SanitizeFilename(c.name) + ".json"
  }

  lemma CenterFileNameShape(c: CostCenter)
    ensures CenterFileName(c) == "cost_center_" + (IntToString(c.id) + NameTail(c))
  {
    var p, x, n := "cost_center_", IntToString(c.id), SanitizeFilename(c.name);
    SeqAssoc(p + x + "_", n, ".json");
    SeqAssoc(p + x, "_", n + ".json");
    SeqAssoc(p, x, "_" + (n + ".json"));
    SeqAssoc("_", n, ".json");
  }

  lemma PrefixCancel(p: string, u: string, v: string)
    requires p + u == p + v
    ensures u == v
  {
    assert u == (p + u)[|p|..];
    assert v == (p + v)[|p|..];
  }

  /** The digits before the first `_` are determined by the text. */
  lemma IdBeforeUnderscore(x: string, ra: string, y: string, rb: string)
    requires forall j :: 0 <= j < |x| ==> IsDigit(x[j]) || x[j] == '-'
    requires forall j :: 0 <= j < |y| ==> IsDigit(y[j]) || y[j] == '-'
    requires |ra| > 0 && ra[0] == '_' && |rb| > 0 && rb[0] == '_'
    requires x + ra == y + rb
    ensures x == y
  {
    FirstUnderscore(x, ra);
    FirstUnderscore(y, rb);
    assert x == (x + ra)[..|x|];
    assert y == (y + rb)[..|y|];
  }

  lemma FirstUnderscore(x: string, r: string)
    requires forall j :: 0 <= j < |x| ==> IsDigit(x[j]) || x[j] == '-'
    requires |r| > 0 && r[0] == '_'
    ensures IndexOf(x + r, '_') == |x|
  {
    var s := x + r;
    assert s[|x|] == '_';
    var i := IndexOf(s, '_');
    assert forall j :: 0 <= j < |x| ==> s[j] == x[j];
    assert i >= |x|;
    assert s[..i + 0] == s[..i];
    assert forall j :: 0 <= j < i ==> s[..i][j] == s[j];
  }
}
