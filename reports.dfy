// The work-reports page (src/app/reports/reports.component.ts): the
// filtered and sorted list, the totals, the type lookup, the form's error
// texts, and the list updates when the backend answers a create or a delete.

module Reports {
  import opened Common
  import AssessmentsConversion

  /** A report; `reportDay` stands for the `YYYY-MM-DD` date as a day number. */
  datatype Report = Report(id: Option<int>, employeeId: int, title: string, content: string, summary: string,
                           kind: string, completedTasks: int, pendingTasks: int, blockers: int, reportDay: int)

  function ReportDay(r: Report): int
  {
    r.reportDay
  }

  // ---------------------------------------------------------------------
  // The list shown

  /** The search text occurs, ignoring case, in the title, the summary or the content. */
  predicate Matches(r: Report, search: string)
  {
    Contains(ToLower(r.title), search) || Contains(ToLower(r.summary), search) || Contains(ToLower(r.content), search)
  }

  /** Shown under the type filter: every report for 'all', otherwise those whose type is exactly the filter. */
  predicate TypeShown(r: Report, filterType: string)
  {
    filterType == "all" || r.kind == filterType
  }

  /** Shown under the search: every report for an empty search. */
  predicate SearchShown(r: Report, searchTerm: string)
  {
    searchTerm == "" || Matches(r, ToLower(searchTerm))
  }

  /** Shown under both the type filter and the search. */
  predicate PassesFilters(r: Report, filterType: string, searchTerm: string)
  {
    TypeShown(r, filterType) && SearchShown(r, searchTerm)
  }

  /**
   * `filteredReports`: the reports passing the type filter and the search,
   * newest report date first, each as often as it occurs in the list.
   */
  function FilteredReports(reports: seq<Report>, filterType: string, searchTerm: string): (r: seq<Report>)
    ensures SortedDesc(r, ReportDay)
    ensures multiset(r) == multiset(Filter(reports, (x: Report) => PassesFilters(x, filterType, searchTerm)))
    ensures forall x :: x in r <==> x in reports && TypeShown(x, filterType) && SearchShown(x, searchTerm)
  {
    var sorted := SortDesc(BySearch(ByType(reports, filterType), searchTerm), ReportDay);
    FiltersCompose(reports, filterType, searchTerm);
    assert forall x :: x in sorted <==> x in multiset(sorted);
    sorted
  }

  /** The type filter followed by the search is one filter by `PassesFilters`. */
  lemma FiltersCompose(reports: seq<Report>, filterType: string, searchTerm: string)
    ensures BySearch(ByType(reports, filterType), searchTerm) == Filter(reports, (x: Report) => PassesFilters(x, filterType, searchTerm))
  {
    var shown := (x: Report) => PassesFilters(x, filterType, searchTerm);
    var search := ToLower(searchTerm);
    assert search == "" <==> searchTerm == "";
    if filterType == "all" && searchTerm == "" {
      FilterAll(reports, shown);
    } else if filterType == "all" {
      FilterExt(reports, (x: Report) => Matches(x, search), shown);
    } else if searchTerm == "" {
      FilterExt(reports, (x: Report) => x.kind == filterType, shown);
    } else {
      FilterFilter(reports, (x: Report) => x.kind == filterType, (x: Report) => Matches(x, search), shown);
    }
  }

  function ByType(reports: seq<Report>, filterType: string): (r: seq<Report>)
    ensures forall x :: x in r <==> x in reports && TypeShown(x, filterType)
    ensures filterType == "all" ==> r == reports
  {
    if filterType != "all" then Filter(reports, (x: Report) => x.kind == filterType) else reports
  }

  function BySearch(reports: seq<Report>, searchTerm: string): (r: seq<Report>)
    ensures forall x :: x in r <==> x in reports && SearchShown(x, searchTerm)
    ensures searchTerm == "" ==> r == reports
  {
    var search := ToLower(searchTerm);
    assert search == "" <==> searchTerm == "";
    if search != "" then Filter(reports, (x: Report) => Matches(x, search)) else reports
  }

  /** With no filter and no search the page shows every report, each as often as it occurs. */
  lemma NoFilterShowsAll(reports: seq<Report>)
    ensures multiset(FilteredReports(reports, "all", "")) == multiset(reports)
  {
  }

  lemma LowerUpperLower(s: string)
    ensures ToLower(ToUpper(s)) == ToLower(s)
  {
    forall i | 0 <= i < |s| ensures ToLower(ToUpper(s))[i] == ToLower(s)[i] {
      LowerOfUpperChar(s[i]);
    }
  }

  /** The search ignores case: typing it in capitals shows the same list. */
  lemma SearchIgnoresCase(reports: seq<Report>, filterType: string, searchTerm: string)
    ensures forall x :: x in FilteredReports(reports, filterType, ToUpper(searchTerm)) <==>
      x in FilteredReports(reports, filterType, searchTerm)
  {
    LowerUpperLower(searchTerm);
  }

  /** The type names the form offers. */
  const TypeValues: seq<string> := ["daily", "weekly", "monthly", "project", "incident"]

  /**
   * The type filter compares with the exact text, so once the backend holds
   * types upper-cased, choosing one of the offered types shows nothing.
   */
  lemma UpperCaseTypesNeverMatch(reports: seq<Report>, filterType: string, searchTerm: string)
    requires filterType in TypeValues
    requires forall x :: x in reports ==> x.kind == ToUpper(x.kind)
    ensures forall x :: x !in FilteredReports(reports, filterType, searchTerm)
  {
    OfferedTypeChangesUpper(filterType);
    forall x | x in reports ensures !TypeShown(x, filterType) {
    }
  }

  /** Every offered type name changes when upper-cased. */
  lemma OfferedTypeChangesUpper(filterType: string)
    requires filterType in TypeValues
    ensures filterType != "all" && filterType != ToUpper(filterType)
  {
    var k :| 0 <= k < |TypeValues| && TypeValues[k] == filterType;
    TypeValueLower(k);
    assert ToUpper(filterType)[0] == UpperChar(filterType[0]);
  }

  lemma TypeValueLower(k: nat)
    requires k < |TypeValues|
    ensures |TypeValues[k]| > 0 && 'a' <= TypeValues[k][0] <= 'z'
    ensures NoUpperCase(TypeValues[k])
  {
    var v := TypeValues[k];
    if k == 0 {
      assert v == "daily";
    } else if k == 1 {
      assert v == "weekly";
    } else if k == 2 {
      assert v == "monthly";
    } else if k == 3 {
      assert v == "project";
    } else {
      assert v == "incident";
    }
  }

  // ---------------------------------------------------------------------
  // Totals

  datatype Statistics = Statistics(total: int, completed: int, pending: int, blockers: int)

  /** `statistics`: the count and the sums of the three task fields. */
  function StatisticsOf(reports: seq<Report>): (r: Statistics)
    ensures r.total == |reports|
  {
    if reports == [] then Statistics(0, 0, 0, 0)
    else
      var s := StatisticsOf(reports[..|reports| - 1]);
      var last := reports[|reports| - 1];
      Statistics(s.total + 1, s.completed + last.completedTasks, s.pending + last.pendingTasks,
                 s.blockers + last.blockers)
  }

  /** Appending a report adds one to the count and its figures to the sums. */
  lemma StatisticsAppend(reports: seq<Report>, x: Report)
    ensures StatisticsOf(reports + [x]) ==
      Statistics(|reports| + 1, StatisticsOf(reports).completed + x.completedTasks,
                 StatisticsOf(reports).pending + x.pendingTasks, StatisticsOf(reports).blockers + x.blockers)
  {
    assert (reports + [x])[..|reports|] == reports;
  }

  predicate NonNegativeCounts(x: Report)
  {
    x.completedTasks >= 0 && x.pendingTasks >= 0 && x.blockers >= 0
  }

  /** Reports with no negative figure give no negative total. */
  lemma {:induction false} StatisticsNonNegative(reports: seq<Report>)
    requires forall x :: x in reports ==> NonNegativeCounts(x)
    ensures StatisticsOf(reports).completed >= 0 && StatisticsOf(reports).pending >= 0 &&
            StatisticsOf(reports).blockers >= 0
  {
    if reports != [] {
      var init := reports[..|reports| - 1];
      assert forall x :: x in init ==> x in reports;
      StatisticsNonNegative(init);
      assert reports[|reports| - 1] in reports;
    }
  }

  // ---------------------------------------------------------------------
  // Type lookup

  datatype TypeInfo = TypeInfo(value: string, labelKey: string, icon: string, color: string)

  const ReportTypes: seq<TypeInfo> := [
    TypeInfo("daily", "reports.types.daily", "fa-calendar-day", "#0d6efd"),
    TypeInfo("weekly", "reports.types.weekly", "fa-calendar-week", "#198754"),
    TypeInfo("monthly", "reports.types.monthly", "fa-calendar", "#6f42c1"),
    TypeInfo("project", "reports.types.project", "fa-folder-open", "#fd7e14"),
    TypeInfo("incident", "reports.types.incident", "fa-exclamation-triangle", "#dc3545")
  ]

  function FindType(types: seq<TypeInfo>, value: string): (r: Option<TypeInfo>)
    ensures r.None? <==> forall t :: t in types ==> t.value != value
    ensures r.Some? ==> r.value in types && r.value.value == value
  {
    if types == [] then None
    else if types[0].value == value then Some(types[0])
    else FindType(types[1..], value)
  }

  /** `getTypeInfo`: the entry for the type in lower case, the daily entry when there is none. */
  function GetTypeInfo(kind: string): (r: TypeInfo)
    ensures r in ReportTypes
    ensures (exists t :: t in ReportTypes && t.value == ToLower(kind)) ==> r.value == ToLower(kind)
    ensures (forall t :: t in ReportTypes ==> t.value != ToLower(kind)) ==> r == ReportTypes[0]
  {
    FindType(ReportTypes, ToLower(kind)).GetOr(ReportTypes[0])
  }

  predicate NoUpperCase(s: string)
  {
    forall i :: 0 <= i < |s| ==> !IsUpperLetter(s[i])
  }

  lemma LowerOfUpper(s: string)
    requires NoUpperCase(s)
    ensures ToLower(ToUpper(s)) == s
  {
    forall i | 0 <= i < |s| ensures ToLower(ToUpper(s))[i] == s[i] {
      LowerOfUpperChar(s[i]);
    }
  }

  /** A type the backend returns upper-cased still finds its own entry. */
  lemma UpperCaseTypeFound(i: nat)
    requires i < |ReportTypes|
    ensures GetTypeInfo(ToUpper(ReportTypes[i].value)) == ReportTypes[i]
  {
    TypeTable();
    TypeValueLower(i);
    LowerOfUpper(ReportTypes[i].value);
    var r := GetTypeInfo(ToUpper(ReportTypes[i].value));
    assert ReportTypes[i] in ReportTypes;
    var j :| 0 <= j < |ReportTypes| && ReportTypes[j] == r;
    assert r.value == ReportTypes[i].value;
    assert TypeValues[j] == TypeValues[i];
    assert j == i;
  }

  /** The table holds the offered type names in order, each once. */
  lemma TypeTable()
    ensures |ReportTypes| == |TypeValues|
    ensures forall k :: 0 <= k < |ReportTypes| ==> ReportTypes[k].value == TypeValues[k]
    ensures forall j, k :: 0 <= j < k < |TypeValues| ==> TypeValues[j] != TypeValues[k]
  {
  }

  // ---------------------------------------------------------------------
  // The form

  /** The form's values; an empty number or date field is `None`. */
  datatype ReportForm = ReportForm(employeeId: Option<int>, title: string, content: string, summary: string,
                                   kind: string, completedTasks: Option<int>, pendingTasks: Option<int>,
                                   blockers: Option<int>, reportDay: Option<int>)

  datatype ReportField = EmployeeField | TitleField | ContentField | SummaryField | TypeField | CompletedField
                       | PendingField | BlockersField | DateField

  /** The validator errors the form uses; a length or minimum error carries its bound. */
  datatype FieldErrors = FieldErrors(required: bool, minlength: Option<int>, maxlength: Option<int>, min: Option<int>)

  predicate HasErrors(e: FieldErrors)
  {
    e.required || e.minlength.Some? || e.maxlength.Some? || e.min.Some?
  }

  /** A text control: required, with an optional minimum and maximum length (an empty value is left to `required`). */
  function TextErrors(v: string, minLen: int, maxLen: Option<int>): FieldErrors
  {
    FieldErrors(v == [], if 0 < |v| < minLen then Some(minLen) else None,
                if maxLen.Some? && |v| > maxLen.value then maxLen else None, None)
  }

  /** A number control: required, with a least value. */
  function NumberErrors(v: Option<int>, least: int): FieldErrors
  {
    FieldErrors(v.None?, None, None, if v.Some? && v.value < least then Some(least) else None)
  }

  function FormErrors(form: ReportForm, field: ReportField): FieldErrors
  {
    match field
    case EmployeeField => NumberErrors(form.employeeId, 1)
    case TitleField => TextErrors(form.title, 5, Some(200))
    case ContentField => TextErrors(form.content, 20, None)
    case SummaryField => TextErrors(form.summary, 10, Some(500))
    case TypeField => TextErrors(form.kind, 0, None)
    case CompletedField => NumberErrors(form.completedTasks, 0)
    case PendingField => NumberErrors(form.pendingTasks, 0)
    case BlockersField => NumberErrors(form.blockers, 0)
    case DateField => FieldErrors(form.reportDay.None?, None, None, None)
  }

  predicate FormValid(form: ReportForm)
  {
    forall field :: !HasErrors(FormErrors(form, field))
  }

  /** What a valid form means for each field. */
  lemma FormValidMeans(form: ReportForm)
    ensures FormValid(form) <==>
      form.employeeId.Some? && form.employeeId.value >= 1 &&
      5 <= |form.title| <= 200 && |form.content| >= 20 && 10 <= |form.summary| <= 500 && form.kind != [] &&
      form.completedTasks.Some? && form.completedTasks.value >= 0 &&
      form.pendingTasks.Some? && form.pendingTasks.value >= 0 &&
      form.blockers.Some? && form.blockers.value >= 0 && form.reportDay.Some?
  {
    if FormValid(form) {
      assert !HasErrors(FormErrors(form, EmployeeField));
      assert !HasErrors(FormErrors(form, TitleField));
      assert !HasErrors(FormErrors(form, ContentField));
      assert !HasErrors(FormErrors(form, SummaryField));
      assert !HasErrors(FormErrors(form, TypeField));
      assert !HasErrors(FormErrors(form, CompletedField));
      assert !HasErrors(FormErrors(form, PendingField));
      assert !HasErrors(FormErrors(form, BlockersField));
      assert !HasErrors(FormErrors(form, DateField));
    }
  }

  /**
   * `getFieldError`: nothing unless the field is touched and has an error;
   * then the first of required, minimum length, maximum length, minimum.
   */
  function FieldError(touched: bool, e: FieldErrors): (r: Option<string>)
    ensures r.Some? <==> touched && HasErrors(e)
    ensures r.Some? && e.required ==> r.value == "Este campo es obligatorio"
    ensures r.Some? && !e.required && e.minlength.Some? ==> r.value == "Mínimo " + IntToText(e.minlength.value) + " caracteres"
    ensures r.Some? && !e.required && e.minlength.None? && e.maxlength.Some? ==>
      r.value == "Máximo " + IntToText(e.maxlength.value) + " caracteres"
    ensures r.Some? && !e.required && e.minlength.None? && e.maxlength.None? ==>
      r.value == "Valor mínimo: " + IntToText(e.min.value)
  {
    if !(touched && HasErrors(e)) then None
    else if e.required then Some("Este campo es obligatorio")
    else if e.minlength.Some? then Some("Mínimo " + IntToText(e.minlength.value) + " caracteres")
    else if e.maxlength.Some? then Some("Máximo " + IntToText(e.maxlength.value) + " caracteres")
    else Some("Valor mínimo: " + IntToText(e.min.value))
  }

  /** A valid form shows no error on any field, touched or not. */
  lemma ValidFormShowsNoError(form: ReportForm, field: ReportField, touched: bool)
    requires FormValid(form)
    ensures FieldError(touched, FormErrors(form, field)).None?
  {
  }

  /** The report a valid form sends. */
  function ReportOf(form: ReportForm): (r: Report)
    requires FormValid(form)
    ensures r.id.None? && r.title == form.title && r.kind == form.kind && NonNegativeCounts(r)
  {
    assert !HasErrors(FormErrors(form, EmployeeField)) && !HasErrors(FormErrors(form, CompletedField)) &&
           !HasErrors(FormErrors(form, PendingField)) && !HasErrors(FormErrors(form, BlockersField)) &&
           !HasErrors(FormErrors(form, DateField));
    Report(None, form.employeeId.value, form.title, form.content, form.summary, form.kind,
           form.completedTasks.value, form.pendingTasks.value, form.blockers.value, form.reportDay.value)
  }

  // ---------------------------------------------------------------------
  // Offline fallback

  /** The two demonstration reports shown when the backend cannot be reached; `today` is a day number. */
  function DemoReports(today: int): (r: seq<Report>)
    ensures |r| == 2 && r[0].reportDay == today && r[1].reportDay == today - 2
  {
    [
      Report(Some(1), 1, DailyTitle, DailyContent, DailySummary, "daily", 5, 2, 0, today),
      Report(Some(2), 1, WeeklyTitle, WeeklyContent, WeeklySummary, "weekly", 12, 3, 1, today - 2)
    ]
  }

  const DailyTitle: string := "Reporte Diario - Desarrollo de Frontend"
  const DailyContent: string :=
    "Hoy completé la implementación del módulo de autenticación con validación de formularios y manejo de " +
    "errores. Se implementaron las pantallas de login y registro con diseño responsivo."
  const DailySummary: string := "Implementación del módulo de autenticación completada con éxito."
  const WeeklyTitle: string := "Reporte Semanal - Sprint 3"
  const WeeklyContent: string :=
    "Durante esta semana se completaron las historias de usuario relacionadas con el dashboard principal. " +
    "Se realizaron pruebas de integración y se corrigieron bugs menores."
  const WeeklySummary: string := "Sprint 3 completado al 85%, pendiente refinamiento de UI."

  /** The demonstration data totals two reports, 17 completed, 5 pending and 1 blocker. */
  lemma DemoStatistics(today: int)
    ensures StatisticsOf(DemoReports(today)) == Statistics(2, 17, 5, 1)
  {
    var d := DemoReports(today);
    assert d[..1] == [d[0]] && [d[0]][..0] == [];
    assert StatisticsOf([d[0]]) == Statistics(1, 5, 2, 0);
  }

  /** The text whose presence in a load error switches to the demonstration data. */
  const OfflineMarker: string := "conectar con el servidor"

  /** The status-0 message of the backend clients contains the marker. */
  lemma UnreachableTriggersFallback(message: string)
    ensures Contains(AssessmentsConversion.ErrorMessage(AssessmentsConversion.ServerSide(0, message)), OfflineMarker)
  {
    var r := AssessmentsConversion.ErrorMessage(AssessmentsConversion.ServerSide(0, message));
    var head := "No se puede ";
    assert r == head + OfflineMarker + ". Verifica que el backend esté ejecutándose.";
    assert r[|head|..|head| + |OfflineMarker|] == OfflineMarker;
    assert OccursAt(r, OfflineMarker, |head|);
  }

  const Created: string := "¡Reporte creado exitosamente!"
  const Deleted: string := "¡Reporte eliminado exitosamente!"

  /** The page. */
  class ReportsPage {
    var reports: seq<Report>
    var filterType: string
    var searchTerm: string
    var showCreateModal: bool
    var showViewModal: bool
    var selectedReport: Option<Report>
    var isLoading: bool
    var errorMessage: string
    /** The `alert` texts shown, oldest first. */
    var alerts: seq<string>

    constructor ()
      ensures reports == [] && filterType == "all" && searchTerm == "" && !showCreateModal && !showViewModal
      ensures selectedReport.None? && !isLoading && errorMessage == "" && alerts == []
    {
      reports := [];
      filterType := "all";
      searchTerm := "";
      showCreateModal := false;
      showViewModal := false;
      selectedReport := None;
      isLoading := false;
      errorMessage := "";
      alerts := [];
    }

    /** What the list shows: the reports passing the type filter and the search, newest first. */
    function Shown(): (r: seq<Report>)
      reads this
      ensures SortedDesc(r, ReportDay)
      ensures forall x :: x in r <==> x in reports && TypeShown(x, filterType) && SearchShown(x, searchTerm)
    {
      FilteredReports(reports, filterType, searchTerm)
    }

    /** `loadReportsFromBackend`, request sent. */
    method StartLoading()
      modifies this`isLoading, this`errorMessage
      ensures isLoading && errorMessage == ""
    {
      isLoading := true;
      errorMessage := "";
    }

    /** The load answered: the list is replaced. */
    method LoadSucceeded(loaded: seq<Report>)
      modifies this`reports, this`isLoading
      ensures reports == loaded && !isLoading
    {
      reports := loaded;
      isLoading := false;
    }

    /** The load failed: the message is shown, and an unreachable backend brings the demonstration data. */
    method LoadFailed(message: string, today: int)
      modifies this`reports, this`isLoading, this`errorMessage
      ensures errorMessage == message && !isLoading
      ensures Contains(message, OfflineMarker) ==> reports == DemoReports(today)
      ensures !Contains(message, OfflineMarker) ==> reports == old(reports)
    {
      errorMessage := message;
      isLoading := false;
      if Contains(message, OfflineMarker) {
        reports := DemoReports(today);
      }
    }

    method SetFilter(kind: string)
      modifies this`filterType
      ensures filterType == kind
    {
      filterType := kind;
    }

    method SetSearch(text: string)
      modifies this`searchTerm
      ensures searchTerm == text
    {
      searchTerm := text;
    }

    method OpenCreateModal()
      modifies this`showCreateModal
      ensures showCreateModal
    {
      showCreateModal := true;
    }

    method CloseCreateModal()
      modifies this`showCreateModal
      ensures !showCreateModal
    {
      showCreateModal := false;
    }

    method ViewReport(report: Report)
      modifies this`selectedReport, this`showViewModal
      ensures selectedReport == Some(report) && showViewModal
    {
      selectedReport := Some(report);
      showViewModal := true;
    }

    method CloseViewModal()
      modifies this`selectedReport, this`showViewModal
      ensures selectedReport.None? && !showViewModal
    {
      showViewModal := false;
      selectedReport := None;
    }

    /** `createReport`: an invalid form sends nothing; a valid one sends its report and the page waits. */
    method CreateReport(form: ReportForm) returns (sent: Option<Report>)
      modifies this`isLoading
      ensures sent.Some? <==> FormValid(form)
      ensures sent.Some? ==> sent.value == ReportOf(form) && isLoading
      ensures sent.None? ==> isLoading == old(isLoading)
    {
      if !FormValid(form) {
        return None;
      }
      isLoading := true;
      return Some(ReportOf(form));
    }

    /** The create answered: the stored report is appended and the modal closed. */
    method CreateSucceeded(created: Report)
      modifies this`reports, this`showCreateModal, this`isLoading, this`alerts
      ensures reports == old(reports) + [created]
      ensures StatisticsOf(reports).total == StatisticsOf(old(reports)).total + 1
      ensures !showCreateModal && !isLoading && alerts == old(alerts) + [Created]
    {
      StatisticsAppend(reports, created);
      reports := reports + [created];
      CloseCreateModal();
      isLoading := false;
      alerts := alerts + [Created];
    }

    /** A create or delete failed: the list is unchanged and the message shown. */
    method RequestFailed(message: string, prefix: string)
      modifies this`errorMessage, this`isLoading, this`alerts
      ensures errorMessage == message && !isLoading && alerts == old(alerts) + [prefix + message]
    {
      errorMessage := message;
      isLoading := false;
      alerts := alerts + [prefix + message];
    }

    /** `deleteReport`: nothing without confirmation; otherwise the request is sent and the page waits. */
    method DeleteReport(confirmed: bool) returns (sent: bool)
      modifies this`isLoading
      ensures sent == confirmed
      ensures isLoading == (confirmed || old(isLoading))
    {
      if !confirmed {
        return false;
      }
      isLoading := true;
      return true;
    }

    /** The delete answered: every report with that id leaves the list, all others stay in their order. */
    method DeleteSucceeded(id: int)
      modifies this`reports, this`isLoading, this`alerts
      ensures reports == Filter(old(reports), (x: Report) => x.id != Some(id))
      ensures forall x :: x in reports <==> x in old(reports) && x.id != Some(id)
      ensures |reports| <= |old(reports)|
      ensures !isLoading && alerts == old(alerts) + [Deleted]
    {
      reports := Filter(reports, (x: Report) => x.id != Some(id));
      isLoading := false;
      alerts := alerts + [Deleted];
    }
  }

  /** A report created with an id and then deleted by that id is no longer shown, whatever the filter. */
  lemma CreateThenDeleteHides(reports: seq<Report>, created: Report, id: int, filterType: string, searchTerm: string)
    requires created.id == Some(id)
    ensures created !in FilteredReports(Filter(reports + [created], (x: Report) => x.id != Some(id)), filterType, searchTerm)
  {
  }
}
