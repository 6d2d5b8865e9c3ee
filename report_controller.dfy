/** The REST controller under `/api/reports`: how each endpoint turns its
    inputs into a status, a body and the attachment headers. The HTTP
    framework, the clock and the byte encoding of error texts are outside
    the model: the formatted timestamp is an argument, and an error
    response carries its message as text. */
module ReportController {
  import opened Wrappers
  import opened Ascii
  import opened Model
  import opened Filtering
  import opened EmployeeData
  import opened JasperReport

  const DEFAULT_FORMAT := "pdf"
  const DEFAULT_REPORT_NAME := "employee_report"
  const DEFAULT_MIN_SALARY := 0.0
  const DEFAULT_MAX_SALARY := 999999.0

  const OK := 200
  const BAD_REQUEST := 400
  const NOT_FOUND := 404
  const INTERNAL_SERVER_ERROR := 500

  /** A response: either report bytes with their headers (status 200) or an
      error status with a text body. */
  datatype Response =
    | Report(bytes: seq<byte>, contentType: string, filename: string, contentLength: int)
    | Error(status: int, message: string)
  {
    function Status(): int {
      if Report? then OK else status
    }
  }

  /** A successful response for `format`: the headers agree with the bytes and
      with the format, which is one of the three supported ones. The two
      conjuncts about the fallbacks are consequences of that (by
      `LookupsAgree`), spelled out for readers of the endpoint contracts. */
  predicate Delivered(r: Response, format: string, filename: string) {
    r.Report? &&
    IsSupportedFormat(format) &&
    r.contentType == ContentType(format) && r.contentType != FALLBACK_CONTENT_TYPE &&
    r.filename == filename && FileExtension(format) != FALLBACK_EXTENSION &&
    r.contentLength == |r.bytes|
  }

  /** `getSupportedFormats`: the formats offered to clients, in this order. */
  function SupportedFormats(): (r: seq<string>)
    ensures |r| == 3 && r[0] == "pdf" && r[1] == "xlsx" && r[2] == "html"
  {
    ["pdf", "xlsx", "html"]
  }

  /** The advertised formats are exactly the lower-case strings the endpoints accept. */
  lemma SupportedFormatsAccepted(format: string)
    ensures format in SupportedFormats() <==> IsSupportedFormat(format) && Lower(format) == format
  {
    if IsSupportedFormat(format) && Lower(format) == format {
      assert format == "pdf" || format == "xlsx" || format == "html";
    }
  }

  /** The attachment name: a fixed prefix, an optional discriminator, the
      timestamp and the extension of the format. */
  function ReportFilename(prefix: string, discriminator: string, timestamp: string, format: string): (r: string)
    ensures prefix <= r
    ensures |r| == |prefix| + |discriminator| + |timestamp| + |FileExtension(format)|
    ensures r[|r| - |FileExtension(format)|..] == FileExtension(format)
    ensures r[|prefix|..|prefix| + |discriminator|] == discriminator
  {
    prefix + discriminator + timestamp + FileExtension(format)
  }

  /** The timestamp can be read back from a file name. */
  lemma FilenameTimestamp(prefix: string, discriminator: string, timestamp: string, format: string)
    ensures var r := ReportFilename(prefix, discriminator, timestamp, format);
            r[|prefix| + |discriminator|..|r| - |FileExtension(format)|] == timestamp
  {
    var r := ReportFilename(prefix, discriminator, timestamp, format);
    assert r == (prefix + discriminator) + timestamp + FileExtension(format);
  }

  /** The format switch of the report endpoints: one of the three fixed-format
      generators, or an `IllegalArgumentException` for anything else. */
  function Dispatch(engine: Engine, rows: seq<Employee>, template: string, format: string): (r: Result<seq<byte>>)
    ensures !IsSupportedFormat(format) ==> r == Failure(UnsupportedFormat(format))
    ensures Lower(format) == "pdf" ==> r == GeneratePdfReport(engine, rows, template)
    ensures Lower(format) == "xlsx" ==> r == GenerateExcelReport(engine, rows, template)
    ensures Lower(format) == "html" ==> r == GenerateHtmlReport(engine, rows, template)
  {
    match ParseFormat(format)
    case Some(Pdf) => GeneratePdfReport(engine, rows, template)
    case Some(Xlsx) => GenerateExcelReport(engine, rows, template)
    case Some(Html) => GenerateHtmlReport(engine, rows, template)
    case None => Failure(UnsupportedFormat(format))
  }

  /** How an endpoint reports the outcome of rendering: the bytes with their
      headers (status 200) on success, a 500 whose body is `errorPrefix`
      followed by the exception message on failure. */
  predicate RespondsWith(r: Response, rendered: Result<seq<byte>>, format: string, filename: string, errorPrefix: string) {
    (rendered.Success? ==> Delivered(r, format, filename) && r.bytes == rendered.value) &&
    (rendered.Failure? ==> r == Error(INTERNAL_SERVER_ERROR, errorPrefix + rendered.error))
  }

  /** The tail shared by the endpoints. */
  function Respond(rendered: Result<seq<byte>>, format: string, filename: string, errorPrefix: string): (r: Response)
    requires rendered.Success? ==> IsSupportedFormat(format)
    ensures RespondsWith(r, rendered, format, filename, errorPrefix)
    ensures r.Status() == OK <==> rendered.Success?
  {
    LookupsAgree(format);
    match rendered
    case Success(bytes) => Report(bytes, ContentType(format), filename, |bytes|)
    case Failure(message) => Error(INTERNAL_SERVER_ERROR, errorPrefix + message)
  }

  /** GET `/employee`: the whole fixture with template "employee_report". */
  function EmployeeReport(engine: Engine, format: string, timestamp: string): (r: Response)
    ensures r.Status() == OK || r.Status() == INTERNAL_SERVER_ERROR
    ensures !IsSupportedFormat(format) ==>
              r == Error(INTERNAL_SERVER_ERROR, "Error generating report: " + UnsupportedFormat(format))
    ensures RespondsWith(r, Dispatch(engine, MockEmployees(), DEFAULT_REPORT_NAME, format), format,
                         ReportFilename("employee_report_", "", timestamp, format), "Error generating report: ")
    ensures r.Status() == OK <==> Dispatch(engine, MockEmployees(), DEFAULT_REPORT_NAME, format).Success?
  {
    var rendered := Dispatch(engine, MockEmployees(), DEFAULT_REPORT_NAME, format);
    Respond(rendered, format, ReportFilename("employee_report_", "", timestamp, format), "Error generating report: ")
  }

  /** A missing "employee_report" template surfaces as a 500 whose body
      carries both wrappings: the controller's and the renderer's. */
  lemma MissingTemplateMessage(engine: Engine, format: string, timestamp: string)
    requires Lower(format) == "pdf"
    requires !engine.templateExists(DEFAULT_REPORT_NAME)
    ensures EmployeeReport(engine, format, timestamp)
         == Error(INTERNAL_SERVER_ERROR,
                  "Error generating report: " + ("Error generating PDF report: " + TemplateNotFound(DEFAULT_REPORT_NAME)))
  {
    FixedPrefix("pdf", "PDF");
    var rendered := Dispatch(engine, MockEmployees(), DEFAULT_REPORT_NAME, format);
    assert rendered == GenerateReport(engine, MockEmployees(), DEFAULT_REPORT_NAME, "pdf");
    assert rendered == Failure(GenerationError("pdf", TemplateNotFound(DEFAULT_REPORT_NAME)));
  }

  /** GET `/employee/department/{department}`: 404 for a department with no
      records, whatever the format; otherwise the department's records. */
  function DepartmentReport(engine: Engine, department: string, format: string, timestamp: string): (r: Response)
    ensures r.Status() == OK || r.Status() == NOT_FOUND || r.Status() == INTERNAL_SERVER_ERROR
    ensures ByDepartment(department) == [] <==>
              r == Error(NOT_FOUND, "No employees found in department: " + department)
    ensures ByDepartment(department) != [] && !IsSupportedFormat(format) ==>
              r == Error(INTERNAL_SERVER_ERROR, "Error generating report: " + UnsupportedFormat(format))
    ensures ByDepartment(department) != [] ==>
              RespondsWith(r, Dispatch(engine, ByDepartment(department), DEFAULT_REPORT_NAME, format), format,
                           ReportFilename("employee_report_", Lower(department) + "_", timestamp, format),
                           "Error generating report: ")
    ensures r.Status() == OK <==>
              ByDepartment(department) != [] && Dispatch(engine, ByDepartment(department), DEFAULT_REPORT_NAME, format).Success?
  {
    var employees := ByDepartment(department);
    if employees == [] then
      Error(NOT_FOUND, "No employees found in department: " + department)
    else
      var rendered := Dispatch(engine, employees, DEFAULT_REPORT_NAME, format);
      Respond(rendered, format,
              ReportFilename("employee_report_", Lower(department) + "_", timestamp, format),
              "Error generating report: ")
  }

  /** GET `/employee/salary`: 404 for a range with no records, whatever the
      format; otherwise the records in the range. `showDouble` renders a bound
      as Java's `Double.toString` does. */
  function SalaryReport(engine: Engine, minSalary: real, maxSalary: real, format: string, timestamp: string,
                        showDouble: real -> string): (r: Response)
    ensures r.Status() == OK || r.Status() == NOT_FOUND || r.Status() == INTERNAL_SERVER_ERROR
    ensures WithSalaryRange(minSalary, maxSalary) == [] <==>
              r == Error(NOT_FOUND, "No employees found with salary between " + showDouble(minSalary) + " and " + showDouble(maxSalary))
    ensures minSalary > maxSalary ==> r.Status() == NOT_FOUND
    ensures WithSalaryRange(minSalary, maxSalary) != [] && !IsSupportedFormat(format) ==>
              r == Error(INTERNAL_SERVER_ERROR, "Error generating report: " + UnsupportedFormat(format))
    ensures WithSalaryRange(minSalary, maxSalary) != [] ==>
              RespondsWith(r, Dispatch(engine, WithSalaryRange(minSalary, maxSalary), DEFAULT_REPORT_NAME, format), format,
                           ReportFilename("employee_salary_report_", "", timestamp, format), "Error generating report: ")
    ensures r.Status() == OK <==>
              WithSalaryRange(minSalary, maxSalary) != [] &&
              Dispatch(engine, WithSalaryRange(minSalary, maxSalary), DEFAULT_REPORT_NAME, format).Success?
  {
    var employees := WithSalaryRange(minSalary, maxSalary);
    if employees == [] then
      Error(NOT_FOUND, "No employees found with salary between " + showDouble(minSalary) + " and " + showDouble(maxSalary))
    else
      var rendered := Dispatch(engine, employees, DEFAULT_REPORT_NAME, format);
      Respond(rendered, format, ReportFilename("employee_salary_report_", "", timestamp, format), "Error generating report: ")
  }

  /** With the default bounds the salary endpoint reports the whole fixture. */
  lemma SalaryDefaultsReportAll(engine: Engine, format: string, timestamp: string, showDouble: real -> string)
    ensures var r := SalaryReport(engine, DEFAULT_MIN_SALARY, DEFAULT_MAX_SALARY, format, timestamp, showDouble);
            r.Status() != NOT_FOUND &&
            RespondsWith(r, Dispatch(engine, MockEmployees(), DEFAULT_REPORT_NAME, format), format,
                         ReportFilename("employee_salary_report_", "", timestamp, format), "Error generating report: ")
  {
    DefaultRangeSelectsAll();
    assert |MockEmployees()| == 15;
  }

  /** The one parameter the custom endpoint hands to the parameterised PDF generator. */
  function CreatorParameters(): map<string, string> {
    map["creator" := "Created by: Some User"]
  }

  /** The format switch of the custom endpoint: template "users" throughout,
      with the PDF case going through `generateReportWithParametersPdf`, a service
      method that is not part of this model. */
  function CustomDispatch(engine: Engine, rows: seq<Employee>, format: string,
                          generateReportWithParametersPdf: (seq<Employee>, map<string, string>, string, string) -> Result<seq<byte>>): (r: Result<seq<byte>>)
    ensures !IsSupportedFormat(format) ==> r == Failure(UnsupportedFormat(format))
    ensures Lower(format) == "pdf" ==> r == generateReportWithParametersPdf(rows, CreatorParameters(), "users", "pdf")
    ensures Lower(format) == "xlsx" ==> r == GenerateExcelReport(engine, rows, "users")
    ensures Lower(format) == "html" ==> r == GenerateHtmlReport(engine, rows, "users")
  {
    match ParseFormat(format)
    case Some(Pdf) => generateReportWithParametersPdf(rows, CreatorParameters(), "users", "pdf")
    case Some(Xlsx) => GenerateExcelReport(engine, rows, "users")
    case Some(Html) => GenerateHtmlReport(engine, rows, "users")
    case None => Failure(UnsupportedFormat(format))
  }

  /** POST `/employee/custom`: a missing or empty body is a 400, checked
      before the format; otherwise the given records are rendered. */
  function CustomReport(engine: Engine, employees: Option<seq<Employee>>, format: string, timestamp: string,
                        generateReportWithParametersPdf: (seq<Employee>, map<string, string>, string, string) -> Result<seq<byte>>): (r: Response)
    ensures r.Status() == OK || r.Status() == BAD_REQUEST || r.Status() == INTERNAL_SERVER_ERROR
    ensures (employees.None? || employees.value == []) <==> r == Error(BAD_REQUEST, "Employee list cannot be empty")
    ensures employees.Some? && employees.value != [] && !IsSupportedFormat(format) ==>
              r == Error(INTERNAL_SERVER_ERROR, "Error generating custom report: " + UnsupportedFormat(format))
    ensures employees.Some? && employees.value != [] ==>
              RespondsWith(r, CustomDispatch(engine, employees.value, format, generateReportWithParametersPdf), format,
                           ReportFilename("custom_user_report_", "", timestamp, format), "Error generating custom report: ")
    ensures r.Status() == OK <==>
              employees.Some? && employees.value != [] &&
              CustomDispatch(engine, employees.value, format, generateReportWithParametersPdf).Success?
  {
    if employees.None? || employees.value == [] then
      Error(BAD_REQUEST, "Employee list cannot be empty")
    else
      var rendered := CustomDispatch(engine, employees.value, format, generateReportWithParametersPdf);
      Respond(rendered, format, ReportFilename("custom_user_report_", "", timestamp, format),
              "Error generating custom report: ")
  }

  /** The inline list of a request wins when it is present and non-empty. */
  predicate HasInlineEmployees(request: ReportRequest) {
    request.employees.Some? && request.employees.value != []
  }

  /** The filters a request turns on: the department when present and
      non-empty, then each salary bound that is present. The join-date
      bounds are never consulted. */
  function ActiveCriteria(f: ReportFilters): seq<Criterion> {
    (if f.department.Some? && f.department.value != "" then [DepartmentIs(f.department.value)] else []) +
    (if f.minSalary.Some? then [SalaryAtLeast(f.minSalary.value)] else []) +
    (if f.maxSalary.Some? then [SalaryAtMost(f.maxSalary.value)] else [])
  }

  /** The records `generateReportFromRequest` reports on: the inline list, or
      the fixture, filtered by the conjunction of the active filters when the
      request has filters. */
  function SelectEmployees(request: ReportRequest): seq<Employee> {
    if HasInlineEmployees(request) then request.employees.value
    else if request.filters.None? then MockEmployees()
    else Where(MockEmployees(), ActiveCriteria(request.filters.value))
  }

  /** The filter block of `generateReportFromRequest`: the list is reassigned
      by up to three filter passes, in the source's order. */
  method ApplyFilters(employees: seq<Employee>, filters: ReportFilters) returns (filtered: seq<Employee>)
    ensures filtered == Where(employees, ActiveCriteria(filters))
    ensures IsSubsequence(filtered, employees)
  {
    filtered := employees;
    ghost var applied: seq<Criterion> := [];
    WhereNothing(employees);
    if filters.department.Some? && filters.department.value != "" {
      var step := [DepartmentIs(filters.department.value)];
      WhereThen(employees, applied, step);
      filtered := Where(filtered, step);
      applied := applied + step;
    }
    if filters.minSalary.Some? {
      var step := [SalaryAtLeast(filters.minSalary.value)];
      WhereThen(employees, applied, step);
      filtered := Where(filtered, step);
      applied := applied + step;
    }
    if filters.maxSalary.Some? {
      var step := [SalaryAtMost(filters.maxSalary.value)];
      WhereThen(employees, applied, step);
      filtered := Where(filtered, step);
      applied := applied + step;
    }
    assert applied == ActiveCriteria(filters);
    WhereIsSubsequence(employees, applied);
  }

  /** The selection step of `generateReportFromRequest`. */
  method ResolveEmployees(request: ReportRequest) returns (employees: seq<Employee>)
    ensures employees == SelectEmployees(request)
    ensures HasInlineEmployees(request) ==> employees == request.employees.value
  {
    if request.employees.Some? && request.employees.value != [] {
      employees := request.employees.value;
    } else {
      employees := MockEmployees();
      if request.filters.Some? {
        employees := ApplyFilters(employees, request.filters.value);
      }
    }
  }

  /** What it means for a record to pass the active filters of a request. */
  predicate PassesFilters(e: Employee, f: ReportFilters) {
    (f.department.Some? && f.department.value != "" ==> EqualsIgnoreCase(e.department, f.department.value)) &&
    (f.minSalary.Some? ==> e.salary >= f.minSalary.value) &&
    (f.maxSalary.Some? ==> e.salary <= f.maxSalary.value)
  }

  /** The list of active criteria states exactly that conjunction. */
  lemma ActiveCriteriaMeaning(e: Employee, f: ReportFilters)
    ensures MatchesAll(e, ActiveCriteria(f)) <==> PassesFilters(e, f)
  {
    var d := if f.department.Some? && f.department.value != "" then [DepartmentIs(f.department.value)] else [];
    var lo := if f.minSalary.Some? then [SalaryAtLeast(f.minSalary.value)] else [];
    var hi := if f.maxSalary.Some? then [SalaryAtMost(f.maxSalary.value)] else [];
    assert ActiveCriteria(f) == d + lo + hi;
    assert forall c :: c in d + lo + hi <==> c in d || c in lo || c in hi;
    assert MatchesAll(e, d) <==> (f.department.Some? && f.department.value != "" ==> Matches(e, DepartmentIs(f.department.value)));
    assert MatchesAll(e, lo) <==> (f.minSalary.Some? ==> Matches(e, SalaryAtLeast(f.minSalary.value)));
    assert MatchesAll(e, hi) <==> (f.maxSalary.Some? ==> Matches(e, SalaryAtMost(f.maxSalary.value)));
  }

  /** Without an inline list, a record is selected exactly when it is in the
      fixture and passes every active filter; the selection keeps fixture order. */
  lemma SelectionIsConjunction(request: ReportRequest)
    requires !HasInlineEmployees(request)
    ensures IsSubsequence(SelectEmployees(request), MockEmployees())
    ensures forall e :: e in SelectEmployees(request) <==>
              e in MockEmployees() && (request.filters.Some? ==> PassesFilters(e, request.filters.value))
  {
    if request.filters.Some? {
      var cs := ActiveCriteria(request.filters.value);
      WhereIsSubsequence(MockEmployees(), cs);
      WhereMembers(MockEmployees(), cs);
      forall e ensures MatchesAll(e, cs) <==> PassesFilters(e, request.filters.value) {
        ActiveCriteriaMeaning(e, request.filters.value);
      }
    } else {
      var f := MockEmployees();
      SubsequenceOfItself(f);
    }
  }

  /** The join-date bounds never change the selection. */
  lemma JoinDatesIgnored(request: ReportRequest, from: Option<string>, to: Option<string>)
    requires request.filters.Some?
    ensures SelectEmployees(request.(filters := Some(request.filters.value.(joinDateFrom := from, joinDateTo := to))))
         == SelectEmployees(request)
  {
  }

  /** An empty department filter is the same as none. */
  lemma EmptyDepartmentIgnored(request: ReportRequest)
    requires request.filters.Some? && request.filters.value.department == Some("")
    ensures SelectEmployees(request.(filters := Some(request.filters.value.(department := None))))
         == SelectEmployees(request)
  {
  }

  /** Both salary bounds and no department select what the service's range query selects. */
  lemma SalaryFiltersAreRangeQuery(request: ReportRequest)
    requires !HasInlineEmployees(request) && request.filters.Some?
    requires request.filters.value.department.None?
    requires request.filters.value.minSalary.Some? && request.filters.value.maxSalary.Some?
    ensures SelectEmployees(request)
         == WithSalaryRange(request.filters.value.minSalary.value, request.filters.value.maxSalary.value)
  {
    var f := request.filters.value;
    var cs := [SalaryAtLeast(f.minSalary.value), SalaryAtMost(f.maxSalary.value)];
    assert ActiveCriteria(f) == cs;
    var between := [SalaryBetween(f.minSalary.value, f.maxSalary.value)];
    forall e ensures MatchesAll(e, cs) <==> MatchesAll(e, between) {
      assert MatchesAll(e, cs) <==> Matches(e, cs[0]) && Matches(e, cs[1]);
      assert MatchesAll(e, between) <==> Matches(e, between[0]);
    }
    WhereSameCriteria(MockEmployees(), cs, between);
  }

  /** A request whose only filter is department "Engineering" (in any case)
      selects records 1, 5, 7 and 11. */
  lemma EngineeringRequest(request: ReportRequest)
    requires !HasInlineEmployees(request) && request.filters.Some?
    requires request.filters.value.department.Some? && Lower(request.filters.value.department.value) == "engineering"
    requires request.filters.value.minSalary.None? && request.filters.value.maxSalary.None?
    ensures Ids(SelectEmployees(request)) == [1, 5, 7, 11]
  {
    var d := request.filters.value.department.value;
    assert |d| == |Lower(d)|;
    assert ActiveCriteria(request.filters.value) == [DepartmentIs(d)];
    EngineeringIds(d);
  }

  /** The format and template of a request, with their defaults for `null`. */
  function RequestFormat(request: ReportRequest): string {
    request.format.GetOr(DEFAULT_FORMAT)
  }

  function RequestTemplate(request: ReportRequest): string {
    request.reportName.GetOr(DEFAULT_REPORT_NAME)
  }

  /** POST `/employee/generate`: 404 when nothing is selected, before the
      format is looked at and without rendering; otherwise the selected
      records with the requested (or default) format and template. */
  method GenerateReportFromRequest(engine: Engine, request: ReportRequest, timestamp: string) returns (r: Response)
    ensures r.Status() == OK || r.Status() == NOT_FOUND || r.Status() == INTERNAL_SERVER_ERROR
    ensures SelectEmployees(request) == [] <==> r == Error(NOT_FOUND, "No employees found matching the criteria")
    ensures SelectEmployees(request) != [] && !IsSupportedFormat(RequestFormat(request)) ==>
              r == Error(INTERNAL_SERVER_ERROR, "Error generating report: " + UnsupportedFormat(RequestFormat(request)))
    ensures SelectEmployees(request) != [] ==>
              RespondsWith(r, Dispatch(engine, SelectEmployees(request), RequestTemplate(request), RequestFormat(request)),
                           RequestFormat(request), ReportFilename("generated_report_", "", timestamp, RequestFormat(request)),
                           "Error generating report: ")
    ensures r.Status() == OK <==>
              SelectEmployees(request) != [] &&
              Dispatch(engine, SelectEmployees(request), RequestTemplate(request), RequestFormat(request)).Success?
  {
    var employees := ResolveEmployees(request);
    if employees == [] {
      return Error(NOT_FOUND, "No employees found matching the criteria");
    }
    var format := if request.format.Some? then request.format.value else DEFAULT_FORMAT;
    var template := if request.reportName.Some? then request.reportName.value else DEFAULT_REPORT_NAME;
    var rendered := Dispatch(engine, employees, template, format);
    r := Respond(rendered, format, ReportFilename("generated_report_", "", timestamp, format), "Error generating report: ");
  }
}
