# Jasper report console: a verified model of its decision logic

The system is a Spring Boot REST service under `/api/reports`. It renders employee
reports as PDF, XLSX or HTML through the JasperReports engine. Engine,
templates and HTTP machinery aside, what remains is a small core, modelled here:

- **Employee data store** (`EmployeeData`): the fixed fifteen-record fixture,
  the case-insensitive department query and the inclusive salary-range query.
- **Renderer shell** (`JasperReport`):
  - the `toLowerCase` format switch and the two lookup tables, content type and
    file extension, which fall back to `application/octet-stream` and `.dat`;
  - the generic `generateReport` routine: template lookup, then compile and fill,
    then the format switch and export, each failure rewrapped as
    `Error generating <FORMAT> report: <message>`;
  - its three fixed-format entry points.

  The JasperReports engine is a parameter, `Engine`. It says whether a template
  exists and whether filling throws, and it exports a filled print.
- **Controller** (`ReportController`): the five report endpoints and
  `/formats`. Each endpoint maps its inputs to a status (200, 400, 404 or 500)
  and a body, checking emptiness before the format. On success it builds the
  attachment name from a prefix, an optional lower-cased discriminator, the
  timestamp and the extension.
  - `generateReportFromRequest` is a method. Its local list is reassigned by up
    to three filter passes. It is proved equal to one filter by the conjunction
    of the active criteria.

Shared pieces:
- `Wrappers`: `Option` (Java `null`) and `Result` (a value or an exception message).
- `Ascii`: ASCII `toLowerCase`, `toUpperCase` and `equalsIgnoreCase`.
- `Model`: the `Employee`, `ReportRequest` and `ReportFilters` records.
- `Filtering`: stream `filter(...).toList()` as `Where` over a list of `Criterion`
  values. It comes with lemmas on order, membership, multiplicity, composition
  and commutation.

Salaries are exact reals. The formatted timestamp is an argument of every
endpoint. Error bodies are modelled as text.

## Model

| member | source | states |
|---|---|---|
| Ascii.Lower | src/main/java/com/report/jasper/controller/ReportController.java:81 | ASCII `toLowerCase`: same length, every character folded, no upper-case letter left |
| Ascii.Upper | src/main/java/com/report/jasper/service/JasperReportService.java:98 | ASCII `toUpperCase`: same length, every character folded, no lower-case letter left |
| Ascii.EqualsIgnoreCaseIffLower | src/main/java/com/report/jasper/service/EmployeeDataService.java:34 | `equalsIgnoreCase` holds exactly when the two lower-cased strings are equal (both directions) |
| Ascii.LowerIdempotent | src/main/java/com/report/jasper/service/JasperReportService.java:103 | lower-casing twice is lower-casing once, so lookups see only the folded format |
| EmployeeData.MockEmployees | src/main/java/com/report/jasper/service/EmployeeDataService.java:12-30 | the fixture has exactly 15 records, the i-th with id i+1, so ids are strictly ascending |
| EmployeeData.Record | src/main/java/com/report/jasper/service/EmployeeDataService.java:14-28 | the fixture record with a given id carries that id |
| EmployeeData.ByDepartment | src/main/java/com/report/jasper/service/EmployeeDataService.java:32-36 | the result keeps fixture order, and a record is in it exactly when its department equals the argument ignoring case |
| EmployeeData.WithSalaryRange | src/main/java/com/report/jasper/service/EmployeeDataService.java:38-42 | the result keeps fixture order, and a record is in it exactly when min <= salary <= max; an inverted range gives the empty list |
| EmployeeData.ByDepartmentThenSalary | src/main/java/com/report/jasper/service/EmployeeDataService.java:33-41 | a department pass then a salary pass equals the salary query refined by department |
| EmployeeData.ByDepartmentCaseInsensitive | src/main/java/com/report/jasper/service/EmployeeDataService.java:34 | the department query returns the same list for `d` and for lower(d) |
| EmployeeData.FixtureDepartmentsKnown | src/main/java/com/report/jasper/service/EmployeeDataService.java:14-28 | every fixture department lower-cases to one of the six known departments |
| EmployeeData.KnownDepartmentFound | src/main/java/com/report/jasper/service/EmployeeDataService.java:14-34 | each of the six known departments, in any case, selects at least one record |
| EmployeeData.ByDepartmentEmptyIff | src/main/java/com/report/jasper/service/EmployeeDataService.java:14-34 | the department query is empty exactly when lower(d) is not a fixture department |
| EmployeeData.EngineeringMatches | src/main/java/com/report/jasper/service/EmployeeDataService.java:14-34 | for "engineering" in any case, fixture position k matches exactly when k is 0, 4, 6 or 10 |
| EmployeeData.EngineeringSelection | src/main/java/com/report/jasper/service/EmployeeDataService.java:33-35 | for "engineering" the query picks fixture positions 0, 4, 6 and 10, in that order |
| EmployeeData.EngineeringIds | src/main/java/com/report/jasper/service/EmployeeDataService.java:14-34 | for "engineering" in any case the query yields exactly ids 1, 5, 7, 11, in that order |
| EmployeeData.FixtureSalariesWithinDefaults | src/main/java/com/report/jasper/service/EmployeeDataService.java:14-28 | every fixture salary lies in [0, 999999] |
| EmployeeData.DefaultRangeSelectsAll | src/main/java/com/report/jasper/controller/ReportController.java:100-101 | the controller's default bounds (0, 999999) return the whole fixture, in order |
| Filtering.Where | src/main/java/com/report/jasper/service/EmployeeDataService.java:33-35 | a filter pass never lengthens the list |
| Filtering.WhereIsSubsequence | src/main/java/com/report/jasper/service/EmployeeDataService.java:33-35 | a filter pass keeps the surviving elements in their original order |
| Filtering.WhereCount | src/main/java/com/report/jasper/service/EmployeeDataService.java:33-35 | a filter pass keeps every copy of a matching element and none of a failing one |
| Filtering.WhereMembers | src/main/java/com/report/jasper/service/EmployeeDataService.java:33-35 | an element survives exactly when it was present and matches every criterion |
| Filtering.WhereSingle | src/main/java/com/report/jasper/service/EmployeeDataService.java:34 | with one criterion, an element survives exactly when it was present and matches it |
| Filtering.WhereAppend | src/main/java/com/report/jasper/service/EmployeeDataService.java:33-35 | filtering a concatenation is concatenating the filtered parts |
| Filtering.WhereAt | src/main/java/com/report/jasper/service/EmployeeDataService.java:33-35 | if exactly the positions in an increasing index list match, the pass returns those positions in order |
| Filtering.WhereKeepsAll | src/main/java/com/report/jasper/service/EmployeeDataService.java:33-35 | if every element matches, the pass returns the list unchanged |
| Filtering.WhereDropsAll | src/main/java/com/report/jasper/service/EmployeeDataService.java:33-35 | if no element matches, the pass returns the empty list |
| Filtering.WhereNothing | src/main/java/com/report/jasper/controller/ReportController.java:216 | a pass with no criteria returns the list unchanged |
| Filtering.WhereThen | src/main/java/com/report/jasper/controller/ReportController.java:221-236 | two successive passes equal one pass by the conjunction of both criteria lists |
| Filtering.WhereSameCriteria | src/main/java/com/report/jasper/service/EmployeeDataService.java:40 | criteria lists that accept the same employees select the same list |
| Filtering.WhereCommutes | src/main/java/com/report/jasper/controller/ReportController.java:221-236 | the order of the criteria inside one conjunctive pass does not change the result |
| JasperReport.ParseFormat | src/main/java/com/report/jasper/service/JasperReportService.java:53-94 | each of the three cases is selected exactly when the lower-cased format is "pdf", "xlsx" or "html"; no case otherwise |
| JasperReport.ContentType | src/main/java/com/report/jasper/service/JasperReportService.java:102-109 | pdf, xlsx and html map to their MIME types; any other format gets `application/octet-stream` |
| JasperReport.FileExtension | src/main/java/com/report/jasper/service/JasperReportService.java:111-118 | pdf, xlsx and html map to their extensions; any other format gets `.dat` |
| JasperReport.LookupsIgnoreCase | src/main/java/com/report/jasper/service/JasperReportService.java:102-118 | both lookups and the format switch give the same answer for f and lower(f) |
| JasperReport.LookupsAgree | src/main/java/com/report/jasper/service/JasperReportService.java:102-118 | the two lookups fall back together, exactly for the formats generation rejects, and otherwise name the same format |
| JasperReport.GenerationError | src/main/java/com/report/jasper/service/JasperReportService.java:97-98 | the rewrapped message starts with "Error generating " + upper(format) + " report: " |
| JasperReport.GenerateReport | src/main/java/com/report/jasper/service/JasperReportService.java:28-100 | a missing template fails with the not-found message, before any compile; a compile or fill failure fails with its own message; with a template that fills, an unsupported format fails with "Unsupported format: f" and a supported one returns the export; every failure is rewrapped as "Error generating " + upper(format) + " report: " + message |
| JasperReport.UnsupportedFormatFails | src/main/java/com/report/jasper/service/JasperReportService.java:53-116 | with a template that fills, an unsupported format fails with "Unsupported format: f", while both lookups answer with their fallbacks |
| JasperReport.GeneratePdfReport | src/main/java/com/report/jasper/service/JasperReportService.java:16-18 | delegates to `generateReport` with "pdf": a missing template fails with "Error generating PDF report: JRXML template not found: <name>.jrxml", a fill failure with that prefix and its message, and a template that fills returns the PDF export |
| JasperReport.GenerateExcelReport | src/main/java/com/report/jasper/service/JasperReportService.java:20-22 | delegates to `generateReport` with "xlsx": a missing template fails with "Error generating XLSX report: JRXML template not found: <name>.jrxml", a fill failure with that prefix and its message, and a template that fills returns the XLSX export |
| JasperReport.GenerateHtmlReport | src/main/java/com/report/jasper/service/JasperReportService.java:24-26 | delegates to `generateReport` with "html": a missing template fails with "Error generating HTML report: JRXML template not found: <name>.jrxml", a fill failure with that prefix and its message, and a template that fills returns the HTML export |
| ReportController.SupportedFormats | src/main/java/com/report/jasper/controller/ReportController.java:145-148 | `/formats` returns exactly "pdf", "xlsx", "html", in that order |
| ReportController.SupportedFormatsAccepted | src/main/java/com/report/jasper/controller/ReportController.java:145-148 | the advertised formats are exactly the lower-case strings the endpoints accept |
| ReportController.ReportFilename | src/main/java/com/report/jasper/controller/ReportController.java:80-82 | the attachment name starts with the prefix, holds the discriminator after it and ends with the format's extension |
| ReportController.FilenameTimestamp | src/main/java/com/report/jasper/controller/ReportController.java:80-82 | the timestamp can be read back from between the discriminator and the extension |
| ReportController.Dispatch | src/main/java/com/report/jasper/controller/ReportController.java:37-42 | an unsupported format throws "Unsupported format: f"; otherwise the lower-cased format picks the PDF, Excel or HTML generator |
| ReportController.Respond | src/main/java/com/report/jasper/controller/ReportController.java:47-57 | success gives 200 with the bytes, the format's content type and Content-Length = byte count; failure gives 500 with the endpoint's prefix and the message; 200 exactly on success |
| ReportController.EmployeeReport | src/main/java/com/report/jasper/controller/ReportController.java:31-59 | status is 200 or 500; the fixture is rendered with "employee_report": a successful render gives 200 with the bytes and headers for `employee_report_<ts><ext>`, a failed one gives 500 "Error generating report: " + message (so an unsupported format gives "... Unsupported format: f"); 200 exactly when the render succeeds |
| ReportController.MissingTemplateMessage | src/main/java/com/report/jasper/controller/ReportController.java:35-57 | a missing template gives 500 with both wrappings: controller prefix, then PDF prefix, then the not-found message |
| ReportController.DepartmentReport | src/main/java/com/report/jasper/controller/ReportController.java:61-96 | 404 "No employees found in department: d" exactly when the query is empty, whatever the format; otherwise the department's records are rendered: 200 with the bytes and headers for `employee_report_<lower(d)>_<ts><ext>`, or 500 "Error generating report: " + message; 200 exactly for a non-empty query whose render succeeds |
| ReportController.SalaryReport | src/main/java/com/report/jasper/controller/ReportController.java:98-133 | 404 with both bounds in the message exactly when the range query is empty, so always for min > max; otherwise the records in range are rendered: 200 with the bytes and headers for `employee_salary_report_<ts><ext>`, or 500 "Error generating report: " + message; 200 exactly for a non-empty range whose render succeeds |
| ReportController.SalaryDefaultsReportAll | src/main/java/com/report/jasper/controller/ReportController.java:100-133 | with the default bounds the salary endpoint never answers 404: it renders the whole fixture, giving 200 with those bytes and headers or 500 "Error generating report: " + message |
| ReportController.CustomDispatch | src/main/java/com/report/jasper/controller/ReportController.java:178-184 | an unsupported format throws "Unsupported format: f"; pdf goes to the parameterised generator with the "creator" parameter and template "users"; xlsx and html go to the Excel and HTML generators with template "users" |
| ReportController.CustomReport | src/main/java/com/report/jasper/controller/ReportController.java:165-201 | 400 "Employee list cannot be empty" exactly for a null or empty body, before the format is checked; otherwise the custom switch is rendered: 200 with the bytes and headers for `custom_user_report_<ts><ext>`, or 500 "Error generating custom report: " + message; 200 exactly for a non-empty body whose render succeeds |
| ReportController.ActiveCriteriaMeaning | src/main/java/com/report/jasper/controller/ReportController.java:219-237 | the active criteria accept a record exactly when it passes the department filter (if set and non-empty) and each salary bound that is set, inclusively |
| ReportController.ApplyFilters | src/main/java/com/report/jasper/controller/ReportController.java:216-238 | the three conditional passes, applied in turn to the local list, equal one filter by the conjunction of the active criteria, and keep order |
| ReportController.ResolveEmployees | src/main/java/com/report/jasper/controller/ReportController.java:206-239 | a non-null, non-empty inline list is used verbatim; otherwise the fixture goes through the filters when the request has any |
| ReportController.SelectionIsConjunction | src/main/java/com/report/jasper/controller/ReportController.java:212-238 | without an inline list, the selection keeps fixture order and a record is in it exactly when it passes every active filter |
| ReportController.JoinDatesIgnored | src/main/java/com/report/jasper/controller/ReportController.java:216-238 | changing `joinDateFrom` or `joinDateTo` never changes the selection |
| ReportController.EmptyDepartmentIgnored | src/main/java/com/report/jasper/controller/ReportController.java:220 | an empty department filter selects the same as no department filter |
| ReportController.SalaryFiltersAreRangeQuery | src/main/java/com/report/jasper/controller/ReportController.java:227-237 | both salary bounds and no department select the same list as the service's salary-range query |
| ReportController.EngineeringRequest | src/main/java/com/report/jasper/controller/ReportController.java:219-224 | a request whose only filter is department "Engineering" (any case) selects ids 1, 5, 7, 11 |
| ReportController.GenerateReportFromRequest | src/main/java/com/report/jasper/controller/ReportController.java:203-271 | 404 "No employees found matching the criteria" exactly for an empty selection, whatever the engine; otherwise the selection is rendered with the requested or default format ("pdf") and template ("employee_report"): 200 with the bytes and headers for `generated_report_<ts><ext>`, or 500 "Error generating report: " + message; 200 exactly for a non-empty selection whose render succeeds |

## Left out

- JasperReports compile, fill and export are left out (a foreign library). They are the `Engine` parameter: whether a template resource exists, the message the fill throws if it throws, and an exporter per format. Exporter configuration is not modelled.
- The `ClassPathResource` lookup and stream reading are I/O. They are the `templateExists` predicate of the engine.
- Spring is left out: `ResponseEntity`, `HttpHeaders`, `MediaType.parseMediaType`, Content-Disposition, request binding, `@RequestParam` defaults except the salary bounds, and the CORS annotation. A response is a status plus either bytes with content type, file name and length, or a text message.
- The `/health` endpoint returns live clock readings and fixed strings; it has no decision logic.
- `/employee/data` returns the fixture as JSON. Its only content is `EmployeeData.MockEmployees`; the JSON encoding and the catch branch are left out.
- `LocalDateTime.now()` and its formatting are nondeterministic. The formatted timestamp is an argument of every endpoint.
- `Double` salaries are exact reals, not IEEE floats. All fixture values are whole numbers.
- ReportController.SalaryReport: the 404 message renders the bounds with Java's `Double.toString`. The model takes that rendering as a `showDouble` argument instead of defining it.
- Case folding follows ASCII only. Java's Unicode `toLowerCase`, `toUpperCase` and `equalsIgnoreCase` differ on non-ASCII letters, and on I/i under a Turkish or Azeri default locale, since `toLowerCase()` and `toUpperCase()` without an argument follow the JVM default locale.
- `generateReportWithParametersPdf` is called by the custom endpoint but is not defined in `JasperReportService.java`. ReportController.CustomReport takes it as a function argument and states only how its result is used.
- `getBytes` charset conversion of error bodies and `printStackTrace` are left out. Error bodies stay as text.
- Java `null` inside records is not modelled: a `null` department, salary or exception message (`getMessage()`). The case of `null` format and a `null` department filter are modelled with `Option`.
- `generateReport` checks the format only after the template lookup and the fill. The model keeps that order. The method is private, and its only callers are the three fixed-format entry points, which pass "pdf", "xlsx" or "html"; so in the system as written its unsupported-format branch is unreachable. `JasperReport.UnsupportedFormatFails` states what that branch does.
