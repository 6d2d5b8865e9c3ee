/** The request and record shapes of the service. Java `null` is `None`;
    `Double` salaries are exact reals (every fixture value is a whole number). */
module Model {
  import opened Wrappers

  newtype byte = x: int | 0 <= x < 256

  /** One employee record (id, name, email, department, salary, join date). */
  datatype Employee = Employee(
    id: int,
    name: string,
    email: string,
    department: string,
    salary: real,
    joinDate: string)

  /** The optional filters of a report request. The two join-date bounds are
      accepted but never consulted by the selection logic. */
  datatype ReportFilters = ReportFilters(
    department: Option<string>,
    minSalary: Option<real>,
    maxSalary: Option<real>,
    joinDateFrom: Option<string>,
    joinDateTo: Option<string>)

  /** The body of a POST to `/employee/generate`. */
  datatype ReportRequest = ReportRequest(
    employees: Option<seq<Employee>>,
    format: Option<string>,
    reportName: Option<string>,
    filters: Option<ReportFilters>)
}
