/** The report renderer: the format tables of the service and the shell of
    its generic generation routine. Compiling, filling and exporting belong
    to the JasperReports engine, which the model takes as a parameter. */
module JasperReport {
  import opened Wrappers
  import opened Ascii
  import opened Model

  /** The three export formats the renderer knows. */
  datatype Format = Pdf | Xlsx | Html

  /** The `switch (format.toLowerCase())` shared by the renderer and the
      controller: which of the three cases a format string selects, if any. */
  function ParseFormat(format: string): (r: Option<Format>)
    ensures r == Some(Pdf) <==> Lower(format) == "pdf"
    ensures r == Some(Xlsx) <==> Lower(format) == "xlsx"
    ensures r == Some(Html) <==> Lower(format) == "html"
    ensures r == None <==> Lower(format) !in {"pdf", "xlsx", "html"}
  {
    var f := Lower(format);
    if f == "pdf" then Some(Pdf)
    else if f == "xlsx" then Some(Xlsx)
    else if f == "html" then Some(Html)
    else None
  }

  predicate IsSupportedFormat(format: string) {
    ParseFormat(format).Some?
  }

  const XLSX_CONTENT_TYPE := "application/vnd.openxmlformats-officedocument.spreadsheetml.sheet"
  const FALLBACK_CONTENT_TYPE := "application/octet-stream"
  const FALLBACK_EXTENSION := ".dat"

  /** `getContentType`: total; an unknown format gets the generic binary type. */
  function ContentType(format: string): (r: string)
    ensures Lower(format) == "pdf" ==> r == "application/pdf"
    ensures Lower(format) == "xlsx" ==> r == XLSX_CONTENT_TYPE
    ensures Lower(format) == "html" ==> r == "text/html"
    ensures !IsSupportedFormat(format) ==> r == FALLBACK_CONTENT_TYPE
  {
    match ParseFormat(format)
    case Some(Pdf) => "application/pdf"
    case Some(Xlsx) => XLSX_CONTENT_TYPE
    case Some(Html) => "text/html"
    case None => FALLBACK_CONTENT_TYPE
  }

  /** `getFileExtension`: total; an unknown format gets ".dat". */
  function FileExtension(format: string): (r: string)
    ensures Lower(format) == "pdf" ==> r == ".pdf"
    ensures Lower(format) == "xlsx" ==> r == ".xlsx"
    ensures Lower(format) == "html" ==> r == ".html"
    ensures !IsSupportedFormat(format) ==> r == FALLBACK_EXTENSION
  {
    match ParseFormat(format)
    case Some(Pdf) => ".pdf"
    case Some(Xlsx) => ".xlsx"
    case Some(Html) => ".html"
    case None => FALLBACK_EXTENSION
  }

  /** Both lookups see only the lower-cased format. */
  lemma LookupsIgnoreCase(format: string)
    ensures ContentType(format) == ContentType(Lower(format))
    ensures FileExtension(format) == FileExtension(Lower(format))
    ensures ParseFormat(format) == ParseFormat(Lower(format))
  {
    LowerIdempotent(format);
  }

  /** The lookups fall back together, and exactly for the formats the
      renderer rejects; for a supported format extension and content type
      name the same format. */
  lemma LookupsAgree(format: string)
    ensures ContentType(format) == FALLBACK_CONTENT_TYPE <==> !IsSupportedFormat(format)
    ensures FileExtension(format) == FALLBACK_EXTENSION <==> !IsSupportedFormat(format)
    ensures ContentType(format) == "application/pdf" <==> FileExtension(format) == ".pdf"
    ensures ContentType(format) == XLSX_CONTENT_TYPE <==> FileExtension(format) == ".xlsx"
    ensures ContentType(format) == "text/html" <==> FileExtension(format) == ".html"
  {
  }

  /** What the engine is handed to export: the template, the report
      parameters and the rows of the data source. */
  datatype Print = Print(template: string, parameters: map<string, string>, rows: seq<Employee>)

  /** The JasperReports engine and the template resources, as seen from the
      service: whether `reports/<name>.jrxml` exists, the message of the
      exception compiling and filling throws (if it throws), and the exporter
      for each format. */
  datatype Engine = Engine(
    templateExists: string -> bool,
    fillError: Print -> Option<string>,
    exportReport: (Print, Format) -> Result<seq<byte>>)

  /** The two parameters every report is filled with. */
  function DefaultParameters(): map<string, string> {
    map["reportTitle" := "Employee Report", "generatedBy" := "Jasper Report Console"]
  }

  function TemplateNotFound(reportName: string): string {
    "JRXML template not found: " + reportName + ".jrxml"
  }

  function UnsupportedFormat(format: string): string {
    "Unsupported format: " + format
  }

  /** The start of every message `generateReport` fails with. */
  function GenerationPrefix(format: string): string {
    "Error generating " + Upper(format) + " report: "
  }

  /** The message every failure of `generateReport` is rewrapped into. */
  function GenerationError(format: string, message: string): (r: string)
    ensures GenerationPrefix(format) <= r
  {
    GenerationPrefix(format) + message
  }

  /** The body of `generateReport` inside its `try`: template lookup,
      compile and fill, then the format switch and export. */
  function Render(engine: Engine, data: seq<Employee>, reportName: string, format: string): Result<seq<byte>> {
    if !engine.templateExists(reportName) then Failure(TemplateNotFound(reportName))
    else
      var filled := Print(reportName, DefaultParameters(), data);
      match engine.fillError(filled)
      case Some(message) => Failure(message)
      case None =>
        match ParseFormat(format)
        case Some(f) => engine.exportReport(filled, f)
        case None => Failure(UnsupportedFormat(format))
  }

  /** `generateReport`: every failure surfaces with the upper-cased format in
      its message; a missing template fails before anything is compiled; a
      compile or fill failure passes its message on; an unsupported format
      always fails; otherwise the result is the export of the data filled
      into the named template with the two default parameters. */
  function GenerateReport(engine: Engine, data: seq<Employee>, reportName: string, format: string): (r: Result<seq<byte>>)
    ensures !engine.templateExists(reportName) ==>
              r == Failure(GenerationError(format, TemplateNotFound(reportName)))
    ensures engine.templateExists(reportName) && engine.fillError(Print(reportName, DefaultParameters(), data)).Some? ==>
              r == Failure(GenerationError(format, engine.fillError(Print(reportName, DefaultParameters(), data)).value))
    ensures engine.templateExists(reportName) && engine.fillError(Print(reportName, DefaultParameters(), data)).None? &&
            !IsSupportedFormat(format) ==>
              r == Failure(GenerationError(format, UnsupportedFormat(format)))
    ensures engine.templateExists(reportName) && engine.fillError(Print(reportName, DefaultParameters(), data)).None? &&
            IsSupportedFormat(format) ==>
              r == match engine.exportReport(Print(reportName, DefaultParameters(), data), ParseFormat(format).value)
                   case Success(bytes) => Success(bytes)
                   case Failure(m) => Failure(GenerationError(format, m))
    ensures !IsSupportedFormat(format) ==> r.Failure?
    ensures r.Failure? ==> GenerationPrefix(format) <= r.error
    ensures r.Success? ==>
              engine.templateExists(reportName) &&
              IsSupportedFormat(format) &&
              engine.fillError(Print(reportName, DefaultParameters(), data)).None? &&
              engine.exportReport(Print(reportName, DefaultParameters(), data), ParseFormat(format).value) == r
  {
    match Render(engine, data, reportName, format)
    case Success(bytes) => Success(bytes)
    case Failure(message) => Failure(GenerationError(format, message))
  }

  /** An unsupported format fails generation with that format named, once the
      template exists and fills; the lookups for the same format still answer. */
  lemma UnsupportedFormatFails(engine: Engine, data: seq<Employee>, reportName: string, format: string)
    requires !IsSupportedFormat(format)
    requires engine.templateExists(reportName)
    requires engine.fillError(Print(reportName, DefaultParameters(), data)).None?
    ensures GenerateReport(engine, data, reportName, format)
         == Failure(GenerationError(format, UnsupportedFormat(format)))
    ensures ContentType(format) == FALLBACK_CONTENT_TYPE && FileExtension(format) == FALLBACK_EXTENSION
  {
  }

  /** The prefix for a fixed format, once its upper-case spelling is known. */
  lemma FixedPrefix(format: string, upper: string)
    requires Upper(format) == upper
    ensures GenerationPrefix(format) == "Error generating " + upper + " report: "
  {
  }

  /** Generation with a format whose failure prefix is known: a missing
      template and a fill failure are reported behind that prefix. */
  lemma KnownPrefixFailures(engine: Engine, data: seq<Employee>, reportName: string, format: string, prefix: string)
    requires GenerationPrefix(format) == prefix
    ensures var r := GenerateReport(engine, data, reportName, format);
            (r.Failure? ==> prefix <= r.error) &&
            (!engine.templateExists(reportName) ==> r == Failure(prefix + TemplateNotFound(reportName))) &&
            (engine.templateExists(reportName) && engine.fillError(Print(reportName, DefaultParameters(), data)).Some? ==>
               r == Failure(prefix + engine.fillError(Print(reportName, DefaultParameters(), data)).value))
  {
  }

  /** `generatePdfReport`: generation with the fixed format "pdf". */
  function GeneratePdfReport(engine: Engine, data: seq<Employee>, reportName: string): (r: Result<seq<byte>>)
    ensures r == GenerateReport(engine, data, reportName, "pdf")
    ensures r.Failure? ==> "Error generating PDF report: " <= r.error
    ensures !engine.templateExists(reportName) ==>
              r == Failure("Error generating PDF report: " + TemplateNotFound(reportName))
    ensures engine.templateExists(reportName) && engine.fillError(Print(reportName, DefaultParameters(), data)).Some? ==>
              r == Failure("Error generating PDF report: " + engine.fillError(Print(reportName, DefaultParameters(), data)).value)
    ensures engine.templateExists(reportName) && engine.fillError(Print(reportName, DefaultParameters(), data)).None? ==>
              r == match engine.exportReport(Print(reportName, DefaultParameters(), data), Pdf)
                   case Success(bytes) => Success(bytes)
                   case Failure(m) => Failure("Error generating PDF report: " + m)
  {
    FixedPrefix("pdf", "PDF");
    KnownPrefixFailures(engine, data, reportName, "pdf", "Error generating PDF report: ");
    GenerateReport(engine, data, reportName, "pdf")
  }

  /** `generateExcelReport`: generation with the fixed format "xlsx". */
  function GenerateExcelReport(engine: Engine, data: seq<Employee>, reportName: string): (r: Result<seq<byte>>)
    ensures r == GenerateReport(engine, data, reportName, "xlsx")
    ensures r.Failure? ==> "Error generating XLSX report: " <= r.error
    ensures !engine.templateExists(reportName) ==>
              r == Failure("Error generating XLSX report: " + TemplateNotFound(reportName))
    ensures engine.templateExists(reportName) && engine.fillError(Print(reportName, DefaultParameters(), data)).Some? ==>
              r == Failure("Error generating XLSX report: " + engine.fillError(Print(reportName, DefaultParameters(), data)).value)
    ensures engine.templateExists(reportName) && engine.fillError(Print(reportName, DefaultParameters(), data)).None? ==>
              r == match engine.exportReport(Print(reportName, DefaultParameters(), data), Xlsx)
                   case Success(bytes) => Success(bytes)
                   case Failure(m) => Failure("Error generating XLSX report: " + m)
  {
    FixedPrefix("xlsx", "XLSX");
    KnownPrefixFailures(engine, data, reportName, "xlsx", "Error generating XLSX report: ");
    GenerateReport(engine, data, reportName, "xlsx")
  }

  /** `generateHtmlReport`: generation with the fixed format "html". */
  function GenerateHtmlReport(engine: Engine, data: seq<Employee>, reportName: string): (r: Result<seq<byte>>)
    ensures r == GenerateReport(engine, data, reportName, "html")
    ensures r.Failure? ==> "Error generating HTML report: " <= r.error
    ensures !engine.templateExists(reportName) ==>
              r == Failure("Error generating HTML report: " + TemplateNotFound(reportName))
    ensures engine.templateExists(reportName) && engine.fillError(Print(reportName, DefaultParameters(), data)).Some? ==>
              r == Failure("Error generating HTML report: " + engine.fillError(Print(reportName, DefaultParameters(), data)).value)
    ensures engine.templateExists(reportName) && engine.fillError(Print(reportName, DefaultParameters(), data)).None? ==>
              r == match engine.exportReport(Print(reportName, DefaultParameters(), data), Html)
                   case Success(bytes) => Success(bytes)
                   case Failure(m) => Failure("Error generating HTML report: " + m)
  {
    FixedPrefix("html", "HTML");
    KnownPrefixFailures(engine, data, reportName, "html", "Error generating HTML report: ");
    GenerateReport(engine, data, reportName, "html")
  }
}
