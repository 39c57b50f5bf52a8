/** Report assembly: the `report` handler of main.py:225-256, which writes a
    customer's and a job's details line by line into a document. */
module Report {
  import opened Records

  /** The document being written (an `FPDF` object). `Cell` writes text on
      the current line, `Ln` ends that line; finished lines are `lines`. */
  class Pdf {
    var lines: seq<string>
    var pending: string

    constructor ()
      ensures lines == [] && pending == ""
    {
      lines := [];
      pending := "";
    }

    method Cell(text: string)
      modifies this
      ensures lines == old(lines) && pending == old(pending) + text
    {
      pending := pending + text;
    }

    method Ln()
      modifies this
      ensures lines == old(lines) + [old(pending)] && pending == ""
    {
      lines := lines + [pending];
      pending := "";
    }
  }

  const HEADING: string := "Customer Report"
  const ROOF_AREA_UNIT: string := " sq. m"

  /** The labels of the report's fields, in the order they are written. */
  const LABELS: seq<string> := [
    "Name", "Address", "Roof area", "Tile type", "Cleaning method",
    "Treatment type", "Drainage type", "Estimated date of cleaning"]

  /** The value shown under each label, in the same order: two from the
      customer, six from the job, the roof area with its unit. */
  function FieldValues(c: Customer, j: Job): (vs: seq<string>)
    ensures |vs| == |LABELS|
  {
    [c.name, c.address, j.roofArea + ROOF_AREA_UNIT, j.tileType,
     j.cleaningMethod, j.treatmentType, j.drainageType, j.estimatedDate]
  }

  /** One report line, `"<caption>: <value>"`. */
  function Line(caption: string, value: string): string
  {
    caption + ": " + value
  }

  /** The lines the report writes for a customer and a job, each as its
      format string builds it (main.py:233-249). */
  function ReportLines(c: Customer, j: Job): seq<string>
  {
    [HEADING,
     "Name: " + c.name,
     "Address: " + c.address,
     "Roof area: " + j.roofArea + " sq. m",
     "Tile type: " + j.tileType,
     "Cleaning method: " + j.cleaningMethod,
     "Treatment type: " + j.treatmentType,
     "Drainage type: " + j.drainageType,
     "Estimated date of cleaning: " + j.estimatedDate]
  }

  /** One `pdf.cell(...)` followed by `pdf.ln()` on a fresh line: the text
      becomes the next finished line. */
  method WriteLine(pdf: Pdf, text: string)
    requires pdf.pending == ""
    modifies pdf
    ensures pdf.lines == old(pdf.lines) + [text] && pdf.pending == ""
  {
    pdf.Cell(text);
    assert pdf.pending == text;
    pdf.Ln();
  }

  /** A finished document, or the record whose absence stopped the report. */
  datatype ReportResult =
    | Document(lines: seq<string>)
    | CustomerNotFound(customerId: int)
    | JobNotFound(jobId: int)

  /** The `report` handler: fetch both records, then write the heading and
      the eight fields. The missing customer is hit first, when the name line
      is written, and the missing job only after the address line. */
  method AssembleReport(customers: map<int, Customer>, jobs: map<int, Job>, customerId: int, jobId: int)
    returns (r: ReportResult)
    ensures customerId !in customers ==> r == CustomerNotFound(customerId)
    ensures customerId in customers && jobId !in jobs ==> r == JobNotFound(jobId)
    ensures customerId in customers && jobId in jobs ==>
            r == Document(ReportLines(customers[customerId], jobs[jobId]))
  {
    var customer := Get(customers, customerId);
    var job := Get(jobs, jobId);

    var pdf := new Pdf();
    WriteLine(pdf, HEADING);
    if customer.None? {
      return CustomerNotFound(customerId);
    }
    WriteLine(pdf, "Name: " + customer.value.name);
    WriteLine(pdf, "Address: " + customer.value.address);
    if job.None? {
      return JobNotFound(jobId);
    }
    WriteLine(pdf, "Roof area: " + job.value.roofArea + " sq. m");
    WriteLine(pdf, "Tile type: " + job.value.tileType);
    WriteLine(pdf, "Cleaning method: " + job.value.cleaningMethod);
    WriteLine(pdf, "Treatment type: " + job.value.treatmentType);
    WriteLine(pdf, "Drainage type: " + job.value.drainageType);
    WriteLine(pdf, "Estimated date of cleaning: " + job.value.estimatedDate);
    r := Document(pdf.lines);
  }

  /** The layout: the heading, then one `"<label>: <value>"` line per field
      in the fixed label order, the roof area carrying its unit. */
  lemma ReportLayout(c: Customer, j: Job)
    ensures |ReportLines(c, j)| == |LABELS| + 1
    ensures ReportLines(c, j)[0] == HEADING
    ensures forall k | 0 <= k < |LABELS| :: ReportLines(c, j)[k + 1] == Line(LABELS[k], FieldValues(c, j)[k])
    ensures ReportLines(c, j)[3] == "Roof area: " + j.roofArea + ROOF_AREA_UNIT
  {
  }

  /** The eight values a report shows, and only those. */
  predicate ShownFieldsAgree(c1: Customer, j1: Job, c2: Customer, j2: Job)
  {
    c1.name == c2.name && c1.address == c2.address &&
    j1.roofArea == j2.roofArea && j1.tileType == j2.tileType &&
    j1.cleaningMethod == j2.cleaningMethod && j1.treatmentType == j2.treatmentType &&
    j1.drainageType == j2.drainageType && j1.estimatedDate == j2.estimatedDate
  }

  /** A shared prefix can be removed from both sides of an equation. */
  lemma CancelPrefix(p: string, a: string, b: string)
    requires p + a == p + b
    ensures a == b
  {
    assert a == (p + a)[|p|..];
    assert b == (p + b)[|p|..];
  }

  /** A shared suffix can be removed from both sides of an equation. */
  lemma CancelSuffix(a: string, b: string, s: string)
    requires a + s == b + s
    ensures a == b
  {
    assert |a| == |b|;
    assert a == (a + s)[..|a|];
    assert b == (b + s)[..|b|];
  }

  /** Two reports are the same exactly when the eight shown values agree:
      every shown value can be read back from its line, and no other field
      of either record (the customer's own roof area, the job's customer
      name, ...) has any effect on the document. */
  lemma ReportShowsExactlyTheseFields(c1: Customer, j1: Job, c2: Customer, j2: Job)
    ensures ReportLines(c1, j1) == ReportLines(c2, j2) <==> ShownFieldsAgree(c1, j1, c2, j2)
  {
    var l1, l2 := ReportLines(c1, j1), ReportLines(c2, j2);
    if l1 == l2 {
      assert l1[1] == l2[1];
      CancelPrefix("Name: ", c1.name, c2.name);
      assert l1[2] == l2[2];
      CancelPrefix("Address: ", c1.address, c2.address);
      assert l1[3] == l2[3];
      CancelSuffix("Roof area: " + j1.roofArea, "Roof area: " + j2.roofArea, " sq. m");
      CancelPrefix("Roof area: ", j1.roofArea, j2.roofArea);
      assert l1[4] == l2[4];
      CancelPrefix("Tile type: ", j1.tileType, j2.tileType);
      assert l1[5] == l2[5];
      CancelPrefix("Cleaning method: ", j1.cleaningMethod, j2.cleaningMethod);
      assert l1[6] == l2[6];
      CancelPrefix("Treatment type: ", j1.treatmentType, j2.treatmentType);
      assert l1[7] == l2[7];
      CancelPrefix("Drainage type: ", j1.drainageType, j2.drainageType);
      assert l1[8] == l2[8];
      CancelPrefix("Estimated date of cleaning: ", j1.estimatedDate, j2.estimatedDate);
    }
  }

  /** Example: for customer Jane Doe of 12 Elm St and a job with a 45.5
      sq. m concrete-tiled roof, the report's fourth line (the third field
      line) reads "Roof area: 45.5 sq. m". */
  lemma JaneDoeExample()
    ensures var c := Customer(1, "Jane Doe", "12 Elm St", "", "", "", "", "", "");
            var j := Job(1, "Jane Doe", "12 Elm St", "45.5", "concrete", "", "", "", "", 1);
            ReportLines(c, j)[3] == "Roof area: 45.5 sq. m"
  {
  }
}
