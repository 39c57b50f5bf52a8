# Tier pricing and customer reports, modelled in Dafny

This project models the two pieces of decision and transformation logic in
the roof-cleaning business application (a Flask app, `main.py`):

- **Price resolution** (`pricing`). The catalog of pricing tiers is looked up
  by the tier name the user submits. The first tier with that exact name is
  used, and tier names are unique in storage. The job fits the tier when its
  roof area and its job duration are both at most the tier's maxima. Equality
  counts as a fit. A fitting job gets that tier's price; otherwise the page
  shows `N/A`. No other tier is ever substituted.
- **Report assembly** (`report`). A customer and a job are fetched by id. A
  document is then written line by line: the heading `Customer Report`,
  then eight `Label: value` lines in a fixed order. Name and Address come
  from the customer. Roof area (with the unit ` sq. m`), Tile type, Cleaning
  method, Treatment type, Drainage type and Estimated date of cleaning come
  from the job.

Files:

- `records.dfy` (module `Records`): the `Customer`, `Job` and `PricingTier`
  rows, and the by-id lookup on a table.
- `pricing.dfy` (module `Pricing`): the first-match catalog search, the
  price decision, the pricing request handler and their lemmas.
- `report.dfy` (module `Report`): the document as a class with a line buffer
  (`Pdf`), the imperative `AssembleReport` method proved against the
  `ReportLines` function, and lemmas about the layout.

The code does not handle three failures. An unknown tier name is not handled:
`.first()` returns `None` and the request fails when `tier.max_roof_area`
is read at main.py:213. A missing customer or job likewise fails when its
first field is read, at main.py:235 and main.py:239. The model names these
failures as explicit results: `TierNotFound` / `TierLookupFailed`,
`CustomerNotFound` and `JobNotFound`. The request never produces a page or
a document in those cases, and lines already written are discarded with the
failed request. A missing customer is reported even when the job is also
missing, because the customer's name is read first.

## Model

| member | source | states |
|---|---|---|
| Records.Get | main.py:227-228 | Lookup by primary key gives a row exactly when the id is a key of the table, and then the row stored under it; a miss gives no row rather than an error. |
| Pricing.FindTier | main.py:211 | The search finds a tier only if that tier is in the catalog and has exactly the submitted name; it finds nothing exactly when no catalog entry has that name. |
| Pricing.FirstMatchWins | main.py:211 | `.first()` semantics: a tier preceded by no entry of the same name is the one found, whatever entries follow it. |
| Pricing.OtherTierIsInvisible | main.py:211 | Inserting a tier with a different name anywhere in the catalog leaves the lookup of a name unchanged. |
| Pricing.NamedTierIsFound | main.py:79 | Under the unique-name constraint every catalog entry is the one found by its own name. |
| Pricing.ResolvePrice | main.py:211-216 | The result is not-found exactly when no tier has the name; a price is always the price of a tier with that name that fits both bounds; `N/A` always comes from a tier with that name that does not fit. |
| Pricing.NamedTierDecides | main.py:211-216 | Under unique names the result is decided by the named tier alone: it equals that tier's fit-or-`N/A` decision, so no other entry can affect it. |
| Pricing.EligibleIffWithinBounds | main.py:213-216 | For the named tier: the result is exactly its price if and only if roof area <= max roof area and job duration <= max job duration (both inclusive), and it is `N/A` if and only if either bound is exceeded. |
| Pricing.NoSubstitution | main.py:211-216 | When the named tier does not fit, the result is `N/A` even if another tier in the catalog would fit. |
| Pricing.UnknownNameNeverPriced | main.py:211-213 | An unknown tier name yields not-found, never a price, for all metrics (a corollary of `ResolvePrice`'s first postcondition). |
| Pricing.StandardTierExample | main.py:213-216 | A Standard tier (100 sq. m, 4 hours, 250) prices an 80 sq. m / 3 hour job and a job exactly at both bounds at 250. It gives `N/A` for 150 sq. m, and an unknown name is not found. |
| Pricing.HandlePricing | main.py:202-220 | A GET renders the whole catalog with a blank price and blank tier name. A POST fails exactly when no tier has the submitted name. Otherwise it renders the whole catalog, echoes the tier name and shows a non-blank price. The shown price is the resolved price when there is one and `N/A` otherwise, and a shown amount is the price of a tier with that name that fits both bounds. |
| Pricing.QuoteShowsNamedTierPrice | main.py:211-218 | Under unique names, a quote for a catalog tier renders the whole catalog with exactly that tier's price when the job fits it, and `N/A` exactly when it does not. |
| Report.Pdf.constructor | main.py:230 | A new document has no lines and an empty current line. |
| Report.Pdf.Cell | main.py:233 | Writing a cell appends its text to the current line and leaves finished lines unchanged. |
| Report.Pdf.Ln | main.py:234 | A line break appends the current line to the finished lines and starts an empty line. |
| Report.WriteLine | main.py:235-236 | A cell followed by a line break on an empty current line adds exactly that text as the next finished line. |
| Report.AssembleReport | main.py:225-250 | A missing customer gives customer-not-found, whether or not the job exists. A present customer with a missing job gives job-not-found. Otherwise the document's lines are exactly `ReportLines` of the two records. |
| Report.ReportLayout | main.py:233-249 | The document is the heading `Customer Report` followed by exactly eight lines. Line k+1 is `"<label k>: <value k>"`, with labels in the fixed order Name, Address, Roof area, Tile type, Cleaning method, Treatment type, Drainage type, Estimated date of cleaning. The roof-area line is `"Roof area: " + roof area + " sq. m"`. |
| Report.ReportShowsExactlyTheseFields | main.py:235-249 | Two documents are equal if and only if their customers agree on name and address and their jobs agree on the six shown fields. So each shown value can be read back from its line, and no other record field affects the document. |
| Report.JaneDoeExample | main.py:239 | For a job with roof area 45.5, the third field line reads exactly `Roof area: 45.5 sq. m`. |

## Left out

- Flask routing, templates, flash/redirect, and the home, login, signup, dashboard, quotes and googlemaps handlers: request plumbing with no decision logic.
- Database setup, column types and table creation: a foreign storage engine. A table is a map from primary key to row, and the catalog is a sequence in storage order.
- Parsing the form's `roof_area` and `job_duration` into floats: input validation at the request boundary. The model takes already-typed metrics.
- Floating point: tier metrics and prices are `real`. NaN and infinities are not modelled, and neither are NULL tier columns (comparing with NULL would fail in Python).
- Rendering values to text: the job's roof area, its estimated date and every other shown field are already-rendered strings. Python's float and datetime formatting, and the rendering of a NULL customer column as `None`, are not modelled.
- How the page template displays a price: template rendering. `ShownPrice` stands for the `''`, the tier's price and the `'N/A'` handed to it.
- FPDF page set-up, font and cell geometry, PDF byte rendering, writing `report.pdf` to disk and reading it back, and the HTTP response headers (main.py:230-232, main.py:251-256): a foreign library and file I/O. The document is its sequence of finished lines.
- Report.AssembleReport: when both records exist the model always returns a document. In the code, FPDF's built-in Arial font covers Latin-1 only, so a name, address or job field with any other character makes the request fail, at `pdf.cell` (main.py:235-249) or at `pdf.output` (main.py:251) depending on the FPDF version. The model assumes every shown value can be encoded and does not capture this failure.
- The `Report`, `User`, `Order`, `Quote` and `QuoteForm` models: nothing in the modelled logic reads them.
