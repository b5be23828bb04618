/**
 * The page that `build_pdf` draws, as a list of draw commands.
 *
 * The ReportLab canvas becomes a sequence of `Draw` values in drawing order.
 * A column tag stands for each x offset the code uses; a position is either
 * fixed (tenths of a point below the top of the page, for the header block
 * drawn at `h - k*inch`) or in the flow (`y`, in points, relative to the
 * column-header row of the item table, which sits at `h - 3.6*inch`).
 */
module Layout {
  import opened Wrappers
  import opened Money
  import opened Dates
  import opened Items

  datatype Kind = Proposal | Invoice

  /**
   * The arguments of `build_pdf`. There is no internal-cost field: the
   * customer-facing document cannot carry it. Optional text arguments are
   * the empty string when absent (the code only tests their truth value).
   */
  datatype Document = Document(
    kind: Kind,
    refNo: string,
    customer: string,
    project: Option<string>,
    location: Option<string>,
    items: seq<Item>,
    subtotal: int,          // ten-thousandths of a dollar
    deposit: int,           // ten-thousandths of a dollar
    grandTotal: int,        // ten-thousandths of a dollar
    checkNumber: string,
    showPaid: bool,
    notes: string,
    signature: seq<bv8>,    // PNG bytes
    signatureDate: string)

  /** The x offsets: 1", 4.4", 5.4", 6.4", 5", w-2.5", w/2, 4.5", 4" and the logo corner w-120. */
  datatype Column =
    | Margin | QtyColumn | UnitColumn | TotalColumn | LabelColumn
    | MetaColumn | StampColumn | SignedColumn | DateColumn | LogoCorner

  datatype Pos = Fixed(tenthsBelowTop: nat) | Flow(y: int)

  datatype Picture = Logo | Signature(png: seq<bv8>)

  datatype Draw =
    | Text(text: string, col: Column, pos: Pos)
    | Image(picture: Picture, col: Column, pos: Pos)

  /** `textwrap.wrap(text, width)`, which the model does not look inside. */
  type Wrapper = (string, nat) -> seq<string>

  // The fixed texts of the page.
  const CompanyName := "J & I Heating and Cooling"
  const Street := "2788 N. 48th Rd."
  const CityLine := "Sandwich IL, 60548"
  const PhoneLine := "Phone (630) 849-0385"
  const BondedLine := "Insured and Bonded"
  const ProposalHeading := "Proposal"
  const InvoiceHeading := "Invoice"
  const NumberSep := " #: "
  const ValidUntilPrefix := "Valid until: "
  const DuePrefix := "Due: "
  const CustomerPrefix := "Customer: "
  const ProjectPrefix := "Project: "
  const LocationPrefix := "Location: "
  const DatePrefix := "Date: "
  const PaidMark := "PAID"
  const DescHeader := "Description"
  const QtyHeader := "Qty"
  const UnitHeader := "Unit"
  const TotalHeader := "Line Total"
  const SubtotalLabel := "Subtotal:"
  const DepositLabel := "Deposit:"
  const GrandTotalLabel := "Grand Total:"
  const CheckPrefix := "Check #: "
  const SignedPrefix := "Signed: "
  const SignLine := "X ____________________"
  const DateLine := "Date: ______________"
  const Minus := "-"

  const DescWidth := 50
  const NotesWidth := 90
  const HeaderDrop := 16     // below the column-header row
  const RowHeight := 18      // per wrapped description line and per totals line
  const TotalsGap := 10      // between the last item row and the subtotal
  const NotesGap := 25       // between the totals and the first notes line
  const NotesLeading := 14   // per wrapped notes line
  const SignatureGap := 40   // between the last line above and the signature
  const SignedRaise := 15    // "Signed:" sits above the signature image's baseline

  /** Company name, address, phone and bonding line, with the logo when it can be loaded. */
  function CompanyBlock(logo: bool): seq<Draw>
  {
    (if logo then [Image(Logo, LogoCorner, Fixed(800))] else []) +
    [ Text(CompanyName, Margin, Fixed(720)),
      Text(Street, Margin, Fixed(900)),
      Text(CityLine, Margin, Fixed(1044)),
      Text(PhoneLine, Margin, Fixed(1188)),
      Text(BondedLine, Margin, Fixed(1332)) ]
  }

  /** "Proposal" for a proposal, "Invoice" for an invoice. */
  function Heading(kind: Kind): (h: string)
    ensures h == ProposalHeading <==> kind == Proposal
    ensures kind == Invoice ==> h == InvoiceHeading
  {
    if kind == Proposal then ProposalHeading else InvoiceHeading
  }

  /** A proposal is valid for 15 days from issue; an invoice is due on issue. */
  function Terms(kind: Kind, issue: ValidDate): string
  {
    if kind == Proposal then ValidUntilPrefix + FormatDate(AddDays(issue, 15))
    else DuePrefix + FormatDate(issue)
  }

  /** Reference, customer, project and location on the left; date and terms on the right. */
  function MetaBlock(doc: Document, issue: ValidDate): seq<Draw>
  {
    [ Text(Heading(doc.kind) + NumberSep + doc.refNo, Margin, Fixed(1656)),
      Text(CustomerPrefix + doc.customer, Margin, Fixed(1800)),
      Text(ProjectPrefix + doc.project.GetOr(""), Margin, Fixed(1944)),
      Text(LocationPrefix + doc.location.GetOr(""), Margin, Fixed(2088)),
      Text(DatePrefix + FormatDate(issue), MetaColumn, Fixed(1656)),
      Text(Terms(doc.kind, issue), MetaColumn, Fixed(1872)) ]
  }

  predicate ShowsPaid(doc: Document)
  {
    doc.showPaid && doc.kind == Invoice
  }

  /** The red PAID mark and the date it was drawn on. */
  function StampBlock(doc: Document, stampDate: ValidDate): seq<Draw>
  {
    if ShowsPaid(doc) then
      [Text(PaidMark, StampColumn, Fixed(2160)), Text(FormatDate(stampDate), StampColumn, Fixed(2448))]
    else []
  }

  function TableHead(): seq<Draw>
  {
    [ Text(DescHeader, Margin, Flow(0)), Text(QtyHeader, QtyColumn, Flow(0)),
      Text(UnitHeader, UnitColumn, Flow(0)), Text(TotalHeader, TotalColumn, Flow(0)) ]
  }

  /** The wrapped description lines of an item. */
  function Lines(it: Item, wrap: Wrapper): seq<string>
  {
    wrap(Description(it), DescWidth)
  }

  /** Line j of an item at height y; the first line also carries quantity, unit price and line total. */
  function RowDraws(it: Item, line: string, j: nat, y: int): seq<Draw>
  {
    [Text(line, Margin, Flow(y))] +
    (if j == 0 then
       [ Text(FormatQty(Qty(it)), QtyColumn, Flow(y)),
         Text(FormatCents(UnitPrice(it)), UnitColumn, Flow(y)),
         Text(FormatAmount(LineAmount(it)), TotalColumn, Flow(y)) ]
     else [])
  }

  /** The rows of an item whose wrapped lines are `lines`, the first at height y. */
  function LinesDraws(it: Item, lines: seq<string>, y: int): seq<Draw>
  {
    if lines == [] then []
    else
      var j := |lines| - 1;
      LinesDraws(it, lines[..j], y) + RowDraws(it, lines[j], j, y - RowHeight * j)
  }

  function ItemDraws(it: Item, y: int, wrap: Wrapper): seq<Draw>
  {
    LinesDraws(it, Lines(it, wrap), y)
  }

  /** How many wrapped description lines the items take. */
  function LineCount(items: seq<Item>, wrap: Wrapper): nat
  {
    if items == [] then 0
    else LineCount(items[..|items| - 1], wrap) + |Lines(items[|items| - 1], wrap)|
  }

  /** The rows of all items, the first at height y. */
  function TableDraws(items: seq<Item>, y: int, wrap: Wrapper): seq<Draw>
  {
    if items == [] then []
    else
      var init := items[..|items| - 1];
      TableDraws(init, y, wrap) + ItemDraws(items[|items| - 1], y - RowHeight * LineCount(init, wrap), wrap)
  }

  /** Where the grand-total line of the totals block starting at y sits. */
  function GrandTotalY(doc: Document, y: int): int
  {
    if doc.kind == Invoice && doc.deposit > 0 then y - 2 * RowHeight else y - RowHeight
  }

  /** Subtotal, then (invoices only) deposit, grand total and check number. */
  function TotalsDraws(doc: Document, y: int): seq<Draw>
  {
    var sub := [Text(SubtotalLabel, LabelColumn, Flow(y)), Text(FormatAmount(doc.subtotal), TotalColumn, Flow(y))];
    var g := GrandTotalY(doc, y);
    match doc.kind
    case Proposal =>
      sub + [Text(GrandTotalLabel, LabelColumn, Flow(g)), Text(FormatAmount(doc.subtotal), TotalColumn, Flow(g))]
    case Invoice =>
      sub +
      (if doc.deposit > 0 then
         [Text(DepositLabel, LabelColumn, Flow(y - RowHeight)), Text(Minus + FormatAmount(doc.deposit), TotalColumn, Flow(y - RowHeight))]
       else []) +
      [Text(GrandTotalLabel, LabelColumn, Flow(g)), Text(FormatAmount(doc.grandTotal), TotalColumn, Flow(g))] +
      (if doc.checkNumber != "" then [Text(CheckPrefix + doc.checkNumber, Margin, Flow(g - RowHeight))] else [])
  }

  /** The cursor after the totals block starting at y. */
  function TotalsEnd(doc: Document, y: int): int
  {
    var g := GrandTotalY(doc, y);
    if doc.kind == Invoice && doc.checkNumber != "" then g - RowHeight else g
  }

  /** Wrapped notes lines, the first at height y. */
  function NoteLines(lines: seq<string>, y: int): seq<Draw>
  {
    if lines == [] then []
    else
      var j := |lines| - 1;
      NoteLines(lines[..j], y) + [Text(lines[j], Margin, Flow(y - NotesLeading * j))]
  }

  /** The notes, below the totals block that ended at y, when there are any. */
  function NotesDraws(doc: Document, y: int, wrap: Wrapper): seq<Draw>
  {
    if doc.notes == "" then [] else NoteLines(wrap(doc.notes, NotesWidth), y - NotesGap)
  }

  /** The cursor after the notes. */
  function NotesEnd(doc: Document, y: int, wrap: Wrapper): int
  {
    if doc.notes == "" then y else y - NotesGap - NotesLeading * |wrap(doc.notes, NotesWidth)|
  }

  /** The signature image (and its date), or blank lines to sign and date by hand. */
  function SignatureDraws(doc: Document, y: int): seq<Draw>
  {
    if doc.signature != [] then
      [Image(Signature(doc.signature), Margin, Flow(y))] +
      (if doc.signatureDate != "" then [Text(SignedPrefix + doc.signatureDate, SignedColumn, Flow(y + SignedRaise))] else [])
    else
      [Text(SignLine, Margin, Flow(y)), Text(DateLine, DateColumn, Flow(y))]
  }

  /** Where the item rows end, the totals start, the totals end and the signature sits. */
  function TableEnd(doc: Document, wrap: Wrapper): int
  {
    -HeaderDrop - RowHeight * LineCount(doc.items, wrap)
  }

  function TotalsTop(doc: Document, wrap: Wrapper): int
  {
    TableEnd(doc, wrap) - TotalsGap
  }

  function SignatureY(doc: Document, wrap: Wrapper): int
  {
    NotesEnd(doc, TotalsEnd(doc, TotalsTop(doc, wrap)), wrap) - SignatureGap
  }

  /** Everything above the item rows: company, reference and dates, PAID mark, column headings. */
  function Header(doc: Document, logo: bool, issue: ValidDate, stampDate: ValidDate): seq<Draw>
  {
    CompanyBlock(logo) + MetaBlock(doc, issue) + StampBlock(doc, stampDate) + TableHead()
  }

  /** The item rows, the totals, the notes and the signature, each below the one before. */
  function Body(doc: Document, wrap: Wrapper): seq<Draw>
  {
    var top := TotalsTop(doc, wrap);
    TableDraws(doc.items, -HeaderDrop, wrap) +
    TotalsDraws(doc, top) +
    NotesDraws(doc, TotalsEnd(doc, top), wrap) +
    SignatureDraws(doc, SignatureY(doc, wrap))
  }

  /** The whole page, in drawing order. */
  function Page(doc: Document, wrap: Wrapper, logo: bool, issue: ValidDate, stampDate: ValidDate): seq<Draw>
  {
    Header(doc, logo, issue, stampDate) + Body(doc, wrap)
  }
}
