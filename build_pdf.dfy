/**
 * `build_pdf`: draws the page command by command while a cursor moves down
 * the table, the totals, the notes and the signature line.
 */
module PdfBuilder {
  import opened Wrappers
  import opened Money
  import opened Dates
  import opened Items
  import opened Layout

  /**
   * The page for `doc`. `logo` says whether the logo file could be loaded,
   * `issue` is the first reading of the clock (issue date) and `stampDate`
   * the second (the date under the PAID mark).
   */
  method BuildPdf(doc: Document, wrap: Wrapper, logo: bool, issue: ValidDate, stampDate: ValidDate)
    returns (draws: seq<Draw>)
    ensures draws == Page(doc, wrap, logo, issue, stampDate)
  {
    // header
    draws := DrawCompany(logo);
    var meta := DrawMeta(doc, issue);
    draws := draws + meta;
    var stamp := DrawStamp(doc, stampDate);
    draws := draws + stamp;

    // table header row, at the top of the flow
    draws := draws + [Text(DescHeader, Margin, Flow(0)), Text(QtyHeader, QtyColumn, Flow(0))];
    draws := draws + [Text(UnitHeader, UnitColumn, Flow(0)), Text(TotalHeader, TotalColumn, Flow(0))];
    assert draws == Header(doc, logo, issue, stampDate);

    var body := DrawBody(doc, wrap);
    draws := draws + body;
  }

  /** Item rows, totals, notes and signature, moving the cursor down from the header row. */
  method DrawBody(doc: Document, wrap: Wrapper) returns (draws: seq<Draw>)
    ensures draws == Body(doc, wrap)
  {
    var y := 0;
    y := y - HeaderDrop;

    // item rows
    var rows;
    rows, y := DrawTable(doc.items, y, wrap);
    draws := rows;

    // totals
    y := y - TotalsGap;
    assert y == TotalsTop(doc, wrap);
    var totals;
    totals, y := DrawTotals(doc, y);
    draws := draws + totals;

    // notes
    var notes;
    notes, y := DrawNotes(doc, y, wrap);
    draws := draws + notes;

    // signature
    y := y - SignatureGap;
    assert y == SignatureY(doc, wrap);
    var sig := DrawSignature(doc, y);
    draws := draws + sig;
  }

  /** The item rows, the first at height y, and the cursor below the last one. */
  method DrawTable(items: seq<Item>, y0: int, wrap: Wrapper) returns (draws: seq<Draw>, y: int)
    ensures draws == TableDraws(items, y0, wrap)
    ensures y == y0 - RowHeight * LineCount(items, wrap)
  {
    draws := [];
    y := y0;
    var i := 0;
    while i < |items|
      invariant 0 <= i <= |items|
      invariant y == y0 - RowHeight * LineCount(items[..i], wrap)
      invariant draws == TableDraws(items[..i], y0, wrap)
    {
      var rows;
      rows, y := DrawItem(items[i], y, wrap);
      draws := draws + rows;
      assert items[..i + 1][..i] == items[..i];
      i := i + 1;
    }
    assert items[..i] == items;
  }

  /** The wrapped description lines of one item from height y0 down, amounts on the first. */
  method DrawItem(row: Item, y0: int, wrap: Wrapper) returns (draws: seq<Draw>, y: int)
    ensures draws == ItemDraws(row, y0, wrap)
    ensures y == y0 - RowHeight * |Lines(row, wrap)|
  {
    var wrapped := wrap(Description(row), DescWidth);
    draws := [];
    y := y0;
    var j := 0;
    while j < |wrapped|
      invariant 0 <= j <= |wrapped|
      invariant y == y0 - RowHeight * j
      invariant draws == LinesDraws(row, wrapped[..j], y0)
    {
      draws := draws + [Text(wrapped[j], Margin, Flow(y))];
      if j == 0 {
        var qty := Qty(row);
        var unit := UnitPrice(row);
        draws := draws + [Text(FormatQty(qty), QtyColumn, Flow(y))];
        draws := draws + [Text(FormatCents(unit), UnitColumn, Flow(y))];
        draws := draws + [Text(FormatAmount(qty * unit), TotalColumn, Flow(y))];
      }
      assert wrapped[..j + 1][..j] == wrapped[..j];
      y := y - RowHeight;
      j := j + 1;
    }
    assert wrapped[..j] == wrapped;
  }

  /** Subtotal, deposit, grand total and check number from height y0 down. */
  method DrawTotals(doc: Document, y0: int) returns (draws: seq<Draw>, y: int)
    ensures draws == TotalsDraws(doc, y0)
    ensures y == TotalsEnd(doc, y0)
  {
    y := y0;
    draws := [Text(SubtotalLabel, LabelColumn, Flow(y)), Text(FormatAmount(doc.subtotal), TotalColumn, Flow(y))];
    y := y - RowHeight;
    if doc.kind != Proposal {
      if doc.deposit > 0 {
        draws := draws + [Text(DepositLabel, LabelColumn, Flow(y)), Text(Minus + FormatAmount(doc.deposit), TotalColumn, Flow(y))];
        y := y - RowHeight;
      }
      draws := draws + [Text(GrandTotalLabel, LabelColumn, Flow(y)), Text(FormatAmount(doc.grandTotal), TotalColumn, Flow(y))];
      if doc.checkNumber != "" {
        y := y - RowHeight;
        draws := draws + [Text(CheckPrefix + doc.checkNumber, Margin, Flow(y))];
      }
    } else {
      draws := draws + [Text(GrandTotalLabel, LabelColumn, Flow(y)), Text(FormatAmount(doc.subtotal), TotalColumn, Flow(y))];
    }
  }

  /** The wrapped notes below the totals that ended at y0, when there are notes. */
  method DrawNotes(doc: Document, y0: int, wrap: Wrapper) returns (draws: seq<Draw>, y: int)
    ensures draws == NotesDraws(doc, y0, wrap)
    ensures y == NotesEnd(doc, y0, wrap)
  {
    draws := [];
    y := y0;
    if doc.notes != "" {
      y := y - NotesGap;
      var noteLines := wrap(doc.notes, NotesWidth);
      ghost var top := y;
      var k := 0;
      while k < |noteLines|
        invariant 0 <= k <= |noteLines|
        invariant y == top - NotesLeading * k
        invariant draws == NoteLines(noteLines[..k], top)
      {
        draws := draws + [Text(noteLines[k], Margin, Flow(y))];
        assert noteLines[..k + 1][..k] == noteLines[..k];
        y := y - NotesLeading;
        k := k + 1;
      }
      assert noteLines[..k] == noteLines;
    }
  }

  /** Company name, address, phone and bonding line, after the logo when it could be loaded. */
  method DrawCompany(logo: bool) returns (draws: seq<Draw>)
    ensures draws == CompanyBlock(logo)
  {
    draws := [];
    if logo {
      draws := draws + [Image(Logo, LogoCorner, Fixed(800))];
    }
    draws := draws + [Text(CompanyName, Margin, Fixed(720))];
    draws := draws + [Text(Street, Margin, Fixed(900)), Text(CityLine, Margin, Fixed(1044))];
    draws := draws + [Text(PhoneLine, Margin, Fixed(1188)), Text(BondedLine, Margin, Fixed(1332))];
  }

  /** Reference number, customer, project, location, issue date and terms. */
  method DrawMeta(doc: Document, issue: ValidDate) returns (draws: seq<Draw>)
    ensures draws == MetaBlock(doc, issue)
  {
    var heading := Heading(doc.kind);
    var terms := if doc.kind == Proposal then ValidUntilPrefix + FormatDate(AddDays(issue, 15))
                 else DuePrefix + FormatDate(issue);
    draws := [Text(heading + NumberSep + doc.refNo, Margin, Fixed(1656))];
    draws := draws + [Text(CustomerPrefix + doc.customer, Margin, Fixed(1800))];
    draws := draws + [Text(ProjectPrefix + doc.project.GetOr(""), Margin, Fixed(1944))];
    draws := draws + [Text(LocationPrefix + doc.location.GetOr(""), Margin, Fixed(2088))];
    draws := draws + [Text(DatePrefix + FormatDate(issue), MetaColumn, Fixed(1656))];
    draws := draws + [Text(terms, MetaColumn, Fixed(1872))];
  }

  /** The PAID mark and the date under it, on a paid invoice only. */
  method DrawStamp(doc: Document, stampDate: ValidDate) returns (draws: seq<Draw>)
    ensures draws == StampBlock(doc, stampDate)
  {
    draws := [];
    if doc.showPaid && doc.kind != Proposal {
      draws := draws + [Text(PaidMark, StampColumn, Fixed(2160))];
      draws := draws + [Text(FormatDate(stampDate), StampColumn, Fixed(2448))];
    }
  }

  /** The signature image and its date at height y, or lines to sign and date by hand. */
  method DrawSignature(doc: Document, y: int) returns (draws: seq<Draw>)
    ensures draws == SignatureDraws(doc, y)
  {
    if doc.signature != [] {
      draws := [Image(Signature(doc.signature), Margin, Flow(y))];
      if doc.signatureDate != "" {
        draws := draws + [Text(SignedPrefix + doc.signatureDate, SignedColumn, Flow(y + SignedRaise))];
      }
    } else {
      draws := [Text(SignLine, Margin, Flow(y)), Text(DateLine, DateColumn, Flow(y))];
    }
  }
}
