/**
 * What the whole page drawn by `build_pdf` shows in each column.
 */
module PageFacts {
  import opened Wrappers
  import opened Money
  import opened Dates
  import opened Items
  import opened Layout
  import opened LayoutFacts

  /** A column of the page is that column of the header followed by that column of the body. */
  lemma PageSplit(doc: Document, wrap: Wrapper, logo: bool, issue: ValidDate, stampDate: ValidDate, col: Column)
    ensures InColumn(Page(doc, wrap, logo, issue, stampDate), col) ==
      InColumn(Header(doc, logo, issue, stampDate), col) + InColumn(Body(doc, wrap), col)
  {
    InColumnAppend(Header(doc, logo, issue, stampDate), Body(doc, wrap), col);
  }

  /** Four blocks whose columns are known give that column of the four together. */
  lemma FourColumns(a: seq<Draw>, b: seq<Draw>, c: seq<Draw>, d: seq<Draw>, col: Column,
                    ra: seq<Draw>, rb: seq<Draw>, rc: seq<Draw>, rd: seq<Draw>)
    requires InColumn(a, col) == ra && InColumn(b, col) == rb && InColumn(c, col) == rc && InColumn(d, col) == rd
    ensures InColumn(a + b + c + d, col) == ra + rb + rc + rd
  {
    InColumnAppend(a, b, col);
    InColumnAppend(a + b, c, col);
    InColumnAppend(a + b + c, d, col);
  }

  /** The header draws nothing in the label, signed-date and date columns. */
  lemma HeaderElsewhere(doc: Document, logo: bool, issue: ValidDate, stampDate: ValidDate, col: Column)
    requires col == LabelColumn || col == SignedColumn || col == DateColumn
    ensures InColumn(Header(doc, logo, issue, stampDate), col) == []
  {
    var a, b, c, d := CompanyBlock(logo), MetaBlock(doc, issue), StampBlock(doc, stampDate), TableHead();
    assert InColumn(a, col) == [] by { CompanyColumns(logo, col); }
    assert InColumn(b, col) == [] by { MetaColumns(doc, issue, col); }
    assert InColumn(c, col) == [] by { StampColumns(doc, stampDate, col); }
    assert InColumn(d, col) == [] by { HeadColumns(col); }
    OneOfFour(a, b, c, d, col, 0, []);
  }

  /** The body draws nothing in the logo corner, the date-and-terms column or the PAID column. */
  lemma BodyElsewhere(doc: Document, wrap: Wrapper, col: Column)
    requires col == LogoCorner || col == MetaColumn || col == StampColumn
    ensures InColumn(Body(doc, wrap), col) == []
  {
    var top := TotalsTop(doc, wrap);
    var e, f := TableDraws(doc.items, -HeaderDrop, wrap), TotalsDraws(doc, top);
    var g, h := NotesDraws(doc, TotalsEnd(doc, top), wrap), SignatureDraws(doc, SignatureY(doc, wrap));
    assert InColumn(e, col) == [] by { TableElsewhere(doc.items, -HeaderDrop, wrap, col); }
    assert InColumn(f, col) == [] by { TotalsElsewhere(doc, top, col); }
    assert InColumn(g, col) == [] by { NotesElsewhere(doc, TotalsEnd(doc, top), wrap, col); }
    assert InColumn(h, col) == [] by { SignatureColumns(doc, SignatureY(doc, wrap), col); }
    OneOfFour(e, f, g, h, col, 0, []);
  }

  /** The logo corner of the header holds the logo, when it could be loaded. */
  lemma HeaderLogo(doc: Document, logo: bool, issue: ValidDate, stampDate: ValidDate)
    ensures InColumn(Header(doc, logo, issue, stampDate), LogoCorner) ==
      if logo then [Image(Logo, LogoCorner, Fixed(800))] else []
  {
    var col := LogoCorner;
    var shown := if logo then [Image(Logo, LogoCorner, Fixed(800))] else [];
    var a, b, c, d := CompanyBlock(logo), MetaBlock(doc, issue), StampBlock(doc, stampDate), TableHead();
    assert InColumn(a, col) == shown by { CompanyColumns(logo, col); }
    assert InColumn(b, col) == [] by { MetaColumns(doc, issue, col); }
    assert InColumn(c, col) == [] by { StampColumns(doc, stampDate, col); }
    assert InColumn(d, col) == [] by { HeadColumns(col); }
    OneOfFour(a, b, c, d, col, 0, shown);
  }

  /** Four blocks of which only block i draws in a column give that column of block i. */
  lemma OneOfFour(a: seq<Draw>, b: seq<Draw>, c: seq<Draw>, d: seq<Draw>, col: Column, i: nat, r: seq<Draw>)
    requires i < 4
    requires InColumn(a, col) == (if i == 0 then r else []) && InColumn(b, col) == (if i == 1 then r else [])
    requires InColumn(c, col) == (if i == 2 then r else []) && InColumn(d, col) == (if i == 3 then r else [])
    ensures InColumn(a + b + c + d, col) == r
  {
    if i == 0 {
      FourColumns(a, b, c, d, col, r, [], [], []);
      assert r + [] + [] + [] == r;
    } else if i == 1 {
      FourColumns(a, b, c, d, col, [], r, [], []);
      assert [] + r + [] + [] == r;
    } else if i == 2 {
      FourColumns(a, b, c, d, col, [], [], r, []);
      assert [] + [] + r + [] == r;
    } else {
      FourColumns(a, b, c, d, col, [], [], [], r);
      assert [] + [] + [] + r == r;
    }
  }

  /** Four blocks of which the last two draw nothing in a column give that column of the first two. */
  lemma FirstTwoOfFour(a: seq<Draw>, b: seq<Draw>, c: seq<Draw>, d: seq<Draw>, col: Column)
    requires InColumn(c, col) == [] && InColumn(d, col) == []
    ensures InColumn(a + b + c + d, col) == InColumn(a, col) + InColumn(b, col)
  {
    FourColumns(a, b, c, d, col, InColumn(a, col), InColumn(b, col), [], []);
    assert InColumn(a, col) + InColumn(b, col) + [] + [] == InColumn(a, col) + InColumn(b, col);
  }

  /** The right-hand column of the header holds the issue date and the terms line. */
  lemma HeaderDateAndTerms(doc: Document, logo: bool, issue: ValidDate, stampDate: ValidDate)
    ensures InColumn(Header(doc, logo, issue, stampDate), MetaColumn) ==
      [Text(DatePrefix + FormatDate(issue), MetaColumn, Fixed(1656)), Text(Terms(doc.kind, issue), MetaColumn, Fixed(1872))]
  {
    var col := MetaColumn;
    var a, b, c, d := CompanyBlock(logo), MetaBlock(doc, issue), StampBlock(doc, stampDate), TableHead();
    assert InColumn(a, col) == [] by { CompanyColumns(logo, col); }
    assert InColumn(b, col) == [Text(DatePrefix + FormatDate(issue), MetaColumn, Fixed(1656)), Text(Terms(doc.kind, issue), MetaColumn, Fixed(1872))] by { MetaColumns(doc, issue, col); }
    assert InColumn(c, col) == [] by { StampColumns(doc, stampDate, col); }
    assert InColumn(d, col) == [] by { HeadColumns(col); }
    OneOfFour(a, b, c, d, col, 1, [Text(DatePrefix + FormatDate(issue), MetaColumn, Fixed(1656)), Text(Terms(doc.kind, issue), MetaColumn, Fixed(1872))]);
  }

  /** The PAID column of the header is the stamp block. */
  lemma HeaderStamp(doc: Document, logo: bool, issue: ValidDate, stampDate: ValidDate)
    ensures InColumn(Header(doc, logo, issue, stampDate), StampColumn) == StampBlock(doc, stampDate)
  {
    var col := StampColumn;
    var a, b, c, d := CompanyBlock(logo), MetaBlock(doc, issue), StampBlock(doc, stampDate), TableHead();
    assert InColumn(a, col) == [] by { CompanyColumns(logo, col); }
    assert InColumn(b, col) == [] by { MetaColumns(doc, issue, col); }
    assert InColumn(c, col) == c by { StampColumns(doc, stampDate, col); }
    assert InColumn(d, col) == [] by { HeadColumns(col); }
    OneOfFour(a, b, c, d, col, 2, c);
  }

  /** The red PAID mark and its date are on the page exactly for a paid invoice. */
  lemma PagePaidStamp(doc: Document, wrap: Wrapper, logo: bool, issue: ValidDate, stampDate: ValidDate)
    ensures InColumn(Page(doc, wrap, logo, issue, stampDate), StampColumn) ==
      if doc.showPaid && doc.kind == Invoice then
        [Text(PaidMark, StampColumn, Fixed(2160)), Text(FormatDate(stampDate), StampColumn, Fixed(2448))]
      else []
  {
    var col := StampColumn;
    HeaderStamp(doc, logo, issue, stampDate);
    BodyElsewhere(doc, wrap, col);
    PageSplit(doc, wrap, logo, issue, stampDate, col);
  }

  /** The right-hand header column holds the issue date and the terms line, nothing else. */
  lemma PageDateAndTerms(doc: Document, wrap: Wrapper, logo: bool, issue: ValidDate, stampDate: ValidDate)
    ensures InColumn(Page(doc, wrap, logo, issue, stampDate), MetaColumn) ==
      [Text(DatePrefix + FormatDate(issue), MetaColumn, Fixed(1656)), Text(Terms(doc.kind, issue), MetaColumn, Fixed(1872))]
  {
    var col := MetaColumn;
    HeaderDateAndTerms(doc, logo, issue, stampDate);
    BodyElsewhere(doc, wrap, col);
    PageSplit(doc, wrap, logo, issue, stampDate, col);
  }

  /** The logo is drawn, in the top corner, exactly when it could be loaded. */
  lemma PageLogo(doc: Document, wrap: Wrapper, logo: bool, issue: ValidDate, stampDate: ValidDate)
    ensures InColumn(Page(doc, wrap, logo, issue, stampDate), LogoCorner) ==
      if logo then [Image(Logo, LogoCorner, Fixed(800))] else []
  {
    var col := LogoCorner;
    HeaderLogo(doc, logo, issue, stampDate);
    BodyElsewhere(doc, wrap, col);
    PageSplit(doc, wrap, logo, issue, stampDate, col);
  }

  /** The label column of the body is that of the totals block. */
  lemma BodyLabels(doc: Document, wrap: Wrapper)
    ensures InColumn(Body(doc, wrap), LabelColumn) == TotalsLabels(doc, TotalsTop(doc, wrap))
  {
    var col := LabelColumn;
    var top := TotalsTop(doc, wrap);
    var e, f := TableDraws(doc.items, -HeaderDrop, wrap), TotalsDraws(doc, top);
    var g, h := NotesDraws(doc, TotalsEnd(doc, top), wrap), SignatureDraws(doc, SignatureY(doc, wrap));
    assert InColumn(e, col) == [] by { TableElsewhere(doc.items, -HeaderDrop, wrap, col); }
    assert InColumn(f, col) == TotalsLabels(doc, top) by { TotalsLabelColumn(doc, top); }
    assert InColumn(g, col) == [] by { NotesElsewhere(doc, TotalsEnd(doc, top), wrap, col); }
    assert InColumn(h, col) == [] by { SignatureColumns(doc, SignatureY(doc, wrap), col); }
    OneOfFour(e, f, g, h, col, 1, TotalsLabels(doc, top));
  }

  /**
   * The only labels on the page are those of the totals block: Subtotal,
   * Deposit for an invoice with a positive deposit, and Grand Total; a
   * proposal never shows a deposit.
   */
  lemma PageLabels(doc: Document, wrap: Wrapper, logo: bool, issue: ValidDate, stampDate: ValidDate)
    ensures InColumn(Page(doc, wrap, logo, issue, stampDate), LabelColumn) == TotalsLabels(doc, TotalsTop(doc, wrap))
  {
    HeaderElsewhere(doc, logo, issue, stampDate, LabelColumn);
    BodyLabels(doc, wrap);
    PageSplit(doc, wrap, logo, issue, stampDate, LabelColumn);
  }

  /** The signed-date and date columns of the body are those of the signature block. */
  lemma BodySignature(doc: Document, wrap: Wrapper, col: Column)
    requires col == SignedColumn || col == DateColumn
    ensures InColumn(Body(doc, wrap), col) ==
      if col == SignedColumn then SignedTexts(doc, SignatureY(doc, wrap)) else DateLines(doc, SignatureY(doc, wrap))
  {
    var top := TotalsTop(doc, wrap);
    var e, f := TableDraws(doc.items, -HeaderDrop, wrap), TotalsDraws(doc, top);
    var g, h := NotesDraws(doc, TotalsEnd(doc, top), wrap), SignatureDraws(doc, SignatureY(doc, wrap));
    var y := SignatureY(doc, wrap);
    var r := if col == SignedColumn then SignedTexts(doc, y) else DateLines(doc, y);
    assert InColumn(e, col) == [] by { TableElsewhere(doc.items, -HeaderDrop, wrap, col); }
    assert InColumn(f, col) == [] by { TotalsElsewhere(doc, top, col); }
    assert InColumn(g, col) == [] by { NotesElsewhere(doc, TotalsEnd(doc, top), wrap, col); }
    assert InColumn(h, col) == r by { SignatureColumns(doc, y, col); }
    OneOfFour(e, f, g, h, col, 3, r);
  }

  /**
   * "Signed: <date>" is on the page exactly when both signature bytes and a
   * date text are given; the line to date by hand exactly when no signature is.
   */
  lemma PageSignature(doc: Document, wrap: Wrapper, logo: bool, issue: ValidDate, stampDate: ValidDate, col: Column)
    requires col == SignedColumn || col == DateColumn
    ensures InColumn(Page(doc, wrap, logo, issue, stampDate), col) ==
      if col == SignedColumn then SignedTexts(doc, SignatureY(doc, wrap)) else DateLines(doc, SignatureY(doc, wrap))
  {
    HeaderElsewhere(doc, logo, issue, stampDate, col);
    BodySignature(doc, wrap, col);
    PageSplit(doc, wrap, logo, issue, stampDate, col);
  }

  /** The header writes only the column heading in each amount column. */
  lemma HeaderAmountColumn(doc: Document, logo: bool, issue: ValidDate, stampDate: ValidDate, col: Column)
    requires AmountColumn(col)
    ensures InColumn(Header(doc, logo, issue, stampDate), col) == [Text(ColumnHeader(col), col, Flow(0))]
  {
    var a, b, c, d := CompanyBlock(logo), MetaBlock(doc, issue), StampBlock(doc, stampDate), TableHead();
    assert InColumn(a, col) == [] by { CompanyColumns(logo, col); }
    assert InColumn(b, col) == [] by { MetaColumns(doc, issue, col); }
    assert InColumn(c, col) == [] by { StampColumns(doc, stampDate, col); }
    assert InColumn(d, col) == [Text(ColumnHeader(col), col, Flow(0))] by { HeadColumns(col); }
    OneOfFour(a, b, c, d, col, 3, [Text(ColumnHeader(col), col, Flow(0))]);
  }

  /** The amount columns of the body: the item rows, and in the line-total column the totals too. */
  lemma BodyAmountColumn(doc: Document, wrap: Wrapper, col: Column)
    requires AmountColumn(col)
    ensures InColumn(Body(doc, wrap), col) ==
      InColumn(TableDraws(doc.items, -HeaderDrop, wrap), col) +
      (if col == TotalColumn then InColumn(TotalsDraws(doc, TotalsTop(doc, wrap)), col) else [])
  {
    var top := TotalsTop(doc, wrap);
    var e, f := TableDraws(doc.items, -HeaderDrop, wrap), TotalsDraws(doc, top);
    var g, h := NotesDraws(doc, TotalsEnd(doc, top), wrap), SignatureDraws(doc, SignatureY(doc, wrap));
    var u := if col == TotalColumn then InColumn(f, col) else [];
    assert InColumn(f, col) == u by {
      if col != TotalColumn {
        TotalsElsewhere(doc, top, col);
      }
    }
    assert InColumn(g, col) == [] by { NotesElsewhere(doc, TotalsEnd(doc, top), wrap, col); }
    assert InColumn(h, col) == [] by { SignatureColumns(doc, SignatureY(doc, wrap), col); }
    FirstTwoOfFour(e, f, g, h, col);
  }

  /**
   * The amounts of the totals block as printed: the subtotal, the deposit
   * (negative, invoice with a positive deposit only) and the grand total,
   * which is the subtotal again on a proposal and the given grand total on
   * an invoice.
   */
  function TotalsTexts(doc: Document): seq<string>
  {
    [FormatAmount(doc.subtotal)] +
    (if doc.kind == Invoice && doc.deposit > 0 then [Minus + FormatAmount(doc.deposit)] else []) +
    [FormatAmount(if doc.kind == Proposal then doc.subtotal else doc.grandTotal)]
  }

  /** The texts of the amount column of the totals block. */
  lemma TotalsAmountTexts(doc: Document, y: int)
    ensures CellTexts(InColumn(TotalsDraws(doc, y), TotalColumn)) == TotalsTexts(doc)
  {
    TotalsAmountColumn(doc, y);
    var dep := doc.kind == Invoice && doc.deposit > 0;
    ThreeTexts(FormatAmount(doc.subtotal), y, dep, Minus + FormatAmount(doc.deposit), y - RowHeight,
      FormatAmount(if doc.kind == Proposal then doc.subtotal else doc.grandTotal), GrandTotalY(doc, y));
  }

  lemma ThreeTexts(a1: string, y1: int, dep: bool, a2: string, y2: int, a3: string, y3: int)
    ensures CellTexts([Text(a1, TotalColumn, Flow(y1))] + (if dep then [Text(a2, TotalColumn, Flow(y2))] else []) +
      [Text(a3, TotalColumn, Flow(y3))]) == [a1] + (if dep then [a2] else []) + [a3]
  {
  }

  /** The entries below the heading of an amount column: one per printed item, then in the line-total column the totals. */
  function AmountEntries(doc: Document, wrap: Wrapper, col: Column): seq<string>
    requires AmountColumn(col)
  {
    AmountTexts(Printed(doc.items, wrap), col) + (if col == TotalColumn then TotalsTexts(doc) else [])
  }

  /** The texts of an amount column of the body are its entries. */
  lemma BodyAmountTexts(doc: Document, wrap: Wrapper, col: Column)
    requires AmountColumn(col)
    ensures CellTexts(InColumn(Body(doc, wrap), col)) == AmountEntries(doc, wrap, col)
  {
    var t := InColumn(TableDraws(doc.items, -HeaderDrop, wrap), col);
    var u := if col == TotalColumn then InColumn(TotalsDraws(doc, TotalsTop(doc, wrap)), col) else [];
    BodyAmountColumn(doc, wrap, col);
    TableAmounts(doc.items, -HeaderDrop, wrap, col);
    if col == TotalColumn {
      TotalsAmountTexts(doc, TotalsTop(doc, wrap));
    }
    CellTextsAppend(t, u);
  }

  /** The texts of a header column holding just its heading. */
  lemma HeaderAmountTexts(doc: Document, logo: bool, issue: ValidDate, stampDate: ValidDate, col: Column)
    requires AmountColumn(col)
    ensures CellTexts(InColumn(Header(doc, logo, issue, stampDate), col)) == [ColumnHeader(col)]
  {
    HeaderAmountColumn(doc, logo, issue, stampDate, col);
  }

  /**
   * Each amount column of the page holds its heading and one entry per
   * printed item, in item order; the line-total column then holds the
   * totals.
   */
  lemma PageAmountColumn(doc: Document, wrap: Wrapper, logo: bool, issue: ValidDate, stampDate: ValidDate, col: Column)
    requires AmountColumn(col)
    ensures CellTexts(InColumn(Page(doc, wrap, logo, issue, stampDate), col)) == [ColumnHeader(col)] + AmountEntries(doc, wrap, col)
  {
    var h := InColumn(Header(doc, logo, issue, stampDate), col);
    var b := InColumn(Body(doc, wrap), col);
    HeaderAmountTexts(doc, logo, issue, stampDate, col);
    BodyAmountTexts(doc, wrap, col);
    PageSplit(doc, wrap, logo, issue, stampDate, col);
    CellTextsAppend(h, b);
  }

  /**
   * The first line under the company block reads "Proposal #: <ref>" for a
   * proposal and "Invoice #: <ref>" for an invoice.
   */
  lemma HeaderHeading(doc: Document, logo: bool, issue: ValidDate, stampDate: ValidDate)
    ensures var i := if logo then 6 else 5;
      i < |Header(doc, logo, issue, stampDate)| &&
      Header(doc, logo, issue, stampDate)[i] ==
        Text(Heading(doc.kind) + NumberSep + doc.refNo, Margin, Fixed(1656))
  {
    var a, b := CompanyBlock(logo), MetaBlock(doc, issue);
    var rest := StampBlock(doc, stampDate) + TableHead();
    FirstOfMiddle(a, b, rest);
  }

  lemma FirstOfMiddle(a: seq<Draw>, b: seq<Draw>, c: seq<Draw>)
    requires b != []
    ensures |a| < |a + b + c| && (a + b + c)[|a|] == b[0]
  {
  }
}
