/**
 * What the page drawn by `build_pdf` shows, column by column and block by block.
 */
module LayoutFacts {
  import opened Wrappers
  import opened Money
  import opened Dates
  import opened Items
  import opened Layout

  /** The draws in one column, in drawing order. */
  function InColumn(draws: seq<Draw>, col: Column): (r: seq<Draw>)
    ensures |r| <= |draws|
  {
    FirstInColumn(draws, col, |draws|)
  }

  /** The draws in one column among the first n. */
  function FirstInColumn(draws: seq<Draw>, col: Column, n: nat): (r: seq<Draw>)
    requires n <= |draws|
    ensures |r| <= n
  {
    if n == 0 then []
    else FirstInColumn(draws, col, n - 1) + (if draws[n - 1].col == col then [draws[n - 1]] else [])
  }

  /** The text of each draw (an image has none). */
  function CellTexts(draws: seq<Draw>): seq<string>
  {
    seq(|draws|, k requires 0 <= k < |draws| => if draws[k].Text? then draws[k].text else "")
  }

  lemma {:induction false} InColumnAppend(a: seq<Draw>, b: seq<Draw>, col: Column)
    ensures InColumn(a + b, col) == InColumn(a, col) + InColumn(b, col)
  {
    FirstOfAppendLeft(a, b, col, |a|);
    FirstOfAppendRight(a, b, col, |b|);
  }

  lemma {:induction false} FirstOfAppendLeft(a: seq<Draw>, b: seq<Draw>, col: Column, n: nat)
    requires n <= |a|
    ensures FirstInColumn(a + b, col, n) == FirstInColumn(a, col, n)
  {
    if n > 0 {
      FirstOfAppendLeft(a, b, col, n - 1);
      assert (a + b)[n - 1] == a[n - 1];
    }
  }

  lemma {:induction false} FirstOfAppendRight(a: seq<Draw>, b: seq<Draw>, col: Column, k: nat)
    requires k <= |b|
    ensures FirstInColumn(a + b, col, |a| + k) == InColumn(a, col) + FirstInColumn(b, col, k)
  {
    if k == 0 {
      FirstOfAppendLeft(a, b, col, |a|);
    } else {
      FirstOfAppendRight(a, b, col, k - 1);
      assert (a + b)[|a| + k - 1] == b[k - 1];
    }
  }

  lemma {:induction false} FirstNone(s: seq<Draw>, col: Column, n: nat)
    requires n <= |s|
    requires forall i :: 0 <= i < |s| ==> s[i].col != col
    ensures FirstInColumn(s, col, n) == []
  {
    if n > 0 {
      FirstNone(s, col, n - 1);
    }
  }

  lemma {:induction false} FirstAll(s: seq<Draw>, col: Column, n: nat)
    requires n <= |s|
    requires forall i :: 0 <= i < |s| ==> s[i].col == col
    ensures FirstInColumn(s, col, n) == s[..n]
  {
    if n > 0 {
      FirstAll(s, col, n - 1);
      assert s[..n] == s[..n - 1] + [s[n - 1]];
    }
  }

  lemma InColumnNone(s: seq<Draw>, col: Column)
    requires forall i :: 0 <= i < |s| ==> s[i].col != col
    ensures InColumn(s, col) == []
  {
    FirstNone(s, col, |s|);
  }

  lemma InColumnAll(s: seq<Draw>, col: Column)
    requires forall i :: 0 <= i < |s| ==> s[i].col == col
    ensures InColumn(s, col) == s
  {
    FirstAll(s, col, |s|);
  }

  /** A column with one entry in a block. */
  lemma InColumnOne(s: seq<Draw>, col: Column, i: nat)
    requires i < |s| && s[i].col == col
    requires forall j :: 0 <= j < |s| && j != i ==> s[j].col != col
    ensures InColumn(s, col) == [s[i]]
  {
    assert s == s[..i] + [s[i]] + s[i + 1..];
    InColumnAppend(s[..i] + [s[i]], s[i + 1..], col);
    InColumnAppend(s[..i], [s[i]], col);
    InColumnNone(s[..i], col);
    InColumnNone(s[i + 1..], col);
  }

  /** A column with two entries in a block. */
  lemma InColumnTwo(s: seq<Draw>, col: Column, i: nat, k: nat)
    requires i < k < |s| && s[i].col == col && s[k].col == col
    requires forall j :: 0 <= j < |s| && j != i && j != k ==> s[j].col != col
    ensures InColumn(s, col) == [s[i], s[k]]
  {
    assert s == s[..k] + s[k..];
    InColumnAppend(s[..k], s[k..], col);
    InColumnOne(s[..k], col, i);
    InColumnOne(s[k..], col, 0);
  }

  lemma CellTextsAppend(a: seq<Draw>, b: seq<Draw>)
    ensures CellTexts(a + b) == CellTexts(a) + CellTexts(b)
  {
    assert forall k :: 0 <= k < |a| ==> (a + b)[k] == a[k];
    assert forall k :: 0 <= k < |b| ==> (a + b)[|a| + k] == b[k];
  }

  predicate AmountColumn(col: Column)
  {
    col == QtyColumn || col == UnitColumn || col == TotalColumn
  }

  /** What an item shows in an amount column: `.2f` quantity, unit price, line total. */
  function AmountText(it: Item, col: Column): string
    requires AmountColumn(col)
  {
    match col
    case QtyColumn => FormatQty(Qty(it))
    case UnitColumn => FormatCents(UnitPrice(it))
    case _ => FormatAmount(LineAmount(it))
  }

  /** Description lines 18 points apart, the first at height y. */
  function DescRows(lines: seq<string>, y: int): seq<Draw>
  {
    seq(|lines|, k requires 0 <= k < |lines| => Text(lines[k], Margin, Flow(y - RowHeight * k)))
  }

  lemma DescRowsAppend(a: seq<string>, b: seq<string>, y: int)
    ensures DescRows(a + b, y) == DescRows(a, y) + DescRows(b, y - RowHeight * |a|)
  {
    var l, r := DescRows(a + b, y), DescRows(a, y) + DescRows(b, y - RowHeight * |a|);
    assert |l| == |r|;
    forall k | 0 <= k < |l|
      ensures l[k] == r[k]
    {
      if k >= |a| {
        assert (a + b)[k] == b[k - |a|];
      }
    }
  }

  /** One wrapped line: the description text, and on the first line the three amounts. */
  lemma RowColumns(it: Item, line: string, j: nat, y: int, col: Column)
    ensures InColumn(RowDraws(it, line, j, y), col) ==
      if col == Margin then [Text(line, Margin, Flow(y))]
      else if AmountColumn(col) && j == 0 then [Text(AmountText(it, col), col, Flow(y))]
      else []
  {
    var r := RowDraws(it, line, j, y);
    if j == 0 {
      FirstRowColumns(it, line, y, col);
    } else {
      assert r == [Text(line, Margin, Flow(y))];
      if col == Margin {
        InColumnOne(r, col, 0);
      } else {
        InColumnNone(r, col);
      }
    }
  }

  /** The first row of an item: one cell in each of the description and amount columns. */
  lemma FirstRowColumns(it: Item, line: string, y: int, col: Column)
    ensures InColumn(RowDraws(it, line, 0, y), col) ==
      if col == Margin then [Text(line, Margin, Flow(y))]
      else if AmountColumn(col) then [Text(AmountText(it, col), col, Flow(y))]
      else []
  {
    var r := [ Text(line, Margin, Flow(y)),
               Text(FormatQty(Qty(it)), QtyColumn, Flow(y)),
               Text(FormatCents(UnitPrice(it)), UnitColumn, Flow(y)),
               Text(FormatAmount(LineAmount(it)), TotalColumn, Flow(y)) ];
    assert RowDraws(it, line, 0, y) == r;
    FourCells(r[0], r[1], r[2], r[3], col);
  }

  /** Four draws, one in each of the description and amount columns. */
  lemma FourCells(p: Draw, q: Draw, u: Draw, v: Draw, col: Column)
    requires p.col == Margin && q.col == QtyColumn && u.col == UnitColumn && v.col == TotalColumn
    ensures InColumn([p, q, u, v], col) ==
      if col == Margin then [p] else if col == QtyColumn then [q]
      else if col == UnitColumn then [u] else if col == TotalColumn then [v] else []
  {
    var r := [p, q, u, v];
    if col == Margin {
      InColumnOne(r, col, 0);
    } else if col == QtyColumn {
      InColumnOne(r, col, 1);
    } else if col == UnitColumn {
      InColumnOne(r, col, 2);
    } else if col == TotalColumn {
      InColumnOne(r, col, 3);
    } else {
      InColumnNone(r, col);
    }
  }

  /**
   * An item whose description wraps to `lines` draws one description row per
   * line, 18 points apart, the first at height y.
   */
  lemma {:induction false} LinesDescriptions(it: Item, lines: seq<string>, y: int)
    ensures InColumn(LinesDraws(it, lines, y), Margin) == DescRows(lines, y)
  {
    if lines != [] {
      var j := |lines| - 1;
      var init := lines[..j];
      var a := LinesDraws(it, init, y);
      var row := RowDraws(it, lines[j], j, y - RowHeight * j);
      var cell := [Text(lines[j], Margin, Flow(y - RowHeight * j))];
      assert LinesDraws(it, lines, y) == a + row;
      assert InColumn(a, Margin) == DescRows(init, y) by { LinesDescriptions(it, init, y); }
      assert InColumn(row, Margin) == cell by { RowColumns(it, lines[j], j, y - RowHeight * j, Margin); }
      InColumnAppend(a, row, Margin);
      DescRowsSnoc(lines, y);
    }
  }

  lemma DescRowsSnoc(lines: seq<string>, y: int)
    requires lines != []
    ensures var n := |lines| - 1;
      DescRows(lines, y) == DescRows(lines[..n], y) + [Text(lines[n], Margin, Flow(y - RowHeight * n))]
  {
  }

  /**
   * An item shows its quantity, unit price and line total once, on the row of
   * its first wrapped line, and not at all when the description wraps to nothing.
   */
  lemma {:induction false} LinesAmounts(it: Item, lines: seq<string>, y: int, col: Column)
    requires AmountColumn(col)
    ensures InColumn(LinesDraws(it, lines, y), col) ==
      if lines == [] then [] else [Text(AmountText(it, col), col, Flow(y))]
  {
    if lines != [] {
      var j := |lines| - 1;
      var init := lines[..j];
      var a := LinesDraws(it, init, y);
      var row := RowDraws(it, lines[j], j, y - RowHeight * j);
      var cell := [Text(AmountText(it, col), col, Flow(y))];
      assert LinesDraws(it, lines, y) == a + row;
      assert InColumn(a, col) == if init == [] then [] else cell by { LinesAmounts(it, init, y, col); }
      assert InColumn(row, col) == if j == 0 then cell else [] by { RowColumns(it, lines[j], j, y - RowHeight * j, col); }
      InColumnAppend(a, row, col);
      assert init == [] <==> j == 0;
    }
  }

  /** An item draws nothing outside the description and amount columns. */
  lemma {:induction false} LinesElsewhere(it: Item, lines: seq<string>, y: int, col: Column)
    requires col != Margin && !AmountColumn(col)
    ensures InColumn(LinesDraws(it, lines, y), col) == []
  {
    if lines != [] {
      var j := |lines| - 1;
      var init := lines[..j];
      var row := RowDraws(it, lines[j], j, y - RowHeight * j);
      assert LinesDraws(it, lines, y) == LinesDraws(it, init, y) + row;
      LinesElsewhere(it, init, y, col);
      assert InColumn(row, col) == [] by { RowColumns(it, lines[j], j, y - RowHeight * j, col); }
      InColumnAppend(LinesDraws(it, init, y), row, col);
    }
  }

  /** Each wrapped line is one row, and the first also carries the three amounts. */
  lemma {:induction false} LinesDrawCount(it: Item, lines: seq<string>, y: int)
    ensures |LinesDraws(it, lines, y)| == if lines == [] then 0 else |lines| + 3
  {
    if lines != [] {
      LinesDrawCount(it, lines[..|lines| - 1], y);
    }
  }

  /** An item draws nothing, not even its amounts, exactly when its description wraps to no lines. */
  lemma ItemDrawsNothing(it: Item, y: int, wrap: Wrapper)
    ensures ItemDraws(it, y, wrap) == [] <==> Lines(it, wrap) == []
  {
    LinesDrawCount(it, Lines(it, wrap), y);
  }

  /** An item without a description is left off the page when wrapping "" gives no lines. */
  lemma BlankItemLeftOff(it: Item, y: int, wrap: Wrapper)
    requires wrap("", DescWidth) == []
    requires it.description == None || it.description == Some("")
    ensures ItemDraws(it, y, wrap) == []
  {
    ItemDrawsNothing(it, y, wrap);
  }

  /** All wrapped description lines of the table, item after item. */
  function AllLines(items: seq<Item>, wrap: Wrapper): seq<string>
  {
    if items == [] then []
    else AllLines(items[..|items| - 1], wrap) + Lines(items[|items| - 1], wrap)
  }

  /** The items that appear on the page: those whose description wraps to at least one line. */
  function Printed(items: seq<Item>, wrap: Wrapper): (r: seq<Item>)
    ensures |r| <= |items|
    ensures forall i :: 0 <= i < |r| ==> Lines(r[i], wrap) != []
  {
    if items == [] then []
    else
      var last := items[|items| - 1];
      Printed(items[..|items| - 1], wrap) + (if Lines(last, wrap) != [] then [last] else [])
  }

  function AmountTexts(items: seq<Item>, col: Column): seq<string>
    requires AmountColumn(col)
  {
    seq(|items|, i requires 0 <= i < |items| => AmountText(items[i], col))
  }

  lemma {:induction false} LineCountIsLines(items: seq<Item>, wrap: Wrapper)
    ensures LineCount(items, wrap) == |AllLines(items, wrap)|
  {
    if items != [] {
      LineCountIsLines(items[..|items| - 1], wrap);
    }
  }

  /** The description column of the table lists every wrapped line of every item, 18 points apart. */
  lemma {:induction false} TableDescriptions(items: seq<Item>, y: int, wrap: Wrapper)
    ensures InColumn(TableDraws(items, y, wrap), Margin) == DescRows(AllLines(items, wrap), y)
  {
    if items != [] {
      var init := items[..|items| - 1];
      var it := items[|items| - 1];
      var top := y - RowHeight * LineCount(init, wrap);
      var a, b := TableDraws(init, y, wrap), ItemDraws(it, top, wrap);
      assert TableDraws(items, y, wrap) == a + b;
      assert AllLines(items, wrap) == AllLines(init, wrap) + Lines(it, wrap);
      TableDescriptions(init, y, wrap);
      LinesDescriptions(it, Lines(it, wrap), top);
      InColumnAppend(a, b, Margin);
      LineCountIsLines(init, wrap);
      DescRowsAppend(AllLines(init, wrap), Lines(it, wrap), y);
    }
  }

  /** A non-empty sequence is its prefix followed by its last element. */
  lemma LastSplit<T>(s: seq<T>)
    requires s != []
    ensures s == s[..|s| - 1] + [s[|s| - 1]]
  {
  }

  /**
   * An amount column of the table lists the quantity, unit price or line total
   * of each printed item, in item order.
   */
  lemma {:induction false} TableAmounts(items: seq<Item>, y: int, wrap: Wrapper, col: Column)
    requires AmountColumn(col)
    ensures CellTexts(InColumn(TableDraws(items, y, wrap), col)) == AmountTexts(Printed(items, wrap), col)
  {
    if items != [] {
      var init := items[..|items| - 1];
      TableAmounts(init, y, wrap, col);
      var last := items[|items| - 1];
      LastSplit(items);
      TableAmountsStep(init, last, y, wrap, col);
    }
  }

  /** One more item adds its amount to the column exactly when it prints a line. */
  lemma TableAmountsStep(init: seq<Item>, it: Item, y: int, wrap: Wrapper, col: Column)
    requires AmountColumn(col)
    requires CellTexts(InColumn(TableDraws(init, y, wrap), col)) == AmountTexts(Printed(init, wrap), col)
    ensures CellTexts(InColumn(TableDraws(init + [it], y, wrap), col)) == AmountTexts(Printed(init + [it], wrap), col)
  {
    var items := init + [it];
    assert items[..|items| - 1] == init;
    var top := y - RowHeight * LineCount(init, wrap);
    var a, b := TableDraws(init, y, wrap), ItemDraws(it, top, wrap);
    var shown := Lines(it, wrap) != [];
    assert TableDraws(items, y, wrap) == a + b;
    assert Printed(items, wrap) == Printed(init, wrap) + (if shown then [it] else []);
    LinesAmounts(it, Lines(it, wrap), top, col);
    InColumnAppend(a, b, col);
    CellTextsAppend(InColumn(a, col), InColumn(b, col));
    AmountTextsSnoc(Printed(init, wrap), it, shown, col);
    assert CellTexts(InColumn(b, col)) == if shown then [AmountText(it, col)] else [];
  }

  lemma AmountTextsSnoc(items: seq<Item>, it: Item, shown: bool, col: Column)
    requires AmountColumn(col)
    ensures AmountTexts(items + (if shown then [it] else []), col) ==
      AmountTexts(items, col) + (if shown then [AmountText(it, col)] else [])
  {
    if !shown {
      assert items + [] == items;
    }
  }

  /** The table draws nothing outside the description and amount columns. */
  lemma {:induction false} TableElsewhere(items: seq<Item>, y: int, wrap: Wrapper, col: Column)
    requires col != Margin && !AmountColumn(col)
    ensures InColumn(TableDraws(items, y, wrap), col) == []
  {
    if items != [] {
      var init := items[..|items| - 1];
      TableElsewhere(init, y, wrap, col);
      var last := items[|items| - 1];
      LastSplit(items);
      TableElsewhereStep(init, last, y, wrap, col);
    }
  }

  /** One more item draws nothing outside the description and amount columns either. */
  lemma TableElsewhereStep(init: seq<Item>, it: Item, y: int, wrap: Wrapper, col: Column)
    requires col != Margin && !AmountColumn(col)
    requires InColumn(TableDraws(init, y, wrap), col) == []
    ensures InColumn(TableDraws(init + [it], y, wrap), col) == []
  {
    var items := init + [it];
    assert items[..|items| - 1] == init;
    var top := y - RowHeight * LineCount(init, wrap);
    var a, b := TableDraws(init, y, wrap), ItemDraws(it, top, wrap);
    assert TableDraws(items, y, wrap) == a + b;
    assert InColumn(b, col) == [] by { LinesElsewhere(it, Lines(it, wrap), top, col); }
    InColumnAppend(a, b, col);
  }

  /** When every description wraps to at least one line, every item is printed, in order. */
  lemma {:induction false} AllItemsPrinted(items: seq<Item>, wrap: Wrapper)
    requires forall i :: 0 <= i < |items| ==> Lines(items[i], wrap) != []
    ensures Printed(items, wrap) == items
  {
    if items != [] {
      var n := |items| - 1;
      AllItemsPrinted(items[..n], wrap);
      assert items == items[..n] + [items[n]];
    }
  }

  /** The check-number line: on an invoice with a check number only, below the grand total. */
  function CheckLine(doc: Document, y: int): seq<Draw>
  {
    if doc.kind == Invoice && doc.checkNumber != "" then [Text(CheckPrefix + doc.checkNumber, Margin, Flow(TotalsEnd(doc, y)))]
    else []
  }

  /** One totals line: a label and its amount at the same height. */
  lemma PairColumns(name: string, amount: string, y: int, col: Column)
    ensures var p := [Text(name, LabelColumn, Flow(y)), Text(amount, TotalColumn, Flow(y))];
      InColumn(p, col) ==
        if col == LabelColumn then [p[0]] else if col == TotalColumn then [p[1]] else []
  {
    var p := [Text(name, LabelColumn, Flow(y)), Text(amount, TotalColumn, Flow(y))];
    if col == LabelColumn {
      InColumnOne(p, col, 0);
    } else if col == TotalColumn {
      InColumnOne(p, col, 1);
    } else {
      InColumnNone(p, col);
    }
  }

  /** The totals block as its lines: subtotal, deposit, grand total, check number. */
  lemma TotalsSplit(doc: Document, y: int)
    ensures doc.kind == Proposal ==>
      TotalsDraws(doc, y) ==
        TotalsLine(SubtotalLabel, FormatAmount(doc.subtotal), y) +
        TotalsLine(GrandTotalLabel, FormatAmount(doc.subtotal), GrandTotalY(doc, y))
    ensures doc.kind == Invoice ==>
      TotalsDraws(doc, y) ==
        TotalsLine(SubtotalLabel, FormatAmount(doc.subtotal), y) +
        (if doc.deposit > 0 then TotalsLine(DepositLabel, Minus + FormatAmount(doc.deposit), y - RowHeight) else []) +
        TotalsLine(GrandTotalLabel, FormatAmount(doc.grandTotal), GrandTotalY(doc, y)) +
        CheckLine(doc, y)
  {
  }

  function TotalsLine(name: string, amount: string, y: int): seq<Draw>
  {
    [Text(name, LabelColumn, Flow(y)), Text(amount, TotalColumn, Flow(y))]
  }

  /** The labels of the totals block at height y. */
  function TotalsLabels(doc: Document, y: int): seq<Draw>
  {
    [Text(SubtotalLabel, LabelColumn, Flow(y))] +
    (if doc.kind == Invoice && doc.deposit > 0 then [Text(DepositLabel, LabelColumn, Flow(y - RowHeight))] else []) +
    [Text(GrandTotalLabel, LabelColumn, Flow(GrandTotalY(doc, y)))]
  }

  /**
   * The label column of the totals block: Subtotal, Deposit (invoice with a
   * positive deposit only), Grand Total.
   */
  lemma TotalsLabelColumn(doc: Document, y: int)
    ensures InColumn(TotalsDraws(doc, y), LabelColumn) == TotalsLabels(doc, y)
  {
    TotalsAsLines(doc, y, LabelColumn);
  }

  /**
   * The amount column of the totals block: the subtotal, the deposit as a
   * negative amount (invoice with a positive deposit only), and the grand
   * total, which for a proposal is the subtotal again and for an invoice is
   * the grand total it was given.
   */
  lemma TotalsAmountColumn(doc: Document, y: int)
    ensures InColumn(TotalsDraws(doc, y), TotalColumn) ==
      [Text(FormatAmount(doc.subtotal), TotalColumn, Flow(y))] +
      (if doc.kind == Invoice && doc.deposit > 0 then [Text(Minus + FormatAmount(doc.deposit), TotalColumn, Flow(y - RowHeight))] else []) +
      [Text(FormatAmount(if doc.kind == Proposal then doc.subtotal else doc.grandTotal), TotalColumn, Flow(GrandTotalY(doc, y)))]
  {
    TotalsAsLines(doc, y, TotalColumn);
  }

  /** The totals block writes in the margin only the check-number line, and nothing in other columns. */
  lemma TotalsElsewhere(doc: Document, y: int, col: Column)
    requires col != LabelColumn && col != TotalColumn
    ensures InColumn(TotalsDraws(doc, y), col) == if col == Margin then CheckLine(doc, y) else []
  {
    var chk := CheckLine(doc, y);
    assert chk == if doc.kind == Invoice then chk else [];
    assert InColumn(TotalsDraws(doc, y), col) == InColumn(chk, col) by { TotalsAsLines(doc, y, col); }
    if chk != [] && col == Margin {
      InColumnOne(chk, col, 0);
    } else {
      InColumnNone(chk, col);
    }
  }

  /** Connects the totals block with `LinesColumns` for one column. */
  lemma TotalsAsLines(doc: Document, y: int, col: Column)
    ensures var dep := doc.kind == Invoice && doc.deposit > 0;
      var grand := if doc.kind == Proposal then doc.subtotal else doc.grandTotal;
      var rest := if doc.kind == Invoice then CheckLine(doc, y) else [];
      LinesColumns(SubtotalLabel, FormatAmount(doc.subtotal), y, dep, DepositLabel, Minus + FormatAmount(doc.deposit),
        GrandTotalLabel, FormatAmount(grand), GrandTotalY(doc, y), rest, col) &&
      InColumn(TotalsDraws(doc, y), col) ==
        InColumn(TotalsLine(SubtotalLabel, FormatAmount(doc.subtotal), y) +
          (if dep then TotalsLine(DepositLabel, Minus + FormatAmount(doc.deposit), y - RowHeight) else []) +
          TotalsLine(GrandTotalLabel, FormatAmount(grand), GrandTotalY(doc, y)) + rest, col)
  {
    TotalsSplit(doc, y);
    var g := GrandTotalY(doc, y);
    if doc.kind == Proposal {
      assert TotalsDraws(doc, y) == TotalsLine(SubtotalLabel, FormatAmount(doc.subtotal), y) + [] +
        TotalsLine(GrandTotalLabel, FormatAmount(doc.subtotal), g) + [];
      TotalsLinesColumns(SubtotalLabel, FormatAmount(doc.subtotal), y, false, DepositLabel, Minus + FormatAmount(doc.deposit),
        GrandTotalLabel, FormatAmount(doc.subtotal), g, [], col);
    } else {
      TotalsLinesColumns(SubtotalLabel, FormatAmount(doc.subtotal), y, doc.deposit > 0, DepositLabel, Minus + FormatAmount(doc.deposit),
        GrandTotalLabel, FormatAmount(doc.grandTotal), g, CheckLine(doc, y), col);
    }
  }

  /** What totals lines (the middle one optional) followed by margin lines show in a column. */
  predicate LinesColumns(n1: string, a1: string, y: int, dep: bool, n2: string, a2: string,
                         n3: string, a3: string, g: int, rest: seq<Draw>, col: Column)
  {
    var all := TotalsLine(n1, a1, y) + (if dep then TotalsLine(n2, a2, y - RowHeight) else []) + TotalsLine(n3, a3, g) + rest;
    (col == LabelColumn ==>
       InColumn(all, col) ==
         [Text(n1, col, Flow(y))] + (if dep then [Text(n2, col, Flow(y - RowHeight))] else []) + [Text(n3, col, Flow(g))]) &&
    (col == TotalColumn ==>
       InColumn(all, col) ==
         [Text(a1, col, Flow(y))] + (if dep then [Text(a2, col, Flow(y - RowHeight))] else []) + [Text(a3, col, Flow(g))]) &&
    (col != LabelColumn && col != TotalColumn ==> InColumn(all, col) == InColumn(rest, col))
  }

  lemma TotalsLinesColumns(n1: string, a1: string, y: int, dep: bool, n2: string, a2: string,
                           n3: string, a3: string, g: int, rest: seq<Draw>, col: Column)
    requires forall i :: 0 <= i < |rest| ==> rest[i].col == Margin
    ensures LinesColumns(n1, a1, y, dep, n2, a2, n3, a3, g, rest, col)
  {
    var sub, mid, gt := TotalsLine(n1, a1, y), (if dep then TotalsLine(n2, a2, y - RowHeight) else []), TotalsLine(n3, a3, g);
    PairColumns(n1, a1, y, col);
    if dep {
      PairColumns(n2, a2, y - RowHeight, col);
    } else {
      InColumnNone(mid, col);
    }
    PairColumns(n3, a3, g, col);
    if col == LabelColumn || col == TotalColumn {
      InColumnNone(rest, col);
    }
    InColumnAppend(sub, mid, col);
    InColumnAppend(sub + mid, gt, col);
    InColumnAppend(sub + mid + gt, rest, col);
  }

  /** Notes lines 14 points apart, the first at height y. */
  function NoteRows(lines: seq<string>, y: int): seq<Draw>
  {
    seq(|lines|, k requires 0 <= k < |lines| => Text(lines[k], Margin, Flow(y - NotesLeading * k)))
  }

  lemma {:induction false} NoteLinesRows(lines: seq<string>, y: int)
    ensures NoteLines(lines, y) == NoteRows(lines, y)
  {
    if lines != [] {
      var n := |lines| - 1;
      NoteLinesRows(lines[..n], y);
      assert NoteRows(lines, y) == NoteRows(lines[..n], y) + [Text(lines[n], Margin, Flow(y - NotesLeading * n))];
    }
  }

  /**
   * Notes are drawn only when there are any: one margin line per line of the
   * notes wrapped at 90 characters, 25 points below the totals and 14 apart.
   */
  lemma NotesShown(doc: Document, y: int, wrap: Wrapper)
    ensures NotesDraws(doc, y, wrap) ==
      if doc.notes == "" then [] else NoteRows(wrap(doc.notes, NotesWidth), y - NotesGap)
    ensures InColumn(NotesDraws(doc, y, wrap), Margin) == NotesDraws(doc, y, wrap)
  {
    if doc.notes != "" {
      NoteLinesRows(wrap(doc.notes, NotesWidth), y - NotesGap);
    }
    InColumnAll(NotesDraws(doc, y, wrap), Margin);
  }

  lemma NotesElsewhere(doc: Document, y: int, wrap: Wrapper, col: Column)
    requires col != Margin
    ensures InColumn(NotesDraws(doc, y, wrap), col) == []
  {
    NotesShown(doc, y, wrap);
    InColumnNone(NotesDraws(doc, y, wrap), col);
  }

  /** The "Signed: <date>" text of the signature block at height y, if any. */
  function SignedTexts(doc: Document, y: int): seq<Draw>
  {
    if doc.signature != [] && doc.signatureDate != "" then [Text(SignedPrefix + doc.signatureDate, SignedColumn, Flow(y + SignedRaise))] else []
  }

  /** The line to date by hand of the signature block at height y, if any. */
  function DateLines(doc: Document, y: int): seq<Draw>
  {
    if doc.signature == [] then [Text(DateLine, DateColumn, Flow(y))] else []
  }

  /**
   * With signature bytes the image goes in the margin, with "Signed: <date>"
   * beside it only when a date text is given too; without them the margin
   * holds the line to sign and the date column the line to date.
   */
  lemma SignatureColumns(doc: Document, y: int, col: Column)
    ensures col == Margin ==>
      InColumn(SignatureDraws(doc, y), col) ==
        [if doc.signature != [] then Image(Signature(doc.signature), Margin, Flow(y)) else Text(SignLine, Margin, Flow(y))]
    ensures col == SignedColumn ==> InColumn(SignatureDraws(doc, y), col) == SignedTexts(doc, y)
    ensures col == DateColumn ==> InColumn(SignatureDraws(doc, y), col) == DateLines(doc, y)
    ensures col != Margin && col != SignedColumn && col != DateColumn ==> InColumn(SignatureDraws(doc, y), col) == []
  {
    var s := SignatureDraws(doc, y);
    if doc.signature != [] && doc.signatureDate != "" {
      if col == Margin { InColumnOne(s, col, 0); }
      else if col == SignedColumn { InColumnOne(s, col, 1); }
      else { InColumnNone(s, col); }
    } else if doc.signature != [] {
      if col == Margin { InColumnOne(s, col, 0); } else { InColumnNone(s, col); }
    } else {
      if col == Margin { InColumnOne(s, col, 0); }
      else if col == DateColumn { InColumnOne(s, col, 1); }
      else { InColumnNone(s, col); }
    }
  }

  /** The logo, when it could be loaded, is the only thing in the top corner; the rest is in the margin. */
  lemma CompanyColumns(logo: bool, col: Column)
    ensures col == LogoCorner ==> InColumn(CompanyBlock(logo), col) == if logo then [Image(Logo, LogoCorner, Fixed(800))] else []
    ensures col != LogoCorner && col != Margin ==> InColumn(CompanyBlock(logo), col) == []
  {
    var s := CompanyBlock(logo);
    if logo && col == LogoCorner {
      InColumnOne(s, col, 0);
    } else if col != Margin {
      InColumnNone(s, col);
    }
  }

  /** The right-hand column of the header holds the issue date and the terms line, nothing else. */
  lemma MetaColumns(doc: Document, issue: ValidDate, col: Column)
    ensures col == MetaColumn ==>
      InColumn(MetaBlock(doc, issue), col) ==
        [Text(DatePrefix + FormatDate(issue), MetaColumn, Fixed(1656)), Text(Terms(doc.kind, issue), MetaColumn, Fixed(1872))]
    ensures col != MetaColumn && col != Margin ==> InColumn(MetaBlock(doc, issue), col) == []
  {
    var s := MetaBlock(doc, issue);
    if col == MetaColumn {
      InColumnTwo(s, col, 4, 5);
    } else if col != Margin {
      InColumnNone(s, col);
    }
  }

  lemma PrefixCancel(p: string, x: string, y: string)
    ensures p + x == p + y <==> x == y
  {
    if p + x == p + y {
      assert x == (p + x)[|p|..];
      assert y == (p + y)[|p|..];
    }
  }

  /**
   * The terms line names the right date: on a proposal "Valid until:" with the
   * one date 15 days after the issue date, on an invoice "Due:" with the issue
   * date itself (years up to 9999, as Python dates are).
   */
  lemma TermsDate(kind: Kind, issue: ValidDate, e: ValidDate)
    requires AddDays(issue, 15).year <= MaxYear && e.year <= MaxYear && issue.year <= MaxYear
    ensures kind == Proposal ==>
      (Terms(kind, issue) == ValidUntilPrefix + FormatDate(e) <==> Ordinal(e) == Ordinal(issue) + 15)
    ensures kind == Invoice ==>
      (Terms(kind, issue) == DuePrefix + FormatDate(e) <==> e == issue)
  {
    var until := AddDays(issue, 15);
    if kind == Proposal {
      PrefixCancel(ValidUntilPrefix, FormatDate(until), FormatDate(e));
      FormatDateInjective(until, e);
      AddDaysUnique(issue, 15, e);
    } else {
      PrefixCancel(DuePrefix, FormatDate(issue), FormatDate(e));
      FormatDateInjective(issue, e);
    }
  }

  lemma StampColumns(doc: Document, stampDate: ValidDate, col: Column)
    ensures InColumn(StampBlock(doc, stampDate), col) == if col == StampColumn then StampBlock(doc, stampDate) else []
  {
    var s := StampBlock(doc, stampDate);
    if col == StampColumn {
      InColumnAll(s, col);
    } else {
      InColumnNone(s, col);
    }
  }

  /** The heading of each table column. */
  function ColumnHeader(col: Column): string
    requires col == Margin || AmountColumn(col)
  {
    match col
    case Margin => DescHeader
    case QtyColumn => QtyHeader
    case UnitColumn => UnitHeader
    case _ => TotalHeader
  }

  lemma HeadColumns(col: Column)
    ensures InColumn(TableHead(), col) ==
      if col == Margin || AmountColumn(col) then [Text(ColumnHeader(col), col, Flow(0))] else []
  {
    var s := TableHead();
    match col
    case Margin => InColumnOne(s, col, 0);
    case QtyColumn => InColumnOne(s, col, 1);
    case UnitColumn => InColumnOne(s, col, 2);
    case TotalColumn => InColumnOne(s, col, 3);
    case _ => InColumnNone(s, col);
  }
}
