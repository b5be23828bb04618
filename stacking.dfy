/**
 * The vertical order of the body of the page: the item rows, then the totals,
 * then the notes, then the signature, each block wholly below the one before,
 * because the cursor y only ever moves down between them.
 */
module Stacking {
  import opened Wrappers
  import opened Items
  import opened Layout

  /** Every draw of s sits in the flowing part of the page, between heights lo and hi. */
  predicate Within(s: seq<Draw>, lo: int, hi: int)
  {
    forall i :: 0 <= i < |s| ==> s[i].pos.Flow? && lo <= s[i].pos.y <= hi
  }

  lemma WithinAppend(a: seq<Draw>, b: seq<Draw>, lo: int, hi: int)
    requires Within(a, lo, hi) && Within(b, lo, hi)
    ensures Within(a + b, lo, hi)
  {
    assert forall i :: |a| <= i < |a + b| ==> (a + b)[i] == b[i - |a|];
  }

  lemma WithinWiden(s: seq<Draw>, lo: int, hi: int, lo': int, hi': int)
    requires Within(s, lo, hi) && lo' <= lo && hi <= hi'
    ensures Within(s, lo', hi')
  {
  }

  /** The rows of an item with n wrapped lines, the first at y, lie between y - 18(n - 1) and y. */
  lemma {:induction false} LinesBand(it: Item, lines: seq<string>, y: int)
    ensures Within(LinesDraws(it, lines, y), y - RowHeight * (|lines| - 1), y)
  {
    if lines != [] {
      var j := |lines| - 1;
      var lo := y - RowHeight * j;
      LinesBand(it, lines[..j], y);
      WithinWiden(LinesDraws(it, lines[..j], y), y - RowHeight * (j - 1), y, lo, y);
      var row := RowDraws(it, lines[j], j, lo);
      assert Within(row, lo, lo);
      WithinWiden(row, lo, lo, lo, y);
      WithinAppend(LinesDraws(it, lines[..j], y), row, lo, y);
    }
  }

  /** The item rows starting at y lie between the last row, 18 points per line lower, and y. */
  lemma {:induction false} TableBand(items: seq<Item>, y: int, wrap: Wrapper)
    ensures Within(TableDraws(items, y, wrap), y - RowHeight * (LineCount(items, wrap) - 1), y)
  {
    if items != [] {
      var init := items[..|items| - 1];
      var it := items[|items| - 1];
      var n: int := LineCount(init, wrap);
      var lo := y - RowHeight * (LineCount(items, wrap) - 1);
      TableBand(init, y, wrap);
      WithinWiden(TableDraws(init, y, wrap), y - RowHeight * (n - 1), y, lo, y);
      LinesBand(it, Lines(it, wrap), y - RowHeight * n);
      WithinWiden(ItemDraws(it, y - RowHeight * n, wrap), y - RowHeight * n - RowHeight * (|Lines(it, wrap)| - 1),
        y - RowHeight * n, lo, y);
      WithinAppend(TableDraws(init, y, wrap), ItemDraws(it, y - RowHeight * n, wrap), lo, y);
    }
  }

  /** The totals block starting at y lies between the cursor it leaves behind and y. */
  lemma TotalsBand(doc: Document, y: int)
    ensures Within(TotalsDraws(doc, y), TotalsEnd(doc, y), y)
  {
  }

  /** Notes lines, the first at y, lie between y - 14(n - 1) and y. */
  lemma {:induction false} NoteLinesBand(lines: seq<string>, y: int)
    ensures Within(NoteLines(lines, y), y - NotesLeading * (|lines| - 1), y)
  {
    if lines != [] {
      var j := |lines| - 1;
      var lo := y - NotesLeading * j;
      NoteLinesBand(lines[..j], y);
      WithinWiden(NoteLines(lines[..j], y), y - NotesLeading * (j - 1), y, lo, y);
      WithinAppend(NoteLines(lines[..j], y), [Text(lines[j], Margin, Flow(lo))], lo, y);
    }
  }

  /** The notes below a block that ended at y lie 25 points or more below y and above the cursor they leave. */
  lemma NotesBand(doc: Document, y: int, wrap: Wrapper)
    ensures Within(NotesDraws(doc, y, wrap), NotesEnd(doc, y, wrap) + NotesLeading, y - NotesGap)
  {
    if doc.notes != "" {
      NoteLinesBand(wrap(doc.notes, NotesWidth), y - NotesGap);
    }
  }

  /** The signature block at y reaches at most 15 points above y. */
  lemma SignatureBand(doc: Document, y: int)
    ensures Within(SignatureDraws(doc, y), y, y + SignedRaise)
  {
  }

  /**
   * The body stacks downwards: every item row lies above every totals line,
   * which lies above every notes line, which lies above the signature block;
   * and all of it lies below the column headings at height 0.
   */
  lemma BodyStacked(doc: Document, wrap: Wrapper)
    ensures var top := TotalsTop(doc, wrap);
      var totalsEnd := TotalsEnd(doc, top);
      var notesEnd := NotesEnd(doc, totalsEnd, wrap);
      var sig := SignatureY(doc, wrap);
      Within(TableDraws(doc.items, -HeaderDrop, wrap), TableEnd(doc, wrap) + RowHeight, -HeaderDrop) &&
      top < TableEnd(doc, wrap) + RowHeight &&
      Within(TotalsDraws(doc, top), totalsEnd, top) &&
      Within(NotesDraws(doc, totalsEnd, wrap), notesEnd + NotesLeading, totalsEnd - NotesGap) &&
      Within(SignatureDraws(doc, sig), sig, sig + SignedRaise) &&
      sig + SignedRaise < notesEnd + NotesLeading && sig + SignedRaise < totalsEnd
  {
    var top := TotalsTop(doc, wrap);
    TableBand(doc.items, -HeaderDrop, wrap);
    TotalsBand(doc, top);
    NotesBand(doc, TotalsEnd(doc, top), wrap);
    SignatureBand(doc, SignatureY(doc, wrap));
  }
}
