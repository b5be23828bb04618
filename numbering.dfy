/**
 * Reference numbers: `format_prop_id` / `format_inv_id` and the shared counter
 * `_max_existing_number`, whose two SQL queries are modelled as the `number`
 * columns of the proposals and invoices tables (NULL is None).
 */
module Numbering {
  import opened Decimal
  import opened Wrappers

  /** `f"{n:04d}"`: zero-padded to four characters, the minus sign counting as one of them. */
  function Pad4(n: int): string
  {
    if n < 0 then "-" + ZeroPad(-n, 3) else ZeroPad(n, 4)
  }

  /** `format_prop_id`: "P-" and the padded number. */
  function FormatPropId(n: int): string
  {
    "P-" + Pad4(n)
  }

  /** `format_inv_id`: "INV-" and the padded number. */
  function FormatInvId(n: int): string
  {
    "INV-" + Pad4(n)
  }

  /** Reads back the number behind a reference prefix. */
  function ParseRef(prefix: string, s: string): Option<int>
  {
    if |s| < |prefix| || s[..|prefix|] != prefix then None
    else ParseNumber(s[|prefix|..])
  }

  /** Reads an optionally negative run of decimal digits. */
  function ParseNumber(body: string): Option<int>
  {
    if |body| > 1 && body[0] == '-' && IsDigits(body[1..]) then (var v: int := Value(body[1..]); Some(-v))
    else if body != [] && IsDigits(body) then Some(Value(body))
    else None
  }

  lemma ParseRefAt(prefix: string, s: string, body: string)
    requires s == prefix + body
    ensures |s| >= |prefix| && s[..|prefix|] == prefix && s[|prefix|..] == body
  {
  }

  /** Pad4 of a non-negative number: digits only, at least four of them, exactly four below 10000, denoting n. */
  lemma Pad4Digits(n: nat)
    ensures var s := Pad4(n);
      IsDigits(s) && Value(s) == n && |s| >= 4 &&
      (n <= 9999 ==> |s| == 4) && (n > 9999 ==> s == Digits(n))
  {
    ZeroPadSpec(n, 4);
    if n <= 9999 {
      DigitsLength(n, 4);
    } else {
      NoPadWhenWide(n, 4);
    }
  }

  lemma NoPadWhenWide(n: nat, width: nat)
    requires n >= Pow10(width)
    ensures |Digits(n)| > width
    decreases width
  {
    if width > 0 {
      NoPadWhenWide(n / 10, width - 1);
    }
  }

  lemma Pad4Reads(n: int, prefix: string)
    ensures ParseRef(prefix, prefix + Pad4(n)) == Some(n)
  {
    ParseRefAt(prefix, prefix + Pad4(n), Pad4(n));
    Pad4Parses(n);
  }

  /** The padded number reads back to the number, negative or not. */
  lemma Pad4Parses(n: int)
    ensures ParseNumber(Pad4(n)) == Some(n)
  {
    var body := Pad4(n);
    if n < 0 {
      ZeroPadSpec(-n, 3);
      assert body[1..] == ZeroPad(-n, 3);
    } else {
      ZeroPadSpec(n, 4);
      assert body[0] != '-';
    }
  }

  /** A proposal reference reads back to its number, so distinct numbers give distinct references. */
  lemma PropIdRoundTrip(n: int)
    ensures ParseRef("P-", FormatPropId(n)) == Some(n)
  {
    Pad4Reads(n, "P-");
  }

  /** An invoice reference reads back to its number. */
  lemma InvIdRoundTrip(n: int)
    ensures ParseRef("INV-", FormatInvId(n)) == Some(n)
  {
    Pad4Reads(n, "INV-");
  }

  predicate HasNumbers(col: seq<Option<int>>) {
    exists i :: 0 <= i < |col| && col[i].Some?
  }

  predicate Stored(col: seq<Option<int>>, x: int) {
    exists i :: 0 <= i < |col| && col[i] == Some(x)
  }

  /** SQL `MAX(number)`: the largest non-NULL number, NULL when there is none. */
  function ColumnMax(col: seq<Option<int>>): (r: Option<int>)
    ensures r.None? <==> !HasNumbers(col)
    ensures r.Some? ==> Stored(col, r.value)
    ensures r.Some? ==> forall i :: 0 <= i < |col| && col[i].Some? ==> col[i].value <= r.value
  {
    if col == [] then None
    else
      var rest := ColumnMax(col[..|col| - 1]);
      var last := col[|col| - 1];
      assert forall i :: 0 <= i < |col| - 1 ==> col[..|col| - 1][i] == col[i];
      if last.None? then rest
      else if rest.Some? && rest.value >= last.value then rest
      else last
  }

  /** `COALESCE(MAX(number), 0)` followed by Python's `or 0`. */
  function ColumnMaxOrZero(col: seq<Option<int>>): int
  {
    ColumnMax(col).GetOr(0)
  }

  /** `_max_existing_number`: the larger of the two columns' maxima, each 0 when its column has no number. */
  function MaxExistingNumber(proposals: seq<Option<int>>, invoices: seq<Option<int>>): (r: int)
    ensures forall i :: 0 <= i < |proposals| && proposals[i].Some? ==> proposals[i].value <= r
    ensures forall i :: 0 <= i < |invoices| && invoices[i].Some? ==> invoices[i].value <= r
    ensures !HasNumbers(proposals) && !HasNumbers(invoices) ==> r == 0
    ensures r == 0 || Stored(proposals, r) || Stored(invoices, r)
    ensures r < 0 ==> HasNumbers(proposals) && HasNumbers(invoices)
  {
    var r1 := ColumnMaxOrZero(proposals);
    var r2 := ColumnMaxOrZero(invoices);
    if r1 >= r2 then r1 else r2
  }

  /** When some stored number is non-negative, the result is itself a stored number. */
  lemma MaxIsStored(proposals: seq<Option<int>>, invoices: seq<Option<int>>, x: int)
    requires x >= 0 && (Stored(proposals, x) || Stored(invoices, x))
    ensures Stored(proposals, MaxExistingNumber(proposals, invoices)) ||
            Stored(invoices, MaxExistingNumber(proposals, invoices))
  {
    var r := MaxExistingNumber(proposals, invoices);
    if r == 0 {
      var i :| (0 <= i < |proposals| && proposals[i] == Some(x)) || (0 <= i < |invoices| && invoices[i] == Some(x));
    }
  }

  /** One more than the maximum collides with no stored number of either kind. */
  lemma NextNumberIsFresh(proposals: seq<Option<int>>, invoices: seq<Option<int>>)
    ensures !Stored(proposals, MaxExistingNumber(proposals, invoices) + 1)
    ensures !Stored(invoices, MaxExistingNumber(proposals, invoices) + 1)
  {
    var r := MaxExistingNumber(proposals, invoices);
    if Stored(proposals, r + 1) {
      var i :| 0 <= i < |proposals| && proposals[i] == Some(r + 1);
    }
    if Stored(invoices, r + 1) {
      var i :| 0 <= i < |invoices| && invoices[i] == Some(r + 1);
    }
  }
}
