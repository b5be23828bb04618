/**
 * Money and quantity text, as build_pdf prints it: `f"${x:,.2f}"` for amounts
 * and `f"{qty:.2f}"` for quantities.
 *
 * Units: a quantity is an integer number of hundredths, a unit price an integer
 * number of cents, so a line amount (quantity times price) and every total built
 * from line amounts is an integer number of ten-thousandths of a dollar.
 */
module Money {
  import opened Decimal
  import opened Wrappers

  /** Inserts a comma before every group of three digits counted from the right. */
  function Group(ds: string): string
    decreases |ds|
  {
    if |ds| <= 3 then ds else Group(ds[..|ds| - 3]) + "," + ds[|ds| - 3..]
  }

  /** Thousands-separated digits: a leading group of one to three digits, then ",ddd" groups. */
  predicate Grouped(s: string)
    decreases |s|
  {
    (1 <= |s| <= 3 && IsDigits(s)) ||
    (|s| > 4 && s[|s| - 4] == ',' && IsDigits(s[|s| - 3..]) && Grouped(s[..|s| - 4]))
  }

  /** Removes the thousands separators. */
  function Ungroup(s: string): (r: string)
    ensures |r| <= |s|
  {
    if s == [] then ""
    else Ungroup(s[..|s| - 1]) + (if s[|s| - 1] == ',' then "" else [s[|s| - 1]])
  }

  lemma {:induction false} UngroupAppend(a: string, b: string)
    ensures Ungroup(a + b) == Ungroup(a) + Ungroup(b)
    decreases |b|
  {
    if b == [] {
      assert a + b == a;
    } else {
      assert (a + b)[..|a + b| - 1] == a + b[..|b| - 1];
      UngroupAppend(a, b[..|b| - 1]);
    }
  }

  lemma {:induction false} UngroupDigits(ds: string)
    requires IsDigits(ds)
    ensures Ungroup(ds) == ds
    decreases |ds|
  {
    if ds != [] {
      UngroupDigits(ds[..|ds| - 1]);
      assert ds[..|ds| - 1] + [ds[|ds| - 1]] == ds;
    }
  }

  lemma DigitsSplit(ds: string, k: nat)
    requires IsDigits(ds) && k <= |ds|
    ensures IsDigits(ds[..k]) && IsDigits(ds[k..]) && ds[..k] + ds[k..] == ds
  {
    assert forall i :: 0 <= i < k ==> ds[..k][i] == ds[i];
    assert forall i :: 0 <= i < |ds| - k ==> ds[k..][i] == ds[k + i];
  }

  /** Grouping a non-empty digit string gives a well-grouped string that ungroups back to it. */
  lemma {:induction false} GroupSpec(ds: string)
    requires IsDigits(ds) && ds != []
    ensures Grouped(Group(ds)) && Ungroup(Group(ds)) == ds
    ensures |Group(ds)| > 0 && Group(ds)[0] == ds[0]
    decreases |ds|
  {
    if |ds| <= 3 {
      UngroupDigits(ds);
    } else {
      var hi, lo := ds[..|ds| - 3], ds[|ds| - 3..];
      DigitsSplit(ds, |ds| - 3);
      GroupSpec(hi);
      var gh := Group(hi);
      GroupStep(gh, lo);
      assert Group(ds) == gh + "," + lo;
    }
  }

  lemma GroupStep(gh: string, lo: string)
    requires Grouped(gh) && |lo| == 3 && IsDigits(lo) && |gh| > 0
    ensures Grouped(gh + "," + lo)
    ensures Ungroup(gh + "," + lo) == Ungroup(gh) + lo
    ensures (gh + "," + lo)[0] == gh[0]
  {
    var g := gh + "," + lo;
    assert g[..|g| - 4] == gh;
    assert g[|g| - 3..] == lo;
    UngroupAppend(gh + ",", lo);
    UngroupAppend(gh, ",");
    UngroupDigits(lo);
    assert Ungroup(",") == "" by { assert ","[..0] == ""; }
  }

  /** A grouped string holds only digits and commas. */
  lemma {:induction false} GroupedChars(s: string)
    requires Grouped(s)
    ensures forall i :: 0 <= i < |s| ==> IsDigit(s[i]) || s[i] == ','
    decreases |s|
  {
    if !(1 <= |s| <= 3 && IsDigits(s)) {
      GroupedChars(s[..|s| - 4]);
      forall i | 0 <= i < |s| ensures IsDigit(s[i]) || s[i] == ',' {
        if i < |s| - 4 { assert s[i] == s[..|s| - 4][i]; }
        else if i > |s| - 4 { assert s[i] == s[|s| - 3..][i - (|s| - 3)]; }
      }
    }
  }

  /** The digits before the decimal point of a non-negative number of hundredths. */
  function WholeText(a: nat, grouped: bool): string
  {
    var whole := Digits(a / 100);
    if grouped then Group(whole) else whole
  }

  /** The two digits after the decimal point of a non-negative number of hundredths. */
  function FracText(a: nat): string
  {
    ZeroPad(a % 100, 2)
  }

  /** Two decimals, with an optional minus sign and optional thousands separators. */
  function Fixed2(x: int, grouped: bool): string
  {
    var a: nat := if x < 0 then -x else x;
    (if x < 0 then "-" else "") + WholeText(a, grouped) + "." + FracText(a)
  }

  lemma WholeTextSpec(a: nat, grouped: bool)
    ensures var w := WholeText(a, grouped);
      |w| > 0 && IsDigit(w[0]) && Ungroup(w) == Digits(a / 100)
      && (grouped ==> Grouped(w))
      && (!grouped ==> w == Digits(a / 100))
  {
    var whole := Digits(a / 100);
    if grouped {
      GroupSpec(whole);
    } else {
      UngroupDigits(whole);
    }
  }

  lemma WholeTextHead(a: nat, grouped: bool)
    ensures |WholeText(a, grouped)| > 0 && IsDigit(WholeText(a, grouped)[0])
  {
    WholeTextSpec(a, grouped);
  }

  lemma FracTextSpec(a: nat)
    ensures |FracText(a)| == 2 && IsDigits(FracText(a)) && Value(FracText(a)) == a % 100
  {
    ZeroPadSpec(a % 100, 2);
    DigitsLength(a % 100, 2);
  }

  /** `f"${c:,.2f}"` for an amount of c cents. */
  function FormatCents(c: int): string
  {
    "$" + Fixed2(c, true)
  }

  /** `f"{q:.2f}"` for a quantity of q hundredths. */
  function FormatQty(q: int): string
  {
    Fixed2(q, false)
  }

  /** Reads back an unsigned number with two decimals, thousands separators allowed. */
  function ParseUnsigned(body: string): Option<nat>
  {
    if |body| < 4 || body[|body| - 3] != '.' then None
    else
      var whole := Ungroup(body[..|body| - 3]);
      var frac := body[|body| - 2..];
      if whole == [] || !IsDigits(whole) || !IsDigits(frac) then None
      else Some(Value(whole) * 100 + Value(frac))
  }

  /** Reads back a number written by Fixed2, grouped or not. */
  function ParseFixed2(s: string): Option<int>
  {
    var neg := |s| > 0 && s[0] == '-';
    var u := ParseUnsigned(if neg then s[1..] else s);
    if u.None? then None
    else Some(if neg then -(u.value as int) else u.value as int)
  }

  /** Reads back an amount written by FormatCents. */
  function ParseCents(s: string): Option<int>
  {
    if |s| > 0 && s[0] == '$' then ParseFixed2(s[1..]) else None
  }

  lemma ParseUnsignedAt(body: string, w: string, frac: string)
    requires |body| >= 4 && body[|body| - 3] == '.'
    requires body[..|body| - 3] == w && body[|body| - 2..] == frac
    requires Ungroup(w) != [] && IsDigits(Ungroup(w)) && IsDigits(frac)
    ensures ParseUnsigned(body) == Some(Value(Ungroup(w)) * 100 + Value(frac))
  {
  }

  /** ParseUnsigned on text assembled from a whole part and two fraction digits. */
  lemma ParseParts(w: string, frac: string)
    requires Ungroup(w) != [] && IsDigits(Ungroup(w))
    requires |frac| == 2 && IsDigits(frac)
    ensures ParseUnsigned(w + "." + frac) == Some(Value(Ungroup(w)) * 100 + Value(frac))
  {
    var body := w + "." + frac;
    assert body[|body| - 3] == '.' && body[..|body| - 3] == w && body[|body| - 2..] == frac;
    ParseUnsignedAt(body, w, frac);
  }

  lemma ParseFixed2At(s: string, body: string, neg: bool, v: nat)
    requires neg ==> |s| > 0 && s[0] == '-' && s[1..] == body
    requires !neg ==> s == body && |s| > 0 && s[0] != '-'
    requires ParseUnsigned(body) == Some(v)
    ensures ParseFixed2(s) == Some(if neg then -(v as int) else v as int)
  {
  }

  /** The unsigned part of Fixed2 reads back to the number of hundredths it was made from. */
  lemma UnsignedRoundTrip(a: nat, grouped: bool)
    ensures ParseUnsigned(WholeText(a, grouped) + "." + FracText(a)) == Some(a)
  {
    var w, frac := WholeText(a, grouped), FracText(a);
    WholeTextSpec(a, grouped);
    FracTextSpec(a);
    ValueOfDigits(a / 100);
    ParseParts(w, frac);
  }

  /** Fixed2 loses nothing: it reads back to the number it printed. */
  lemma Fixed2RoundTrip(x: int, grouped: bool)
    ensures ParseFixed2(Fixed2(x, grouped)) == Some(x)
  {
    var a: nat := if x < 0 then -x else x;
    var body := WholeText(a, grouped) + "." + FracText(a);
    UnsignedRoundTrip(a, grouped);
    WholeTextHead(a, grouped);
    var s := Fixed2(x, grouped);
    assert s == (if x < 0 then "-" else "") + body;
    if x < 0 {
      assert s[1..] == body;
    } else {
      assert s[0] == body[0];
    }
    ParseFixed2At(s, body, x < 0, a);
  }

  /** FormatCents reads back to its amount, so distinct amounts print differently. */
  lemma FormatCentsRoundTrip(c: int)
    ensures ParseCents(FormatCents(c)) == Some(c)
  {
    Fixed2RoundTrip(c, true);
    assert FormatCents(c)[1..] == Fixed2(c, true);
  }

  /** FormatQty reads back to its quantity. */
  lemma FormatQtyRoundTrip(q: int)
    ensures ParseFixed2(FormatQty(q)) == Some(q)
  {
    Fixed2RoundTrip(q, false);
  }

  /** A quantity prints without thousands separators: only a sign, digits and the decimal point. */
  lemma FormatQtyPlain(q: int)
    ensures var s := FormatQty(q);
      forall i :: 0 <= i < |s| ==> IsDigit(s[i]) || s[i] == '.' || (i == 0 && s[i] == '-')
  {
    var a: nat := if q < 0 then -q else q;
    WholeTextSpec(a, false);
    FracTextSpec(a);
    PlainChars(if q < 0 then "-" else "", WholeText(a, false), FracText(a));
  }

  /** A sign, digits, a point and digits hold no other character. */
  lemma PlainChars(sign: string, w: string, f: string)
    requires sign == "" || sign == "-"
    requires IsDigits(w) && IsDigits(f)
    ensures var s := sign + w + "." + f;
      forall i :: 0 <= i < |s| ==> IsDigit(s[i]) || s[i] == '.' || (i == 0 && s[i] == '-')
  {
    var s := sign + w + "." + f;
    forall i | 0 <= i < |s|
      ensures IsDigit(s[i]) || s[i] == '.' || (i == 0 && s[i] == '-')
    {
      if i < |sign| {
        assert s[i] == '-';
      } else if i < |sign| + |w| {
        assert s[i] == w[i - |sign|];
      } else if i > |sign| + |w| {
        assert s[i] == f[i - |sign| - |w| - 1];
      }
    }
  }

  /** An amount of ten-thousandths prints as its nearest cent and reads back to it. */
  lemma FormatAmountRoundTrip(v: int)
    ensures ParseCents(FormatAmount(v)) == Some(RoundToCents(v))
  {
    FormatCentsRoundTrip(RoundToCents(v));
  }

  /**
   * The shape of a printed amount: "$", a minus sign exactly when `neg`,
   * a thousands-grouped whole part, ".", two digits.
   */
  predicate AmountShaped(s: string, neg: bool)
  {
    var k := if neg then 2 else 1;
    |s| >= k + 4 && s[0] == '$' && (s[1] == '-' <==> neg) &&
    Grouped(s[k..|s| - 3]) && s[|s| - 3] == '.' && IsDigits(s[|s| - 2..])
  }

  /** FormatCents prints every amount in the shape above; which number it denotes is FormatCentsRoundTrip's business. */
  lemma FormatCentsShape(c: int)
    ensures AmountShaped(FormatCents(c), c < 0)
  {
    var a: nat := if c < 0 then -c else c;
    var w, frac := WholeText(a, true), FracText(a);
    var sign := if c < 0 then "-" else "";
    WholeTextGrouped(a);
    FracTextDigits(a);
    assert FormatCents(c) == "$" + sign + w + "." + frac;
    ShapeAt(FormatCents(c), sign, w, frac);
  }

  lemma ShapeAt(s: string, sign: string, w: string, frac: string)
    requires s == "$" + sign + w + "." + frac && |frac| == 2 && IsDigits(frac)
    requires sign == "" || sign == "-"
    requires Grouped(w) && IsDigit(w[0])
    ensures AmountShaped(s, sign == "-")
  {
    var pre := "$" + sign;
    var k := |pre|;
    var t := "." + frac;
    assert s == pre + w + t;
    SliceMiddle(pre, w, t);
    assert s == pre + w + "." + frac;
    SliceLast(pre + w + ".", frac);
    assert s[0] == '$';
    assert s[|s| - 3] == '.';
    if sign == "" {
      assert s[1] == w[0];
    } else {
      assert s[1] == '-';
    }
  }

  lemma SliceMiddle(a: string, b: string, c: string)
    ensures (a + b + c)[|a|..|a| + |b|] == b
  {
    assert forall i :: 0 <= i < |b| ==> (a + b + c)[|a| + i] == b[i];
  }

  lemma SliceLast(a: string, b: string)
    ensures (a + b)[|a|..] == b
  {
  }

  lemma WholeTextGrouped(a: nat)
    ensures Grouped(WholeText(a, true)) && IsDigit(WholeText(a, true)[0])
  {
    WholeTextSpec(a, true);
  }

  lemma FracTextDigits(a: nat)
    ensures |FracText(a)| == 2 && IsDigits(FracText(a))
  {
    FracTextSpec(a);
  }

  /**
   * Rounds ten-thousandths of a dollar to cents, halves away from zero.
   * The result is the nearest cent; ties go away from zero.
   */
  function RoundToCents(v: int): (r: int)
    ensures -50 <= v - 100 * r <= 50
    ensures v - 100 * r == 50 ==> v < 0
    ensures v - 100 * r == -50 ==> v > 0
  {
    if v >= 0 then (v + 50) / 100 else -((-v + 50) / 100)
  }

  /** An amount of ten-thousandths printed with two decimals. */
  function FormatAmount(v: int): string
  {
    FormatCents(RoundToCents(v))
  }
}
