/**
 * The greeting line of `build_email_body`: a greeting chosen by the hour of the
 * day, and the customer's first name taken with `(cust_name or "Customer").split()[0]`.
 */
module Email {
  import opened Wrappers

  /** `str.isspace` for one character: the characters `str.split()` splits on. */
  predicate IsSpace(c: char) {
    var u := c as int;
    u == 0x20 || 0x09 <= u <= 0x0d || 0x1c <= u <= 0x1f || u == 0x85 || u == 0xa0 ||
    u == 0x1680 || 0x2000 <= u <= 0x200a || u == 0x2028 || u == 0x2029 ||
    u == 0x202f || u == 0x205f || u == 0x3000
  }

  predicate AllSpace(s: string) {
    forall i :: 0 <= i < |s| ==> IsSpace(s[i])
  }

  predicate NoSpace(s: string) {
    forall i :: 0 <= i < |s| ==> !IsSpace(s[i])
  }

  /** The number of whitespace characters at the front of s. */
  function LeadingSpaces(s: string): (k: nat)
    ensures k <= |s| && AllSpace(s[..k]) && (k < |s| ==> !IsSpace(s[k]))
    ensures s != [] && !IsSpace(s[0]) ==> k == 0
    ensures k == |s| <==> AllSpace(s)
  {
    if s == [] || !IsSpace(s[0]) then 0
    else
      var k := 1 + LeadingSpaces(s[1..]);
      assert forall i :: 1 <= i < k ==> s[..k][i] == s[1..][..k - 1][i - 1];
      k
  }

  /** The number of non-whitespace characters at the front of s. */
  function WordLength(s: string): (k: nat)
    ensures k <= |s| && NoSpace(s[..k]) && (k < |s| ==> IsSpace(s[k]))
    ensures NoSpace(s) ==> k == |s|
  {
    if s == [] || IsSpace(s[0]) then 0
    else
      var k := 1 + WordLength(s[1..]);
      assert forall i :: 1 <= i < k ==> s[..k][i] == s[1..][..k - 1][i - 1];
      k
  }

  /** `str.split()` with no argument: the maximal runs of non-whitespace characters, in order. */
  function Split(s: string): seq<string>
    decreases |s|
  {
    if s == [] then []
    else if IsSpace(s[0]) then Split(s[1..])
    else
      var n := WordLength(s);
      [s[..n]] + Split(s[n..])
  }

  /** Every word of `str.split()` is non-empty and holds no whitespace. */
  lemma {:induction false} SplitWords(s: string)
    ensures forall w :: w in Split(s) ==> w != [] && NoSpace(w)
    decreases |s|
  {
    if s != [] {
      if IsSpace(s[0]) {
        SplitWords(s[1..]);
      } else {
        SplitWords(s[WordLength(s)..]);
      }
    }
  }

  /** A single word splits to itself. */
  lemma SplitWord(s: string)
    requires s != [] && NoSpace(s)
    ensures Split(s) == [s]
  {
    assert s[..|s|] == s;
    assert Split(s[|s|..]) == [] by { assert s[|s|..] == []; }
  }

  /** Dropping one leading whitespace character keeps a string all-whitespace or not. */
  lemma AllSpaceTail(s: string)
    requires s != [] && IsSpace(s[0])
    ensures AllSpace(s) <==> AllSpace(s[1..])
  {
    assert forall i :: 1 <= i < |s| ==> s[i] == s[1..][i - 1];
  }

  /** A string splits into no words exactly when it is all whitespace. */
  lemma {:induction false} SplitEmpty(s: string)
    ensures Split(s) == [] <==> AllSpace(s)
    decreases |s|
  {
    if s != [] && IsSpace(s[0]) {
      SplitEmpty(s[1..]);
      AllSpaceTail(s);
    }
  }

  /**
   * The first word sits right after the leading whitespace and ends at
   * whitespace or at the end of s.
   */
  lemma {:induction false} FirstWordPlace(s: string)
    requires !AllSpace(s)
    ensures Split(s) != []
    ensures var w := Split(s)[0]; var k := LeadingSpaces(s);
      AllSpace(s[..k]) && k + |w| <= |s| && s[k..k + |w|] == w &&
      (k + |w| < |s| ==> IsSpace(s[k + |w|]))
    decreases |s|
  {
    if IsSpace(s[0]) {
      var t := s[1..];
      AllSpaceTail(s);
      FirstWordPlace(t);
      assert Split(s) == Split(t) && LeadingSpaces(s) == LeadingSpaces(t) + 1;
      ShiftWord(s, Split(t)[0], LeadingSpaces(t));
    } else {
      var n := WordLength(s);
      assert Split(s)[0] == s[..n] && LeadingSpaces(s) == 0;
      assert s[0..n] == s[..n];
    }
  }

  /** A word found at position k of s[1..] is found at position k + 1 of s. */
  lemma ShiftWord(s: string, w: string, k: nat)
    requires s != [] && k + |w| <= |s| - 1 && s[1..][k..k + |w|] == w
    requires k + |w| < |s| - 1 ==> IsSpace(s[1..][k + |w|])
    ensures s[k + 1..k + 1 + |w|] == w && (k + 1 + |w| < |s| ==> IsSpace(s[k + 1 + |w|]))
  {
    assert s[k + 1..k + 1 + |w|] == s[1..][k..k + |w|];
  }

  /** The fallback name is one word. */
  lemma DefaultNameSplit()
    ensures Split("Customer") == ["Customer"]
  {
    assert NoSpace("Customer");
    SplitWord("Customer");
  }

  /** `(cust_name or "Customer")`: None and "" both fall back to "Customer". */
  function NameOrDefault(custName: Option<string>): string
  {
    if custName.None? || custName.value == "" then "Customer" else custName.value
  }

  /**
   * `(cust_name or "Customer").split()[0]`. A name made only of whitespace has no
   * first word and `split()[0]` raises IndexError; callers must not pass one.
   */
  function FirstName(custName: Option<string>): (first: string)
    requires !AllSpace(NameOrDefault(custName))
    ensures first != [] && NoSpace(first)
    ensures custName.None? || custName == Some("") ==> first == "Customer"
  {
    var name := NameOrDefault(custName);
    FirstWordShape(name);
    DefaultNameSplit();
    Split(name)[0]
  }

  /** A string that is not all whitespace has a first word, non-empty and without whitespace. */
  lemma FirstWordShape(s: string)
    requires !AllSpace(s)
    ensures Split(s) != [] && Split(s)[0] != [] && NoSpace(Split(s)[0])
  {
    SplitEmpty(s);
    SplitWords(s);
    assert Split(s)[0] in Split(s);
  }

  /** The greeting for the hour of the day (0 to 23). */
  function Greeting(hour: int): (g: string)
    ensures g == "Good morning" <==> hour < 12
    ensures g == "Good afternoon" <==> 12 <= hour < 18
    ensures g == "Good evening" <==> 18 <= hour
  {
    if hour < 12 then "Good morning"
    else if hour < 18 then "Good afternoon"
    else "Good evening"
  }

  /** `{greeting} {first},` at the head of the message. */
  function Salutation(custName: Option<string>, hour: int): (s: string)
    requires !AllSpace(NameOrDefault(custName))
    ensures var g := Greeting(hour);
      |s| >= |g| + 3 && s[..|g|] == g && s[|g|] == ' ' && s[|s| - 1] == ',' &&
      s[|g| + 1..|s| - 1] == FirstName(custName)
  {
    Greeting(hour) + " " + FirstName(custName) + ","
  }

  /** "proposal" or "invoice", the word the message uses for the attached document. */
  function KindWord(isProposal: bool): (w: string)
    ensures w == "proposal" <==> isProposal
    ensures w == "invoice" <==> !isProposal
  {
    if isProposal then "proposal" else "invoice"
  }
}
