/**
 * The behaviour of the Go standard-library string routines that the machine
 * logic relies on: strings.Contains, strings.Replace and strings.Trim with a
 * quote character, strconv.Atoi, strconv.ParseBool and the %d verb of
 * fmt.Sprintf. Each is given as a function whose contract pins down what the
 * routine computes.
 */
module GoStrings {

  /** The single quote that `docker inspect` templates may wrap values in. */
  const Quote: char := '\''

  // ---------------------------------------------------------------------
  // strings.Contains

  /** `sub` occurs in `s` starting at index `k`. */
  predicate OccursAt(s: string, sub: string, k: int) {
    0 <= k && k + |sub| <= |s| && s[k..k + |sub|] == sub
  }

  /** strings.Contains(s, sub): true iff `sub` occurs somewhere in `s`. */
  function Contains(s: string, sub: string): (b: bool)
    ensures b <==> exists k :: OccursAt(s, sub, k)
    decreases |s|
  {
    if |sub| > |s| then
      false
    else if s[..|sub|] == sub then
      assert OccursAt(s, sub, 0);
      true
    else
      var rest := Contains(s[1..], sub);
      ShiftOccurrence(s, sub);
      rest
  }

  /** An occurrence in `s` other than at 0 is an occurrence in `s[1..]`, one place earlier. */
  lemma ShiftOccurrence(s: string, sub: string)
    requires |sub| <= |s| && s[..|sub|] != sub
    ensures (exists k :: OccursAt(s, sub, k)) <==> (exists k :: OccursAt(s[1..], sub, k))
  {
    forall k | OccursAt(s, sub, k)
      ensures OccursAt(s[1..], sub, k - 1)
    {
      assert k != 0;
      assert s[1..][k - 1..k - 1 + |sub|] == s[k..k + |sub|];
    }
    forall k | OccursAt(s[1..], sub, k)
      ensures OccursAt(s, sub, k + 1)
    {
      assert s[1..][k..k + |sub|] == s[k + 1..k + 1 + |sub|];
    }
  }

  // ---------------------------------------------------------------------
  // strings.Replace(s, "'", "", -1)

  /** s with every quote character removed, wherever it occurs. */
  function RemoveQuotes(s: string): (r: string)
    ensures Quote !in r
    ensures |r| <= |s|
    ensures Quote !in s ==> r == s
  {
    if s == [] then
      []
    else
      (if s[0] == Quote then [] else [s[0]]) + RemoveQuotes(s[1..])
  }

  /** Every character other than the quote survives, as often as it occurred. */
  lemma {:induction false} RemoveQuotesKeepsOthers(s: string)
    ensures multiset(RemoveQuotes(s)) == multiset(s)[Quote := 0]
  {
    if s != [] {
      assert s == [s[0]] + s[1..];
      RemoveQuotesKeepsOthers(s[1..]);
    }
  }

  /** Removing quotes works piece by piece, so it keeps the order of the other characters. */
  lemma {:induction false} RemoveQuotesConcat(a: string, b: string)
    ensures RemoveQuotes(a + b) == RemoveQuotes(a) + RemoveQuotes(b)
  {
    if a == [] {
      assert a + b == b;
    } else {
      var c, rest := a[0], a[1..];
      assert a == [c] + rest;
      assert a + b == [c] + (rest + b);
      RemoveQuotesCons(c, rest);
      RemoveQuotesCons(c, rest + b);
      RemoveQuotesConcat(rest, b);
      ConcatAssociative(if c == Quote then [] else [c], RemoveQuotes(rest), RemoveQuotes(b));
    }
  }

  lemma ConcatAssociative(x: string, y: string, z: string)
    ensures x + (y + z) == (x + y) + z
  {
  }

  /** Removing quotes from a string with a known first character. */
  lemma RemoveQuotesCons(c: char, s: string)
    ensures RemoveQuotes([c] + s) == (if c == Quote then [] else [c]) + RemoveQuotes(s)
  {
    assert ([c] + s)[1..] == s;
  }

  // ---------------------------------------------------------------------
  // strings.Trim(s, "'")

  /** s without its leading quote characters. */
  function TrimLeftQuotes(s: string): (r: string)
    ensures |r| <= |s| && r == s[|s| - |r|..]
    ensures r == [] || r[0] != Quote
    ensures forall i :: 0 <= i < |s| - |r| ==> s[i] == Quote
  {
    if |s| > 0 && s[0] == Quote then TrimLeftQuotes(s[1..]) else s
  }

  /** s without its trailing quote characters. */
  function TrimRightQuotes(s: string): (r: string)
    ensures |r| <= |s| && r == s[..|r|]
    ensures r == [] || r[|r| - 1] != Quote
    ensures forall i :: |r| <= i < |s| ==> s[i] == Quote
  {
    if |s| > 0 && s[|s| - 1] == Quote then TrimRightQuotes(s[..|s| - 1]) else s
  }

  /** `r` is `s` with a run of quotes cut from the front (length `a`) and from the back. */
  predicate QuoteTrimmedAt(s: string, r: string, a: int) {
    && 0 <= a && a + |r| <= |s|
    && s[a..a + |r|] == r
    && (forall i :: 0 <= i < a ==> s[i] == Quote)
    && (forall i :: a + |r| <= i < |s| ==> s[i] == Quote)
  }

  /** strings.Trim(s, "'"): s with all leading and trailing quotes removed. */
  function TrimQuotes(s: string): (r: string)
    ensures r == [] || (r[0] != Quote && r[|r| - 1] != Quote)
    ensures exists a :: QuoteTrimmedAt(s, r, a)
  {
    var left := TrimLeftQuotes(s);
    var r := TrimRightQuotes(left);
    assert QuoteTrimmedAt(s, r, |s| - |left|);
    r
  }

  /** Trimming a text that neither starts nor ends with a quote, once wrapped in quotes, gives it back. */
  lemma TrimQuotesWrapped(t: string)
    requires t == [] || (t[0] != Quote && t[|t| - 1] != Quote)
    ensures TrimQuotes([Quote] + t + [Quote]) == t
  {
    var u := t + [Quote];
    TrimLeftWrapped(t);
    if t != [] {
      assert u[..|u| - 1] == t;
    }
  }

  /** The leading quote goes, and the trim stops at the first character of `t`. */
  lemma TrimLeftWrapped(t: string)
    requires t == [] || t[0] != Quote
    ensures TrimLeftQuotes([Quote] + t + [Quote]) == if t == [] then [] else t + [Quote]
  {
    var w := [Quote] + t + [Quote];
    var u := t + [Quote];
    assert w[0] == Quote && w[1..] == u;
    assert TrimLeftQuotes(w) == TrimLeftQuotes(u);
    if t == [] {
      assert u[0] == Quote && u[1..] == [];
      assert TrimLeftQuotes(u) == TrimLeftQuotes([]);
    } else {
      assert u[0] == t[0];
    }
  }

  // ---------------------------------------------------------------------
  // Decimal digits, strconv.Atoi and the %d verb

  predicate IsDigit(c: char) {
    '0' <= c <= '9'
  }

  predicate AllDigits(s: string) {
    forall i :: 0 <= i < |s| ==> IsDigit(s[i])
  }

  function DigitValue(c: char): (d: nat)
    requires IsDigit(c)
    ensures d < 10
  {
    (c as int) - ('0' as int)
  }

  function DigitChar(d: nat): (c: char)
    requires d < 10
    ensures IsDigit(c) && DigitValue(c) == d
  {
    (('0' as int) + d) as char
  }

  /** The number a string of decimal digits denotes, most significant digit first. */
  function DigitsValue(s: string): nat
    requires AllDigits(s)
  {
    if s == [] then 0 else DigitsValue(s[..|s| - 1]) * 10 + DigitValue(s[|s| - 1])
  }

  /** Decimal rendering of a natural number, without leading zeros. */
  function FormatNat(n: nat): (s: string)
    ensures |s| > 0 && AllDigits(s)
    ensures DigitsValue(s) == n
    ensures |s| > 1 ==> s[0] != '0'
  {
    if n < 10 then
      [DigitChar(n)]
    else
      var prefix := FormatNat(n / 10);
      var s := prefix + [DigitChar(n % 10)];
      assert s[..|s| - 1] == prefix;
      s
  }

  /** fmt.Sprintf("%d", n): an optional minus sign followed by the digits of |n|. */
  function FormatInt(n: int): (s: string)
    ensures |s| > 0
    ensures n < 0 <==> s[0] == '-'
    ensures n >= 0 ==> AllDigits(s) && DigitsValue(s) == n
    ensures n < 0 ==> AllDigits(s[1..]) && DigitsValue(s[1..]) == -n
    ensures n >= 0 && |s| > 1 ==> s[0] != '0'
    ensures n < 0 ==> |s| > 1 && s[1] != '0'
  {
    if n < 0 then
      var digits := FormatNat(-n);
      assert ("-" + digits)[1..] == digits;
      "-" + digits
    else
      FormatNat(n)
  }

  /** A digit string as %d prints one: at least one digit and no leading zero. */
  predicate IsCanonicalNat(d: string) {
    |d| > 0 && AllDigits(d) && (|d| > 1 ==> d[0] != '0')
  }

  /** Text as %d prints an int: canonical digits, after a minus sign unless the value is 0 or more. */
  predicate IsCanonicalInt(s: string) {
    if |s| > 0 && s[0] == '-' then IsCanonicalNat(s[1..]) && s[1..] != "0" else IsCanonicalNat(s)
  }

  /** Digits with a non-zero first digit denote a positive number. */
  lemma {:induction false} LeadingDigitPositive(d: string)
    requires |d| > 0 && AllDigits(d) && d[0] != '0'
    ensures DigitsValue(d) > 0
  {
    if |d| > 1 {
      LeadingDigitPositive(d[..|d| - 1]);
    }
  }

  /** Printing the value of canonical digits gives the digits back. */
  lemma {:induction false} FormatNatDigitsValue(d: string)
    requires IsCanonicalNat(d)
    ensures FormatNat(DigitsValue(d)) == d
  {
    var c := d[|d| - 1];
    assert DigitChar(DigitValue(c)) == c;
    if |d| > 1 {
      var p := d[..|d| - 1];
      LeadingDigitPositive(p);
      FormatNatDigitsValue(p);
      var v := DigitsValue(d);
      assert v / 10 == DigitsValue(p) && v % 10 == DigitValue(c);
      assert d == p + [c];
    }
  }

  /** What strconv.Atoi accepts: an optional sign followed by at least one decimal digit. */
  predicate IsDecimal(s: string) {
    if |s| > 0 && (s[0] == '+' || s[0] == '-') then
      |s| > 1 && AllDigits(s[1..])
    else
      |s| > 0 && AllDigits(s)
  }

  /** A decimal text without its leading sign, if it has one. */
  function Unsigned(s: string): string {
    if |s| > 0 && (s[0] == '+' || s[0] == '-') then s[1..] else s
  }

  /** strconv.Atoi's two results: the value and whether parsing succeeded. */
  datatype AtoiResult = AtoiResult(value: int, ok: bool)

  /**
   * strconv.Atoi: the decimal value of `s` on success; on a syntax error the
   * value is 0 and ok is false.
   */
  function Atoi(s: string): (r: AtoiResult)
    ensures r.ok <==> IsDecimal(s)
    ensures !r.ok ==> r.value == 0
    ensures r.ok ==> AllDigits(Unsigned(s))
    ensures r.ok && s[0] == '-' ==> r.value == -(DigitsValue(Unsigned(s)) as int)
    ensures r.ok && s[0] != '-' ==> r.value == DigitsValue(Unsigned(s))
  {
    if |s| > 0 && (s[0] == '+' || s[0] == '-') then
      if |s| > 1 && AllDigits(s[1..]) then
        var magnitude: int := DigitsValue(s[1..]);
        AtoiResult(if s[0] == '-' then -magnitude else magnitude, true)
      else
        AtoiResult(0, false)
    else if |s| > 0 && AllDigits(s) then
      AtoiResult(DigitsValue(s), true)
    else
      AtoiResult(0, false)
  }

  /** Parsing what %d prints gives back the number. */
  lemma AtoiFormatInt(n: int)
    ensures Atoi(FormatInt(n)) == AtoiResult(n, true)
  {
  }

  /** Printing what Atoi read from text in %d's own form gives the text back. */
  lemma FormatIntAtoi(s: string)
    requires IsCanonicalInt(s)
    ensures Atoi(s).ok && FormatInt(Atoi(s).value) == s
  {
    if s[0] == '-' {
      var d := s[1..];
      FormatNatDigitsValue(d);
      LeadingDigitPositive(d);
      assert s == "-" + d;
    } else {
      FormatNatDigitsValue(s);
    }
  }

  /** A quoted port as docker prints it parses to the port once its quotes are removed. */
  lemma QuotedPortExample()
    ensures Atoi(RemoveQuotes("'32768'")) == AtoiResult(32768, true)
  {
    assert "'32768'" == [Quote] + "32768" + [Quote];
    UnquoteExample("32768");
    DecimalExample();
  }

  /** Quoted text that is not a number fails to parse and yields 0. */
  lemma QuotedTextExample()
    ensures Atoi(RemoveQuotes("'none'")) == AtoiResult(0, false)
  {
    assert "'none'" == [Quote] + "none" + [Quote];
    UnquoteExample("none");
    WordExample();
  }

  /** "none" is not a decimal number. */
  lemma WordExample()
    ensures Atoi("none") == AtoiResult(0, false)
  {
    assert !IsDigit("none"[0]);
  }

  /** "32768" is read as the number 32768. */
  lemma DecimalExample()
    ensures Atoi("32768") == AtoiResult(32768, true)
  {
    assert "32"[..1] == "3" && DigitsValue("3") == 3;
    assert "327"[..2] == "32" && DigitsValue("32") == 32;
    assert "3276"[..3] == "327" && DigitsValue("327") == 327;
    assert "32768"[..4] == "3276" && DigitsValue("3276") == 3276;
    assert DigitsValue("32768") == 32768;
  }

  /** A quote-free text between two quotes comes back unchanged. */
  lemma UnquoteExample(t: string)
    requires Quote !in t
    ensures RemoveQuotes([Quote] + t + [Quote]) == t
  {
    assert RemoveQuotes([Quote]) == [];
    RemoveQuotesConcat([Quote], t);
    assert RemoveQuotes([Quote] + t) == t;
    RemoveQuotesConcat([Quote] + t, [Quote]);
  }

  // ---------------------------------------------------------------------
  // strconv.ParseBool

  const TrueWords: set<string> := {"1", "t", "T", "TRUE", "true", "True"}
  const FalseWords: set<string> := {"0", "f", "F", "FALSE", "false", "False"}

  /** strconv.ParseBool's two results: the value and whether parsing succeeded. */
  datatype BoolResult = BoolResult(value: bool, ok: bool)

  /** strconv.ParseBool: true for the true spellings, false otherwise; ok only for a known spelling. */
  function ParseBool(s: string): (r: BoolResult)
    ensures r.value <==> s in TrueWords
    ensures r.ok <==> s in TrueWords || s in FalseWords
  {
    if s in TrueWords then BoolResult(true, true)
    else if s in FalseWords then BoolResult(false, true)
    else BoolResult(false, false)
  }
}
