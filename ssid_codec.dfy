/**
 * Network-name helpers of the activity: `quoteIfNeeded` writes a name in the
 * quoted form the legacy configuration API matches on, `normalizeSsid` turns
 * any name into the form used when two names are compared, and `isNullOrBlank`
 * decides whether a caller supplied a usable name at all.
 */
module SsidCodec {

  const QUOTE: char := '"'

  /**
   * Kotlin's `Char.isWhitespace` on the JVM: `Character.isWhitespace` or
   * `Character.isSpaceChar`, i.e. the ASCII controls TAB..CR and FS..US, the
   * space, and the Unicode space, line and paragraph separators (the
   * non-breaking ones included).
   */
  predicate IsWhitespace(c: char)
  {
    var n := c as int;
    (0x09 <= n <= 0x0D) || (0x1C <= n <= 0x20) || n == 0xA0 || n == 0x1680
    || (0x2000 <= n <= 0x200A) || n == 0x2028 || n == 0x2029 || n == 0x202F
    || n == 0x205F || n == 0x3000
  }

  /** No whitespace at either end (the empty string included). */
  predicate NoEdgeWhitespace(s: string)
  {
    s == [] || (!IsWhitespace(s[0]) && !IsWhitespace(s[|s| - 1]))
  }

  /** The string holds no quotation mark. */
  predicate QuoteFree(s: string)
  {
    forall i :: 0 <= i < |s| ==> s[i] != QUOTE
  }

  /** Kotlin's `isBlank`: every character is whitespace. */
  predicate IsBlank(s: string)
  {
    forall i :: 0 <= i < |s| ==> IsWhitespace(s[i])
  }

  /** Kotlin's `trimStart()`: the suffix left after the leading whitespace. */
  function TrimStart(s: string): (r: string)
    ensures |r| <= |s| && r == s[|s| - |r|..]
    ensures forall i :: 0 <= i < |s| - |r| ==> IsWhitespace(s[i])
    ensures r == [] || !IsWhitespace(r[0])
  {
    if |s| > 0 && IsWhitespace(s[0]) then TrimStart(s[1..]) else s
  }

  /** Kotlin's `trimEnd()`: the prefix left before the trailing whitespace. */
  function TrimEnd(s: string): (r: string)
    ensures |r| <= |s| && r == s[..|r|]
    ensures forall i :: |r| <= i < |s| ==> IsWhitespace(s[i])
    ensures r == [] || !IsWhitespace(r[|r| - 1])
  {
    if |s| > 0 && IsWhitespace(s[|s| - 1]) then TrimEnd(s[..|s| - 1]) else s
  }

  /** Kotlin's `trim()`: whitespace removed from both ends. */
  function Trim(s: string): (r: string)
    ensures |r| <= |s|
    ensures NoEdgeWhitespace(r)
    ensures NoEdgeWhitespace(s) ==> r == s
    ensures var k := |s| - |TrimStart(s)|;
      k + |r| <= |s| && r == s[k..k + |r|]
      && (forall i :: 0 <= i < k ==> IsWhitespace(s[i]))
      && (forall i :: k + |r| <= i < |s| ==> IsWhitespace(s[i]))
  {
    var t := TrimStart(s);
    var r := TrimEnd(t);
    TrimEndOfSuffix(s, t, r);
    assert NoEdgeWhitespace(s) ==> t == s && r == t;
    r
  }

  /** Trailing whitespace removed from a suffix `t` of `s` is trailing whitespace of `s`. */
  lemma TrimEndOfSuffix(s: string, t: string, r: string)
    requires |t| <= |s| && t == s[|s| - |t|..]
    requires |r| <= |t| && r == t[..|r|] && forall i :: |r| <= i < |t| ==> IsWhitespace(t[i])
    ensures var k := |s| - |t|;
      k + |r| <= |s| && r == s[k..k + |r|] && forall i :: k + |r| <= i < |s| ==> IsWhitespace(s[i])
  {
    var k := |s| - |t|;
    forall i | k + |r| <= i < |s|
      ensures IsWhitespace(s[i])
    {
      assert s[i] == t[i - k];
    }
  }

  /** `removePrefix("\"")`: drops one leading quotation mark, if there is one. */
  function RemovePrefixQuote(s: string): string
  {
    if |s| > 0 && s[0] == QUOTE then s[1..] else s
  }

  /** `removeSuffix("\"")`: drops one trailing quotation mark, if there is one. */
  function RemoveSuffixQuote(s: string): string
  {
    if |s| > 0 && s[|s| - 1] == QUOTE then s[..|s| - 1] else s
  }

  /**
   * `quoteIfNeeded`: a name that already starts and ends with a quotation mark
   * is kept; any other name is wrapped in a pair of them.
   */
  function QuoteIfNeeded(value: string): (r: string)
    ensures |r| > 0 && r[0] == QUOTE && r[|r| - 1] == QUOTE
  {
    if |value| > 0 && value[0] == QUOTE && value[|value| - 1] == QUOTE then value
    else [QUOTE] + value + [QUOTE]
  }

  /** `normalizeSsid`: trimmed, then one quotation mark removed from each end. */
  function NormalizeSsid(value: string): (r: string)
    ensures var t := Trim(value);
      var a := if |t| > 0 && t[0] == QUOTE then 1 else 0;
      var b := if |t| - a > 0 && t[|t| - 1] == QUOTE then 1 else 0;
      a + b <= |t| && r == t[a..|t| - b]
  {
    RemoveSuffixQuote(RemovePrefixQuote(Trim(value)))
  }

  /** Quoting a name twice gives the same as quoting it once. */
  lemma QuoteIfNeededIdempotent(value: string)
    ensures QuoteIfNeeded(QuoteIfNeeded(value)) == QuoteIfNeeded(value)
  {
  }

  /** A name that is not already quoted at both ends is wrapped, and only then. */
  lemma QuoteIfNeededWrapsUnquoted(value: string)
    ensures QuoteIfNeeded(value) == value
            <==> |value| > 0 && value[0] == QUOTE && value[|value| - 1] == QUOTE
    ensures QuoteIfNeeded(value) != value ==> QuoteIfNeeded(value) == [QUOTE] + value + [QUOTE]
  {
  }

  /** Normalising a name wrapped in one pair of quotation marks gives the name back. */
  lemma NormalizeUnwrapsQuotes(x: string)
    ensures NormalizeSsid([QUOTE] + x + [QUOTE]) == x
  {
    var q := [QUOTE] + x + [QUOTE];
    assert q[0] == QUOTE && q[|q| - 1] == QUOTE;
    assert Trim(q) == q;
    assert RemovePrefixQuote(q) == x + [QUOTE];
    assert RemoveSuffixQuote(x + [QUOTE]) == x;
  }

  /** A name with no quotation mark and no whitespace at its ends is already normal. */
  lemma NormalizeKeepsPlainName(x: string)
    requires QuoteFree(x) && NoEdgeWhitespace(x)
    ensures NormalizeSsid(x) == x
  {
    assert Trim(x) == x;
    assert x != [] ==> x[0] != QUOTE && x[|x| - 1] != QUOTE;
  }

  /**
   * The round trip `normalizeSsid(quoteIfNeeded(x)) == normalizeSsid(x)`, for
   * every name with no quotation mark and no whitespace at its ends; both sides
   * are then `x` itself.
   */
  lemma QuoteRoundTrip(x: string)
    requires QuoteFree(x) && NoEdgeWhitespace(x)
    ensures NormalizeSsid(QuoteIfNeeded(x)) == NormalizeSsid(x) == x
  {
    assert x != [] ==> x[0] != QUOTE;
    assert QuoteIfNeeded(x) == [QUOTE] + x + [QUOTE];
    NormalizeUnwrapsQuotes(x);
    NormalizeKeepsPlainName(x);
  }

  /**
   * The round trip needs the trimmed-ends condition: quoting " abc" protects the
   * leading space from `trim`, normalising " abc" directly does not.
   */
  lemma QuoteRoundTripNeedsTrimmedName()
    ensures NormalizeSsid(QuoteIfNeeded(" abc")) == " abc"
    ensures NormalizeSsid(" abc") == "abc"
  {
    var x := " abc";
    assert x != [] && x[0] != QUOTE;
    assert QuoteIfNeeded(x) == [QUOTE] + x + [QUOTE];
    NormalizeUnwrapsQuotes(x);
    LeadingSpaceIsTrimmed();
  }

  lemma LeadingSpaceIsTrimmed()
    ensures NormalizeSsid(" abc") == "abc"
  {
    var y := "abc";
    AbcIsPlain();
    assert " abc" == [' '] + y;
    NormalizeSkipsLeadingWhitespace(' ', y);
    NormalizeKeepsPlainName(y);
  }

  /** "abc" has no quotation mark and no whitespace at its ends. */
  lemma AbcIsPlain()
    ensures QuoteFree("abc") && NoEdgeWhitespace("abc")
  {
    var y := "abc";
    assert y[0] == 'a' && y[|y| - 1] == 'c';
    assert forall i :: 0 <= i < |y| ==> y[i] in {'a', 'b', 'c'};
  }

  /** Whitespace in front of a name does not survive normalisation. */
  lemma NormalizeSkipsLeadingWhitespace(c: char, y: string)
    requires IsWhitespace(c)
    ensures NormalizeSsid([c] + y) == NormalizeSsid(y)
  {
    assert ([c] + y)[1..] == y;
    assert TrimStart([c] + y) == TrimStart(y);
  }

  /** A string is blank exactly when trimming leaves nothing of it. */
  lemma BlankIffTrimsToEmpty(s: string)
    ensures IsBlank(s) <==> Trim(s) == []
  {
  }
}
