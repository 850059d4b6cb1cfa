/**
 * The string part of `getCurrentSsid`: from the connection information the
 * Wi-Fi service reports, the name of the network the device is associated
 * with, or nothing.
 */
module ConnectionProbe {
  import opened Wrappers
  import opened SsidCodec

  /** What `WifiManager.connectionInfo` carries that matters here: the reported name. */
  datatype ConnectionInfo = ConnectionInfo(ssid: Option<string>)

  /** The placeholder the platform reports when the name is not known. */
  const UNKNOWN_SSID: string := "<unknown ssid>"

  /**
   * Case folding as `String.equals(other, ignoreCase = true)` applies it when
   * the other side is ASCII: ASCII capitals fold to lower case, and so do the
   * four non-ASCII characters whose upper- or lower-case mapping is an ASCII
   * letter (U+0130 and U+0131 fold to 'i', U+017F to 's', U+212A to 'k').
   */
  function FoldCase(c: char): char
  {
    if 'A' <= c <= 'Z' then (c as int + 32) as char
    else if c == '\U{0130}' || c == '\U{0131}' then 'i'
    else if c == '\U{017F}' then 's'
    else if c == '\U{212A}' then 'k'
    else c
  }

  /** `ssid.equals("<unknown ssid>", ignoreCase = true)`. */
  predicate IsUnknownSsid(ssid: string)
  {
    |ssid| == |UNKNOWN_SSID| && forall i :: 0 <= i < |ssid| ==> FoldCase(ssid[i]) == UNKNOWN_SSID[i]
  }

  /** `replace("\"", "")`: every quotation mark removed, the other characters kept in order. */
  function RemoveQuotes(s: string): (r: string)
    ensures |r| <= |s|
    ensures QuoteFree(r)
    ensures forall c :: c != QUOTE ==> multiset(r)[c] == multiset(s)[c]
  {
    if s == [] then []
    else
      assert s == [s[0]] + s[1..];
      (if s[0] == QUOTE then [] else [s[0]]) + RemoveQuotes(s[1..])
  }

  /**
   * `getCurrentSsid`: nothing when there is no connection information, when it
   * carries no name, or when the name is the "unknown" placeholder in any case;
   * otherwise the name without its quotation marks.
   */
  function CurrentSsid(info: Option<ConnectionInfo>): (r: Option<string>)
    ensures r.None? <==> info.None? || info.value.ssid.None? || IsUnknownSsid(info.value.ssid.value)
    ensures r.Some? ==> QuoteFree(r.value) && r.value == RemoveQuotes(info.value.ssid.value)
  {
    match info
    case None => None
    case Some(i) =>
      match i.ssid
      case None => None
      case Some(ssid) => if IsUnknownSsid(ssid) then None else Some(RemoveQuotes(ssid))
  }

  /** Removing the quotation marks of a string that has none changes nothing. */
  lemma {:induction false} RemoveQuotesKeepsQuoteFree(s: string)
    requires QuoteFree(s)
    ensures RemoveQuotes(s) == s
  {
    if s != [] {
      assert QuoteFree(s[1..]);
      RemoveQuotesKeepsQuoteFree(s[1..]);
    }
  }

  /** Removing quotation marks twice is the same as once. */
  lemma RemoveQuotesIdempotent(s: string)
    ensures RemoveQuotes(RemoveQuotes(s)) == RemoveQuotes(s)
  {
    RemoveQuotesKeepsQuoteFree(RemoveQuotes(s));
  }

  /** The placeholder is recognised in whatever case the platform spells it. */
  lemma UnknownSsidInAnyCase()
    ensures IsUnknownSsid("<unknown ssid>")
    ensures IsUnknownSsid("<UNKNOWN SSID>")
    ensures !IsUnknownSsid("\"<unknown ssid>\"")
    ensures CurrentSsid(Some(ConnectionInfo(Some("<Unknown SSID>")))) == None
  {
    var u := "<UNKNOWN SSID>";
    assert forall i :: 0 <= i < |u| ==> FoldCase(u[i]) == UNKNOWN_SSID[i];
    var m := "<Unknown SSID>";
    assert forall i :: 0 <= i < |m| ==> FoldCase(m[i]) == UNKNOWN_SSID[i];
  }

  /** A reported name in quotation marks comes back bare. */
  lemma QuotedNameComesBackBare()
    ensures CurrentSsid(Some(ConnectionInfo(Some("\"HomeNet\"")))) == Some("HomeNet")
  {
    var x, q := "HomeNet", "\"HomeNet\"";
    assert |q| != |UNKNOWN_SSID|;
    assert q == [QUOTE] + x + [QUOTE];
    HomeNetIsQuoteFree();
    RemoveQuotesUnwrapsQuoted(x);
  }

  /** "HomeNet" holds no quotation mark. */
  lemma HomeNetIsQuoteFree()
    ensures QuoteFree("HomeNet")
  {
    var x := "HomeNet";
    assert forall i :: 0 <= i < |x| ==> x[i] in {'H', 'o', 'm', 'e', 'N', 't'};
  }

  /** The platform's quoted spelling of a name without quotation marks comes back as the name. */
  lemma RemoveQuotesUnwrapsQuoted(x: string)
    requires QuoteFree(x)
    ensures RemoveQuotes([QUOTE] + x + [QUOTE]) == x
  {
    assert [QUOTE] + x + [QUOTE] == [QUOTE] + (x + [QUOTE]);
    RemoveQuotesAppend([QUOTE], x + [QUOTE]);
    RemoveQuotesAppend(x, [QUOTE]);
    RemoveQuotesKeepsQuoteFree(x);
    assert RemoveQuotes([QUOTE]) == [] by {
      assert [QUOTE][1..] == [];
    }
  }

  /** Removing quotation marks distributes over concatenation. */
  lemma {:induction false} RemoveQuotesAppend(a: string, b: string)
    ensures RemoveQuotes(a + b) == RemoveQuotes(a) + RemoveQuotes(b)
  {
    if a != [] {
      assert (a + b)[1..] == a[1..] + b;
      RemoveQuotesAppend(a[1..], b);
    } else {
      assert a + b == b;
    }
  }
}
