/**
 * Extracting the client address of a proxied request: the first field of
 * the `X-Forwarded-For` header, stripped, when it is a well-formed IP
 * address; otherwise the peer address of the connection; otherwise
 * "unknown".
 */
module RequestUtils {
  import opened Wrappers

  /** Python's `str.isspace`: the characters `str.strip()` removes. */
  predicate IsSpace(c: char)
  {
    var n := c as int;
    || 0x09 <= n <= 0x0D
    || 0x1C <= n <= 0x20
    || n == 0x85 || n == 0xA0 || n == 0x1680
    || 0x2000 <= n <= 0x200A
    || n == 0x2028 || n == 0x2029 || n == 0x202F || n == 0x205F || n == 0x3000
  }

  /** `s.split(",")[0]`: the text before the first comma, or all of `s` when it has none. */
  function FirstField(s: string): (r: string)
    ensures |r| <= |s| && r == s[..|r|]
    ensures forall i :: 0 <= i < |r| ==> r[i] != ','
    ensures r == s || s[|r|] == ','
    decreases |s|
  {
    if s == [] || s[0] == ',' then [] else [s[0]] + FirstField(s[1..])
  }

  /** The number of leading whitespace characters. */
  function LeadingSpaces(s: string): (k: nat)
    ensures k <= |s|
    ensures forall i :: 0 <= i < k ==> IsSpace(s[i])
    ensures k < |s| ==> !IsSpace(s[k])
    decreases |s|
  {
    if s != [] && IsSpace(s[0]) then 1 + LeadingSpaces(s[1..]) else 0
  }

  /** The end of `s` once the trailing whitespace is dropped, never before `from`. */
  function TrailingEnd(s: string, from: nat): (j: nat)
    requires from <= |s|
    ensures from <= j <= |s|
    ensures forall i :: j <= i < |s| ==> IsSpace(s[i])
    ensures j > from ==> !IsSpace(s[j - 1])
    decreases |s|
  {
    if |s| > from && IsSpace(s[|s| - 1]) then TrailingEnd(s[..|s| - 1], from) else |s|
  }

  /**
   * `s.strip()` removes exactly the surrounding whitespace: the result is the
   * slice of `s` that follows its leading whitespace, only whitespace comes
   * after it, and it neither starts nor ends with whitespace.
   */
  function Strip(s: string): (r: string)
    ensures var k := LeadingSpaces(s);
      && k + |r| <= |s| && r == s[k..k + |r|]
      && forall i :: k + |r| <= i < |s| ==> IsSpace(s[i])
    ensures r != [] ==> !IsSpace(r[0]) && !IsSpace(r[|r| - 1])
  {
    var k := LeadingSpaces(s);
    s[k..TrailingEnd(s, k)]
  }

  /** Stripping twice is stripping once. */
  lemma {:induction false} StripIdempotent(s: string)
    ensures Strip(Strip(s)) == Strip(s)
  {
    NoSurroundingWhitespaceIsFixed(Strip(s));
  }

  /** A string without leading or trailing whitespace is left as it is. */
  lemma {:induction false} NoSurroundingWhitespaceIsFixed(r: string)
    requires r != [] ==> !IsSpace(r[0]) && !IsSpace(r[|r| - 1])
    ensures Strip(r) == r
  {
    assert LeadingSpaces(r) == 0;
    if r != [] {
      assert TrailingEnd(r, 0) == |r|;
    }
  }

  /**
   * The address candidate a header yields: its first comma-separated field,
   * stripped; it holds no comma and has no surrounding whitespace.
   */
  function Candidate(forwardedFor: string): (c: string)
    ensures forall i :: 0 <= i < |c| ==> c[i] != ','
    ensures c != [] ==> !IsSpace(c[0]) && !IsSpace(c[|c| - 1])
  {
    var f := FirstField(forwardedFor);
    var k := LeadingSpaces(f);
    assert forall i :: 0 <= i < |Strip(f)| ==> Strip(f)[i] == f[k + i];
    Strip(f)
  }

  /**
   * The candidate is a slice of the header that lies before its first comma,
   * holds no comma and has no surrounding whitespace.
   */
  lemma CandidateIsTrimmedFirstField(forwardedFor: string)
    ensures var f := FirstField(forwardedFor); var k := LeadingSpaces(f); var c := Candidate(forwardedFor);
      && c == forwardedFor[k..TrailingEnd(f, k)]
      && (forall i :: 0 <= i < |c| ==> c[i] != ',')
      && (c != [] ==> !IsSpace(c[0]) && !IsSpace(c[|c| - 1]))
  {
    var f := FirstField(forwardedFor);
    var k := LeadingSpaces(f);
    var j := TrailingEnd(f, k);
    var c := Candidate(forwardedFor);
    assert c == f[k..j];
    assert |c| == j - k;
    forall i | 0 <= i < |c|
      ensures c[i] == forwardedFor[k + i]
    {
      assert c[i] == f[k + i];
      assert f[k + i] == forwardedFor[..|f|][k + i];
    }
    assert c == forwardedFor[k..j];
  }

  /**
   * `get_client_ip`. `forwardedFor` is the `X-Forwarded-For` header, `client`
   * the peer host of the connection when there is one, and `isIp` stands for
   * `ipaddress.ip_address` accepting its argument.
   */
  function GetClientIp(forwardedFor: Option<string>, client: Option<string>, isIp: string -> bool): (ip: string)
    ensures Given(forwardedFor) && isIp(Candidate(forwardedFor.value)) ==> ip == Candidate(forwardedFor.value)
    ensures !(Given(forwardedFor) && isIp(Candidate(forwardedFor.value))) && client.Some? ==> ip == client.value
    ensures !(Given(forwardedFor) && isIp(Candidate(forwardedFor.value))) && client.None? ==> ip == "unknown"
  {
    if Given(forwardedFor) && isIp(Candidate(forwardedFor.value)) then Candidate(forwardedFor.value)
    else if client.Some? then client.value
    else "unknown"
  }

  /**
   * The address is one of three things: a header candidate that passed
   * validation, the connection's peer host, or "unknown". Header text is
   * never returned without passing validation, and the header is preferred
   * whenever its candidate is valid.
   */
  lemma ClientIpIsValidatedOrFallback(forwardedFor: Option<string>, client: Option<string>, isIp: string -> bool)
    ensures var ip := GetClientIp(forwardedFor, client, isIp);
      || (Given(forwardedFor) && ip == Candidate(forwardedFor.value) && isIp(ip))
      || (client.Some? && ip == client.value)
      || (client.None? && ip == "unknown")
    ensures var ip := GetClientIp(forwardedFor, client, isIp);
      client.None? && ip != "unknown" ==> Given(forwardedFor) && isIp(ip)
  {
  }
}
