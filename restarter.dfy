/**
 * The remote steps of Restarter.h, reduced to what they compute from the
 * router's reply: the Set-Cookie value parser and the success predicates of
 * the four requests. The HTTP traffic itself is not modelled; a `Reply` is the
 * status code, body and Set-Cookie header the client would have returned.
 */
module Restarter {
  import opened Wrappers

  /** What the HTTP client hands back for one request. */
  datatype Reply = Reply(status: int, body: string, setCookie: Option<string>)

  /** Arduino `String::indexOf(char)`: the first position of `c` in `s`, or -1. */
  function IndexOf(s: string, c: char): (r: int)
    ensures -1 <= r < |s|
    ensures r == -1 <==> c !in s
    ensures 0 <= r ==> s[r] == c && c !in s[..r]
  {
    if s == [] then -1
    else if s[0] == c then 0
    else
      var k := IndexOf(s[1..], c);
      assert s == [s[0]] + s[1..];
      assert 0 <= k ==> s[..k + 1] == [s[0]] + s[1..][..k];
      if k == -1 then -1 else k + 1
  }

  /** `t` occurs in `s` starting at position `i`. */
  predicate Occurs(s: string, t: string, i: int) {
    0 <= i && i + |t| <= |s| && s[i..i + |t|] == t
  }

  ghost predicate Contains(s: string, t: string) {
    exists i :: Occurs(s, t, i)
  }

  lemma OccursShift(s: string, t: string)
    requires s != []
    ensures forall i :: 0 <= i ==> (Occurs(s[1..], t, i) <==> Occurs(s, t, i + 1))
    ensures forall j :: Occurs(s, t, j) && 0 < j ==> Occurs(s[1..], t, j - 1)
  {
    forall i | 0 <= i
      ensures Occurs(s[1..], t, i) <==> Occurs(s, t, i + 1)
    {
      if i + 1 + |t| <= |s| {
        var shifted, window := s[1..][i..i + |t|], s[i + 1..i + 1 + |t|];
        forall k | 0 <= k < |t|
          ensures shifted[k] == window[k]
        {
        }
        assert shifted == window;
      }
    }
    forall j | Occurs(s, t, j) && 0 < j
      ensures Occurs(s[1..], t, j - 1)
    {
      assert Occurs(s, t, (j - 1) + 1);
    }
  }

  /**
   * Arduino `String::indexOf(String)` for a non-empty needle: the first
   * position at which `t` occurs in `s`, or -1.
   */
  function Find(s: string, t: string): (r: int)
    requires t != []
    ensures -1 <= r
    ensures 0 <= r ==> Occurs(s, t, r) && forall j :: 0 <= j < r ==> !Occurs(s, t, j)
    ensures r == -1 <==> !Contains(s, t)
    decreases |s|
  {
    if |s| < |t| then -1
    else if s[..|t|] == t then assert Occurs(s, t, 0); 0
    else
      OccursShift(s, t);
      assert !Occurs(s, t, 0);
      var k := Find(s[1..], t);
      if k == -1 then -1 else k + 1
  }

  /**
   * The header orders its delimiters the way the parser expects: when it has
   * both an '=' and a ';', the first '=' comes before the first ';'.
   */
  predicate SemiAfterEq(h: string) {
    '=' in h && ';' in h ==> IndexOf(h, '=') < IndexOf(h, ';')
  }

  predicate HeaderOrdered(header: Option<string>) {
    header.Some? ==> SemiAfterEq(header.value)
  }

  /**
   * `processSetCookieHeader`: the cookie value of a Set-Cookie header, that is
   * the text after the first '=' up to the first ';' (or the end). A header
   * without '=' gives the empty value; a NULL header gives NULL.
   */
  function ProcessSetCookieHeader(header: Option<string>): (value: Option<string>)
    requires HeaderOrdered(header)
    ensures header.None? <==> value.None?
    ensures header.Some? && '=' !in header.value ==> value == Some([])
    ensures value.Some? ==> ';' !in value.value
  {
    match header
    case None => None
    case Some(h) =>
      var eqIndex := IndexOf(h, '=');
      var semiIndex := IndexOf(h, ';');
      if eqIndex == -1 then Some([])
      else if semiIndex != -1 then
        assert ';' !in h[eqIndex + 1..semiIndex] by {
          assert h[..semiIndex] == h[..eqIndex + 1] + h[eqIndex + 1..semiIndex];
        }
        Some(h[eqIndex + 1..semiIndex])
      else Some(h[eqIndex + 1..])
  }

  /**
   * The first '=' of a header splits it into a name without '=' and the rest;
   * the cookie value is the start of the rest, the attributes that follow it
   * are empty or begin with ';', and the header is exactly
   * name + "=" + value + attributes.
   */
  lemma CookieSplit(h: string)
    requires '=' in h && SemiAfterEq(h)
    ensures var v, e := ProcessSetCookieHeader(Some(h)).value, IndexOf(h, '=');
      && e + 1 + |v| <= |h|
      && h == h[..e] + "=" + v + h[e + 1 + |v|..]
      && '=' !in h[..e]
      && ';' !in h[..e + 1 + |v|]
      && (e + 1 + |v| == |h| || h[e + 1 + |v|] == ';')
      && (';' !in h ==> v == h[e + 1..])
      && (';' in h ==> v == h[e + 1..IndexOf(h, ';')])
  {
    var e, s := IndexOf(h, '='), IndexOf(h, ';');
    var v := ProcessSetCookieHeader(Some(h)).value;
    var end := if s == -1 then |h| else s;
    assert v == h[e + 1..end];
    assert |v| == end - (e + 1);
    SplitAt(h, e, end);
  }

  /** Cutting `h` around position `e` and again at `end`. */
  lemma SplitAt(h: string, e: int, end: int)
    requires 0 <= e < end <= |h|
    ensures h == h[..e] + [h[e]] + h[e + 1..end] + h[end..]
  {
    assert h == h[..e] + h[e..];
    assert h[e..] == [h[e]] + h[e + 1..end] + h[end..];
  }

  /**
   * Reconstruction the other way round: a header built from a name with no
   * '=' and no ';', a value with no ';' and attributes that are empty or start
   * with ';' is well ordered, and parsing it gives back the value.
   */
  lemma CookieRoundTrip(name: string, value: string, attributes: string)
    requires '=' !in name && ';' !in name && ';' !in value
    requires attributes == [] || attributes[0] == ';'
    ensures var h := name + "=" + value + attributes;
      SemiAfterEq(h) && ProcessSetCookieHeader(Some(h)) == Some(value)
  {
    var h := name + "=" + value + attributes;
    var e := |name|;
    assert h[e] == '=' && h[..e] == name;
    assert IndexOf(h, '=') == e;
    assert h[e + 1..e + 1 + |value|] == value;
    if attributes == [] {
      assert h[..e + 1 + |value|] == h;
      assert ';' !in h;
      assert h[e + 1..] == value;
    } else {
      var s := e + 1 + |value|;
      assert h[s] == ';';
      assert h[..s] == name + "=" + value;
      assert IndexOf(h, ';') == s;
    }
  }

  /**
   * `processIndexPage`: on status 200, the cookie parsed from the Set-Cookie
   * header (NULL when the header is absent); NULL on any other status.
   */
  function ProcessIndexPage(reply: Reply): (cookie: Option<string>)
    requires reply.status == 200 ==> HeaderOrdered(reply.setCookie)
    ensures cookie.Some? <==> reply.status == 200 && reply.setCookie.Some?
    ensures cookie.Some? ==> ';' !in cookie.value
  {
    if reply.status != 200 then None
    else ProcessSetCookieHeader(reply.setCookie)
  }

  /** `processInitPage`: no cookie means no request and failure; else status 200. */
  function ProcessInitPage(reply: Reply, cookie: Option<string>): (ok: bool)
    ensures ok <==> cookie.Some? && reply.status == 200
  {
    if cookie.None? then false
    else if reply.status != 200 then false
    else true
  }

  /** `processLoginPage`: needs a cookie, status 200 and "Success" in the body. */
  function ProcessLoginPage(reply: Reply, cookie: Option<string>): (ok: bool)
    ensures ok <==> cookie.Some? && reply.status == 200 && Contains(reply.body, "Success")
  {
    if cookie.None? then false
    else if reply.status != 200 then false
    else Find(reply.body, "Success") != -1
  }

  /**
   * `processSettingsUpdate`: status 200 and "OK" in the body. The source
   * dereferences the cookie without a NULL check, so callers must hold one.
   */
  function ProcessSettingsUpdate(reply: Reply, cookie: Option<string>): (ok: bool)
    requires cookie.Some?
    ensures ok <==> reply.status == 200 && Contains(reply.body, "OK")
  {
    if reply.status != 200 then false
    else Find(reply.body, "OK") != -1
  }

  /** Without a cookie the init and login steps fail whatever the router would answer. */
  lemma NoCookieNoRequest(r1: Reply, r2: Reply)
    ensures !ProcessInitPage(r1, None) && ProcessInitPage(r1, None) == ProcessInitPage(r2, None)
    ensures !ProcessLoginPage(r1, None) && ProcessLoginPage(r1, None) == ProcessLoginPage(r2, None)
  {
  }
}
