/**
 * Decoding of a query component as Go's `url.QueryUnescape` does it:
 * percent-encoding as in section 2.1 of RFC 3986, plus `'+'` for a space as
 * in `application/x-www-form-urlencoded`. `QueryEscape` is its inverse on
 * byte strings. A Go byte is one `char` with a code below 256 here.
 */
module UrlEscape {
  import opened Text

  predicate IsHex(c: char) {
    '0' <= c <= '9' || 'a' <= c <= 'f' || 'A' <= c <= 'F'
  }

  function Unhex(c: char): (v: nat)
    requires IsHex(c)
    ensures v < 16
  {
    if '0' <= c <= '9' then c as int - '0' as int
    else if 'a' <= c <= 'f' then c as int - 'a' as int + 10
    else c as int - 'A' as int + 10
  }

  /** Every `'%'` in `s` opens a complete escape: two hexadecimal digits follow it. */
  predicate WellEscaped(s: string) {
    forall i :: 0 <= i < |s| && s[i] == '%' ==> i + 2 < |s| && IsHex(s[i + 1]) && IsHex(s[i + 2])
  }

  /**
   * `url.QueryUnescape`: `"%XY"` becomes the byte with hexadecimal value XY,
   * `'+'` becomes a space, anything else is kept. `None` is the
   * `EscapeError` for a `'%'` not followed by two hexadecimal digits.
   */
  function QueryUnescape(s: string): (r: Option<string>)
    ensures r.Some? ==> |r.value| <= |s|
    decreases |s|
  {
    if s == [] then Some("")
    else if s[0] == '%' then
      if |s| < 3 || !IsHex(s[1]) || !IsHex(s[2]) then None
      else Cons(Byte(s[1], s[2]), QueryUnescape(s[3..]))
    else Cons(if s[0] == '+' then ' ' else s[0], QueryUnescape(s[1..]))
  }

  /** The byte that the escape `%XY` names. */
  function Byte(x: char, y: char): char
    requires IsHex(x) && IsHex(y)
  {
    (Unhex(x) * 16 + Unhex(y)) as char
  }

  /** A decoded character in front of the decoding of the rest, unless that failed. */
  function Cons(c: char, r: Option<string>): Option<string> {
    match r
    case None => None
    case Some(t) => Some([c] + t)
  }

  /** Decoding fails exactly when some `'%'` lacks its two hexadecimal digits. */
  lemma {:induction false} QueryUnescapeSucceeds(s: string)
    ensures QueryUnescape(s).Some? <==> WellEscaped(s)
    decreases |s|
  {
    if s == [] {
    } else if s[0] == '%' {
      if |s| >= 3 && IsHex(s[1]) && IsHex(s[2]) {
        QueryUnescapeSucceeds(s[3..]);
        WellEscapedSplit(s, 3);
      }
    } else {
      QueryUnescapeSucceeds(s[1..]);
      WellEscapedSplit(s, 1);
    }
  }

  /** Dropping a prefix that holds no `'%'` and ends no escape leaves well-formedness unchanged. */
  lemma WellEscapedSplit(s: string, k: nat)
    requires 1 <= k <= 3 && k <= |s|
    requires s[0] != '%' ==> k == 1
    requires s[0] == '%' ==> k == 3 && IsHex(s[1]) && IsHex(s[2])
    ensures WellEscaped(s) <==> WellEscaped(s[k..])
  {
    if WellEscaped(s[k..]) {
      forall i | 0 <= i < |s| && s[i] == '%'
        ensures i + 2 < |s| && IsHex(s[i + 1]) && IsHex(s[i + 2])
      {
        if i >= k {
          assert s[k..][i - k] == '%';
        }
      }
    }
    if WellEscaped(s) {
      forall j | 0 <= j < |s[k..]| && s[k..][j] == '%'
        ensures j + 2 < |s[k..]| && IsHex(s[k..][j + 1]) && IsHex(s[k..][j + 2])
      {
        assert s[j + k] == '%';
      }
    }
  }

  /** A character that stands for one Go byte. */
  predicate IsByte(c: char) {
    c as int < 256
  }

  /** The characters `url.QueryEscape` leaves as they are. */
  predicate Unreserved(c: char) {
    'a' <= c <= 'z' || 'A' <= c <= 'Z' || '0' <= c <= '9' || c == '-' || c == '_' || c == '.' || c == '~'
  }

  function UpperHex(d: nat): (c: char)
    requires d < 16
    ensures IsHex(c) && Unhex(c) == d
  {
    if d < 10 then ('0' as int + d) as char else ('A' as int + d - 10) as char
  }

  /** How `url.QueryEscape` writes one byte. */
  function EscapeByte(c: char): string
    requires IsByte(c)
  {
    if Unreserved(c) then [c]
    else if c == ' ' then "+"
    else ['%', UpperHex(c as int / 16), UpperHex(c as int % 16)]
  }

  /** `url.QueryEscape` on a byte string. */
  function QueryEscape(s: string): (r: string)
    requires forall i :: 0 <= i < |s| ==> IsByte(s[i])
    ensures |s| <= |r| <= 3 * |s|
  {
    if s == [] then "" else EscapeByte(s[0]) + QueryEscape(s[1..])
  }

  /** Decoding undoes encoding: every byte string survives the round trip. */
  lemma {:induction false} QueryUnescapeEscape(s: string)
    requires forall i :: 0 <= i < |s| ==> IsByte(s[i])
    ensures QueryUnescape(QueryEscape(s)) == Some(s)
  {
    if s != [] {
      QueryUnescapeEscape(s[1..]);
      assert QueryEscape(s) == EscapeByte(s[0]) + QueryEscape(s[1..]);
      EscapeByteDecodes(s[0], QueryEscape(s[1..]));
      assert [s[0]] + s[1..] == s;
    }
  }

  /** The encoding of one byte decodes back to that byte, in front of the decoding of what follows. */
  lemma EscapeByteDecodes(c: char, rest: string)
    requires IsByte(c)
    requires QueryUnescape(rest).Some?
    ensures QueryUnescape(EscapeByte(c) + rest) == Some([c] + QueryUnescape(rest).value)
  {
    var e := EscapeByte(c);
    if Unreserved(c) || c == ' ' {
      assert e == [e[0]];
      QueryUnescapeSingle(e[0], rest);
    } else {
      assert e == ['%', e[1], e[2]];
      QueryUnescapeEscaped(e[1], e[2], rest);
      assert Byte(e[1], e[2]) == c;
    }
  }

  /** Text without `'%'` or `'+'` passes through decoding unchanged, whatever follows it. */
  lemma {:induction false} QueryUnescapePlain(p: string, rest: string)
    requires '%' !in p && '+' !in p
    requires QueryUnescape(rest).Some?
    ensures QueryUnescape(p + rest) == Some(p + QueryUnescape(rest).value)
  {
    if p == [] {
      assert p + rest == rest && p + QueryUnescape(rest).value == QueryUnescape(rest).value;
    } else {
      assert p[0] in p && (p + rest)[0] == p[0];
      assert (p + rest)[1..] == p[1..] + rest;
      QueryUnescapePlain(p[1..], rest);
      assert [p[0]] + (p[1..] + QueryUnescape(rest).value) == p + QueryUnescape(rest).value;
    }
  }

  /** A character other than `'%'` decodes on its own, `'+'` to a space. */
  lemma QueryUnescapeSingle(c: char, rest: string)
    requires c != '%'
    requires QueryUnescape(rest).Some?
    ensures QueryUnescape([c] + rest) == Some([if c == '+' then ' ' else c] + QueryUnescape(rest).value)
  {
    assert ([c] + rest)[1..] == rest;
  }

  /** One complete escape decodes to the byte it names, followed by the decoding of the rest. */
  lemma QueryUnescapeEscaped(x: char, y: char, rest: string)
    requires IsHex(x) && IsHex(y)
    requires QueryUnescape(rest).Some?
    ensures QueryUnescape(['%', x, y] + rest) == Some([Byte(x, y)] + QueryUnescape(rest).value)
  {
    var s := ['%', x, y] + rest;
    assert s[0] == '%' && s[1] == x && s[2] == y;
    assert s[3..] == rest;
  }

  /** Text without `'%'` or `'+'` decodes to itself. */
  lemma PlainUnchanged(s: string)
    requires '%' !in s && '+' !in s
    ensures QueryUnescape(s) == Some(s)
  {
    QueryUnescapePlain(s, "");
    assert s + "" == s;
  }

  /**
   * `"%20"` between two runs of plain text (such as the message segment
   * `hello%20world` of `GET /api/send/hello%20world`) decodes to a space between them.
   */
  lemma {:induction false} SpaceEscape(p: string, w: string)
    requires '%' !in p && '+' !in p && '%' !in w && '+' !in w
    ensures QueryUnescape(p + "%20" + w) == Some(p + " " + w)
  {
    PlainUnchanged(w);
    QueryUnescapeEscaped('2', '0', w);
    assert Byte('2', '0') == ' ';
    var e := ['%', '2', '0'] + w;
    QueryUnescapePlain(p, e);
    assert p + "%20" + w == p + e;
    assert p + ([' '] + w) == p + " " + w;
  }
}
