/** The part of net/url that the recorder's outbound request goes through:
    `http.NewRequestWithContext` parses the URL it is given, so whatever the
    string `target + path` says is what the request's path and query become. */
module Url {
  import opened Wrappers
  import opened Errors

  predicate IsHex(c: char)
  {
    '0' <= c <= '9' || 'a' <= c <= 'f' || 'A' <= c <= 'F'
  }

  function HexValue(c: char): (v: nat)
    requires IsHex(c)
    ensures v < 16
  {
    if '0' <= c <= '9' then c as int - '0' as int
    else if 'a' <= c <= 'f' then c as int - 'a' as int + 10
    else c as int - 'A' as int + 10
  }

  /** The hex digit of a value below 16, in upper case as url.PathEscape writes it. */
  function HexDigit(v: nat): (c: char)
    requires v < 16
    ensures IsHex(c) && HexValue(c) == v
  {
    if v < 10 then ('0' as int + v) as char else ('A' as int + v - 10) as char
  }

  /** A control byte, which url.Parse refuses anywhere before the fragment. */
  predicate IsCtl(c: char)
  {
    c < ' ' || c == 0x7f as char
  }

  predicate CtlFree(s: string)
  {
    forall i :: 0 <= i < |s| ==> !IsCtl(s[i])
  }

  lemma CtlFreeConcat(a: string, b: string)
    requires CtlFree(a) && CtlFree(b)
    ensures CtlFree(a + b)
  {
    forall i | 0 <= i < |a + b| ensures !IsCtl((a + b)[i]) {
      if i >= |a| { assert (a + b)[i] == b[i - |a|]; }
    }
  }

  /** The position of the first `sep` in `s`, or |s| when there is none
      (strings.Cut splits there). */
  function IndexOf(s: string, sep: char): (i: nat)
    ensures i <= |s|
    ensures forall k :: 0 <= k < i ==> s[k] != sep
    ensures i < |s| ==> s[i] == sep
  {
    if s == [] then 0
    else if s[0] == sep then 0
    else 1 + IndexOf(s[1..], sep)
  }

  /** A '%' at position i that is not followed by two hex digits. */
  predicate BadEscapeAt(s: string, i: int)
    requires 0 <= i < |s|
  {
    s[i] == '%' && !(i + 2 < |s| && IsHex(s[i + 1]) && IsHex(s[i + 2]))
  }

  /** url.unescape in path mode: each "%XX" becomes the character with code XX,
      '+' and everything else stay as they are, and a '%' without two hex digits
      after it is an error (UnescapeFails). */
  function Unescape(s: string): Option<string>
    decreases |s|
  {
    if s == [] then Some([])
    else if s[0] == '%' then
      if |s| >= 3 && IsHex(s[1]) && IsHex(s[2]) then
        var rest := Unescape(s[3..]);
        if rest.None? then None
        else Some([(HexValue(s[1]) * 16 + HexValue(s[2])) as char] + rest.value)
      else None
    else
      var rest := Unescape(s[1..]);
      if rest.None? then None else Some([s[0]] + rest.value)
  }

  /** Unescape fails exactly when some '%' lacks its two hex digits. */
  lemma {:induction false} UnescapeFails(s: string)
    ensures Unescape(s).None? <==> exists i :: 0 <= i < |s| && BadEscapeAt(s, i)
    decreases |s|
  {
    if s != [] {
      if s[0] == '%' {
        if |s| >= 3 && IsHex(s[1]) && IsHex(s[2]) {
          UnescapeFails(s[3..]);
          ShiftedBadEscape(s, 3);
        } else {
          assert BadEscapeAt(s, 0);
        }
      } else {
        UnescapeFails(s[1..]);
        ShiftedBadEscape(s, 1);
      }
    }
  }

  /** Without a '%' there is nothing to decode. */
  lemma {:induction false} UnescapePlain(s: string)
    requires '%' !in s
    ensures Unescape(s) == Some(s)
    decreases |s|
  {
    if s != [] {
      assert s[0] in s;
      assert forall c :: c in s[1..] ==> c in s;
      UnescapePlain(s[1..]);
      assert s == [s[0]] + s[1..];
    }
  }

  /** Unescape on a string that starts with an ordinary character. */
  lemma UnescapeCons(c: char, s: string)
    requires c != '%'
    ensures Unescape([c] + s) == if Unescape(s).None? then None else Some([c] + Unescape(s).value)
  {
    assert ([c] + s)[1..] == s;
  }

  /** Unescape on a string that starts with a well-formed escape. */
  lemma UnescapeEscapeHead(h: char, l: char, s: string)
    requires IsHex(h) && IsHex(l)
    ensures Unescape(['%', h, l] + s) ==
      if Unescape(s).None? then None else Some([(HexValue(h) * 16 + HexValue(l)) as char] + Unescape(s).value)
  {
    assert (['%', h, l] + s)[3..] == s;
  }

  /** Dropping a prefix with no '%' in it, or one whole escape, keeps the bad
      escapes of the rest where they were, shifted by the prefix's length. */
  lemma ShiftedBadEscape(s: string, k: nat)
    requires k <= |s|
    requires k == 1 ==> s[0] != '%'
    requires k == 3 ==> s[0] == '%' && IsHex(s[1]) && IsHex(s[2])
    requires k == 1 || k == 3
    ensures (exists i :: 0 <= i < |s| && BadEscapeAt(s, i)) <==>
            (exists j :: 0 <= j < |s[k..]| && BadEscapeAt(s[k..], j))
  {
    var t := s[k..];
    if exists i :: 0 <= i < |s| && BadEscapeAt(s, i) {
      var i :| 0 <= i < |s| && BadEscapeAt(s, i);
      assert i >= k;
      assert BadEscapeAt(t, i - k);
    }
    if exists j :: 0 <= j < |t| && BadEscapeAt(t, j) {
      var j :| 0 <= j < |t| && BadEscapeAt(t, j);
      assert BadEscapeAt(s, j + k);
    }
  }

  /** An escaping in the manner of url.PathEscape, reduced to what matters here: '%', '?', '#' and the
      control characters are escaped as "%XX"; every other character below 256
      is kept. */
  function Escape(s: string): (r: string)
    requires forall i :: 0 <= i < |s| ==> s[i] < 256 as char
  {
    if s == [] then []
    else
      var c := s[0];
      (if c == '%' || c == '?' || c == '#' || IsCtl(c)
       then ['%', HexDigit(c as int / 16), HexDigit(c as int % 16)]
       else [c]) + Escape(s[1..])
  }

  /** What Escape writes, Unescape reads back. */
  lemma {:induction false} UnescapeEscape(s: string)
    requires forall i :: 0 <= i < |s| ==> s[i] < 256 as char
    ensures Unescape(Escape(s)) == Some(s)
  {
    if s != [] {
      var c := s[0];
      var t := Escape(s[1..]);
      UnescapeEscape(s[1..]);
      if c == '%' || c == '?' || c == '#' || IsCtl(c) {
        var h, l := HexDigit(c as int / 16), HexDigit(c as int % 16);
        assert Escape(s) == ['%', h, l] + t;
        UnescapeEscapeHead(h, l, t);
      } else {
        assert Escape(s) == [c] + t;
        UnescapeCons(c, t);
      }
      assert s == [c] + s[1..];
    }
  }

  /** An escaped string holds no '?', '#' or control character, so url.Parse
      takes all of it as the path. */
  lemma {:induction false} EscapedIsPlain(s: string)
    requires forall i :: 0 <= i < |s| ==> s[i] < 256 as char
    ensures '?' !in Escape(s) && '#' !in Escape(s) && CtlFree(Escape(s))
  {
    if s != [] {
      EscapedIsPlain(s[1..]);
      var c := s[0];
      var head := if c == '%' || c == '?' || c == '#' || IsCtl(c)
                  then ['%', HexDigit(c as int / 16), HexDigit(c as int % 16)] else [c];
      assert Escape(s) == head + Escape(s[1..]);
      assert forall i :: 0 <= i < |head| ==> head[i] != '?' && head[i] != '#' && !IsCtl(head[i]);
    }
  }

  /** The path (unescaped) and raw query url.Parse gives a URL made of a bare
      scheme and host followed by a path. */
  datatype Parts = Parts(path: string, rawQuery: string)

  /** url.Parse on `target + p`, where `target` is a bare scheme and host: the
      fragment is cut at the first '#', control characters before it are
      refused, the query is cut at the first '?', and the path before it and
      the fragment are unescaped (a malformed escape in either is an error). */
  function Parse(target: string, p: string): (r: Result<Parts, Error>)
    ensures var f := IndexOf(p, '#'); var u := p[..f]; var q := IndexOf(u, '?');
      && (r.Ok? <==> CtlFree(target + u) && Unescape(u[..q]).Some?
                     && (f + 1 < |p| ==> Unescape(p[f + 1..]).Some?))
      && (r.Ok? ==> Some(r.value.path) == Unescape(u[..q])
                    && r.value.rawQuery == (if q < |u| then u[q + 1..] else ""))
  {
    var f := IndexOf(p, '#');
    var u := p[..f];
    var fragment := if f < |p| then p[f + 1..] else "";
    var q := IndexOf(u, '?');
    var path := Unescape(u[..q]);
    if !CtlFree(target + u) || path.None? || (fragment != "" && Unescape(fragment).None?) then
      Err(UrlInvalid(target + p))
    else
      Ok(Parts(path.value, if q < |u| then u[q + 1..] else ""))
  }

  /** A path without '%', '?', '#' or control characters comes through the parse
      unchanged, with no query. */
  lemma PlainPathKept(target: string, p: string)
    requires CtlFree(target) && CtlFree(p) && '%' !in p && '?' !in p && '#' !in p
    ensures Parse(target, p) == Ok(Parts(p, ""))
  {
    UnescapePlain(p);
    assert IndexOf(p, '#') == |p| && p[..|p|] == p;
    assert IndexOf(p, '?') == |p|;
    CtlFreeConcat(target, p);
  }

  /** Escaping the decoded path before joining it to the target would make the
      parse give that path back. */
  lemma EscapedPathRoundTrip(target: string, p: string)
    requires CtlFree(target) && forall i :: 0 <= i < |p| ==> p[i] < 256 as char
    ensures Parse(target, Escape(p)) == Ok(Parts(p, ""))
  {
    var e := Escape(p);
    EscapedIsPlain(p);
    UnescapeEscape(p);
    assert IndexOf(e, '#') == |e| && e[..|e|] == e;
    assert IndexOf(e, '?') == |e|;
    CtlFreeConcat(target, e);
  }
}
