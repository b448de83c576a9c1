/** `decodeURIComponent` (percent-escapes, UTF-8 multi-byte sequences and the
    URIError it throws), and `encodeURIComponent` on ASCII text. */
module Uri {
  import opened Js

  predicate IsHexDigit(c: char)
  {
    '0' <= c <= '9' || 'a' <= c <= 'f' || 'A' <= c <= 'F'
  }

  function HexValue(c: char): (n: nat)
    requires IsHexDigit(c)
    ensures n < 16
  {
    if '0' <= c <= '9' then c as int - '0' as int
    else if 'a' <= c <= 'f' then c as int - 'a' as int + 10
    else c as int - 'A' as int + 10
  }

  /** The upper-case hexadecimal digit `encodeURIComponent` writes for `n`. */
  function HexDigit(n: nat): (c: char)
    requires n < 16
    ensures IsHexDigit(c) && HexValue(c) == n
  {
    if n < 10 then ('0' as int + n) as char else ('A' as int + n - 10) as char
  }

  /** The byte written `%XX` at position `k` of `s`, if there is one. */
  function EscapedByte(s: string, k: nat): (r: Option<nat>)
    ensures r.Some? ==> r.value < 256 && k + 3 <= |s| && s[k] == '%'
  {
    if k + 3 <= |s| && s[k] == '%' && IsHexDigit(s[k + 1]) && IsHexDigit(s[k + 2])
    then Some(16 * HexValue(s[k + 1]) + HexValue(s[k + 2]))
    else None
  }

  /** The six payload bits of a UTF-8 continuation byte (10xxxxxx) written `%XX` at `k`. */
  function Continuation(s: string, k: nat): (r: Option<nat>)
    ensures r.Some? ==> r.value < 64 && k + 3 <= |s|
  {
    match EscapedByte(s, k)
    case None => None
    case Some(b) => if 0x80 <= b < 0xC0 then Some(b - 0x80) else None
  }

  /** The character encoded by the escape sequence at the start of `s` (one to
      four `%XX` bytes forming a UTF-8 sequence) and the number of characters
      the sequence spans; `None` where `decodeURIComponent` throws a URIError:
      a `%` without two hexadecimal digits, a stray continuation byte, a lead
      byte of five or more ones, a missing continuation byte, an overlong
      encoding, a surrogate or a code point above 0x10FFFF. */
  function DecodeEscape(s: string): (r: Option<(char, nat)>)
    ensures r.Some? ==> 3 <= r.value.1 <= |s|
  {
    match EscapedByte(s, 0)
    case None => None
    case Some(b) =>
      if b < 0x80 then Some((b as char, 3))
      else if 0xC0 <= b < 0xE0 then
        match Continuation(s, 3)
        case None => None
        case Some(c1) =>
          var cp := (b - 0xC0) * 64 + c1;
          if cp < 0x80 then None else Some((cp as char, 6))
      else if 0xE0 <= b < 0xF0 then
        match Continuation(s, 3)
        case None => None
        case Some(c1) =>
          match Continuation(s, 6)
          case None => None
          case Some(c2) =>
            var cp := (b - 0xE0) * 4096 + c1 * 64 + c2;
            if cp < 0x800 || 0xD800 <= cp < 0xE000 then None else Some((cp as char, 9))
      else if 0xF0 <= b < 0xF8 then
        match Continuation(s, 3)
        case None => None
        case Some(c1) =>
          match Continuation(s, 6)
          case None => None
          case Some(c2) =>
            match Continuation(s, 9)
            case None => None
            case Some(c3) =>
              var cp := (b - 0xF0) * 262144 + c1 * 4096 + c2 * 64 + c3;
              if cp < 0x10000 || 0x10FFFF < cp then None else Some((cp as char, 12))
      else None
  }

  /** `decodeURIComponent(s)`; `None` where it throws a URIError. Decoding never
      lengthens the text. */
  function Decode(s: string): (r: Option<string>)
    ensures r.Some? ==> |r.value| <= |s|
    decreases |s|
  {
    if s == [] then Some("")
    else if s[0] != '%' then
      match Decode(s[1..])
      case None => None
      case Some(t) => Some([s[0]] + t)
    else
      match DecodeEscape(s)
      case None => None
      case Some((ch, n)) =>
        match Decode(s[n..])
        case None => None
        case Some(t) => Some([ch] + t)
  }

  /** Text without `%` decodes to itself. */
  lemma {:induction false} DecodePlain(s: string)
    requires '%' !in s
    ensures Decode(s) == Some(s)
    decreases |s|
  {
    if s != [] {
      assert s[0] in s;
      assert '%' !in s[1..] by {
        assert forall i :: 0 <= i < |s[1..]| ==> s[1..][i] == s[i + 1];
      }
      DecodePlain(s[1..]);
      assert [s[0]] + s[1..] == s;
    }
  }

  /** The characters `encodeURIComponent` leaves as they are. */
  predicate IsUnreserved(c: char)
  {
    'A' <= c <= 'Z' || 'a' <= c <= 'z' || '0' <= c <= '9' || c in "-_.!~*'()"
  }

  predicate IsAscii(s: string)
  {
    forall i :: 0 <= i < |s| ==> s[i] as int < 128
  }

  /** An encoded string carries neither of the query string's separators. */
  lemma EncodedHasNoSeparator(s: string)
    requires IsAscii(s)
    ensures '&' !in Encode(s) && '=' !in Encode(s)
  {
    var e := Encode(s);
    forall i | 0 <= i < |e|
      ensures e[i] != '&' && e[i] != '='
    {
      if e[i] != '%' {
        assert IsUnreserved(e[i]);
      }
    }
  }

  function EncodeChar(c: char): (r: string)
    requires c as int < 128
    ensures forall i :: 0 <= i < |r| ==> IsUnreserved(r[i]) || r[i] == '%'
  {
    if IsUnreserved(c) then [c]
    else ['%', HexDigit(c as int / 16), HexDigit(c as int % 16)]
  }

  /** `encodeURIComponent(s)` for ASCII text: every character but the unreserved
      ones is written `%XX`, so the result holds no `&` and no `=`. */
  function Encode(s: string): (r: string)
    requires IsAscii(s)
    ensures IsAscii(r)
    ensures forall i :: 0 <= i < |r| ==> IsUnreserved(r[i]) || r[i] == '%'
    decreases |s|
  {
    if s == [] then ""
    else
      var head, tail := EncodeChar(s[0]), Encode(s[1..]);
      assert forall i :: |head| <= i < |head + tail| ==> (head + tail)[i] == tail[i - |head|];
      head + tail
  }

  lemma DecodeEncodedChar(c: char, rest: string)
    requires c as int < 128
    ensures Decode(EncodeChar(c) + rest) ==
      match Decode(rest)
      case None => None
      case Some(t) => Some([c] + t)
  {
    var s := EncodeChar(c) + rest;
    if IsUnreserved(c) {
      assert s[0] == c && s[1..] == rest;
    } else {
      var n := c as int;
      assert s[0] == '%' && s[1] == HexDigit(n / 16) && s[2] == HexDigit(n % 16);
      assert EscapedByte(s, 0) == Some(n);
      assert (n as char) == c;
      assert s[3..] == rest;
    }
  }

  /** Decoding undoes encoding. */
  lemma {:induction false} DecodeEncode(s: string)
    requires IsAscii(s)
    ensures Decode(Encode(s)) == Some(s)
    decreases |s|
  {
    if s != [] {
      var tail := Encode(s[1..]);
      assert Encode(s) == EncodeChar(s[0]) + tail;
      assert Decode(tail) == Some(s[1..]) by {
        DecodeEncode(s[1..]);
      }
      assert Decode(EncodeChar(s[0]) + tail) == Some([s[0]] + s[1..]) by {
        DecodeEncodedChar(s[0], tail);
      }
      assert [s[0]] + s[1..] == s;
    }
  }
}
