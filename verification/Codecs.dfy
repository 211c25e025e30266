/** The byte encodings: a ULEB128 length prefix, and percent-encoding of path segments. */
module Codecs {
  import opened Common

  type Byte = b: int | 0 <= b < 256

  const WORD := 0x1_0000_0000

  // ---------------------------------------------------------------------------
  // vector<u8>: ULEB128 length, then the bytes
  // ---------------------------------------------------------------------------

  /** The low seven bits with the continuation bit: `(n & 0x7f) | 0x80`. */
  function LowBits(n: nat): Byte { n % 128 + 128 }

  /** `n >>> 7`: the operand is first cut to 32 bits. */
  function Shift(n: nat): nat { (n % WORD) / 128 }

  function Uleb(n: nat): seq<Byte> {
    if n >= 128 then [LowBits(n)] + Uleb(Shift(n)) else [n]
  }

  /** ULEB128 by section 7.6 of DWARF version 5: the value and how many bytes carry it. */
  function Decode(s: seq<Byte>): Option<(nat, nat)> {
    if s == [] then None
    else if s[0] < 128 then Some((s[0], 1))
    else
      match Decode(s[1..])
      case None => None
      case Some((v, k)) => Some((s[0] - 128 + 128 * v, k + 1))
  }

  method EncodeVectorU8(bytes: seq<Byte>) returns (out: array<Byte>)
    ensures fresh(out) && out[..] == Uleb(|bytes|) + bytes
  {
    var lenBytes := LengthBytes(|bytes|);
    out := new Byte[|lenBytes| + |bytes|];
    forall i | 0 <= i < |lenBytes| {
      out[i] := lenBytes[i];
    }
    forall i | 0 <= i < |bytes| {
      out[|lenBytes| + i] := bytes[i];
    }
    assert out[..] == lenBytes + bytes;
  }

  lemma UlebStep(done: seq<Byte>, n: nat)
    requires n >= 128
    ensures Shift(n) < n
    ensures (done + [LowBits(n)]) + Uleb(Shift(n)) == done + Uleb(n)
  {}

  method LengthBytes(length: nat) returns (lenBytes: seq<Byte>)
    ensures lenBytes == Uleb(length)
  {
    lenBytes := [];
    var n := length;
    while n >= 0x80
      invariant lenBytes + Uleb(n) == Uleb(length)
      decreases n
    {
      UlebStep(lenBytes, n);
      lenBytes := lenBytes + [LowBits(n)];
      n := Shift(n);
    }
    lenBytes := lenBytes + [n];
  }

  /** One byte of the decoder: what the continuation byte and the rest of the prefix make. */
  lemma DecodeMore(b: Byte, s: seq<Byte>, v: nat, k: nat)
    requires b >= 128 && Decode(s) == Some((v, k))
    ensures Decode([b] + s) == Some((b - 128 + 128 * v, k + 1))
  {
    assert ([b] + s)[1..] == s;
  }

  lemma ShiftedValue(n: nat)
    ensures Shift(n) < WORD && n % 128 + 128 * Shift(n) == n % WORD
  {
    var m := n % WORD;
    assert n == WORD * (n / WORD) + m && WORD == 128 * 0x200_0000;
    assert n - m == 128 * (0x200_0000 * (n / WORD));
    assert n % 128 == m % 128;
  }

  /** Whatever follows, the decoder reads back the length cut to 32 bits, and exactly the prefix. */
  lemma {:induction false} UlebDecodes(n: nat, rest: seq<Byte>)
    ensures Decode(Uleb(n) + rest) == Some((n % WORD, |Uleb(n)|))
    decreases n
  {
    if n >= 128 {
      var more := Uleb(Shift(n));
      UlebDecodes(Shift(n), rest);
      ShiftedValue(n);
      assert Uleb(n) + rest == [LowBits(n)] + (more + rest);
      DecodeMore(LowBits(n), more + rest, Shift(n), |more|);
    }
  }

  /** The prefix determines the length exactly when the length fits 32 bits. */
  lemma LengthRoundTripsExactly(bytes: seq<Byte>)
    ensures Decode(Uleb(|bytes|) + bytes).Some?
    ensures Decode(Uleb(|bytes|) + bytes).value.0 == |bytes| <==> |bytes| < WORD
    ensures Decode(Uleb(|bytes|) + bytes).value.1 == |Uleb(|bytes|)|
    ensures (Uleb(|bytes|) + bytes)[|Uleb(|bytes|)|..] == bytes
  {
    UlebDecodes(|bytes|, bytes);
  }

  lemma ShiftUndoes(low: nat, v: nat)
    requires low < 128 && low + 128 * v < WORD
    ensures Shift(low + 128 * v) == v
  {}

  /** No byte string that decodes to a length is shorter than its encoding. */
  lemma {:induction false} UlebIsShortest(s: seq<Byte>, n: nat, k: nat)
    requires n < WORD && Decode(s) == Some((n, k))
    ensures |Uleb(n)| <= k
    decreases |s|
  {
    if s[0] >= 128 && n >= 128 {
      var (v, j) := Decode(s[1..]).value;
      ShiftUndoes(s[0] - 128, v);
      UlebIsShortest(s[1..], v, j);
    }
  }

  lemma SameCut(p: seq<Byte>, x: seq<Byte>, q: seq<Byte>, y: seq<Byte>)
    requires p + x == q + y && |p| == |q|
    ensures x == y
  {
    assert x == (p + x)[|p|..] && y == (q + y)[|q|..];
  }

  lemma LengthDecodes(n: nat, rest: seq<Byte>)
    requires n < WORD
    ensures Decode(Uleb(n) + rest).Some? && Decode(Uleb(n) + rest).value.0 == n
  {
    UlebDecodes(n, rest);
  }

  /** The decoder fixes the length and the prefix, for lengths that fit. */
  lemma SameLength(m: nat, x: seq<Byte>, n: nat, y: seq<Byte>)
    requires m < WORD && n < WORD && Uleb(m) + x == Uleb(n) + y
    ensures m == n
  {
    LengthDecodes(m, x);
    LengthDecodes(n, y);
  }

  /** No encoding of a shorter-than-2^32 vector is a proper prefix of another's. */
  lemma EncodingIsPrefixFree(a: seq<Byte>, b: seq<Byte>, rest: seq<Byte>)
    requires |a| < WORD && |b| < WORD
    requires Uleb(|a|) + (a + rest) == Uleb(|b|) + b
    ensures rest == [] && a == b
  {
    SameLength(|a|, a + rest, |b|, b);
    SameCut(Uleb(|a|), a + rest, Uleb(|b|), b);
  }

  // ---------------------------------------------------------------------------
  // Percent-encoding, sections 2.1 and 2.3 of RFC 3986
  // ---------------------------------------------------------------------------

  predicate Unreserved(b: Byte) {
    || 'a' as int <= b <= 'z' as int || 'A' as int <= b <= 'Z' as int || '0' as int <= b <= '9' as int
    || b == '-' as int || b == '.' as int || b == '_' as int || b == '~' as int
  }

  function Hex(d: int): char
    requires 0 <= d < 16
  {
    if d < 10 then '0' + d as char else 'A' + (d - 10) as char
  }

  function Escape(b: Byte): string {
    if Unreserved(b) then [b as char] else ['%', Hex(b / 16), Hex(b % 16)]
  }

  function PercentEncode(bytes: seq<Byte>): string {
    if bytes == [] then "" else PercentEncode(bytes[..|bytes| - 1]) + Escape(bytes[|bytes| - 1])
  }

  method UrlEncode(bytes: seq<Byte>) returns (out: string)
    ensures out == PercentEncode(bytes)
  {
    out := "";
    for i := 0 to |bytes|
      invariant out == PercentEncode(bytes[..i])
    {
      assert bytes[..i + 1][..i] == bytes[..i];
      var c := bytes[i];
      if Unreserved(c) {
        out := out + [c as char];
      } else {
        out := out + ['%', Hex(c / 16), Hex(c % 16)];
      }
    }
    assert bytes[..|bytes|] == bytes;
  }

  /** The value of an uppercase hexadecimal digit. */
  function Digit(c: char): Option<nat> {
    if '0' <= c <= '9' then Some(c as int - '0' as int)
    else if 'A' <= c <= 'F' then Some(c as int - 'A' as int + 10)
    else None
  }

  /** The byte at the head of `s` and how many characters spell it; anything else is refused. */
  function Token(s: string): Option<(Byte, nat)> {
    if s == "" then None
    else if s[0] as int < 256 && Unreserved(s[0] as int) then Some((s[0] as int, 1))
    else if s[0] == '%' && |s| >= 3 && Digit(s[1]).Some? && Digit(s[2]).Some? then
      Some((16 * Digit(s[1]).value + Digit(s[2]).value, 3))
    else None
  }

  /** Read unreserved characters and uppercase triplets to the end. */
  function PercentDecode(s: string): Option<seq<Byte>>
    decreases |s|
  {
    if s == "" then Some([])
    else
      match Token(s)
      case None => None
      case Some((b, k)) =>
        match PercentDecode(s[k..])
        case None => None
        case Some(bytes) => Some([b] + bytes)
  }

  lemma EscapeToken(b: Byte, s: string)
    ensures Token(Escape(b) + s) == Some((b, |Escape(b)|))
  {
    var e := Escape(b) + s;
    if Unreserved(b) {
      assert e[0] as int == b;
    } else {
      assert e[0] == '%' && e[1] == Hex(b / 16) && e[2] == Hex(b % 16);
    }
  }

  lemma DecodeToken(s: string, b: Byte, k: nat, bytes: seq<Byte>)
    requires s != "" && Token(s) == Some((b, k)) && PercentDecode(s[k..]) == Some(bytes)
    ensures PercentDecode(s) == Some([b] + bytes)
  {}

  lemma EscapeDecodes(b: Byte, s: string, bytes: seq<Byte>)
    requires PercentDecode(s) == Some(bytes)
    ensures PercentDecode(Escape(b) + s) == Some([b] + bytes)
  {
    EscapeToken(b, s);
    assert (Escape(b) + s)[|Escape(b)|..] == s;
    DecodeToken(Escape(b) + s, b, |Escape(b)|, bytes);
  }

  lemma EncodeLast(bytes: seq<Byte>, b: Byte, s: string)
    ensures PercentEncode(bytes + [b]) + s == PercentEncode(bytes) + (Escape(b) + s)
  {
    assert (bytes + [b])[..|bytes|] == bytes;
  }

  lemma Rejoin(bytes: seq<Byte>, n: nat, after: seq<Byte>)
    requires |bytes| == n + 1
    ensures bytes[..n] + [bytes[n]] == bytes && bytes[..n] + ([bytes[n]] + after) == bytes + after
  {}

  lemma {:induction false} PercentDecodesBefore(bytes: seq<Byte>, s: string, after: seq<Byte>)
    requires PercentDecode(s) == Some(after)
    ensures PercentDecode(PercentEncode(bytes) + s) == Some(bytes + after)
  {
    if bytes == [] {
      assert PercentEncode(bytes) + s == s && bytes + after == after;
    } else {
      var n := |bytes| - 1;
      EscapeDecodes(bytes[n], s, after);
      PercentDecodesBefore(bytes[..n], Escape(bytes[n]) + s, [bytes[n]] + after);
      EncodeLast(bytes[..n], bytes[n], s);
      Rejoin(bytes, n, after);
    }
  }

  /**
   * Round trip: the strict decoder, which accepts only unreserved characters and uppercase
   * triplets, accepts every output and gives back the input.
   */
  lemma PercentRoundTrip(bytes: seq<Byte>)
    ensures PercentDecode(PercentEncode(bytes)) == Some(bytes)
  {
    PercentDecodesBefore(bytes, "", []);
    assert PercentEncode(bytes) + "" == PercentEncode(bytes) && bytes + [] == bytes;
  }

  /** Distinct ids give distinct path segments. */
  lemma PercentInjective(a: seq<Byte>, b: seq<Byte>)
    ensures PercentEncode(a) == PercentEncode(b) <==> a == b
  {
    PercentRoundTrip(a);
    PercentRoundTrip(b);
  }

  /** Every unreserved byte stands for itself, and every other becomes a triplet: the output is as long as the input exactly when all are unreserved. */
  lemma {:induction false} PercentLength(bytes: seq<Byte>)
    ensures |bytes| <= |PercentEncode(bytes)| <= 3 * |bytes|
    ensures |PercentEncode(bytes)| == |bytes| <==> forall i :: 0 <= i < |bytes| ==> Unreserved(bytes[i])
  {
    if bytes != [] {
      var n := |bytes| - 1;
      PercentLength(bytes[..n]);
      assert forall i :: 0 <= i < n ==> bytes[..n][i] == bytes[i];
    }
  }

  /** A segment never contains a separator: no slash, hash, question mark or space survives. */
  lemma {:induction false} PercentIsOneSegment(bytes: seq<Byte>, i: nat)
    requires i < |PercentEncode(bytes)|
    ensures PercentEncode(bytes)[i] !in "/#? "
  {
    var n := |bytes| - 1;
    if i < |PercentEncode(bytes[..n])| {
      PercentIsOneSegment(bytes[..n], i);
    } else {
      assert PercentEncode(bytes)[i] == Escape(bytes[n])[i - |PercentEncode(bytes[..n])|];
    }
  }
}
