/**
 * The `application/x-www-form-urlencoded` serialisation `URLSearchParams`
 * applies to every name and value when `toString` builds a query string:
 * the text is taken as UTF-8 bytes; a space becomes `+`; ASCII letters,
 * digits and `*-._` stay as they are; every other byte becomes `%` and two
 * upper-case hex digits. The partner is the decoding a server applies to
 * the query (`+` is a space, `%XX` a byte, any other character its UTF-8
 * bytes), which gives back the bytes that were encoded.
 */
module FormEncoding {
  import opened Strings

  type Byte = b: int | 0 <= b < 0x100

  /** The UTF-8 encoding of one Unicode scalar value; the lead byte says how many bytes follow, and they decode back to the value. */
  function Utf8(c: char): (r: seq<Byte>)
    ensures 1 <= |r| <= 4 && LeadLength(r[0]) == |r|
    ensures ScalarOf(r) == c as int
    ensures |r| == 1 <==> c as int < 0x80
  {
    var n := c as int;
    if n < 0x80 then [n]
    else if n < 0x800 then
      var q, m := n / 0x40, n % 0x40;
      assert 2 <= q < 0x20 && q * 0x40 + m == n;
      [0xC0 + q, 0x80 + m]
    else if n < 0x1_0000 then
      var q, m := n / 0x40, n % 0x40;
      var q2, m2 := q / 0x40, q % 0x40;
      assert q2 < 0x10 && q2 * 0x1000 + m2 * 0x40 + m == n by {
        assert q * 0x40 + m == n && q2 * 0x40 + m2 == q;
      }
      [0xE0 + q2, 0x80 + m2, 0x80 + m]
    else
      var q, m := n / 0x40, n % 0x40;
      var q2, m2 := q / 0x40, q % 0x40;
      var q3, m3 := q2 / 0x40, q2 % 0x40;
      assert q3 <= 4 && q3 * 0x40000 + m3 * 0x1000 + m2 * 0x40 + m == n by {
        assert q * 0x40 + m == n && q2 * 0x40 + m2 == q && q3 * 0x40 + m3 == q2;
      }
      [0xF0 + q3, 0x80 + m3, 0x80 + m2, 0x80 + m]
  }

  /** How many bytes a UTF-8 sequence starting with lead byte `b` has. */
  function LeadLength(b: Byte): nat
  {
    if b < 0x80 then 1 else if b < 0xE0 then 2 else if b < 0xF0 then 3 else 4
  }

  /** The scalar value one to four UTF-8 bytes stand for. */
  function ScalarOf(bs: seq<Byte>): int
    requires 1 <= |bs| <= 4
  {
    var b := seq(|bs|, i requires 0 <= i < |bs| => bs[i] as int);
    if |b| == 1 then b[0]
    else if |b| == 2 then (b[0] - 0xC0) * 0x40 + (b[1] - 0x80)
    else if |b| == 3 then (b[0] - 0xE0) * 0x1000 + (b[1] - 0x80) * 0x40 + (b[2] - 0x80)
    else (b[0] - 0xF0) * 0x40000 + (b[1] - 0x80) * 0x1000 + (b[2] - 0x80) * 0x40 + (b[3] - 0x80)
  }

  /** The UTF-8 bytes of a string, character by character. */
  function Utf8String(s: string): (r: seq<Byte>)
    ensures |r| >= |s|
  {
    if s == [] then [] else Utf8(s[0]) + Utf8String(s[1..])
  }

  lemma {:induction false} Utf8StringAppend(s: string, t: string)
    ensures Utf8String(s + t) == Utf8String(s) + Utf8String(t)
  {
    if s != [] {
      assert (s + t)[0] == s[0] && (s + t)[1..] == s[1..] + t;
      Utf8StringAppend(s[1..], t);
      calc {
        Utf8String(s + t);
        Utf8(s[0]) + Utf8String(s[1..] + t);
        Utf8(s[0]) + (Utf8String(s[1..]) + Utf8String(t));
        (Utf8(s[0]) + Utf8String(s[1..])) + Utf8String(t);
      }
    } else {
      assert s + t == t;
    }
  }

  /** Different strings have different UTF-8 bytes: the lead byte fixes each character's length, and its bytes fix its value. */
  lemma {:induction false} Utf8StringInjective(s: string, t: string)
    requires Utf8String(s) == Utf8String(t)
    ensures s == t
  {
    if s != [] && t != [] {
      var a, b := Utf8(s[0]), Utf8(t[0]);
      var u := Utf8String(s);
      assert u == a + Utf8String(s[1..]) && u == b + Utf8String(t[1..]);
      assert u[0] == a[0] && u[0] == b[0];
      assert |a| == |b|;
      assert a == u[..|a|] == b;
      assert s[0] as int == t[0] as int;
      assert Utf8String(s[1..]) == u[|a|..] == Utf8String(t[1..]);
      Utf8StringInjective(s[1..], t[1..]);
      assert s == [s[0]] + s[1..] && t == [t[0]] + t[1..];
    }
  }

  /** A byte the serialiser leaves as it is: an ASCII letter or digit, or one of `*`, `-`, `.`, `_`. */
  predicate Unreserved(b: Byte)
  {
    (0x30 <= b <= 0x39) || (0x41 <= b <= 0x5A) || (0x61 <= b <= 0x7A) || b == 0x2A || b == 0x2D || b == 0x2E || b == 0x5F
  }

  /** An upper-case hex digit. */
  function HexDigit(v: nat): (c: char)
    requires v < 16
    ensures IsRadixDigit(c, 16) && DigitValue(c) == v
    ensures Unreserved(c as int)
  {
    if v < 10 then ('0' as int + v) as char else ('A' as int + v - 10) as char
  }

  /** One byte serialised. */
  function EncodeByte(b: Byte): (r: string)
  {
    if b == 0x20 then "+"
    else if Unreserved(b) then [b as char]
    else ['%', HexDigit(b / 16), HexDigit(b % 16)]
  }

  /** A character the serialiser can write: an unreserved one, `+` or `%`. None of `&`, `=`, `#` or a space is among them. */
  predicate SafeChar(c: char)
  {
    (c as int < 0x80 && Unreserved(c as int)) || c == '+' || c == '%'
  }

  function EncodeBytes(bs: seq<Byte>): (r: string)
  {
    if bs == [] then "" else EncodeByte(bs[0]) + EncodeBytes(bs[1..])
  }

  /** The serialiser writes safe characters only. */
  lemma {:induction false} EncodeBytesSafe(bs: seq<Byte>)
    ensures forall i :: 0 <= i < |EncodeBytes(bs)| ==> SafeChar(EncodeBytes(bs)[i])
  {
    if bs != [] {
      EncodeBytesSafe(bs[1..]);
      var e, r := EncodeByte(bs[0]), EncodeBytes(bs[1..]);
      assert forall i :: 0 <= i < |e| ==> SafeChar(e[i]);
      assert forall i :: 0 <= i < |e + r| ==> (e + r)[i] == if i < |e| then e[i] else r[i - |e|];
    }
  }

  lemma {:induction false} EncodeBytesAppend(a: seq<Byte>, b: seq<Byte>)
    ensures EncodeBytes(a + b) == EncodeBytes(a) + EncodeBytes(b)
  {
    if a != [] {
      assert (a + b)[0] == a[0] && (a + b)[1..] == a[1..] + b;
      EncodeBytesAppend(a[1..], b);
    } else {
      assert a + b == b;
    }
  }

  /** The server's decoding of a query component into bytes: `+` is a space, `%XX` the byte `XX`, any other character its UTF-8 bytes. */
  function DecodeBytes(r: string): seq<Byte>
    decreases |r|
  {
    if r == [] then []
    else if r[0] == '+' then [0x20] + DecodeBytes(r[1..])
    else if r[0] == '%' && |r| >= 3 && IsRadixDigit(r[1], 16) && IsRadixDigit(r[2], 16) then
      [DigitValue(r[1]) * 16 + DigitValue(r[2])] + DecodeBytes(r[3..])
    else Utf8(r[0]) + DecodeBytes(r[1..])
  }

  lemma DecodeEncodeByte(b: Byte, t: string)
    ensures DecodeBytes(EncodeByte(b) + t) == [b] + DecodeBytes(t)
  {
    var r := EncodeByte(b) + t;
    if b == 0x20 {
      assert r[0] == '+' && r[1..] == t;
    } else if Unreserved(b) {
      assert r[0] == b as char && r[1..] == t;
    } else {
      assert r[0] == '%' && r[1] == HexDigit(b / 16) && r[2] == HexDigit(b % 16) && r[3..] == t;
    }
  }

  lemma {:induction false} DecodeEncodeBytes(bs: seq<Byte>)
    ensures DecodeBytes(EncodeBytes(bs)) == bs
  {
    if bs != [] {
      DecodeEncodeByte(bs[0], EncodeBytes(bs[1..]));
      DecodeEncodeBytes(bs[1..]);
      assert bs == [bs[0]] + bs[1..];
    }
  }

  /** `URLSearchParams`' serialisation of one name or value. */
  function FormEncode(s: string): string
  {
    EncodeBytes(Utf8String(s))
  }

  /** No `&`, `=`, `#` or space appears in a serialised text: only unreserved characters, `+` and `%` do. */
  lemma FormEncodeSafe(s: string)
    ensures forall i :: 0 <= i < |FormEncode(s)| ==> SafeChar(FormEncode(s)[i])
  {
    EncodeBytesSafe(Utf8String(s));
  }

  /** Decoding the serialised text gives back the UTF-8 bytes of the original. */
  lemma FormEncodeDecodes(s: string)
    ensures DecodeBytes(FormEncode(s)) == Utf8String(s)
  {
    DecodeEncodeBytes(Utf8String(s));
  }

  /** Different texts serialise differently. */
  lemma FormEncodeInjective(s: string, t: string)
    ensures FormEncode(s) == FormEncode(t) <==> s == t
  {
    if FormEncode(s) == FormEncode(t) {
      FormEncodeDecodes(s);
      FormEncodeDecodes(t);
      Utf8StringInjective(s, t);
    }
  }

  /** The serialisation of a concatenation is the concatenation of the serialisations. */
  lemma FormEncodeAppend(s: string, t: string)
    ensures FormEncode(s + t) == FormEncode(s) + FormEncode(t)
  {
    Utf8StringAppend(s, t);
    EncodeBytesAppend(Utf8String(s), Utf8String(t));
  }

  /** Text made of unreserved ASCII characters only is serialised as it stands. */
  lemma {:induction false} FormEncodeUnreserved(s: string)
    requires forall i :: 0 <= i < |s| ==> s[i] as int < 0x80 && Unreserved(s[i] as int)
    ensures FormEncode(s) == s
  {
    if s != [] {
      FormEncodeUnreserved(s[1..]);
      assert Utf8(s[0]) == [s[0] as int];
      assert EncodeBytes(Utf8String(s)) == EncodeBytes([s[0] as int] + Utf8String(s[1..]));
      EncodeBytesAppend([s[0] as int], Utf8String(s[1..]));
      assert EncodeBytes([s[0] as int]) == [s[0]] by {
        assert [s[0] as int][1..] == [];
      }
      assert s == [s[0]] + s[1..];
    }
  }

  /** A space is written as `+`, and `&` as `%26`, so neither can end a component early. */
  lemma FormEncodeSeparators()
    ensures FormEncode(" ") == "+"
    ensures FormEncode("&") == "%26"
  {
    assert Utf8String(" ") == [0x20] by {
      assert " "[1..] == [];
    }
    assert EncodeBytes([0x20]) == "+" by {
      assert [0x20][1..] == [];
    }
    assert Utf8String("&") == [0x26] by {
      assert "&"[1..] == [];
    }
    assert EncodeBytes([0x26]) == "%26" by {
      assert [0x26][1..] == [];
      assert EncodeByte(0x26) == ['%', HexDigit(2), HexDigit(6)];
    }
  }

  /** Two unreserved words with a space between them are sent with `+` for the space. */
  lemma FormEncodeSpaced(a: string, b: string)
    requires forall i :: 0 <= i < |a| ==> a[i] as int < 0x80 && Unreserved(a[i] as int)
    requires forall i :: 0 <= i < |b| ==> b[i] as int < 0x80 && Unreserved(b[i] as int)
    ensures FormEncode(a + " " + b) == a + "+" + b
  {
    assert FormEncode(a + " ") == a + "+" by {
      FormEncodeAppend(a, " ");
      FormEncodeUnreserved(a);
      FormEncodeSeparators();
    }
    FormEncodeAppend(a + " ", b);
    FormEncodeUnreserved(b);
  }

  /** `"First Aid"` is sent as `First+Aid`. */
  lemma FormEncodeFirstAid()
    ensures FormEncode("First Aid") == "First+Aid"
  {
    var a, b := "First", "Aid";
    FormEncodeSpaced(a, b);
    assert a + " " + b == "First Aid";
    assert a + "+" + b == "First+Aid";
  }
}
