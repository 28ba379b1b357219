/**
 * Base64 as defined in section 4 of RFC 4648: Python's `base64.b64encode`, and the strict
 * (canonical-input) reading of `base64.b64decode`.
 *
 * Both directions go through a sequence of symbols: a 6-bit value 0..63, or PAD for `=`.
 * Bytes and symbols are related by arithmetic alone, symbols and characters by the alphabet
 * table alone.
 */
module Base64 {
  import opened Wrappers
  import opened Bytes

  /** The symbol standing for the padding character `=`. */
  const PAD: nat := 64

  predicate IsAlphabet(c: char) {
    ('A' <= c <= 'Z') || ('a' <= c <= 'z') || ('0' <= c <= '9') || c == '+' || c == '/'
  }

  /** The character for a 6-bit value (RFC 4648, section 4, table 1). */
  function CharOf(i: nat): (c: char)
    requires i < 64
    ensures IsAlphabet(c)
  {
    if i < 26 then ('A' as int + i) as char
    else if i < 52 then ('a' as int + (i - 26)) as char
    else if i < 62 then ('0' as int + (i - 52)) as char
    else if i == 62 then '+'
    else '/'
  }

  /** The 6-bit value of an alphabet character; the inverse of CharOf. */
  function ValueOf(c: char): (i: nat)
    requires IsAlphabet(c)
    ensures i < 64 && CharOf(i) == c
  {
    if 'A' <= c <= 'Z' then c as int - 'A' as int
    else if 'a' <= c <= 'z' then c as int - 'a' as int + 26
    else if '0' <= c <= '9' then c as int - '0' as int + 52
    else if c == '+' then 62
    else 63
  }

  lemma ValueOfCharOf(i: nat)
    requires i < 64
    ensures ValueOf(CharOf(i)) == i
  {
  }

  predicate IsSymbol(x: nat) {
    x <= PAD
  }

  predicate IsSymbols(x: seq<nat>) {
    forall i :: 0 <= i < |x| ==> IsSymbol(x[i])
  }

  predicate IsSymbolChar(c: char) {
    IsAlphabet(c) || c == '='
  }

  predicate IsSymbolText(s: string) {
    forall i :: 0 <= i < |s| ==> IsSymbolChar(s[i])
  }

  function SymbolChar(x: nat): (c: char)
    requires IsSymbol(x)
    ensures IsSymbolChar(c)
    ensures c == '=' <==> x == PAD
  {
    if x == PAD then '=' else CharOf(x)
  }

  function CharSymbol(c: char): (x: nat)
    requires IsSymbolChar(c)
    ensures IsSymbol(x) && SymbolChar(x) == c
  {
    if c == '=' then PAD else ValueOf(c)
  }

  /** Writes symbols as characters. */
  function Chars(x: seq<nat>): (s: string)
    requires IsSymbols(x)
    ensures |s| == |x| && IsSymbolText(s)
    ensures forall i :: 0 <= i < |x| ==> s[i] == SymbolChar(x[i])
  {
    if |x| == 0 then "" else [SymbolChar(x[0])] + Chars(x[1..])
  }

  /** Reads characters as symbols. */
  function Symbols(s: string): (x: seq<nat>)
    requires IsSymbolText(s)
    ensures |x| == |s| && IsSymbols(x)
    ensures forall i :: 0 <= i < |s| ==> x[i] == CharSymbol(s[i])
  {
    if |s| == 0 then [] else [CharSymbol(s[0])] + Symbols(s[1..])
  }

  /** Number of `=` characters that pad the encoding of `n` bytes. */
  function PadLength(n: nat): nat {
    (3 - n % 3) % 3
  }

  /**
   * The symbols of an encoding: each group of three bytes becomes four 6-bit values; a final
   * group of one or two bytes is completed with zero bits and padded with two or one PAD.
   */
  function Sextets(b: seq<byte>): (x: seq<nat>)
    ensures |x| == (|b| + 2) / 3 * 4
    ensures IsSymbols(x)
    decreases |b|
  {
    if |b| == 0 then []
    else if |b| == 1 then [b[0] / 4, b[0] % 4 * 16, PAD, PAD]
    else if |b| == 2 then [b[0] / 4, b[0] % 4 * 16 + b[1] / 16, b[1] % 16 * 4, PAD]
    else [b[0] / 4, b[0] % 4 * 16 + b[1] / 16, b[1] % 16 * 4 + b[2] / 64, b[2] % 64] + Sextets(b[3..])
  }

  /** `base64.b64encode`. */
  function Encode(b: seq<byte>): (s: string)
    ensures |s| == (|b| + 2) / 3 * 4
  {
    Chars(Sextets(b))
  }

  /** The three bytes carried by a quantum of four 6-bit values. */
  function DecodeQuantum(q: seq<nat>): (r: Option<seq<byte>>)
    requires |q| == 4
    ensures r.Some? ==> |r.value| == 3
  {
    if q[0] < 64 && q[1] < 64 && q[2] < 64 && q[3] < 64 then
      Some([q[0] * 4 + q[1] / 16, q[1] % 16 * 16 + q[2] / 4, q[2] % 4 * 64 + q[3]])
    else None
  }

  /** The last quantum, which may end in one or two PAD; the unused bits must be zero. */
  function DecodeLast(q: seq<nat>): (r: Option<seq<byte>>)
    requires |q| == 4
    ensures r.Some? ==> 1 <= |r.value| <= 3
  {
    if q[2] == PAD && q[3] == PAD then
      if q[0] < 64 && q[1] < 64 && q[1] % 16 == 0 then Some([q[0] * 4 + q[1] / 16]) else None
    else if q[3] == PAD then
      if q[0] < 64 && q[1] < 64 && q[2] < 64 && q[2] % 4 == 0 then
        Some([q[0] * 4 + q[1] / 16, q[1] % 16 * 16 + q[2] / 4])
      else None
    else DecodeQuantum(q)
  }

  /** Bytes from symbols: whole quanta, padding only in the last one. */
  function DecodeSymbols(x: seq<nat>): (r: Option<seq<byte>>)
    decreases |x|
  {
    if |x| == 0 then Some([])
    else if |x| % 4 != 0 then None
    else if |x| == 4 then DecodeLast(x)
    else match DecodeQuantum(x[..4])
      case None => None
      case Some(head) =>
        match DecodeSymbols(x[4..])
        case None => None
        case Some(tail) => Some(head + tail)
  }

  /**
   * Decoding of canonical Base64 text: a multiple of four alphabet characters, padding only in
   * the last quantum, zero padding bits. Anything else is None. Python's non-strict `b64decode`
   * agrees on canonical text and raises binascii.Error on some other text, but it also accepts
   * some text this decoder refuses: characters outside the alphabet are discarded, non-zero pad
   * bits are ignored, decoding stops after the first padded quantum, and a `=` before a data
   * character is skipped.
   */
  function Decode(s: string): (r: Option<seq<byte>>)
  {
    if IsSymbolText(s) then DecodeSymbols(Symbols(s)) else None
  }

  lemma {:induction false} SymbolsOfChars(x: seq<nat>)
    requires IsSymbols(x)
    ensures Symbols(Chars(x)) == x
  {
    var s := Chars(x);
    forall i | 0 <= i < |x| ensures Symbols(s)[i] == x[i] {
      if x[i] != PAD {
        ValueOfCharOf(x[i]);
      }
    }
  }

  lemma CharsOfSymbols(s: string)
    requires IsSymbolText(s)
    ensures Chars(Symbols(s)) == s
  {
  }

  /** The arithmetic half of the round trip: the symbols of `b` decode to `b`. */
  lemma {:induction false} DecodeSextets(b: seq<byte>)
    ensures DecodeSymbols(Sextets(b)) == Some(b)
    decreases |b|
  {
    var x := Sextets(b);
    if |b| == 1 {
      assert [b[0]] == b;
    } else if |b| == 2 {
      assert [b[0], b[1]] == b;
    } else if |b| == 3 {
      assert x == [b[0] / 4, b[0] % 4 * 16 + b[1] / 16, b[1] % 16 * 4 + b[2] / 64, b[2] % 64];
      assert [b[0], b[1], b[2]] == b;
    } else if |b| > 3 {
      DecodeSextets(b[3..]);
      assert x[..4] == [b[0] / 4, b[0] % 4 * 16 + b[1] / 16, b[1] % 16 * 4 + b[2] / 64, b[2] % 64];
      assert x[4..] == Sextets(b[3..]);
      assert b == [b[0], b[1], b[2]] + b[3..];
    }
  }

  /** A quantum that decodes re-encodes to itself. */
  lemma QuantumRoundTrip(q: seq<nat>)
    requires |q| == 4 && DecodeQuantum(q).Some?
    ensures Sextets(DecodeQuantum(q).value) == q
  {
    var b := DecodeQuantum(q).value;
    assert Sextets(b[3..]) == [];
  }

  lemma LastRoundTrip(q: seq<nat>)
    requires |q| == 4 && DecodeLast(q).Some?
    ensures Sextets(DecodeLast(q).value) == q
  {
    if q[3] != PAD {
      QuantumRoundTrip(q);
    }
  }

  /** Four symbols written out character by character are the encoding of the bytes they come from. */
  lemma EncodeQuantum(g: seq<byte>, x: seq<nat>, s: string)
    requires Sextets(g) == x && |x| == 4 && |s| == 4
    requires forall i :: 0 <= i < 4 ==> IsSymbol(x[i]) && s[i] == SymbolChar(x[i])
    ensures Encode(g) == s
  {
  }

  /** The arithmetic half of canonicity: symbols that decode are the symbols of what they decode to. */
  lemma {:induction false} SextetsDecode(x: seq<nat>)
    requires DecodeSymbols(x).Some?
    ensures Sextets(DecodeSymbols(x).value) == x
    decreases |x|
  {
    if |x| == 4 {
      LastRoundTrip(x);
    } else if |x| > 4 {
      var head := DecodeQuantum(x[..4]).value;
      var tail := DecodeSymbols(x[4..]).value;
      QuantumRoundTrip(x[..4]);
      SextetsDecode(x[4..]);
      assert (head + tail)[3..] == tail;
      assert Sextets(head + tail) == Sextets(head)[..4] + Sextets(tail) by {
        assert Sextets(head[3..]) == [];
      }
      assert x == x[..4] + x[4..];
    }
  }

  /** Decoding inverts encoding, for every byte string. */
  lemma DecodeEncode(b: seq<byte>)
    ensures Decode(Encode(b)) == Some(b)
  {
    SymbolsOfChars(Sextets(b));
    DecodeSextets(b);
  }

  /** Only canonical text decodes: what decodes re-encodes to exactly the same text. */
  lemma EncodeDecode(s: string)
    requires Decode(s).Some?
    ensures Encode(Decode(s).value) == s
  {
    SextetsDecode(Symbols(s));
    CharsOfSymbols(s);
  }

  /** The symbols of an encoding: 6-bit values, then PadLength padding symbols. */
  lemma {:induction false} SextetsShape(b: seq<byte>)
    ensures forall i :: 0 <= i < |Sextets(b)| - PadLength(|b|) ==> Sextets(b)[i] < 64
    ensures forall i :: |Sextets(b)| - PadLength(|b|) <= i < |Sextets(b)| ==> Sextets(b)[i] == PAD
    decreases |b|
  {
    if |b| > 2 {
      SextetsShape(b[3..]);
      assert PadLength(|b|) == PadLength(|b| - 3);
      forall i | 4 <= i < |Sextets(b)| ensures Sextets(b)[i] == Sextets(b[3..])[i - 4] {
      }
    }
  }

  /**
   * The shape of an encoding: alphabet characters, then `PadLength` padding characters, so a
   * 20-byte SHA-1 digest encodes to 27 characters and one `=`, and 16 bytes to 22 and `==`.
   */
  lemma EncodeShape(b: seq<byte>)
    ensures forall i :: 0 <= i < |Encode(b)| - PadLength(|b|) ==> IsAlphabet(Encode(b)[i])
    ensures forall i :: |Encode(b)| - PadLength(|b|) <= i < |Encode(b)| ==> Encode(b)[i] == '='
  {
    SextetsShape(b);
  }

  /** Whole groups of three bytes are encoded independently of what follows them. */
  lemma {:induction false} SextetsAppend(a: seq<byte>, b: seq<byte>)
    requires |a| % 3 == 0
    ensures Sextets(a + b) == Sextets(a) + Sextets(b)
    decreases |a|
  {
    if |a| == 0 {
      assert a + b == b;
    } else {
      assert (a + b)[3..] == a[3..] + b;
      SextetsAppend(a[3..], b);
    }
  }

  lemma {:induction false} CharsAppend(x: seq<nat>, y: seq<nat>)
    requires IsSymbols(x) && IsSymbols(y)
    ensures IsSymbols(x + y) && Chars(x + y) == Chars(x) + Chars(y)
  {
    assert IsSymbols(x + y) by {
      forall i | 0 <= i < |x + y| ensures IsSymbol((x + y)[i]) {
        if i < |x| { assert (x + y)[i] == x[i]; } else { assert (x + y)[i] == y[i - |x|]; }
      }
    }
  }

  /** So the encoding of a concatenation whose first part is whole groups is the concatenation. */
  lemma EncodeAppend(a: seq<byte>, b: seq<byte>)
    requires |a| % 3 == 0
    ensures Encode(a + b) == Encode(a) + Encode(b)
  {
    SextetsAppend(a, b);
    CharsAppend(Sextets(a), Sextets(b));
  }
}
