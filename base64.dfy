/**
 * Base64 as section 4 of RFC 4648 defines it: the 64-symbol alphabet
 * "A".."Z", "a".."z", "0".."9", "+", "/", each 3-byte group written as four
 * symbols, and a final group of one or two bytes padded with "=".
 * `Decode` is the inverse used to state what `Encode` preserves.
 */
module Base64 {
  import opened Wrappers

  type byte = x: int | 0 <= x < 256
  type sextet = x: int | 0 <= x < 64

  /** The symbol for a 6-bit value (Table 1 of RFC 4648). */
  function Symbol(v: sextet): char
  {
    if v < 26 then ('A' as int + v) as char
    else if v < 52 then ('a' as int + (v - 26)) as char
    else if v < 62 then ('0' as int + (v - 52)) as char
    else if v == 62 then '+'
    else '/'
  }

  /** The 6-bit value of an alphabet symbol; `None` for any other character, "=" included. */
  function SymbolValue(c: char): Option<sextet>
  {
    if 'A' <= c <= 'Z' then Some(c as int - 'A' as int)
    else if 'a' <= c <= 'z' then Some(c as int - 'a' as int + 26)
    else if '0' <= c <= '9' then Some(c as int - '0' as int + 52)
    else if c == '+' then Some(62)
    else if c == '/' then Some(63)
    else None
  }

  predicate InAlphabet(c: char)
  {
    SymbolValue(c).Some?
  }

  lemma SymbolValueOfSymbol(v: sextet)
    ensures SymbolValue(Symbol(v)) == Some(v)
  {
  }

  /** The four symbols of a full 3-byte group. */
  function Group(x: byte, y: byte, z: byte): string
  {
    [Symbol(x / 4), Symbol(x % 4 * 16 + y / 16), Symbol(y % 16 * 4 + z / 64), Symbol(z % 64)]
  }

  /**
   * The Base64 text of a byte string: every 3 bytes become 4 symbols, and the
   * output is always padded to a multiple of four characters.
   */
  function Encode(b: seq<byte>): (s: string)
    ensures |s| == 4 * ((|b| + 2) / 3)
    decreases |b|
  {
    if |b| == 0 then ""
    else if |b| == 1 then [Symbol(b[0] / 4), Symbol(b[0] % 4 * 16), '=', '=']
    else if |b| == 2 then [Symbol(b[0] / 4), Symbol(b[0] % 4 * 16 + b[1] / 16), Symbol(b[1] % 16 * 4), '=']
    else Group(b[0], b[1], b[2]) + Encode(b[3..])
  }

  /**
   * Base64 text back to bytes; `None` for text that no byte string encodes to
   * (a length that is not a multiple of four, a foreign character, misplaced
   * padding, or non-zero bits under the padding).
   */
  function Decode(s: string): (r: Option<seq<byte>>)
    decreases |s|
  {
    if |s| == 0 then Some([])
    else if |s| < 4 then None
    else
      var va, vb, vc, vd := SymbolValue(s[0]), SymbolValue(s[1]), SymbolValue(s[2]), SymbolValue(s[3]);
      if va.None? || vb.None? then None
      else
        var a, b := va.value as int, vb.value as int;
        if |s| == 4 && s[2] == '=' && s[3] == '=' then
          if b % 16 == 0 then Some([a * 4 + b / 16]) else None
        else if vc.None? then None
        else
          var c := vc.value as int;
          if |s| == 4 && s[3] == '=' then
            if c % 4 == 0 then Some([a * 4 + b / 16, b % 16 * 16 + c / 4]) else None
          else if vd.None? then None
          else
            var d := vd.value as int;
            match Decode(s[4..])
            case Some(rest) => Some([a * 4 + b / 16, b % 16 * 16 + c / 4, c % 4 * 64 + d] + rest)
            case None => None
  }

  /** The bytes a full group's symbols carry are the bytes of the group. */
  lemma GroupBits(x: byte, y: byte, z: byte)
    ensures (x / 4) * 4 + (x % 4 * 16 + y / 16) / 16 == x
    ensures (x % 4 * 16 + y / 16) % 16 * 16 + (y % 16 * 4 + z / 64) / 4 == y
    ensures (y % 16 * 4 + z / 64) % 4 * 64 + z % 64 == z
  {
  }

  lemma DecodeOneByte(x: byte)
    ensures Decode(Encode([x])) == Some([x])
  {
    SymbolValueOfSymbol(x / 4);
    SymbolValueOfSymbol(x % 4 * 16);
    GroupBits(x, 0, 0);
  }

  lemma DecodeTwoBytes(x: byte, y: byte)
    ensures Decode(Encode([x, y])) == Some([x, y])
  {
    var s := Encode([x, y]);
    SymbolValueOfSymbol(x / 4);
    SymbolValueOfSymbol(x % 4 * 16 + y / 16);
    SymbolValueOfSymbol(y % 16 * 4);
    GroupBits(x, y, 0);
    assert s[2] != '=';
  }

  /** A full group in front of any Base64 text decodes to its three bytes in front. */
  lemma DecodeGroup(x: byte, y: byte, z: byte, t: string)
    ensures Decode(Group(x, y, z) + t) ==
            match Decode(t) case Some(rest) => Some([x, y, z] + rest) case None => None
  {
    var s := Group(x, y, z) + t;
    SymbolValueOfSymbol(x / 4);
    SymbolValueOfSymbol(x % 4 * 16 + y / 16);
    SymbolValueOfSymbol(y % 16 * 4 + z / 64);
    SymbolValueOfSymbol(z % 64);
    GroupBits(x, y, z);
    assert s[2] != '=' && s[3] != '=';
    assert s[4..] == t;
  }

  /** Decoding undoes encoding, for every byte string. */
  lemma {:induction false} DecodeEncode(b: seq<byte>)
    ensures Decode(Encode(b)) == Some(b)
    decreases |b|
  {
    if |b| == 1 {
      assert b == [b[0]];
      DecodeOneByte(b[0]);
    } else if |b| == 2 {
      assert b == [b[0], b[1]];
      DecodeTwoBytes(b[0], b[1]);
    } else if |b| >= 3 {
      DecodeEncode(b[3..]);
      DecodeGroup(b[0], b[1], b[2], Encode(b[3..]));
      assert [b[0], b[1], b[2]] + b[3..] == b;
    }
  }

  /** Two byte strings with the same Base64 text are the same byte string. */
  lemma EncodeInjective(a: seq<byte>, b: seq<byte>)
    requires Encode(a) == Encode(b)
    ensures a == b
  {
    DecodeEncode(a);
    DecodeEncode(b);
  }

  /**
   * Every character of the output is an alphabet symbol, except "=" which
   * appears only in the last two positions.
   */
  lemma {:induction false} EncodeAlphabet(b: seq<byte>)
    ensures forall i :: 0 <= i < |Encode(b)| ==>
              InAlphabet(Encode(b)[i]) || (Encode(b)[i] == '=' && i >= |Encode(b)| - 2)
    decreases |b|
  {
    var s := Encode(b);
    if |b| == 1 {
      SymbolValueOfSymbol(b[0] / 4);
      SymbolValueOfSymbol(b[0] % 4 * 16);
    } else if |b| == 2 {
      SymbolValueOfSymbol(b[0] / 4);
      SymbolValueOfSymbol(b[0] % 4 * 16 + b[1] / 16);
      SymbolValueOfSymbol(b[1] % 16 * 4);
    } else if |b| >= 3 {
      SymbolValueOfSymbol(b[0] / 4);
      SymbolValueOfSymbol(b[0] % 4 * 16 + b[1] / 16);
      SymbolValueOfSymbol(b[1] % 16 * 4 + b[2] / 64);
      SymbolValueOfSymbol(b[2] % 64);
      EncodeAlphabet(b[3..]);
      var t := Encode(b[3..]);
      assert s == Group(b[0], b[1], b[2]) + t;
      forall i | 0 <= i < |s|
        ensures InAlphabet(s[i]) || (s[i] == '=' && i >= |s| - 2)
      {
        if i >= 4 {
          assert s[i] == t[i - 4];
        }
      }
    }
  }

  /** The test vectors of section 10 of RFC 4648 ("f", "fo", "foo", "foob", "foobar"). */
  lemma Rfc4648Vectors()
    ensures Encode([]) == ""
    ensures Encode([102]) == "Zg=="
    ensures Encode([102, 111]) == "Zm8="
    ensures Encode([102, 111, 111]) == "Zm9v"
    ensures Encode([102, 111, 111, 98]) == "Zm9vYg=="
    ensures Encode([102, 111, 111, 98, 97]) == "Zm9vYmE="
    ensures Encode([102, 111, 111, 98, 97, 114]) == "Zm9vYmFy"
  {
  }
}
