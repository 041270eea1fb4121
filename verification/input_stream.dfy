/**
 * The reader the tools' loaders use. kwl_inputstream.c is not part of this model: the
 * reader here is assumed to undo FileOutputStream's encodings, taking bytes from the
 * front of what is left of the file. A read past the end of the file gives None.
 */
module InputStream {
  import opened Wrappers
  import opened FileOutputStream

  /** readIntBE: four big-endian bytes as a signed 32-bit int. */
  function ReadIntBE(s: seq<Byte>): (r: Option<(int, seq<Byte>)>)
    ensures r.Some? <==> |s| >= 4
    ensures r.Some? ==> IsInt32(r.value.0) && Int32BE(r.value.0) == s[..4] && r.value.1 == s[4..]
  {
    if |s| < 4 then None
    else
      var v := Signed32(BigEndianValue(s[..4]));
      Int32BEInjective(v, s[..4]);
      Some((v, s[4..]))
  }

  /** The four bytes that spell `v % 2^32` are the bytes Int32BE(v) emits. */
  lemma Int32BEInjective(v: int, b: seq<Byte>)
    requires |b| == 4 && BigEndianValue(b) == v % TWO_TO_32
    ensures Int32BE(v) == b
  {
    var e := Int32BE(v);
    var u := v % TWO_TO_32;
    assert e[0] as int == b[0] as int;
    assert e[1] as int == b[1] as int;
    assert e[2] as int == b[2] as int;
    assert e[3] as int == b[3] as int;
  }

  /** readFloatBE: four big-endian bytes as a float's bit pattern. */
  function ReadFloatBE(s: seq<Byte>): (r: Option<(Bits32, seq<Byte>)>)
    ensures r.Some? <==> |s| >= 4
    ensures r.Some? ==> Int32BE(Signed32(r.value.0)) == s[..4] && r.value.1 == s[4..]
  {
    if |s| < 4 then None
    else
      var u := BigEndianValue(s[..4]);
      Int32BEInjective(Signed32(u), s[..4]);
      Some((u, s[4..]))
  }

  /** readChar: one byte. */
  function ReadChar(s: seq<Byte>): (r: Option<(Byte, seq<Byte>)>)
    ensures r.Some? <==> |s| >= 1
    ensures r.Some? ==> s == [r.value.0] + r.value.1
  {
    if |s| == 0 then None else Some((s[0], s[1..]))
  }

  /** The characters that bytes stand for. */
  function Chars(b: seq<Byte>): (s: seq<char>)
    ensures |s| == |b|
    ensures forall i :: 0 <= i < |b| ==> s[i] as int == b[i] as int
  {
    if b == [] then [] else [b[0] as int as char] + Chars(b[1..])
  }

  /** read: `n` raw bytes. */
  function ReadBytes(s: seq<Byte>, n: int): (r: Option<(seq<Byte>, seq<Byte>)>)
    ensures r.Some? <==> 0 <= n <= |s|
    ensures r.Some? ==> s == r.value.0 + r.value.1 && |r.value.0| == n
  {
    if n < 0 || n > |s| then None
    else
      assert s == s[..n] + s[n..];
      Some((s[..n], s[n..]))
  }

  /** readASCIIString: an int32 length, then that many characters. */
  function ReadASCIIString(s: seq<Byte>): (r: Option<(seq<char>, seq<Byte>)>)
  {
    match ReadIntBE(s)
    case None => None
    case Some((n, rest)) =>
      match ReadBytes(rest, n)
      case None => None
      case Some((b, rest')) => Some((Chars(b), rest'))
  }

  /** An int written with writeInt32BE reads back as itself. */
  lemma ReadIntRoundTrip(v: int, rest: seq<Byte>)
    requires IsInt32(v)
    ensures ReadIntBE(Int32BE(v) + rest) == Some((v, rest))
  {
    var s := Int32BE(v) + rest;
    assert s[..4] == Int32BE(v);
    assert s[4..] == rest;
  }

  /** A float written with writeFloat32BE reads back as the same bit pattern. */
  lemma ReadFloatRoundTrip(f: Bits32, rest: seq<Byte>)
    ensures ReadFloatBE(Int32BE(Signed32(f)) + rest) == Some((f, rest))
  {
    var s := Int32BE(Signed32(f)) + rest;
    assert s[..4] == Int32BE(Signed32(f));
    assert s[4..] == rest;
  }

  /** The characters of a C string's bytes are the string. */
  lemma {:induction false} CharsOfCharBytes(s: seq<char>)
    requires IsCString(s)
    ensures Chars(CharBytes(s)) == s
  {
    var c := Chars(CharBytes(s));
    assert forall i :: 0 <= i < |s| ==> c[i] as int == s[i] as int;
  }

  /** A string written with writeASCIIString reads back as itself. */
  lemma ReadStringRoundTrip(str: seq<char>, rest: seq<Byte>)
    requires IsCString(str) && |str| < 0x8000_0000
    ensures ReadASCIIString(ASCIIString(str) + rest) == Some((str, rest))
  {
    var s := ASCIIString(str) + rest;
    assert s == Int32BE(|str|) + (CharBytes(str) + rest);
    ReadIntRoundTrip(|str|, CharBytes(str) + rest);
    var tail := CharBytes(str) + rest;
    assert tail[..|str|] == CharBytes(str) && tail[|str|..] == rest;
    CharsOfCharBytes(str);
  }
}
