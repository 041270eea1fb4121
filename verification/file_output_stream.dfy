/**
 * The binary writer of the build tools (src/tools/kwl_fileoutputstream.c): a file
 * opened for writing, to which C ints and floats go as four big-endian bytes and C
 * strings go as an int32 length followed by their characters.
 */
module FileOutputStream {

  /** One byte of a file. */
  newtype Byte = x: int | 0 <= x < 0x100

  const TWO_TO_32: int := 0x1_0000_0000

  /** The values a 32-bit C int can hold. */
  predicate IsInt32(v: int) {
    -0x8000_0000 <= v < 0x8000_0000
  }

  /** A 32-bit pattern. Floats are carried by the tools as their bit patterns only. */
  type Bits32 = x: int | 0 <= x < 0x1_0000_0000

  /** The int whose two's-complement pattern is `u` (the reinterpretation `*(int*)&f`). */
  function Signed32(u: Bits32): (v: int)
    ensures IsInt32(v) && v % TWO_TO_32 == u
  {
    if u < 0x8000_0000 then u else u - TWO_TO_32
  }

  /** The number four bytes spell most significant byte first. */
  function BigEndianValue(b: seq<Byte>): (u: Bits32)
    requires |b| == 4
  {
    b[0] as int * 0x100_0000 + b[1] as int * 0x1_0000 + b[2] as int * 0x100 + b[3] as int
  }

  /**
   * The bytes writeInt32BE emits for `val` (lines 59-70): the low 32 bits of `val`
   * in two's complement, most significant byte first.
   */
  function Int32BE(val: int): (r: seq<Byte>)
    ensures |r| == 4
    ensures BigEndianValue(r) == val % TWO_TO_32
  {
    var u := val % TWO_TO_32;
    BigEndianDigits(u);
    [(u / 0x100_0000) as Byte, (u / 0x1_0000 % 0x100) as Byte,
     (u / 0x100 % 0x100) as Byte, (u % 0x100) as Byte]
  }

  /** A 32-bit number is the sum of its four base-256 digits. */
  lemma BigEndianDigits(u: Bits32)
    ensures u / 0x100_0000 < 0x100
    ensures (u / 0x100_0000) * 0x100_0000 + (u / 0x1_0000 % 0x100) * 0x1_0000
            + (u / 0x100 % 0x100) * 0x100 + u % 0x100 == u
  {
    var a := u / 0x100;
    assert u == a * 0x100 + u % 0x100;
    var b := a / 0x100;
    assert a == b * 0x100 + a % 0x100;
    assert b == u / 0x1_0000;
    var c := b / 0x100;
    assert b == c * 0x100 + b % 0x100;
    assert c == u / 0x100_0000;
  }

  /** Characters a C string can hold and a byte can carry: no NUL, none above 255. */
  predicate IsCString(s: seq<char>) {
    forall i :: 0 <= i < |s| ==> 0 < s[i] as int < 0x100
  }

  /**
   * The bytes of a string's characters. A C char is one byte, so only the low eight
   * bits of a character reach the file; for a C string that is the whole character.
   */
  function CharBytes(s: seq<char>): (r: seq<Byte>)
    ensures |r| == |s|
    ensures forall i :: 0 <= i < |s| ==> r[i] as int == s[i] as int % 0x100
    ensures IsCString(s) ==> forall i :: 0 <= i < |s| ==> r[i] as int == s[i] as int
  {
    if s == [] then [] else [(s[0] as int % 0x100) as Byte] + CharBytes(s[1..])
  }

  /** The bytes writeASCIIString emits: the length, then the characters. */
  function ASCIIString(s: seq<char>): seq<Byte>
  {
    Int32BE(|s|) + CharBytes(s)
  }

  /**
   * strlen: the index of the first NUL in the character memory `mem`.
   */
  function StrLen(mem: seq<char>): (n: nat)
    requires '\0' in mem
    ensures n < |mem| && mem[n] == '\0'
    ensures forall i :: 0 <= i < n ==> mem[i] != '\0'
  {
    if mem[0] == '\0' then 0 else 1 + StrLen(mem[1..])
  }

  /** A C string in memory: its characters, then the NUL that strlen stops at. */
  lemma CStringMemory(s: seq<char>)
    requires IsCString(s)
    ensures '\0' in s + ['\0'] && StrLen(s + ['\0']) == |s| && (s + ['\0'])[..|s|] == s
  {
    var mem := s + ['\0'];
    assert mem[|s|] == '\0';
    assert forall i :: 0 <= i < |s| ==> mem[i] != '\0';
  }

  /**
   * The file after `data` is written at position `pos`: the bytes there are
   * replaced and the file grows as far as the write reaches.
   */
  function Overwrite(file: seq<Byte>, pos: nat, data: seq<Byte>): (r: seq<Byte>)
    requires pos <= |file|
    ensures |r| == if pos + |data| > |file| then pos + |data| else |file|
    ensures r[..pos] == file[..pos] && r[pos..pos + |data|] == data
    ensures pos + |data| < |file| ==> r[pos + |data|..] == file[pos + |data|..]
  {
    if pos + |data| >= |file| then file[..pos] + data
    else file[..pos] + data + file[pos + |data|..]
  }

  /** At the end of the file, writing appends. */
  lemma OverwriteAtEnd(file: seq<Byte>, data: seq<Byte>)
    ensures Overwrite(file, |file|, data) == file + data
  {
    assert file[..|file|] == file;
  }

  /** Two writes in a row are one write of both byte runs. */
  lemma OverwriteTwice(file: seq<Byte>, pos: nat, a: seq<Byte>, b: seq<Byte>)
    requires pos <= |file|
    ensures pos + |a| <= |Overwrite(file, pos, a)|
    ensures Overwrite(Overwrite(file, pos, a), pos + |a|, b) == Overwrite(file, pos, a + b)
  {
    var head := file[..pos];
    var f1 := Overwrite(file, pos, a);
    assert f1[..pos + |a|] == head + a;
    if pos + |a| + |b| < |file| {
      var tail := file[pos + |a| + |b|..];
      assert f1[pos + |a| + |b|..] == tail;
      assert Overwrite(f1, pos + |a|, b) == head + a + b + tail;
      assert Overwrite(file, pos, a + b) == head + (a + b) + tail;
    } else {
      assert Overwrite(f1, pos + |a|, b) == head + a + b;
      assert Overwrite(file, pos, a + b) == head + (a + b);
    }
  }

  /** Overwriting a part of a file with bytes of the same length replaces just that part. */
  lemma OverwriteMiddle(x: seq<Byte>, a: seq<Byte>, b: seq<Byte>, y: seq<Byte>)
    requires |a| == |b|
    ensures Overwrite(x + a + y, |x|, b) == x + b + y
  {
    var r := Overwrite(x + a + y, |x|, b);
    assert r[..|x|] == x && r[|x|..|x| + |b|] == b;
    if |y| > 0 {
      assert r[|x| + |b|..] == (x + a + y)[|x| + |a|..] == y;
      assert r == r[..|x|] + r[|x|..|x| + |b|] + r[|x| + |b|..];
    } else {
      assert r == r[..|x|] + r[|x|..|x| + |b|];
    }
  }

  /** A string's length written, then its characters: the string's encoding written. */
  lemma StringWrites(file: seq<Byte>, pos: nat, s: seq<char>)
    requires pos <= |file|
    ensures pos + 4 <= |Overwrite(file, pos, Int32BE(|s|))|
    ensures Overwrite(Overwrite(file, pos, Int32BE(|s|)), pos + 4, CharBytes(s)) == Overwrite(file, pos, ASCIIString(s))
    ensures pos == |file| ==> Overwrite(file, pos, ASCIIString(s)) == file + ASCIIString(s)
  {
    OverwriteTwice(file, pos, Int32BE(|s|), CharBytes(s));
    OverwriteAtEnd(file, ASCIIString(s));
  }

  /**
   * A kwlFileOutputStream: the file it writes and the position of the next write.
   */
  class OutputStream {
    /** Whether the stream holds an open file (the struct's `file` is not NULL). */
    var isOpen: bool
    /** The bytes of the file so far. */
    var contents: seq<Byte>
    /** The file position, as ftell reports it. */
    var position: nat

    ghost predicate Valid()
      reads this
    {
      position <= |contents|
    }

    /** A stream before initWithPath: memset to zero, no file. */
    constructor ()
      ensures Valid() && !isOpen && contents == [] && position == 0
    {
      isOpen := false;
      contents := [];
      position := 0;
    }

    /**
     * initWithPath (lines 10-24): opens the file for writing, emptying it. Whether
     * fopen succeeds for the path is `canOpen`; the result is 1 exactly then.
     */
    method InitWithPath(canOpen: bool) returns (success: bool)
      modifies this
      ensures Valid()
      ensures success == canOpen && isOpen == canOpen
      ensures contents == [] && position == 0
    {
      contents := [];
      position := 0;
      isOpen := false;
      if canOpen {
        isOpen := true;
      }
      success := isOpen;
    }

    /** close (lines 26-32): closes the file if there is one; what it holds stays. */
    method Close()
      modifies this
      ensures !isOpen && contents == old(contents) && position == old(position)
    {
      if isOpen {
        isOpen := false;
      }
    }

    /** write (lines 54-57): the first `numBytes` bytes of `data` at the file position. */
    method Write(data: seq<Byte>, numBytes: int)
      requires Valid() && isOpen
      requires 0 <= numBytes <= |data|
      modifies this
      ensures Valid() && isOpen
      ensures contents == Overwrite(old(contents), old(position), data[..numBytes])
      ensures position == old(position) + numBytes
      ensures old(position) == |old(contents)| ==> contents == old(contents) + data[..numBytes] && position == |contents|
    {
      OverwriteAtEnd(contents, data[..numBytes]);
      contents := Overwrite(contents, position, data[..numBytes]);
      position := position + numBytes;
    }

    /** writeInt32BE (lines 59-70). */
    method WriteInt32BE(val: int)
      requires Valid() && isOpen
      modifies this
      ensures Valid() && isOpen
      ensures contents == Overwrite(old(contents), old(position), Int32BE(val))
      ensures position == old(position) + 4
      ensures old(position) == |old(contents)| ==> contents == old(contents) + Int32BE(val) && position == |contents|
    {
      var c := Int32BE(val);
      Write(c, 4);
      assert c[..4] == c;
    }

    /** writeFloat32BE (lines 73-76): the float's bit pattern, written as an int. */
    method WriteFloat32BE(val: Bits32)
      requires Valid() && isOpen
      modifies this
      ensures Valid() && isOpen
      ensures contents == Overwrite(old(contents), old(position), Int32BE(Signed32(val)))
      ensures position == old(position) + 4
      ensures old(position) == |old(contents)| ==> contents == old(contents) + Int32BE(Signed32(val)) && position == |contents|
    {
      WriteInt32BE(Signed32(val));
    }

    /**
     * writeASCIIString (lines 34-52): counts the characters up to the NUL of the
     * C string held in `mem`, then writes that count and those characters.
     */
    method WriteASCIIString(mem: seq<char>)
      requires Valid() && isOpen
      requires '\0' in mem && StrLen(mem) >= 1
      modifies this
      ensures Valid() && isOpen
      ensures contents == Overwrite(old(contents), old(position), ASCIIString(mem[..StrLen(mem)]))
      ensures position == old(position) + 4 + StrLen(mem)
      ensures old(position) == |old(contents)| ==>
                contents == old(contents) + ASCIIString(mem[..StrLen(mem)]) && position == |contents|
    {
      var l := 0;
      while mem[l] != '\0'
        invariant 0 <= l <= StrLen(mem)
        decreases StrLen(mem) - l
      {
        l := l + 1;
      }
      assert l == StrLen(mem);
      l := l + 1;
      ghost var before := contents;
      WriteInt32BE(l - 1);
      var chars := CharBytes(mem[..l - 1]);
      Write(chars, l - 1);
      assert chars[..l - 1] == chars;
      StringWrites(before, old(position), mem[..l - 1]);
    }

    /** ftell on the stream's file. */
    method Tell() returns (p: nat)
      ensures p == position
    {
      p := position;
    }

    /** fseek(file, p, SEEK_SET) on the stream's file, within what it holds. */
    method Seek(p: nat)
      requires p <= |contents|
      modifies this
      ensures Valid() && position == p
      ensures contents == old(contents) && isOpen == old(isOpen)
    {
      position := p;
    }
  }
}
