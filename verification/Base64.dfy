/** base64_encode and base64_decode of the demo SMTP client, against the 24-bit groups of section 4 of
    RFC 4648.  A byte is a number below 256; EncodeMasks and DecodeMasks say what the masks and shifts of the
    code do to that number. */
module Base64 {
  type Byte = x: int | 0 <= x < 256

  // ---------------------------------------------------------------- eight bits and their value

  /** The expressions of base64_encode. */
  lemma EncodeMasks(x: bv8)
    ensures ((x & 0xfc) >> 2) as int == x as int / 4 && ((x & 0x03) << 4) as int == x as int % 4 * 16
    ensures ((x & 0xf0) >> 4) as int == x as int / 16 && ((x & 0x0f) << 2) as int == x as int % 16 * 4
    ensures ((x & 0xc0) >> 6) as int == x as int / 64 && (x & 0x3f) as int == x as int % 64
  {}

  lemma SumAt2(a: bv8, b: bv8)
    requires a & 0x03 == 0 && b & 0xfc == 0
    ensures (a + b) as int == a as int + b as int
  {}

  lemma SumAt4(a: bv8, b: bv8)
    requires a & 0x0f == 0 && b & 0xf0 == 0
    ensures (a + b) as int == a as int + b as int
  {}

  lemma SumAt6(a: bv8, b: bv8)
    requires a & 0x3f == 0 && b & 0xc0 == 0
    ensures (a + b) as int == a as int + b as int
  {}

  lemma FirstByte(w: bv8)
    ensures (w << 2) as int == w as int * 4 % 256 && ((w & 0x30) >> 4) as int == w as int / 16 % 4
  {}

  lemma SecondByte(x: bv8)
    ensures ((x & 0x0f) << 4) as int == x as int % 16 * 16
  {}

  lemma ShiftedRight(y: bv8)
    ensures (y >> 2) as int == y as int / 4
    ensures (y & 0x3c) >> 2 == (y >> 2) & 0x0f
  {}

  lemma LowBits(v: bv8)
    ensures (v & 0x0f) as int == v as int % 16
  {}

  lemma MiddleBits(y: bv8)
    ensures ((y & 0x3c) >> 2) as int == y as int / 4 % 16
  {
    ShiftedRight(y);
    LowBits(y >> 2);
  }

  lemma ThirdByte(y: bv8)
    ensures ((y & 0x03) << 6) as int == y as int % 4 * 64
  {}

  lemma Apart(w: bv8, x: bv8, y: bv8)
    ensures (w << 2) & 0x03 == 0 && ((x & 0x30) >> 4) & 0xfc == 0
    ensures ((x & 0x0f) << 4) & 0x0f == 0 && ((y & 0x3c) >> 2) & 0xf0 == 0 && ((y & 0x03) << 6) & 0x3f == 0
  {}

  /** Those of base64_decode; the last needs its digit below 64, as it is wherever that byte is used. */
  lemma DecodeMasks(w: bv8, x: bv8, y: bv8, z: bv8)
    ensures ((w << 2) + ((x & 0x30) >> 4)) as int == w as int * 4 % 256 + x as int / 16 % 4
    ensures (((x & 0x0f) << 4) + ((y & 0x3c) >> 2)) as int == x as int % 16 * 16 + y as int / 4 % 16
    ensures z & 0xc0 == 0 ==> (((y & 0x03) << 6) + z) as int == y as int % 4 * 64 + z as int
  {
    Apart(w, x, y);
    FirstByte(w);
    FirstByte(x);
    SecondByte(x);
    MiddleBits(y);
    ThirdByte(y);
    SumAt2(w << 2, (x & 0x30) >> 4);
    SumAt4((x & 0x0f) << 4, (y & 0x3c) >> 2);
    if z & 0xc0 == 0 {
      SumAt6((y & 0x03) << 6, z);
    }
  }

  // ---------------------------------------------------------------- the alphabet

  const UPPER := "ABCDEFGHIJKLMNOPQRSTUVWXYZ"
  const LOWER := "abcdefghijklmnopqrstuvwxyz"
  const OTHERS := "0123456789+/"
  const CHARS := UPPER + LOWER + OTHERS

  predicate IsAlnum(c: char) {
    'a' <= c <= 'z' || 'A' <= c <= 'Z' || '0' <= c <= '9'
  }

  predicate IsBase64(c: char) {
    IsAlnum(c) || c == '+' || c == '/'
  }

  /** The i-th character of the alphabet, in numbers. */
  function Symbol(i: nat): char
    requires i < 64
  {
    if i < 26 then (65 + i) as char else if i < 52 then (97 + i - 26) as char
    else if i < 62 then (48 + i - 52) as char else if i == 62 then '+' else '/'
  }

  lemma Letters(i: nat)
    requires i < 26
    ensures UPPER[i] == (65 + i) as char && LOWER[i] == (97 + i) as char
  {}

  lemma Alphabet(i: nat)
    requires i < 64
    ensures |CHARS| == 64 && CHARS[i] == Symbol(i)
  {
    if i < 26 {
      Letters(i);
    } else if i < 52 {
      Letters(i - 26);
    }
  }

  /** `base64_chars.find(c)` put into a char; npos becomes the char with all bits set. */
  function Find(c: char, from: nat := 0): Byte
    requires from <= 64
    decreases 64 - from
  {
    if from == 64 then 255 else if CHARS[from] == c then from else Find(c, from + 1)
  }

  lemma {:induction false} FindSymbol(i: nat, from: nat)
    requires from <= i < 64
    ensures Find(Symbol(i), from) == i && IsBase64(Symbol(i)) && Symbol(i) != '='
    decreases i - from
  {
    Alphabet(from);
    Alphabet(i);
    if from < i {
      FindSymbol(i, from + 1);
    }
  }

  /** isalnum, '+' and '/' are exactly the alphabet, and find gives the place in it. */
  lemma InAlphabet(c: char)
    ensures IsBase64(c) <==> Find(c) < 64
    ensures IsBase64(c) ==> CHARS[Find(c)] == c
  {
    if IsBase64(c) {
      var i := Place(c);
      hide *;
      Alphabet(i);
      FindSymbol(i, 0);
    } else {
      hide *;
      NotFound(c, 0);
    }
  }

  lemma Place(c: char) returns (i: nat)
    requires IsBase64(c)
    ensures i < 64 && Symbol(i) == c
  {
    var n := c as int;
    i := if c == '+' then 62 else if c == '/' then 63
         else if 'a' <= c then n - 97 + 26 else if 'A' <= c then n - 65 else n - 48 + 52;
  }

  lemma {:induction false} NotFound(c: char, from: nat)
    requires from <= 64 && !IsBase64(c)
    ensures Find(c, from) == 255
    decreases 64 - from
  {
    if from < 64 {
      Alphabet(from);
      NotFound(c, from + 1);
    }
  }

  // ---------------------------------------------------------------- section 4 of RFC 4648

  /** Three bytes as one number of 24 bits, and that number as four digits. */
  function Digits(a: Byte, b: Byte, c: Byte): (r: seq<nat>)
    ensures |r| == 4 && forall i :: 0 <= i < 4 ==> r[i] < 64
  {
    var n := a * 65536 + b * 256 + c;
    [n / 262144, n / 4096 % 64, n / 64 % 64, n % 64]
  }

  function Spell(digits: seq<nat>): (r: string)
    requires forall i :: 0 <= i < |digits| ==> digits[i] < 64
    ensures |r| == |digits|
  {
    seq(|digits|, i requires 0 <= i < |digits| => Symbol(digits[i]))
  }

  function Encoded(s: seq<Byte>): string {
    if |s| == 0 then ""
    else if |s| == 1 then Spell(Digits(s[0], 0, 0)[..2]) + "=="
    else if |s| == 2 then Spell(Digits(s[0], s[1], 0)[..3]) + "="
    else Spell(Digits(s[0], s[1], s[2])) + Encoded(s[3..])
  }

  /** Four digits as one number, and that number as three bytes. */
  function Bytes(d: seq<nat>): (r: seq<Byte>)
    requires |d| == 4 && forall i :: 0 <= i < 4 ==> d[i] < 64
    ensures |r| == 3
  {
    var n := d[0] * 262144 + d[1] * 4096 + d[2] * 64 + d[3];
    [n / 65536, n / 256 % 256, n % 256]
  }

  lemma Rebuild(n: nat)
    ensures n / 262144 * 262144 + n / 4096 % 64 * 4096 + n / 64 % 64 * 64 + n % 64 == n
  {
    assert n / 64 / 64 == n / 4096 && n / 4096 / 64 == n / 262144;
  }

  lemma Split(a: Byte, b: Byte, c: Byte)
    ensures var n := a * 65536 + b * 256 + c; n / 65536 == a && n / 256 % 256 == b && n % 256 == c
  {
    var n := a * 65536 + b * 256 + c;
    assert n / 256 == a * 256 + b;
  }

  lemma BytesOfDigits(a: Byte, b: Byte, c: Byte)
    ensures Bytes(Digits(a, b, c)) == [a, b, c]
  {
    Rebuild(a * 65536 + b * 256 + c);
    Split(a, b, c);
  }

  lemma By64(x: int, quotient: int, rest: int)
    requires x == 64 * quotient + rest && 0 <= rest < 64
    ensures x / 64 == quotient && x % 64 == rest
  {}

  /** The digits as the code computes them, byte by byte. */
  lemma DigitsByMasks(a: Byte, b: Byte, c: Byte)
    ensures Digits(a, b, c) == [a / 4, a % 4 * 16 + b / 16, b % 16 * 4 + c / 64, c % 64]
  {
    var n: int := a * 65536 + b * 256 + c;
    var low, high: int := b % 16 * 4 + c / 64, a % 4 * 16 + b / 16;
    By64(n, 64 * (64 * (a / 4) + high) + low, c % 64);
    By64(n / 64, 64 * (a / 4) + high, low);
    By64(n / 64 / 64, a / 4, high);
    assert n / 64 / 64 == n / 4096 && n / 4096 / 64 == n / 262144;
  }

  /** The bytes as the code computes them: sums are cut down to the eight bits of a char. */
  function Masked(w: int, x: int, y: int, z: int): (r: seq<Byte>)
    ensures |r| == 3
  {
    [(w * 4 % 256 + x / 16 % 4) % 256, (x % 16 * 16 + y / 4 % 16) % 256, (y % 4 * 64 + z) % 256]
  }

  lemma By256(x: int, quotient: int, rest: int)
    requires x == 256 * quotient + rest && 0 <= rest < 256
    ensures x / 256 == quotient && x % 256 == rest
  {}

  /** n / 65536 is two divisions by 256. */
  lemma Twice256(n: nat)
    ensures n / 65536 == n / 256 / 256
  {}

  /** Four digits to the base 64 are three to the base 256. */
  lemma ToBase256(w: nat, x: nat, y: nat, z: nat)
    requires w < 64 && x < 64 && y < 64 && z < 64
    ensures w * 262144 + x * 4096 + y * 64 + z ==
              256 * (256 * (w * 4 + x / 16) + (x % 16 * 16 + y / 4)) + (y % 4 * 64 + z)
    ensures w * 4 + x / 16 < 256 && x % 16 * 16 + y / 4 < 256 && y % 4 * 64 + z < 256
  {
    assert x == x / 16 * 16 + x % 16 && y == y / 4 * 4 + y % 4;
  }

  lemma FromBase256(n: nat, high: nat, mid: nat, low: nat)
    requires n == 256 * (256 * high + mid) + low && mid < 256 && low < 256
    ensures n / 65536 == high && n / 256 % 256 == mid && n % 256 == low
  {
    By256(n, 256 * high + mid, low);
    By256(256 * high + mid, high, mid);
    Twice256(n);
  }

  lemma MaskedSums(w: nat, x: nat, y: nat, z: nat)
    requires w < 64 && x < 64 && y < 64 && z < 64
    ensures Masked(w, x, y, z) == [w * 4 + x / 16, x % 16 * 16 + y / 4, y % 4 * 64 + z]
  {}

  lemma BytesOf(w: nat, x: nat, y: nat, z: nat, high: Byte, mid: Byte, low: Byte)
    requires w < 64 && x < 64 && y < 64 && z < 64
    requires w * 262144 + x * 4096 + y * 64 + z == 256 * (256 * high + mid) + low
    ensures Bytes([w, x, y, z]) == [high, mid, low]
  {
    FromBase256(w * 262144 + x * 4096 + y * 64 + z, high, mid, low);
  }

  lemma BytesByMasks(w: nat, x: nat, y: nat, z: nat)
    requires w < 64 && x < 64 && y < 64 && z < 64
    ensures Masked(w, x, y, z) == Bytes([w, x, y, z])
  {
    hide Masked, Bytes;
    MaskedSums(w, x, y, z);
    ToBase256(w, x, y, z);
    BytesOf(w, x, y, z, w * 4 + x / 16, x % 16 * 16 + y / 4, y % 4 * 64 + z);
  }

  /** The number of characters before the first one outside the alphabet. */
  function Usable(e: string): (n: nat)
    ensures n <= |e| && forall i :: 0 <= i < n ==> IsBase64(e[i])
    ensures n < |e| ==> !IsBase64(e[n])
  {
    if e == "" || !IsBase64(e[0]) then 0 else 1 + Usable(e[1..])
  }

  function Value(c: char): (v: nat)
    requires IsBase64(c)
    ensures v < 64 && CHARS[v] == c
  {
    InAlphabet(c);
    Find(c)
  }

  function Values(e: string): (r: seq<nat>)
    requires forall i :: 0 <= i < |e| ==> IsBase64(e[i])
    ensures |r| == |e| && forall i :: 0 <= i < |r| ==> r[i] < 64
  {
    seq(|e|, i requires 0 <= i < |e| => Value(e[i]))
  }

  /** Four characters are three bytes. */
  function Decoded(e: string): seq<Byte> {
    var n := Usable(e);
    if n >= 4 then Bytes(Values(e[..4])) + Decoded(e[4..])
    else Leftover(e[..n])
  }

  /** Two and three characters hold one and two bytes; one character holds nothing. */
  function Leftover(e: string): seq<Byte>
    requires |e| < 4 && forall i :: 0 <= i < |e| ==> IsBase64(e[i])
  {
    if |e| < 2 then [] else Bytes(Values(e) + [0, 0, 0, 0][|e|..])[..|e| - 1]
  }

  // ---------------------------------------------------------------- what they are for

  lemma {:induction false} Length(s: seq<Byte>)
    ensures |Encoded(s)| == 4 * ((|s| + 2) / 3)
  {
    hide Digits;
    if |s| >= 3 {
      Length(s[3..]);
    }
  }

  /** Characters of the alphabet are read as the digits they stand for. */
  lemma SpellValues(d: seq<nat>, more: string)
    requires forall i :: 0 <= i < |d| ==> d[i] < 64
    requires more == "" || !IsBase64(more[0])
    ensures Usable(Spell(d) + more) == |d| && Values(Spell(d)) == d
  {
    hide Find;
    forall i | 0 <= i < |d| ensures IsBase64(Spell(d)[i]) && Value(Spell(d)[i]) == d[i] {
      Alphabet(d[i]);
      FindSymbol(d[i], 0);
    }
    var e := Spell(d) + more;
    assert forall i :: 0 <= i < |d| ==> e[i] == Spell(d)[i];
    assert more != "" ==> e[|d|] == more[0];
  }

  lemma SpelledGroup(d: seq<nat>, more: string)
    requires |d| == 4 && forall i :: 0 <= i < 4 ==> d[i] < 64
    ensures Decoded(Spell(d) + more) == Bytes(d) + Decoded(more)
  {
    hide Bytes;
    SpellValues(d, "");
    var e := Spell(d) + more;
    assert Spell(d) + "" == Spell(d) == e[..4] && e[4..] == more;
    assert forall i :: 0 <= i < 4 ==> IsBase64(e[i]);
    assert Usable(e) >= 4;
  }

  lemma {:induction false} RoundTrip(s: seq<Byte>)
    ensures Decoded(Encoded(s)) == s
  {
    hide Digits, Bytes;
    if |s| >= 3 {
      RoundTrip(s[3..]);
      GroupRoundTrip(s[0], s[1], s[2], Encoded(s[3..]));
      assert s == [s[0], s[1], s[2]] + s[3..];
    } else if |s| == 2 {
      PartRoundTrip(s[0], s[1], 3, "=");
      assert s == [s[0], s[1], 0][..2];
    } else if |s| == 1 {
      PartRoundTrip(s[0], 0, 2, "==");
      assert s == [s[0], 0, 0][..1];
    }
  }

  lemma GroupRoundTrip(a: Byte, b: Byte, c: Byte, more: string)
    ensures Decoded(Spell(Digits(a, b, c)) + more) == [a, b, c] + Decoded(more)
  {
    hide Digits, Bytes;
    SpelledGroup(Digits(a, b, c), more);
    BytesOfDigits(a, b, c);
  }

  /** The digits that are not written are zero. */
  lemma UnwrittenDigits(a: Byte, b: Byte, n: nat)
    requires n == 3 || (n == 2 && b == 0)
    ensures Digits(a, b, 0)[..n] + [0, 0, 0, 0][n..] == Digits(a, b, 0)
  {
    DigitsByMasks(a, b, 0);
  }

  lemma PartRoundTrip(a: Byte, b: Byte, n: nat, padding: string)
    requires (n == 3 || (n == 2 && b == 0)) && padding != "" && padding[0] == '='
    ensures Decoded(Spell(Digits(a, b, 0)[..n]) + padding) == [a, b, 0][..n - 1]
  {
    hide Digits, Bytes;
    var d := Digits(a, b, 0)[..n];
    SpellValues(d, padding);
    assert (Spell(d) + padding)[..n] == Spell(d);
    UnwrittenDigits(a, b, n);
    BytesOfDigits(a, b, 0);
  }

  // ---------------------------------------------------------------- the loops

  /** The four characters of a full buffer; see EncodeMasks. */
  method Pack(three: array<Byte>, four: array<Byte>)
    requires three.Length == 3 && four.Length == 4 && three != four
    modifies four
    ensures four[..] == Digits(three[0], three[1], three[2]) && forall l :: 0 <= l < 4 ==> four[l] < 64
  {
    var a: int, b: int, c: int := three[0], three[1], three[2];
    four[0] := a / 4;
    four[1] := a % 4 * 16 + b / 16;
    four[2] := b % 16 * 4 + c / 64;
    four[3] := c % 64;
    DigitsByMasks(a, b, c);
  }

  method AppendSymbols(done: string, four: array<Byte>, n: int) returns (ret: string)
    requires four.Length == 4 && 0 <= n <= 4 && forall l :: 0 <= l < 4 ==> four[l] < 64
    ensures ret == done + Spell(four[..n])
  {
    var i := 0;
    ret := done;
    while i < n
      invariant 0 <= i <= n && ret == done + Spell(four[..i])
    {
      Alphabet(four[i]);
      assert four[..i + 1] == four[..i] + [four[i]];
      assert Spell(four[..i + 1]) == Spell(four[..i]) + [Symbol(four[i])];
      ret := ret + [CHARS[four[i]]];
      i := i + 1;
    }
  }

  method Encode(str: seq<Byte>) returns (ret: string)
    ensures ret == Encoded(str)
  {
    hide Digits;
    var three, four := new Byte[3], new Byte[4];
    var i, k := 0, 0;
    ret := "";
    ghost var rest, goal := str, Encoded(str);
    while k < |str|
      invariant 0 <= i < 3 && i <= k <= |str| && rest == str[k - i..]
      invariant three[..i] == rest[..i]
      invariant ret + Encoded(rest) == goal
    {
      three[i] := str[k];
      assert rest[i] == str[k];
      i, k := i + 1, k + 1;
      if i == 3 {
        NextGroup(ret, rest, three[..]);
        rest := rest[3..];
        Pack(three, four);
        assert four[..4] == four[..];
        ret := AppendSymbols(ret, four, 4);
        i := 0;
      }
    }
    assert three[..i] == rest;
    if i != 0 {
      ret := EncodeRest(ret, three, four, i);
    }
  }

  lemma NextGroup(before: string, s: seq<Byte>, group: seq<Byte>)
    requires |s| >= 3 && group == s[..3]
    ensures before + Encoded(s) == before + Spell(Digits(group[0], group[1], group[2])) + Encoded(s[3..])
  {
    hide Digits, Spell;
  }

  /** One or two bytes are left in the buffer. */
  method EncodeRest(done: string, three: array<Byte>, four: array<Byte>, left: int) returns (ret: string)
    requires three.Length == 3 && four.Length == 4 && three != four && 1 <= left <= 2
    modifies three, four
    ensures ret == done + Encoded(old(three[..left]))
  {
    hide Digits;
    var j, i := left, left;
    ghost var s := three[..left];
    while j < 3
      invariant left <= j <= 3 && three[..left] == s
      invariant forall l :: left <= l < j ==> three[l] == 0
    {
      three[j] := 0;
      j := j + 1;
    }
    assert three[0] == s[0] && (left == 2 ==> three[1] == s[1]);
    Pack(three, four);
    assert four[..i + 1] == four[..][..i + 1];
    ret := AppendSymbols(done, four, i + 1);
    ghost var spelled := ret;
    while i < 3
      invariant left <= i <= 3 && ret == spelled + "=="[..i - left]
    {
      ret := ret + "=";
      i := i + 1;
    }
    Padded(s, three[0], three[1], spelled[|done|..]);
  }

  lemma Padded(s: seq<Byte>, x: Byte, y: Byte, spelled: string)
    requires 1 <= |s| <= 2 && s[0] == x && y == (if |s| == 2 then s[1] else 0)
    requires spelled == Spell(Digits(x, y, 0)[..|s| + 1])
    ensures Encoded(s) == spelled + "=="[..3 - |s|]
  {
    hide Digits;
    if |s| == 1 {
      assert "=="[..2] == "==" && Encoded(s) == Spell(Digits(x, 0, 0)[..2]) + "==";
    } else {
      assert "=="[..1] == "=" && Encoded(s) == Spell(Digits(x, y, 0)[..3]) + "=";
    }
  }

  /** The three bytes of a full buffer; see DecodeMasks. */
  method Unpack(four: array<char>, three: array<Byte>)
    requires three.Length == 3 && four.Length == 4
    modifies three
    ensures three[..] == Masked(four[0] as int, four[1] as int, four[2] as int, four[3] as int)
  {
    var w, x, y, z := four[0] as int, four[1] as int, four[2] as int, four[3] as int;
    three[0] := (w * 4 % 256 + x / 16 % 4) % 256;
    three[1] := (x % 16 * 16 + y / 4 % 16) % 256;
    three[2] := (y % 4 * 64 + z) % 256;
  }

  /** `find` for each of the four characters, in place. */
  method Lookup(four: array<char>)
    requires four.Length == 4
    modifies four
    ensures forall j :: 0 <= j < 4 ==> four[j] as int == Find(old(four[j]))
  {
    hide Find;
    var i := 0;
    while i < 4
      invariant 0 <= i <= 4
      invariant forall j :: 0 <= j < i ==> four[j] as int == Find(old(four[j]))
      invariant forall j :: i <= j < 4 ==> four[j] == old(four[j])
    {
      four[i] := Find(four[i]) as char;
      i := i + 1;
    }
  }

  method AppendBytes(done: seq<Byte>, three: array<Byte>, n: int) returns (ret: seq<Byte>)
    requires three.Length == 3 && 0 <= n <= 3
    ensures ret == done + three[..n]
  {
    var i := 0;
    ret := done;
    while i < n
      invariant 0 <= i <= n && ret == done + three[..i]
    {
      ret := ret + [three[i]];
      i := i + 1;
    }
  }

  /** The buffer is full. */
  method DecodeGroup(done: seq<Byte>, four: array<char>, three: array<Byte>) returns (ret: seq<Byte>)
    requires three.Length == 3 && four.Length == 4 && forall j :: 0 <= j < 4 ==> IsBase64(four[j])
    modifies three, four
    ensures ret == done + Bytes(Values(old(four[..])))
  {
    hide Bytes, Masked, Find;
    ghost var e := four[..];
    Lookup(four);
    Unpack(four, three);
    assert three[..3] == three[..];
    ret := AppendBytes(done, three, 3);
    ValuesByMasks(e, four[0] as int, four[1] as int, four[2] as int, four[3] as int);
  }

  method Decode(e: string) returns (ret: seq<Byte>)
    ensures ret == Decoded(e)
  {
    hide Bytes, Find, Usable, Decoded, Leftover, Values, IsAlnum;
    var four, three := new char[4], new Byte[3];
    var i, k := 0, 0;
    ret := [];
    ghost var rest, goal := e, Decoded(e);
    while k < |e| && e[k] != '=' && IsBase64(e[k])
      invariant 0 <= i < 4 && i <= k <= |e| && rest == e[k - i..]
      invariant four[..i] == rest[..i] && forall j :: 0 <= j < i ==> IsBase64(four[j])
      invariant ret + Decoded(rest) == goal
    {
      four[i] := e[k];
      assert rest[i] == e[k];
      i, k := i + 1, k + 1;
      if i == 4 {
        NextBytes(ret, rest, four[..]);
        rest := rest[4..];
        ret := DecodeGroup(ret, four, three);
        i := 0;
      }
    }
    ghost var group := four[..i];
    StopsAt(rest, group);
    OnlyLeftover(rest, group);
    if i != 0 {
      ret := DecodeRest(ret, four, three, i);
    }
  }

  lemma DecodedGroup(e: string)
    requires Usable(e) >= 4
    ensures Decoded(e) == Bytes(Values(e[..4])) + Decoded(e[4..])
  {
    hide Bytes, Values, Usable, IsBase64;
  }

  lemma FirstGroup(e: string, group: string)
    requires |e| >= 4 && group == e[..4] && forall j :: 0 <= j < 4 ==> IsBase64(group[j])
    ensures Decoded(e) == Bytes(Values(group)) + Decoded(e[4..])
  {
    hide *;
    assert forall j :: 0 <= j < 4 ==> e[j] == group[j];
    assert Usable(e) >= 4;
    DecodedGroup(e);
  }

  lemma NextBytes(before: seq<Byte>, e: string, group: string)
    requires |e| >= 4 && group == e[..4] && forall j :: 0 <= j < 4 ==> IsBase64(group[j])
    ensures before + Decoded(e) == before + Bytes(Values(group)) + Decoded(e[4..])
  {
    hide *;
    FirstGroup(e, group);
    Regroup(before, Bytes(Values(group)), Decoded(e[4..]));
  }

  lemma Regroup<T>(a: seq<T>, b: seq<T>, c: seq<T>)
    ensures a + (b + c) == a + b + c
  {}

  lemma StopsAt(e: string, group: string)
    requires |group| <= |e| && group == e[..|group|] && forall j :: 0 <= j < |group| ==> IsBase64(group[j])
    requires |group| < |e| ==> e[|group|] == '=' || !IsBase64(e[|group|])
    ensures Usable(e) == |group|
  {
    hide Usable;
    assert forall j :: 0 <= j < |group| ==> e[j] == group[j];
  }

  lemma OnlyLeftover(e: string, group: string)
    requires Usable(e) == |group| < 4 && group == e[..|group|]
    ensures Decoded(e) == Leftover(group) && (group == "" ==> Decoded(e) == [])
  {
    hide Usable, Bytes, Values, IsBase64;
  }

  /** One to three characters are left in the buffer; the places after them hold npos, which no byte that
      is appended depends on. */
  method DecodeRest(done: seq<Byte>, four: array<char>, three: array<Byte>, i: int) returns (ret: seq<Byte>)
    requires three.Length == 3 && four.Length == 4 && 1 <= i < 4
    requires forall j :: 0 <= j < i ==> IsBase64(four[j])
    modifies three, four
    ensures ret == done + Leftover(old(four[..i]))
  {
    hide Bytes, Masked, Find;
    var j := i;
    while j < 4
      invariant i <= j <= 4 && four[..i] == old(four[..i])
      invariant forall l :: i <= l < j ==> four[l] == 0 as char
    {
      four[j] := 0 as char;
      j := j + 1;
    }
    ghost var e := four[..];
    Lookup(four);
    Unpack(four, three);
    assert three[..i - 1] == three[..][..i - 1];
    ret := AppendBytes(done, three, i - 1);
    LeftoverByMasks(e[..i], four[0] as int, four[1] as int, four[2] as int, four[3] as int);
  }

  lemma ValuesByMasks(e: string, w: int, x: int, y: int, z: int)
    requires |e| == 4 && forall i :: 0 <= i < 4 ==> IsBase64(e[i])
    requires w == Find(e[0]) && x == Find(e[1]) && y == Find(e[2]) && z == Find(e[3])
    ensures Masked(w, x, y, z) == Bytes(Values(e))
  {
    hide Bytes, Masked, Find;
    assert Values(e) == [Value(e[0]), Value(e[1]), Value(e[2]), Value(e[3])];
    BytesByMasks(w, x, y, z);
  }

  /** The characters that are missing do not matter. */
  lemma PartByMasks(w: nat, x: nat, y: int, z: int)
    requires w < 64 && x < 64
    ensures Masked(w, x, y, z)[0] == Bytes([w, x, 0, 0])[0]
    ensures 0 <= y < 64 ==>
      Masked(w, x, y, z)[1] == Bytes([w, x, y, 0])[1] && Masked(w, x, y, z)[0] == Bytes([w, x, y, 0])[0]
  {
    BytesByMasks(w, x, 0, 0);
    if 0 <= y < 64 {
      BytesByMasks(w, x, y, 0);
    }
  }

  lemma LeftoverByMasks(e: string, w: int, x: int, y: int, z: int)
    requires 1 <= |e| < 4 && forall i :: 0 <= i < |e| ==> IsBase64(e[i])
    requires w == Find(e[0]) && (|e| > 1 ==> x == Find(e[1])) && (|e| > 2 ==> y == Find(e[2]))
    ensures Masked(w, x, y, z)[..|e| - 1] == Leftover(e)
  {
    hide Bytes, Masked, Leftover, Find, IsBase64;
    LeftoverByDigits(e, Values(e), w, x, y, z);
  }

  lemma LeftoverByDigits(e: string, d: seq<nat>, w: int, x: int, y: int, z: int)
    requires 1 <= |e| < 4 && (forall i :: 0 <= i < |e| ==> IsBase64(e[i])) && d == Values(e)
    requires w == d[0] && (|e| > 1 ==> x == d[1]) && (|e| > 2 ==> y == d[2])
    ensures Masked(w, x, y, z)[..|e| - 1] == Leftover(e)
  {
    hide *;
    LeftoverDigits(e, d);
    if |e| > 1 {
      PartByMasks(w, x, y, z);
      Prefix(Masked(w, x, y, z), Bytes(if |e| == 2 then [w, x, 0, 0] else [w, x, y, 0]), |e| - 1);
    }
  }

  lemma LeftoverDigits(e: string, d: seq<nat>)
    requires |e| < 4 && (forall i :: 0 <= i < |e| ==> IsBase64(e[i])) && d == Values(e)
    ensures |e| < 2 ==> Leftover(e) == []
    ensures |e| == 2 ==> Leftover(e) == Bytes([d[0], d[1], 0, 0])[..1]
    ensures |e| == 3 ==> Leftover(e) == Bytes([d[0], d[1], d[2], 0])[..2]
  {
    hide Bytes, Values, IsBase64;
    if |e| == 2 {
      assert d + [0, 0, 0, 0][|e|..] == [d[0], d[1], 0, 0];
    } else if |e| == 3 {
      assert d + [0, 0, 0, 0][|e|..] == [d[0], d[1], d[2], 0];
    }
  }

  lemma Prefix(a: seq<Byte>, b: seq<Byte>, n: nat)
    requires n <= |a| == |b| && forall i :: 0 <= i < n ==> a[i] == b[i]
    ensures a[..n] == b[..n]
  {}
}
