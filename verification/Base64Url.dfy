/** Base64url without padding (sections 3.5 and 5 of RFC 4648). Text and data are sequences of octets;
    shifting and masking a 24-bit group is taking its digits to base 64 or 256. */
module Base64Url {
  import opened Arithmetic

  // ----- Big-endian numbers and their digits

  function Pow(base: nat, n: nat): nat {
    if n == 0 then 1 else Pow(base, n - 1) * base
  }

  lemma DivisionIs(g: nat, base: nat)
    requires base > 0
    ensures 0 <= g / base && 0 <= g % base < base && g == (g / base) * base + g % base
  {
    var q := g / base;
    assert g == q * base + g % base;
    if q < 0 { MulLeq(q, -1, base); }
  }

  lemma RemainderIs(g: nat, base: nat)
    requires base > 0
    ensures 0 <= g / base && 0 <= g % base < base
  {
    DivisionIs(g, base);
  }

  /** The last `n` digits of `g`, most significant first. */
  function Digits(g: nat, base: nat, n: nat): (ds: seq<nat>)
    requires base > 0
    ensures |ds| == n
    ensures forall i :: 0 <= i < n ==> ds[i] < base
    decreases n
  {
    if n == 0 then [] else RemainderIs(g, base); Digits(g / base, base, n - 1) + [g % base]
  }

  function Number(ds: seq<nat>, base: nat): nat {
    if ds == [] then 0 else Number(ds[..|ds| - 1], base) * base + ds[|ds| - 1]
  }

  /** Digits are recovered from their number. */
  lemma {:induction false} DigitsOfNumber(ds: seq<nat>, base: nat)
    requires base > 0 && forall i :: 0 <= i < |ds| ==> ds[i] < base
    ensures Digits(Number(ds, base), base, |ds|) == ds
  {
    if ds == [] {
    } else {
      var n := |ds| - 1;
      DigitsOfNumber(ds[..n], base);
      DivMod(Number(ds[..n], base), ds[n], base);
      assert ds == ds[..n] + [ds[n]];
    }
  }

  lemma {:induction false} NumberFits(ds: seq<nat>, base: nat)
    requires base > 0 && forall i :: 0 <= i < |ds| ==> ds[i] < base
    ensures Number(ds, base) < Pow(base, |ds|)
  {
    if ds == [] {
    } else {
      var n := |ds| - 1;
      NumberFits(ds[..n], base);
      MulLeq(Number(ds[..n], base) + 1, Pow(base, n), base);
      assert (Number(ds[..n], base) + 1) * base == Number(ds[..n], base) * base + base;
    }
  }

  lemma QuotientFits(g: nat, base: nat, bound: nat)
    requires base > 0 && g < bound * base
    ensures 0 <= g / base < bound
  {
    DivisionIs(g, base);
    if g / base >= bound { MulLeq(bound, g / base, base); }
  }

  /** A number is recovered from enough of its digits. */
  lemma {:induction false} NumberOfDigits(g: nat, base: nat, n: nat)
    requires base > 0 && g < Pow(base, n)
    ensures Number(Digits(g, base, n), base) == g
    decreases n
  {
    if n == 0 {
    } else {
      QuotientFits(g, base, Pow(base, n - 1));
      NumberOfDigits(g / base, base, n - 1);
      DigitsEnd(g, base, n);
      DivisionIs(g, base);
    }
  }

  lemma DigitsEnd(g: nat, base: nat, n: nat)
    requires base > 0 && n > 0
    ensures 0 <= g / base && Number(Digits(g, base, n), base) == Number(Digits(g / base, base, n - 1), base) * base + g % base
  {
    RemainderIs(g, base);
    var ds, front := Digits(g, base, n), Digits(g / base, base, n - 1);
    assert ds == front + [g % base] && ds[..n - 1] == front;
  }

  lemma Distribute(x: nat, p: nat, y: nat, base: nat)
    ensures (x * p + y) * base == x * (p * base) + y * base
  {
  }

  /** Concatenation shifts the first number past the digits of the second. */
  lemma {:induction false} NumberSplit(a: seq<nat>, b: seq<nat>, base: nat)
    ensures Number(a + b, base) == Number(a, base) * Pow(base, |b|) + Number(b, base)
  {
    if b == [] {
      assert a + b == a;
    } else {
      var n := |b| - 1;
      NumberSplit(a, b[..n], base);
      assert (a + b)[..|a + b| - 1] == a + b[..n];
      Distribute(Number(a, base), Pow(base, n), Number(b[..n], base), base);
    }
  }

  // ----- The two tables

  type Byte = x: nat | x < 256

  const PAD: Byte := 61 // '='

  /** The alphabet: A-Z, a-z, 0-9, '-', '_'. */
  function Symbol(v: nat): Byte {
    if v < 26 then v + 65 else if v < 52 then v + 71 else if v < 62 then v - 4 else if v == 62 then 45 else 95
  }

  /** The decode table; -1 outside the alphabet. */
  function CodeOf(c: Byte): int {
    if 65 <= c <= 90 then c - 65
    else if 97 <= c <= 122 then c - 71
    else if 48 <= c <= 57 then c + 4
    else if c == 45 then 62
    else if c == 95 then 63
    else -1
  }

  /** The 64 symbols, in order. */
  lemma AlphabetIs()
    ensures "ABCDEFGHIJKLMNOPQRSTUVWXYZabcdefghijklmnopqrstuvwxyz0123456789-_" ==
      [Symbol(0) as char, Symbol(1) as char, Symbol(2) as char, Symbol(3) as char, Symbol(4) as char, Symbol(5) as char, Symbol(6) as char, Symbol(7) as char,
       Symbol(8) as char, Symbol(9) as char, Symbol(10) as char, Symbol(11) as char, Symbol(12) as char, Symbol(13) as char, Symbol(14) as char, Symbol(15) as char,
       Symbol(16) as char, Symbol(17) as char, Symbol(18) as char, Symbol(19) as char, Symbol(20) as char, Symbol(21) as char, Symbol(22) as char, Symbol(23) as char,
       Symbol(24) as char, Symbol(25) as char, Symbol(26) as char, Symbol(27) as char, Symbol(28) as char, Symbol(29) as char, Symbol(30) as char, Symbol(31) as char,
       Symbol(32) as char, Symbol(33) as char, Symbol(34) as char, Symbol(35) as char, Symbol(36) as char, Symbol(37) as char, Symbol(38) as char, Symbol(39) as char,
       Symbol(40) as char, Symbol(41) as char, Symbol(42) as char, Symbol(43) as char, Symbol(44) as char, Symbol(45) as char, Symbol(46) as char, Symbol(47) as char,
       Symbol(48) as char, Symbol(49) as char, Symbol(50) as char, Symbol(51) as char, Symbol(52) as char, Symbol(53) as char, Symbol(54) as char, Symbol(55) as char,
       Symbol(56) as char, Symbol(57) as char, Symbol(58) as char, Symbol(59) as char, Symbol(60) as char, Symbol(61) as char, Symbol(62) as char, Symbol(63) as char]
  {
  }

  lemma SymbolDecodes(v: nat)
    requires v < 64
    ensures CodeOf(Symbol(v)) == v && Symbol(v) != PAD
  {
  }

  lemma SymbolOfCode(c: Byte)
    requires CodeOf(c) >= 0
    ensures Symbol(CodeOf(c)) == c && c != PAD
  {
  }

  function Text(ds: seq<nat>): (s: seq<Byte>)
    ensures |s| == |ds| && forall i :: 0 <= i < |ds| ==> s[i] == Symbol(ds[i])
  {
    seq(|ds|, i requires 0 <= i < |ds| => Symbol(ds[i]))
  }

  /** The sextets of a text; '=' and anything else outside the alphabet counts as zero. */
  function Values(s: seq<Byte>): (ds: seq<nat>)
    ensures |ds| == |s| && forall i :: 0 <= i < |s| ==> ds[i] == if CodeOf(s[i]) >= 0 then CodeOf(s[i]) else 0
    ensures forall i :: 0 <= i < |s| ==> ds[i] < 64
  {
    seq(|s|, i requires 0 <= i < |s| => if CodeOf(s[i]) >= 0 then CodeOf(s[i]) else 0)
  }

  predicate Alphabetic(s: seq<Byte>) {
    forall i :: 0 <= i < |s| ==> CodeOf(s[i]) >= 0
  }

  lemma ValuesOfText(ds: seq<nat>)
    requires forall i :: 0 <= i < |ds| ==> ds[i] < 64
    ensures Values(Text(ds)) == ds && Alphabetic(Text(ds)) && PAD !in Text(ds)
  {
    var s := Text(ds);
    forall i | 0 <= i < |ds| ensures CodeOf(s[i]) == ds[i] && s[i] != PAD { SymbolDecodes(ds[i]); }
  }

  lemma TextOfValues(s: seq<Byte>)
    requires Alphabetic(s)
    ensures Text(Values(s)) == s && PAD !in s
  {
    var ds := Values(s);
    var t := Text(ds);
    forall i | 0 <= i < |s| ensures t[i] == s[i] && s[i] != PAD { SymbolOfCode(s[i]); }
  }

  // ----- Encoding

  /** The number of `n` octets, shifted left over the bits of the last symbol that no octet fills. */
  function Scaled(m: nat, n: nat): nat {
    if n % 3 == 0 then m else if n % 3 == 1 then m * 16 else m * 4
  }

  /** One to three octets become one symbol more: the digits of their number, shifted left to fill the
      last symbol. */
  function EncodeGroup(x: seq<Byte>): (s: seq<Byte>)
    requires 1 <= |x| <= 3
    ensures |s| == |x| + 1
  {
    Text(Digits(Scaled(Number(x, 256), |x|), 64, |x| + 1))
  }

  function Encode(x: seq<Byte>): seq<Byte> {
    if x == [] then []
    else if |x| < 3 then EncodeGroup(x)
    else EncodeGroup(x[..3]) + Encode(x[3..])
  }

  lemma TwoDigits(g: nat, base: nat)
    requires base > 0
    ensures 0 <= g / base && Digits(g, base, 2) == [(g / base) % base, g % base]
  {
    RemainderIs(g, base);
    RemainderIs(g / base, base);
    assert Digits(g / base / base, base, 0) == [];
    assert Digits(g / base, base, 1) == [(g / base) % base];
  }

  lemma ThreeDigits(g: nat, base: nat)
    requires base > 0
    ensures 0 <= g / base && 0 <= g / base / base
    ensures Digits(g, base, 3) == [(g / base / base) % base, (g / base) % base, g % base]
  {
    RemainderIs(g, base);
    TwoDigits(g / base, base);
  }

  lemma FourDigits(g: nat, base: nat)
    requires base > 0
    ensures 0 <= g / base && 0 <= g / base / base && 0 <= g / base / base / base
    ensures Digits(g, base, 4) == [(g / base / base / base) % base, (g / base / base) % base, (g / base) % base, g % base]
  {
    RemainderIs(g, base);
    ThreeDigits(g / base, base);
  }

  lemma NumberOfTwo(a: nat, b: nat, base: nat)
    ensures Number([a], base) == a && Number([a, b], base) == a * base + b
  {
    assert [a, b][..1] == [a] && [a][..0] == [];
  }

  lemma NumberOfThree(a: nat, b: nat, c: nat, base: nat)
    ensures Number([a, b, c], base) == (a * base + b) * base + c
  {
    NumberOfTwo(a, b, base);
    assert [a, b, c][..2] == [a, b];
  }

  lemma NumberOfFour(a: nat, b: nat, c: nat, d: nat, base: nat)
    ensures Number([a, b, c, d], base) == ((a * base + b) * base + c) * base + d
  {
    NumberOfThree(a, b, c, base);
    assert [a, b, c, d][..3] == [a, b, c];
  }

  /** The source's shifts and masks of a word are its digits. */
  lemma WordDigits(b: nat)
    ensures Digits(b, 64, 4) == [(b / 262144) % 64, (b / 4096) % 64, (b / 64) % 64, b % 64]
  {
    FourDigits(b, 64);
    assert b / 64 / 64 == b / 4096 && b / 64 / 64 / 64 == b / 262144;
  }

  method EncodeThree(x: seq<Byte>) returns (symbols: seq<Byte>)
    requires |x| == 3
    ensures symbols == EncodeGroup(x)
  {
    var n0: nat, n1: nat, n2: nat := x[0], x[1], x[2];
    var b := n0 * 65536 + n1 * 256 + n2;
    NumberOfThree(n0, n1, n2, 256);
    assert x == [n0, n1, n2];
    WordDigits(b);
    symbols := [Symbol((b / 262144) % 64), Symbol((b / 4096) % 64), Symbol((b / 64) % 64), Symbol(b % 64)];
  }

  method EncodeOne(x: seq<Byte>) returns (symbols: seq<Byte>)
    requires |x| == 1
    ensures symbols == EncodeGroup(x)
  {
    var n0: nat := x[0];
    var b := n0 * 65536;
    NumberOfTwo(n0, 0, 256);
    assert x == [n0];
    TwoDigits(n0 * 16, 64);
    assert b / 4096 == n0 * 16 && b / 262144 == n0 * 16 / 64;
    symbols := [Symbol((b / 262144) % 64), Symbol((b / 4096) % 64)];
  }

  method EncodeTwo(x: seq<Byte>) returns (symbols: seq<Byte>)
    requires |x| == 2
    ensures symbols == EncodeGroup(x)
  {
    var n0: nat, n1: nat := x[0], x[1];
    var b := n0 * 65536 + n1 * 256;
    var m := (n0 * 256 + n1) * 4;
    NumberOfTwo(n0, n1, 256);
    assert x == [n0, n1];
    ThreeDigits(m, 64);
    assert b / 64 == m && b / 4096 == m / 64 && b / 262144 == m / 64 / 64;
    symbols := [Symbol((b / 262144) % 64), Symbol((b / 4096) % 64), Symbol((b / 64) % 64)];
  }

  lemma EncodeAt(data: seq<Byte>, i: nat)
    requires i + 3 <= |data|
    ensures Encode(data[i..]) == EncodeGroup(data[i..i + 3]) + Encode(data[i + 3..])
  {
    assert data[i..][..3] == data[i..i + 3] && data[i..][3..] == data[i + 3..];
  }

  method EncodeBytes(data: seq<Byte>) returns (result: seq<Byte>)
    ensures result == Encode(data)
  {
    result := [];
    var i := 0;
    while i + 2 < |data|
      invariant 0 <= i <= |data|
      invariant result + Encode(data[i..]) == Encode(data)
      decreases |data| - i
    {
      EncodeAt(data, i);
      var quad := EncodeThree(data[i..i + 3]);
      result := result + quad;
      i := i + 3;
    }
    if i + 1 == |data| {
      var pair := EncodeOne(data[i..]);
      result := result + pair;
    } else if i + 2 == |data| {
      var triple := EncodeTwo(data[i..]);
      result := result + triple;
    }
  }

  // ----- Decoding

  function Pads(n: nat): (p: seq<Byte>)
    ensures |p| == n && forall i :: 0 <= i < n ==> p[i] == PAD
  {
    seq(n, _ => PAD)
  }

  /** How far a length is from a multiple of four. */
  function Short(n: nat): nat {
    (4 - n % 4) % 4
  }

  /** '=' up to a multiple of four characters. */
  function Padded(s: seq<Byte>): seq<Byte> {
    s + Pads(Short(|s|))
  }

  /** Two symbols, then symbols or '='; the loop gives up at the first other group. */
  predicate Readable(q: seq<Byte>)
    requires |q| == 4
  {
    && CodeOf(q[0]) >= 0 && CodeOf(q[1]) >= 0
    && (CodeOf(q[2]) >= 0 || q[2] == PAD) && (CodeOf(q[3]) >= 0 || q[3] == PAD)
  }

  /** The octets of a group, without those at '='. */
  function Selected(ds: seq<nat>, q: seq<Byte>): (r: seq<Byte>)
    requires |ds| == 3 && |q| == 4 && forall i :: 0 <= i < 3 ==> ds[i] < 256
    ensures q[2] != PAD && q[3] != PAD ==> r == ds
  {
    [ds[0]] + (if q[2] != PAD then [ds[1]] else []) + (if q[3] != PAD then [ds[2]] else [])
  }

  function ValueOf(c: Byte): nat {
    if CodeOf(c) >= 0 then CodeOf(c) else 0
  }

  /** The 24-bit word of four characters. */
  function Word(q: seq<Byte>): nat
    requires |q| == 4
  {
    ValueOf(q[0]) * 262144 + ValueOf(q[1]) * 4096 + ValueOf(q[2]) * 64 + ValueOf(q[3])
  }

  lemma WordIsNumber(q: seq<Byte>)
    requires |q| == 4
    ensures Word(q) == Number(Values(q), 64)
  {
    NumberOfFour(ValueOf(q[0]), ValueOf(q[1]), ValueOf(q[2]), ValueOf(q[3]), 64);
    assert Values(q) == [ValueOf(q[0]), ValueOf(q[1]), ValueOf(q[2]), ValueOf(q[3])];
  }

  function DecodeGroup(q: seq<Byte>): seq<Byte>
    requires |q| == 4
  {
    Selected(Digits(Word(q), 256, |q| - 1), q)
  }

  function DecodeGroups(p: seq<Byte>): seq<Byte> {
    if |p| < 4 || !Readable(p[..4]) then [] else DecodeGroup(p[..4]) + DecodeGroups(p[4..])
  }

  function Decode(s: seq<Byte>): seq<Byte> {
    DecodeGroups(Padded(s))
  }

  method SplitWord(b: nat) returns (o0: Byte, o1: Byte, o2: Byte)
    ensures Digits(b, 256, 3) == [o0, o1, o2]
  {
    ThreeDigits(b, 256);
    assert b / 256 / 256 == b / 65536;
    o0, o1, o2 := (b / 65536) % 256, (b / 256) % 256, b % 256;
  }

  /** The loop body: false where the loop breaks. */
  method DecodeWord(q: seq<Byte>) returns (ok: bool, bytes: seq<Byte>)
    requires |q| == 4
    ensures ok == Readable(q) && bytes == if ok then DecodeGroup(q) else []
  {
    var c0, c1, c2, c3 := CodeOf(q[0]), CodeOf(q[1]), CodeOf(q[2]), CodeOf(q[3]);
    if c0 < 0 || c1 < 0 { return false, []; }
    if c2 < 0 && q[2] != PAD { return false, []; }
    if c3 < 0 && q[3] != PAD { return false, []; }
    var d2: nat, d3: nat := if c2 >= 0 then c2 else 0, if c3 >= 0 then c3 else 0;
    var b := c0 * 262144 + c1 * 4096 + d2 * 64 + d3;
    var o0, o1, o2 := SplitWord(b);
    bytes := [o0];
    if q[2] != PAD { bytes := bytes + [o1]; }
    if q[3] != PAD { bytes := bytes + [o2]; }
    return true, bytes;
  }

  lemma DecodeAt(p: seq<Byte>, i: nat)
    requires i + 4 <= |p|
    ensures DecodeGroups(p[i..]) ==
      if Readable(p[i..i + 4]) then DecodeGroup(p[i..i + 4]) + DecodeGroups(p[i + 4..]) else []
  {
    assert p[i..][..4] == p[i..i + 4] && p[i..][4..] == p[i + 4..];
  }

  /** One turn of the loop, from offset `i` to the next group. */
  lemma DecodeTurn(p: seq<Byte>, i: nat, result: seq<Byte>, ok: bool, bytes: seq<Byte>, whole: seq<Byte>)
    requires i + 4 <= |p| && result + DecodeGroups(p[i..]) == whole
    requires ok == Readable(p[i..i + 4]) && bytes == if ok then DecodeGroup(p[i..i + 4]) else []
    ensures if ok then (result + bytes) + DecodeGroups(p[i + 4..]) == whole else result == whole
  {
    DecodeAt(p, i);
    Regroup(result, bytes, DecodeGroups(p[i + 4..]));
  }

  lemma Regroup(a: seq<Byte>, b: seq<Byte>, c: seq<Byte>)
    ensures a + (b + c) == (a + b) + c && a + [] == a
  {
  }

  lemma ShortIs(n: nat, k: nat)
    ensures Short(n) < 4 && (n + Short(n)) % 4 == 0
    ensures k <= Short(n) && (n + k) % 4 == 0 ==> k == Short(n)
  {
  }

  method PadText(value: seq<Byte>) returns (padded: seq<Byte>)
    ensures padded == Padded(value) && |padded| % 4 == 0
  {
    padded := value;
    var k := 0;
    ShortIs(|value|, 0);
    assert value + Pads(0) == value;
    while |padded| % 4 != 0
      invariant 0 <= k <= Short(|value|) && padded == value + Pads(k)
      decreases Short(|value|) - k
    {
      assert value + Pads(k) + [PAD] == value + Pads(k + 1);
      padded, k := padded + [PAD], k + 1;
    }
    ShortIs(|value|, k);
  }

  method DecodeWords(padded: seq<Byte>) returns (result: seq<Byte>)
    requires |padded| % 4 == 0
    ensures result == DecodeGroups(padded)
  {
    result := [];
    var i := 0;
    ghost var left := |padded| / 4;
    assert padded[0..] == padded;
    while i < |padded|
      invariant 0 <= i <= |padded| && i + 4 * left == |padded|
      invariant result + DecodeGroups(padded[i..]) == DecodeGroups(padded)
      decreases |padded| - i
    {
      var ok, bytes := DecodeWord(padded[i..i + 4]);
      DecodeTurn(padded, i, result, ok, bytes, DecodeGroups(padded));
      if !ok { return; }
      result := result + bytes;
      i, left := i + 4, left - 1;
    }
  }

  method DecodeText(value: seq<Byte>) returns (result: seq<Byte>)
    ensures result == Decode(value)
  {
    var padded := PadText(value);
    result := DecodeWords(padded);
  }

  // ----- One group there and back

  function Zeros(n: nat): (z: seq<Byte>)
    ensures |z| == n && forall i :: 0 <= i < n ==> z[i] == 0
  {
    seq(n, _ => 0)
  }

  lemma PowersOf(base: nat)
    ensures Pow(base, 0) == 1 && Pow(base, 1) == base && Pow(base, 2) == base * base && Pow(base, 3) == base * base * base
  {
    assert Pow(base, 1) == Pow(base, 0) * base;
    assert Pow(base, 2) == Pow(base, 1) * base;
  }

  lemma PowersOf64()
    ensures Pow(64, 0) == 1 && Pow(64, 1) == 64 && Pow(64, 2) == 4096 && Pow(64, 3) == 262144 && Pow(64, 4) == 16777216
  {
    PowersOf(64);
    assert Pow(64, 4) == Pow(64, 3) * 64;
  }

  lemma PowersOf256()
    ensures Pow(256, 0) == 1 && Pow(256, 1) == 256 && Pow(256, 2) == 65536 && Pow(256, 3) == 16777216
  {
    PowersOf(256);
  }

  lemma {:induction false} NumberOfZeros(n: nat, base: nat)
    ensures Number(Zeros(n), base) == 0
  {
    if n == 0 {
    } else {
      NumberOfZeros(n - 1, base);
      assert Zeros(n)[..n - 1] == Zeros(n - 1);
    }
  }

  /** Appended zeros shift. */
  lemma ZerosShift(ds: seq<nat>, n: nat, base: nat)
    ensures Number(ds + Zeros(n), base) == Number(ds, base) * Pow(base, n)
  {
    NumberOfZeros(n, base);
    NumberSplit(ds, Zeros(n), base);
  }

  /** '=' reads as zero. */
  lemma PadsAreZero(s: seq<Byte>, n: nat)
    ensures Values(s + Pads(n)) == Values(s) + Zeros(n)
  {
    var t := s + Pads(n);
    forall i | 0 <= i < |t| ensures Values(t)[i] == (Values(s) + Zeros(n))[i] {
      if i < |s| { assert t[i] == s[i]; } else { assert t[i] == PAD; }
    }
  }

  lemma GroupFits(m: nat, n: nat)
    requires 1 <= n <= 3 && m < Pow(256, n)
    ensures Scaled(m, n) < Pow(64, n + 1)
  {
    PowersOf256();
    PowersOf64();
  }

  lemma TextNumber(m: nat, n: nat)
    requires m < Pow(64, n)
    ensures var s := Text(Digits(m, 64, n));
      Values(s) == Digits(m, 64, n) && Number(Values(s), 64) == m && Alphabetic(s) && PAD !in s
  {
    NumberOfDigits(m, 64, n);
    ValuesOfText(Digits(m, 64, n));
  }

  lemma GroupText(m: nat, n: nat)
    requires 1 <= n <= 3 && m < Pow(256, n)
    ensures var d := Digits(Scaled(m, n), 64, n + 1);
      Scaled(m, n) < Pow(64, n + 1) && Values(Text(d)) == d && Number(d, 64) == Scaled(m, n) && Alphabetic(Text(d)) && PAD !in Text(d)
  {
    GroupFits(m, n);
    TextNumber(Scaled(m, n), n + 1);
  }

  /** The number of a group, as octets and as symbols. */
  lemma GroupNumber(x: seq<Byte>)
    requires 1 <= |x| <= 3
    ensures Scaled(Number(x, 256), |x|) < Pow(64, |x| + 1)
    ensures Values(EncodeGroup(x)) == Digits(Scaled(Number(x, 256), |x|), 64, |x| + 1)
    ensures Number(Values(EncodeGroup(x)), 64) == Scaled(Number(x, 256), |x|)
    ensures Alphabetic(EncodeGroup(x)) && PAD !in EncodeGroup(x)
  {
    NumberFits(x, 256);
    GroupText(Number(x, 256), |x|);
  }

  /** n octets and n + 1 symbols, both completed to a word, are the same number. */
  lemma SameWord(m: nat, n: nat)
    requires 1 <= n <= 3
    ensures Scaled(m, n) * Pow(64, 3 - n) == m * Pow(256, 3 - n)
  {
    PowersOf256();
    PowersOf64();
  }

  lemma WordNumber(x: seq<Byte>, s: seq<Byte>)
    requires 1 <= |x| <= 3 && |s| == |x| + 1 && Number(Values(s), 64) == Scaled(Number(x, 256), |x|)
    ensures Digits(Number(Values(s + Pads(3 - |x|)), 64), 256, 3) == x + Zeros(3 - |x|)
  {
    var k := 3 - |x|;
    ZerosShift(x, k, 256);
    PadsAreZero(s, k);
    ZerosShift(Values(s), k, 64);
    SameWord(Number(x, 256), |x|);
    DigitsOfNumber(x + Zeros(k), 256);
  }

  /** What a padded group of alphabet symbols selects. */
  lemma Selects(s: seq<Byte>, x: seq<Byte>)
    requires 1 <= |x| <= 3 && |s| == |x| + 1 && Alphabetic(s) && PAD !in s
    ensures var q := s + Pads(3 - |x|); Readable(q) && Selected(x + Zeros(3 - |x|), q) == x
  {
    var q, y := s + Pads(3 - |x|), x + Zeros(3 - |x|);
    assert q[0] == s[0] && q[1] == s[1];
    assert q[2] == if |x| >= 2 then s[2] else PAD;
    assert q[3] == if |x| == 3 then s[3] else PAD;
    if |x| == 1 {
      assert Selected(y, q) == [x[0]];
    } else if |x| == 2 {
      assert Selected(y, q) == [x[0], x[1]];
    } else {
      assert y == x;
    }
  }

  lemma GroupRoundTrip(x: seq<Byte>)
    requires 1 <= |x| <= 3
    ensures var q := EncodeGroup(x) + Pads(3 - |x|); |q| == 4 && Readable(q) && DecodeGroup(q) == x
  {
    GroupNumber(x);
    WordNumber(x, EncodeGroup(x));
    WordIsNumber(EncodeGroup(x) + Pads(3 - |x|));
    Selects(EncodeGroup(x), x);
  }

  // ----- Whole texts

  lemma DecodeFront(q: seq<Byte>, s: seq<Byte>)
    requires |q| == 4 && Readable(q)
    ensures Decode(q + s) == DecodeGroup(q) + Decode(s)
  {
    var n := Short(|s|);
    assert Short(|q + s|) == n;
    var p := q + (s + Pads(n));
    assert (q + s) + Pads(n) == p;
    assert p[..4] == q && p[4..] == s + Pads(n);
  }

  /** A text of one short group. */
  lemma DecodeLast(s: seq<Byte>)
    requires 2 <= |s| <= 3 && Readable(s + Pads(4 - |s|))
    ensures Decode(s) == DecodeGroup(s + Pads(4 - |s|))
  {
    var q := s + Pads(4 - |s|);
    assert Short(|s|) == 4 - |s|;
    assert q[..4] == q && q[4..] == [];
    assert DecodeGroups([]) == [];
  }

  /** Every byte string survives encoding and decoding. */
  lemma {:induction false} DecodeEncode(x: seq<Byte>)
    ensures Decode(Encode(x)) == x
    decreases |x|
  {
    if x == [] {
      assert Padded([]) == [];
    } else if |x| < 3 {
      GroupRoundTrip(x);
      DecodeLast(EncodeGroup(x));
    } else {
      DecodeEncode(x[3..]);
      DecodeEncodeFront(x[..3], Encode(x[3..]));
      assert x == x[..3] + x[3..];
    }
  }

  lemma DecodeEncodeFront(x: seq<Byte>, s: seq<Byte>)
    requires |x| == 3
    ensures Decode(EncodeGroup(x) + s) == x + Decode(s)
  {
    GroupRoundTrip(x);
    assert EncodeGroup(x) + Pads(0) == EncodeGroup(x);
    DecodeFront(EncodeGroup(x), s);
  }

  // ----- Encoding inverts decoding exactly on canonical text

  /** Alphabet only, a possible length, and zero trailing bits. */
  predicate Canonical(s: seq<Byte>) {
    && Alphabetic(s) && |s| % 4 != 1
    && (|s| % 4 == 2 ==> CodeOf(s[|s| - 1]) % 16 == 0)
    && (|s| % 4 == 3 ==> CodeOf(s[|s| - 1]) % 4 == 0)
  }

  /** Zero trailing bits: the number of a last group is a whole number of octets. */
  lemma WholeOctets(s: seq<Byte>) returns (m: nat)
    requires 2 <= |s| <= 4 && Canonical(s)
    ensures Number(Values(s), 64) == Scaled(m, |s| - 1) && m < Pow(256, |s| - 1)
  {
    var v := Values(s);
    NumberFits(v, 64);
    m := Whole(Number(v[..|v| - 1], 64), v[|v| - 1], |s| - 1);
  }

  lemma Whole(front: nat, last: nat, n: nat) returns (m: nat)
    requires 1 <= n <= 3 && (n == 1 ==> last % 16 == 0) && (n == 2 ==> last % 4 == 0) && front * 64 + last < Pow(64, n + 1)
    ensures front * 64 + last == Scaled(m, n) && m < Pow(256, n)
  {
    PowersOf64();
    PowersOf256();
    if n == 1 {
      m := front * 4 + last / 16;
    } else if n == 2 {
      m := front * 16 + last / 4;
    } else {
      m := front * 64 + last;
    }
  }

  lemma CanonicalGroup(s: seq<Byte>)
    requires 2 <= |s| <= 4 && Canonical(s)
    ensures var q := s + Pads(4 - |s|); Readable(q) && |DecodeGroup(q)| == |s| - 1 && EncodeGroup(DecodeGroup(q)) == s
  {
    var m := WholeOctets(s);
    var x: seq<Byte> := Digits(m, 256, |s| - 1);
    NumberOfDigits(m, 256, |s| - 1);
    TextOfValues(s);
    WordNumber(x, s);
    WordIsNumber(s + Pads(4 - |s|));
    Selects(s, x);
    DigitsOfNumber(Values(s), 64);
  }

  lemma CanonicalRest(s: seq<Byte>)
    requires |s| >= 4 && Canonical(s)
    ensures Canonical(s[..4]) && Canonical(s[4..])
  {
    var t := s[4..];
    forall i | 0 <= i < |t| ensures CodeOf(t[i]) >= 0 { assert t[i] == s[i + 4]; }
    assert t != [] ==> t[|t| - 1] == s[|s| - 1];
  }

  lemma {:induction false} EncodeDecodeCanonical(s: seq<Byte>)
    requires Canonical(s)
    ensures Encode(Decode(s)) == s
    decreases |s|
  {
    if s == [] {
      assert Padded([]) == [];
    } else if |s| < 4 {
      CanonicalGroup(s);
      DecodeLast(s);
    } else {
      var q := s[..4];
      CanonicalRest(s);
      CanonicalGroup(q);
      assert q + Pads(0) == q && s == q + s[4..];
      DecodeFront(q, s[4..]);
      EncodeDecodeCanonical(s[4..]);
      EncodeFront(DecodeGroup(q), Decode(s[4..]));
    }
  }

  lemma EncodeFront(x: seq<Byte>, y: seq<Byte>)
    requires |x| == 3
    ensures Encode(x + y) == EncodeGroup(x) + Encode(y)
  {
    assert (x + y)[..3] == x && (x + y)[3..] == y;
  }

  /** What the encoder writes is canonical text of the expected length. */
  lemma {:induction false} EncodeIsCanonical(x: seq<Byte>)
    ensures Canonical(Encode(x)) && |Encode(x)| == (4 * |x| + 2) / 3
    decreases |x|
  {
    if x == [] {
    } else if |x| < 3 {
      LastIsCanonical(x);
    } else {
      GroupNumber(x[..3]);
      EncodeIsCanonical(x[3..]);
      CanonicalFront(EncodeGroup(x[..3]), Encode(x[3..]));
    }
  }

  lemma LastIsCanonical(x: seq<Byte>)
    requires 1 <= |x| <= 2
    ensures Canonical(EncodeGroup(x))
  {
    var s, m := EncodeGroup(x), Number(x, 256);
    GroupNumber(x);
    LowBits(m, |x|);
    EndsIn(Scaled(m, |x|), |x|, s);
    if |x| == 1 { assert CodeOf(s[1]) % 16 == 0; } else { assert CodeOf(s[2]) % 4 == 0; }
  }

  lemma EndsIn(m: nat, k: nat, s: seq<Byte>)
    requires |s| == k + 1 && Values(s) == Digits(m, 64, k + 1) && Alphabetic(s)
    ensures CodeOf(s[k]) == m % 64
  {
    assert Digits(m, 64, k + 1)[k] == m % 64;
    assert CodeOf(s[k]) == Values(s)[k];
  }

  lemma LowBits(m: nat, n: nat)
    requires 1 <= n <= 2
    ensures n == 1 ==> (Scaled(m, n)) % 64 % 16 == 0
    ensures n == 2 ==> (Scaled(m, n)) % 64 % 4 == 0
  {
    if n == 1 {
      DivMod(m / 4, m % 4 * 16, 64);
      assert m * 16 == m / 4 * 64 + m % 4 * 16;
    } else {
      DivMod(m / 16, m % 16 * 4, 64);
      assert m * 4 == m / 16 * 64 + m % 16 * 4;
    }
  }

  lemma CanonicalFront(q: seq<Byte>, s: seq<Byte>)
    requires |q| == 4 && Alphabetic(q) && Canonical(s)
    ensures Canonical(q + s)
  {
    var t := q + s;
    forall i | 0 <= i < |t| ensures CodeOf(t[i]) >= 0 { assert t[i] == if i < 4 then q[i] else s[i - 4]; }
    assert s != [] ==> t[|t| - 1] == s[|s| - 1];
  }

  /** Encoding gives back a decoded text exactly when the text is canonical. */
  lemma EncodeDecode(s: seq<Byte>)
    ensures Encode(Decode(s)) == s <==> Canonical(s)
  {
    EncodeIsCanonical(Decode(s));
    if Canonical(s) { EncodeDecodeCanonical(s); }
  }

  // ----- An independent reading: text and data are one big-endian number

  lemma {:induction false} Widths(n: nat)
    ensures Pow(64, (4 * n + 2) / 3) == Scaled(Pow(256, n), n)
    decreases n
  {
    if n < 3 {
      NarrowWidths(n);
    } else {
      var k := (4 * (n - 3) + 2) / 3;
      assert (4 * n + 2) / 3 == k + 4;
      Widths(n - 3);
      OneWord(k, n - 3);
      Rescale(Pow(256, n - 3), n - 3);
    }
  }

  lemma NarrowWidths(n: nat)
    requires n < 3
    ensures Pow(64, (4 * n + 2) / 3) == Scaled(Pow(256, n), n)
  {
    PowersOf256();
    PowersOf64();
    if n == 1 { assert (4 * n + 2) / 3 == 2; }
    if n == 2 { assert (4 * n + 2) / 3 == 3; }
  }

  lemma Rescale(p: nat, n: nat)
    ensures Scaled(p * 16777216, n + 3) == Scaled(p, n) * 16777216
  {
  }

  /** Four symbols are as wide as three octets. */
  lemma OneWord(k: nat, n: nat)
    ensures Pow(64, k + 4) == Pow(64, k) * 16777216 && Pow(256, n + 3) == Pow(256, n) * 16777216
  {
    assert Pow(64, k + 4) == Pow(64, k + 3) * 64 && Pow(64, k + 3) == Pow(64, k + 2) * 64;
    assert Pow(64, k + 2) == Pow(64, k + 1) * 64 && Pow(64, k + 1) == Pow(64, k) * 64;
    assert Pow(256, n + 3) == Pow(256, n + 2) * 256 && Pow(256, n + 2) == Pow(256, n + 1) * 256;
  }

  lemma ValuesSplit(a: seq<Byte>, b: seq<Byte>)
    ensures Values(a + b) == Values(a) + Values(b)
  {
  }

  /** The symbols of the text are the base-64 digits of the data read as one big-endian number, shifted
      left by the unfilled bits of the last symbol; with the length and the alphabet this fixes the text. */
  lemma {:induction false} TextIsPositional(x: seq<Byte>)
    ensures Number(Values(Encode(x)), 64) == Scaled(Number(x, 256), |x|)
    decreases |x|
  {
    if x == [] {
      assert Values([]) == [];
    } else if |x| < 3 {
      GroupNumber(x);
    } else {
      TextIsPositional(x[3..]);
      LongIsPositional(x);
    }
  }

  lemma LongIsPositional(x: seq<Byte>)
    requires |x| >= 3 && Number(Values(Encode(x[3..])), 64) == Scaled(Number(x[3..], 256), |x[3..]|)
    ensures Number(Values(Encode(x)), 64) == Scaled(Number(x, 256), |x|)
  {
    EncodeIsCanonical(x[3..]);
    SplitText(x);
    NumbersCombine(x, |Encode(x[3..])|, Number(Values(Encode(x[3..])), 64), Number(Values(Encode(x)), 64));
  }

  lemma NumbersCombine(x: seq<Byte>, k: nat, t: nat, e: nat)
    requires |x| >= 3 && k == (4 * |x[3..]| + 2) / 3 && t == Scaled(Number(x[3..], 256), |x[3..]|)
    requires e == Number(x[..3], 256) * Pow(64, k) + t
    ensures e == Scaled(Number(x, 256), |x|)
  {
    var y := x[3..];
    Widths(|y|);
    SplitData(x);
    Combine(Number(x[..3], 256), Pow(256, |y|), Number(y, 256), |y|, Pow(64, k), t);
  }

  lemma Combine(a: nat, p: nat, y: nat, n: nat, w: nat, t: nat)
    requires w == Scaled(p, n) && t == Scaled(y, n)
    ensures a * w + t == Scaled(a * p + y, n + 3)
  {
    Shift(a, p, y, n);
  }

  lemma SplitData(x: seq<Byte>)
    requires |x| >= 3
    ensures Number(x, 256) == Number(x[..3], 256) * Pow(256, |x[3..]|) + Number(x[3..], 256)
  {
    assert x == x[..3] + x[3..];
    NumberSplit(x[..3], x[3..], 256);
  }

  lemma SplitText(x: seq<Byte>)
    requires |x| >= 3
    ensures Number(Values(Encode(x)), 64)
         == Number(x[..3], 256) * Pow(64, |Encode(x[3..])|) + Number(Values(Encode(x[3..])), 64)
  {
    GroupNumber(x[..3]);
    JoinTexts(EncodeGroup(x[..3]), Encode(x[3..]));
    assert Number(Values(EncodeGroup(x[..3])), 64) == Number(x[..3], 256);
  }

  lemma JoinTexts(a: seq<Byte>, b: seq<Byte>)
    ensures Number(Values(a + b), 64) == Number(Values(a), 64) * Pow(64, |b|) + Number(Values(b), 64)
  {
    ValuesSplit(a, b);
    NumberSplit(Values(a), Values(b), 64);
  }

  lemma Shift(a: nat, p: nat, y: nat, n: nat)
    ensures a * Scaled(p, n) + Scaled(y, n) == Scaled(a * p + y, n)
  {
    if n % 3 == 1 { assert a * (p * 16) == (a * p) * 16; }
    if n % 3 == 2 { assert a * (p * 4) == (a * p) * 4; }
  }

  // ----- Other texts

  /** Padding is optional: a text completed with '=' decodes like the text without it. */
  lemma PaddingIsOptional(s: seq<Byte>)
    ensures Decode(s + Pads(Short(|s|))) == Decode(s)
  {
    ShortIs(|s|, 0);
    var p := s + Pads(Short(|s|));
    assert Short(|p|) == 0 && p + Pads(0) == p;
  }

  /** The four characters are not two symbols followed by symbols or '='. */
  predicate Broken(q: seq<Byte>)
    requires |q| == 4
  {
    || CodeOf(q[0]) < 0 || CodeOf(q[1]) < 0
    || (CodeOf(q[2]) < 0 && q[2] != PAD) || (CodeOf(q[3]) < 0 && q[3] != PAD)
  }

  /** Decoding keeps what comes before the first broken group and drops the rest. */
  lemma {:induction false} DecodeStops(a: seq<Byte>, q: seq<Byte>, rest: seq<Byte>)
    requires |a| % 4 == 0 && Alphabetic(a) && |q| == 4 && Broken(q)
    ensures Decode(a + (q + rest)) == Decode(a)
    decreases |a|
  {
    if a == [] {
      var s := q + rest;
      assert a + s == s && Padded(s)[..4] == q;
      assert Padded([]) == [];
    } else {
      var g, b := a[..4], a[4..];
      forall i | 0 <= i < |b| ensures CodeOf(b[i]) >= 0 { assert b[i] == a[i + 4]; }
      DecodeStops(b, q, rest);
      assert a + (q + rest) == g + (b + (q + rest)) && a == g + b;
      DecodeFront(g, b + (q + rest));
      DecodeFront(g, b);
    }
  }
}
