/** One character of the UTF-8 codec: the byte sequences of section 2 of RFC 2279, one to six bytes long.

    Bytes and characters are bounded integers.  The bit operations of the program, all on unsigned
    values, are written as the arithmetic they stand for: `x & 0x3f` is `x % 0x40`, `x >> 6` is
    `x / 0x40`, and `|` of values with no common bit is `+`. */
module Utf8 {

  type Byte = b: int | 0 <= b < 0x100
  type Char = c: int | 0 <= c < 0x1_0000_0000

  const INVALID: Char := 0xffff
  const REPLACEMENT: Char := 0xfffd

  predicate Surrogate(c: Char) {
    0xd800 <= c <= 0xdfff
  }

  /** What can be encoded: 31 bits, no surrogate. */
  predicate Scalar(c: Char) {
    c < 0x8000_0000 && !Surrogate(c)
  }

  /** The characters the decoder can return. */
  predicate Legal(c: Char) {
    Scalar(c) && c != 0xfffe && c != 0xffff
  }

  // ---------- The encoding ----------

  /** The first character too large for `n` bytes. */
  function Ceiling(n: nat): Char {
    match n
    case 0 => 0
    case 1 => 0x80
    case 2 => 0x800
    case 3 => 0x1_0000
    case 4 => 0x20_0000
    case 5 => 0x400_0000
    case _ => 0x8000_0000
  }

  /** The number of bytes in the shortest form of `c`. */
  function Size(c: Char): (n: nat)
    ensures 1 <= n <= 6
  {
    if c < 0x80 then 1
    else if c < 0x800 then 2
    else if c < 0x1_0000 then 3
    else if c < 0x20_0000 then 4
    else if c < 0x400_0000 then 5
    else 6
  }

  predicate IsContinuation(b: Byte) {
    0x80 <= b < 0xc0
  }

  /** The byte 10xxxxxx that carries the low six bits of `c`. */
  function Continuation(c: Char): (b: Byte)
    ensures IsContinuation(b)
  {
    0x80 + c % 0x40
  }

  /** `c` without its low six bits, `n` times over. */
  function High(c: Char, n: nat): Char {
    if n == 0 then c else High(c / 0x40, n - 1)
  }

  /** The low `6 * n` bits of `c`, most significant group first. */
  function Tail(c: Char, n: nat): (s: seq<Byte>)
    ensures |s| == n
    ensures forall i :: 0 <= i < n ==> IsContinuation(s[i])
  {
    if n == 0 then [] else Tail(c / 0x40, n - 1) + [Continuation(c)]
  }

  /** The first byte: as many leading ones as there are bytes, then the top bits of `c`. */
  function Lead(c: Char): Byte
    requires c < 0x8000_0000
  {
    if c < 0x80 then c
    else if c < 0x800 then 0xc0 + c / 0x40
    else if c < 0x1_0000 then 0xe0 + c / 0x1000
    else if c < 0x20_0000 then 0xf0 + c / 0x4_0000
    else if c < 0x400_0000 then 0xf8 + c / 0x100_0000
    else 0xfc + c / 0x4000_0000
  }

  function Encode(c: Char): (s: seq<Byte>)
    requires c < 0x8000_0000
    ensures |s| == Size(c)
    ensures forall i :: 1 <= i < |s| ==> IsContinuation(s[i])
  {
    [Lead(c)] + Tail(c, Size(c) - 1)
  }

  lemma HighValue(c: Char)
    ensures High(c, 0) == c && High(c, 1) == c / 0x40 && High(c, 2) == c / 0x1000 && High(c, 3) == c / 0x4_0000
    ensures High(c, 4) == c / 0x100_0000 && High(c, 5) == c / 0x4000_0000
  {
    assert High(c, 2) == High(c / 0x40, 1) == c / 0x40 / 0x40;
    assert High(c, 3) == High(c / 0x40, 2) == High(c / 0x40 / 0x40, 1) == c / 0x40 / 0x40 / 0x40;
    assert High(c, 4) == High(c / 0x40 / 0x40 / 0x40, 1);
    assert High(c, 5) == High(c / 0x40 / 0x40 / 0x40 / 0x40, 1);
  }

  /** What the encoder writes for any 32-bit value: a character it cannot encode is replaced. */
  function Encodable(c: Char): (e: Char)
    ensures Scalar(e)
  {
    if Scalar(c) then c else REPLACEMENT
  }

  method ToUTF8(dst: seq<Byte>, ch: Char, errors: bool) returns (out: seq<Byte>, failed: bool)
    ensures out == dst + Encode(Encodable(ch))
    ensures failed == (errors || !Scalar(ch))
  {
    var c := ch;
    failed := errors;
    if (c >= 0xd800 && c <= 0xdfff) || c >= 0x8000_0000 {
      failed := true;
      c := REPLACEMENT;
    }
    HighValue(c);
    TailUnfolded(c, Size(c) - 1);
    hide Continuation, IsContinuation, High, Tail, Lead;
    var lead := LeadByte(c);
    var data: seq<Byte>;
    if c < 0x80 {
      data := [lead];
    } else if c < 0x800 {
      data := [lead, Continuation(c)];
    } else if c < 0x1_0000 {
      data := [lead, Continuation(c / 0x40), Continuation(c)];
    } else if c < 0x20_0000 {
      data := [lead, Continuation(c / 0x1000), Continuation(c / 0x40), Continuation(c)];
    } else if c < 0x400_0000 {
      data := [lead, Continuation(c / 0x4_0000), Continuation(c / 0x1000), Continuation(c / 0x40), Continuation(c)];
    } else {
      data := [lead, Continuation(c / 0x100_0000), Continuation(c / 0x4_0000), Continuation(c / 0x1000),
               Continuation(c / 0x40), Continuation(c)];
    }
    assert |data| == |Encode(c)| && forall i :: 0 <= i < |data| ==> data[i] == Encode(c)[i];
    out := dst + data;
  }

  method LeadByte(c: Char) returns (b: Byte)
    requires c < 0x8000_0000
    ensures b == Lead(c)
  {
    if c < 0x80 {
      b := c;
    } else if c < 0x800 {
      b := c / 0x40 % 0x20 + 0xc0;
    } else if c < 0x1_0000 {
      b := c / 0x1000 % 0x10 + 0xe0;
    } else if c < 0x20_0000 {
      b := c / 0x4_0000 % 0x08 + 0xf0;
    } else if c < 0x400_0000 {
      b := c / 0x100_0000 % 0x04 + 0xf8;
    } else {
      b := c / 0x4000_0000 % 0x02 + 0xfc;
    }
  }

  lemma {:induction false} TailUnfolded(c: Char, n: nat)
    ensures forall i :: 0 <= i < n ==> Tail(c, n)[i] == Continuation(High(c, n - 1 - i))
  {
    if n > 0 {
      TailUnfolded(c / 0x40, n - 1);
      forall i | 0 <= i < n
        ensures Tail(c, n)[i] == Continuation(High(c, n - 1 - i))
      {
        if i < n - 1 {
          assert Tail(c, n)[i] == Tail(c / 0x40, n - 1)[i];
        }
      }
    }
  }

  // ---------- The decoding ----------

  /** The length announced by a first byte; 0 when no sequence can start with it. */
  function Declared(b: Byte): (n: nat)
    ensures n <= 6
  {
    if b < 0x80 then 1
    else if b < 0xc0 then 0
    else if b < 0xe0 then 2
    else if b < 0xf0 then 3
    else if b < 0xf8 then 4
    else if b < 0xfc then 5
    else if b < 0xfe then 6
    else 0
  }

  /** The length of the longest prefix of `s`, up to `n`, whose bytes after the first are continuations. */
  function Extent(s: seq<Byte>, n: nat): (k: nat)
    requires 1 <= n <= |s|
    ensures 1 <= k <= n
    ensures forall i :: 1 <= i < k ==> IsContinuation(s[i])
    ensures k < n ==> !IsContinuation(s[k])
  {
    if n == 1 then 1
    else
      var k := Extent(s, n - 1);
      if k == n - 1 && IsContinuation(s[n - 1]) then n else k
  }

  /** The bits of the first byte that belong to the character. */
  function Top(b: Byte): nat
  {
    match Declared(b)
    case 1 => b
    case 2 => b - 0xc0
    case 3 => b - 0xe0
    case 4 => b - 0xf0
    case 5 => b - 0xf8
    case 6 => b - 0xfc
    case _ => 0
  }

  /** `top` followed by the six payload bits of each of `s[1..n]`. */
  function Payload(top: nat, s: seq<Byte>, n: nat): nat
    requires 1 <= n <= |s|
  {
    if n == 1 then top else Payload(top, s, n - 1) * 0x40 + s[n - 1] % 0x40
  }

  /** `limit` without its low six bits, `n` times over. */
  function Room(limit: nat, n: nat): nat {
    if n == 0 then limit else Room(limit / 0x40, n - 1)
  }

  lemma {:induction false} PayloadBound(top: nat, s: seq<Byte>, n: nat, limit: nat)
    requires 1 <= n <= |s| && top < Room(limit, n - 1)
    ensures Payload(top, s, n) < limit
  {
    if n > 1 {
      PayloadBound(top, s, n - 1, limit / 0x40);
    }
  }

  /** An `n`-byte sequence never holds a character that needs a longer form. */
  lemma PayloadFits(s: seq<Byte>)
    requires s != [] && 1 <= Declared(s[0]) <= |s|
    ensures Payload(Top(s[0]), s, Declared(s[0])) < Ceiling(Declared(s[0]))
  {
    var n := Declared(s[0]);
    RoomValue();
    PayloadBound(Top(s[0]), s, n, Ceiling(n));
  }

  lemma RoomValue()
    ensures Room(0x80, 0) == 0x80 && Room(0x800, 1) == 0x20 && Room(0x1_0000, 2) == 0x10
    ensures Room(0x20_0000, 3) == 0x08 && Room(0x400_0000, 4) == 0x04 && Room(0x8000_0000, 5) == 0x02
  {
    assert Room(0x400, 1) == 0x10;
    assert Room(0x8000, 2) == Room(0x200, 1) == 0x08;
    assert Room(0x10_0000, 3) == Room(0x4000, 2) == Room(0x100, 1) == 0x04;
    assert Room(0x200_0000, 4) == Room(0x8_0000, 3) == Room(0x2000, 2) == Room(0x80, 1) == 0x02;
  }

  datatype Decoded = Decoded(c: Char, len: nat)

  /** One decoding step: the character found and the number of bytes used up. */
  function DecodeOne(s: seq<Byte>): (d: Decoded)
    requires s != []
    ensures 1 <= d.len <= |s| && d.len <= 6
  {
    var n := Declared(s[0]);
    if n == 0 then Decoded(INVALID, 1)
    else if n > |s| then Decoded(INVALID, |s|)
    else if Extent(s, n) < n then Decoded(INVALID, Extent(s, n))
    else
      PayloadFits(s);
      var c: Char := Payload(Top(s[0]), s, n);
      if Size(c) == n && Legal(c) then Decoded(c, n) else Decoded(INVALID, n)
  }

  method FromUTF8(src: seq<Byte>, pos: nat) returns (c: Char, next: nat)
    requires pos < |src|
    ensures next == pos + DecodeOne(src[pos..]).len <= |src|
    ensures c == DecodeOne(src[pos..]).c
  {
    hide IsContinuation, Payload, Extent, Top;
    var data := src[pos..];
    var size;
    if data[0] < 0x80 {
      size := 1;
    } else if data[0] < 0xc0 {
      return INVALID, pos + 1;
    } else if data[0] < 0xe0 {
      size := 2;
    } else if data[0] < 0xf0 {
      size := 3;
    } else if data[0] < 0xf8 {
      size := 4;
    } else if data[0] < 0xfc {
      size := 5;
    } else if data[0] < 0xfe {
      size := 6;
    } else {
      return INVALID, pos + 1;
    }
    if size > |data| {
      return INVALID, pos + |data|;
    }
    PayloadFits(data);
    c := Extract(data, size);
    var truncated;
    size, truncated := Truncate(data, size);
    next := pos + size;
    if truncated {
      return INVALID, next;
    }
    var minChar: seq<Char> := [0, 0x0, 0x80, 0x800, 0x1_0000, 0x20_0000, 0x400_0000];
    if c < minChar[size] {
      return INVALID, next;
    }
    if c >= 0xd800 && c <= 0xdfff {
      return INVALID, next;
    }
    if c >= 0xfffe && c <= 0xffff {
      return INVALID, next;
    }
  }

  /** The bit packing of each length. */
  method Extract(data: seq<Byte>, size: nat) returns (c: Char)
    requires data != [] && 1 <= size == Declared(data[0]) <= |data|
    ensures c == Payload(Top(data[0]), data, size)
  {
    PayloadUnfolded(Top(data[0]), data, size);
    TopMasked(data[0]);
    hide Top, Declared, Payload;
    var b: seq<int> := data;
    if size == 1 {
      c := data[0];
    } else if size == 2 {
      c := b[0] % 0x20 * 0x40 + b[1] % 0x40;
    } else if size == 3 {
      c := b[0] % 0x10 * 0x1000 + b[1] % 0x40 * 0x40 + b[2] % 0x40;
    } else if size == 4 {
      c := b[0] % 0x08 * 0x4_0000 + b[1] % 0x40 * 0x1000 + b[2] % 0x40 * 0x40 + b[3] % 0x40;
    } else if size == 5 {
      c := b[0] % 0x04 * 0x100_0000 + b[1] % 0x40 * 0x4_0000 + b[2] % 0x40 * 0x1000 + b[3] % 0x40 * 0x40
      + b[4] % 0x40;
    } else {
      c := b[0] % 0x02 * 0x4000_0000 + b[1] % 0x40 * 0x100_0000 + b[2] % 0x40 * 0x4_0000
      + b[3] % 0x40 * 0x1000 + b[4] % 0x40 * 0x40 + b[5] % 0x40;
    }
  }

  lemma TopMasked(b: Byte)
    ensures Declared(b) == 1 ==> Top(b) == b
    ensures Declared(b) == 2 ==> Top(b) == (b as int) % 0x20
    ensures Declared(b) == 3 ==> Top(b) == (b as int) % 0x10
    ensures Declared(b) == 4 ==> Top(b) == (b as int) % 0x08
    ensures Declared(b) == 5 ==> Top(b) == (b as int) % 0x04
    ensures Declared(b) == 6 ==> Top(b) == (b as int) % 0x02
  {
  }

  lemma PayloadUnfolded(top: nat, s: seq<Byte>, n: nat)
    requires 1 <= n <= |s|
    ensures Payload(top, s, 1) == top
    ensures forall i :: 2 <= i <= n ==> Payload(top, s, i) == Payload(top, s, i - 1) * 0x40 + s[i - 1] % 0x40
  {
  }

  /** The check on the bytes after the first: each test falls through to the next shorter length. */
  method Truncate(data: seq<Byte>, declared: nat) returns (size: nat, truncated: bool)
    requires 1 <= declared <= 6 && declared <= |data|
    ensures size == Extent(data, declared) && truncated == (size < declared)
  {
    size, truncated := declared, false;
    if declared >= 6 && data[5] / 0x40 != 0x02 {
      truncated, size := true, 5;
    }
    if declared >= 5 && data[4] / 0x40 != 0x02 {
      truncated, size := true, 4;
    }
    if declared >= 4 && data[3] / 0x40 != 0x02 {
      truncated, size := true, 3;
    }
    if declared >= 3 && data[2] / 0x40 != 0x02 {
      truncated, size := true, 2;
    }
    if declared >= 2 && data[1] / 0x40 != 0x02 {
      truncated, size := true, 1;
    }
    forall i | 0 <= i < declared
      ensures IsContinuation(data[i]) <==> data[i] / 0x40 == 0x02
    {
    }
    hide IsContinuation;
  }

  // ---------- Encoder and decoder are inverse ----------

  lemma {:induction false} PayloadOfTail(c: Char, s: seq<Byte>, n: nat)
    requires 1 <= n <= |s| && s[1..n] == Tail(c, n - 1)
    ensures Payload(High(c, n - 1), s, n) == c
  {
    if n > 1 {
      LastOfTail(c, s, n);
      PayloadOfTail(c / 0x40, s, n - 1);
      hide Tail;
    }
  }

  lemma LastOfTail(c: Char, s: seq<Byte>, n: nat)
    requires 1 < n <= |s| && s[1..n] == Tail(c, n - 1)
    ensures s[1..n - 1] == Tail(c / 0x40, n - 2) && s[n - 1] == Continuation(c) && s[n - 1] % 0x40 == c % 0x40
  {
    var t := s[1..n];
    assert t == Tail(c / 0x40, n - 2) + [Continuation(c)];
    assert s[1..n - 1] == t[..n - 2] && s[n - 1] == t[n - 2];
  }

  lemma {:induction false} TailOfPayload(c: Char, top: nat, s: seq<Byte>, n: nat)
    requires 1 <= n <= |s| && c == Payload(top, s, n)
    requires forall i :: 1 <= i < n ==> IsContinuation(s[i])
    ensures Tail(c, n - 1) == s[1..n]
    ensures High(c, n - 1) == top
  {
    if n > 1 {
      TailOfPayload(c / 0x40, top, s, n - 1);
      assert s[1..n] == s[1..n - 1] + [s[n - 1]];
    }
  }

  /** The first byte of an encoding announces its length and holds the top bits. */
  lemma LeadTop(c: Char)
    requires c < 0x8000_0000
    ensures Declared(Lead(c)) == Size(c) && Top(Lead(c)) == High(c, Size(c) - 1)
  {
    HighValue(c);
  }

  /** Two first bytes that announce the same length and hold the same top bits are equal. */
  lemma TopInjective(a: Byte, b: Byte)
    requires Declared(a) == Declared(b) != 0 && Top(a) == Top(b)
    ensures a == b
  {
  }

  /** Decoding an encoded character gives it back and uses up exactly its bytes, whatever follows. */
  lemma DecodeEncoded(c: Char, rest: seq<Byte>)
    requires c < 0x8000_0000
    ensures DecodeOne(Encode(c) + rest) == Decoded(if Legal(c) then c else INVALID, Size(c))
  {
    var s, n := Encode(c) + rest, Size(c);
    LeadTop(c);
    hide Lead, Top, Declared;
    assert s[1..n] == Tail(c, n - 1);
    PayloadOfTail(c, s, n);
  }

  /** A character is returned only for exactly the bytes the encoder writes for it: the decoder is
      injective and accepts the shortest form only. */
  lemma DecodedWasEncoded(s: seq<Byte>)
    requires s != [] && DecodeOne(s).c != INVALID
    ensures var d := DecodeOne(s);
            Legal(d.c) && d.len == Size(d.c) && Encode(d.c) == s[..d.len]
  {
    var d := DecodeOne(s);
    TailOfPayload(d.c, Top(s[0]), s, d.len);
    LeadTop(d.c);
    TopInjective(s[0], Lead(d.c));
    assert s[..d.len] == [s[0]] + s[1..d.len];
  }

  /** The bits of each form, as the table of section 2 of RFC 2279 has them. */
  lemma Forms(c: Char)
    requires c < 0x8000_0000
    ensures c < 0x80 ==> Encode(c) == [c]
    ensures 0x80 <= c < 0x800 ==> |Encode(c)| == 2 && 0xc0 <= Encode(c)[0] < 0xe0 && Bits(Encode(c), 0xc0) == c
    ensures 0x800 <= c < 0x1_0000 ==> |Encode(c)| == 3 && 0xe0 <= Encode(c)[0] < 0xf0 && Bits(Encode(c), 0xe0) == c
    ensures 0x1_0000 <= c < 0x20_0000 ==> |Encode(c)| == 4 && 0xf0 <= Encode(c)[0] < 0xf8 && Bits(Encode(c), 0xf0) == c
    ensures 0x20_0000 <= c < 0x400_0000 ==>
              |Encode(c)| == 5 && 0xf8 <= Encode(c)[0] < 0xfc && Bits(Encode(c), 0xf8) == c
    ensures 0x400_0000 <= c ==> |Encode(c)| == 6 && 0xfc <= Encode(c)[0] < 0xfe && Bits(Encode(c), 0xfc) == c
  {
    hide Tail, Lead, Payload, Bits;
    var s, n := Encode(c), Size(c);
    assert s[0] == Lead(c) && s[1..n] == Tail(c, n - 1);
    LeadRange(c);
    LeadTop(c);
    PayloadOfTail(c, s, n);
    if n > 1 {
      BitsArePayload(s, if n == 2 then 0xc0 else if n == 3 then 0xe0 else if n == 4 then 0xf0
                        else if n == 5 then 0xf8 else 0xfc);
    } else {
      assert s == [c];
    }
  }

  /** The bits of a sequence: those of the first byte without its mark, and six of every other byte. */
  function Bits(s: seq<Byte>, mark: int): int
    requires s != []
  {
    if |s| == 1 then s[0] - mark else Bits(s[..|s| - 1], mark) * 0x40 + Six(s[|s| - 1])
  }

  lemma {:induction false} BitsArePayload(s: seq<Byte>, mark: int)
    requires s != [] && mark <= s[0] && forall i :: 1 <= i < |s| ==> IsContinuation(s[i])
    ensures Bits(s, mark) == Payload(s[0] - mark, s, |s|)
    decreases |s|
  {
    if |s| > 1 {
      BitsArePayload(s[..|s| - 1], mark);
      PayloadOfPrefix(s[0] - mark, s, |s| - 1);
    }
  }

  lemma {:induction false} PayloadOfPrefix(top: nat, s: seq<Byte>, n: nat)
    requires 1 <= n <= |s|
    ensures Payload(top, s[..n], n) == Payload(top, s, n)
    decreases n
  {
    if n > 1 {
      PayloadOfPrefix(top, s, n - 1);
      PayloadOfPrefix(top, s[..n], n - 1);
      assert s[..n][..n - 1] == s[..n - 1];
    }
  }

  /** The six bits of a byte 10xxxxxx. */
  function Six(b: Byte): int {
    if 0x80 <= b < 0xc0 then b - 0x80 else -1
  }

  lemma LeadRange(c: Char)
    requires c < 0x8000_0000
    ensures var n, b := Size(c), Lead(c);
            && (n == 1 ==> b == c) && (n == 2 ==> 0xc0 <= b < 0xe0) && (n == 3 ==> 0xe0 <= b < 0xf0)
            && (n == 4 ==> 0xf0 <= b < 0xf8) && (n == 5 ==> 0xf8 <= b < 0xfc) && (n == 6 ==> 0xfc <= b < 0xfe)
  {
  }

  /** What a step makes of bytes: a byte that starts nothing goes alone, a sequence is used up as far as its
      bytes fit together, and an incomplete one at the end altogether. */
  lemma DecodeSteps(s: seq<Byte>)
    requires s != []
    ensures 0x80 <= s[0] < 0xc0 || s[0] >= 0xfe ==> DecodeOne(s) == Decoded(0xffff, 1)
    ensures var n := if s[0] < 0x80 then 1 else if s[0] < 0xe0 then 2 else if s[0] < 0xf0 then 3
                     else if s[0] < 0xf8 then 4 else if s[0] < 0xfc then 5 else 6;
            s[0] < 0x80 || 0xc0 <= s[0] < 0xfe ==>
              && (|s| < n ==> DecodeOne(s) == Decoded(0xffff, |s|))
              && (forall k: nat | 1 <= k < n <= |s| && Six(s[k]) < 0 && (forall j :: 1 <= j < k ==> Six(s[j]) >= 0) ::
                    DecodeOne(s) == Decoded(0xffff, k))
              && (n <= |s| && (forall j :: 1 <= j < n ==> Six(s[j]) >= 0) ==> DecodeOne(s).len == n)
  {
    var n := Declared(s[0]);
    if 1 <= n <= |s| {
      ExtentIsFirst(s, n);
    }
    hide Payload, Extent, Top;
  }

  lemma ExtentIsFirst(s: seq<Byte>, n: nat)
    requires 1 <= n <= |s|
    ensures forall k: nat | 1 <= k < n && Six(s[k]) < 0 && (forall j :: 1 <= j < k ==> Six(s[j]) >= 0) ::
              Extent(s, n) == k
    ensures (forall j :: 1 <= j < n ==> Six(s[j]) >= 0) ==> Extent(s, n) == n
  {
    var e := Extent(s, n);
    hide Extent;
    assert e < n ==> Six(s[e]) < 0;
    assert forall j :: 1 <= j < e ==> IsContinuation(s[j]);
  }

  /** What comes back for each character that can be encoded. */
  lemma LegalExactly(c: Char, rest: seq<Byte>)
    requires c < 0x8000_0000
    ensures DecodeOne(Encode(c) + rest).c == if 0xd800 <= c <= 0xdfff || c == 0xfffe || c == 0xffff then 0xffff else c
  {
    DecodeEncoded(c, rest);
  }

  /** What is written for each 32-bit value: U+FFFD for surrogates and what is too large. */
  lemma Replaced(c: Char)
    ensures 0xd800 <= c <= 0xdfff || c >= 0x8000_0000 ==> Encode(Encodable(c)) == [0xef, 0xbf, 0xbd]
    ensures !(0xd800 <= c <= 0xdfff) && c < 0x8000_0000 ==> Encodable(c) == c
  {
    assert Tail(0xfffd, 2) == Tail(0x3ff, 1) + [0xbd] && Tail(0x3ff, 1) == Tail(0xf, 0) + [0xbf];
  }

  /** A decoding step never reads past a byte that could start the next character, except when the
      announced length exceeds what is left: then everything left is used up. */
  lemma Resynchronises(s: seq<Byte>)
    requires s != []
    ensures var d := DecodeOne(s);
            && 1 <= d.len <= 6 && d.len <= |s|
            && (Declared(s[0]) > |s| ==> d == Decoded(INVALID, |s|))
            && (Declared(s[0]) <= |s| ==> forall i :: 1 <= i < d.len ==> IsContinuation(s[i]))
            && (d.len < Declared(s[0]) <= |s| ==> d.c == INVALID && !IsContinuation(s[d.len]))
  {
  }
}

/** The string conversions between UTF-8 and UTF-16, on a little-endian machine. */
module Unicode {
  import opened Basics
  import opened Utf8

  type Word = w: int | 0 <= w < 0x1_0000

  const LENGTH_MODULUS: nat := 0x1_0000_0000

  /** The part of a string that its length, cast to 32 bits, covers. */
  function Covered(src: seq<Byte>): (s: seq<Byte>)
    ensures |src| < LENGTH_MODULUS ==> s == src
  {
    src[..|src| % LENGTH_MODULUS]
  }

  // ---------- UTF-8 text ----------

  /** The characters a decoding loop finds, `INVALID` for each malformed piece. */
  function Chars(s: seq<Byte>): (cs: seq<Char>)
    ensures forall i :: 0 <= i < |cs| ==> cs[i] == INVALID || Legal(cs[i])
    decreases |s|
  {
    if s == [] then []
    else
      StepLegal(s);
      [DecodeOne(s).c] + Chars(s[DecodeOne(s).len..])
  }

  lemma StepLegal(s: seq<Byte>)
    requires s != []
    ensures DecodeOne(s).c == INVALID || Legal(DecodeOne(s).c)
  {
    if DecodeOne(s).c != INVALID {
      DecodedWasEncoded(s);
    }
  }

  predicate Accepted(s: seq<Byte>) {
    INVALID !in Chars(s)
  }

  predicate Scalars(cs: seq<Char>) {
    forall i :: 0 <= i < |cs| ==> Scalar(cs[i])
  }

  predicate AllLegal(cs: seq<Char>) {
    forall i :: 0 <= i < |cs| ==> Legal(cs[i])
  }

  function Encoded(cs: seq<Char>): (s: seq<Byte>)
    requires Scalars(cs)
  {
    if cs == [] then [] else Encode(cs[0]) + Encoded(cs[1..])
  }

  method IsUTF8(src: seq<Byte>) returns (ok: bool)
    ensures ok <==> Accepted(Covered(src))
  {
    var s := Covered(src);
    var pos := 0;
    while pos < |s|
      invariant pos <= |s|
      invariant Accepted(s) <==> Accepted(s[pos..])
    {
      var c, next := FromUTF8(s, pos);
      assert s[pos..][next - pos..] == s[next..];
      if c == INVALID {
        return false;
      }
      pos := next;
    }
    return true;
  }

  /** What the decoding loop finds in encoded text: every character, except that the two the decoder
      rejects come back as `INVALID`. */
  function Readable(cs: seq<Char>): (r: seq<Char>)
    ensures |r| == |cs|
    ensures forall i :: 0 <= i < |cs| ==> r[i] == if Legal(cs[i]) then cs[i] else INVALID
  {
    if cs == [] then [] else [if Legal(cs[0]) then cs[0] else INVALID] + Readable(cs[1..])
  }

  lemma {:induction false} CharsOfEncoded(cs: seq<Char>)
    requires Scalars(cs)
    ensures Chars(Encoded(cs)) == Readable(cs)
  {
    if cs != [] {
      var rest := Encoded(cs[1..]);
      CharsOfEncoded(cs[1..]);
      DecodeEncoded(cs[0], rest);
      assert (Encode(cs[0]) + rest)[Size(cs[0])..] == rest;
    }
  }

  /** Accepted text is the encoding of the characters read from it. */
  lemma {:induction false} EncodedOfChars(s: seq<Byte>)
    requires Accepted(s)
    ensures AllLegal(Chars(s)) && Scalars(Chars(s))
    ensures Encoded(Chars(s)) == s
    decreases |s|
  {
    hide DecodeOne, Encode;
    if s != [] {
      DecodedWasEncoded(s);
      var n := DecodeOne(s).len;
      assert Chars(s) == [DecodeOne(s).c] + Chars(s[n..]);
      EncodedOfChars(s[n..]);
      assert Chars(s)[1..] == Chars(s[n..]);
      assert s == s[..n] + s[n..];
    }
  }

  /** `isUTF8` accepts exactly the encodings of lists of legal characters. */
  lemma AcceptedIffEncoding(s: seq<Byte>)
    ensures Accepted(s) <==> exists cs: seq<Char> :: Scalars(cs) && AllLegal(cs) && Encoded(cs) == s
  {
    if Accepted(s) {
      EncodedOfChars(s);
    }
    forall cs: seq<Char> | Scalars(cs) && AllLegal(cs) && Encoded(cs) == s
      ensures Accepted(s)
    {
      CharsOfEncoded(cs);
      NotLegal();
    }
  }

  lemma NotLegal()
    ensures !Legal(INVALID) && Legal(REPLACEMENT)
  {
  }

  // ---------- UTF-16 code units ----------

  predicate HighUnit(u: Word) {
    0xd800 <= u <= 0xdbff
  }

  predicate LowUnit(u: Word) {
    0xdc00 <= u <= 0xdfff
  }

  /** The characters UTF-16 can hold. */
  predicate InPlanes(c: Char) {
    Scalar(c) && c < 0x11_0000
  }

  predicate AllInPlanes(cs: seq<Char>) {
    forall i :: 0 <= i < |cs| ==> InPlanes(cs[i])
  }

  /** The encoding of section 2.1 of RFC 2781. */
  function Units(c: Char): (u: seq<Word>)
    requires InPlanes(c)
    ensures 1 <= |u| <= 2
  {
    if c < 0x1_0000 then [c] else [(c - 0x1_0000) / 0x400 + 0xd800, (c - 0x1_0000) % 0x400 + 0xdc00]
  }

  function AllUnits(cs: seq<Char>): (u: seq<Word>)
    requires AllInPlanes(cs)
    ensures |u| >= |cs|
  {
    if cs == [] then [] else Units(cs[0]) + AllUnits(cs[1..])
  }

  function Combine(h: Word, l: Word): (c: Char)
    requires HighUnit(h) && LowUnit(l)
    ensures 0x1_0000 <= c < 0x11_0000
  {
    (h - 0xd800) * 0x400 + (l - 0xdc00) + 0x1_0000
  }

  datatype Step = Step(c: Char, len: nat, bad: bool)

  /** One round of the decoding loop: the character written, the units used up, and whether that was an
      error.  A high unit that is not followed by a low one takes the unit after it down with it. */
  function Next(u: seq<Word>): (r: Step)
    requires u != []
    ensures 1 <= r.len <= |u| && InPlanes(r.c)
  {
    if !HighUnit(u[0]) && !LowUnit(u[0]) then
      Step(u[0], 1, false)
    else if |u| == 1 || LowUnit(u[0]) then Step(REPLACEMENT, 1, true)
    else if LowUnit(u[1]) then Step(Combine(u[0], u[1]), 2, false)
    else Step(REPLACEMENT, 2, true)
  }

  /** The characters the decoding loop writes. */
  function Text(u: seq<Word>): (cs: seq<Char>)
    ensures AllInPlanes(cs) && Scalars(cs)
    decreases |u|
  {
    if u == [] then [] else [Next(u).c] + Text(u[Next(u).len..])
  }

  predicate PairedAt(u: seq<Word>, i: nat)
    requires i < |u|
  {
    && (HighUnit(u[i]) ==> i + 1 < |u| && LowUnit(u[i + 1]))
    && (LowUnit(u[i]) ==> i > 0 && HighUnit(u[i - 1]))
  }

  /** Every high unit is followed by a low one and every low unit follows a high one. */
  ghost predicate WellFormed(u: seq<Word>) {
    forall i :: 0 <= i < |u| ==> PairedAt(u, i)
  }

  /** Well-formedness can be judged step by step, as the loop does. */
  lemma WellFormedStep(u: seq<Word>)
    requires u != []
    ensures WellFormed(u) <==> !Next(u).bad && WellFormed(u[Next(u).len..])
  {
    UnitKinds(u);
    var n := Next(u).len;
    var v := u[n..];
    if Next(u).bad {
      assert !PairedAt(u, 0);
    } else if WellFormed(u) {
      forall i | 0 <= i < |v|
        ensures PairedAt(v, i)
      {
        assert PairedAt(u, i + n);
      }
    } else if WellFormed(v) {
      forall i | 0 <= i < |u|
        ensures PairedAt(u, i)
      {
        if i >= n {
          assert PairedAt(v, i - n);
        }
      }
    }
  }

  lemma UnitKinds(u: seq<Word>)
    ensures forall i :: 0 <= i < |u| ==> !(HighUnit(u[i]) && LowUnit(u[i]))
  {
  }

  // ---------- UTF-16 bytes ----------

  function UnitBytes(u: Word): (s: seq<Byte>)
    ensures |s| == 2
  {
    [u % 0x100, u / 0x100]
  }

  function Serialized(u: seq<Word>): (s: seq<Byte>)
    ensures |s| == 2 * |u|
  {
    if u == [] then [] else UnitBytes(u[0]) + Serialized(u[1..])
  }

  function Unit(a: Byte, b: Byte, swapped: bool): Word {
    if swapped then (a as int) * 0x100 + b else (b as int) * 0x100 + a
  }

  function UnitsAt(s: seq<Byte>, n: nat, swapped: bool): (u: seq<Word>)
    requires 2 * n <= |s|
    ensures |u| == n
    ensures forall i :: 0 <= i < n ==> u[i] == Unit(s[2 * i], s[2 * i + 1], swapped)
    decreases n
  {
    if n == 0 then [] else UnitsAt(s, n - 1, swapped) + [Unit(s[2 * n - 2], s[2 * n - 1], swapped)]
  }

  /** The code units of the first `n` byte pairs after an optional byte-order mark. */
  function Body(s: seq<Byte>, n: nat): (u: seq<Word>)
    requires 2 * n <= |s|
  {
    if n == 0 then []
    else if Unit(s[0], s[1], false) == 0xfeff then UnitsAt(s[2..], n - 1, false)
    else if Unit(s[0], s[1], false) == 0xfffe then UnitsAt(s[2..], n - 1, true)
    else UnitsAt(s, n, false)
  }

  // ---------- The conversions ----------

  datatype Converted = Converted(text: seq<Byte>, failed: bool)

  /** The character written for one that was read. */
  function Sanitized(c: Char): (r: Char)
    requires c == INVALID || Legal(c)
    ensures InPlanes(r) && r != 0xfffe && r != 0xffff
  {
    if c == INVALID || c >= 0x11_0000 then REPLACEMENT else c
  }

  function AllSanitized(cs: seq<Char>): (r: seq<Char>)
    requires forall i :: 0 <= i < |cs| ==> cs[i] == INVALID || Legal(cs[i])
    ensures |r| == |cs| && AllInPlanes(r)
    ensures forall i :: 0 <= i < |cs| ==> r[i] == Sanitized(cs[i])
  {
    if cs == [] then [] else [Sanitized(cs[0])] + AllSanitized(cs[1..])
  }

  predicate BeyondPlanes(cs: seq<Char>) {
    exists i :: 0 <= i < |cs| && cs[i] >= 0x11_0000
  }

  function Utf16Of(s: seq<Byte>): Converted {
    Converted(Serialized(AllUnits(AllSanitized(Chars(s)))), BeyondPlanes(Chars(s)))
  }

  ghost function Utf8Of(s: seq<Byte>): Converted {
    Converted(Encoded(Text(Body(s, |s| / 2))), !WellFormed(Body(s, |s| / 2)))
  }

  lemma ConvertStep(s: seq<Byte>)
    requires s != []
    ensures var d := DecodeOne(s);
            && (d.c == INVALID || Legal(d.c))
            && Utf16Of(s).text == Serialized(Units(Sanitized(d.c))) + Utf16Of(s[d.len..]).text
            && (Utf16Of(s).failed <==> d.c >= 0x11_0000 || Utf16Of(s[d.len..]).failed)
  {
    StepLegal(s);
    var c, rest := DecodeOne(s).c, Chars(s[DecodeOne(s).len..]);
    assert Chars(s) == [c] + rest;
    BeyondPlanesStep(c, rest);
    SanitizedStep(c, rest);
    var clean := AllSanitized(rest);
    assert ([Sanitized(c)] + clean)[1..] == clean;
    SerializedConcat(Units(Sanitized(c)), AllUnits(clean));
  }

  lemma BeyondPlanesStep(c: Char, rest: seq<Char>)
    ensures BeyondPlanes([c] + rest) <==> c >= 0x11_0000 || BeyondPlanes(rest)
  {
    if c >= 0x11_0000 {
      assert ([c] + rest)[0] == c;
    }
    if BeyondPlanes(rest) {
      var i :| 0 <= i < |rest| && rest[i] >= 0x11_0000;
      assert ([c] + rest)[i + 1] == rest[i];
    }
  }

  lemma SanitizedStep(c: Char, rest: seq<Char>)
    requires c == INVALID || Legal(c)
    requires forall i :: 0 <= i < |rest| ==> rest[i] == INVALID || Legal(rest[i])
    ensures forall i :: 0 <= i < |rest| + 1 ==> ([c] + rest)[i] == INVALID || Legal(([c] + rest)[i])
    ensures AllSanitized([c] + rest) == [Sanitized(c)] + AllSanitized(rest)
  {
    assert ([c] + rest)[1..] == rest;
  }

  lemma {:induction false} SerializedConcat(u: seq<Word>, v: seq<Word>)
    ensures Serialized(u + v) == Serialized(u) + Serialized(v)
  {
    if u == [] {
      assert u + v == v;
    } else {
      assert (u + v)[1..] == u[1..] + v;
      SerializedConcat(u[1..], v);
    }
  }

  /** The bytes the conversion appends for one character. */
  method AppendUnits(dst: seq<Byte>, ch: Char) returns (out: seq<Byte>)
    requires InPlanes(ch)
    ensures out == dst + Serialized(Units(ch))
  {
    if ch < 0x1_0000 {
      var ucs2: Word := ch;
      SerializedTwo(ucs2, 0);
      out := dst + UnitBytes(ucs2);
    } else {
      var c := ch - 0x1_0000;
      var utf16h: Word := c / 0x400 + 0xd800;
      var utf16l: Word := c % 0x400 + 0xdc00;
      SerializedTwo(utf16h, utf16l);
      out := dst + (UnitBytes(utf16h) + UnitBytes(utf16l));
    }
  }

  lemma SerializedTwo(a: Word, b: Word)
    ensures Serialized([a]) == UnitBytes(a) && Serialized([a, b]) == UnitBytes(a) + UnitBytes(b)
  {
    assert [a, b][1..] == [b];
    assert [b][1..] == [];
  }

  method UTF8ToUTF16(src: seq<Byte>) returns (dst: seq<Byte>, failed: bool)
    ensures Converted(dst, failed) == Utf16Of(Covered(src))
  {
    hide DecodeOne, Units, Utf16Of, Serialized, InPlanes;
    failed := false;
    var s := Covered(src);
    dst := [];
    var pos := 0;
    while pos < |s|
      invariant pos <= |s|
      invariant dst + Utf16Of(s[pos..]).text == Utf16Of(s).text
      invariant (failed || Utf16Of(s[pos..]).failed) == Utf16Of(s).failed
    {
      var c, next := FromUTF8(s, pos);
      ConvertStep(s[pos..]);
      assert s[pos..][next - pos..] == s[next..];
      if c == INVALID {
        c := REPLACEMENT;
      } else if c >= 0x11_0000 {
        failed := true;
        c := REPLACEMENT;
      }
      ghost var written := dst;
      dst := AppendUnits(dst, c);
      Associate(written, Serialized(Units(c)), Utf16Of(s[next..]).text);
      pos := next;
    }
    assert s[pos..] == [];
    EmptyUnits();
  }

  method UTF16ToUTF8(src: seq<Byte>) returns (dst: seq<Byte>, failed: bool)
    ensures Converted(dst, failed) == Utf8Of(Covered(src))
  {
    var n := |Covered(src)| / 2;
    dst, failed := DoUTF16ToUTF8(Covered(src), n);
  }

  method DoUTF16ToUTF8(data: seq<Byte>, units: nat) returns (dst: seq<Byte>, failed: bool)
    requires 2 * units <= |data|
    ensures dst == Encoded(Text(Body(data, units)))
    ensures failed == !WellFormed(Body(data, units))
  {
    hide Unit, Encode, Scalar, WellFormed, Next, Body, Text, Encoded;
    dst, failed := [], false;
    var pos, n, byteSwapped := SkipMark(data, units);
    ghost var body := Body(data, units);
    ghost var rest := body;
    while n > 0
      invariant 0 <= pos && n == |rest| && pos + 2 * n <= |data|
      invariant forall i :: 0 <= i < n ==> rest[i] == Unit(data[pos + 2 * i], data[pos + 2 * i + 1], byteSwapped)
      invariant dst + Encoded(Text(rest)) == Encoded(Text(body))
      invariant (failed || !WellFormed(rest)) == !WellFormed(body)
    {
      WellFormedStep(rest);
      TextStep(rest);
      var used;
      assert rest[0] == Unit(data[pos + 2 * 0], data[pos + 2 * 0 + 1], byteSwapped);
      assert n > 1 ==> rest[1] == Unit(data[pos + 2 * 1], data[pos + 2 * 1 + 1], byteSwapped);
      ghost var written := dst;
      dst, failed, used := ConvertUnit(data, pos, n, byteSwapped, dst, failed, rest);
      Associate(written, Encode(Next(rest).c), Encoded(Text(rest[used..])));
      rest := rest[used..];
      pos, n := pos + 2 * used, n - used;
    }
    EmptyUnits();
  }

  lemma EmptyUnits()
    ensures WellFormed([]) && Text([]) == [] && Encoded(Text([])) == [] && Utf16Of([]) == Converted([], false)
  {
  }

  lemma BodyAfterMark(data: seq<Byte>, units: nat)
    requires 2 * units <= |data|
    ensures units == 0 ==> Body(data, units) == []
    ensures units > 0 ==>
              var first := Unit(data[0], data[1], false);
              var u := Body(data, units);
              var marked := first == 0xfeff || first == 0xfffe;
              && |u| == (if marked then units - 1 else units)
              && (marked ==> forall i :: 0 <= i < |u| ==>
                  u[i] == Unit(data[2 + 2 * i], data[2 + 2 * i + 1], first == 0xfffe))
              && (!marked ==> forall i :: 0 <= i < |u| ==> u[i] == Unit(data[0 + 2 * i], data[0 + 2 * i + 1], false))
  {
    hide Unit, UnitsAt;
    if units > 0 {
      var rest := data[2..];
      assert forall i :: 0 <= i < units - 1 ==>
          rest[2 * i] == data[2 + 2 * i] && rest[2 * i + 1] == data[2 + 2 * i + 1];
    }
  }

  /** Looks for a byte-order mark: where the text starts, how many units it has, and their byte order. */
  method SkipMark(data: seq<Byte>, units: nat) returns (pos: nat, n: nat, byteSwapped: bool)
    requires 2 * units <= |data|
    ensures n == |Body(data, units)| && pos + 2 * n <= |data|
    ensures forall i :: 0 <= i < n ==>
              Body(data, units)[i] == Unit(data[pos + 2 * i], data[pos + 2 * i + 1], byteSwapped)
  {
    hide Unit, WellFormed, Text, Body;
    BodyAfterMark(data, units);
    pos, n, byteSwapped := 0, units, false;
    if n >= 1 {
      var first := Unit(data[0], data[1], false);
      if first == 0xfeff {
        pos, n := 2, n - 1;
      } else if first == 0xfffe {
        byteSwapped := true;
        pos, n := 2, n - 1;
      }
    }
  }

  /** One round of the loop: reads one unit, or two when the first announces a pair. */
  method ConvertUnit(data: seq<Byte>, pos: nat, n: nat, byteSwapped: bool, dst: seq<Byte>, errors: bool,
                     ghost rest: seq<Word>)
    returns (out: seq<Byte>, failed: bool, used: nat)
    requires 1 <= n == |rest| && pos + 2 * n <= |data|
    requires rest[0] == Unit(data[pos], data[pos + 1], byteSwapped)
    requires n > 1 ==> rest[1] == Unit(data[pos + 2], data[pos + 3], byteSwapped)
    ensures used == Next(rest).len
    ensures out == dst + Encode(Next(rest).c)
    ensures failed == (errors || Next(rest).bad)
  {
    var c: Char := Unit(data[pos], data[pos + 1], byteSwapped);
    failed, used := errors, 1;
    if c < 0xd800 || c > 0xdfff {
      out, failed := Write(dst, c, failed);
    } else if n == 1 {
      // the second word is missing
      failed := true;
      out := Replace(dst);
    } else if c >= 0xd800 && c <= 0xdbff {
      used := 2;
      var c2: Char := Unit(data[pos + 2], data[pos + 3], byteSwapped);
      if c2 < 0xdc00 || c2 > 0xdfff {
        failed := true;
        out := Replace(dst);
      } else {
        c := (c - 0xd800) * 0x400 + (c2 - 0xdc00) + 0x1_0000;
        out, failed := Write(dst, c, failed);
      }
    } else {
      failed := true;
      out := Replace(dst);
    }
  }

  method Write(dst: seq<Byte>, c: Char, errors: bool) returns (out: seq<Byte>, failed: bool)
    requires Scalar(c)
    ensures out == dst + Encode(c)
    ensures failed == errors
  {
    out, failed := ToUTF8(dst, c, errors);
  }

  /** Writes the replacement character; this never raises the error flag. */
  method Replace(dst: seq<Byte>) returns (out: seq<Byte>)
    ensures out == dst + Encode(REPLACEMENT)
  {
    var ignored;
    out, ignored := ToUTF8(dst, REPLACEMENT, false);
  }

  lemma TextStep(u: seq<Word>)
    requires u != []
    ensures Scalar(Next(u).c) && Next(u).c < 0x8000_0000
    ensures Encoded(Text(u)) == Encode(Next(u).c) + Encoded(Text(u[Next(u).len..]))
  {
    assert Text(u)[1..] == Text(u[Next(u).len..]);
  }

  // ---------- Round trips ----------

  lemma {:induction false} UnitsOfSerialized(u: seq<Word>)
    ensures UnitsAt(Serialized(u), |u|, false) == u
  {
    var v := Serialized(u);
    if u != [] {
      var w := Serialized(u[1..]);
      UnitsOfSerialized(u[1..]);
      forall i | 0 <= i < |u|
        ensures UnitsAt(v, |u|, false)[i] == u[i]
      {
        if i > 0 {
          assert w[2 * (i - 1)] == v[2 * i] && w[2 * (i - 1) + 1] == v[2 * i + 1];
          assert UnitsAt(w, |u| - 1, false)[i - 1] == u[i];
        }
      }
    }
  }

  /** The units written for a character are read as one step that gives it back. */
  lemma NextOfUnits(c: Char, rest: seq<Word>)
    requires InPlanes(c)
    ensures Next(Units(c) + rest) == Step(c, |Units(c)|, false)
  {
  }

  lemma {:induction false} TextOfUnits(cs: seq<Char>)
    requires AllInPlanes(cs)
    ensures Text(AllUnits(cs)) == cs && WellFormed(AllUnits(cs))
  {
    if cs != [] {
      hide Next, Units, InPlanes, WellFormed;
      var rest := AllUnits(cs[1..]);
      TextOfUnits(cs[1..]);
      NextOfUnits(cs[0], rest);
      assert (Units(cs[0]) + rest)[|Units(cs[0])|..] == rest;
      WellFormedStep(AllUnits(cs));
    } else {
      EmptyUnits();
    }
  }

  /** Reading back what was written gives every character, except a leading byte-order mark. */
  lemma BodyOfSerialized(cs: seq<Char>)
    requires AllInPlanes(cs) && (cs != [] ==> cs[0] != 0xfffe)
    ensures Body(Serialized(AllUnits(cs)), |AllUnits(cs)|)
         == AllUnits(if cs != [] && cs[0] == 0xfeff then cs[1..] else cs)
  {
    hide Body, Serialized, UnitsAt, WellFormed;
    var u := AllUnits(cs);
    if cs != [] {
      assert u[0] == Units(cs[0])[0];
      assert cs[0] == 0xfeff ==> u[1..] == AllUnits(cs[1..]);
    }
    BodyOfUnits(u);
  }

  lemma BodyOfUnits(u: seq<Word>)
    requires u != [] ==> u[0] != 0xfffe
    ensures Body(Serialized(u), |u|) == if u != [] && u[0] == 0xfeff then u[1..] else u
  {
    hide UnitsAt, Serialized;
    UnitsOfSerialized(u);
    if u != [] {
      SerializedFirst(u);
      UnitsOfSerialized(u[1..]);
      hide Unit;
    }
  }

  lemma SerializedFirst(u: seq<Word>)
    requires u != []
    ensures var s := Serialized(u);
            Unit(s[0], s[1], false) == u[0] && s[2..] == Serialized(u[1..])
  {
    var a, b := UnitBytes(u[0]), Serialized(u[1..]);
    assert (a + b)[2..] == b && (a + b)[0] == a[0] && (a + b)[1] == a[1];
  }

  // ---------- What is read and written, unit by unit ----------

  /** What is read from units: an unpaired high unit takes the unit behind it with it. */
  lemma TextForms(u: seq<Word>)
    requires u != []
    ensures !(0xd800 <= u[0] <= 0xdfff) ==> Text(u) == [u[0]] + Text(u[1..])
    ensures 0xd800 <= u[0] <= 0xdbff && |u| > 1 && 0xdc00 <= u[1] <= 0xdfff ==>
              Text(u) == [0x1_0000 + (u[0] as int - 0xd800) * 0x400 + (u[1] as int - 0xdc00)] + Text(u[2..])
    ensures 0xd800 <= u[0] <= 0xdbff && |u| > 1 && !(0xdc00 <= u[1] <= 0xdfff) ==> Text(u) == [0xfffd] + Text(u[2..])
    ensures 0xdc00 <= u[0] <= 0xdfff || (0xd800 <= u[0] <= 0xdbff && |u| == 1) ==> Text(u) == [0xfffd] + Text(u[1..])
  {
    hide Text;
    TextFirst(u);
    NextForms(u);
    hide Next;
  }

  lemma NextForms(u: seq<Word>)
    requires u != []
    ensures !(0xd800 <= u[0] <= 0xdfff) ==> Next(u).c == u[0] && Next(u).len == 1
    ensures 0xd800 <= u[0] <= 0xdbff && |u| > 1 && 0xdc00 <= u[1] <= 0xdfff ==>
              Next(u).c == 0x1_0000 + (u[0] as int - 0xd800) * 0x400 + (u[1] as int - 0xdc00) && Next(u).len == 2
    ensures 0xd800 <= u[0] <= 0xdbff && |u| > 1 && !(0xdc00 <= u[1] <= 0xdfff) ==>
              Next(u).c == 0xfffd && Next(u).len == 2
    ensures 0xdc00 <= u[0] <= 0xdfff || (0xd800 <= u[0] <= 0xdbff && |u| == 1) ==>
              Next(u).c == 0xfffd && Next(u).len == 1
  {
  }

  /** What is written for a character: little-endian, by section 2.1 of RFC 2781. */
  lemma UnitForms(c: Char)
    requires InPlanes(c)
    ensures c < 0x1_0000 ==> Serialized(Units(c)) == [c % 0x100, c / 0x100]
    ensures c >= 0x1_0000 ==>
              var h, l := 0xd800 + (c - 0x1_0000) / 0x400, 0xdc00 + (c - 0x1_0000) % 0x400;
              Serialized(Units(c)) == [h % 0x100, h / 0x100, l % 0x100, l / 0x100]
  {
    if c < 0x1_0000 {
      SerializedTwo(c, 0);
    } else {
      var h, l := 0xd800 + (c - 0x1_0000) / 0x400, 0xdc00 + (c - 0x1_0000) % 0x400;
      SerializedTwo(h, l);
    }
    hide Serialized;
  }

  /** What becomes of a piece of a UTF-8 string: what is malformed is replaced silently, what lies beyond the
      planes is replaced with an error. */
  lemma PieceForms(s: seq<Byte>)
    requires s != []
    ensures var c, rest := DecodeOne(s).c, Utf16Of(s[DecodeOne(s).len..]);
            && (c == 0xffff ==> Utf16Of(s) == Converted([0xfd, 0xff] + rest.text, rest.failed))
            && (c >= 0x11_0000 ==> Utf16Of(s) == Converted([0xfd, 0xff] + rest.text, true))
            && (c != 0xffff && c < 0x11_0000 ==>
                  InPlanes(c) && Utf16Of(s) == Converted(Serialized(Units(c)) + rest.text, rest.failed))
  {
    hide DecodeOne, Serialized, Units, Utf16Of;
    ConvertStep(s);
    UnitForms(0xfffd);
  }

  /** The byte-order mark, byte by byte. */
  lemma MarkForms(s: seq<Byte>, n: nat)
    requires 0 < n && 2 * n <= |s|
    ensures var u, bom := Body(s, n), s[..2];
            && (bom == [0xff, 0xfe] ==>
                  |u| == n - 1 && forall i :: 0 <= i < |u| ==> u[i] == s[2 + 2 * i] + 0x100 * (s[2 + 2 * i + 1] as int))
            && (bom == [0xfe, 0xff] ==>
                  |u| == n - 1 && forall i :: 0 <= i < |u| ==> u[i] == 0x100 * (s[2 + 2 * i] as int) + s[2 + 2 * i + 1])
            && (bom != [0xff, 0xfe] && bom != [0xfe, 0xff] ==>
                  |u| == n && forall i :: 0 <= i < |u| ==> u[i] == s[0 + 2 * i] + 0x100 * (s[0 + 2 * i + 1] as int))
  {
    hide Body, Unit;
    BodyAfterMark(s, n);
    assert s[..2] == [s[0], s[1]];
    FirstMark(s[0], s[1]);
    forall i | 0 <= i < |Body(s, n)|
      ensures UnitForm(s[2 * i], s[2 * i + 1]) && (2 * i + 3 < |s| ==> UnitForm(s[2 + 2 * i], s[2 + 2 * i + 1]))
    {
      UnitIs(s[2 * i], s[2 * i + 1]);
      if 2 * i + 3 < |s| {
        UnitIs(s[2 + 2 * i], s[2 + 2 * i + 1]);
      }
    }
  }

  predicate UnitForm(a: Byte, b: Byte) {
    && Unit(a, b, false) == a + 0x100 * (b as int)
    && Unit(a, b, true) == 0x100 * (a as int) + b
  }

  lemma UnitIs(a: Byte, b: Byte)
    ensures UnitForm(a, b)
  {
  }

  lemma FirstMark(a: Byte, b: Byte)
    ensures Unit(a, b, false) == 0xfeff <==> a == 0xff && b == 0xfe
    ensures Unit(a, b, false) == 0xfffe <==> a == 0xfe && b == 0xff
  {
  }

  // ---------- The conversions with their length casts ----------

  /** What `UTF8ToUTF16` and then `UTF16ToUTF8` return. */
  ghost function ThereOf(s: seq<Byte>): Converted {
    Utf16Of(Covered(s))
  }

  ghost function BackOf(s: seq<Byte>): Converted {
    Utf8Of(Covered(ThereOf(s).text))
  }

  /** The text without a leading byte-order mark. */
  function Unmarked(cs: seq<Char>): seq<Char> {
    if cs != [] && cs[0] == 0xfeff then cs[1..] else cs
  }

  /** The repaired text of a string, which survives UTF-16 but for a leading byte-order mark. */
  ghost function Repaired(s: seq<Byte>): (cs: seq<Char>)
    ensures Scalars(cs) && AllLegal(cs)
  {
    SanitizedIsTidied(Chars(s));
    Unmarked(AllSanitized(Chars(s)))
  }

  /** What conversion to UTF-16 and back yields for any byte string: the text is repaired, a leading
      byte-order mark is lost, and the way back does not fail, exactly if the UTF-16 form has fewer than
      2^32 bytes. */
  lemma ThereAndBack(s: seq<Byte>)
    ensures BackOf(s) == Converted(Encoded(Repaired(Covered(s))), false) <==> |ThereOf(s).text| < LENGTH_MODULUS
  {
    hide Chars, DecodeOne, Body, Text, Encoded, Encode, WellFormed, Serialized, AllUnits, Covered;
    var x := Covered(s);
    var clean := AllSanitized(Chars(x));
    var there := Serialized(AllUnits(clean));
    SanitizedIsTidied(Chars(x));
    CoveredCut(there);
    if |there| < LENGTH_MODULUS {
      BodyOfSerialized(clean);
      TextOfUnits(Unmarked(clean));
    } else {
      CutBody(clean, |Covered(there)|);
    }
  }

  /** Conversion to UTF-16 and back is the identity, without either call raising its error flag, for
      exactly the accepted strings whose characters fit UTF-16, that do not start with a byte-order mark,
      and that have fewer than 2^32 bytes in either form. */
  lemma RoundTrip(s: seq<Byte>)
    ensures !ThereOf(s).failed && !BackOf(s).failed && BackOf(s).text == s
       <==> && Accepted(s) && !BeyondPlanes(Chars(s)) && (s == [] || Chars(s)[0] != 0xfeff)
            && |s| < LENGTH_MODULUS && |ThereOf(s).text| < LENGTH_MODULUS
  {
    hide Utf16Of, Utf8Of, Chars, Repaired, Covered;
    CoveredCut(s);
    if |s| >= LENGTH_MODULUS {
      LongNeverReturns(s);
    } else if |ThereOf(s).text| >= LENGTH_MODULUS {
      LongFormIsLost(s);
    } else {
      ThereAndBack(s);
      ShortRoundTrip(s);
    }
  }

  /** 2^31 plain letters are valid text, and come back as nothing at all. */
  lemma LongTextIsLost(s: seq<Byte>)
    requires |s| == 0x8000_0000 && forall i :: 0 <= i < |s| ==> s[i] == 0x61
    ensures Accepted(s) && !BeyondPlanes(Chars(s)) && Chars(s)[0] != 0xfeff
    ensures !ThereOf(s).failed && BackOf(s) == Converted([], false)
  {
    Letters(s);
    hide Chars, Serialized, AllUnits, AllSanitized;
    assert |ThereOf(s).text| == LENGTH_MODULUS;
    assert Covered(ThereOf(s).text) == [];
    EmptyUnits();
  }

  /** A cast of the length keeps just these characters. */
  ghost predicate CutAfter(cs: seq<Char>, m: nat)
    requires Scalars(cs)
  {
    m <= |cs| && Covered(Encoded(cs)) == Encoded(cs[..m])
  }

  /** `isUTF8` accepts the output of `UTF16ToUTF8` exactly if the cast of its length to 32 bits falls between
      two characters and none before it is 0xFFFE or 0xFFFF. */
  lemma OutputAccepted(s: seq<Byte>)
    ensures var x := Covered(s);
            var cs := Text(Body(x, |x| / 2));
            && Utf8Of(x).text == Encoded(cs)
            && (Accepted(Covered(Utf8Of(x).text)) <==> exists m: nat :: CutAfter(cs, m) && AllLegal(cs[..m]))
            && (|Utf8Of(x).text| < LENGTH_MODULUS ==> CutAfter(cs, |cs|)
                                                      && forall m: nat :: CutAfter(cs, m) ==> m == |cs|)
  {
    hide Body, Text, Encoded, Encode, Covered;
    var x := Covered(s);
    var cs := Text(Body(x, |x| / 2));
    var out := Encoded(cs);
    CoveredCut(out);
    if Accepted(Covered(out)) {
      EncodedOfChars(Covered(out));
      PrefixEncoded(Chars(Covered(out)), cs);
      assert cs[..|Chars(Covered(out))|] == Chars(Covered(out));
      assert CutAfter(cs, |Chars(Covered(out))|);
    }
    forall m: nat | CutAfter(cs, m) ensures AllLegal(cs[..m]) ==> Accepted(Covered(out)) {
      CharsOfEncoded(cs[..m]);
      if AllLegal(cs[..m]) {
        LegalIsReadable(cs[..m]);
      }
    }
    if |out| < LENGTH_MODULUS {
      assert cs[..|cs|] == cs;
      forall m: nat | CutAfter(cs, m) ensures m == |cs| {
        EncodedConcat(cs[..m], cs[m..]);
        assert cs == cs[..m] + cs[m..];
        EncodedLength(cs[m..]);
      }
    }
  }

  // ---------- Lemmas about strings that are cut short ----------

  lemma StepWidth(s: seq<Byte>)
    requires s != [] && (DecodeOne(s).c == INVALID || Legal(DecodeOne(s).c))
    ensures |Units(Sanitized(DecodeOne(s).c))| <= DecodeOne(s).len
  {
    if DecodeOne(s).c != INVALID {
      DecodedWasEncoded(s);
    }
  }

  /** UTF-16 takes at most twice the bytes. */
  lemma {:induction false} Utf16Length(s: seq<Byte>)
    ensures |Utf16Of(s).text| <= 2 * |s|
    decreases |s|
  {
    hide DecodeOne, Units, Utf16Of, Serialized;
    if s == [] {
      EmptyUnits();
    } else {
      ConvertStep(s);
      StepWidth(s);
      Utf16Length(s[DecodeOne(s).len..]);
    }
  }

  /** UTF-8 takes at most three bytes for a unit. */
  lemma {:induction false} Utf8Length(u: seq<Word>)
    ensures |Encoded(Text(u))| <= 3 * |u|
    decreases |u|
  {
    hide Encode, Text, Encoded;
    if u == [] {
      EmptyUnits();
    } else {
      TextStep(u);
      Utf8Length(u[Next(u).len..]);
    }
  }

  predicate Tidied(cs: seq<Char>) {
    AllInPlanes(cs) && AllLegal(cs)
  }

  lemma SanitizedIsTidied(cs: seq<Char>)
    requires forall i :: 0 <= i < |cs| ==> cs[i] == INVALID || Legal(cs[i])
    ensures Tidied(AllSanitized(cs))
  {
  }

  /** When the units of a text are cut short, so is the text that is read from them. */
  lemma {:induction false} CutText(cs: seq<Char>, n: nat)
    requires Tidied(cs) && n < |AllUnits(cs)|
    ensures Scalars(cs) && AllLegal(Text(AllUnits(cs)[..n])) && |Encoded(Text(AllUnits(cs)[..n]))| < |Encoded(cs)|
    decreases |cs|
  {
    hide Encode, Text, Encoded, Units, Next;
    var c, rest := cs[0], cs[1..];
    var u, k := AllUnits(cs)[..n], |Units(c)|;
    EncodedFirst(cs);
    UnitsWidth(c);
    if n == 0 {
      EmptyUnits();
    } else if n < k {
      CutPair(c, u);
    } else {
      assert u == Units(c) + AllUnits(rest)[..n - k];
      assert u[k..] == AllUnits(rest)[..n - k];
      NextOfUnits(c, AllUnits(rest)[..n - k]);
      CutText(rest, n - k);
      TextStep(u);
      TextFirst(u);
    }
  }

  lemma EncodedFirst(cs: seq<Char>)
    requires Tidied(cs) && cs != []
    ensures Scalars(cs) && |Encoded(cs)| == Size(cs[0]) + |Encoded(cs[1..])| && Tidied(cs[1..])
  {
  }

  lemma UnitsWidth(c: Char)
    requires InPlanes(c)
    ensures 1 <= |Units(c)| <= 2 && (|Units(c)| == 2 ==> Size(c) == 4 && HighUnit(Units(c)[0]))
  {
  }

  /** Half a pair is read as a replacement character. */
  lemma CutPair(c: Char, u: seq<Word>)
    requires InPlanes(c) && |u| == 1 && |Units(c)| == 2 && u[0] == Units(c)[0]
    ensures Text(u) == [REPLACEMENT] && |Encoded([REPLACEMENT])| == 3 && Legal(REPLACEMENT)
  {
    UnitsWidth(c);
    hide Units;
    UnitKinds(u);
    assert Text(u[1..]) == [];
    assert Encoded([REPLACEMENT][1..]) == [];
  }

  lemma TextFirst(u: seq<Word>)
    requires u != []
    ensures Text(u) == [Next(u).c] + Text(u[Next(u).len..])
  {
  }

  lemma CutUnit(u: seq<Word>, k: nat, i: nat)
    requires i < k / 2 <= |u| && k <= |Serialized(u)|
    ensures var s := Serialized(u)[..k]; Unit(s[2 * i], s[2 * i + 1], false) == u[i]
  {
    UnitsOfSerialized(u);
    assert UnitsAt(Serialized(u), |u|, false)[i] == u[i];
  }

  lemma BodyOfCut(u: seq<Word>, k: nat)
    requires (u != [] ==> u[0] != 0xfffe) && k <= 2 * |u|
    ensures |Serialized(u)| == 2 * |u|
    ensures var v := u[..k / 2];
            Body(Serialized(u)[..k], k / 2) == if v != [] && v[0] == 0xfeff then v[1..] else v
  {
    hide Unit, Body, Serialized;
    var s, n := Serialized(u)[..k], k / 2;
    var v, b := u[..n], Body(s, n);
    BodyAfterMark(s, n);
    if n > 0 {
      CutUnit(u, k, 0);
      assert Unit(s[0], s[1], false) == u[0];
      if u[0] == 0xfeff {
        forall i | 0 <= i < |b| ensures b[i] == v[1..][i] {
          CutUnit(u, k, i + 1);
        }
      } else {
        forall i | 0 <= i < |b| ensures b[i] == v[i] {
          CutUnit(u, k, i);
        }
      }
    }
  }

  /** Reading a cut string never gives back the whole text. */
  lemma CutBody(cs: seq<Char>, k: nat)
    requires Tidied(cs) && k < |Serialized(AllUnits(cs))| && |AllUnits(cs)| > 1
    ensures Scalars(cs) && Tidied(Unmarked(cs))
    ensures var b := Body(Serialized(AllUnits(cs))[..k], k / 2);
            && AllLegal(Text(b)) && |Encoded(Text(b))| < |Encoded(Unmarked(cs))|
            && |Encoded(Text(b))| < |Encoded(cs)|
  {
    hide Body, Text, Encode, Encoded, Serialized, Units, AllUnits, Next;
    var u, n := AllUnits(cs), k / 2;
    FirstUnit(cs);
    BodyOfCut(u, k);
    EmptyUnits();
    EncodedFirst(cs);
    if cs[0] == 0xfeff {
      if n > 0 {
        assert u[..n][1..] == AllUnits(cs[1..])[..n - 1];
        CutText(cs[1..], n - 1);
      } else {
        CutText(cs[1..], 0);
      }
    } else {
      CutText(cs, n);
    }
  }

  lemma FirstUnit(cs: seq<Char>)
    requires Tidied(cs) && AllUnits(cs) != []
    ensures cs != [] && AllUnits(cs)[0] != 0xfffe && (AllUnits(cs)[0] == 0xfeff <==> cs[0] == 0xfeff)
    ensures cs[0] == 0xfeff ==> AllUnits(cs)[1..] == AllUnits(cs[1..])
  {
    assert AllUnits(cs)[0] == Units(cs[0])[0];
  }

  lemma CoveredCut(s: seq<Byte>)
    ensures |s| < LENGTH_MODULUS ==> Covered(s) == s
    ensures |s| >= LENGTH_MODULUS ==>
              |Covered(s)| < LENGTH_MODULUS && |Covered(s)| + LENGTH_MODULUS <= |s| && Covered(s) == s[..|Covered(s)|]
  {
  }

  lemma ShortRoundTrip(s: seq<Byte>)
    ensures !BeyondPlanes(Chars(s)) && Encoded(Repaired(s)) == s
       <==> Accepted(s) && !BeyondPlanes(Chars(s)) && (s == [] || Chars(s)[0] != 0xfeff)
    ensures Utf16Of(s).failed <==> BeyondPlanes(Chars(s))
  {
    hide DecodeOne, Serialized, AllUnits, Encode;
    var cs := Chars(s);
    var clean := AllSanitized(cs);
    CharsOfEncoded(Repaired(s));
    if Encoded(Repaired(s)) == s && !BeyondPlanes(cs) {
      assert Readable(Repaired(s)) == Repaired(s);
      assert clean == Repaired(s);
      assert Accepted(s);
    }
    if Accepted(s) && !BeyondPlanes(cs) {
      EncodedOfChars(s);
      assert clean == cs;
    }
  }

  /** A string of 2^32 bytes or more never comes back: what is covered of it is too short. */
  lemma LongNeverReturns(s: seq<Byte>)
    requires |s| >= LENGTH_MODULUS
    ensures |BackOf(s).text| < |s|
  {
    hide Utf16Of, Covered, Body, Text, Encoded;
    var x, there := Covered(s), ThereOf(s).text;
    CoveredCut(s);
    Utf16Length(x);
    CoveredCut(there);
    var y := Covered(there);
    var b := Body(y, |y| / 2);
    BodyWidth(y);
    Utf8Length(b);
    assert |BackOf(s).text| <= 3 * (|y| / 2);
    assert |y| <= 2 * |x| && |y| < LENGTH_MODULUS;
  }

  lemma BodyWidth(s: seq<Byte>)
    ensures |Body(s, |s| / 2)| <= |s| / 2
  {
  }

  /** A string whose UTF-16 form has 2^32 bytes or more does not come back either. */
  lemma LongFormIsLost(s: seq<Byte>)
    requires |s| < LENGTH_MODULUS && |ThereOf(s).text| >= LENGTH_MODULUS
    ensures BackOf(s).text != s
  {
    hide DecodeOne, Body, Text, Encoded, Encode, WellFormed, Serialized, AllUnits, Covered;
    CoveredCut(s);
    var cs := Chars(s);
    var clean := AllSanitized(cs);
    var there := Serialized(AllUnits(clean));
    SanitizedIsTidied(cs);
    CoveredCut(there);
    CutBody(clean, |Covered(there)|);
    var back := Text(Body(Covered(there), |Covered(there)| / 2));
    if Encoded(back) == s {
      CharsOfEncoded(back);
      LegalIsReadable(back);
      SanitizedSame(back);
    }
  }

  lemma SanitizedSame(cs: seq<Char>)
    requires AllLegal(cs) && AllInPlanes(cs)
    ensures AllSanitized(cs) == cs
  {
    NotLegal();
  }

  lemma LegalIsReadable(cs: seq<Char>)
    requires AllLegal(cs)
    ensures Readable(cs) == cs && INVALID !in cs
  {
    NotLegal();
  }

  lemma {:induction false} Letters(s: seq<Byte>)
    requires forall i :: 0 <= i < |s| ==> s[i] == 0x61
    ensures |Chars(s)| == |s| && forall i :: 0 <= i < |s| ==> Chars(s)[i] == 0x61
    ensures |AllUnits(AllSanitized(Chars(s)))| == |s|
    decreases |s|
  {
    if s != [] {
      assert DecodeOne(s) == Decoded(0x61, 1);
      Letters(s[1..]);
      assert Chars(s) == [0x61] + Chars(s[1..]);
      assert AllSanitized(Chars(s))[1..] == AllSanitized(Chars(s[1..]));
    }
  }

  // ---------- Lemmas about text that is cut short ----------

  /** No encoding of a legal text is the start of another one, unless the text is. */
  lemma {:induction false} PrefixEncoded(ds: seq<Char>, cs: seq<Char>)
    requires Scalars(ds) && AllLegal(ds) && Scalars(cs) && Encoded(ds) <= Encoded(cs)
    ensures ds <= cs
    decreases |ds|
  {
    hide Encode, DecodeOne;
    if ds != [] {
      var e, n := Encoded(cs), Size(ds[0]);
      assert e[..n] == Encode(ds[0]) && e == Encode(ds[0]) + e[n..];
      DecodeEncoded(ds[0], e[n..]);
      DecodeEncoded(cs[0], Encoded(cs[1..]));
      NotLegal();
      assert e[n..] == Encoded(cs[1..]) && Encoded(ds)[n..] == Encoded(ds[1..]);
      PrefixEncoded(ds[1..], cs[1..]);
    }
  }

  lemma {:induction false} EncodedConcat(a: seq<Char>, b: seq<Char>)
    requires Scalars(a) && Scalars(b)
    ensures Scalars(a + b) && Encoded(a + b) == Encoded(a) + Encoded(b)
    decreases |a|
  {
    hide Encode;
    if a == [] {
      assert a + b == b;
    } else {
      EncodedConcat(a[1..], b);
      assert (a + b)[1..] == a[1..] + b;
      Associate(Encode(a[0]), Encoded(a[1..]), Encoded(b));
    }
  }

  lemma {:induction false} EncodedLength(cs: seq<Char>)
    requires Scalars(cs)
    ensures |Encoded(cs)| >= |cs|
  {
    if cs != [] {
      EncodedLength(cs[1..]);
    }
  }
}
