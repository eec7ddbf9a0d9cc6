/** Little-endian emission, patching and reading over a bounded buffer (bootstrap/binary.lisp). */
module Binary {
  import opened Bits
  import opened Words

  type Int32 = n: int | -0x8000_0000 <= n < 0x8000_0000

  // ---------- Reference: digits in base 256 ----------

  /** The n low-order bytes of x, least significant first. */
  function Digits(x: nat, n: nat): (ds: seq<Byte>)
    ensures |ds| == n
  {
    if n == 0 then [] else [x % 256] + Digits(x / 256, n - 1)
  }

  function Value(ds: seq<Byte>): nat {
    if ds == [] then 0 else ds[0] + 256 * Value(ds[1..])
  }

  /** Digits lose nothing below 256^n and keep nothing above it. */
  lemma {:induction false} ValueOfDigits(x: nat, n: nat)
    ensures Value(Digits(x, n)) == x % Pow2(8 * n)
  {
    if n == 0 {
      assert Pow2(0) == 1 && x % 1 == 0;
    } else {
      var h := Pow2(8 * (n - 1));
      Pow2Add(8, 8 * (n - 1));
      Pow2Values();
      assert Pow2(8 * n) == 256 * h;
      ValueOfDigits(x / 256, n - 1);
      ModByByte(x, h);
    }
  }

  lemma ModByByte(x: nat, h: nat)
    requires h > 0
    ensures x % (256 * h) == x % 256 + 256 * ((x / 256) % h)
  {
    var q, r := (x / 256) / h, (x / 256) % h;
    Division(x / 256, h);
    assert x == 256 * (h * q + r) + x % 256;
    assert 256 * (h * q) == (256 * h) * q;
    ModUnique(x, 256 * h, q, x % 256 + 256 * r);
  }

  /** Shifting right by 8i and truncating to a byte selects digit i. */
  function Shr64(bits: Word, count: nat): Word {
    ShrShrinks(bits, count);
    bits / Pow2(count)
  }

  lemma ShrShrinks(bits: nat, count: nat)
    ensures 0 <= bits / Pow2(count) <= bits
  {
    Division(bits, Pow2(count));
    var q := bits / Pow2(count);
    if q < 0 {
      ProductGrows(Pow2(count), -q);
      Distribute(Pow2(count), 0, q);
    } else {
      QuotientBelow(Pow2(count), q);
    }
  }

  lemma QuotientBelow(m: nat, q: nat)
    requires m > 0
    ensures m * q >= q
  {
  }

  lemma {:induction false} DigitIsShift(x: nat, n: nat, i: nat)
    requires i < n
    ensures Digits(x, n)[i] == (x / Pow2(8 * i)) % 256
    decreases n
  {
    if i == 0 {
      assert Pow2(0) == 1 && x / 1 == x;
    } else {
      DigitIsShift(x / 256, n - 1, i - 1);
      Pow2Add(8, 8 * (i - 1));
      Pow2Values();
      DivDiv(x, 256, Pow2(8 * (i - 1)));
      assert Pow2(8 * i) == 256 * Pow2(8 * (i - 1));
    }
  }

  lemma DivDiv(x: nat, a: nat, b: nat)
    requires a > 0 && b > 0 && a * b > 0
    ensures (x / a) / b == x / (a * b)
  {
    var y := x / a;
    var q, r, s := y / b, y % b, x % a;
    Division(x, a);
    Division(y, b);
    assert x == a * (b * q + r) + s;
    assert a * (b * q + r) == a * (b * q) + a * r;
    assert a * (b * q) == (a * b) * q;
    RemainderBelow(a, b, r, s);
    ModUnique(x, a * b, q, a * r + s);
  }

  lemma RemainderBelow(a: nat, b: nat, r: nat, s: nat)
    requires r < b && s < a
    ensures 0 <= a * r + s < a * b
  {
    Distribute(a, b, r);
    ProductGrows(a, b - r);
    QuotientNonNegative(a, r);
  }

  lemma QuotientNonNegative(a: nat, r: nat)
    ensures a * r >= 0
  {
  }

  lemma InRange(x: int)
    requires 0 <= x < WORD_SPAN
    ensures x % WORD_SPAN == x
  {
  }

  /** The byte that emission computes for digit `index`. */
  function ByteAt(bits: Word, index: nat): (b: Byte)
    requires index < 8
    ensures b == (bits / Pow2(8 * index)) % 256
  {
    InRange(index * 8);
    assert index * 8 == 8 * index;
    Shr64(bits, (index * 8) % WORD_SPAN) % 256
  }

  // ---------- The buffer ----------

  class ByteBuffer {
    const data: array<Byte>
    const capacity: Word
    var length: Word

    /** The caller owns `data`, which backs the declared capacity and the bytes written. */
    ghost predicate Valid()
      reads this
    {
      capacity <= data.Length && length <= data.Length < 0x8000_0000_0000_0000
    }

    constructor (data: array<Byte>, capacity: Word, length: Word)
      requires capacity <= data.Length && length <= data.Length < 0x8000_0000_0000_0000
      ensures Valid() && this.data == data && this.capacity == capacity && this.length == length
    {
      this.data, this.capacity, this.length := data, capacity, length;
    }

    /** Without overflow: the bytes fit behind what is there. */
    method RoomFor(count: Word) returns (room: bool)
      ensures room <==> length + count <= capacity
    {
      if capacity < length {
        return false;
      }
      return (capacity - length) % WORD_SPAN >= count;
    }

    method EmitByteUnchecked(byte: Byte)
      requires Valid() && length < data.Length
      modifies `length, data
      ensures Valid() && length == old(length) + 1
      ensures data[..] == old(data[..])[old(length) := byte]
    {
      data[length] := byte;
      length := (length + 1) % WORD_SPAN;
    }

    method EmitByte(byte: Byte) returns (ok: bool)
      requires Valid()
      modifies `length, data
      ensures Valid() && (ok <==> old(length) + 1 <= capacity)
      ensures ok ==> length == old(length) + 1 && data[..] == old(data[..])[old(length) := byte]
      ensures !ok ==> length == old(length) && data[..] == old(data[..])
    {
      ok := RoomFor(1);
      if ok {
        EmitByteUnchecked(byte);
      }
    }

    method EmitIntegerSteps(bits: Word, start: Word, stop: Word)
      requires Valid() && start == length <= stop <= data.Length && stop - start <= 8
      modifies `length, data
      ensures Valid() && length == stop
      ensures data[..] == Spliced(old(data[..]), start, Digits(bits, stop - start))
    {
      ghost var ds := Digits(bits, stop - start);
      assert Spliced(data[..], start, ds[..0]) == data[..];
      while length < stop
        invariant Valid() && start <= length <= stop
        invariant data[..] == Spliced(old(data[..]), start, ds[..length - start])
      {
        var index := length - start;
        var byte := ByteAt(bits, index);
        DigitIsShift(bits, stop - start, index);
        SplicedSnoc(old(data[..]), start, ds, index);
        EmitByteUnchecked(byte);
      }
      assert ds[..stop - start] == ds;
    }

    /** All or nothing: with count at most 8 and room, exactly the count low-order bytes are
        appended; otherwise nothing changes. */
    method EmitInteger(bits: Word, count: Word) returns (ok: bool)
      requires Valid()
      modifies `length, data
      ensures Valid() && (ok <==> count <= 8 && old(length) + count <= capacity)
      ensures ok ==> length == old(length) + count
      ensures ok ==> data[..] == Spliced(old(data[..]), old(length), Digits(bits, count))
      ensures !ok ==> length == old(length) && data[..] == old(data[..])
    {
      if 8 < count {
        return false;
      }
      ok := RoomFor(count);
      if ok {
        EmitIntegerSteps(bits, length, (length + count) % WORD_SPAN);
      }
    }

    method PatchIntegerSteps(position: nat, bits: Word, remaining: nat)
      requires position + remaining <= data.Length
      modifies data
      ensures data[..] == Spliced(old(data[..]), position, Digits(bits, remaining))
      decreases remaining
    {
      if remaining == 0 {
        return;
      }
      data[position] := bits % 256;
      ghost var mid := data[..];
      Pow2Values();
      PatchIntegerSteps(position + 1, Shr64(bits, 8), remaining - 1);
      SplicedCons(old(data[..]), position, bits % 256, Digits(bits / 256, remaining - 1), mid);
    }

    /** Exactly the four bytes at the offset change, never the length. */
    method PatchI32(offset: Word, value: Int32) returns (ok: bool)
      requires Valid()
      modifies data
      ensures ok <==> offset + 4 <= length
      ensures ok ==> data[..] == Spliced(old(data[..]), offset, Digits(value % WORD_SPAN, 4))
      ensures !ok ==> data[..] == old(data[..])
    {
      if length < offset {
        return false;
      }
      if (length - offset) % WORD_SPAN < 4 {
        return false;
      }
      PatchIntegerSteps(offset, value % WORD_SPAN, 4);
      return true;
    }
  }

  /** s with the bytes from position on overwritten by ds. */
  function Spliced(s: seq<Byte>, position: nat, ds: seq<Byte>): (r: seq<Byte>)
    requires position + |ds| <= |s|
    ensures |r| == |s| && r[position..position + |ds|] == ds
    ensures r[..position] == s[..position] && r[position + |ds|..] == s[position + |ds|..]
  {
    s[..position] + ds + s[position + |ds|..]
  }

  lemma SplicedSnoc(s: seq<Byte>, position: nat, ds: seq<Byte>, i: nat)
    requires position + |ds| <= |s| && i < |ds|
    ensures Spliced(s, position, ds[..i])[position + i := ds[i]] == Spliced(s, position, ds[..i + 1])
  {
  }

  lemma SplicedCons(s: seq<Byte>, position: nat, d: Byte, ds: seq<Byte>, mid: seq<Byte>)
    requires position + 1 + |ds| <= |s| && mid == s[position := d]
    ensures Spliced(mid, position + 1, ds) == Spliced(s, position, [d] + ds)
  {
  }

  // ---------- Reading ----------

  method ReadU32Le(data: array<Byte>, position: nat) returns (r: Word)
    requires position + 4 <= data.Length
    ensures r == Value(data[position..position + 4])
  {
    var b0: int, b1: int := data[position], data[position + 1];
    var b2: int, b3: int := data[position + 2], data[position + 3];
    ValueOfFour(data[position..position + 4], b0, b1, b2, b3);
    NothingWraps(b0, b1, b2, b3);
    var high := ((b2 * 65536) % WORD_SPAN + (b3 * 0x1000000) % WORD_SPAN) % WORD_SPAN;
    r := (b0 + ((b1 * 256) % WORD_SPAN + high) % WORD_SPAN) % WORD_SPAN;
  }

  lemma NothingWraps(b0: int, b1: int, b2: int, b3: int)
    requires 0 <= b0 < 256 && 0 <= b1 < 256 && 0 <= b2 < 256 && 0 <= b3 < 256
    ensures var high := ((b2 * 65536) % WORD_SPAN + (b3 * 0x1000000) % WORD_SPAN) % WORD_SPAN;
      (b0 + ((b1 * 256) % WORD_SPAN + high) % WORD_SPAN) % WORD_SPAN == b0 + 256 * b1 + 65536 * b2 + 0x1000000 * b3
  {
    InRange(b2 * 65536);
    InRange(b3 * 0x1000000);
    InRange(b1 * 256);
    InRange(b2 * 65536 + b3 * 0x1000000);
    InRange(b1 * 256 + b2 * 65536 + b3 * 0x1000000);
    InRange(b0 + b1 * 256 + b2 * 65536 + b3 * 0x1000000);
  }

  lemma ValueOfFour(ds: seq<Byte>, b0: int, b1: int, b2: int, b3: int)
    requires |ds| == 4 && ds[0] == b0 && ds[1] == b1 && ds[2] == b2 && ds[3] == b3
    ensures Value(ds) == b0 + 256 * b1 + 65536 * b2 + 0x1000000 * b3
  {
    assert Value(ds[1..]) == b1 + 256 * Value(ds[2..]) by { assert ds[1..][1..] == ds[2..]; }
    assert Value(ds[2..]) == b2 + 256 * Value(ds[3..]) by { assert ds[2..][1..] == ds[3..]; }
    assert Value(ds[3..]) == b3 by { assert ds[3..][1..] == []; }
  }

  /** The bytes of an emission hold the number modulo 256^count: all of it when count is 8. */
  lemma EmittedValue(s: seq<Byte>, position: nat, bits: Word, count: nat)
    requires count <= 8 && position + count <= |s|
    ensures var read := Value(Spliced(s, position, Digits(bits, count))[position..position + count]);
      read == bits % Pow2(8 * count) && (count == 8 ==> read == bits)
  {
    hide Pow2, Digits, Value, Spliced;
    ValueOfDigits(bits, count);
    if count == 8 {
      Pow2Values();
    }
  }

  /** Reading back a four-byte emission gives the number modulo 2^32. */
  lemma ReadBack(s: seq<Byte>, position: nat, bits: Word)
    requires position + 4 <= |s|
    ensures Value(Spliced(s, position, Digits(bits, 4))[position..position + 4]) == bits % 0x1_0000_0000
  {
    Pow2Values();
    EmittedValue(s, position, bits, 4);
  }

  lemma SignExtension(value: Int32)
    ensures (value % WORD_SPAN) % 0x1_0000_0000 == value % 0x1_0000_0000
    ensures value % 0x1_0000_0000 == if value >= 0 then value else value + 0x1_0000_0000
  {
    if value < 0 {
      assert value % WORD_SPAN == value + WORD_SPAN;
    }
  }

  /** Reading back a patch gives the value modulo 2^32, and so the signed value itself. */
  lemma PatchReadBack(s: seq<Byte>, position: nat, value: Int32)
    requires position + 4 <= |s|
    ensures var read := Value(Spliced(s, position, Digits(value % WORD_SPAN, 4))[position..position + 4]);
      read == value % 0x1_0000_0000 && value == if read < 0x8000_0000 then read else read - 0x1_0000_0000
  {
    ReadBack(s, position, value % WORD_SPAN);
    SignExtension(value);
  }
}
