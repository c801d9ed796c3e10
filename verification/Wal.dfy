/**
 * WAL segment names and the string comparison that decides whether a source
 * still has the WAL a standby needs.
 */
module Wal {
  import opened Arithmetic
  import opened Strings

  const WORD: nat := 0x1_0000_0000

  datatype Result<T> = Ok(value: T) | BadWalFileName

  predicate IsHex(c: char) { '0' <= c <= '9' || 'A' <= c <= 'F' }

  function HexDigit(d: nat): char
    requires d < 16
  {
    "0123456789ABCDEF"[d]
  }

  function HexValue(c: char): nat
    requires IsHex(c)
  {
    if c <= '9' then c as nat - '0' as nat else 10 + (c as nat - 'A' as nat)
  }

  ghost predicate AllHex(s: string) { forall i :: 0 <= i < |s| ==> IsHex(s[i]) }

  /** `n` in upper-case hexadecimal, padded with zeros to `width` digits. */
  function Hex(n: nat, width: nat): string {
    if width == 0 then [] else Hex(n / 16, width - 1) + [HexDigit(n % 16)]
  }

  /** The number a hexadecimal string denotes. */
  ghost function Value(s: string): nat
    requires AllHex(s)
  {
    if s == [] then 0 else 16 * Value(s[..|s| - 1]) + HexValue(s[|s| - 1])
  }

  // ---------------------------------------------------------------- the code

  ghost predicate IsWalName(name: string) { |name| == 24 && AllHex(name) }

  method IsWalFileName(name: string) returns (r: bool)
    ensures r == IsWalName(name)
  {
    var walChars := "0123456789ABCDEF";
    if |name| != 24 {
      return false;
    }
    for i := 0 to |name|
      invariant forall k :: 0 <= k < i ==> IsHex(name[k])
    {
      var c := name[i];
      var ok := false;
      for j := 0 to |walChars|
        invariant ok <==> exists k :: 0 <= k < j && walChars[k] == c
      {
        if c == walChars[j] {
          ok := true;
        }
      }
      HexAlphabet(c);
      if !ok {
        return false;
      }
    }
    return true;
  }

  lemma HexAlphabet(c: char)
    ensures IsHex(c) <==> exists k :: 0 <= k < 16 && "0123456789ABCDEF"[k] == c
  {
    if IsHex(c) {
      assert "0123456789ABCDEF"[HexValue(c)] == c;
    }
  }

  function SegmentNameNoTimeline(xLogPos: nat, walSegSize: nat): string
    requires walSegSize > 0
  {
    Hex(xLogPos / WORD, 8) + Hex(xLogPos % WORD / walSegSize, 8)
  }

  method NameNoTimeline(name: string) returns (r: Result<string>)
    ensures r == if IsWalName(name) then Ok(name[8..24]) else BadWalFileName
  {
    var ok := IsWalFileName(name);
    if !ok {
      return BadWalFileName;
    }
    return Ok(name[8..24]);
  }

  /** Whether segment (hi, lo) of `name` is not after the segment of `xLogPos`. */
  ghost predicate NotBefore(xLogPos: nat, walSegSize: nat, name: string)
    requires walSegSize > 0 && IsWalName(name)
  {
    var hi, lo := Value(name[8..16]), Value(name[16..24]);
    xLogPos / WORD > hi || (xLogPos / WORD == hi && xLogPos % WORD / walSegSize >= lo)
  }

  /**
   * Comparing names as strings is exact: the WAL is available if and only if
   * the (high word, segment) pair of the position is not before that of the
   * oldest file, for every 64-bit position and every 24-digit name.
   */
  method IsRequiredWalAvailable(requiredXLogPos: nat, oldestWalFile: string, walSegSize: nat) returns (r: Result<bool>)
    requires requiredXLogPos < WORD * WORD
    requires 0 < walSegSize < WORD
    ensures oldestWalFile == "" ==> r == Ok(true)
    ensures oldestWalFile != "" && !IsWalName(oldestWalFile) ==> r == BadWalFileName
    ensures IsWalName(oldestWalFile) ==> r == Ok(NotBefore(requiredXLogPos, walSegSize, oldestWalFile))
  {
    if oldestWalFile == "" {
      return Ok(true);
    }
    var older := NameNoTimeline(oldestWalFile);
    if older.BadWalFileName? {
      return BadWalFileName;
    }
    var required := SegmentNameNoTimeline(requiredXLogPos, walSegSize);
    NameOrderIsExact(requiredXLogPos, walSegSize, oldestWalFile);
    return Ok(!StringLess(required, older.value));
  }

  // --------------------------------------------------------------- the proof

  lemma {:induction false} HexIsHex(n: nat, width: nat)
    ensures |Hex(n, width)| == width && AllHex(Hex(n, width))
  {
    if width > 0 {
      HexIsHex(n / 16, width - 1);
    }
  }

  ghost function Pow16(k: nat): nat { if k == 0 then 1 else 16 * Pow16(k - 1) }

  /** Printing and reading back gives the number, reduced to the digits printed. */
  lemma {:induction false} ValueOfHex(n: nat, width: nat)
    requires n < Pow16(width)
    ensures AllHex(Hex(n, width)) && Value(Hex(n, width)) == n
  {
    HexIsHex(n, width);
    if width > 0 {
      HexIsHex(n / 16, width - 1);
      ValueOfHex(n / 16, width - 1);
      assert Hex(n, width)[..width - 1] == Hex(n / 16, width - 1);
      assert HexValue(HexDigit(n % 16)) == n % 16;
    }
  }

  lemma ShiftConcat(v: nat, p: nat, w: nat, d: nat)
    ensures 16 * (v * p + w) + d == v * (16 * p) + (16 * w + d)
  {
  }

  lemma {:induction false} ValueOfConcat(a: string, b: string)
    requires AllHex(a) && AllHex(b)
    ensures AllHex(a + b) && Value(a + b) == Value(a) * Pow16(|b|) + Value(b)
  {
    if b == [] {
      assert a + b == a;
    } else {
      var b' := b[..|b| - 1];
      ValueOfConcat(a, b');
      assert (a + b)[..|a + b| - 1] == a + b';
      ShiftConcat(Value(a), Pow16(|b'|), Value(b'), HexValue(b[|b| - 1]));
    }
  }

  lemma {:induction false} ValueBound(s: string)
    requires AllHex(s)
    ensures Value(s) < Pow16(|s|)
  {
    if s != [] {
      ValueBound(s[..|s| - 1]);
    }
  }

  /** On equally long hexadecimal strings, string order is numeric order. */
  lemma {:induction false} StringOrderIsNumeric(a: string, b: string)
    requires |a| == |b| && AllHex(a) && AllHex(b)
    ensures StringLess(a, b) <==> Value(a) < Value(b)
    ensures a == b <==> Value(a) == Value(b)
  {
    if a != [] {
      var a', b' := a[..|a| - 1], b[..|b| - 1];
      var x, y := a[|a| - 1], b[|b| - 1];
      assert a == a' + [x] && b == b' + [y];
      StringOrderIsNumeric(a', b');
      StringLessOnLast(a', b', x, y);
    }
  }

  lemma NameOrderIsExact(xLogPos: nat, walSegSize: nat, name: string)
    requires xLogPos < WORD * WORD && 0 < walSegSize < WORD
    requires IsWalName(name)
    ensures !StringLess(SegmentNameNoTimeline(xLogPos, walSegSize), name[8..24]) <==> NotBefore(xLogPos, walSegSize, name)
  {
    var id, seg := xLogPos / WORD, xLogPos % WORD / walSegSize;
    SegmentBelowWord(xLogPos % WORD, walSegSize);
    assert Pow16(8) == WORD;
    ValueOfHex(id, 8);
    ValueOfHex(seg, 8);
    HexIsHex(id, 8);
    HexIsHex(seg, 8);
    ValueOfConcat(Hex(id, 8), Hex(seg, 8));
    var hi, lo := name[8..16], name[16..24];
    assert name[8..24] == hi + lo;
    ValueOfConcat(hi, lo);
    ValueBound(lo);
    StringOrderIsNumeric(Hex(id, 8) + Hex(seg, 8), hi + lo);
    MixedRadixOrder(id, seg, Value(hi), Value(lo), WORD);
  }

  lemma SegmentBelowWord(offset: nat, walSegSize: nat)
    requires offset < WORD && 0 < walSegSize
    ensures offset / walSegSize < WORD
  {
    QuotientBound(offset, walSegSize, offset / walSegSize, offset % walSegSize);
  }

  /**
   * For a segment size that divides 2^32, and names whose segment part is in
   * range, the answer is the order of absolute segment numbers.
   */
  lemma NotBeforeIsSegmentOrder(xLogPos: nat, walSegSize: nat, perWord: nat, name: string)
    requires 0 < walSegSize && walSegSize * perWord == WORD
    requires IsWalName(name) && Value(name[16..24]) < perWord
    ensures NotBefore(xLogPos, walSegSize, name)
       <==> xLogPos / walSegSize >= Value(name[8..16]) * perWord + Value(name[16..24])
  {
    var id, offset := xLogPos / WORD, xLogPos % WORD;
    SegmentNumber(id, offset, walSegSize, perWord, WORD);
    MixedRadixOrder(id, offset / walSegSize, Value(name[8..16]), Value(name[16..24]), perWord);
  }

  lemma MixedRadixOrder(a: nat, b: nat, c: nat, d: nat, radix: nat)
    requires b < radix && d < radix
    ensures a * radix + b >= c * radix + d <==> a > c || (a == c && b >= d)
  {
    if a > c {
      assert (c + 1) * radix <= a * radix;
    } else if a < c {
      assert (a + 1) * radix <= c * radix;
    }
  }

  lemma SegmentNumber(id: nat, offset: nat, size: nat, perWord: nat, word: nat)
    requires 0 < size && size * perWord == word && offset < word
    ensures (id * word + offset) / size == id * perWord + offset / size
    ensures offset / size < perWord
  {
    var q, r := offset / size, offset % size;
    assert offset == size * q + r;
    Reassociate(id, size, perWord);
    Distribute(size, id * perWord, q);
    QuotientUnique(id * word + offset, size, id * perWord + q, r);
    MulMonotone(size, perWord, q);
  }
}
