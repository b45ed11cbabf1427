/** CpuMaskStr: the bitmap as a hexadecimal cpumask, highest CPUs to the left, on a little-endian machine. */
module CpuMask {
  import opened CpuBits
  import opened CpuLists

  //---------------------------------------------------------------------------
  // The number a bitmap stands for
  //---------------------------------------------------------------------------

  function Value(words: seq<nat>): nat {
    if words == [] then 0 else words[0] + Pow2(WORD_BITS) * Value(words[1..])
  }

  /** Byte k of a word in memory. */
  function ByteOf(w: nat, k: nat): nat { if k == 0 then w % 256 else ByteOf(w / 256, k - 1) }

  function ByteAt(words: seq<nat>, i: nat): nat
    requires i / 8 < |words|
  {
    ByteOf(words[i / 8], i % 8)
  }

  /** The number that the bytes from i on spell, lowest byte first. */
  function FromByte(words: seq<nat>, i: nat): nat
    requires i <= 8 * |words|
    decreases 8 * |words| - i
  {
    if i == 8 * |words| then 0 else ByteAt(words, i) + 256 * FromByte(words, i + 1)
  }

  lemma {:induction false} AddBit(a: nat, b: nat, n: nat, i: nat)
    requires a < Pow2(n)
    ensures Bit(a + Pow2(n) * b, i) <==> if i < n then Bit(a, i) else Bit(b, i - n)
    decreases n
  {
    if n > 0 {
      Twice(Pow2(n - 1), b);
      Halve(a, Pow2(n - 1) * b);
      if i > 0 { AddBit(a / 2, b, n - 1, i - 1); }
    }
  }

  lemma {:induction false} Twice(p: nat, x: nat)
    ensures (2 * p) * x == 2 * (p * x)
  {
  }

  lemma {:induction false} Halve(a: nat, p: nat)
    ensures (a + 2 * p) % 2 == a % 2 && (a + 2 * p) / 2 == a / 2 + p
  {
  }

  /** Bit id of the number is CPU id. */
  lemma {:induction false} ValueBit(words: seq<nat>, id: nat)
    requires WordsOk(words)
    ensures Bit(Value(words), id) <==> Has(words, id)
  {
    if words == [] {
      ZeroHasNoBits(id);
    } else {
      AddBit(words[0], Value(words[1..]), WORD_BITS, id);
      if id >= WORD_BITS {
        ValueBit(words[1..], id - WORD_BITS);
        assert (id - WORD_BITS) / WORD_BITS == id / WORD_BITS - 1;
      }
    }
  }

  /** Different bitmaps stand for different numbers. */
  lemma {:induction false} ValueInjective(a: seq<nat>, b: seq<nat>)
    requires WordsOk(a) && WordsOk(b) && |a| == |b| && Value(a) == Value(b)
    ensures a == b
  {
    forall id: nat ensures Has(a, id) <==> Has(b, id) {
      ValueBit(a, id);
      ValueBit(b, id);
    }
    SameMembers(a, b);
  }

  function Pow256(n: nat): nat { if n == 0 then 1 else 256 * Pow256(n - 1) }

  lemma {:induction false} Pow256IsPow2(n: nat)
    ensures Pow256(n) == Pow2(8 * n)
  {
    if n > 0 {
      Pow256IsPow2(n - 1);
      Pow2Eight(8 * n - 8);
    }
  }

  lemma {:induction false} Pow2Eight(n: nat)
    ensures Pow2(n + 8) == 256 * Pow2(n)
  {
    assert Pow2(n + 4) == 16 * Pow2(n) by { assert Pow2(n + 2) == 4 * Pow2(n); }
    assert Pow2(n + 8) == 16 * Pow2(n + 4) by { assert Pow2(n + 6) == 4 * Pow2(n + 4); }
  }

  /** w without its k lowest bytes. */
  function Shifted(w: nat, k: nat): nat { if k == 0 then w else Shifted(w / 256, k - 1) }

  lemma {:induction false} ShiftedByte(w: nat, k: nat)
    ensures ByteOf(w, k) == Shifted(w, k) % 256 && Shifted(w, k + 1) == Shifted(w, k) / 256
  {
    if k > 0 { ShiftedByte(w / 256, k - 1); }
  }

  lemma {:induction false} ShiftedOut(w: nat, n: nat)
    requires w < Pow256(n)
    ensures Shifted(w, n) == 0
  {
    if n > 0 { ShiftedOut(w / 256, n - 1); }
  }

  /** Reading word j from its byte k on. */
  lemma {:induction false} FromWord(words: seq<nat>, j: nat, k: nat)
    requires WordsOk(words) && j < |words| && k <= 8
    ensures FromByte(words, 8 * j + k) == Shifted(words[j], k) + Pow256(8 - k) * FromByte(words, 8 * j + 8)
    decreases 8 - k
  {
    var rest := FromByte(words, 8 * j + 8);
    if k == 8 {
      assert Shifted(words[j], 8) == 0 by {
        Pow256IsPow2(8);
        ShiftedOut(words[j], 8);
      }
      assert Pow256(0) * rest == rest;
    } else {
      var from, next, w := FromByte(words, 8 * j + k), FromByte(words, 8 * j + k + 1), Shifted(words[j], k);
      assert next == w / 256 + Pow256(7 - k) * rest by {
        FromWord(words, j, k + 1);
        ShiftedByte(words[j], k);
      }
      assert from == w % 256 + 256 * next by {
        ShiftedByte(words[j], k);
        ByteInWord(words, j, k);
      }
      ByteStep(from, next, w, Pow256(7 - k), rest);
      assert Pow256(8 - k) == 256 * Pow256(7 - k);
    }
  }

  lemma {:induction false} ByteInWord(words: seq<nat>, j: nat, k: nat)
    requires j < |words| && k < 8
    ensures FromByte(words, 8 * j + k) == ByteOf(words[j], k) + 256 * FromByte(words, 8 * j + k + 1)
  {
    assert (8 * j + k) / 8 == j && (8 * j + k) % 8 == k;
  }

  lemma {:induction false} ByteStep(x: nat, y: nat, w: nat, p: nat, rest: nat)
    requires x == w % 256 + 256 * y && y == w / 256 + p * rest
    ensures x == w + (256 * p) * rest
  {
    Combine(w, p, rest);
  }

  lemma {:induction false} Combine(w: nat, p: nat, x: nat)
    ensures w % 256 + 256 * (w / 256 + p * x) == w + (256 * p) * x
  {
    Regroup(p, x);
  }

  lemma {:induction false} Regroup(p: nat, x: nat)
    ensures 256 * (p * x) == (256 * p) * x
  {
  }

  lemma {:induction false} WordRadix(n: nat, x: nat)
    requires n == 8
    ensures Pow256(n) * x == Pow2(WORD_BITS) * x
  {
    Pow256IsPow2(n);
  }

  lemma {:induction false} FromWhole(words: seq<nat>, j: nat, next: nat)
    requires WordsOk(words) && j < |words| && next == 8 * j + 8
    ensures FromByte(words, 8 * j) == words[j] + Pow2(WORD_BITS) * FromByte(words, next)
  {
    assert FromByte(words, 8 * j) == words[j] + Pow256(8) * FromByte(words, next) by { FromWord(words, j, 0); }
    WordRadix(8, FromByte(words, next));
  }

  lemma {:induction false} FromByteIsValue(words: seq<nat>, j: nat)
    requires WordsOk(words) && j <= |words|
    ensures FromByte(words, 8 * j) == Value(words[j..])
    decreases |words| - j
  {
    if j < |words| {
      FromByteIsValue(words, j + 1);
      FromWhole(words, j, 8 * (j + 1));
      assert words[j..][1..] == words[j + 1..];
    }
  }

  //---------------------------------------------------------------------------
  // Hexadecimal strings
  //---------------------------------------------------------------------------

  function HexDigit(d: nat): char
    requires d < 16
  {
    "0123456789abcdef"[d]
  }

  function HexValue(c: char): nat {
    if '0' <= c <= '9' then (c - '0') as nat else if 'a' <= c <= 'f' then (c - 'a') as nat + 10 else 0
  }

  predicate IsHex(c: char) { '0' <= c <= '9' || 'a' <= c <= 'f' }

  predicate AllHex(s: string) { forall i :: 0 <= i < |s| ==> IsHex(s[i]) }

  lemma {:induction false} HexInverse(d: nat)
    requires d < 16
    ensures IsHex(HexDigit(d)) && HexValue(HexDigit(d)) == d && HexDigit(d) != ',' && (HexDigit(d) == '0' <==> d == 0)
  {
  }

  function ReadHex(s: string): nat {
    if s == "" then 0 else 16 * ReadHex(s[..|s| - 1]) + HexValue(s[|s| - 1])
  }

  /** The string without its commas. */
  function Digits(s: string): string {
    if s == "" then "" else Digits(s[..|s| - 1]) + (if s[|s| - 1] == ',' then "" else [s[|s| - 1]])
  }

  /** Digits in groups of 8, counting from the right. */
  function Grouped(s: string): string {
    if |s| <= 8 then s else Grouped(s[..|s| - 8]) + "," + s[|s| - 8..]
  }

  /** One digit, unless it would lead with a zero. */
  method AppendNibble(s: string, d: nat, ghost v: nat) returns (t: string)
    requires d < 16 && ReadHex(s) == v && (s == "" <==> v == 0) && AllHex(s) && (s != "" ==> s[0] != '0')
    ensures ReadHex(t) == 16 * v + d && (t == "" <==> 16 * v + d == 0)
    ensures AllHex(t) && (t != "" ==> t[0] != '0')
  {
    HexInverse(d);
    t := s;
    if d != 0 || s != "" {
      t := s + [HexDigit(d)];
      assert t[..|t| - 1] == s;
    }
  }

  /** The digits of the bitmap, highest first. */
  method HexOf(words: seq<nat>) returns (s: string)
    requires WordsOk(words)
    ensures ReadHex(s) == Value(words) && (s == "" <==> Value(words) == 0)
    ensures AllHex(s) && (s != "" ==> s[0] != '0')
  {
    s := "";
    var i := 8 * |words|;
    while i > 0
      invariant 0 <= i <= 8 * |words|
      invariant ReadHex(s) == FromByte(words, i) && (s == "" <==> FromByte(words, i) == 0)
      invariant AllHex(s) && (s != "" ==> s[0] != '0')
    {
      i := i - 1;
      var byte := ByteAt(words, i);
      ShiftedByte(words[i / 8], i % 8);
      ghost var v := FromByte(words, i + 1);
      s := AppendNibble(s, byte / 16, v);
      s := AppendNibble(s, byte % 16, 16 * v + byte / 16);
    }
    FromByteIsValue(words, 0);
    assert words[0..] == words;
  }

  /** The commas of s as they are written from the left: before digit k if k > 0 and |s| - k is a multiple of 8. */
  function Written(s: string, k: nat): string
    requires k <= |s|
  {
    if k == 0 then "" else Written(s, k - 1) + (if k > 1 && (|s| - (k - 1)) % 8 == 0 then "," else "") + [s[k - 1]]
  }

  lemma {:induction false} CountDown(n: nat)
    requires n > 0
    ensures (n - 1) % 8 == (if n % 8 == 0 then 8 else n % 8) - 1
  {
  }

  method AddCommas(s: string) returns (ret: string)
    requires AllHex(s)
    ensures ret == Grouped(s) && Digits(ret) == s
  {
    ret := "";
    var left := |s| % 8;
    if left == 0 {
      left := 8;
    }
    for k := 0 to |s|
      invariant ret == Written(s, k)
      invariant left == if k == 0 && |s| % 8 == 0 then 8 else (|s| - k) % 8
    {
      CountDown(|s| - k);
      if left == 0 {
        left := 8;
        ret := ret + ",";
      }
      left := left - 1;
      ret := ret + [s[k]];
    }
    WrittenIsGrouped(s);
    WrittenDigits(s, |s|);
    assert s[..|s|] == s;
  }

  lemma {:induction false} WrittenDigits(s: string, k: nat)
    requires AllHex(s) && k <= |s|
    ensures Digits(Written(s, k)) == s[..k]
  {
    if k > 0 {
      WrittenDigits(s, k - 1);
      var w, comma, c := Written(s, k - 1), k > 1 && (|s| - (k - 1)) % 8 == 0, s[k - 1];
      assert Digits(Written(s, k)) == Digits(w) + [c] by {
        assert IsHex(c);
        AddDigit(w, comma, c);
      }
      assert s[..k] == s[..k - 1] + [c];
    }
  }

  lemma {:induction false} AddDigit(w: string, comma: bool, c: char)
    requires c != ','
    ensures Digits(w + (if comma then "," else "") + [c]) == Digits(w) + [c]
  {
    var v := w + if comma then "," else "";
    DigitsSnoc(w, ',');
    DigitsSnoc(v, c);
    assert w + "" == w && w + [','] == w + ",";
    assert Digits(w) + "" == Digits(w);
    assert Digits(v) == Digits(w);
  }

  lemma {:induction false} DigitsSnoc(s: string, c: char)
    ensures Digits(s + [c]) == Digits(s) + if c == ',' then "" else [c]
  {
    assert (s + [c])[..|s|] == s;
  }

  /** What is written of a string depends only on its first digits and on how many follow, by eights. */
  lemma {:induction false} WrittenPrefix(s: string, t: string, k: nat)
    requires k <= |s| && k <= |t| && s[..k] == t[..k] && (|s| - |t|) % 8 == 0
    ensures Written(s, k) == Written(t, k)
  {
    if k > 0 {
      assert s[..k][..k - 1] == t[..k][..k - 1] && s[..k][k - 1] == t[..k][k - 1];
      WrittenPrefix(s, t, k - 1);
      assert (|s| - (k - 1)) % 8 == (|t| - (k - 1)) % 8;
    }
  }

  /** From a comma on, the next 8 digits are written without one. */
  lemma {:induction false} WrittenGroup(s: string, from: nat, k: nat)
    requires from <= k <= |s| && |s| - from <= 8
    ensures from > 0 && k > from && |s| - from == 8 ==> Written(s, k) == Written(s, from) + "," + s[from..k]
    ensures from == 0 ==> Written(s, k) == s[..k]
  {
    if k > from {
      WrittenGroup(s, from, k - 1);
      NextComma(|s| - from, k - from);
      if from > 0 && |s| - from == 8 {
        NextInGroup(s, from, k);
      } else if from == 0 {
        assert s[..k] == s[..k - 1] + [s[k - 1]];
        assert s[..k - 1] + "" == s[..k - 1];
      }
    }
  }

  lemma {:induction false} NextInGroup(s: string, from: nat, k: nat)
    requires 0 < from < k <= |s| && |s| - from == 8
    requires k - 1 > from ==> Written(s, k - 1) == Written(s, from) + "," + s[from..k - 1]
    ensures Written(s, k) == Written(s, from) + "," + s[from..k]
  {
    NextComma(|s| - from, k - from);
    var w, c := Written(s, from), s[k - 1];
    if k - 1 > from {
      var mid := s[from..k - 1];
      assert Written(s, k) == Written(s, k - 1) + "" + [c];
      assert s[from..k] == mid + [c];
      assert w + "," + mid + "" + [c] == w + "," + (mid + [c]);
    } else {
      assert Written(s, k) == w + "," + [c];
      assert s[from..k] == [c];
    }
  }

  /** In a group of at most 8 digits, only before the first of 8. */
  lemma {:induction false} NextComma(n: nat, k: nat)
    requires 0 < k <= n <= 8
    ensures (n - (k - 1)) % 8 == 0 <==> n == 8 && k == 1
  {
  }

  lemma {:induction false} WrittenIsGrouped(s: string)
    ensures Written(s, |s|) == Grouped(s)
  {
    if |s| <= 8 {
      WrittenGroup(s, 0, |s|);
      assert s[..|s|] == s;
    } else {
      var n := |s| - 8;
      WrittenIsGrouped(s[..n]);
      WrittenPrefix(s, s[..n], n);
      WrittenGroup(s, n, |s|);
      assert s[n..|s|] == s[n..];
    }
  }

  predicate CommasOk(ret: string) { forall i :: 0 <= i < |ret| ==> (ret[i] == ',' <==> (|ret| - i) % 9 == 0) }

  /** The commas are at every ninth place from the right, and nowhere else. */
  lemma {:induction false} CommasAre(s: string)
    requires AllHex(s)
    ensures CommasOk(Grouped(s))
  {
    if |s| > 8 {
      var n := |s| - 8;
      CommasAre(s[..n]);
      AppendGroup(Grouped(s[..n]), s[n..]);
    } else {
      assert forall i :: 0 <= i < |s| ==> IsHex(s[i]);
    }
  }

  lemma {:induction false} AppendGroup(head: string, last: string)
    requires CommasOk(head) && AllHex(last) && |last| == 8
    ensures CommasOk(head + "," + last)
  {
    var ret := head + "," + last;
    forall i | 0 <= i < |ret| ensures ret[i] == ',' <==> (|ret| - i) % 9 == 0 {
      if i < |head| {
        assert ret[i] == head[i] && |ret| - i == |head| - i + 9;
      } else if i > |head| {
        assert ret[i] == last[i - |head| - 1] && IsHex(last[i - |head| - 1]);
      }
    }
  }

  /** A faithful, canonical rendering of a bitmap. */
  predicate Renders(ret: string, words: seq<nat>) {
    && AllHex(Digits(ret)) && ReadHex(Digits(ret)) == Value(words)
    && Digits(ret) != "" && (Digits(ret)[0] == '0' <==> ret == "0")
    && ret == Grouped(Digits(ret))
  }

  /**
   Dropping the commas and reading hexadecimal gives the bitmap; there is no leading zero except in
   "0"; commas split the digits into groups of 8 from the right.
   */
  method CpuMaskStr(list: CpuList) returns (ret: string)
    requires list.Valid()
    ensures Renders(ret, list.words[..list.size])
    ensures CommasOk(ret)
  {
    var s := HexOf(list.words[..list.size]);
    ret := AddCommas(s);
    CommasAre(s);
    if s == "" {
      ret := "0";
      ZeroDigits();
    } else {
      GroupedZero(s);
    }
  }

  lemma {:induction false} GroupedZero(s: string)
    requires s != "" && s[0] != '0'
    ensures Grouped(s) != "0"
  {
    GroupedFirst(s);
  }

  lemma {:induction false} GroupedFirst(s: string)
    requires s != ""
    ensures Grouped(s) != "" && Grouped(s)[0] == s[0]
  {
    if |s| > 8 { GroupedFirst(s[..|s| - 8]); }
  }

  /** Equal strings mean equal sets. */
  lemma {:induction false} EqualStringsEqualSets(ret: string, a: seq<nat>, b: seq<nat>)
    requires WordsOk(a) && WordsOk(b) && |a| == |b| && Renders(ret, a) && Renders(ret, b)
    ensures a == b && forall id: nat :: Has(a, id) <==> Has(b, id)
  {
    ValueInjective(a, b);
  }

  lemma {:induction false} ReadHexPositive(s: string)
    requires AllHex(s) && s != "" && s[0] != '0'
    ensures ReadHex(s) > 0
  {
    if |s| > 1 {
      ReadHexPositive(s[..|s| - 1]);
    } else {
      assert s[..0] == "";
    }
  }

  lemma {:induction false} HexValueInjective(c: char, d: char)
    requires IsHex(c) && IsHex(d) && HexValue(c) == HexValue(d)
    ensures c == d
  {
  }

  /** A number has one hexadecimal spelling without leading zeros. */
  lemma {:induction false} SpellingIsUnique(s: string, t: string)
    requires AllHex(s) && AllHex(t) && ReadHex(s) == ReadHex(t)
    requires (s != "" ==> s[0] != '0') && (t != "" ==> t[0] != '0')
    ensures s == t
    decreases |s|
  {
    if s == "" || t == "" {
      if s != "" { ReadHexPositive(s); }
      if t != "" { ReadHexPositive(t); }
    } else {
      var s0, t0 := s[..|s| - 1], t[..|t| - 1];
      var c, d := s[|s| - 1], t[|t| - 1];
      LastDigit(ReadHex(s0), HexValue(c), ReadHex(t0), HexValue(d));
      HexValueInjective(c, d);
      SpellingIsUnique(s0, t0);
      assert s == s0 + [c] && t == t0 + [d];
    }
  }

  lemma {:induction false} LastDigit(x: nat, c: nat, y: nat, d: nat)
    requires c < 16 && d < 16 && 16 * x + c == 16 * y + d
    ensures x == y && c == d
  {
  }

  /** A bitmap has one rendering only. */
  lemma {:induction false} RenderingIsUnique(a: string, b: string, words: seq<nat>)
    requires Renders(a, words) && Renders(b, words)
    ensures a == b
  {
    var s, t := Digits(a), Digits(b);
    if s[0] == '0' || t[0] == '0' {
      assert Digits("0") == "0" && ReadHex("0") == 0 by { ZeroDigits(); }
      if s[0] != '0' { ReadHexPositive(s); }
      if t[0] != '0' { ReadHexPositive(t); }
    } else {
      SpellingIsUnique(s, t);
    }
  }

  lemma {:induction false} ZeroDigits()
    ensures Digits("0") == "0" && ReadHex("0") == 0
  {
    var zero := "0";
    assert zero[..0] == "" && zero[0] == '0';
    assert Digits(zero) == Digits("") + ['0'];
  }
}
