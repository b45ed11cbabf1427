/** CpuList: a set of CPUs as an array of 64-bit words. */
module CpuLists {
  /*
   Every operation agrees with the set, and the ways to enumerate it agree with its members in ascending
   order.
   */

  import opened Common
  import opened CpuBits

  const MAX_CPUS := 512
  const CAPACITY := MAX_CPUS / WORD_BITS

  /** The CPU id is in the set. */
  predicate Has(words: seq<nat>, id: nat) { id / WORD_BITS < |words| && Bit(words[id / WORD_BITS], id % WORD_BITS) }

  /** The members from word k on, in ascending order. */
  function Members(words: seq<nat>, k: nat): seq<nat>
    requires k <= |words|
    decreases |words| - k
  {
    if k == |words| then [] else Elems(words[k], WORD_BITS * k) + Members(words, k + 1)
  }

  predicate WordsOk(words: seq<nat>) { forall k :: 0 <= k < |words| ==> words[k] < Pow2(WORD_BITS) }

  lemma {:induction false} InWord(words: seq<nat>, k: nat, x: nat)
    requires WordsOk(words) && k < |words|
    ensures x in Elems(words[k], WORD_BITS * k) <==> Has(words, x) && x / WORD_BITS == k
  {
    ElemsAre(words[k], WORD_BITS * k);
    if x >= WORD_BITS * k && Bit(words[k], x - WORD_BITS * k) {
      BitBelow(words[k], WORD_BITS, x - WORD_BITS * k);
    }
  }

  /** Members lists the set, each member once, in ascending order. */
  lemma {:induction false} MembersAre(words: seq<nat>, k: nat)
    requires WordsOk(words) && k <= |words|
    ensures forall x: nat :: x in Members(words, k) <==> Has(words, x) && x / WORD_BITS >= k
    ensures forall i, j :: 0 <= i < j < |Members(words, k)| ==> Members(words, k)[i] < Members(words, k)[j]
    decreases |words| - k
  {
    if k < |words| {
      MembersAre(words, k + 1);
      ElemsAre(words[k], WORD_BITS * k);
      var first, rest := Elems(words[k], WORD_BITS * k), Members(words, k + 1);
      forall x: nat ensures x in Members(words, k) <==> Has(words, x) && x / WORD_BITS >= k { InWord(words, k, x); }
      forall i, j | 0 <= i < |first| && 0 <= j < |rest| ensures first[i] < rest[j] {
        InWord(words, k, first[i]);
        assert first[i] in first && rest[j] in rest;
      }
    }
  }

  /** Two lists of words with the same members are the same list. */
  lemma {:induction false} SameMembers(a: seq<nat>, b: seq<nat>)
    requires WordsOk(a) && WordsOk(b) && |a| == |b|
    requires forall id: nat :: Has(a, id) <==> Has(b, id)
    ensures a == b
  {
    forall k | 0 <= k < |a| ensures a[k] == b[k] {
      forall i: nat ensures Bit(a[k], i) == Bit(b[k], i) {
        if Bit(a[k], i) { BitBelow(a[k], WORD_BITS, i); }
        if Bit(b[k], i) { BitBelow(b[k], WORD_BITS, i); }
        if i < WORD_BITS { assert Has(a, WORD_BITS * k + i) <==> Has(b, WORD_BITS * k + i); }
      }
      SameBits(a[k], b[k]);
    }
  }

  class CpuList {
    const numCpus: nat
    const size: nat
    const words: array<nat>

    ghost predicate Shaped()
      reads this, words
    {
      && 0 < numCpus <= MAX_CPUS && size == (numCpus + WORD_BITS - 1) / WORD_BITS
      && words.Length == CAPACITY && WordsOk(words[..])
    }

    /** All members are CPUs that exist, so only the first `size` words are in use. */
    ghost predicate Valid()
      reads this, words
    {
      Shaped() && forall id: nat :: Has(words[..], id) ==> id < numCpus
    }

    ghost predicate Contains(id: nat)
      reads this, words
    {
      Has(words[..], id)
    }

    /** The members in ascending order. */
    ghost function Sorted(): seq<nat>
      reads this, words
      requires size <= words.Length
    {
      Members(words[..size], 0)
    }

    constructor (numCpus: nat)
      requires 0 < numCpus <= MAX_CPUS
      ensures Valid() && fresh(words) && this.numCpus == numCpus
      ensures forall id: nat :: !Contains(id)
    {
      this.numCpus := numCpus;
      size := (numCpus + WORD_BITS - 1) / WORD_BITS;
      words := new nat[CAPACITY](_ => 0);
      new;
      forall id: nat ensures !Has(words[..], id) { ZeroHasNoBits(id % WORD_BITS); }
    }

    method Set(id: nat)
      requires Shaped() && id < MAX_CPUS
      modifies words
      ensures Shaped() && forall x: nat :: Contains(x) <==> old(Contains(x)) || x == id
      ensures old(Valid()) && id < numCpus ==> Valid()
    {
      ghost var was := words[..];
      var k := id / WORD_BITS;
      words[k] := Or(words[k], Pow2(id % WORD_BITS));
      SetWord(was, words[..], id);
    }

    method Clear(id: nat)
      requires Shaped() && id < MAX_CPUS
      modifies words
      ensures Shaped() && forall x: nat :: Contains(x) <==> old(Contains(x)) && x != id
      ensures old(Valid()) ==> Valid()
    {
      ghost var was := words[..];
      var k := id / WORD_BITS;
      words[k] := AndNot(words[k], Pow2(id % WORD_BITS));
      ClearWord(was, words[..], id);
    }

    method IsSet(id: nat) returns (b: bool)
      requires Shaped() && id < MAX_CPUS
      ensures b <==> Contains(id)
    {
      var bit := And(words[id / WORD_BITS], Pow2(id % WORD_BITS));
      b := bit != 0;
      TestBit(words[id / WORD_BITS], id % WORD_BITS);
    }
  
    method Union(src: CpuList)
      requires Valid() && src.Valid() && src.numCpus == numCpus
      modifies words
      ensures Valid() && forall x: nat :: Contains(x) <==> old(Contains(x)) || old(src.Contains(x))
    {
      ghost var a, b := words[..], src.words[..];
      for i := 0 to size
        invariant forall j :: 0 <= j < i ==> words[j] == Or(a[j], b[j])
        invariant forall j :: i <= j < CAPACITY ==> words[j] == a[j] && src.words[j] == b[j]
      {
        words[i] := Or(words[i], src.words[i]);
      }
      OrWords(a, b, words[..], size);
    }

    method Intersection(src: CpuList)
      requires Valid() && src.Valid() && src.numCpus == numCpus
      modifies words
      ensures Valid() && forall x: nat :: Contains(x) <==> old(Contains(x)) && old(src.Contains(x))
    {
      ghost var a, b := words[..], src.words[..];
      for i := 0 to size
        invariant forall j :: 0 <= j < i ==> words[j] == And(a[j], b[j])
        invariant forall j :: i <= j < CAPACITY ==> words[j] == a[j] && src.words[j] == b[j]
      {
        words[i] := And(words[i], src.words[i]);
      }
      AndWords(a, b, words[..], size);
    }

    method Subtract(src: CpuList)
      requires Valid() && src.Valid() && src.numCpus == numCpus
      modifies words
      ensures Valid() && forall x: nat :: Contains(x) <==> old(Contains(x)) && !old(src.Contains(x))
    {
      ghost var a, b := words[..], src.words[..];
      for i := 0 to size
        invariant forall j :: 0 <= j < i ==> words[j] == AndNot(a[j], b[j])
        invariant forall j :: i <= j < CAPACITY ==> words[j] == a[j] && src.words[j] == b[j]
      {
        words[i] := AndNot(words[i], src.words[i]);
      }
      AndNotWords(a, b, words[..], size);
    }

    /** The members in order are the set. */
    lemma SortedIsSet()
      requires Valid()
      ensures forall id: nat :: id in Sorted() <==> Contains(id)
      ensures forall i, j :: 0 <= i < j < |Sorted()| ==> Sorted()[i] < Sorted()[j]
      ensures forall i :: 0 <= i < |Sorted()| ==> Sorted()[i] < numCpus
    {
      MembersAre(words[..size], 0);
      forall id: nat ensures Has(words[..size], id) <==> Contains(id) { }
      forall i | 0 <= i < |Sorted()| ensures Sorted()[i] < numCpus { assert Sorted()[i] in Sorted(); }
    }

    method Size() returns (n: nat)
      requires Valid()
      ensures n == |Sorted()|
    {
      n := 0;
      for i := 0 to size
        invariant n + |Members(words[..size], i)| == |Sorted()|
      {
        ElemsAre(words[i], WORD_BITS * i);
        n := n + Popcount(words[i]);
      }
    }

    method Empty() returns (b: bool)
      requires Valid()
      ensures b <==> Sorted() == []
    {
      for i := 0 to size
        invariant Members(words[..size], i) == Sorted()
      {
        if words[i] != 0 {
          ClearLowest(words[i], WORD_BITS * i);
          return false;
        }
      }
      return true;
    }

    /** The n-th smallest member, or none if there are not that many. */
    method GetNthCpu(n: nat) returns (cpu: Option<nat>)
      requires Valid()
      ensures cpu == if n < |Sorted()| then Some(Sorted()[n]) else None
    {
      var left: nat := n;
      for i := 0 to size
        invariant left <= n && n - left <= |Sorted()| && Sorted()[n - left..] == Members(words[..size], i)
      {
        ElemsAre(words[i], WORD_BITS * i);
        var count := Popcount(words[i]);
        if count <= left {
          left := left - count;
        } else {
          var word: nat := SkipBits(words[i], left, WORD_BITS * i);
          ClearLowest(word, WORD_BITS * i);
          return Some(i * WORD_BITS + Ctz(word));
        }
      }
      return None;
    }

    /** FindNextSetBit: the first member from id on, or num_cpus if there is none. */
    method FindNextSetBit(id: nat) returns (next: nat)
      requires Valid() && id <= numCpus
      ensures id <= next <= numCpus && (next < numCpus ==> Has(words[..], next))
      ensures NoneIn(words[..], id, next)
    {
      var idx := id / WORD_BITS;
      if idx >= size {
        return numCpus;
      }
      var word: nat := And(words[idx], HighMask(id % WORD_BITS));
      MaskWord(words[idx], id % WORD_BITS);
      assert From(words[..], id, idx, word);
      while idx < size
        invariant id / WORD_BITS <= idx <= size
        invariant NoneIn(words[..], id, WORD_BITS * idx)
        invariant idx < size ==> From(words[..], id, idx, word)
        decreases size - idx
      {
        if word != 0 {
          FoundFirst(words[..], id, idx, word);
          next := idx * WORD_BITS + Ctz(word);
          return;
        }
        NoneInWord(words[..], id, idx);
        idx := idx + 1;
        if idx < size {
          word := words[idx];
          assert From(words[..], id, idx, word);
        }
      }
      next := numCpus;
    }

    /** A range-based for loop: from begin() to end() it visits the members in order, each once. */
    method Iterate() returns (visited: seq<nat>)
      requires Valid()
      ensures visited == Sorted()
    {
      ghost var sorted := Sorted();
      SortedIsSet();
      visited := [];
      var id := FindNextSetBit(0);
      var end := FindNextSetBit(numCpus);
      AllFrom(sorted, words[..], 0, 0, id);
      while id != end
        invariant id <= numCpus == end && (id < numCpus ==> Has(words[..], id))
        invariant Visited(sorted, visited, id)
        decreases numCpus - id
      {
        var next := FindNextSetBit(id + 1);
        VisitNext(sorted, words[..], visited, id, next);
        visited := visited + [id];
        id := next;
      }
      AllVisited(sorted, |visited|, numCpus);
    }

    method ToIntVector() returns (cpus: seq<nat>)
      requires Valid()
      ensures cpus == Sorted()
    {
      cpus := [];
      var n := Size();
      for i := 0 to n
        invariant cpus == Sorted()[..i]
      {
        var cpu := GetNthCpu(i);
        cpus := cpus + [cpu.value];
      }
    }
  }

  /** Topology::ToCpuList. */
  method ToCpuList(numCpus: nat, cpus: seq<nat>) returns (list: CpuList)
    requires 0 < numCpus <= MAX_CPUS && forall i :: 0 <= i < |cpus| ==> cpus[i] < MAX_CPUS
    ensures fresh(list) && fresh(list.words) && list.Shaped() && list.numCpus == numCpus
    ensures forall id: nat :: list.Contains(id) <==> id in cpus
  {
    list := new CpuList(numCpus);
    for i := 0 to |cpus|
      invariant fresh(list) && fresh(list.words) && list.Shaped() && list.numCpus == numCpus
      invariant forall id: nat :: list.Contains(id) <==> id in cpus[..i]
    {
      list.Set(cpus[i]);
    }
    assert cpus[..|cpus|] == cpus;
  }

  /** ToCpuList undoes ToIntVector: the words are the same again. */
  method RoundTrip(list: CpuList) returns (copy: CpuList)
    requires list.Valid()
    ensures copy.Valid() && copy.words[..] == list.words[..]
  {
    var cpus := list.ToIntVector();
    list.SortedIsSet();
    copy := ToCpuList(list.numCpus, cpus);
    assert forall id: nat :: copy.Contains(id) <==> id in cpus;
    assert forall id: nat :: list.Contains(id) <==> id in cpus by { list.SortedIsSet(); }
    forall id: nat ensures Has(copy.words[..], id) <==> Has(list.words[..], id) {
      assert copy.Contains(id) <==> list.Contains(id);
    }
    SameMembers(copy.words[..], list.words[..]);
  }

  /** GetNthCpu drops the n lowest set bits of the word. */
  method SkipBits(w: nat, n: nat, ghost base: nat) returns (word: nat)
    requires n < |Elems(w, base)|
    ensures word > 0 && Elems(word, base) == Elems(w, base)[n..]
  {
    word := w;
    for j := 0 to n
      invariant Elems(word, base) == Elems(w, base)[j..] && word > 0
    {
      ClearLowest(word, base);
      word := And(word, word - 1);
    }
  }

  lemma {:induction false} MaskWord(w: nat, off: nat)
    requires w < Pow2(WORD_BITS) && off < WORD_BITS
    ensures And(w, HighMask(off)) < Pow2(WORD_BITS)
    ensures forall i: nat :: Bit(And(w, HighMask(off)), i) <==> Bit(w, i) && off <= i
  {
    OpsFit(w, HighMask(off), WORD_BITS);
    forall i: nat ensures Bit(And(w, HighMask(off)), i) <==> Bit(w, i) && off <= i {
      AndBit(w, HighMask(off), i);
      HighMaskBit(off, i);
      if Bit(w, i) { BitBelow(w, WORD_BITS, i); }
    }
  }

  /** `word` is what word idx has from bit id on. */
  ghost predicate From(words: seq<nat>, id: nat, idx: nat, word: nat) {
    && idx < |words| && word < Pow2(WORD_BITS)
    && forall i: nat :: Bit(word, i) <==> Bit(words[idx], i) && id <= WORD_BITS * idx + i
  }

  ghost predicate NoneIn(words: seq<nat>, from: nat, to: nat) {
    forall x: nat :: from <= x < to ==> !Has(words, x)
  }

  lemma {:induction false} FoundFirst(words: seq<nat>, id: nat, idx: nat, word: nat)
    requires From(words, id, idx, word) && word > 0 && NoneIn(words, id, WORD_BITS * idx)
    ensures var next := idx * WORD_BITS + Ctz(word);
      id <= next && Has(words, next) && NoneIn(words, id, next)
  {
    CtzIsLeast(word);
    BitBelow(word, WORD_BITS, Ctz(word));
    Position(idx, Ctz(word));
    forall x: nat | WORD_BITS * idx <= x < WORD_BITS * idx + Ctz(word) && id <= x ensures !Has(words, x) {
      Position(idx, x - WORD_BITS * idx);
      assert !Bit(word, x - WORD_BITS * idx);
    }
  }

  lemma {:induction false} NoneInWord(words: seq<nat>, id: nat, idx: nat)
    requires From(words, id, idx, 0) && NoneIn(words, id, WORD_BITS * idx)
    ensures NoneIn(words, id, WORD_BITS * (idx + 1))
  {
    forall x: nat | id <= x < WORD_BITS * (idx + 1) ensures !Has(words, x) {
      if x >= WORD_BITS * idx {
        Position(idx, x - WORD_BITS * idx);
        ZeroHasNoBits(x - WORD_BITS * idx);
        assert !Bit(0, x - WORD_BITS * idx);
      }
    }
  }

  /** A loop that is at id has visited the members below. */
  predicate Visited(sorted: seq<nat>, visited: seq<nat>, id: nat) {
    && |visited| <= |sorted| && visited == sorted[..|visited|]
    && (forall k :: 0 <= k < |visited| ==> visited[k] < id)
    && (forall k :: |visited| <= k < |sorted| ==> sorted[k] >= id)
  }

  lemma {:induction false} VisitNext(sorted: seq<nat>, words: seq<nat>, visited: seq<nat>, id: nat, next: nat)
    requires Visited(sorted, visited, id) && Has(words, id) && id < next
    requires forall x: nat :: x in sorted <==> Has(words, x)
    requires forall i, j :: 0 <= i < j < |sorted| ==> sorted[i] < sorted[j]
    requires NoneIn(words, id + 1, next)
    ensures Visited(sorted, visited + [id], next)
  {
    NextIsNth(sorted, |visited|, id);
    AllFrom(sorted, words, |visited| + 1, id + 1, next);
  }

  lemma {:induction false} AllVisited(sorted: seq<nat>, k: nat, n: nat)
    requires k <= |sorted| && forall i :: k <= i < |sorted| ==> sorted[i] >= n
    requires forall x: nat :: x in sorted ==> x < n
    ensures k == |sorted|
  {
    var top := if sorted != [] then sorted[|sorted| - 1] else 0;
    assert sorted != [] ==> top in sorted;
  }

  lemma {:induction false} Position(idx: nat, i: nat)
    requires i < WORD_BITS
    ensures (WORD_BITS * idx + i) / WORD_BITS == idx && (WORD_BITS * idx + i) % WORD_BITS == i
  {
  }

  lemma {:induction false} AllFrom(sorted: seq<nat>, words: seq<nat>, k: nat, id: nat, next: nat)
    requires forall x: nat :: x in sorted <==> Has(words, x)
    requires k <= |sorted| && forall i :: k <= i < |sorted| ==> sorted[i] >= id
    requires NoneIn(words, id, next)
    ensures forall i :: k <= i < |sorted| ==> sorted[i] >= next
  {
    forall i | k <= i < |sorted| ensures sorted[i] >= next { assert sorted[i] in sorted; }
  }

  lemma {:induction false} NextIsNth(sorted: seq<nat>, k: nat, id: nat)
    requires k <= |sorted| && id in sorted
    requires forall i :: 0 <= i < k ==> sorted[i] < id
    requires forall i :: k <= i < |sorted| ==> sorted[i] >= id
    requires forall i, j :: 0 <= i < j < |sorted| ==> sorted[i] < sorted[j]
    ensures k < |sorted| && sorted[k] == id
    ensures forall i :: k < i < |sorted| ==> sorted[i] > id
  {
    var i :| 0 <= i < |sorted| && sorted[i] == id;
  }

  lemma {:induction false} OrWords(a: seq<nat>, b: seq<nat>, c: seq<nat>, n: nat)
    requires WordsOk(a) && WordsOk(b) && |a| == |b| == |c| && n <= |a|
    requires forall j :: 0 <= j < n ==> c[j] == Or(a[j], b[j])
    requires forall j :: n <= j < |a| ==> c[j] == a[j]
    requires forall id: nat :: Has(b, id) ==> id / WORD_BITS < n
    ensures WordsOk(c) && forall x: nat :: Has(c, x) <==> Has(a, x) || Has(b, x)
  {
    forall j | 0 <= j < |c| ensures c[j] < Pow2(WORD_BITS) { OpsFit(a[j], b[j], WORD_BITS); }
    forall x: nat ensures Has(c, x) <==> Has(a, x) || Has(b, x) {
      if x / WORD_BITS < n { OrBit(a[x / WORD_BITS], b[x / WORD_BITS], x % WORD_BITS); }
    }
  }

  lemma {:induction false} AndWords(a: seq<nat>, b: seq<nat>, c: seq<nat>, n: nat)
    requires WordsOk(a) && WordsOk(b) && |a| == |b| == |c| && n <= |a|
    requires forall j :: 0 <= j < n ==> c[j] == And(a[j], b[j])
    requires forall j :: n <= j < |a| ==> c[j] == a[j]
    requires forall id: nat :: Has(a, id) ==> id / WORD_BITS < n
    ensures WordsOk(c) && forall x: nat :: Has(c, x) <==> Has(a, x) && Has(b, x)
  {
    forall j | 0 <= j < |c| ensures c[j] < Pow2(WORD_BITS) { OpsFit(a[j], b[j], WORD_BITS); }
    forall x: nat ensures Has(c, x) <==> Has(a, x) && Has(b, x) {
      if x / WORD_BITS < n { AndBit(a[x / WORD_BITS], b[x / WORD_BITS], x % WORD_BITS); }
    }
  }

  lemma {:induction false} AndNotWords(a: seq<nat>, b: seq<nat>, c: seq<nat>, n: nat)
    requires WordsOk(a) && WordsOk(b) && |a| == |b| == |c| && n <= |a|
    requires forall j :: 0 <= j < n ==> c[j] == AndNot(a[j], b[j])
    requires forall j :: n <= j < |a| ==> c[j] == a[j]
    requires forall id: nat :: Has(a, id) ==> id / WORD_BITS < n
    ensures WordsOk(c) && forall x: nat :: Has(c, x) <==> Has(a, x) && !Has(b, x)
  {
    forall j | 0 <= j < |c| ensures c[j] < Pow2(WORD_BITS) { OpsFit(a[j], b[j], WORD_BITS); }
    forall x: nat ensures Has(c, x) <==> Has(a, x) && !Has(b, x) {
      if x / WORD_BITS < n { AndNotBit(a[x / WORD_BITS], b[x / WORD_BITS], x % WORD_BITS); }
    }
  }

  lemma {:induction false} SingleBit(id: nat)
    ensures Pow2(id % WORD_BITS) < Pow2(WORD_BITS)
  {
    Pow2Monotone(id % WORD_BITS, WORD_BITS - 1);
  }

  lemma {:induction false} SetWord(was: seq<nat>, now: seq<nat>, id: nat)
    requires WordsOk(was) && id / WORD_BITS < |was|
    requires now == was[id / WORD_BITS := Or(was[id / WORD_BITS], Pow2(id % WORD_BITS))]
    ensures WordsOk(now) && forall x: nat :: Has(now, x) <==> Has(was, x) || x == id
  {
    SingleBit(id);
    OpsFit(was[id / WORD_BITS], Pow2(id % WORD_BITS), WORD_BITS);
    forall x: nat ensures Has(now, x) <==> Has(was, x) || x == id {
      OrBit(was[id / WORD_BITS], Pow2(id % WORD_BITS), x % WORD_BITS);
      Pow2Bit(id % WORD_BITS, x % WORD_BITS);
    }
  }

  lemma {:induction false} ClearWord(was: seq<nat>, now: seq<nat>, id: nat)
    requires WordsOk(was) && id / WORD_BITS < |was|
    requires now == was[id / WORD_BITS := AndNot(was[id / WORD_BITS], Pow2(id % WORD_BITS))]
    ensures WordsOk(now) && forall x: nat :: Has(now, x) <==> Has(was, x) && x != id
  {
    SingleBit(id);
    OpsFit(was[id / WORD_BITS], Pow2(id % WORD_BITS), WORD_BITS);
    forall x: nat ensures Has(now, x) <==> Has(was, x) && x != id {
      AndNotBit(was[id / WORD_BITS], Pow2(id % WORD_BITS), x % WORD_BITS);
      Pow2Bit(id % WORD_BITS, x % WORD_BITS);
    }
  }

  lemma {:induction false} TestBit(w: nat, i: nat)
    ensures And(w, Pow2(i)) != 0 <==> Bit(w, i)
  {
    AndBit(w, Pow2(i), i);
    Pow2Bit(i, i);
    if !Bit(w, i) {
      forall j: nat ensures Bit(And(w, Pow2(i)), j) == Bit(0, j) {
        AndBit(w, Pow2(i), j);
        Pow2Bit(i, j);
        ZeroHasNoBits(j);
      }
      SameBits(And(w, Pow2(i)), 0);
    } else {
      ZeroHasNoBits(i);
    }
  }
}
