/** arr_list: doubly linked lists threaded through one array. */
module ArrList {
  /*
   Links are ids, an id being an index plus one and 0 standing for no element.  Each operation refines one
   on sequences of ids, and leaves the other lists in the array alone.
   */

  import opened Common

  datatype Entry = Entry(next: nat, prev: nat)

  class Head {
    var first: nat
    var last: nat

    constructor ()
      ensures first == 0 && last == 0
    {
      first, last := 0, 0;
    }
  }

  type Store = seq<Entry>

  //---------------------------------------------------------------------------
  // What a list stands for
  //---------------------------------------------------------------------------

  predicate ValidIds(n: nat, s: seq<nat>) {
    && (forall i :: 0 <= i < |s| ==> 0 < s[i] <= n)
    && (forall i, j :: 0 <= i < j < |s| ==> s[i] != s[j])
  }

  /** The id at position i, and 0 beyond either end. */
  function IdAt(s: seq<nat>, i: int): nat { if 0 <= i < |s| then s[i] else 0 }

  /** The entry at position i of the list links to its neighbours. */
  predicate LinkedAt(e: Store, s: seq<nat>, i: nat) {
    i < |s| && 0 < s[i] <= |e| && e[s[i] - 1] == Entry(IdAt(s, i + 1), IdAt(s, i - 1))
  }

  predicate Linked(e: Store, s: seq<nat>) {
    forall i :: 0 <= i < |s| ==> LinkedAt(e, s, i)
  }

  /** The list with this head holds exactly the elements s, in order. */
  predicate IsList(e: Store, first: nat, last: nat, s: seq<nat>) {
    ValidIds(|e|, s) && Linked(e, s) && first == IdAt(s, 0) && last == IdAt(s, |s| - 1)
  }

  predicate Disjoint(s: seq<nat>, t: seq<nat>) { forall i, j :: 0 <= i < |s| && 0 <= j < |t| ==> s[i] != t[j] }

  /** No entry changed but those of the list s and of the element id (0 for none). */
  predicate Unchanged(e: Store, e': Store, s: seq<nat>, id: nat) {
    |e'| == |e| && forall k :: 0 <= k < |e| && k + 1 != id && k + 1 !in s ==> e'[k] == e[k]
  }

  /** A list stands for one sequence only. */
  lemma {:induction false} ListIsUnique(e: Store, first: nat, last: nat, s: seq<nat>, t: seq<nat>)
    requires IsList(e, first, last, s) && IsList(e, first, last, t)
    ensures s == t
  {
    SamePrefix(e, first, last, s, t, |s|);
    SamePrefix(e, first, last, s, t, |t|);
    assert IdAt(t, |s|) == IdAt(s, |s|) && IdAt(s, |t|) == IdAt(t, |t|);
    forall k | 0 <= k < |s| && k < |t| ensures s[k] == t[k] {
      assert IdAt(s, k) == IdAt(t, k);
    }
  }

  lemma {:induction false} SamePrefix(e: Store, first: nat, last: nat, s: seq<nat>, t: seq<nat>, i: nat)
    requires IsList(e, first, last, s) && IsList(e, first, last, t)
    ensures forall k :: 0 <= k <= i ==> IdAt(s, k) == IdAt(t, k)
  {
    if i > 0 {
      SamePrefix(e, first, last, s, t, i - 1);
      assert IdAt(s, i - 1) == IdAt(t, i - 1);
      if i - 1 < |s| {
        assert LinkedAt(e, s, i - 1) && LinkedAt(e, t, i - 1);
      }
    }
  }

  /** next and prev undo each other, the ends have no neighbour, and no walk comes back to where it was. */
  lemma {:induction false} LinksAreInverse(e: Store, first: nat, last: nat, s: seq<nat>, i: nat)
    requires IsList(e, first, last, s) && i < |s|
    ensures var x := e[s[i] - 1];
      && (x.next != 0 ==> x.next <= |e| && e[x.next - 1].prev == s[i])
      && (x.prev != 0 ==> x.prev <= |e| && e[x.prev - 1].next == s[i])
      && (x.next == 0 <==> s[i] == last) && (x.prev == 0 <==> s[i] == first)
    ensures forall j :: i < j < |s| ==> s[j] != s[i]
  {
    assert LinkedAt(e, s, i);
    if i + 1 < |s| { assert LinkedAt(e, s, i + 1); }
    if i > 0 { assert LinkedAt(e, s, i - 1); }
    assert s[i] == last ==> i == |s| - 1;
    assert s[i] == first ==> i == 0;
  }

  /** A list none of whose elements was touched is still the same list. */
  lemma {:induction false} OtherListKept(e: Store, e': Store, s: seq<nat>, id: nat, first: nat, last: nat, t: seq<nat>)
    requires IsList(e, first, last, t) && Unchanged(e, e', s, id) && Disjoint(s, t) && id !in t
    ensures IsList(e', first, last, t)
  {
    forall i | 0 <= i < |t| ensures LinkedAt(e', t, i) {
      assert LinkedAt(e, t, i);
      assert t[i] - 1 + 1 !in s;
    }
  }

  datatype Ends = Ends(first: nat, last: nat)

  /** Several lists in one array. */
  ghost predicate Lists(e: Store, heads: seq<Ends>, lists: seq<seq<nat>>) {
    && |heads| == |lists|
    && (forall i :: 0 <= i < |lists| ==> IsList(e, heads[i].first, heads[i].last, lists[i]))
    && (forall i, j :: 0 <= i < j < |lists| ==> Disjoint(lists[i], lists[j]))
  }

  /** An operation on one list, which may bring in the free element id, keeps all lists lists. */
  lemma {:induction false} AllListsKept(
      e: Store, e': Store, heads: seq<Ends>, lists: seq<seq<nat>>, k: nat, h: Ends, s: seq<nat>, id: nat)
    requires Lists(e, heads, lists) && k < |lists| && Unchanged(e, e', lists[k], id)
    requires IsList(e', h.first, h.last, s) && forall i :: 0 <= i < |s| ==> s[i] in lists[k] || s[i] == id
    requires forall j :: 0 <= j < |lists| && j != k ==> id !in lists[j]
    ensures Lists(e', heads[k := h], lists[k := s])
  {
    forall j | 0 <= j < |lists| && j != k
      ensures IsList(e', heads[j].first, heads[j].last, lists[j]) && Disjoint(s, lists[j]) && Disjoint(lists[j], s)
    {
      assert Disjoint(lists[k], lists[j]) by {
        if j < k { assert Disjoint(lists[j], lists[k]); }
      }
      OtherListKept(e, e', lists[k], id, heads[j].first, heads[j].last, lists[j]);
      forall x, y | 0 <= x < |s| && 0 <= y < |lists[j]| ensures s[x] != lists[j][y] {
        if s[x] != id {
          var z :| 0 <= z < |lists[k]| && lists[k][z] == s[x];
        }
      }
    }
  }

  //---------------------------------------------------------------------------
  // Insertion, removal and concatenation of sequences
  //---------------------------------------------------------------------------

  function Inserted(s: seq<nat>, k: nat, id: nat): seq<nat>
    requires k <= |s|
  {
    s[..k] + [id] + s[k..]
  }

  function Removed(s: seq<nat>, k: nat): seq<nat>
    requires k < |s|
  {
    s[..k] + s[k + 1..]
  }

  /** No other entries changed than those of x, y and z. */
  predicate Only(e: Store, e': Store, x: nat, y: nat, z: nat) {
    |e'| == |e| && forall k :: 0 <= k < |e| && k + 1 != x && k + 1 != y && k + 1 != z ==> e'[k] == e[k]
  }

  /** The stores before and after id is linked in at position k. */
  predicate LinkedIn(e: Store, e': Store, s: seq<nat>, k: nat, id: nat)
    requires ValidIds(|e|, s) && k <= |s| && 0 < id <= |e|
  {
    && Only(e, e', id, IdAt(s, k), IdAt(s, k - 1)) && e'[id - 1] == Entry(IdAt(s, k), IdAt(s, k - 1))
    && (k > 0 ==> e'[s[k - 1] - 1] == e[s[k - 1] - 1].(next := id))
    && (k < |s| ==> e'[s[k] - 1] == e[s[k] - 1].(prev := id))
  }

  lemma {:induction false} InsertOk(e: Store, e': Store, first: nat, last: nat, s: seq<nat>, k: nat, id: nat)
    requires IsList(e, first, last, s) && k <= |s| && 0 < id <= |e| && id !in s && LinkedIn(e, e', s, k, id)
    ensures IsList(e', if k == 0 then id else first, if k == |s| then id else last, Inserted(s, k, id))
  {
    InsertedIds(|e|, s, k, id);
    var t := Inserted(s, k, id);
    forall i | 0 <= i < |t| ensures LinkedAt(e', t, i) {
      InsertedAt(e, e', s, k, id, i);
    }
  }

  lemma {:induction false} InsertedIds(n: nat, s: seq<nat>, k: nat, id: nat)
    requires ValidIds(n, s) && k <= |s| && 0 < id <= n && id !in s
    ensures ValidIds(n, Inserted(s, k, id))
  {
    var t := Inserted(s, k, id);
    forall i | 0 <= i < |t| ensures 0 < t[i] <= n {
      assert t[i] == if i < k then s[i] else if i == k then id else s[i - 1];
    }
    forall i, j | 0 <= i < j < |t| ensures t[i] != t[j] {
      assert t[i] == if i < k then s[i] else if i == k then id else s[i - 1];
      assert t[j] == if j < k then s[j] else if j == k then id else s[j - 1];
    }
  }

  lemma {:induction false} InsertedAt(e: Store, e': Store, s: seq<nat>, k: nat, id: nat, i: nat)
    requires ValidIds(|e|, s) && Linked(e, s) && k <= |s| && i <= |s| && 0 < id <= |e| && id !in s
    requires LinkedIn(e, e', s, k, id)
    ensures LinkedAt(e', Inserted(s, k, id), i)
  {
    var t := Inserted(s, k, id);
    assert IdAt(t, i + 1) == if i + 1 < k then IdAt(s, i + 1) else if i + 1 == k then id else IdAt(s, i);
    assert IdAt(t, i - 1) == if i - 1 < k then IdAt(s, i - 1) else if i - 1 == k then id else IdAt(s, i - 2);
    if i < k {
      assert t[i] == s[i] && LinkedAt(e, s, i);
    } else if i > k {
      assert t[i] == s[i - 1] && LinkedAt(e, s, i - 1);
    }
  }

  lemma {:induction false} OnlyInList(e: Store, e': Store, s: seq<nat>, id: nat, x: int, y: int)
    requires Only(e, e', id, IdAt(s, x), IdAt(s, y))
    ensures Unchanged(e, e', s, id) && (id in s ==> Unchanged(e, e', s, 0))
  {
    assert IdAt(s, x) != 0 ==> IdAt(s, x) in s;
    assert IdAt(s, y) != 0 ==> IdAt(s, y) in s;
  }

  /** The stores before and after the element at position k is unlinked; its own entry may be anything. */
  predicate Unlinked(e: Store, e': Store, s: seq<nat>, k: nat)
    requires ValidIds(|e|, s) && k < |s|
  {
    && Only(e, e', s[k], IdAt(s, k + 1), IdAt(s, k - 1))
    && (k > 0 ==> e'[s[k - 1] - 1] == e[s[k - 1] - 1].(next := IdAt(s, k + 1)))
    && (k + 1 < |s| ==> e'[s[k + 1] - 1] == e[s[k + 1] - 1].(prev := IdAt(s, k - 1)))
  }

  lemma {:induction false} RemoveOk(e: Store, e': Store, first: nat, last: nat, s: seq<nat>, k: nat)
    requires IsList(e, first, last, s) && k < |s| && Unlinked(e, e', s, k)
    ensures IsList(
      e', if k == 0 then IdAt(s, 1) else first, if k == |s| - 1 then IdAt(s, k - 1) else last, Removed(s, k))
  {
    RemovedIds(|e|, s, k);
    var t := Removed(s, k);
    forall i | 0 <= i < |t| ensures LinkedAt(e', t, i) {
      RemovedAt(e, e', s, k, i);
    }
  }

  lemma {:induction false} RemovedIds(n: nat, s: seq<nat>, k: nat)
    requires ValidIds(n, s) && k < |s|
    ensures ValidIds(n, Removed(s, k))
  {
    var t := Removed(s, k);
    forall i | 0 <= i < |t| ensures t[i] == s[if i < k then i else i + 1] { }
  }

  lemma {:induction false} RemovedAt(e: Store, e': Store, s: seq<nat>, k: nat, i: nat)
    requires ValidIds(|e|, s) && Linked(e, s) && k < |s| && i < |s| - 1 && Unlinked(e, e', s, k)
    ensures LinkedAt(e', Removed(s, k), i)
  {
    var t := Removed(s, k);
    assert IdAt(t, i + 1) == if i + 1 < k then IdAt(s, i + 1) else IdAt(s, i + 2);
    assert IdAt(t, i - 1) == if i - 1 < k then IdAt(s, i - 1) else IdAt(s, i);
    var j := if i < k then i else i + 1;
    assert t[i] == s[j] && LinkedAt(e, s, j) && s[j] != s[k];
    if j != k - 1 && j != k + 1 {
      assert k > 0 ==> s[j] != s[k - 1];
      assert k + 1 < |s| ==> s[j] != s[k + 1];
      assert s[j] - 1 + 1 == s[j];
      assert e'[s[j] - 1] == e[s[j] - 1];
    }
  }

  /** The stores before and after two lists are joined. */
  predicate Joined(e: Store, e': Store, s: seq<nat>, t: seq<nat>)
    requires ValidIds(|e|, s) && ValidIds(|e|, t)
  {
    && Only(e, e', IdAt(s, |s| - 1), IdAt(t, 0), 0)
    && (s != [] ==> e'[s[|s| - 1] - 1] == e[s[|s| - 1] - 1].(next := IdAt(t, 0)))
    && (t != [] ==> e'[t[0] - 1] == e[t[0] - 1].(prev := IdAt(s, |s| - 1)))
  }

  /** The ends of a concatenation, when `last` is that of the second list. */
  lemma {:induction false} JoinEnds(e: Store, s: seq<nat>, t: seq<nat>, last: nat)
    requires ValidIds(|e|, s + t) && Linked(e, s + t) && last == IdAt(t, |t| - 1)
    ensures IdAt(s + t, 0) == if s != [] then IdAt(s, 0) else IdAt(t, 0)
    ensures IsList(e, IdAt(s + t, 0), last, s + t) <==> t != [] || s == []
  {
    assert s != [] ==> (s + t)[|s| - 1] == s[|s| - 1] && (s + t)[0] == s[0];
    assert t != [] ==> (s + t)[|s + t| - 1] == t[|t| - 1];
  }

  lemma {:induction false} OnlyInJoin(e: Store, e': Store, s: seq<nat>, t: seq<nat>)
    requires Only(e, e', IdAt(s, |s| - 1), IdAt(t, 0), 0)
    ensures Unchanged(e, e', s + t, 0)
  {
    assert s != [] ==> (s + t)[|s| - 1] == s[|s| - 1];
    assert t != [] ==> (s + t)[|s|] == t[0];
  }

  lemma {:induction false} JoinFirst(e: Store, e': Store, s: seq<nat>, t: seq<nat>, i: nat)
    requires ValidIds(|e|, s) && ValidIds(|e|, t) && Disjoint(s, t) && Joined(e, e', s, t)
    requires i < |s| && LinkedAt(e, s, i)
    ensures LinkedAt(e', s + t, i)
  {
    assert (s + t)[i] == s[i];
    assert IdAt(s + t, i + 1) == if i + 1 < |s| then IdAt(s, i + 1) else IdAt(t, 0);
    assert IdAt(s + t, i - 1) == IdAt(s, i - 1);
  }

  lemma {:induction false} JoinSecond(e: Store, e': Store, s: seq<nat>, t: seq<nat>, i: nat)
    requires ValidIds(|e|, s) && ValidIds(|e|, t) && Disjoint(s, t) && Joined(e, e', s, t)
    requires i < |t| && LinkedAt(e, t, i)
    ensures LinkedAt(e', s + t, |s| + i)
  {
    var k := |s| + i;
    assert (s + t)[k] == t[i];
    assert IdAt(s + t, k + 1) == IdAt(t, i + 1);
    assert IdAt(s + t, k - 1) == if i > 0 then IdAt(t, i - 1) else IdAt(s, |s| - 1);
  }

  lemma {:induction false} JoinValid(n: nat, s: seq<nat>, t: seq<nat>)
    requires ValidIds(n, s) && ValidIds(n, t) && Disjoint(s, t)
    ensures ValidIds(n, s + t)
  {
    forall i | 0 <= i < |s + t| ensures 0 < (s + t)[i] <= n {
      assert (s + t)[i] == if i < |s| then s[i] else t[i - |s|];
    }
    forall i, j | 0 <= i < j < |s + t| ensures (s + t)[i] != (s + t)[j] {
      assert (s + t)[i] == if i < |s| then s[i] else t[i - |s|];
      assert (s + t)[j] == if j < |s| then s[j] else t[j - |s|];
    }
  }

  lemma {:induction false} JoinOk(e: Store, e': Store, s: seq<nat>, t: seq<nat>)
    requires ValidIds(|e|, s) && Linked(e, s) && ValidIds(|e|, t) && Linked(e, t)
    requires Disjoint(s, t) && Joined(e, e', s, t)
    ensures ValidIds(|e'|, s + t) && Linked(e', s + t)
  {
    JoinValid(|e|, s, t);
    forall i | 0 <= i < |s + t| ensures LinkedAt(e', s + t, i) {
      if i < |s| {
        assert LinkedAt(e, s, i);
        JoinFirst(e, e', s, t, i);
      } else {
        assert LinkedAt(e, t, i - |s|);
        JoinSecond(e, e', s, t, i - |s|);
      }
    }
  }

  //---------------------------------------------------------------------------
  // The operations, in place
  //---------------------------------------------------------------------------

  /** __id_to_elem finds an element: its index is id - 1. */
  predicate IsElem(id: nat, n: nat) { id != 0 && id - 1 < n }

  lemma {:induction false} IdsAreElems(e: Store, first: nat, last: nat, s: seq<nat>, k: int)
    requires IsList(e, first, last, s)
    ensures IsElem(IdAt(s, k), |e|) <==> 0 <= k < |s|
  {
  }

  method InsertHead(a: array<Entry>, h: Head, id: nat, ghost s: seq<nat>)
    requires IsList(a[..], h.first, h.last, s) && 0 < id <= a.Length && id !in s
    modifies a, h
    ensures IsList(a[..], h.first, h.last, [id] + s)
    ensures Unchanged(old(a[..]), a[..], s, id)
  {
    ghost var e, first, last := a[..], h.first, h.last;
    IdsAreElems(e, first, last, s, 0);
    a[id - 1] := Entry(h.first, 0);
    if h.first == 0 {
      h.last := id;
    } else if IsElem(h.first, a.Length) {
      a[h.first - 1] := a[h.first - 1].(prev := id);
    }
    h.first := id;
    InsertOk(e, a[..], first, last, s, 0, id);
    OnlyInList(e, a[..], s, id, 0, 0 - 1);
    assert Inserted(s, 0, id) == [id] + s;
  }

  /** The assignments of insert_tail, whatever the links are. */
  method LinkTail(a: array<Entry>, h: Head, id: nat)
    requires 0 < id <= a.Length
    modifies a, h
    ensures h.first == (if old(h.first) == 0 then id else old(h.first)) && h.last == id
    ensures a[..] == var e := old(a[..])[id - 1 := Entry(0, old(h.last))];
      if old(h.first) != 0 && IsElem(old(h.last), a.Length) then
        e[old(h.last) - 1 := e[old(h.last) - 1].(next := id)]
      else e
  {
    a[id - 1] := Entry(0, h.last);
    if h.first == 0 {
      h.first := id;
    } else if IsElem(h.last, a.Length) {
      a[h.last - 1] := a[h.last - 1].(next := id);
    }
    h.last := id;
  }

  method InsertTail(a: array<Entry>, h: Head, id: nat, ghost s: seq<nat>)
    requires IsList(a[..], h.first, h.last, s) && 0 < id <= a.Length && id !in s
    modifies a, h
    ensures IsList(a[..], h.first, h.last, s + [id])
    ensures Unchanged(old(a[..]), a[..], s, id)
  {
    ghost var e, first, last := a[..], h.first, h.last;
    IdsAreElems(e, first, last, s, |s| - 1);
    LinkTail(a, h, id);
    InsertOk(e, a[..], first, last, s, |s|, id);
    OnlyInList(e, a[..], s, id, |s|, |s| - 1);
    assert Inserted(s, |s|, id) == s + [id];
  }

  /** insert_before; lid is the element at position k. */
  method InsertBefore(a: array<Entry>, h: Head, lid: nat, id: nat, ghost s: seq<nat>, ghost k: nat)
    requires IsList(a[..], h.first, h.last, s) && 0 < id <= a.Length && id !in s && k < |s| && s[k] == lid
    modifies a, h
    ensures IsList(a[..], h.first, h.last, Inserted(s, k, id))
    ensures Unchanged(old(a[..]), a[..], s, id)
  {
    ghost var e, first, last := a[..], h.first, h.last;
    assert LinkedAt(e, s, k);
    IdsAreElems(e, first, last, s, k - 1);
    var prev := a[lid - 1].prev;
    if IsElem(prev, a.Length) {
      a[prev - 1] := a[prev - 1].(next := id);
    }
    a[id - 1] := Entry(lid, a[lid - 1].prev);
    a[lid - 1] := a[lid - 1].(prev := id);
    if h.first == lid {
      h.first := id;
    }
    InsertOk(e, a[..], first, last, s, k, id);
    OnlyInList(e, a[..], s, id, k, k - 1);
  }

  /** insert_after; lid is the element at position k. */
  method InsertAfter(a: array<Entry>, h: Head, lid: nat, id: nat, ghost s: seq<nat>, ghost k: nat)
    requires IsList(a[..], h.first, h.last, s) && 0 < id <= a.Length && id !in s && k < |s| && s[k] == lid
    modifies a, h
    ensures IsList(a[..], h.first, h.last, Inserted(s, k + 1, id))
    ensures Unchanged(old(a[..]), a[..], s, id)
  {
    ghost var e, first, last := a[..], h.first, h.last;
    assert LinkedAt(e, s, k);
    IdsAreElems(e, first, last, s, k + 1);
    var next := a[lid - 1].next;
    if IsElem(next, a.Length) {
      a[next - 1] := a[next - 1].(prev := id);
    }
    a[id - 1] := Entry(a[lid - 1].next, lid);
    a[lid - 1] := a[lid - 1].(next := id);
    if h.last == lid {
      h.last := id;
    }
    assert IdAt(s, k) == lid && e[lid - 1].next == IdAt(s, k + 1);
    assert last == lid <==> k == |s| - 1;
    InsertOk(e, a[..], first, last, s, k + 1, id);
    OnlyInList(e, a[..], s, id, k + 1, k + 1 - 1);
  }

  method Remove(a: array<Entry>, h: Head, id: nat, ghost s: seq<nat>, ghost k: nat)
    requires IsList(a[..], h.first, h.last, s) && k < |s| && s[k] == id
    modifies a, h
    ensures IsList(a[..], h.first, h.last, Removed(s, k)) && a[id - 1] == Entry(0, 0)
    ensures Unchanged(old(a[..]), a[..], s, 0)
  {
    ghost var e, first, last := a[..], h.first, h.last;
    assert LinkedAt(e, s, k);
    IdsAreElems(e, first, last, s, k - 1);
    IdsAreElems(e, first, last, s, k + 1);
    var prev := a[id - 1].prev;
    if IsElem(prev, a.Length) {
      a[prev - 1] := a[prev - 1].(next := a[id - 1].next);
    }
    var next := a[id - 1].next;
    if IsElem(next, a.Length) {
      a[next - 1] := a[next - 1].(prev := a[id - 1].prev);
    }
    if h.first == id {
      h.first := a[id - 1].next;
    }
    if h.last == id {
      h.last := a[id - 1].prev;
    }
    a[id - 1] := Entry(0, 0);
    RemoveOk(e, a[..], first, last, s, k);
    OnlyInList(e, a[..], s, id, k + 1, k - 1);
  }

  /** The store after the first element is unlinked. */
  function Popped(e: Store, s: seq<nat>): Store
    requires ValidIds(|e|, s) && s != []
  {
    var e1 := if |s| > 1 then e[s[1] - 1 := e[s[1] - 1].(prev := 0)] else e;
    e1[s[0] - 1 := e1[s[0] - 1].(next := 0)]
  }

  lemma {:induction false} PoppedOk(e: Store, first: nat, last: nat, s: seq<nat>)
    requires IsList(e, first, last, s) && s != []
    ensures IsList(Popped(e, s), IdAt(s, 1), if last == first then 0 else last, s[1..])
    ensures Unchanged(e, Popped(e, s), s, 0)
  {
    RemoveOk(e, Popped(e, s), first, last, s, 0);
    OnlyInList(e, Popped(e, s), s, s[0], 1, -1);
    assert Removed(s, 0) == s[1..];
    assert |s| > 1 ==> s[|s| - 1] != s[0];
  }

  /** pop_first; 0 if the list is empty. */
  method PopFirst(a: array<Entry>, h: Head, ghost s: seq<nat>) returns (id: nat)
    requires IsList(a[..], h.first, h.last, s)
    modifies a, h
    ensures id == IdAt(s, 0)
    ensures IsList(a[..], h.first, h.last, if s == [] then [] else s[1..])
    ensures Unchanged(old(a[..]), a[..], s, 0)
  {
    ghost var e, first, last := a[..], h.first, h.last;
    IdsAreElems(e, first, last, s, 0);
    id := h.first;
    if IsElem(id, a.Length) {
      assert LinkedAt(e, s, 0);
      IdsAreElems(e, first, last, s, 1);
      var next := a[id - 1].next;
      if IsElem(next, a.Length) {
        a[next - 1] := a[next - 1].(prev := 0);
      }
      h.first := a[id - 1].next;
      if h.last == id {
        h.last := 0;
      }
      a[id - 1] := a[id - 1].(next := 0);
      assert a[..] == Popped(e, s);
      PoppedOk(e, first, last, s);
    }
  }

  /**
   concat.  The first list becomes the concatenation exactly when the second is not empty or the
   first is: otherwise its last element is forgotten.
   */
  method Concat(a: array<Entry>, h1: Head, h2: Head, ghost s: seq<nat>, ghost t: seq<nat>)
    requires h1 != h2 && IsList(a[..], h1.first, h1.last, s) && IsList(a[..], h2.first, h2.last, t) && Disjoint(s, t)
    modifies a, h1, h2
    ensures IsList(a[..], h2.first, h2.last, [])
    ensures ValidIds(a.Length, s + t) && Linked(a[..], s + t) && h1.first == IdAt(s + t, 0)
    ensures IsList(a[..], h1.first, h1.last, s + t) <==> t != [] || s == []
    ensures t == [] ==> h1.last == 0
    ensures Unchanged(old(a[..]), a[..], s + t, 0)
  {
    ghost var e := a[..];
    IdsAreElems(e, h1.first, h1.last, s, |s| - 1);
    IdsAreElems(e, h2.first, h2.last, t, 0);
    if IsElem(h1.last, a.Length) {
      a[h1.last - 1] := a[h1.last - 1].(next := h2.first);
    }
    if IsElem(h2.first, a.Length) {
      a[h2.first - 1] := a[h2.first - 1].(prev := h1.last);
    }
    if h1.first == 0 {
      h1.first := h2.first;
    }
    h1.last := h2.last;
    h2.first, h2.last := 0, 0;
    JoinOk(e, a[..], s, t);
    OnlyInJoin(e, a[..], s, t);
    JoinEnds(a[..], s, t, h1.last);
  }

  //---------------------------------------------------------------------------
  // Iteration
  //---------------------------------------------------------------------------

  /** foreach: the elements it visits, and var after the loop. */
  method Foreach(a: array<Entry>, h: Head, max: nat, ghost s: seq<nat>) returns (visited: seq<nat>, x: nat)
    requires IsList(a[..], h.first, h.last, s)
    ensures visited == s[..Min(max, |s|)]
    ensures x == IdAt(s, max) && (x != 0 <==> |s| > max)
  {
    visited := [];
    x := h.first;
    var i := 0;
    while IsElem(x, a.Length) && i < max
      invariant i <= |s| && i <= max && visited == s[..i] && x == IdAt(s, i)
      decreases max - i
    {
      assert LinkedAt(a[..], s, i);
      visited := visited + [x];
      x := a[x - 1].next;
      i := i + 1;
    }
  }

  function Reversed(s: seq<nat>): (r: seq<nat>)
    ensures |r| == |s|
    ensures forall i :: 0 <= i < |s| ==> r[i] == s[|s| - 1 - i]
  {
    if s == [] then [] else Reversed(s[1..]) + [s[0]]
  }

  /** foreach_reverse visits the mirror image. */
  method ForeachReverse(a: array<Entry>, h: Head, max: nat, ghost s: seq<nat>) returns (visited: seq<nat>, x: nat)
    requires IsList(a[..], h.first, h.last, s)
    ensures visited == Reversed(s)[..Min(max, |s|)]
    ensures x == IdAt(Reversed(s), max) && (x != 0 <==> |s| > max)
  {
    visited := [];
    x := h.last;
    var i := 0;
    while IsElem(x, a.Length) && i < max
      invariant i <= |s| && i <= max && visited == Reversed(s)[..i] && x == IdAt(s, |s| - 1 - i)
      decreases max - i
    {
      assert LinkedAt(a[..], s, |s| - 1 - i);
      visited := visited + [x];
      x := a[x - 1].prev;
      i := i + 1;
    }
  }

  function Keep(s: seq<nat>, chosen: set<nat>): seq<nat> {
    if s == [] then [] else (if s[0] in chosen then [] else [s[0]]) + Keep(s[1..], chosen)
  }

  lemma {:induction false} KeepSnoc(s: seq<nat>, i: nat, chosen: set<nat>)
    requires i < |s|
    ensures Keep(s[..i + 1], chosen) == if s[i] in chosen then Keep(s[..i], chosen) else Keep(s[..i], chosen) + [s[i]]
  {
    if i > 0 {
      KeepSnoc(s[1..], i - 1, chosen);
      assert s[..i + 1][1..] == s[1..][..i] && s[..i][1..] == s[1..][..i - 1];
    } else {
      assert s[..1] == [s[0]] && s[..0] == [];
    }
  }

  lemma {:induction false} FrontFacts(kept: seq<nat>, rest: seq<nat>)
    requires rest != []
    ensures (kept + rest)[|kept|] == rest[0]
    ensures Removed(kept + rest, |kept|) == kept + rest[1..]
    ensures kept + [rest[0]] + rest[1..] == kept + rest
  {
  }

  lemma {:induction false} SuffixFacts(s: seq<nat>, i: nat)
    requires i < |s|
    ensures s[i..][0] == s[i] && s[i..][1..] == s[i + 1..] && IdAt(s[i..], 1) == IdAt(s, i + 1)
  {
  }

  predicate Within(part: seq<nat>, s: seq<nat>) { forall i :: 0 <= i < |part| ==> part[i] in s }

  lemma {:induction false} AtFront(e: Store, first: nat, last: nat, kept: seq<nat>, rest: seq<nat>)
    requires IsList(e, first, last, kept + rest) && rest != []
    ensures 0 < rest[0] <= |e| && e[rest[0] - 1].next == IdAt(rest, 1)
  {
    assert LinkedAt(e, kept + rest, |kept|);
    assert IdAt(kept + rest, |kept| + 1) == IdAt(rest, 1);
  }

  lemma {:induction false} StillUnchanged(e: Store, e': Store, e'': Store, part: seq<nat>, s: seq<nat>)
    requires Unchanged(e, e', s, 0) && Unchanged(e', e'', part, 0) && Within(part, s)
    ensures Unchanged(e, e'', s, 0)
  {
  }

  /** One round of foreach_safe: the next element is looked up before the body may remove this one. */
  method Visit(a: array<Entry>, h: Head, x: nat, chosen: set<nat>, ghost kept: seq<nat>, ghost rest: seq<nat>)
    returns (t: nat)
    requires IsList(a[..], h.first, h.last, kept + rest) && rest != [] && rest[0] == x
    modifies a, h
    ensures t == IdAt(rest, 1)
    ensures IsList(a[..], h.first, h.last, (if x in chosen then kept else kept + [x]) + rest[1..])
    ensures Unchanged(old(a[..]), a[..], kept + rest, 0)
  {
    AtFront(a[..], h.first, h.last, kept, rest);
    FrontFacts(kept, rest);
    assert a[..][x - 1] == a[x - 1];
    t := a[x - 1].next;
    if x in chosen {
      Remove(a, h, x, kept + rest, |kept|);
    }
  }

  /**
   foreach_safe with a body that removes the chosen elements: of those visited, exactly the others
   stay, in order.
   */
  method RemoveChosen(a: array<Entry>, h: Head, max: nat, chosen: set<nat>, ghost s: seq<nat>) returns (x: nat)
    requires IsList(a[..], h.first, h.last, s)
    modifies a, h
    ensures var m := Min(max, |s|); IsList(a[..], h.first, h.last, Keep(s[..m], chosen) + s[m..])
    ensures x == IdAt(s, max) && (x != 0 <==> |s| > max)
    ensures Unchanged(old(a[..]), a[..], s, 0)
  {
    x := h.first;
    var i := 0;
    ghost var e := a[..];
    assert Keep(s[..0], chosen) + s[0..] == s;
    while IsElem(x, a.Length) && i < max
      invariant i <= |s| && i <= max && x == IdAt(s, i)
      invariant IsList(a[..], h.first, h.last, Keep(s[..i], chosen) + s[i..])
      invariant Unchanged(e, a[..], s, 0)
      decreases max - i
    {
      ghost var before, kept, rest := a[..], Keep(s[..i], chosen), s[i..];
      SuffixFacts(s, i);
      KeepSnoc(s, i, chosen);
      KeepWithin(s, i, chosen);
      x := Visit(a, h, x, chosen, kept, rest);
      StillUnchanged(e, before, a[..], kept + rest, s);
      i := i + 1;
    }
  }

  lemma {:induction false} KeepWithin(s: seq<nat>, i: nat, chosen: set<nat>)
    requires i <= |s|
    ensures Within(Keep(s[..i], chosen) + s[i..], s)
  {
    KeepIn(s[..i], chosen);
    var part := Keep(s[..i], chosen) + s[i..];
    forall j | 0 <= j < |part| ensures part[j] in s {
      if j < |Keep(s[..i], chosen)| { assert part[j] in s[..i]; } else { assert part[j] in s[i..]; }
    }
  }

  lemma {:induction false} KeepIn(s: seq<nat>, chosen: set<nat>)
    ensures forall j :: 0 <= j < |Keep(s, chosen)| ==> Keep(s, chosen)[j] in s
  {
    if s != [] {
      KeepIn(s[1..], chosen);
      var rest := Keep(s[1..], chosen);
      assert forall j :: 0 <= j < |rest| ==> rest[j] in s[1..];
    }
  }

  /** Of the elements kept, none is chosen, and each one not chosen is kept. */
  lemma {:induction false} KeepMeans(s: seq<nat>, chosen: set<nat>)
    ensures forall x :: x in Keep(s, chosen) <==> x in s && x !in chosen
  {
    if s != [] {
      KeepMeans(s[1..], chosen);
      assert s == [s[0]] + s[1..];
    }
  }

  //---------------------------------------------------------------------------
  // What a concat with an empty list costs
  //---------------------------------------------------------------------------

  /** The elements a walk from id reaches, going forward for at most max steps. */
  function Walk(e: Store, id: nat, max: nat): seq<nat>
    decreases max
  {
    if max == 0 || !IsElem(id, |e|) then [] else [id] + Walk(e, e[id - 1].next, max - 1)
  }

  /** A walk along a list finds its elements. */
  lemma {:induction false} WalkIsList(e: Store, first: nat, last: nat, s: seq<nat>, i: nat, max: nat)
    requires IsList(e, first, last, s) && i <= |s| && max >= |s| - i
    ensures Walk(e, IdAt(s, i), max) == s[i..]
    decreases max
  {
    if i < |s| {
      assert LinkedAt(e, s, i);
      WalkIsList(e, first, last, s, i + 1, max - 1);
    }
  }

  /**
   After a non-empty list was concatenated with an empty one, an element inserted at the tail is
   not on the list.
   */
  method TailLostAfterEmptyConcat(a: array<Entry>, h1: Head, h2: Head, id: nat, max: nat, ghost s: seq<nat>)
    requires h1 != h2 && s != [] && IsList(a[..], h1.first, h1.last, s) && IsList(a[..], h2.first, h2.last, [])
    requires 0 < id <= a.Length && id !in s
    modifies a, h1, h2
    ensures h1.last == id && id !in Walk(a[..], h1.first, max)
  {
    Concat(a, h1, h2, s, []);
    assert s + [] == s;
    ghost var e := a[..];
    assert IsList(e, h1.first, IdAt(s, |s| - 1), s);
    LinkTail(a, h1, id);
    forall i | 0 <= i < |s| ensures LinkedAt(a[..], s, i) {
      assert LinkedAt(e, s, i) && s[i] != id;
    }
    WalkStays(a[..], s, id, 0, max);
  }

  lemma {:induction false} WalkStays(e: Store, s: seq<nat>, id: nat, i: nat, max: nat)
    requires ValidIds(|e|, s) && Linked(e, s) && id !in s && i <= |s|
    ensures id !in Walk(e, IdAt(s, i), max)
    decreases max
  {
    if i < |s| && max > 0 {
      assert LinkedAt(e, s, i) && s[i] in s;
      WalkStays(e, s, id, i + 1, max - 1);
    }
  }
}
