/** The emit planner: a binary min-heap of chunks with an index from chunk to heap position. */
module EmitPlanner {
  import opened Basics

  /** Times counts allocations, Sent confirmed sends; Priority breaks ties between equal Times. */
  datatype EmitEntry = EmitEntry(idx: int, times: int, sent: int, priority: nat)

  predicate LessEntry(a: EmitEntry, b: EmitEntry) {
    if a.times != b.times then a.times < b.times else a.priority < b.priority
  }

  // ---------------------------------------------------------------------------
  // Heap order on a prefix of the entries
  // ---------------------------------------------------------------------------

  function Parent(i: nat): nat { if i == 0 then 0 else (i - 1) / 2 }

  /** Entry i is not below its parent. */
  predicate Ordered(e: seq<EmitEntry>, i: nat)
    requires i < |e|
  {
    !LessEntry(e[i], e[Parent(i)])
  }

  predicate Heap(e: seq<EmitEntry>, n: nat)
    requires n <= |e|
  {
    forall i: nat :: i < n ==> Ordered(e, i)
  }

  /** Heap order except around position j, whose children are still not below its parent. */
  predicate HeapAround(e: seq<EmitEntry>, n: nat, j: nat)
    requires n <= |e|
  {
    && (forall i: nat :: i < n && i != j && Parent(i) != j ==> Ordered(e, i))
    && (forall i: nat :: i < n && 0 < j < n && Parent(i) == j ==> !LessEntry(e[i], e[Parent(j)]))
  }

  /** The entries below j are in order with it. */
  predicate ChildrenOrdered(e: seq<EmitEntry>, n: nat, j: nat)
    requires n <= |e|
  {
    forall i: nat :: i < n && i > 0 && Parent(i) == j ==> Ordered(e, i)
  }

  /** The root of a heap is not above any entry. */
  lemma {:induction false} RootIsLeast(e: seq<EmitEntry>, n: nat, i: nat)
    requires n <= |e| && Heap(e, n) && i < n
    ensures !LessEntry(e[i], e[0])
  {
    if i > 0 {
      RootIsLeast(e, n, Parent(i));
      assert Ordered(e, i);
    }
  }

  lemma HeapToAround(e: seq<EmitEntry>, n: nat, j: nat, changed: seq<EmitEntry>)
    requires n <= |e| == |changed| && Heap(e, n) && j < n
    requires forall i: nat :: i < n && i != j ==> changed[i] == e[i]
    ensures HeapAround(changed, n, j)
  {
    forall i: nat | i < n && 0 < j && Parent(i) == j
      ensures !LessEntry(changed[i], changed[Parent(j)])
    {
      assert Ordered(e, i) && Ordered(e, j);
    }
    forall i: nat | i < n && i != j && Parent(i) != j
      ensures Ordered(changed, i)
    {
      assert Ordered(e, i);
    }
  }

  function Swapped(e: seq<EmitEntry>, i: nat, j: nat): (r: seq<EmitEntry>)
    requires i < |e| && j < |e|
    ensures |r| == |e|
  {
    e[i := e[j]][j := e[i]]
  }

  /** Sifting up past a larger parent leaves only the parent's place to look at. */
  lemma SiftedUp(e: seq<EmitEntry>, n: nat, j: nat)
    requires n <= |e| && 0 < j < n && HeapAround(e, n, j) && ChildrenOrdered(e, n, j)
    requires LessEntry(e[j], e[Parent(j)])
    ensures HeapAround(Swapped(e, Parent(j), j), n, Parent(j))
    ensures ChildrenOrdered(Swapped(e, Parent(j), j), n, Parent(j))
  {
    var p := Parent(j);
    var r := Swapped(e, p, j);
    forall i: nat | i < n && i != p && Parent(i) != p
      ensures Ordered(r, i)
    {
      if Parent(i) == j {
        assert !LessEntry(e[i], e[p]);
      } else {
        assert Ordered(e, i);
      }
    }
    forall i: nat | i < n && i > 0 && Parent(i) == p
      ensures Ordered(r, i)
      ensures p > 0 ==> !LessEntry(r[i], r[Parent(p)])
    {
      if i != j {
        assert Ordered(e, i);
      }
      assert p > 0 ==> Ordered(e, p);
    }
  }

  /** Sifting down past the smallest child leaves only the child's place to look at. */
  lemma SiftedDown(e: seq<EmitEntry>, n: nat, j: nat, c: nat)
    requires n <= |e| && j < c < n && Parent(c) == j && HeapAround(e, n, j)
    requires LessEntry(e[c], e[j])
    requires forall i: nat :: i < n && i > 0 && Parent(i) == j ==> !LessEntry(e[i], e[c])
    ensures HeapAround(Swapped(e, j, c), n, c)
    ensures Ordered(Swapped(e, j, c), c)
    ensures Ordered(Swapped(e, j, c), j)
  {
    var r := Swapped(e, j, c);
    forall i: nat | i < n && i != c && Parent(i) != c
      ensures Ordered(r, i)
    {
      if i == j {
      } else if Parent(i) == j {
        assert !LessEntry(e[i], e[c]);
      } else {
        assert Ordered(e, i);
      }
    }
    forall i: nat | i < n && i > 0 && Parent(i) == c
      ensures !LessEntry(r[i], r[Parent(c)])
    {
      assert Ordered(e, i);
    }
  }

  lemma ChildIs(c: nat, i: nat)
    requires c > 0 && Parent(c) == i
    ensures c == 2 * i + 1 || c == 2 * i + 2
  {
  }

  /** The child to swap with is the smaller of the two. */
  lemma SmallerChild(e: seq<EmitEntry>, n: nat, i: nat, j: nat)
    requires n <= |e| && 2 * i + 1 < n
    requires j == if 2 * i + 2 < n && LessEntry(e[2 * i + 2], e[2 * i + 1]) then 2 * i + 2 else 2 * i + 1
    ensures Parent(j) == i < j < n
    ensures forall c: nat :: c < n && c > 0 && Parent(c) == i ==> !LessEntry(e[c], e[j])
  {
    forall c: nat | c < n && c > 0 && Parent(c) == i
      ensures !LessEntry(e[c], e[j])
    {
      ChildIs(c, i);
    }
  }

  lemma NoSmallerChild(e: seq<EmitEntry>, n: nat, i: nat)
    requires i < n <= |e|
    requires 2 * i + 1 < n ==> !LessEntry(e[2 * i + 1], e[i])
    requires 2 * i + 2 < n ==> !LessEntry(e[2 * i + 2], e[i])
    ensures ChildrenOrdered(e, n, i)
  {
    forall c: nat | c < n && c > 0 && Parent(c) == i
      ensures Ordered(e, c)
    {
      ChildIs(c, i);
    }
  }

  lemma PushedAround(e: seq<EmitEntry>, entry: EmitEntry)
    requires Heap(e, |e|)
    ensures HeapAround(e + [entry], |e| + 1, |e|) && ChildrenOrdered(e + [entry], |e| + 1, |e|)
  {
    var r := e + [entry];
    forall i: nat | i < |e|
      ensures Ordered(r, i)
    {
      assert Ordered(e, i);
    }
  }

  /** Moving the last entry to position i and dropping it from the heap. */
  lemma LastMovedAround(e: seq<EmitEntry>, i: nat)
    requires e != [] && Heap(e, |e|) && i < |e| - 1
    ensures HeapAround(Swapped(e, i, |e| - 1), |e| - 1, i)
  {
    var n := |e| - 1;
    var r := Swapped(e, i, n);
    forall k: nat | k < n && k != i && Parent(k) != i
      ensures Ordered(r, k)
    {
      assert Ordered(e, k);
    }
    forall k: nat | k < n && 0 < i && Parent(k) == i
      ensures !LessEntry(r[k], r[Parent(i)])
    {
      assert Ordered(e, k) && Ordered(e, i);
    }
  }

  lemma PrefixHeap(e: seq<EmitEntry>, n: nat)
    requires n <= |e| && Heap(e, n)
    ensures Heap(e[..n], n)
  {
    forall i: nat | i < n
      ensures Ordered(e[..n], i)
    {
      assert Ordered(e, i);
    }
  }

  lemma AroundToHeap(e: seq<EmitEntry>, n: nat, j: nat)
    requires n <= |e| && j < n && HeapAround(e, n, j) && ChildrenOrdered(e, n, j) && Ordered(e, j)
    ensures Heap(e, n)
  {
  }

  // ---------------------------------------------------------------------------
  // The index
  // ---------------------------------------------------------------------------

  /** index is the inverse of the entries' positions. */
  predicate Indexed(e: seq<EmitEntry>, index: map<int, int>) {
    && (forall i :: 0 <= i < |e| ==> e[i].idx in index && index[e[i].idx] == i)
    && (forall id :: id in index ==> 0 <= index[id] < |e| && e[index[id]].idx == id)
  }

  /** The planner as a map from chunk to its entry. */
  function Planned(e: seq<EmitEntry>, index: map<int, int>): map<int, EmitEntry>
    requires Indexed(e, index)
  {
    map id | id in index :: e[index[id]]
  }

  /** Two planners with the same chunks and the same entry for each are the same map. */
  lemma SamePlanned(e: seq<EmitEntry>, index: map<int, int>, planned: map<int, EmitEntry>)
    requires Indexed(e, index) && index.Keys == planned.Keys
    requires forall id :: id in index ==> e[index[id]] == planned[id]
    ensures Planned(e, index) == planned
  {
    var p := Planned(e, index);
    assert p.Keys == planned.Keys;
    assert forall id :: id in p ==> p[id] == planned[id];
  }

  lemma SwapIndexed(e: seq<EmitEntry>, index: map<int, int>, i: nat, j: nat)
    requires Indexed(e, index) && i < |e| && j < |e|
    ensures var r := Swapped(e, i, j);
            var index' := index[r[i].idx := i][r[j].idx := j];
            Indexed(r, index') && Planned(r, index') == Planned(e, index)
  {
    var r := Swapped(e, i, j);
    var index' := index[r[i].idx := i][r[j].idx := j];
    assert Indexed(r, index');
    SamePlanned(r, index', Planned(e, index));
  }

  lemma SetIndexed(e: seq<EmitEntry>, index: map<int, int>, i: nat, entry: EmitEntry)
    requires Indexed(e, index) && i < |e| && entry.idx == e[i].idx
    ensures Indexed(e[i := entry], index)
    ensures Planned(e[i := entry], index) == Planned(e, index)[entry.idx := entry]
  {
    SamePlanned(e[i := entry], index, Planned(e, index)[entry.idx := entry]);
  }

  lemma AppendIndexed(e: seq<EmitEntry>, index: map<int, int>, entry: EmitEntry)
    requires Indexed(e, index) && entry.idx !in index
    ensures Indexed(e + [entry], index[entry.idx := |e|])
    ensures Planned(e + [entry], index[entry.idx := |e|]) == Planned(e, index)[entry.idx := entry]
  {
    SamePlanned(e + [entry], index[entry.idx := |e|], Planned(e, index)[entry.idx := entry]);
  }

  lemma DropIndexed(e: seq<EmitEntry>, index: map<int, int>)
    requires Indexed(e, index) && e != []
    ensures Indexed(e[..|e| - 1], index - {e[|e| - 1].idx})
    ensures Planned(e[..|e| - 1], index - {e[|e| - 1].idx}) == Planned(e, index) - {e[|e| - 1].idx}
  {
    SamePlanned(e[..|e| - 1], index - {e[|e| - 1].idx}, Planned(e, index) - {e[|e| - 1].idx});
  }

  lemma EmptyPlanned(e: seq<EmitEntry>, index: map<int, int>)
    requires Indexed(e, index)
    ensures Planned(e, index) == map[] <==> e == []
  {
    if e != [] {
      assert e[0].idx in Planned(e, index);
    } else {
      assert forall id :: id !in index;
    }
  }

  // ---------------------------------------------------------------------------
  // The planner
  // ---------------------------------------------------------------------------

  class EmitPlanner {
    var entries: seq<EmitEntry>
    var idToIndex: map<int, int>

    ghost predicate Indexes()
      reads this
    {
      Indexed(entries, idToIndex)
    }

    ghost predicate Valid()
      reads this
    {
      Indexes() && Heap(entries, |entries|)
    }

    function Contents(): map<int, EmitEntry>
      reads this
      requires Indexes()
    {
      Planned(entries, idToIndex)
    }

    constructor ()
      ensures Valid() && Contents() == map[]
    {
      entries, idToIndex := [], map[];
    }

    method Swap(i: nat, j: nat)
      requires Indexes() && i < |entries| && j < |entries|
      modifies this
      ensures Indexes() && entries == Swapped(old(entries), i, j) && Contents() == old(Contents())
    {
      SwapIndexed(entries, idToIndex, i, j);
      entries := entries[i := entries[j]][j := entries[i]];
      idToIndex := idToIndex[entries[i].idx := i];
      idToIndex := idToIndex[entries[j].idx := j];
    }

    method Push(ec: EmitEntry)
      requires Indexes() && ec.idx !in idToIndex
      modifies this
      ensures Indexes() && entries == old(entries) + [ec] && Contents() == old(Contents())[ec.idx := ec]
    {
      AppendIndexed(entries, idToIndex, ec);
      idToIndex := idToIndex[ec.idx := |entries|];
      entries := entries + [ec];
    }

    method Pop() returns (ec: EmitEntry)
      requires Indexes() && entries != []
      modifies this
      ensures Indexes() && entries + [ec] == old(entries) && Contents() == old(Contents()) - {ec.idx}
    {
      DropIndexed(entries, idToIndex);
      var n := |entries|;
      ec := entries[n - 1];
      entries := entries[..n - 1];
      idToIndex := idToIndex - {ec.idx};
    }

    /** Sift entry j0 up; only the first n entries are in the heap. */
    method Up(j0: nat, ghost n: nat)
      requires Indexes() && j0 < n <= |entries|
      requires HeapAround(entries, n, j0) && ChildrenOrdered(entries, n, j0)
      modifies this
      ensures Indexes() && |entries| == |old(entries)| && Contents() == old(Contents())
      ensures Heap(entries, n) && entries[n..] == old(entries)[n..]
    {
      var j := j0;
      while true
        invariant Indexes() && |entries| == |old(entries)| && Contents() == old(Contents())
        invariant entries[n..] == old(entries)[n..]
        invariant 0 <= j < n && HeapAround(entries, n, j) && ChildrenOrdered(entries, n, j)
        decreases j
      {
        var i := Parent(j);
        if i == j || !LessEntry(entries[j], entries[i]) {
          AroundToHeap(entries, n, j);
          return;
        }
        SiftedUp(entries, n, j);
        Swap(i, j);
        j := i;
      }
    }

    /** Sift entry i0 down within the first n entries; reports whether it moved. */
    method Down(i0: nat, n: nat) returns (moved: bool)
      requires Indexes() && i0 < n <= |entries| && HeapAround(entries, n, i0)
      modifies this
      ensures Indexes() && Contents() == old(Contents()) && |entries| == |old(entries)|
      ensures entries[n..] == old(entries)[n..]
      ensures moved ==> Heap(entries, n)
      ensures !moved ==> entries == old(entries) && ChildrenOrdered(entries, n, i0)
    {
      var i := i0;
      while true
        invariant Indexes() && |entries| == |old(entries)| && Contents() == old(Contents())
        invariant entries[n..] == old(entries)[n..]
        invariant i0 <= i < n && HeapAround(entries, n, i)
        invariant i == i0 ==> entries == old(entries)
        invariant i > i0 ==> Ordered(entries, i)
        decreases n - i
      {
        var j1 := 2 * i + 1;
        if j1 >= n {
          break;
        }
        var j := j1;
        if j1 + 1 < n && LessEntry(entries[j1 + 1], entries[j1]) {
          j := j1 + 1;
        }
        SmallerChild(entries, n, i, j);
        if !LessEntry(entries[j], entries[i]) {
          break;
        }
        SiftedDown(entries, n, i, j);
        Swap(i, j);
        i := j;
      }
      NoSmallerChild(entries, n, i);
      moved := i > i0;
      if moved {
        AroundToHeap(entries, n, i);
      }
    }

    /** Restore order after entry i was changed. */
    method Fix(i: nat)
      requires Indexes() && i < |entries| && HeapAround(entries, |entries|, i)
      modifies this
      ensures Valid() && Contents() == old(Contents())
    {
      var moved := Down(i, |entries|);
      if !moved {
        Up(i, |entries|);
      }
    }

    method Insert(ec: EmitEntry)
      requires Valid()
      modifies this
      ensures Valid() && Contents() == old(Contents())[ec.idx := ec]
    {
      if ec.idx in idToIndex {
        Replace(ec.idx, ec);
        return;
      }
      Push(ec);
      PushedAround(old(entries), ec);
      Up(|entries| - 1, |entries|);
    }

    method Top() returns (top: Option<EmitEntry>)
      requires Valid()
      ensures top.None? <==> Contents() == map[]
      ensures top.Some? ==>
        && entries != [] && top.value == entries[0]
        && top.value.idx in Contents() && Contents()[top.value.idx] == top.value
        && forall id :: id in Contents() ==> !LessEntry(Contents()[id], top.value)
    {
      EmptyPlanned(entries, idToIndex);
      if |entries| == 0 {
        return None;
      }
      top := Some(entries[0]);
      forall id | id in Contents()
        ensures !LessEntry(Contents()[id], entries[0])
      {
        RootIsLeast(entries, |entries|, idToIndex[id]);
      }
    }

    /** Remove and return the least entry. */
    method PopFront() returns (ec: EmitEntry)
      requires Valid() && Contents() != map[]
      modifies this
      ensures Valid() && Contents() == old(Contents()) - {ec.idx}
      ensures old(entries) != [] && ec == old(entries)[0]
      ensures ec.idx in old(Contents()) && old(Contents())[ec.idx] == ec
      ensures forall id :: id in old(Contents()) ==> !LessEntry(old(Contents())[id], ec)
    {
      EmptyPlanned(entries, idToIndex);
      forall id | id in Contents()
        ensures !LessEntry(Contents()[id], entries[0])
      {
        RootIsLeast(entries, |entries|, idToIndex[id]);
      }
      assert Contents()[entries[0].idx] == entries[0];
      ec := RemoveAt(0);
    }

    /** Take out the entry at position i: swap it to the end, restore order before it, and drop it. */
    method RemoveAt(i: nat) returns (ec: EmitEntry)
      requires Valid() && i < |entries|
      modifies this
      ensures Valid() && ec == old(entries)[i] && Contents() == old(Contents()) - {ec.idx}
    {
      var n := |entries| - 1;
      if n != i {
        LastMovedAround(entries, i);
        Swap(i, n);
        var moved := Down(i, n);
        if !moved {
          Up(i, n);
        }
        assert entries[n] == entries[n..][0] == old(entries)[i];
      }
      PrefixHeap(entries, n);
      ec := Pop();
    }

    method Increment(id: int)
      requires Valid()
      modifies this
      ensures Valid()
      ensures Contents() == if id in old(Contents())
              then old(Contents())[id := old(Contents())[id].(times := old(Contents())[id].times + 1)]
                  else old(Contents())
    {
      if id in idToIndex {
        Replace(id, entries[idToIndex[id]].(times := entries[idToIndex[id]].times + 1));
      }
    }

    method Decrement(id: int)
      requires Valid()
      modifies this
      ensures Valid()
      ensures Contents() == if id in old(Contents())
              then old(Contents())[id := old(Contents())[id].(times := old(Contents())[id].times - 1)]
                  else old(Contents())
    {
      if id in idToIndex {
        Replace(id, entries[idToIndex[id]].(times := entries[idToIndex[id]].times - 1));
      }
    }

    /** Overwrite the entry of a chunk and restore order. */
    method Replace(id: int, ec: EmitEntry)
      requires Valid() && id in Contents() && ec.idx == id
      modifies this
      ensures Valid() && Contents() == old(Contents())[id := ec]
    {
      var i := idToIndex[id];
      SetIndexed(entries, idToIndex, i, ec);
      HeapToAround(entries, |entries|, i, entries[i := ec]);
      entries := entries[i := ec];
      Fix(i);
    }

    method Delete(id: int)
      requires Valid()
      modifies this
      ensures Valid() && Contents() == old(Contents()) - {id}
    {
      if id in idToIndex {
        var _ := RemoveAt(idToIndex[id]);
      } else {
        assert Contents() - {id} == Contents();
      }
    }

    /** Sent does not take part in the order, so nothing moves. */
    method AddSent(id: int, delta: int)
      requires Valid()
      modifies this
      ensures Valid()
      ensures Contents() == if id in old(Contents())
              then old(Contents())[id := old(Contents())[id].(sent := old(Contents())[id].sent + delta)]
                  else old(Contents())
    {
      if id in idToIndex {
        var i := idToIndex[id];
        var ec := entries[i].(sent := entries[i].sent + delta);
        SetIndexed(entries, idToIndex, i, ec);
        SameOrder(entries, i, ec);
        entries := entries[i := ec];
      }
    }
  }

  lemma SameOrder(e: seq<EmitEntry>, i: nat, ec: EmitEntry)
    requires Heap(e, |e|) && i < |e| && ec.times == e[i].times && ec.priority == e[i].priority
    ensures Heap(e[i := ec], |e|)
  {
    var r := e[i := ec];
    forall k: nat | k < |r|
      ensures Ordered(r, k)
    {
      assert Ordered(e, k);
    }
  }
}
