/** The binary heap of the search: `container/heap` over the repository's Less, Swap, Push and Pop. */
module PriorityQueues {
  import opened Search

  /** A queue element; `index` is its place in the heap, -1 once it is taken out. */
  datatype Item = Item(value: PqItem, priority: int, index: int)

  function EntryOf(x: Item): Entry {
    Entry(x.value, x.priority)
  }

  function Entries(items: seq<Item>): (r: seq<Entry>)
    ensures |r| == |items| && forall i :: 0 <= i < |r| ==> r[i] == EntryOf(items[i])
  {
    seq(|items|, i requires 0 <= i < |items| => EntryOf(items[i]))
  }

  /** Exchange of two elements, each told its new place. */
  function Swapped(items: seq<Item>, i: nat, j: nat): (r: seq<Item>)
    requires i < |items| && j < |items|
    ensures |r| == |items|
  {
    items[i := items[j].(index := i)][j := items[i].(index := j)]
  }

  lemma SwapKeepsEntries(items: seq<Item>, i: nat, j: nat)
    requires i < |items| && j < |items|
    ensures multiset(Entries(Swapped(items, i, j))) == multiset(Entries(items))
  {
    var e := Entries(items);
    assert Entries(Swapped(items, i, j)) == e[i := e[j]][j := e[i]];
  }

  ghost predicate Indexed(items: seq<Item>) {
    forall i :: 0 <= i < |items| ==> items[i].index == i
  }

  function Parent(k: nat): nat {
    if k == 0 then 0 else (k - 1) / 2
  }

  /** Element `k` is no smaller than its parent. */
  ghost predicate Above(items: seq<Item>, k: nat)
    requires k < |items|
  {
    items[Parent(k)].priority <= items[k].priority
  }

  /** The heap order among the first `n` elements, except between `but` and its parent. */
  ghost predicate OrderedBut(items: seq<Item>, n: nat, but: nat)
    requires n <= |items|
  {
    forall k: nat {:trigger Above(items, k)} :: k < n && k != but ==> Above(items, k)
  }

  /** The heap order among the first `n` elements, except between `but` and its children. */
  ghost predicate OrderedUnder(items: seq<Item>, n: nat, but: nat)
    requires n <= |items|
  {
    forall k: nat {:trigger Above(items, k)} :: k < n && (k == 0 || Parent(k) != but) ==> Above(items, k)
  }

  ghost predicate NoLess(items: seq<Item>, k: nat, i: nat)
    requires k < |items| && i < |items|
  {
    items[i].priority <= items[k].priority
  }

  /** The children of `j` are no smaller than its parent. */
  ghost predicate Skips(items: seq<Item>, n: nat, j: nat)
    requires n <= |items| && j < |items|
  {
    forall k: nat {:trigger NoLess(items, k, Parent(j))} ::
      0 < k < n && Parent(k) == j && j > 0 ==> NoLess(items, k, Parent(j))
  }

  ghost predicate Ordered(items: seq<Item>, n: nat)
    requires n <= |items|
  {
    OrderedBut(items, n, 0)
  }

  lemma {:induction false} RootIsLeast(items: seq<Item>, k: nat)
    requires Ordered(items, |items|) && k < |items|
    ensures items[0].priority <= items[k].priority
  {
    if k > 0 {
      assert Above(items, k);
      RootIsLeast(items, Parent(k));
    }
  }

  /** One step of sifting up. */
  lemma UpStep(items: seq<Item>, j: nat)
    requires 0 < j < |items| && OrderedBut(items, |items|, j) && Skips(items, |items|, j)
    requires items[j].priority < items[Parent(j)].priority
    ensures var s := Swapped(items, Parent(j), j);
            OrderedBut(s, |s|, Parent(j)) && Skips(s, |s|, Parent(j))
  {
    var i := Parent(j);
    var s := Swapped(items, i, j);
    forall k: nat | k < |s| && k != i ensures Above(s, k) {
      if k != j { assert Above(items, k); }
      if k > 0 && Parent(k) == j { assert NoLess(items, k, i); }
    }
    forall k: nat | 0 < k < |s| && Parent(k) == i ensures NoLess(s, k, Parent(i)) {
      assert Above(items, i);
      if k != j { assert Above(items, k); }
    }
  }

  /** Sifting up ends where the element is no smaller than its parent. */
  lemma UpDone(items: seq<Item>, j: nat)
    requires j < |items| && OrderedBut(items, |items|, j)
    requires j == 0 || items[j].priority >= items[Parent(j)].priority
    ensures Ordered(items, |items|)
  {
    assert Above(items, j);
  }

  /** One step of sifting down, to the smaller child `j`. */
  lemma DownStep(items: seq<Item>, n: nat, i: nat, j: nat)
    requires n <= |items| && i < j < n && Parent(j) == i
    requires OrderedUnder(items, n, i) && Skips(items, n, i)
    requires items[j].priority < items[i].priority
    requires forall k: nat :: 0 < k < n && Parent(k) == i ==> items[j].priority <= items[k].priority
    ensures var s := Swapped(items, i, j);
            OrderedUnder(s, n, j) && Skips(s, n, j)
  {
    var s := Swapped(items, i, j);
    forall k: nat | k < n && (k == 0 || Parent(k) != j) ensures Above(s, k) {
      if k == 0 {
      } else if Parent(k) == i {
      } else if k == i {
        assert NoLess(items, j, Parent(i));
      } else {
        assert Above(items, k);
      }
    }
    forall k: nat | 0 < k < n && Parent(k) == j ensures NoLess(s, k, Parent(j)) {
      assert Above(items, k);
    }
  }

  /** Sifting down ends where no child is smaller. */
  lemma DownDone(items: seq<Item>, n: nat, i: nat)
    requires n <= |items| && OrderedUnder(items, n, i)
    requires forall k: nat :: 0 < k < n && Parent(k) == i ==> items[i].priority <= items[k].priority
    ensures Ordered(items, n)
  {
    forall k: nat | k < n && k != 0 ensures Above(items, k) {
      if Parent(k) != i { assert Above(items, k); }
    }
  }

  class PriorityQueue {
    var items: seq<Item>

    ghost predicate Valid()
      reads this
    {
      Indexed(items) && Ordered(items, |items|)
    }

    ghost function Contents(): multiset<Entry>
      reads this
    {
      multiset(Entries(items))
    }

    /** A queue of one element. */
    constructor (e: Entry)
      ensures Valid() && Contents() == multiset{e}
    {
      items := [Item(e.value, e.priority, 0)];
      new;
      assert Entries(items) == [e];
    }

    function Len(): nat
      reads this
    {
      |items|
    }

    predicate Less(i: nat, j: nat)
      requires i < |items| && j < |items|
      reads this
    {
      items[i].priority < items[j].priority
    }

    method Swap(i: nat, j: nat)
      requires i < |items| && j < |items|
      modifies this
      ensures items == Swapped(old(items), i, j)
      ensures Contents() == old(Contents())
    {
      SwapKeepsEntries(items, i, j);
      items := items[i := items[j].(index := i)][j := items[i].(index := j)];
    }

    /** `heap.Push`: append, then sift up. */
    method Push(e: Entry)
      requires Valid()
      modifies this
      ensures Valid() && Contents() == old(Contents()) + multiset{e}
    {
      var x := Item(e.value, e.priority, |items|);
      AppendKeepsOrder(items, x);
      items := items + [x];
      Up(|items| - 1);
    }

    method Up(start: nat)
      requires start < |items| && Indexed(items)
      requires OrderedBut(items, |items|, start) && Skips(items, |items|, start)
      modifies this
      ensures Valid() && Contents() == old(Contents())
    {
      var j: nat := start;
      while j != Parent(j) && Less(j, Parent(j))
        invariant j < |items| && Indexed(items)
        invariant OrderedBut(items, |items|, j) && Skips(items, |items|, j)
        invariant Contents() == old(Contents())
        decreases j
      {
        UpStep(items, j);
        Swap(Parent(j), j);
        j := Parent(j);
      }
      UpDone(items, j);
    }

    /** `heap.Pop`: exchange first and last, sift the new first down, cut the last off. */
    method Pop() returns (e: Entry)
      requires Valid() && Len() > 0
      modifies this
      ensures Valid() && Contents() == old(Contents()) - multiset{e}
      ensures Least(old(Contents()), e)
      ensures Len() == old(Len()) - 1
    {
      hide Indexed, Ordered, OrderedUnder, Skips, Swapped, Entries, Least;
      var n := |items| - 1;
      FirstIsLeast(items);
      ExchangeKeepsOrder(items);
      Swap(0, n);
      Down(n);
      var item := items[n].(index := -1);
      CutOff(items);
      items := items[..n];
      e := EntryOf(item);
    }

    method Down(n: nat)
      requires n < |items| && Indexed(items) && OrderedUnder(items, n, 0)
      modifies this
      ensures |items| == old(|items|) && Indexed(items) && Ordered(items, n)
      ensures items[n] == old(items[n]) && Contents() == old(Contents())
    {
      var i: nat := 0;
      while true
        invariant |items| == old(|items|) && Indexed(items)
        invariant i < n || i == 0
        invariant OrderedUnder(items, n, i) && Skips(items, n, i)
        invariant items[n] == old(items[n]) && Contents() == old(Contents())
        decreases n - i
      {
        var j: nat := 2 * i + 1;
        if j >= n { break; }
        if j + 1 < n && Less(j + 1, j) { j := j + 1; }
        if !Less(j, i) { break; }
        DownStep(items, n, i, j);
        Swap(i, j);
        i := j;
      }
      DownDone(items, n, i);
    }
  }

  lemma AppendKeepsOrder(items: seq<Item>, x: Item)
    requires Ordered(items, |items|) && x.index == |items|
    ensures var s := items + [x];
            && OrderedBut(s, |s|, |items|) && Skips(s, |s|, |items|)
            && multiset(Entries(s)) == multiset(Entries(items)) + multiset{EntryOf(x)}
  {
    var s := items + [x];
    assert Entries(s) == Entries(items) + [EntryOf(x)];
    forall k: nat | k < |items| ensures Above(s, k) {
      if k > 0 { assert Above(items, k); }
    }
  }

  lemma FirstIsLeast(items: seq<Item>)
    requires Ordered(items, |items|) && items != []
    ensures Least(multiset(Entries(items)), EntryOf(items[0]))
  {
    assert EntryOf(items[0]) == Entries(items)[0];
    forall x | x in Entries(items) ensures items[0].priority <= x.priority {
      var k :| 0 <= k < |items| && Entries(items)[k] == x;
      RootIsLeast(items, k);
    }
  }

  lemma ExchangeKeepsOrder(items: seq<Item>)
    requires Indexed(items) && Ordered(items, |items|) && items != []
    ensures var s := Swapped(items, 0, |items| - 1);
            Indexed(s) && OrderedUnder(s, |items| - 1, 0) && EntryOf(s[|items| - 1]) == EntryOf(items[0])
  {
    var s := Swapped(items, 0, |items| - 1);
    forall k: nat | k < |items| - 1 && (k == 0 || Parent(k) != 0) ensures Above(s, k) {
      if k > 0 { assert Above(items, k); }
    }
  }

  lemma CutOff(items: seq<Item>)
    requires items != [] && Indexed(items) && Ordered(items, |items| - 1)
    ensures var s := items[..|items| - 1];
            && Indexed(s) && Ordered(s, |s|)
            && multiset(Entries(s)) == multiset(Entries(items)) - multiset{EntryOf(items[|items| - 1])}
  {
    var s := items[..|items| - 1];
    assert Entries(items) == Entries(s) + [EntryOf(items[|items| - 1])];
    forall k: nat | k < |s| && k != 0 ensures Above(s, k) {
      assert Above(items, k);
    }
  }
}
