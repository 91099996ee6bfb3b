/** The linked queues of buffers (constable/comm_buf.c:225-280), and the search
    for the buffer an answer belongs to (constable/mcp/mcp.c:933-945). */
module Queues {
  import opened Lists

  class Item {
    var next: Item?
    const buffer: nat

    constructor (buffer: nat)
      ensures next == null && this.buffer == buffer
    {
      this.buffer := buffer;
      next := null;
    }
  }

  ghost predicate Chain(items: seq<Item>)
    reads items
  {
    && (forall i, j :: 0 <= i < j < |items| ==> items[i] != items[j])
    && (forall i, j :: 0 <= i && j == i + 1 && j < |items| ==> items[i].next == items[j])
    && (items != [] ==> items[|items| - 1].next == null)
  }

  lemma ChainTail(items: seq<Item>)
    requires items != [] && Chain(items)
    ensures Chain(items[1..]) && Buffers(items[1..]) == Buffers(items)[1..]
  {
    var t := items[1..];
    forall i, j | 0 <= i && j == i + 1 && j < |t| ensures t[i].next == t[j] {
      assert items[i + 1].next == items[j + 1];
    }
  }

  ghost function Removed<T>(s: seq<T>, n: nat): (t: seq<T>)
    requires n < |s|
    ensures |t| == |s| - 1
  {
    if n == 0 then s[1..] else [s[0]] + Removed(s[1..], n - 1)
  }

  lemma {:induction false} RemovedAt<T>(s: seq<T>, n: nat, k: nat)
    requires n < |s| && k < |s| - 1
    ensures Removed(s, n)[k] == if k < n then s[k] else s[k + 1]
  {
    if n > 0 && k > 0 { RemovedAt(s[1..], n - 1, k - 1); }
  }

  // The others keep their order.
  lemma {:induction false} RemovedIs<T>(s: seq<T>, n: nat)
    requires n < |s|
    ensures Removed(s, n) == s[..n] + s[n + 1..]
  {
    forall k | 0 <= k < |s| - 1 ensures Removed(s, n)[k] == (s[..n] + s[n + 1..])[k] { RemovedAt(s, n, k); }
  }

  lemma {:induction false} BuffersRemoved(items: seq<Item>, n: nat)
    requires n < |items|
    ensures Buffers(Removed(items, n)) == Removed(Buffers(items), n)
  {
    if n > 0 { BuffersRemoved(items[1..], n - 1); }
  }

  lemma ChainAt(items: seq<Item>, n: nat)
    requires Chain(items) && n < |items|
    ensures items[n].next == if n + 1 < |items| then items[n + 1] else null
    ensures forall i :: 0 <= i < |items| && i != n ==> items[i] != items[n]
  {
  }

  ghost function Nexts(items: seq<Item>): (s: seq<Item?>)
    reads items
    ensures |s| == |items| && forall i :: 0 <= i < |items| ==> s[i] == items[i].next
  {
    if items == [] then [] else [items[0].next] + Nexts(items[1..])
  }

  // The items around one that leaves, when the item before it skips it. The
  // links were was.
  lemma {:induction false} ChainRemoved(items: seq<Item>, was: seq<Item?>, n: nat)
    requires n < |items| == |was| && forall i, j :: 0 <= i < j < |items| ==> items[i] != items[j]
    requires (forall i, j :: 0 <= i && j == i + 1 && j < |items| ==> was[i] == items[j]) && was[|items| - 1] == null
    requires forall i :: 0 <= i < |items| && i + 1 != n ==> items[i].next == was[i]
    requires n > 0 ==> items[n - 1].next == was[n]
    ensures Chain(Removed(items, n))
  {
    var t := Removed(items, n);
    forall k | 0 <= k < |t| ensures t[k] == items[if k < n then k else k + 1] { RemovedAt(items, n, k); }
    hide Removed;
    forall i, j | 0 <= i && j == i + 1 && j < |t| ensures t[i].next == t[j] {
      assert t[i] == items[if i < n then i else i + 1] && t[j] == items[if j < n then j else j + 1];
      if i + 1 < n {
        assert was[i] == items[j];
      } else if i + 1 == n {
        assert was[n] == items[n + 1];
      } else {
        assert was[i + 1] == items[j + 1];
      }
    }
    if t != [] {
      var z := |t| - 1;
      assert t[z] == items[if z < n then z else z + 1];
    }
  }

  ghost function Buffers(items: seq<Item>): (s: seq<nat>)
    ensures |s| == |items| && forall i :: 0 <= i < |items| ==> s[i] == items[i].buffer
  {
    if items == [] then [] else [items[0].buffer] + Buffers(items[1..])
  }

  class Queue {
    var first: Item?
    var last: Item?
    ghost var items: seq<Item>      // the items of the queue, in order

    ghost predicate Valid()
      reads this, items
    {
      && Chain(items)
      && first == (if items == [] then null else items[0])
      && last == (if items == [] then null else items[|items| - 1])
    }

    ghost function Contents(): (s: seq<nat>)
      reads this
    {
      Buffers(items)
    }

    constructor ()
      ensures Valid() && Contents() == [] && items == []
    {
      first, last, items := null, null, [];
    }

    // comm_buf_to_queue
    method ToQueue(b: nat)
      requires Valid()
      modifies this, items
      ensures Valid() && Contents() == old(Contents()) + [b]
      ensures fresh(set i | i in items && i !in old(items))
    {
      var item := new Item(b);
      if last != null {
        last.next := item;
        last := item;
      } else {
        last, first := item, item;
      }
      items := items + [item];
    }

    // comm_buf_from_queue
    method FromQueue() returns (b: Option<nat>)
      requires Valid()
      modifies this
      ensures Valid()
      ensures old(Contents()) == [] ==> b == None && Contents() == []
      ensures old(Contents()) != [] ==> b == Some(old(Contents())[0]) && Contents() == old(Contents())[1..]
    {
      hide Buffers, Chain;
      var item := first;
      if item == null {
        assert items == [];
        assert Contents() == [] by { assert |Buffers(items)| == 0; }
        return None;
      }
      first := item.next;
      if first == null {
        last := null;
      }
      b := Some(item.buffer);
      ChainAt(items, 0);
      ChainTail(items);
      items := items[1..];
    }

    // comm_buf_del: the item at n leaves, whatever its place; the others keep
    // their order.
    method Del(prev: Item?, item: Item, ghost n: nat) returns (b: nat)
      requires Valid() && n < |items| && item == items[n] && prev == if n == 0 then null else items[n - 1]
      modifies this, items
      ensures Valid() && b == old(Contents())[n]
      ensures Contents() == Removed(old(Contents()), n) && items == Removed(old(items), n)
    {
      hide Buffers, Removed, Nexts;
      ghost var was := Nexts(items);
      ChainAt(items, n);
      if n > 0 { ChainAt(items, n - 1); }
      if |items| > 1 {
        RemovedAt(items, n, 0);
        RemovedAt(items, n, |items| - 2);
      }
      if prev == null && item.next == null {
        first := null;
        last := null;
      } else if prev == null {
        first := item.next;
      } else if item.next == null {
        last := prev;
        prev.next := null;
      } else {
        prev.next := item.next;
      }
      b := item.buffer;
      ChainRemoved(items, was, n);
      BuffersRemoved(items, n);
      items := Removed(items, n);
    }

    // The walk of mcp_r_fetch_answer and mcp_r_update_answer: the first waiter
    // that matches leaves.
    method TakeMatch(matches: nat -> bool) returns (b: Option<nat>)
      requires Valid()
      modifies this, items
      ensures Valid()
      ensures b.None? ==> Contents() == old(Contents()) && forall x :: x in Contents() ==> !matches(x)
      ensures b.Some? ==> matches(b.value) && exists n ::
        && 0 <= n < |old(Contents())| && old(Contents())[n] == b.value
        && (forall k :: 0 <= k < n ==> !matches(old(Contents())[k]))
        && Contents() == Removed(old(Contents()), n)
    {
      hide Buffers, Removed, Chain;
      var prev: Item? := null;
      var item := first;
      ghost var n := 0;
      while item != null
        invariant 0 <= n <= |items| && items == old(items) && Valid() && Contents() == old(Contents())
        invariant item == if n < |items| then items[n] else null
        invariant prev == if n == 0 then null else items[n - 1]
        invariant forall k :: 0 <= k < n ==> !matches(Contents()[k])
        invariant forall i :: 0 <= i < |items| ==> items[i].next == old(items[i].next)
        decreases |items| - n
      {
        if matches(item.buffer) {
          var x := Del(prev, item, n);
          return Some(x);
        }
        ChainAt(items, n);
        prev := item;
        item := item.next;
        n := n + 1;
      }
      b := None;
    }
  }
}
