/** The operand stack in segments (constable/language/execute_stack.c:49-121):
    it behaves like one sequence of cells. */
module ExecuteStack {
  import opened Registers

  const STACKLEN: nat := 4096

  class SegmentedStack {
    var segs: seq<array<Cell>>    // the chain of segments, from the first
    var offs: seq<nat>            // my_offset
    var cur: nat                  // the segment e->stack points to
    var pos: nat                  // cells in use
    var keep: bool                // keep_stack
    var free: seq<array<Cell>>    // free_stack

    ghost function Repr(): set<object>
      reads this
    {
      {this} + (set i | 0 <= i < |segs| :: segs[i]) + (set i | 0 <= i < |free| :: free[i])
    }

    // The chain is unbroken and no two segments are the same.
    ghost predicate Valid()
      reads this, Repr()
    {
      && |offs| == |segs| > cur
      && (forall k :: 0 <= k < |segs| ==> segs[k].Length == STACKLEN && offs[k] == k * STACKLEN)
      && (forall k :: 0 <= k < |free| ==> free[k].Length == STACKLEN)
      && (forall j, k :: 0 <= j < k < |segs| ==> segs[j] != segs[k])
      && (forall j, k :: 0 <= j < k < |free| ==> free[j] != free[k])
      && (forall j, k :: 0 <= j < |segs| && 0 <= k < |free| ==> segs[j] != free[k])
      && pos <= |segs| * STACKLEN
    }

    // The segment e->stack points to holds the top of the stack.
    ghost predicate Current()
      reads this
    {
      cur * STACKLEN <= pos <= (cur + 1) * STACKLEN
    }

    ghost function Cells(n: nat): (s: seq<Cell>)
      requires Valid() && n <= |segs| * STACKLEN
      reads this, Repr()
      ensures |s| == n
    {
      seq(n, i requires 0 <= i < n && Valid() && n <= |segs| * STACKLEN reads this,
        Repr() => segs[i / STACKLEN][i % STACKLEN])
    }

    ghost function Contents(): (s: seq<Cell>)
      requires Valid()
      reads this, Repr()
      ensures |s| == pos
    {
      Cells(pos)
    }

    constructor ()
      ensures Valid() && Current() && fresh(Repr()) && Contents() == [] && !keep
    {
      var s := new Cell[STACKLEN];
      segs, offs, cur, pos, keep, free := [s], [0], 0, 0, false, [];
    }

    // execute_get_stack: from the free list, or a new one.
    method GetStack() returns (s: array<Cell>)
      requires Valid()
      modifies this`free
      ensures Valid() && unchanged(this`segs) && s.Length == STACKLEN
      ensures s !in segs && s !in free
      ensures s in old(Repr()) || fresh(s)
      ensures Repr() <= old(Repr()) && Contents() == old(Contents())
    {
      if free != [] {
        s := free[0];
        free := free[1..];
      } else {
        s := new Cell[STACKLEN];
      }
    }

    // To the next segment of the chain; a new one is linked in behind the last.
    method Advance()
      requires Valid()
      modifies this
      ensures Valid() && cur == old(cur) + 1 && pos == old(pos) && keep == old(keep)
      ensures fresh(Repr() - old(Repr())) && Contents() == old(Contents())
    {
      if cur + 1 == |segs| {
        var s := GetStack();
        ghost var n := |segs|;
        ghost var chain := segs;
        segs, offs := segs + [s], offs + [0];
        assert forall k :: 0 <= k < n ==> segs[k] == chain[k];
      }
      offs := offs[cur + 1 := offs[cur] + STACKLEN];
      cur := cur + 1;
    }

    // The cell behind the top.
    method Put(data: Cell)
      requires Valid() && cur * STACKLEN <= pos < (cur + 1) * STACKLEN
      modifies this`pos, segs[cur]
      ensures Valid() && Current() && unchanged(this`segs) && unchanged(this`free) && unchanged(this`keep)
      ensures Contents() == old(Contents()) + [data]
    {
      var k := pos - offs[cur];
      assert pos / STACKLEN == cur && pos % STACKLEN == k;
      segs[cur][k] := data;
      pos := pos + 1;
    }

    // execute_push
    method Push(data: Cell)
      requires Valid() && cur * STACKLEN <= pos
      modifies Repr()
      ensures Valid() && Current() && fresh(Repr() - old(Repr())) && keep == old(keep)
      ensures Contents() == old(Contents()) + [data]
    {
      while pos >= offs[cur] + STACKLEN
        invariant Valid() && cur * STACKLEN <= pos && fresh(Repr() - old(Repr()))
        invariant keep == old(keep) && pos == old(pos) && Contents() == old(Contents())
        decreases pos - cur * STACKLEN
      {
        Advance();
      }
      Put(data);
    }

    // execute_put_stack, on the last segment of the chain.
    method PutStack()
      requires Valid() && cur + 1 < |segs| && pos <= (|segs| - 1) * STACKLEN
      modifies this
      ensures Valid() && cur == old(cur) && pos == old(pos) && keep == old(keep)
      ensures Repr() <= old(Repr()) && Contents() == old(Contents())
    {
      var n := |segs| - 1;
      free := [segs[n]] + free;
      segs, offs := segs[..n], offs[..n];
    }

    // The top cell.
    method Take() returns (data: Cell)
      requires Valid() && cur * STACKLEN < pos <= (cur + 1) * STACKLEN
      modifies this`pos
      ensures Valid() && Current()
      ensures data == Top(old(Contents())) && Contents() == Below(old(Contents()))
    {
      pos := pos - 1;
      assert pos / STACKLEN == cur && pos % STACKLEN == pos - offs[cur];
      data := segs[cur][pos - offs[cur]];
    }

    // execute_pop: an empty stack yields 0, and a segment that is left is freed
    // unless it is to be kept.
    method Pop() returns (data: Cell)
      requires Valid() && pos <= (cur + 1) * STACKLEN
      modifies this
      ensures Valid() && Repr() <= old(Repr()) && keep == old(keep)
      ensures cur <= old(cur) && pos <= (cur + 1) * STACKLEN && (old(pos) > 0 || old(Current()) ==> Current())
      ensures keep ==> segs == old(segs)
      ensures data == Top(old(Contents())) && Contents() == Below(old(Contents()))
    {
      if pos <= 0 {
        return 0;
      }
      while pos <= offs[cur]
        invariant Valid() && 0 < pos == old(pos) <= (cur + 1) * STACKLEN && keep == old(keep)
        invariant cur <= old(cur) && Repr() <= old(Repr()) && Contents() == old(Contents())
        invariant keep ==> segs == old(segs)
        decreases cur
      {
        if cur + 1 == |segs| && !keep {
          cur := cur - 1;
          PutStack();
        } else {
          cur := cur - 1;
        }
      }
      data := Take();
    }

    // execute_readstack, for a position above 0: down to the segment, and up
    // again when the position is its first cell.
    method ReadStack(at: nat) returns (data: Cell)
      requires Valid() && at > 0
      ensures data == if at < |segs| * STACKLEN then Cells(at + 1)[at] else 0
    {
      var s := cur;
      while at <= offs[s]
        invariant 0 <= s < |segs|
        decreases s
      {
        s := s - 1;
      }
      while s < |segs| && at >= offs[s] + STACKLEN
        invariant s <= |segs| && s * STACKLEN <= at
        decreases |segs| - s
      {
        s := s + 1;
      }
      if s == |segs| {
        return 0;
      }
      assert at / STACKLEN == s && at % STACKLEN == at - offs[s];
      data := segs[s][at - offs[s]];
    }

    // The cells below the top do not depend on where the top is.
    lemma CellsBelow(n: nat, m: nat)
      requires Valid() && n <= m <= |segs| * STACKLEN
      ensures Cells(m)[..n] == Cells(n)
    {
    }
  }
}
