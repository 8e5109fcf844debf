/** The window of in-flight appends as a queue: what src/tracker/inflights.rs implements with a ring. */
module WindowModel {
  import opened Options

  /** `incomingCap` is a smaller capacity that takes effect once the window has drained. */
  datatype Window = Window(items: seq<nat>, cap: nat, incomingCap: Option<nat>) {
    predicate Full() {
      |items| == cap || (incomingCap.Some? && |items| >= incomingCap.value)
    }

    function Add(x: nat): Window {
      this.(items := items + [x])
    }

    /** A drained window adopts the capacity that was waiting for it. */
    function Settle(): Window {
      if items == [] && incomingCap.Some? then Window([], incomingCap.value, None) else this
    }

    function FreeTo(to: nat): Window {
      if items == [] || to < items[0] then this else this.(items := DropUpTo(items, to)).Settle()
    }

    function FreeFirstOne(): Window {
      if items == [] then this else FreeTo(items[0])
    }

    function SetCap(c: nat): Window {
      if c >= cap then this.(cap := c, incomingCap := None)
      else if items == [] then Window([], c, None)
      else this.(incomingCap := Some(c))
    }

    function Reset(): Window {
      Window([], if incomingCap.Some? then incomingCap.value else cap, None)
    }
  }

  function Empty(cap: nat): Window {
    Window([], cap, None)
  }

  /** A new capacity counts from the next item on: the window is full exactly from `c` items on. */
  lemma CapacityCounts(w: Window, c: nat)
    requires |w.items| <= w.cap
    ensures w.SetCap(c).items == w.items && (w.SetCap(c).Full() <==> |w.items| >= c)
  {
  }

  /** Freeing keeps the capacity, unless it empties the window; then a capacity that waited is adopted. */
  lemma FreeingAdopts(w: Window, to: nat)
    requires w.items != [] && w.items[0] <= to
    ensures var v := w.FreeTo(to);
            && v.items == DropUpTo(w.items, to)
            && if v.items == [] && w.incomingCap.Some? then v.cap == w.incomingCap.value && v.incomingCap.None?
               else v.cap == w.cap && v.incomingCap == w.incomingCap
  {
    hide DropUpTo;
  }

  /** Drops leading items while they are at most `to`. */
  function DropUpTo(s: seq<nat>, to: nat): seq<nat> {
    if s == [] || to < s[0] then s else DropUpTo(s[1..], to)
  }
}

/** The window of in-flight appends as a resizable, lazily allocated ring: src/tracker/inflights.rs. */
module Ring {
  import opened Options
  import opened WindowModel

  class Inflights {
    var start: nat
    var count: nat
    var buffer: seq<nat>
    /** Whether the buffer's memory is allocated; an unallocated buffer is empty. */
    var reserved: bool
    var cap: nat
    var incomingCap: Option<nat>

    /** The place of the item `i` steps after the first. */
    ghost function Place(i: nat): int
      reads this
    {
      if start + i >= cap then start + i - cap else start + i
    }

    /** A ring that wraps is laid out completely; one that does not has at least the places it uses. */
    ghost predicate Valid()
      reads this
    {
      && count <= cap && |buffer| <= cap && (start < cap || start == 0)
      && (if start + count <= cap then start + count <= |buffer| else |buffer| == cap)
      && (!reserved ==> |buffer| == 0 && start == 0)
      && (incomingCap.Some? ==> count > 0 && incomingCap.value < cap)
    }

    ghost function Contents(): (s: seq<nat>)
      requires Valid()
      reads this
      ensures |s| == count
    {
      seq(count, i requires 0 <= i < count && Valid() reads this => buffer[Place(i)])
    }

    ghost function View(): Window
      requires Valid()
      reads this
    {
      Window(Contents(), cap, incomingCap)
    }

    constructor (capacity: nat)
      ensures Valid() && View() == Empty(capacity)
    {
      start, count, buffer, cap, incomingCap := 0, 0, [], capacity, None;
      reserved := capacity > 0;
    }

    method SetCap(c: nat)
      requires Valid()
      modifies this
      ensures Valid() && View() == old(View()).SetCap(c)
    {
      ghost var was := Contents();
      if cap == c {
        incomingCap := None;
      } else if cap < c {
        if start + count > cap {
          assert cap == |buffer|;
          buffer := buffer[start..] + buffer[0..count - (cap - start)];
          start := 0;
        }
        cap, incomingCap := c, None;
      } else if count == 0 {
        cap, incomingCap, start := c, None, 0;
        buffer, reserved := [], reserved && c > 0;
      } else {
        incomingCap := Some(c);
      }
      assert Contents() == was;
    }

    predicate Full()
      requires Valid()
      reads this
      ensures Full() == View().Full()
    {
      count == cap || (incomingCap.Some? && count >= incomingCap.value)
    }

    method Add(x: nat)
      requires Valid() && !Full()
      modifies this
      ensures Valid() && View() == old(View()).Add(x)
    {
      ghost var was := Contents();
      if !reserved {
        assert count == 0 && start == 0 && incomingCap.None?;
        buffer, reserved := [], cap > 0;
      }
      var next := start + count;
      if next >= cap {
        next := next - cap;
      }
      assert next <= |buffer|;
      if next == |buffer| {
        buffer := buffer + [x];
      } else {
        buffer := buffer[next := x];
      }
      count := count + 1;
      assert Contents() == was + [x];
    }

    /** Walks over the leading items that are at most `to`; `idx` is the place after them. */
    method Scan(to: nat) returns (i: nat, idx: nat)
      requires Valid() && count > 0
      ensures i <= count && idx == Place(i) && idx < cap
      ensures DropUpTo(Contents(), to) == Contents()[i..]
    {
      ghost var was := Contents();
      i, idx := 0, start;
      while i < count && to >= buffer[idx]
        invariant 0 <= i <= count
        invariant idx == Place(i) && idx < cap
        invariant i < count ==> idx < |buffer| && was[i] == buffer[idx]
        invariant DropUpTo(was, to) == DropUpTo(was[i..], to)
      {
        assert was[i..][1..] == was[i + 1..];
        idx := idx + 1;
        if idx >= cap {
          idx := idx - cap;
        }
        i := i + 1;
      }
    }

    method FreeTo(to: nat)
      requires Valid()
      modifies this
      ensures Valid() && View() == old(View()).FreeTo(to)
    {
      if count == 0 || to < buffer[start] {
        return;
      }
      var i, idx := Scan(to);
      Skip(i, idx);
    }

    /** Frees the first `i` items; a drained ring adopts the capacity that waits for it. */
    method Skip(i: nat, idx: nat)
      requires Valid() && i <= count && idx == Place(i) < cap
      modifies this
      ensures Valid() && View() == old(View()).(items := old(Contents())[i..]).Settle()
    {
      ghost var was := Contents();
      count, start := count - i, idx;
      if count == 0 && incomingCap.Some? {
        start, cap, incomingCap := 0, incomingCap.value, None;
        buffer, reserved := [], cap > 0;
      }
      assert Contents() == was[i..];
    }

    method FreeFirstOne()
      requires Valid()
      modifies this
      ensures Valid() && View() == old(View()).FreeFirstOne()
    {
      if count > 0 {
        FreeTo(buffer[start]);
      }
    }

    method Reset()
      requires Valid()
      modifies this
      ensures Valid() && View() == old(View()).Reset()
    {
      count, start, buffer, reserved := 0, 0, [], false;
      cap := if incomingCap.Some? then incomingCap.value else cap;
      incomingCap := None;
    }

    /** Releases the memory of a drained window, which nobody can notice. */
    method MaybeFreeBuffer()
      requires Valid()
      modifies this
      ensures Valid() && View() == old(View())
      ensures count == 0 ==> !reserved
    {
      if count == 0 {
        start, buffer, reserved := 0, [], false;
      }
    }
  }

  // What the queue does ---------------------------------------------------------------------------

  /** Freeing drops the longest prefix whose items are all at most `to`, and nothing else. */
  lemma {:induction false} FreesLongestPrefix(s: seq<nat>, to: nat) returns (k: nat)
    ensures k <= |s| && DropUpTo(s, to) == s[k..]
    ensures forall i :: 0 <= i < k ==> s[i] <= to
    ensures k < |s| ==> to < s[k]
  {
    if s == [] || to < s[0] {
      k := 0;
    } else {
      var r := FreesLongestPrefix(s[1..], to);
      k := r + 1;
      assert s[k..] == s[1..][r..];
    }
  }

  datatype Op = DoAdd(x: nat) | DoFreeTo(to: nat) | DoFreeFirst | DoSetCap(c: nat) | DoReset | DoFreeBuffer

  /** One operation on the queue; `Add` is called only when there is room. */
  ghost predicate Runs(w: Window, op: Op, w': Window) {
    match op
    case DoAdd(x) => !w.Full() && w' == w.Add(x)
    case DoFreeTo(to) => w' == w.FreeTo(to)
    case DoFreeFirst => w' == w.FreeFirstOne()
    case DoSetCap(c) => w' == w.SetCap(c)
    case DoReset => w' == w.Reset()
    case DoFreeBuffer => w' == w
  }

  ghost predicate IsHistory(ws: seq<Window>, ops: seq<Op>) {
    && |ws| == |ops| + 1 && (exists cap :: ws[0] == Empty(cap))
    && forall i :: 0 <= i < |ops| ==> Runs(ws[i], ops[i], ws[i + 1])
  }

  /** Everything added so far, in order. */
  ghost function Added(ops: seq<Op>): seq<nat> {
    if ops == [] then []
    else Added(ops[..|ops| - 1]) + (if ops[|ops| - 1].DoAdd? then [ops[|ops| - 1].x] else [])
  }

  ghost predicate IsSuffix(s: seq<nat>, t: seq<nat>) {
    |s| <= |t| && s == t[|t| - |s|..]
  }

  lemma FreeToSuffix(w: Window, to: nat)
    ensures IsSuffix(w.FreeTo(to).items, w.items)
    ensures w.incomingCap.Some? && w.FreeTo(to).items != [] ==> w.FreeTo(to).incomingCap == w.incomingCap
  {
    var k := FreesLongestPrefix(w.items, to);
    assert DropUpTo(w.items, to) == w.items[|w.items| - (|w.items| - k)..];
  }

  lemma RunsSuffix(w: Window, op: Op, w': Window, t: seq<nat>)
    requires Runs(w, op, w') && IsSuffix(w.items, t) && |w.items| <= w.cap
    requires w.incomingCap.Some? ==> w.items != [] && w.incomingCap.value < w.cap
    ensures IsSuffix(w'.items, if op.DoAdd? then t + [op.x] else t) && |w'.items| <= w'.cap
    ensures w'.incomingCap.Some? ==> w'.items != [] && w'.incomingCap.value < w'.cap
  {
    hide DropUpTo;
    if op.DoAdd? {
      assert (t + [op.x])[|t| - |w.items|..] == t[|t| - |w.items|..] + [op.x];
    } else if op.DoFreeTo? {
      FreeToSuffix(w, op.to);
      SuffixOfSuffix(w'.items, w.items, t);
    } else if op.DoFreeFirst? && w.items != [] {
      FreeToSuffix(w, w.items[0]);
      SuffixOfSuffix(w'.items, w.items, t);
    }
  }

  lemma SuffixOfSuffix(a: seq<nat>, b: seq<nat>, c: seq<nat>)
    requires IsSuffix(a, b) && IsSuffix(b, c)
    ensures IsSuffix(a, c)
  {
    assert c[|c| - |b|..][|b| - |a|..] == c[|c| - |a|..];
  }

  /**
   Over any sequence of operations the window is a first-in-first-out queue within its capacity: what it holds is
   always the latest part of what was added.
   */
  lemma {:induction false} WindowIsQueue(ws: seq<Window>, ops: seq<Op>)
    requires IsHistory(ws, ops)
    ensures var w := ws[|ops|];
            && IsSuffix(w.items, Added(ops)) && |w.items| <= w.cap
            && (w.incomingCap.Some? ==> w.items != [] && w.incomingCap.value < w.cap)
    decreases |ops|
  {
    if ops != [] {
      var n := |ops| - 1;
      assert forall i :: 0 <= i < n ==> Runs(ws[i], ops[i], ws[i + 1]);
      assert ws[..|ops|][0] == ws[0];
      assert IsHistory(ws[..|ops|], ops[..n]) by {
        forall i | 0 <= i < |ops[..n]|
          ensures Runs(ws[..|ops|][i], ops[..n][i], ws[..|ops|][i + 1])
        {
          assert Runs(ws[i], ops[i], ws[i + 1]);
        }
      }
      WindowIsQueue(ws[..|ops|], ops[..n]);
      RunsSuffix(ws[n], ops[n], ws[n + 1], Added(ops[..n]));
    }
  }

  /** With indexes added in order, as a leader does, freeing to `to` removes exactly those up to `to`. */
  lemma FreesExactly(s: seq<nat>, to: nat, x: nat)
    requires forall i, j :: 0 <= i < j < |s| ==> s[i] < s[j]
    ensures x in DropUpTo(s, to) <==> x in s && x > to
  {
    var k := FreesLongestPrefix(s, to);
    if x in s && x > to {
      var i :| 0 <= i < |s| && s[i] == x;
      assert s[k..][i - k] == x;
    }
  }
}
