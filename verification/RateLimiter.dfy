/**
 The sliding-window rate limiter of unattended execution. `reserve` compacts the slice of
 recent executions in place, and reads the clock twice: once for the cutoff, once for the
 slot it grants.
 */
module RateLimiting {

  /** The limiter with its history: `grants` is every slot ever granted. */
  datatype Limiter = Limiter(recent: seq<int>, grants: seq<int>, clock: int)

  datatype Call = Call(first: int, second: int)

  function Empty(start: int): Limiter { Limiter([], [], start) }

  /** The times after the cutoff, in order. */
  function Later(ts: seq<int>, cutoff: int): seq<int>
    decreases |ts|
  {
    if ts == [] then [] else
    var (init, t) := (ts[..|ts| - 1], ts[|ts| - 1]);
    if t > cutoff then Later(init, cutoff) + [t] else Later(init, cutoff)
  }

  predicate Allows(max: int, kept: seq<int>) { !(max > 0 && |kept| >= max) }

  function Reserve(max: int, window: int, l: Limiter, c: Call): Limiter {
    var kept := Later(l.recent, c.first - window);
    if Allows(max, kept) then Limiter(kept + [c.second], l.grants + [c.second], c.second)
    else Limiter(kept, l.grants, c.first)
  }

  predicate Sorted(ts: seq<int>) { forall i, j :: 0 <= i < j < |ts| ==> ts[i] <= ts[j] }

  predicate AllAtMost(ts: seq<int>, t: int) { forall i :: 0 <= i < |ts| ==> ts[i] <= t }

  /** Slot i + max comes at least a window after slot i. */
  ghost predicate Spaced(max: int, window: int, grants: seq<int>) {
    max > 0 ==> forall i, j :: 0 <= i && j == i + max && j < |grants| ==> grants[i] + window <= grants[j]
  }

  /** The slots the slice no longer holds have all left the window. */
  ghost predicate AgedOut(window: int, l: Limiter, aged: seq<int>) {
    l.grants == aged + l.recent && AllAtMost(aged, l.clock - window)
  }

  ghost predicate Inv(max: int, window: int, l: Limiter) {
    && Sorted(l.grants) && AllAtMost(l.grants, l.clock) && Spaced(max, window, l.grants)
    && exists aged :: AgedOut(window, l, aged)
  }

  predicate InOrder(l: Limiter, c: Call) { l.clock <= c.first <= c.second }

  /** On a sorted slice, dropping the old times drops a prefix. */
  lemma {:induction false} LaterIsSuffix(ts: seq<int>, cutoff: int) returns (aged: seq<int>)
    requires Sorted(ts)
    ensures ts == aged + Later(ts, cutoff) && AllAtMost(aged, cutoff)
    decreases |ts|
  {
    if ts == [] {
      aged := [];
    } else {
      var n := |ts| - 1;
      var init := ts[..n];
      assert ts == init + [ts[n]];
      aged := LaterIsSuffix(init, cutoff);
      if ts[n] <= cutoff {
        NoneLater(init, cutoff);
        aged := aged + [ts[n]];
      }
    }
  }

  lemma {:induction false} NoneLater(ts: seq<int>, cutoff: int)
    requires AllAtMost(ts, cutoff)
    ensures Later(ts, cutoff) == []
    decreases |ts|
  {
    if ts != [] {
      NoneLater(ts[..|ts| - 1], cutoff);
    }
  }

  lemma SpacedAppend(max: int, window: int, aged: seq<int>, kept: seq<int>, t: int)
    requires Spaced(max, window, aged + kept) && Allows(max, kept) && AllAtMost(aged, t - window)
    ensures Spaced(max, window, aged + kept + [t])
  {
  }

  lemma Compaction(window: int, l: Limiter, cutoff: int) returns (aged: seq<int>)
    requires Sorted(l.grants) && l.clock - window <= cutoff && exists was :: AgedOut(window, l, was)
    ensures l.grants == aged + Later(l.recent, cutoff) && AllAtMost(aged, cutoff)
  {
    var was :| AgedOut(window, l, was);
    assert forall i :: 0 <= i < |l.recent| ==> l.recent[i] == l.grants[|was| + i];
    var more := LaterIsSuffix(l.recent, cutoff);
    aged := was + more;
    assert was + (more + Later(l.recent, cutoff)) == aged + Later(l.recent, cutoff);
  }

  lemma ReserveKeeps(max: int, window: int, l: Limiter, c: Call)
    requires Inv(max, window, l) && InOrder(l, c)
    ensures Inv(max, window, Reserve(max, window, l, c))
  {
    var n, kept := Reserve(max, window, l, c), Later(l.recent, c.first - window);
    var aged := Compaction(window, l, c.first - window);
    if Allows(max, kept) {
      SpacedAppend(max, window, aged, kept, c.second);
      assert n.grants == aged + (kept + [c.second]);
    }
    assert AgedOut(window, n, aged);
  }

  lemma {:induction false} LaterConcat(x: seq<int>, y: seq<int>, cutoff: int)
    ensures Later(x + y, cutoff) == Later(x, cutoff) + Later(y, cutoff)
    decreases |y|
  {
    if y == [] {
      assert x + y == x;
    } else {
      assert (x + y)[..|x + y| - 1] == x + y[..|y| - 1];
      LaterConcat(x, y[..|y| - 1], cutoff);
    }
  }

  /** A slot is granted exactly when fewer than the maximum of all slots ever granted lie after the cutoff:
      what compaction forgot never matters. */
  lemma GrantsExactly(max: int, window: int, l: Limiter, c: Call)
    requires Inv(max, window, l) && InOrder(l, c)
    ensures var n := Reserve(max, window, l, c);
            n.grants == l.grants + [c.second] <==> max <= 0 || |Later(l.grants, c.first - window)| < max
  {
    var cutoff := c.first - window;
    var aged :| AgedOut(window, l, aged);
    LaterConcat(aged, l.recent, cutoff);
    NoneLater(aged, cutoff);
    assert |Reserve(max, window, l, c).grants| == |l.grants| + if Allows(max, Later(l.recent, cutoff)) then 1 else 0;
  }

  // ---- Every run -----------------------------------------------------------------------

  predicate IsRun(max: int, window: int, l: Limiter, calls: seq<Call>)
    decreases |calls|
  {
    calls == [] || (InOrder(l, calls[0]) && IsRun(max, window, Reserve(max, window, l, calls[0]), calls[1..]))
  }

  function After(max: int, window: int, l: Limiter, calls: seq<Call>): Limiter
    decreases |calls|
  {
    if calls == [] then l else After(max, window, Reserve(max, window, l, calls[0]), calls[1..])
  }

  lemma {:induction false} RunKeeps(max: int, window: int, l: Limiter, calls: seq<Call>)
    requires Inv(max, window, l) && IsRun(max, window, l, calls)
    ensures Inv(max, window, After(max, window, l, calls))
    decreases |calls|
  {
    if calls != [] {
      ReserveKeeps(max, window, l, calls[0]);
      RunKeeps(max, window, Reserve(max, window, l, calls[0]), calls[1..]);
    }
  }

  /** How many of the times fall in [from, from + window). */
  function CountIn(ts: seq<int>, from: int, window: int): (n: nat)
    ensures n <= |ts|
    decreases |ts|
  {
    if ts == [] then 0 else
    CountIn(ts[..|ts| - 1], from, window) + (if from <= ts[|ts| - 1] < from + window then 1 else 0)
  }

  lemma {:induction false} CountPrefix(ts: seq<int>, k: nat, from: int, window: int)
    requires k <= |ts| && forall i :: 0 <= i < k ==> ts[i] < from
    ensures CountIn(ts, from, window) <= |ts| - k
    decreases |ts|
  {
    if k < |ts| {
      CountPrefix(ts[..|ts| - 1], k, from, window);
    } else if ts != [] {
      CountPrefix(ts[..|ts| - 1], k - 1, from, window);
    }
  }

  lemma {:induction false} SpacedBoundsCount(max: int, window: int, grants: seq<int>, from: int)
    requires max > 0 && Sorted(grants) && Spaced(max, window, grants)
    ensures CountIn(grants, from, window) <= max
    decreases |grants|
  {
    if |grants| > max {
      var n := |grants| - 1;
      var init := grants[..n];
      assert forall i :: 0 <= i < n ==> init[i] == grants[i];
      if from <= grants[n] < from + window {
        var k := n - max + 1;
        assert grants[n - max] + window <= grants[n];
        forall i | 0 <= i < k ensures grants[i] < from {
          assert i < n - max ==> grants[i] <= grants[n - max];
        }
        CountPrefix(grants, k, from, window);
      } else {
        SpacedBoundsCount(max, window, init, from);
      }
    }
  }

  lemma EmptyInv(max: int, window: int, start: int)
    ensures Inv(max, window, Empty(start))
  {
    assert AgedOut(window, Empty(start), []);
  }

  /** Over every run of reservations under a non-decreasing clock, no half-open interval of one window holds
      more than max granted slots. */
  lemma WindowBound(max: int, window: int, start: int, calls: seq<Call>, from: int)
    requires max > 0 && IsRun(max, window, Empty(start), calls)
    ensures CountIn(After(max, window, Empty(start), calls).grants, from, window) <= max
  {
    EmptyInv(max, window, start);
    RunKeeps(max, window, Empty(start), calls);
    SpacedBoundsCount(max, window, After(max, window, Empty(start), calls).grants, from);
  }

  // ---- The slice -----------------------------------------------------------------------

  class Window {
    const maxPerWindow: int
    const window: int
    var buf: array<int>
    var len: nat
    ghost var l: Limiter

    ghost predicate Valid()
      reads this, buf
    {
      len <= buf.Length && buf[..len] == l.recent && Inv(maxPerWindow, window, l)
    }

    constructor (max: int, window: int, ghost start: int)
      ensures Valid() && fresh(buf) && maxPerWindow == max && this.window == window && l == Empty(start)
    {
      maxPerWindow, this.window := max, window;
      buf, len := new int[0], 0;
      l := Empty(start);
      EmptyInv(max, window, start);
    }

    /** Consume one slot if the window has one; `first` and `second` are the two clock readings. */
    method TryReserve(first: int, second: int) returns (ok: bool)
      requires Valid() && InOrder(l, Call(first, second))
      modifies this, buf
      ensures Valid() && (buf == old(buf) || fresh(buf))
      ensures l == Reserve(maxPerWindow, window, old(l), Call(first, second))
      ensures ok <==> l.grants == old(l).grants + [second]
    {
      ReserveKeeps(maxPerWindow, window, l, Call(first, second));
      Compact(first - window);
      ok := !(maxPerWindow > 0 && len >= maxPerWindow);
      if ok {
        Push(second);
      }
      l := Reserve(maxPerWindow, window, l, Call(first, second));
    }

    /** Keep the times after the cutoff, in place. */
    method Compact(cutoff: int)
      requires len <= buf.Length
      modifies this`len, buf
      ensures len <= buf.Length && buf[..len] == Later(old(buf[..len]), cutoff)
    {
      ghost var was := buf[..len];
      var n, kept := len, 0;
      for i := 0 to n
        invariant kept <= i && len == n
        invariant buf[..kept] == Later(was[..i], cutoff)
        invariant forall j :: i <= j < n ==> buf[j] == was[j]
      {
        assert was[..i + 1][..i] == was[..i];
        if buf[i] > cutoff {
          ghost var before := buf[..kept];
          buf[kept] := buf[i];
          kept := kept + 1;
          assert buf[..kept] == before + [was[i]];
        }
      }
      assert was[..n] == was;
      len := kept;
    }

    /** Append, moving to a larger array when the slice is full. */
    method Push(t: int)
      requires len <= buf.Length
      modifies this`len, this`buf, buf
      ensures (buf == old(buf) || fresh(buf)) && len <= buf.Length && buf[..len] == old(buf[..len]) + [t]
    {
      ghost var was := buf[..len];
      if len == buf.Length {
        var bigger, n := new int[2 * len + 1], len;
        for i := 0 to n
          invariant len == n && buf == old(buf) && bigger[..i] == was[..i] && buf[..n] == was
        {
          bigger[i] := buf[i];
        }
        buf := bigger;
        assert buf[..len] == was;
      }
      buf[len] := t;
      len := len + 1;
      assert buf[..len] == was + [t];
    }
  }
}
